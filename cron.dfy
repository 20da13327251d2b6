/**
 * The paging rule shared by `_check_server_status_cron` and
 * `_check_service_status_cron`: take the first 500 records of the table and
 * ask the scheduler to run again when a full page came back.
 */
module Cron {
  import opened Base

  const PageSize: nat := 500

  /** The scheduled action that the server cron re-triggers. */
  const ServerCronRef: string := "server_management.ir_cron_check_server_status"

  /** `search([], limit=500)`: the first records of the table, in its order. */
  function Page<T>(table: seq<T>): (page: seq<T>)
    ensures |page| <= PageSize && |page| <= |table|
    ensures page == table[..|page|]
    ensures |page| == PageSize || page == table
  {
    if |table| <= PageSize then table else table[..PageSize]
  }

  /** `len(records) == 500`. */
  predicate ShouldRetrigger(count: nat)
  {
    count == PageSize
  }

  /**
   * The cron re-triggers exactly when the table holds at least a page of
   * records, so also when it holds exactly 500 and no work is left.
   */
  lemma RetriggerIffTableFull<T>(table: seq<T>)
    ensures ShouldRetrigger(|Page(table)|) <==> |table| >= PageSize
  {
  }

  /**
   * The page does not depend on earlier runs: records past the first 500 of a
   * table without repeats are never in it, however often the cron re-triggers.
   */
  lemma LaterRecordsNeverPaged<T>(table: seq<T>, k: nat)
    requires Distinct(table)
    requires PageSize <= k < |table|
    ensures table[k] !in Page(table)
  {
    var page := Page(table);
    forall i | 0 <= i < |page| ensures page[i] != table[k] {
      assert page[i] == table[i];
    }
  }
}

/**
 * Values shared by the models of models/server.py and models/service.py:
 * optional values, results, the exceptions the code raises or catches, and
 * what a remote host answers when it is connected to or asked to run a command.
 */
module Base {
  datatype Option<T> = None | Some(value: T)

  datatype Result<T, E> = Ok(value: T) | Err(error: E)

  /** No record occurs twice (a recordset returned by `search`). */
  predicate Distinct<T(==)>(s: seq<T>)
  {
    forall i, j :: 0 <= i < j < |s| ==> s[i] != s[j]
  }

  /** Index of the first `c` in `s`, or `|s|` when there is none. */
  function FirstIndexOf(s: string, c: char): (i: nat)
    ensures i <= |s|
  {
    if s == [] || s[0] == c then 0 else 1 + FirstIndexOf(s[1..], c)
  }

  /** `FirstIndexOf` is the first occurrence: no `c` comes before it. */
  lemma {:induction false} FirstIndexOfSpec(s: string, c: char)
    ensures var i := FirstIndexOf(s, c);
      (forall k :: 0 <= k < i ==> s[k] != c) && (i < |s| ==> s[i] == c)
  {
    if s != [] && s[0] != c {
      FirstIndexOfSpec(s[1..], c);
      assert forall k :: 1 <= k < |s| ==> s[k] == s[1..][k - 1];
    }
  }

  /** A position with no `c` before it and a `c` or the end at it is the first occurrence. */
  lemma {:induction false} FirstIndexOfAt(s: string, c: char, n: nat)
    requires n <= |s| && (n < |s| ==> s[n] == c)
    requires forall k :: 0 <= k < n ==> s[k] != c
    ensures FirstIndexOf(s, c) == n
  {
    if n > 0 {
      assert s[0] != c;
      assert forall k :: 0 <= k < n - 1 ==> s[1..][k] == s[k + 1];
      FirstIndexOfAt(s[1..], c, n - 1);
    }
  }

  /** An opaque clock reading (what `fields.Datetime.now()` gives). */
  type Time = nat

  /** The exceptions of the core, by Python class; `msg` is what `str(e)` gives. */
  datatype Failure =
    | AuthenticationFailed(msg: string)  // paramiko.AuthenticationException
    | SshFailed(msg: string)             // any other paramiko.SSHException
    | ValidationFailed(msg: string)      // odoo.exceptions.ValidationError
    | UserFailed(msg: string)            // odoo.exceptions.UserError
    | UnboundLocal(msg: string)          // UnboundLocalError: a local read before assignment
    | OtherFailed(msg: string)           // any other Exception (socket errors, AttributeError, ...)

  /** The `password_type` selection of a server; `Unset` is the selection left empty. */
  datatype AuthType = Password | Key | Unset

  /** What `SSHClient.connect` does for one host: returns, or raises. */
  datatype ConnectOutcome = Connected | ConnectRaised(error: Failure)

  /**
   * What `exec_command` on a connected client gives for one command: the exit
   * status with the decoded stdout and stderr, or an exception.
   */
  datatype ExecOutcome =
    | Finished(exit: int, stdout: string, stderr: string)
    | ExecRaised(error: Failure)
}

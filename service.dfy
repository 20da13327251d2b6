/**
 * models/service.py: the `service` record, which runs `systemctl` on its
 * server over SSH to learn or change the state of a systemd unit.
 *
 * `_execute_command` is a recordset method that returns from inside its loop,
 * so it always works on the server of the FIRST record of the set it is called
 * on. `check_service_status`, `start_service`, `stop_service` and
 * `restart_service` call it on the whole set, so every command they run goes
 * to the first record's server, while the unit named is each record's own.
 */
module Services {
  import opened Base
  import Text
  import Cron
  import Servers

  datatype ServiceStatus = Active | Inactive | Failed

  class Service {
    const name: string
    const server: Servers.Server
    var status: ServiceStatus
    var lastChecked: Option<Time>
    /** The bodies posted to the record's chatter, oldest first. */
    var messages: seq<string>

    /** A new record with the field defaults: status `inactive`, never checked. */
    constructor (name: string, server: Servers.Server)
      ensures this.name == name && this.server == server
      ensures status == Inactive && lastChecked == None && messages == []
    {
      this.name := name;
      this.server := server;
      status := Inactive;
      lastChecked := None;
      messages := [];
    }
  }

  // ---------------------------------------------------------------------
  // systemctl command lines

  const Systemctl: string := "systemctl "

  datatype Action = Start | Stop | Restart

  function Verb(a: Action): string
  {
    match a
    case Start => "start"
    case Stop => "stop"
    case Restart => "restart"
  }

  function Done(a: Action): string
  {
    match a
    case Start => "started"
    case Stop => "stopped"
    case Restart => "restarted"
  }

  const IsActive: string := "is-active"

  /** `f'systemctl {verb} {unit}'`. */
  function SystemctlLine(verb: string, unit: string): string
  {
    Systemctl + verb + " " + unit
  }

  /** Reads a `systemctl` line back into its verb and unit. */
  function ParseSystemctl(line: string): Option<(string, string)>
  {
    if |line| < |Systemctl| || line[..|Systemctl|] != Systemctl then None
    else
      var rest := line[|Systemctl|..];
      var i := FirstIndexOf(rest, ' ');
      if i == |rest| then None else Some((rest[..i], rest[i + 1..]))
  }

  /**
   * A command line names its verb and unit unambiguously: different units (or
   * verbs) never share a line, so the host's answer to one is never taken for
   * another.
   */
  lemma ParseSystemctlLine(verb: string, unit: string)
    requires forall k :: 0 <= k < |verb| ==> verb[k] != ' '
    ensures ParseSystemctl(SystemctlLine(verb, unit)) == Some((verb, unit))
  {
    var line := SystemctlLine(verb, unit);
    assert line[..|Systemctl|] == Systemctl;
    var rest := line[|Systemctl|..];
    assert rest == verb + " " + unit;
    assert forall k :: 0 <= k < |verb| ==> rest[k] == verb[k];
    assert rest[|verb|] == ' ';
    FirstIndexOfAt(rest, ' ', |verb|);
    assert rest[..|verb|] == verb && rest[|verb| + 1..] == unit;
  }

  // ---------------------------------------------------------------------
  // Running one command

  const ExecFailedPrefix: string := "Failed to execute command: "

  const ExitFailedPrefix: string := "Error executing command: "

  /**
   * The body of `_execute_command` for one host, with `reach` what its
   * connect does and `answer` what the command gives: the stripped stdout
   * when the command exits with 0; otherwise a UserError, which for a
   * nonzero exit carries the stripped stderr wrapped twice (once by the
   * raise, once by the except clause that catches it again).
   */
  function Reply(auth: AuthType, reach: ConnectOutcome, answer: ExecOutcome): Result<string, Failure>
  {
    var attempt := Servers.GetSshClient(auth, reach);
    match attempt.client
    case Err(e) => Err(UserFailed(ExecFailedPrefix + e.msg))
    case Ok(c) =>
      match Servers.ExecOn(c, answer)
      case ExecRaised(e) => Err(UserFailed(ExecFailedPrefix + e.msg))
      case Finished(exit, out, err) =>
        if exit != 0 then Err(UserFailed(ExecFailedPrefix + ExitFailedPrefix + Text.Strip(err)))
        else Ok(Text.Strip(out))
  }

  /** What `Reply` gives in each case. */
  lemma ReplyCases(auth: AuthType, reach: ConnectOutcome, answer: ExecOutcome)
    ensures Reply(auth, reach, answer).Ok? <==>
      auth == Password && reach == Connected && answer.Finished? && answer.exit == 0
    ensures Reply(auth, reach, answer).Ok? ==> Reply(auth, reach, answer).value == Text.Strip(answer.stdout)
    ensures auth == Password && reach == Connected && answer.Finished? && answer.exit != 0 ==>
      Reply(auth, reach, answer) == Err(UserFailed(ExecFailedPrefix + ExitFailedPrefix + Text.Strip(answer.stderr)))
    ensures auth == Password && reach == Connected && answer.ExecRaised? ==>
      Reply(auth, reach, answer) == Err(UserFailed(ExecFailedPrefix + answer.error.msg))
    ensures auth == Password && reach.ConnectRaised? ==>
      Reply(auth, reach, answer) == Err(UserFailed(ExecFailedPrefix + reach.error.msg))
    ensures auth == Key ==> Reply(auth, reach, answer) == Err(UserFailed(ExecFailedPrefix + Servers.NoTransportMsg))
    ensures auth == Unset ==> Reply(auth, reach, answer) == Err(UserFailed(ExecFailedPrefix + Servers.UnknownAuthMsg))
  {
  }

  /**
   * Whatever goes wrong reaches the caller as one UserError whose text starts
   * with "Failed to execute command: ", and the output handed back never
   * starts or ends with whitespace.
   */
  lemma ReplyShape(auth: AuthType, reach: ConnectOutcome, answer: ExecOutcome)
    ensures var r := Reply(auth, reach, answer);
      (r.Err? ==> r.error.UserFailed? && ExecFailedPrefix <= r.error.msg)
      && (r.Ok? && r.value != [] ==> !Text.IsSpace(r.value[0]) && !Text.IsSpace(r.value[|r.value| - 1]))
  {
    if answer.Finished? {
      Text.StripSpec(answer.stdout);
    }
  }

  /** `_execute_command(command)` on `host`, for the `dial`-th connect made while one record is processed. */
  function HostReply(host: Servers.Server, command: string, remote: Servers.Remote, dial: nat): Result<string, Failure>
  {
    Reply(host.authType, remote.reach(host, dial), remote.answer(host, command))
  }

  /** The value `_execute_command` returns from inside its loop, or the exception it raises there. */
  function Returned(reply: Result<string, Failure>): Result<Option<string>, Failure>
  {
    match reply
    case Ok(out) => Ok(Some(out))
    case Err(e) => Err(e)
  }

  /**
   * `_execute_command`: the first record's server runs the command and the
   * loop returns (or raises) there; an empty set returns `None`.
   */
  method ExecuteCommand(services: seq<Service>, command: string, remote: Servers.Remote, dial: nat)
    returns (r: Result<Option<string>, Failure>)
    ensures services == [] ==> r == Ok(None)
    ensures services != [] ==> r == Returned(HostReply(services[0].server, command, remote, dial))
  {
    for i := 0 to |services|
      invariant i == 0
    {
      var reply := HostReply(services[i].server, command, remote, dial);
      match reply {
        case Err(e) => return Err(e);
        case Ok(out) => return Ok(Some(out));
      }
    }
    return Ok(None);
  }

  // ---------------------------------------------------------------------
  // Status check

  /** What `check_service_status` makes of `_execute_command`'s outcome. */
  function StatusOf(r: Result<Option<string>, Failure>): (s: ServiceStatus)
    ensures s == Active <==> r == Ok(Some("active"))
    ensures s == Inactive <==> r == Ok(Some("inactive"))
  {
    match r
    case Ok(Some(out)) => if out == "active" then Active else if out == "inactive" then Inactive else Failed
    case _ => Failed
  }

  /**
   * The status a check of `unit` on `host` gives (`HostStatus`): `active` (or `inactive`)
   * exactly when a `password` host was reached and `systemctl is-active`
   * exited with 0 and printed that word, up to surrounding whitespace;
   * `failed` otherwise.
   */
  function HostStatus(host: Servers.Server, unit: string, remote: Servers.Remote, dial: nat): ServiceStatus
  {
    StatusOf(Returned(HostReply(host, SystemctlLine(IsActive, unit), remote, dial)))
  }

  lemma HostStatusMeaning(host: Servers.Server, unit: string, remote: Servers.Remote, dial: nat)
    ensures var s := HostStatus(host, unit, remote, dial);
      var answer := remote.answer(host, SystemctlLine(IsActive, unit));
      (s == Active <==>
        (host.authType == Password && remote.reach(host, dial) == Connected
         && answer.Finished? && answer.exit == 0 && Text.Strip(answer.stdout) == "active"))
      && (s == Inactive <==>
        (host.authType == Password && remote.reach(host, dial) == Connected
         && answer.Finished? && answer.exit == 0 && Text.Strip(answer.stdout) == "inactive"))
  {
  }

  /**
   * A unit is never seen `inactive` unless `systemctl is-active` exits with
   * 0; it exits with 3 for a unit that is not running, so such a unit is
   * recorded as `failed`.
   */
  lemma InactiveNeedsZeroExit(host: Servers.Server, unit: string, remote: Servers.Remote, dial: nat)
    requires remote.answer(host, SystemctlLine(IsActive, unit)).Finished?
    requires remote.answer(host, SystemctlLine(IsActive, unit)).exit != 0
    ensures HostStatus(host, unit, remote, dial) == Failed
  {
  }

  /** A `key` server's client never connects, so every unit on it is `failed`. */
  lemma KeyHostAlwaysFailed(host: Servers.Server, unit: string, remote: Servers.Remote, dial: nat)
    requires host.authType == Key
    ensures HostStatus(host, unit, remote, dial) == Failed
  {
  }

  /** Whitespace around the printed word does not matter. */
  lemma PaddedActive(host: Servers.Server, unit: string, remote: Servers.Remote, dial: nat, pre: string, post: string)
    requires Text.AllSpace(pre) && Text.AllSpace(post)
    requires host.authType == Password && remote.reach(host, dial) == Connected
    requires var answer := remote.answer(host, SystemctlLine(IsActive, unit));
      answer.Finished? && answer.exit == 0 && answer.stdout == pre + "active" + post
    ensures HostStatus(host, unit, remote, dial) == Active
  {
    Text.StripRemovesPadding(pre, "active", post);
  }

  /**
   * `check_service_status`: every record gets the status the FIRST record's
   * server reports for the record's own unit, and is stamped with `now`;
   * every exception is caught, and nothing is posted.
   */
  method CheckServiceStatus(services: seq<Service>, remote: Servers.Remote, now: Time, dial: nat)
    modifies services
    ensures forall s :: s in services ==>
      s.status == HostStatus(services[0].server, s.name, remote, dial) && s.lastChecked == Some(now)
    ensures forall s :: s in services ==> s.messages == old(s.messages)
  {
    for i := 0 to |services|
      invariant services != [] ==> Observed(services[..i], services, remote, now, dial)
      invariant forall s :: s in services ==> s.messages == old(s.messages)
    {
      ObserveOne(services, i, remote, now, dial);
    }
    assert services[..|services|] == services;
  }

  /** Every record of `done` has the status the first record of `services`'s server reports, and is stamped. */
  predicate Observed(done: seq<Service>, services: seq<Service>, remote: Servers.Remote, now: Time, dial: nat)
    requires services != []
    reads done
  {
    forall s :: s in done ==>
      s.status == HostStatus(services[0].server, s.name, remote, dial) && s.lastChecked == Some(now)
  }

  /** One iteration of `check_service_status`: the try and except clauses, and the `finally` stamp. */
  method ObserveOne(services: seq<Service>, i: nat, remote: Servers.Remote, now: Time, dial: nat)
    requires i < |services|
    requires Observed(services[..i], services, remote, now, dial)
    modifies services[i]
    ensures Observed(services[..i + 1], services, remote, now, dial)
    ensures services[i].messages == old(services[i].messages)
  {
    var service := services[i];
    var r := ExecuteCommand(services, SystemctlLine(IsActive, service.name), remote, dial);
    service.status := StatusOf(r);
    // finally
    service.lastChecked := Some(now);
    assert services[..i + 1] == services[..i] + [service];
  }

  /**
   * `_check_service_status_cron`: checks the first page of the table and
   * asks for another run exactly when the page is full. The job it triggers
   * is the SERVER status cron, not this one.
   */
  method CheckServiceStatusCron(table: seq<Service>, remote: Servers.Remote, now: Time) returns (trigger: Option<string>)
    requires Distinct(table)
    modifies table
    ensures var page := Cron.Page(table);
      forall j :: 0 <= j < |page| ==>
        table[j].status == HostStatus(table[0].server, table[j].name, remote, 0) && table[j].lastChecked == Some(now)
    ensures forall k :: |Cron.Page(table)| <= k < |table| ==>
      table[k].status == old(table[k].status) && table[k].lastChecked == old(table[k].lastChecked)
    ensures forall k :: 0 <= k < |table| ==> table[k].messages == old(table[k].messages)
    ensures trigger.Some? <==> Cron.ShouldRetrigger(|Cron.Page(table)|)
    ensures trigger.Some? ==> trigger.value == Cron.ServerCronRef
  {
    var records := Cron.Page(table);
    forall k | |records| <= k < |table| ensures table[k] !in records {
      assert forall j :: 0 <= j < |records| ==> records[j] == table[j];
    }
    CheckServiceStatus(records, remote, now, 0);
    trigger := if Cron.ShouldRetrigger(|records|) then Some(Cron.ServerCronRef) else None;
  }

  // ---------------------------------------------------------------------
  // Start, stop, restart

  /** The reply of `host` to the action's command for `unit`. */
  function ActionReply(host: Servers.Server, unit: string, action: Action, remote: Servers.Remote): Result<string, Failure>
  {
    HostReply(host, SystemctlLine(Verb(action), unit), remote, 0)
  }

  /**
   * The first record, at or after `from`, whose action command fails; every
   * command runs on the first record's server.
   */
  function FirstFailure(services: seq<Service>, action: Action, remote: Servers.Remote, from: nat): (k: Option<nat>)
    requires from <= |services|
    ensures k.Some? ==>
      from <= k.value < |services| && ActionReply(services[0].server, services[k.value].name, action, remote).Err?
    decreases |services| - from
  {
    if from == |services| then None
    else if ActionReply(services[0].server, services[from].name, action, remote).Err? then Some(from)
    else FirstFailure(services, action, remote, from + 1)
  }

  /**
   * `FirstFailure` finds the first failing command: none fails from `from` on
   * when it finds nothing, and otherwise the one it finds fails and all
   * before it succeed.
   */
  lemma {:induction false} FirstFailureFinds(services: seq<Service>, action: Action, remote: Servers.Remote, from: nat)
    requires from <= |services|
    ensures var k := FirstFailure(services, action, remote, from);
      (k.None? <==>
        forall i :: from <= i < |services| ==> ActionReply(services[0].server, services[i].name, action, remote).Ok?)
      && (k.Some? ==>
            ActionReply(services[0].server, services[k.value].name, action, remote).Err?
            && forall i :: from <= i < k.value ==> ActionReply(services[0].server, services[i].name, action, remote).Ok?)
    decreases |services| - from
  {
    if from < |services| && ActionReply(services[0].server, services[from].name, action, remote).Ok? {
      FirstFailureFinds(services, action, remote, from + 1);
    }
  }

  function SuccessNote(action: Action, unit: string): string
  {
    "Service '" + unit + "' " + Done(action) + " successfully."
  }

  function FailureNote(action: Action, unit: string, error: string): string
  {
    "Failed to " + Verb(action) + " service '" + unit + "': " + error
  }

  function ActionFailure(action: Action, unit: string): Failure
  {
    UserFailed("Failed to " + Verb(action) + " service " + unit + ". See logs for details.")
  }

  /** The fields of a record that the actions change, as they were at some moment. */
  datatype Fields = Fields(status: ServiceStatus, lastChecked: Option<Time>, messages: seq<string>)

  function FieldsOf(service: Service): Fields
    reads service
  {
    Fields(service.status, service.lastChecked, service.messages)
  }

  function Snapshot(services: seq<Service>): (before: seq<Fields>)
    reads services
    ensures |before| == |services| && forall j :: 0 <= j < |services| ==> before[j] == FieldsOf(services[j])
  {
    if services == [] then [] else Snapshot(services[..|services| - 1]) + [FieldsOf(services[|services| - 1])]
  }

  /**
   * A record whose action succeeded, given its fields `before`: its status is
   * what its OWN server reports (the check after the action runs on the
   * record alone, as the second connect for it), it is stamped, and the
   * success note is posted.
   */
  predicate Acted(service: Service, before: Fields, remote: Servers.Remote, now: Time, action: Action)
    reads service
  {
    service.status == HostStatus(service.server, service.name, remote, 1)
    && service.lastChecked == Some(now)
    && service.messages == before.messages + [SuccessNote(action, service.name)]
  }

  /** A record whose action failed: status unchanged, stamped, failure note posted. */
  predicate Refused(service: Service, before: Fields, now: Time, action: Action, error: Failure)
    reads service
  {
    service.status == before.status
    && service.lastChecked == Some(now)
    && service.messages == before.messages + [FailureNote(action, service.name, error.msg)]
  }

  /**
   * The state `start_service`, `stop_service` and `restart_service` leave,
   * from the fields `before`, and what they raise: the records in order until
   * the first whose command fails; that one is stamped, gets the failure note
   * and the UserError is raised; the records after it are left alone.
   */
  predicate ActionApplied(services: seq<Service>, before: seq<Fields>, action: Action, remote: Servers.Remote,
                          now: Time, raised: Option<Failure>)
    requires |before| == |services|
    reads services
  {
    var k := FirstFailure(services, action, remote, 0);
    var stop := if k.Some? then k.value else |services|;
    (raised.Some? <==> k.Some?)
    && (forall j :: 0 <= j < stop ==> Acted(services[j], before[j], remote, now, action))
    && (k.Some? ==>
          raised.value == ActionFailure(action, services[stop].name)
          && Refused(services[stop], before[stop], now, action,
                     ActionReply(services[0].server, services[stop].name, action, remote).error))
    && (forall j :: stop < j < |services| ==> FieldsOf(services[j]) == before[j])
  }

  /**
   * The loop's state before record `i`: no command before `i` failed, and
   * every record before `i` was acted on.
   */
  predicate Progress(services: seq<Service>, before: seq<Fields>, i: nat, action: Action, remote: Servers.Remote,
                     now: Time)
    requires i <= |services| == |before|
    reads services
  {
    FirstFailure(services, action, remote, 0) == FirstFailure(services, action, remote, i)
    && forall j :: 0 <= j < i ==> Acted(services[j], before[j], remote, now, action)
  }

  /** The loop the three actions share. */
  method ApplyAction(services: seq<Service>, action: Action, remote: Servers.Remote, now: Time)
    returns (raised: Option<Failure>)
    requires Distinct(services)
    modifies services
    ensures ActionApplied(services, old(Snapshot(services)), action, remote, now, raised)
  {
    ghost var before := Snapshot(services);
    var i := 0;
    while i < |services|
      invariant 0 <= i <= |services|
      invariant Progress(services, before, i, action, remote, now)
      invariant forall j :: i <= j < |services| ==> FieldsOf(services[j]) == before[j]
    {
      var ok := ActOne(services, i, before, action, remote, now);
      if !ok {
        raised := Some(ActionFailure(action, services[i].name));
        StoppedAt(services, before, i, action, remote, now, raised);
        return;
      }
      i := i + 1;
    }
    raised := None;
    RanThrough(services, before, action, remote, now);
  }

  /** The loop's state when it raises at record `i`. */
  lemma StoppedAt(services: seq<Service>, before: seq<Fields>, i: nat, action: Action, remote: Servers.Remote,
                  now: Time, raised: Option<Failure>)
    requires |before| == |services| && i < |services|
    requires Progress(services, before, i, action, remote, now)
    requires ActionReply(services[0].server, services[i].name, action, remote).Err?
    requires raised == Some(ActionFailure(action, services[i].name))
    requires Refused(services[i], before[i], now, action, ActionReply(services[0].server, services[i].name, action, remote).error)
    requires forall j :: i < j < |services| ==> FieldsOf(services[j]) == before[j]
    ensures ActionApplied(services, before, action, remote, now, raised)
  {
  }

  /** The loop's state when every record was processed. */
  lemma RanThrough(services: seq<Service>, before: seq<Fields>, action: Action, remote: Servers.Remote, now: Time)
    requires |before| == |services|
    requires Progress(services, before, |services|, action, remote, now)
    ensures ActionApplied(services, before, action, remote, now, None)
  {
  }

  /**
   * One iteration of the action loop, for record `i` of `services`: the
   * action's command on the first record's server; on failure the failure
   * note and the `finally` stamp. Returns whether the command succeeded; on
   * success the loop's state extends to record `i + 1`.
   */
  method ActOne(services: seq<Service>, i: nat, ghost before: seq<Fields>, action: Action, remote: Servers.Remote,
                now: Time)
    returns (ok: bool)
    requires Distinct(services) && i < |services| == |before|
    requires Progress(services, before, i, action, remote, now) && FieldsOf(services[i]) == before[i]
    modifies services[i]
    ensures ok <==> ActionReply(services[0].server, services[i].name, action, remote).Ok?
    ensures ok ==> Progress(services, before, i + 1, action, remote, now)
    ensures !ok ==>
      Refused(services[i], before[i], now, action, ActionReply(services[0].server, services[i].name, action, remote).error)
  {
    var service := services[i];
    var r := ExecuteCommand(services, SystemctlLine(Verb(action), service.name), remote, 0);
    if r.Err? {
      service.messages := service.messages + [FailureNote(action, service.name, r.error.msg)];
      service.lastChecked := Some(now);
      return false;
    }
    Acknowledge(service, action, remote, now);
    assert FirstFailure(services, action, remote, i) == FirstFailure(services, action, remote, i + 1);
    forall j | 0 <= j < i
      ensures Acted(services[j], before[j], remote, now, action)
    {
      assert services[j] != service;
      assert old(Acted(services[j], before[j], remote, now, action));
    }
    return true;
  }

  /**
   * The rest of the iteration once the command on `service` succeeded: the
   * check of the record alone (the second connect for it), the success note
   * and the `finally` stamp.
   */
  method Acknowledge(service: Service, action: Action, remote: Servers.Remote, now: Time)
    modifies service
    ensures Acted(service, old(FieldsOf(service)), remote, now, action)
  {
    var alone := [service];
    CheckServiceStatus(alone, remote, now, 1);
    assert alone[0] == service;
    service.messages := service.messages + [SuccessNote(action, service.name)];
    // finally
    service.lastChecked := Some(now);
  }

  method StartService(services: seq<Service>, remote: Servers.Remote, now: Time) returns (raised: Option<Failure>)
    requires Distinct(services)
    modifies services
    ensures ActionApplied(services, old(Snapshot(services)), Start, remote, now, raised)
  {
    raised := ApplyAction(services, Start, remote, now);
  }

  method StopService(services: seq<Service>, remote: Servers.Remote, now: Time) returns (raised: Option<Failure>)
    requires Distinct(services)
    modifies services
    ensures ActionApplied(services, old(Snapshot(services)), Stop, remote, now, raised)
  {
    raised := ApplyAction(services, Stop, remote, now);
  }

  method RestartService(services: seq<Service>, remote: Servers.Remote, now: Time) returns (raised: Option<Failure>)
    requires Distinct(services)
    modifies services
    ensures ActionApplied(services, old(Snapshot(services)), Restart, remote, now, raised)
  {
    raised := ApplyAction(services, Restart, remote, now);
  }

  /**
   * When the first record's server is a `key` server, no action ever
   * succeeds: the first record is refused and nothing else is touched.
   */
  lemma KeyHostRefusesActions(services: seq<Service>, action: Action, remote: Servers.Remote)
    requires |services| > 0 && services[0].server.authType == Key
    ensures FirstFailure(services, action, remote, 0) == Some(0)
  {
  }
}

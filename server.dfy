/**
 * models/server.py: the `server`, `server.command` and `server.maintenance`
 * records and what their methods do to them.
 *
 * A recordset (`self` in an Odoo method) is a sequence of records; a method
 * on it is a method here that takes the sequence. The SSH library is replaced
 * by a `Remote`: what connecting to a host does, and what a command run on it
 * gives back.
 */
module Servers {
  import opened Base
  import IpAddress
  import Cron

  datatype ServerStatus = Running | Stopped | Error

  datatype CommandStatus = Pending | Running | Completed | Failed

  datatype MaintenanceStatus = Scheduled | InProgress | Completed | Cancelled

  class Server {
    const name: string
    const ipAddress: string
    const authType: AuthType
    var status: ServerStatus
    var lastChecked: Option<Time>

    /** A new record with the field defaults: status `running`, never checked. */
    constructor (name: string, ipAddress: string, authType: AuthType)
      ensures this.name == name && this.ipAddress == ipAddress && this.authType == authType
      ensures status == ServerStatus.Running && lastChecked == None
    {
      this.name := name;
      this.ipAddress := ipAddress;
      this.authType := authType;
      status := ServerStatus.Running;
      lastChecked := None;
    }
  }

  /**
   * The remote side, fixed for the duration of one call: `reach(s, n)` is what
   * a `connect` to server `s` does when it is the `n`-th connect (counting from
   * 0) made while one record is processed, whatever servers the earlier ones
   * went to; `answer(s, c)` is what running command `c` on `s` over a
   * connected client gives.
   */
  datatype Remote = Remote(reach: (Server, nat) -> ConnectOutcome, answer: (Server, string) -> ExecOutcome)

  /** A `paramiko.SSHClient`; `connected` is false until `connect` has returned. */
  datatype SshClient = SshClient(connected: bool)

  const UnknownAuthMsg: string := "Unknown password type for server authentication."

  /** What `exec_command` raises on a client that never connected (it has no transport). */
  const NoTransportMsg: string := "'NoneType' object has no attribute 'open_session'"

  /** What `ssh.close()` raises when no client was ever assigned to `ssh`. */
  const UnboundSshMsg: string := "cannot access local variable 'ssh' where it is not associated with a value"

  // ---------------------------------------------------------------------
  // The address constraint

  /**
   * `_check_ip_address`: raises a ValidationError naming the first record
   * whose address does not match the pattern, and nothing when all match.
   */
  method CheckIpAddress(servers: seq<Server>) returns (raised: Option<Failure>)
    ensures raised.None? <==> forall i :: 0 <= i < |servers| ==> IpAddress.IsValidIp(servers[i].ipAddress)
    ensures raised.Some? ==>
      (exists i :: 0 <= i < |servers| && !IpAddress.IsValidIp(servers[i].ipAddress)
        && (forall j :: 0 <= j < i ==> IpAddress.IsValidIp(servers[j].ipAddress))
        && raised.value == ValidationFailed(servers[i].ipAddress + " is not a valid IP address."))
  {
    for i := 0 to |servers|
      invariant forall j :: 0 <= j < i ==> IpAddress.IsValidIp(servers[j].ipAddress)
    {
      if !IpAddress.IsValidIp(servers[i].ipAddress) {
        return Some(ValidationFailed(servers[i].ipAddress + " is not a valid IP address."));
      }
    }
    return None;
  }

  // ---------------------------------------------------------------------
  // Client creation

  /** A client, or the exception `_get_ssh_client` let out; `dialled` says whether it called `connect`. */
  datatype ClientAttempt = ClientAttempt(client: Result<SshClient, Failure>, dialled: bool)

  /**
   * `_get_ssh_client`: a `password` server is connected to, and whatever
   * `connect` raises is raised again; a `key` server gets a client that never
   * connects; any other type is refused with a ValidationError before any
   * connection is attempted.
   */
  function GetSshClient(auth: AuthType, reach: ConnectOutcome): (a: ClientAttempt)
    ensures a.dialled <==> auth == Password
    ensures a.client.Ok? <==> auth == Key || (auth == Password && reach == Connected)
    ensures a.client.Ok? ==> (a.client.value.connected <==> auth == Password)
    ensures auth == Password && reach.ConnectRaised? ==> a.client == Err(reach.error)
    ensures auth == Unset ==> a.client == Err(ValidationFailed(UnknownAuthMsg))
  {
    match auth
    case Password =>
      ClientAttempt(if reach.Connected? then Ok(SshClient(true)) else Err(reach.error), true)
    case Key => ClientAttempt(Ok(SshClient(false)), false)
    case Unset => ClientAttempt(Err(ValidationFailed(UnknownAuthMsg)), false)
  }

  /** `exec_command` on a client: the host's answer when connected, an exception otherwise. */
  function ExecOn(client: SshClient, answer: ExecOutcome): ExecOutcome
  {
    if client.connected then answer else ExecRaised(OtherFailed(NoTransportMsg))
  }

  /**
   * The first iteration reads `ssh` in its `finally` before anything was ever
   * assigned to it exactly when its `_get_ssh_client` raised; later iterations
   * always find the client of an earlier record there.
   */
  predicate FirstUnbound(bound: seq<bool>)
  {
    |bound| > 0 && !bound[0]
  }

  /** How many records a loop with the `ssh` hazard updates before it stops. */
  function Reached(bound: seq<bool>): nat
  {
    if FirstUnbound(bound) then 1 else |bound|
  }

  // ---------------------------------------------------------------------
  // Status check

  /**
   * One iteration of `check_server_status`: the client assigned to `ssh` (none
   * when `_get_ssh_client` raised), the exception caught, and the number of
   * `connect` calls made. `first` is what `_get_ssh_client`'s connect does,
   * `second` what the method's own connect to the same host does.
   */
  datatype Probe = Probe(client: Option<SshClient>, caught: Option<Failure>, dials: nat)

  function ProbeServer(auth: AuthType, first: ConnectOutcome, second: ConnectOutcome): (p: Probe)
    ensures p.client.Some? <==> auth == Key || (auth == Password && first == Connected)
    ensures p.client.None? ==> p.caught == Some(GetSshClient(auth, first).client.error)
    ensures p.client.Some? ==> (p.caught.None? <==> auth == Key || second == Connected)
    ensures auth == Password && first == Connected && second.ConnectRaised? ==> p.caught == Some(second.error)
    ensures p.dials == (if auth == Password then (if first == Connected then 2 else 1) else 0)
  {
    var a := GetSshClient(auth, first);
    match a.client
    case Err(e) => Probe(None, Some(e), if a.dialled then 1 else 0)
    case Ok(c) =>
      if auth == Password then
        Probe(Some(c), if second.Connected? then None else Some(second.error), 2)
      else
        Probe(Some(c), None, 0)
  }

  /** The except clauses: authentication failure stops, every other exception is an error. */
  function StatusAfter(caught: Option<Failure>): ServerStatus
  {
    match caught
    case None => ServerStatus.Running
    case Some(AuthenticationFailed(_)) => Stopped
    case Some(_) => Error
  }

  predicate RaisesAuth(o: ConnectOutcome)
  {
    o.ConnectRaised? && o.error.AuthenticationFailed?
  }

  /**
   * The status `check_server_status` gives a server: `running` for a `key`
   * server, without any connection, and for a `password` server whose host
   * accepts both connections; `stopped` when authentication fails on either;
   * `error` for any other failure and for an unset authentication type.
   */
  function CheckedStatus(auth: AuthType, first: ConnectOutcome, second: ConnectOutcome): (s: ServerStatus)
    ensures s == ServerStatus.Running <==> auth == Key || (auth == Password && first == Connected && second == Connected)
    ensures s == Stopped <==>
      auth == Password && (RaisesAuth(first) || (first == Connected && RaisesAuth(second)))
    ensures s == Error <==>
      (auth == Unset
       || (auth == Password && first.ConnectRaised? && !RaisesAuth(first))
       || (auth == Password && first == Connected && second.ConnectRaised? && !RaisesAuth(second)))
  {
    StatusAfter(ProbeServer(auth, first, second).caught)
  }

  function ProbeOf(server: Server, remote: Remote): Probe
  {
    ProbeServer(server.authType, remote.reach(server, 0), remote.reach(server, 1))
  }

  /** The record's status is the one `CheckedStatus` gives, and it is stamped with `now`. */
  predicate Checked(server: Server, remote: Remote, now: Time)
    reads server
  {
    server.status == CheckedStatus(server.authType, remote.reach(server, 0), remote.reach(server, 1))
    && server.lastChecked == Some(now)
  }

  function Probes(servers: seq<Server>, remote: Remote): seq<Probe>
  {
    seq(|servers|, i requires 0 <= i < |servers| => ProbeOf(servers[i], remote))
  }

  function Bound(ps: seq<Probe>): seq<bool>
  {
    seq(|ps|, i requires 0 <= i < |ps| => ps[i].client.Some?)
  }

  /**
   * The try and except clauses of `check_server_status` for one record, and
   * the stamp of its `finally`. Returns whether a client was assigned to
   * `ssh`, and how many times `connect` was called.
   */
  method CheckOne(server: Server, remote: Remote, now: Time) returns (bound: bool, dials: nat)
    modifies server
    ensures Checked(server, remote, now)
    ensures bound == ProbeOf(server, remote).client.Some? && dials == ProbeOf(server, remote).dials
  {
    var attempt := GetSshClient(server.authType, remote.reach(server, 0));
    dials := if attempt.dialled then 1 else 0;
    bound := false;
    var caught: Option<Failure> := None;
    match attempt.client {
      case Err(e) =>
        caught := Some(e);
      case Ok(c) =>
        bound := true;
        if server.authType == Password {
          var again := remote.reach(server, 1);
          dials := dials + 1;
          if again.ConnectRaised? {
            caught := Some(again.error);
          }
        }
        // a `key` server is not connected to; `_get_ssh_client` already refused any other type
        if caught.None? {
          server.status := ServerStatus.Running;
          server.lastChecked := Some(now);
        }
    }
    if caught.Some? {
      server.status := StatusAfter(caught);
    }
    server.lastChecked := Some(now);
  }

  /**
   * The state `check_server_status` leaves: each record it reached has the
   * status `CheckedStatus` gives and is stamped; it stops with an
   * UnboundLocalError after the first record exactly when that record's client
   * could not be created; the records after the point where it stopped keep
   * their state.
   */
  twostate predicate ServersChecked(servers: seq<Server>, remote: Remote, now: Time, new raised: Option<Failure>)
    reads servers
  {
    var bound := Bound(Probes(servers, remote));
    (raised.Some? <==> FirstUnbound(bound))
    && (raised.Some? ==> raised.value == UnboundLocal(UnboundSshMsg))
    && (forall j :: 0 <= j < Reached(bound) ==> Checked(servers[j], remote, now))
    && (forall j :: Reached(bound) <= j < |servers| ==>
          servers[j].status == old(servers[j].status) && servers[j].lastChecked == old(servers[j].lastChecked))
  }

  /**
   * `check_server_status`: the records in order, each in its own try block,
   * until the `finally` of the first record finds `ssh` unassigned.
   */
  method CheckServerStatus(servers: seq<Server>, remote: Remote, now: Time) returns (raised: Option<Failure>)
    requires Distinct(servers)
    modifies servers
    ensures ServersChecked(servers, remote, now, raised)
  {
    ghost var bound := Bound(Probes(servers, remote));
    var ssh: Option<nat> := None;
    var i := 0;
    while i < |servers|
      invariant 0 <= i <= |servers|
      invariant i == 0 ==> ssh.None?
      invariant i > 0 ==> bound[0] && ssh.Some?
      invariant forall j :: 0 <= j < i ==> Checked(servers[j], remote, now)
      invariant forall j :: i <= j < |servers| ==>
        servers[j].status == old(servers[j].status) && servers[j].lastChecked == old(servers[j].lastChecked)
    {
      var got, _ := CheckOne(servers[i], remote, now);
      if got {
        ssh := Some(i);
      }
      // finally: `ssh.close()`
      if ssh.None? {
        return Some(UnboundLocal(UnboundSshMsg));
      }
      i := i + 1;
    }
    raised := None;
  }

  /**
   * `_check_server_status_cron`: checks the first page of the table and asks
   * for another run exactly when the page is full and the check did not raise.
   */
  method CheckServerStatusCron(table: seq<Server>, remote: Remote, now: Time)
    returns (trigger: Option<string>, raised: Option<Failure>)
    requires Distinct(table)
    modifies table
    ensures ServersChecked(Cron.Page(table), remote, now, raised)
    ensures forall k :: |Cron.Page(table)| <= k < |table| ==>
      table[k].status == old(table[k].status) && table[k].lastChecked == old(table[k].lastChecked)
    ensures trigger.Some? <==> raised.None? && Cron.ShouldRetrigger(|Cron.Page(table)|)
    ensures trigger.Some? ==> trigger.value == Cron.ServerCronRef
  {
    var records := Cron.Page(table);
    assert Distinct(records) by {
      assert forall k :: 0 <= k < |records| ==> records[k] == table[k];
    }
    raised := CheckServerStatus(records, remote, now);
    if raised.Some? {
      return None, raised;
    }
    trigger := if Cron.ShouldRetrigger(|records|) then Some(Cron.ServerCronRef) else None;
  }

  // ---------------------------------------------------------------------
  // Commands

  class Command {
    const name: string
    const text: string
    const server: Server
    var result: string
    var status: CommandStatus
    /** Every status assigned to the record, in order. */
    ghost var history: seq<CommandStatus>

    /** A new record with the field defaults: status `pending`, no result. */
    constructor (name: string, text: string, server: Server)
      ensures this.name == name && this.text == text && this.server == server
      ensures status == Pending && result == [] && history == []
    {
      this.name := name;
      this.text := text;
      this.server := server;
      result := [];
      status := Pending;
      history := [];
    }
  }

  /**
   * One iteration of `execute_command`: the client assigned to `ssh`, the
   * final `result` and `status`, and the statuses assigned along the way.
   */
  datatype Run = Run(client: Option<SshClient>, result: string, status: CommandStatus, steps: seq<CommandStatus>)

  /**
   * The command is `completed` exactly when a `password` server was connected
   * to and the command exited with 0, otherwise `failed`; `running` is set as
   * soon as a client exists; the result is stdout followed by stderr when the
   * command ran, the exception text otherwise. A `key` server's client never
   * connects, so its commands always fail.
   */
  function RunCommand(auth: AuthType, reach: ConnectOutcome, answer: ExecOutcome): (r: Run)
    ensures r.status == CommandStatus.Completed <==>
      auth == Password && reach == Connected && answer.Finished? && answer.exit == 0
    ensures r.status == CommandStatus.Completed || r.status == Failed
    ensures r.client.Some? <==> auth == Key || (auth == Password && reach == Connected)
    ensures r.steps == if r.client.Some? then [CommandStatus.Running, r.status] else [r.status]
    ensures auth == Password && reach == Connected && answer.Finished? ==> r.result == answer.stdout + answer.stderr
    ensures auth == Password && reach == Connected && answer.ExecRaised? ==> r.result == answer.error.msg
    ensures auth == Password && reach.ConnectRaised? ==> r.result == reach.error.msg
    ensures auth == Key ==> r.result == NoTransportMsg
    ensures auth == Unset ==> r.result == UnknownAuthMsg
  {
    var a := GetSshClient(auth, reach);
    match a.client
    case Err(e) => Run(None, e.msg, Failed, [Failed])
    case Ok(c) =>
      match ExecOn(c, answer)
      case Finished(exit, out, err) =>
        var status := if exit == 0 then CommandStatus.Completed else Failed;
        Run(Some(c), out + err, status, [CommandStatus.Running, status])
      case ExecRaised(e) => Run(Some(c), e.msg, Failed, [CommandStatus.Running, Failed])
  }

  function RunOf(command: Command, remote: Remote): Run
  {
    RunCommand(command.server.authType, remote.reach(command.server, 0), remote.answer(command.server, command.text))
  }

  /** The record's status, result and status history are those `RunCommand` gives. */
  twostate predicate Executed(command: Command, remote: Remote)
    reads command
  {
    var r := RunOf(command, remote);
    command.status == r.status && command.result == r.result
    && command.history == old(command.history) + r.steps
  }

  twostate predicate Untouched(command: Command)
    reads command
  {
    command.status == old(command.status) && command.result == old(command.result)
    && command.history == old(command.history)
  }

  function CommandsBound(commands: seq<Command>, remote: Remote): seq<bool>
  {
    seq(|commands|, i requires 0 <= i < |commands| => RunOf(commands[i], remote).client.Some?)
  }

  /**
   * The try and except clauses of `execute_command` for one record. Returns
   * whether a client was assigned to `ssh`.
   */
  method RunOne(command: Command, remote: Remote) returns (bound: bool)
    modifies command
    ensures Executed(command, remote)
    ensures bound == RunOf(command, remote).client.Some?
  {
    var server := command.server;
    var attempt := GetSshClient(server.authType, remote.reach(server, 0));
    bound := false;
    var caught: Option<Failure> := None;
    match attempt.client {
      case Err(e) =>
        caught := Some(e);
      case Ok(c) =>
        bound := true;
        command.status := CommandStatus.Running;
        command.history := command.history + [CommandStatus.Running];
        match ExecOn(c, remote.answer(server, command.text)) {
          case Finished(exit, out, err) =>
            command.result := out + err;
            command.status := if exit == 0 then CommandStatus.Completed else Failed;
            command.history := command.history + [command.status];
          case ExecRaised(e) =>
            caught := Some(e);
        }
    }
    if caught.Some? {
      command.result := caught.value.msg;
      command.status := Failed;
      command.history := command.history + [Failed];
    }
  }

  /**
   * `execute_command`. Each record reached ends as `RunCommand` says; the loop
   * stops with an UnboundLocalError after the first record exactly when that
   * record's client could not be created; the records after the point where it
   * stopped are untouched.
   */
  method ExecuteCommand(commands: seq<Command>, remote: Remote) returns (raised: Option<Failure>)
    requires Distinct(commands)
    modifies commands
    ensures raised.Some? <==> FirstUnbound(CommandsBound(commands, remote))
    ensures raised.Some? ==> raised.value == UnboundLocal(UnboundSshMsg)
    ensures forall j :: 0 <= j < Reached(CommandsBound(commands, remote)) ==> Executed(commands[j], remote)
    ensures forall j :: Reached(CommandsBound(commands, remote)) <= j < |commands| ==> Untouched(commands[j])
  {
    ghost var bound := CommandsBound(commands, remote);
    var ssh: Option<nat> := None;
    var i := 0;
    while i < |commands|
      invariant 0 <= i <= |commands|
      invariant i == 0 ==> ssh.None?
      invariant i > 0 ==> bound[0] && ssh.Some?
      invariant forall j :: 0 <= j < i ==> Executed(commands[j], remote)
      invariant forall j :: i <= j < |commands| ==> Untouched(commands[j])
    {
      var got := RunOne(commands[i], remote);
      if got {
        ssh := Some(i);
      }
      // finally: `ssh.close()`; the `write` of the same values changes nothing
      if ssh.None? {
        return Some(UnboundLocal(UnboundSshMsg));
      }
      i := i + 1;
    }
    raised := None;
  }

  // ---------------------------------------------------------------------
  // Maintenance

  class Maintenance {
    const name: string
    const server: Server
    var status: MaintenanceStatus
    var endDate: Option<Time>

    /** A new record with the field defaults: status `scheduled`, no end date. */
    constructor (name: string, server: Server)
      ensures this.name == name && this.server == server
      ensures status == Scheduled && endDate == None
    {
      this.name := name;
      this.server := server;
      status := Scheduled;
      endDate := None;
    }
  }

  function ServersOf(ms: seq<Maintenance>): set<Server>
  {
    set m | m in ms :: m.server
  }

  /**
   * `start_maintenance`: every record becomes `in_progress` and its server
   * `stopped`, whatever either was before.
   */
  method StartMaintenance(ms: seq<Maintenance>)
    modifies ms, ServersOf(ms)
    ensures forall m :: m in ms ==> m.status == InProgress && m.server.status == Stopped
    ensures forall m :: m in ms ==> m.endDate == old(m.endDate) && m.server.lastChecked == old(m.server.lastChecked)
  {
    for i := 0 to |ms|
      invariant forall j :: 0 <= j < i ==> ms[j].status == InProgress && ms[j].server.status == Stopped
      invariant forall m :: m in ms ==> m.endDate == old(m.endDate) && m.server.lastChecked == old(m.server.lastChecked)
    {
      ms[i].status := InProgress;
      ms[i].server.status := Stopped;
    }
  }

  /**
   * `complete_maintenance`: every record becomes `completed` with an end date,
   * and its server `running`.
   */
  method CompleteMaintenance(ms: seq<Maintenance>, now: Time)
    modifies ms, ServersOf(ms)
    ensures forall m :: m in ms ==>
      m.status == MaintenanceStatus.Completed && m.endDate == Some(now) && m.server.status == ServerStatus.Running
    ensures forall m :: m in ms ==> m.server.lastChecked == old(m.server.lastChecked)
  {
    for i := 0 to |ms|
      invariant forall j :: 0 <= j < i ==>
        ms[j].status == MaintenanceStatus.Completed && ms[j].endDate == Some(now) && ms[j].server.status == ServerStatus.Running
      invariant forall m :: m in ms ==> m.server.lastChecked == old(m.server.lastChecked)
    {
      ms[i].status := MaintenanceStatus.Completed;
      ms[i].endDate := Some(now);
      ms[i].server.status := ServerStatus.Running;
    }
  }

  /** `cancel_maintenance`: every record becomes `cancelled`; servers are left alone. */
  method CancelMaintenance(ms: seq<Maintenance>)
    modifies ms
    ensures forall m :: m in ms ==> m.status == Cancelled && m.endDate == old(m.endDate)
    ensures forall m :: m in ms ==> m.server.status == old(m.server.status)
  {
    for i := 0 to |ms|
      invariant forall j :: 0 <= j < i ==> ms[j].status == Cancelled
      invariant forall m :: m in ms ==> m.endDate == old(m.endDate)
    {
      ms[i].status := Cancelled;
    }
  }
}

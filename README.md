# Server management: a Dafny model

This project models the two Odoo model files of the server-management app. `models/server.py` holds
the `server`, `server.command` and `server.maintenance` records. `models/service.py` holds the
`service` record, a systemd unit on a server.

An Odoo recordset (`self` in a method) is modelled as a sequence of class instances. A method on a
recordset becomes a Dafny method that takes the sequence, loops over it and assigns the records'
fields in place. The SSH library is not modelled. A `Servers.Remote` value replaces it:
- `reach(s, n)` says what a `connect` to server `s` does when it is the `n`-th connect made while one
  record is processed, whatever servers the earlier connects went to.
- `answer(s, c)` says what command `c` run on `s` gives: an exit status with stdout and stderr, or
  an exception.

The clock is a parameter `now`. Apart from what "## Left out" lists, everything is modelled as the
code is written.

Modules:
- `Base` (base.dfy): `Option`, `Result`, the exceptions (`Failure`), the authentication types and
  the outcomes of `connect` and `exec_command`.
- `Text` (text.dfy): Python's `str.strip()`.
- `IpAddress` (ip_address.dfy): the address pattern of `_is_valid_ip`. A group counter reads it
  the way the regular expression does. The reference reading splits on dots.
- `Cron` (cron.dfy): the page of 500 records and the re-trigger rule that both crons share.
- `Servers` (server.dfy): the server, command and maintenance records and their methods.
- `Services` (service.dfy): the service record, `_execute_command`, the status check, the cron and
  the start, stop and restart actions.

The code does these things, and the model proves them as written:
- The address pattern does not bound octets, so `192.168.1.256` is accepted (`AcceptsOctet256`).
  The repository's test `tests/test_server_management.py:52-60` expects it to be refused; the model
  follows the code. Because `$` also matches before a final newline, an address followed by one
  newline is accepted as well (`AcceptsFinalNewline`).
- `check_server_status` connects twice to a `password` server: once inside `_get_ssh_client` and
  once more itself. An authentication failure on either connect gives `stopped`; any other failure
  gives `error`.
- A `key` server is never connected to. The status check marks it `running`. Yet every command on
  it fails, because `exec_command` on a client that never connected raises.
- `check_server_status` and `execute_command` read `ssh` in their `finally` clauses. When
  `_get_ssh_client` raises for the first record, `ssh` was never assigned: the `finally` raises
  UnboundLocalError and the loop stops after that record. For a later record, the previous
  record's client is found there instead.
- `_execute_command` returns from inside its loop, so it works on the first record of its recordset
  only. `check_service_status` and the three actions call it on the whole set. Every `systemctl`
  command therefore goes to the first record's server, with each record's own unit name.
- A nonzero exit raises a UserError that the method's own `except` clause catches and wraps again.
  The caller sees "Failed to execute command: Error executing command: " followed by the stripped
  stderr.
- `systemctl is-active` exits with 3 for a stopped unit. The nonzero exit raises, so a status check
  never records `inactive` for it; it records `failed` (`InactiveNeedsZeroExit`).
- After a successful action, the status check runs on the record alone, so it asks the record's own
  server. The first failing action posts a note, stamps the record and raises, so the records after
  it are not processed.
- The service cron re-triggers the *server* status cron reference, not its own.
- The cron's `search([], limit=500)` has no offset, so every run gets the same first page. A table of 500
  or more records re-triggers on that page again and again, and record 501 is never reached
  (`LaterRecordsNeverPaged`).

## Model

| member | source | states |
|---|---|---|
| IpAddress.GroupCountSplit | models/server.py:54 | the pattern's group matcher accepts a text exactly when every dot-separated part of it is one to three digits, and it then counts the parts |
| IpAddress.IsValidIpIffDottedQuad | models/server.py:50-55 | an address is valid exactly when, without one final newline, it splits on '.' into four groups of one to three digits |
| IpAddress.AcceptsAnyGroups | models/server.py:54 | any dot-joined sequence of one-to-three-digit groups matches with that many groups, whatever the groups' values |
| IpAddress.AcceptsOctet256 | models/server.py:54-55 | `192.168.1.256` is a valid address: octets are not range-checked |
| IpAddress.AcceptsFinalNewline | models/server.py:54-55 | an address that matches stays valid with one newline appended, since `$` matches before a final newline |
| IpAddress.RejectsThreeGroups | models/server.py:54-55 | three groups are refused |
| IpAddress.RejectsEmptyGroup | models/server.py:54-55 | an empty group between two dots is refused |
| IpAddress.RejectsLongGroup | models/server.py:54-55 | a four-digit group is refused |
| Servers.CheckIpAddress | models/server.py:43-48 | raises nothing exactly when every record's address is valid; otherwise raises a ValidationError that names the first invalid address |
| Servers.Server.constructor | models/server.py:14-35 | a new server is `running` and has never been checked |
| Servers.GetSshClient | models/server.py:57-76 | `password` connects and re-raises what `connect` raises; `key` returns a client without connecting; any other type raises a ValidationError before any connection |
| Servers.ProbeServer | models/server.py:82-92 | a client is assigned exactly for `key` and for a connected `password` server; the exception caught is the one the first failing connect raises; a `password` server is dialled twice when the first connect succeeds |
| Servers.CheckedStatus | models/server.py:81-107 | `running` exactly for `key` and for a `password` server that accepts both connects; `stopped` exactly on an authentication failure; `error` for every other failure and an unknown type |
| Servers.CheckOne | models/server.py:82-109 | the record gets the status `CheckedStatus` gives and `last_checked`; it reports whether `ssh` was assigned and how many connects were made |
| Servers.CheckServerStatus | models/server.py:78-110 | each record reached is checked and stamped; UnboundLocalError is raised exactly when the first record got no client, and processing stops there; later records keep their state |
| Servers.CheckServerStatusCron | models/server.py:112-117 | checks the first 500 records only, leaves the rest alone, and re-triggers the server cron exactly when 500 came back and the check did not raise |
| Servers.Command.constructor | models/server.py:136-145 | a new command is `pending` with no result |
| Servers.RunCommand | models/server.py:155-166 | `completed` exactly when a `password` server was connected and the command exited with 0, `failed` otherwise; `running` is set first whenever a client exists; the result is stdout followed by stderr, or the exception text |
| Servers.RunOne | models/server.py:156-166 | the record's status, result and status history are those `RunCommand` gives |
| Servers.ExecuteCommand | models/server.py:153-169 | each record reached ends as `RunCommand` says; UnboundLocalError is raised exactly when the first record got no client; later records are untouched |
| Servers.Maintenance.constructor | models/server.py:176-190 | a new maintenance is `scheduled` with no end date |
| Servers.StartMaintenance | models/server.py:199-204 | every record is `in_progress` and its server `stopped`; end dates and check stamps are unchanged |
| Servers.CompleteMaintenance | models/server.py:206-212 | every record is `completed` with an end date and its server `running` |
| Servers.CancelMaintenance | models/server.py:214-218 | every record is `cancelled`; servers' statuses and end dates are unchanged |
| Cron.Page | models/server.py:114 | the page is a prefix of the table of at most 500 records; it is the whole table unless it is full |
| Cron.RetriggerIffTableFull | models/server.py:116-117 | the cron re-triggers exactly when the table holds at least 500 records |
| Cron.LaterRecordsNeverPaged | models/service.py:79-82 | a record past the first 500 is never on the page the search returns |
| Text.StripSpec | models/service.py:41-44 | `strip()` gives an empty text exactly for all-whitespace input; otherwise a text with non-space ends, sitting right after the leading whitespace and followed only by whitespace |
| Text.StripRemovesPadding | models/service.py:44 | `strip()` removes exactly the whitespace padded around a text that has non-space ends |
| Text.StripIdempotent | models/service.py:44 | stripping twice is stripping once |
| Services.Service.constructor | models/service.py:13-22 | a new service is `inactive`, never checked, and has no posted messages |
| Services.ParseSystemctlLine | models/service.py:57 | a `systemctl <verb> <unit>` line reads back as that verb and unit, so different units never share a command line |
| Services.ReplyCases | models/service.py:36-48 | the reply is the stripped stdout exactly when a `password` host was connected and the command exited with 0; each failure gives its UserError text |
| Services.ReplyShape | models/service.py:40-48 | every failure reaches the caller as a UserError starting "Failed to execute command: "; returned output never starts or ends with whitespace |
| Services.ExecuteCommand | models/service.py:31-51 | an empty set returns nothing; otherwise the command runs on the first record's server only |
| Services.StatusOf | models/service.py:58-71 | `active` exactly for output `active`, `inactive` exactly for output `inactive`, `failed` for any other output and any exception |
| Services.HostStatusMeaning | models/service.py:55-73 | a unit is `active` (or `inactive`) exactly when a `password` host was reached and `is-active` exited with 0 and printed that word, up to surrounding whitespace |
| Services.InactiveNeedsZeroExit | models/service.py:40-43 | a nonzero exit of `is-active` always gives `failed`, never `inactive` |
| Services.KeyHostAlwaysFailed | models/service.py:37-38 | on a `key` server every unit is `failed` |
| Services.PaddedActive | models/service.py:44 | output `active` surrounded by whitespace still gives `active` |
| Services.CheckServiceStatus | models/service.py:53-75 | every record gets the status the first record's server reports for the record's own unit and is stamped; nothing is posted |
| Services.ObserveOne | models/service.py:56-75 | one iteration extends the checked prefix by the current record |
| Services.CheckServiceStatusCron | models/service.py:77-82 | the first 500 records are checked, the rest are unchanged, and the re-trigger names the server status cron exactly when 500 came back |
| Services.FirstFailure | models/service.py:88-103 | a failure found lies at or after the start, and its command fails |
| Services.FirstFailureFinds | models/service.py:88-103 | nothing is found exactly when every command from the start succeeds; otherwise the one found is the first that fails |
| Services.ApplyAction | models/service.py:86-147 | records before the first failing command are re-checked, stamped and get the success note; that record is stamped, gets the failure note and the UserError is raised; the records after it are untouched |
| Services.ActOne | models/service.py:88-105 | the action's command succeeds exactly when its reply is a value; on success the acted-on prefix grows by the record; on failure the record keeps its status, is stamped and gets the failure note |
| Services.Acknowledge | models/service.py:94-97 | after a successful command the record has the status its own server reports (second connect), is stamped and gets the success note |
| Services.StartService | models/service.py:86-105 | `start_service` is the action loop with `systemctl start` |
| Services.StopService | models/service.py:107-125 | `stop_service` is the action loop with `systemctl stop` |
| Services.RestartService | models/service.py:127-147 | `restart_service` is the action loop with `systemctl restart` |
| Services.KeyHostRefusesActions | models/service.py:90-103 | when the first record's server is a `key` server, the first record's action fails |

## Left out

- The SSH library (`SSHClient`, `connect`, `exec_command`, `recv_exit_status`, `close`, the host key policy) is network I/O. `Remote` stands in for it and is fixed for the duration of one call, so the same connect or command gives the same outcome whenever it is repeated within that call.
- `ssh_port`, `username`, `password`, `private_key` and the connect timeout only reach the SSH library; they are not modelled.
- `fields.Datetime.now()` is the parameter `now`; all stamps made in one call are equal.
- Logging, the `create`/`write` overrides, which only log, and the `message_type` of posted messages are not modelled. A posted message is its body, appended to `messages`.
- The ORM's rollback of a transaction when an exception escapes is framework behaviour. The model shows the state at the moment of the raise.
- Record fields no method reads or decides on are not modelled: `operating_system`, `is_active`, `customer_id`, `note`, `url`, `port`, `configuration_details`, the maintenance type, dates and description, and the responsible user.
- `\d` in the address pattern matches every Unicode digit in Python; the model accepts the ASCII digits only. `strip()` removes the ASCII whitespace only, not the other Unicode whitespace. Decoding bytes to text is not modelled.
- An empty `server_id` on a command is not modelled; every command has a server.
- Servers.CheckServerStatus: which client each `finally` closes is not recorded, and neither is the number of connects. `ProbeServer` and `CheckOne` state the connect counts per record.
- Servers.CheckServerStatus, Servers.ExecuteCommand, Services.ApplyAction and both crons require a recordset without repeated records. An Odoo recordset built by `search` has no repeats.
- Servers.ExecuteCommand: the final `command.write` writes back the values already assigned, so it changes nothing and is not modelled as a step.

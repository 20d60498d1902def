/** The robot-cell simulator's protocol execution (`maholocon/maholo_api/server.py`):
    the admission gate, the statuses emitted while a protocol runs, and the
    table of connected clients. */
module Simulator {
  import opened Common
  import opened BioPortal

  /** `ProtocolStatus`: an error code among "", "403", "404", "409", "503". */
  datatype ProtocolStatus = ProtocolStatus(protocol: string, errorCode: string, errorMessage: string)

  /** What `execute_protocol` yields: a protocol status or a snapshot of the
      cell's status record. */
  datatype Emitted = Report(report: ProtocolStatus) | Notify(status: Status)

  /** The result of one `execute_protocol` run: what it yielded, the exception
      that escaped it (if any), and the status record afterwards. */
  datatype Outcome = Outcome(emitted: seq<Emitted>, raised: Option<Exception>, final: Status)

  /** The status the simulator starts in. */
  const InitialStatus := Status(ExternalRemote, CellIdle, [], Origin, ExpNone, "")

  /** The admission gate, checked in order: remote mode, known protocol,
      idle cell, no alarm. "" admits the request. */
  function AdmissionCode(s: Status, known: seq<string>, protocol: string): (code: string)
    ensures code == "403" <==> s.mode != ExternalRemote
    ensures code == "404" <==> s.mode == ExternalRemote && protocol !in known
    ensures code == "409" <==> s.mode == ExternalRemote && protocol in known && s.cellStatus != CellIdle
    ensures code == "503" <==> s.mode == ExternalRemote && protocol in known && s.cellStatus == CellIdle && |s.alarms| > 0
    ensures code == "" <==> s.mode == ExternalRemote && protocol in known && s.cellStatus == CellIdle && |s.alarms| == 0
  {
    if s.mode != ExternalRemote then "403"
    else if protocol !in known then "404"
    else if s.cellStatus != CellIdle then "409"
    else if |s.alarms| > 0 then "503"
    else ""
  }

  function RejectionMessage(code: string): string {
    if code == "403" then "Remote execution is currently forbidden"
    else if code == "404" then "Protocol not found"
    else if code == "409" then "Not idle"
    else "Alarms are active"
  }

  /** `execute_protocol`, with the simulator's hook reduced to whether it
      raises (and with what message). */
  function Execute(s: Status, known: seq<string>, protocol: string, hookFailure: Option<string>): (o: Outcome)
    ensures |o.emitted| >= 1 && o.emitted[0] == Report(ProtocolStatus(protocol, AdmissionCode(s, known, protocol),
                                                         if AdmissionCode(s, known, protocol) == "" then "" else RejectionMessage(AdmissionCode(s, known, protocol))))
    ensures o.raised.Some? ==> o.raised.value == ValueError("Not idle") && o.final == s && |o.emitted| == 1
    ensures |o.emitted| == 1 ==> o.final == s
  {
    var code := AdmissionCode(s, known, protocol);
    if code != "" then
      Outcome([Report(ProtocolStatus(protocol, code, RejectionMessage(code)))], None, s)
    else
      var accepted := [Report(ProtocolStatus(protocol, "", ""))];
      match AfterRequest(s, protocol)
      case Err(e) => Outcome(accepted, Some(e), s)
      case Ok(s1) =>
        // `run` and `complete` cannot fail after a successful `request`.
        var s2 := AfterRun(s1).value;
        if hookFailure.Some? then
          Outcome(accepted + [Notify(s1), Notify(s2), Report(ProtocolStatus(protocol, "503", hookFailure.value))], None, s2)
        else
          var (s3, copy) := AfterComplete(s2).value;
          Outcome(accepted + [Notify(s1), Notify(s2), Notify(copy)], None, s3)
  }

  /** A rejected request yields one status with the gate's code, raises
      nothing and leaves the record alone. */
  lemma RejectionLeavesStatus(s: Status, known: seq<string>, protocol: string, hook: Option<string>)
    requires AdmissionCode(s, known, protocol) != ""
    ensures var o := Execute(s, known, protocol, hook);
      o.final == s && o.raised.None? && |o.emitted| == 1
      && o.emitted[0] == Report(ProtocolStatus(protocol, AdmissionCode(s, known, protocol), RejectionMessage(AdmissionCode(s, known, protocol))))
  {
  }

  /** From an idle record with no alarm, a known protocol whose hook
      succeeds yields the acceptance, the requested and running records and
      the completed copy, and the record ends idle again. */
  lemma AcceptedRun(s: Status, known: seq<string>, protocol: string)
    requires IsIdle(s) && |s.alarms| == 0 && protocol in known
    ensures var o := Execute(s, known, protocol, None);
      o.raised.None? && IsIdle(o.final) && o.final == s.(protocol := "")
      && o.emitted == [Report(ProtocolStatus(protocol, "", "")),
                       Notify(s.(cellStatus := Experiment, expStatus := Requested, protocol := protocol)),
                       Notify(s.(cellStatus := Experiment, expStatus := Running, protocol := protocol, robotPos := NotOrigin)),
                       Notify(s.(protocol := "", expStatus := Completed))]
  {
  }

  /** When the hook raises, a 503 is yielded and the record stays running,
      so from then on a known protocol is refused with 409 (an unknown one
      still with 404). */
  lemma HookFailureBlocksCell(s: Status, known: seq<string>, protocol: string, msg: string, next: string)
    requires IsIdle(s) && |s.alarms| == 0 && protocol in known
    ensures var o := Execute(s, known, protocol, Some(msg));
      o.raised.None? && IsRunning(o.final)
      && o.emitted[|o.emitted| - 1] == Report(ProtocolStatus(protocol, "503", msg))
      && AdmissionCode(o.final, known, next) == (if next in known then "409" else "404")
  {
  }

  /** The gate asks only for an idle cell, while `request` asks for full
      idleness: any record the gate admits but that is not idle (the robot
      away from its origin, an experiment status other than none, a
      protocol name left over) is accepted and then `request` raises, after
      the acceptance was already yielded. */
  lemma GateAdmitsNonIdle(s: Status, known: seq<string>, protocol: string, hook: Option<string>)
    requires AdmissionCode(s, known, protocol) == "" && !IsIdle(s)
    ensures var o := Execute(s, known, protocol, hook);
      && o.emitted == [Report(ProtocolStatus(protocol, "", ""))]
      && o.raised == Some(ValueError("Not idle")) && o.final == s
  {
  }

  /** Such records exist: an idle cell whose robot is away from its origin. */
  lemma NonIdleAdmitted(protocol: string)
    ensures var s := Status(ExternalRemote, CellIdle, [], NotOrigin, ExpNone, "");
      AdmissionCode(s, [protocol], protocol) == "" && !IsIdle(s)
  {
  }

  /** The simulator: the global status record and the controller's
      protocol list. */
  class Server {
    const status: BioPortalStatus
    var protocols: seq<string>

    constructor(protocols: seq<string>)
      ensures status.Snapshot() == InitialStatus && this.protocols == protocols && fresh(status)
    {
      status := new BioPortalStatus(InitialStatus);
      this.protocols := protocols;
    }

    /** `execute_protocol`, driving the status record through its
        transitions. */
    method ExecuteProtocol(protocol: string, hookFailure: Option<string>)
      returns (emitted: seq<Emitted>, raised: Option<Exception>)
      modifies status
      ensures var o := Execute(old(status.Snapshot()), protocols, protocol, hookFailure);
        emitted == o.emitted && raised == o.raised && status.Snapshot() == o.final
    {
      var code := AdmissionCode(status.Snapshot(), protocols, protocol);
      if code != "" {
        return [Report(ProtocolStatus(protocol, code, RejectionMessage(code)))], None;
      }
      emitted := [Report(ProtocolStatus(protocol, "", ""))];
      var r := status.Request(protocol);
      if r.Err? {
        return emitted, Some(r.error);
      }
      emitted := emitted + [Notify(status.Snapshot())];
      r := status.Run();
      emitted := emitted + [Notify(status.Snapshot())];
      if hookFailure.Some? {
        return emitted + [Report(ProtocolStatus(protocol, "503", hookFailure.value))], None;
      }
      var c := status.Complete();
      return emitted + [Notify(c.value)], None;
    }
  }

  /** A connected client's socket and the messages sent to it. */
  datatype Socket = Socket(handle: nat)

  /** The connection table as a value: connect, disconnect, look up. */
  function Connected(m: map<string, Socket>, name: string, ws: Socket): map<string, Socket> {
    m[name := ws]
  }

  function Disconnected(m: map<string, Socket>, name: string): map<string, Socket> {
    if name in m then m - {name} else m
  }

  /** `send_text`'s lookup: 400 for a name that is not connected. */
  function Recipient(m: map<string, Socket>, to: string): (r: Result<Socket>)
    ensures r.Ok? <==> to in m
    ensures r.Ok? ==> r.value == m[to]
    ensures r.Err? ==> r.error.HttpError? && r.error.code == 400
  {
    if to !in m then Err(HttpError(400, "Name " + to + " is not connected")) else Ok(m[to])
  }

  /** A connection replaces any earlier one under the same name and is what
      a send then reaches; after a disconnect the name is refused with 400;
      disconnecting an absent name changes nothing. */
  lemma ConnectionTable(m: map<string, Socket>, name: string, ws: Socket, other: string)
    ensures Recipient(Connected(m, name, ws), name) == Ok(ws)
    ensures other != name ==> Recipient(Connected(m, name, ws), other) == Recipient(m, other)
    ensures Recipient(Disconnected(m, name), name).Err?
    ensures other != name ==> Recipient(Disconnected(m, name), other) == Recipient(m, other)
    ensures name !in m ==> Disconnected(m, name) == m
  {
  }

  class ConnectionManager {
    var activeConnections: map<string, Socket>
    /** Messages sent, in order, with their socket. */
    var sent: seq<(Socket, string)>

    constructor()
      ensures activeConnections == map[] && sent == []
    {
      activeConnections := map[];
      sent := [];
    }

    method Connect(name: string, ws: Socket)
      modifies this
      ensures activeConnections == Connected(old(activeConnections), name, ws) && sent == old(sent)
    {
      activeConnections := activeConnections[name := ws];
    }

    method Disconnect(name: string)
      modifies this
      ensures activeConnections == Disconnected(old(activeConnections), name) && sent == old(sent)
    {
      if name in activeConnections {
        activeConnections := activeConnections - {name};
      }
    }

    method SendText(to: string, message: string) returns (r: Result<()>)
      modifies this
      ensures activeConnections == old(activeConnections)
      ensures Recipient(old(activeConnections), to).Err? ==>
        r == Err(Recipient(old(activeConnections), to).error) && sent == old(sent)
      ensures Recipient(old(activeConnections), to).Ok? ==>
        r.Ok? && sent == old(sent) + [(activeConnections[to], message)]
    {
      if to !in activeConnections {
        return Err(HttpError(400, "Name " + to + " is not connected"));
      }
      sent := sent + [(activeConnections[to], message)];
      return Ok(());
    }
  }
}

/** The driver for the Maholo robot cell (`drivers/maholo/driver.py`): it
    names move protocols, checks that the controller knows a protocol, waits
    for the cell to be idle, starts the protocol, maps the controller's error
    code to an exception, and waits for completion, reading replies from the
    controller's websocket with a bounded number of reads. */
module MaholoDriver {
  import opened Common
  import opened BioPortal
  import opened Simulator

  /** `MaholoDriver.max_retries`, also the default of `_wait_response`. */
  const MaxRetries: nat := 10

  /** The replies the controller sends. */
  datatype Response =
    | NotifyUsers
    | NotifyStatus(status: Status)
    | GetProtocolPathsResp(paths: seq<string>)
    | GetStatusResp(status: Status)
    | ExecuteProtocolResp(data: ProtocolStatus)

  /** The requests the driver sends. */
  datatype Request = GetProtocolPathsReq | GetStatusReq | ExecuteProtocolReq(protocol: string)

  datatype Kind = KNotifyUsers | KNotifyStatus | KGetProtocolPaths | KGetStatus | KExecuteProtocol

  function KindOf(r: Response): Kind {
    match r
    case NotifyUsers => KNotifyUsers
    case NotifyStatus(_) => KNotifyStatus
    case GetProtocolPathsResp(_) => KGetProtocolPaths
    case GetStatusResp(_) => KGetStatus
    case ExecuteProtocolResp(_) => KExecuteProtocol
  }

  /** What a scanning loop waits for: a reply of some type, or a
      NotifyStatus whose experiment is completed. */
  datatype Target = OfKind(kind: Kind) | CompletedStatus

  predicate Matches(r: Response, t: Target) {
    match t
    case OfKind(k) => KindOf(r) == k
    case CompletedStatus => r.NotifyStatus? && r.status.expStatus == Completed
  }

  /** The error `_wait_response` raises when its reads run out. */
  const NoResponse: Exception := DriverError("Failed to get response")

  /** A read outcome and how many messages were consumed. */
  datatype Scan = Scan(result: Result<Response>, consumed: nat)

  /** `_wait_response` and `_wait_complete`: read at most `budget` messages
      and return the first that matches; a closed socket raises on the read
      that finds it empty. */
  function ScanFor(inbox: seq<Response>, budget: nat, t: Target): (s: Scan)
    ensures s.consumed <= budget && s.consumed <= |inbox|
    ensures s.result.Ok? ==> s.consumed >= 1 && s.result.value == inbox[s.consumed - 1] && Matches(s.result.value, t)
    ensures s.result.Err? ==>
      (s.result.error == ConnectionClosed && s.consumed == |inbox| < budget)
      || (s.result.error == NoResponse && s.consumed == budget)
    decreases budget
  {
    if budget == 0 then Scan(Err(NoResponse), 0)
    else if inbox == [] then Scan(Err(ConnectionClosed), 0)
    else if Matches(inbox[0], t) then Scan(Ok(inbox[0]), 1)
    else
      var s := ScanFor(inbox[1..], budget - 1, t);
      Scan(s.result, s.consumed + 1)
  }

  /** The scan returns the first matching message within the budget: every
      message read before it (every message read, on failure) does not
      match. */
  lemma {:induction false} ScanFindsFirstMatch(inbox: seq<Response>, budget: nat, t: Target)
    ensures var s := ScanFor(inbox, budget, t);
      (s.result.Ok? ==> Matches(s.result.value, t))
      && forall k | 0 <= k < s.consumed && (s.result.Err? || k < s.consumed - 1) :: !Matches(inbox[k], t)
    decreases budget
  {
    if budget > 0 && inbox != [] && !Matches(inbox[0], t) {
      ScanFindsFirstMatch(inbox[1..], budget - 1, t);
      var s := ScanFor(inbox[1..], budget - 1, t);
      forall k | 1 <= k < s.consumed + 1 ensures inbox[k] == inbox[1..][k - 1] {
      }
    }
  }

  function Shift(s: Scan, i: nat): Scan {
    Scan(s.result, s.consumed + i)
  }

  /** A read that does not match costs one message of the budget. */
  lemma ScanStep(inbox: seq<Response>, budget: nat, t: Target)
    requires inbox != [] && budget >= 1 && !Matches(inbox[0], t)
    ensures var s := ScanFor(inbox[1..], budget - 1, t);
      ScanFor(inbox, budget, t) == Scan(s.result, s.consumed + 1)
  {
  }

  /** The loop of `_wait_response` after `i` reads that did not match: the
      rest of the scan is a scan of the remaining messages with the
      remaining budget. */
  ghost predicate Scanning(all: seq<Response>, budget: nat, t: Target, i: nat) {
    i <= budget && i <= |all| && ScanFor(all, budget, t) == Shift(ScanFor(all[i..], budget - i, t), i)
  }

  lemma ScanStart(all: seq<Response>, budget: nat, t: Target)
    ensures Scanning(all, budget, t, 0)
  {
    assert all[0..] == all;
  }

  /** One more read that does not match moves the rest of the scan on. */
  lemma ScanShift(all: seq<Response>, budget: nat, t: Target, i: nat)
    requires Scanning(all, budget, t, i) && i < budget && i < |all| && !Matches(all[i], t)
    ensures Scanning(all, budget, t, i + 1)
  {
    ScanStep(all[i..], budget - i, t);
    assert all[i..][1..] == all[i + 1..];
  }

  /** How the loop of `_wait_response` ends: out of budget, out of
      messages, or on a match. */
  lemma ScanExit(all: seq<Response>, budget: nat, t: Target, i: nat)
    requires Scanning(all, budget, t, i)
    ensures i == budget ==> ScanFor(all, budget, t) == Scan(Err(NoResponse), budget)
    ensures i < budget && i == |all| ==> ScanFor(all, budget, t) == Scan(Err(ConnectionClosed), i)
    ensures i < budget && i < |all| && Matches(all[i], t) ==> ScanFor(all, budget, t) == Scan(Ok(all[i]), i + 1)
    ensures i < |all| ==> all[i..][1..] == all[i + 1..]
  {
    if i < |all| {
      assert all[i..][1..] == all[i + 1..];
    }
  }

  /** `_get_protocol_paths`: like a scan for the paths reply, except that
      running out of reads is not an error: the last message read is
      returned, whatever its type. */
  function PathsScan(inbox: seq<Response>, budget: nat): (s: Scan)
    requires budget >= 1
    ensures s.consumed <= |inbox|
    ensures s.result.Ok? ==> 1 <= s.consumed && s.result.value == inbox[s.consumed - 1]
    ensures s.result.Ok? && !s.result.value.GetProtocolPathsResp? ==> s.consumed == budget
    ensures s.result.Err? ==> s.result.error == ConnectionClosed && |inbox| < budget
  {
    var s := ScanFor(inbox, budget, OfKind(KGetProtocolPaths));
    if s.result.Err? && s.result.error.DriverError? then Scan(Ok(inbox[budget - 1]), budget)
    else s
  }

  /** The outcome of `_wait_until_idle`: the result, the messages consumed
      and the number of status polls sent. */
  datatype Wait = Wait(result: Result<Response>, consumed: nat, polls: nat)

  /** `_wait_until_idle`: poll the status until a GetStatus reply shows an
      idle cell. Each poll reads at least one message, so a finite inbox
      ends the polling (the one-second sleep between polls is dropped). */
  function WaitIdle(inbox: seq<Response>, budget: nat): (w: Wait)
    ensures w.consumed <= |inbox| && w.polls >= 1
    ensures w.result.Ok? ==> w.result.value.GetStatusResp? && IsIdle(w.result.value.status)
    decreases |inbox|
  {
    var s := ScanFor(inbox, budget, OfKind(KGetStatus));
    if s.result.Err? || IsIdle(s.result.value.status) then Wait(s.result, s.consumed, 1)
    else
      var w := WaitIdle(inbox[s.consumed..], budget);
      Wait(w.result, s.consumed + w.consumed, w.polls + 1)
  }

  function ShiftWait(w: Wait, used: nat, polls: nat): Wait {
    Wait(w.result, w.consumed + used, w.polls + polls)
  }

  function Polls(n: nat): (r: seq<Request>)
    ensures |r| == n && forall k | 0 <= k < n :: r[k] == GetStatusReq
  {
    if n == 0 then [] else [GetStatusReq] + Polls(n - 1)
  }

  /** The `match` on the controller's error code. A code outside the five
      the schema allows matches no case and lets the run proceed. */
  function CheckErrorCode(code: string): (r: Result<()>)
    ensures r.Ok? <==> code !in ["403", "404", "409", "503"]
    ensures code in ["403", "404", "409"] ==> r.Err? && r.error.DriverError?
    ensures code == "503" ==> r.Err? && r.error.FatalDriverError?
  {
    if code == "403" then Err(DriverError("not set in external remote"))
    else if code == "404" then Err(DriverError("protocol not found"))
    else if code == "409" then Err(DriverError("other protocol is running"))
    else if code == "503" then Err(FatalDriverError("in alarm"))
    else Ok(())
  }

  /** `FatalDriverError` subclasses `DriverError`: a handler for the latter
      catches both. */
  predicate IsDriverError(e: Exception) {
    e.DriverError? || e.FatalDriverError?
  }

  /** Every code the controller can report either proceeds or raises an
      exception a `DriverError` handler catches. */
  lemma ErrorCodesAreDriverErrors(code: string)
    requires code in ["", "403", "404", "409", "503"]
    ensures CheckErrorCode(code).Ok? <==> code == ""
    ensures CheckErrorCode(code).Err? ==> IsDriverError(CheckErrorCode(code).error)
  {
  }

  /** The outcome of `_run` on an inbox: result, messages consumed, requests
      sent. */
  datatype RunResult = RunResult(result: Result<Response>, consumed: nat, sent: seq<Request>)

  /** `_run(client, protocol)`. Only a GetProtocolPaths reply lists
      paths: membership in any other reply's `Data` is false (the pydantic
      records iterate as field pairs, the NotifyUsers data is empty). A reply
      to the execute request that is not an ExecuteProtocol response has no
      `error_code` and raises AttributeError. */
  function RunOutcome(basePath: string, protocol: string, inbox: seq<Response>, budget: nat): (o: RunResult)
    requires budget >= 1
    ensures o.consumed <= |inbox|
  {
    var full := basePath + protocol;
    var p := PathsScan(inbox, budget);
    if p.result.Err? then RunResult(p.result, p.consumed, [GetProtocolPathsReq])
    else if !(p.result.value.GetProtocolPathsResp? && full in p.result.value.paths) then
      RunResult(Err(DriverError("protocol " + protocol + " not found in maholo")), p.consumed, [GetProtocolPathsReq])
    else
      var rest := inbox[p.consumed..];
      var w := WaitIdle(rest, budget);
      var polled := [GetProtocolPathsReq] + Polls(w.polls);
      if w.result.Err? then RunResult(w.result, p.consumed + w.consumed, polled)
      else
        var e := Execution(rest[w.consumed..], budget);
        RunResult(e.result, p.consumed + w.consumed + e.consumed, polled + [ExecuteProtocolReq(full)])
  }

  /** The part of `_run` after the execute request: read the reply, map
      its error code, then wait for completion. */
  function Execution(inbox: seq<Response>, budget: nat): (s: Scan)
    ensures s.consumed <= |inbox|
  {
    if inbox == [] then Scan(Err(ConnectionClosed), 0)
    else if !inbox[0].ExecuteProtocolResp? then
      Scan(Err(AttributeError("'Data' has no attribute 'error_code'")), 1)
    else
      var c := CheckErrorCode(inbox[0].data.errorCode);
      if c.Err? then Scan(Err(c.error), 1)
      else
        var done := ScanFor(inbox[1..], budget, CompletedStatus);
        Scan(done.result, 1 + done.consumed)
  }

  /** The protocol is started only when the controller lists it and has
      reported an idle cell; a successful run ends on a completed status. */
  lemma {:induction false} RunStartsOnlyListedProtocols(basePath: string, protocol: string, inbox: seq<Response>, budget: nat)
    requires budget >= 1
    ensures var o := RunOutcome(basePath, protocol, inbox, budget);
      ExecuteProtocolReq(basePath + protocol) in o.sent ==>
        var p := PathsScan(inbox, budget);
        p.result.Ok? && p.result.value.GetProtocolPathsResp? && basePath + protocol in p.result.value.paths
        && WaitIdle(inbox[p.consumed..], budget).result.Ok?
    ensures var o := RunOutcome(basePath, protocol, inbox, budget);
      o.result.Ok? ==>
        o.result.value.NotifyStatus? && o.result.value.status.expStatus == Completed
        && ExecuteProtocolReq(basePath + protocol) in o.sent
  {
    var full := basePath + protocol;
    var p := PathsScan(inbox, budget);
    var o := RunOutcome(basePath, protocol, inbox, budget);
    if p.result.Err? || !(p.result.value.GetProtocolPathsResp? && full in p.result.value.paths) {
      assert o.sent == [GetProtocolPathsReq];
    } else {
      var rest := inbox[p.consumed..];
      var w := WaitIdle(rest, budget);
      if w.result.Err? {
        assert o.sent == [GetProtocolPathsReq] + Polls(w.polls);
        assert ExecuteProtocolReq(full) !in Polls(w.polls);
      } else {
        var rest2 := rest[w.consumed..];
        if rest2 != [] {
          ScanFindsFirstMatch(rest2[1..], budget, CompletedStatus);
        }
        assert o.result == Execution(rest2, budget).result;
        assert o.sent == [GetProtocolPathsReq] + Polls(w.polls) + [ExecuteProtocolReq(full)];
      }
    }
  }

  /** When the controller behaves like the simulator on an accepted run,
      the driver's wait for completion returns the simulator's completed
      copy, after reading the requested and running statuses. */
  lemma SimulatorRunCompletes(s: Status, known: seq<string>, protocol: string)
    requires IsIdle(s) && |s.alarms| == 0 && protocol in known
    ensures var o := Execute(s, known, protocol, None);
      var replies := [NotifyStatus(o.emitted[1].status), NotifyStatus(o.emitted[2].status), NotifyStatus(o.emitted[3].status)];
      ScanFor(replies, MaxRetries, CompletedStatus) == Scan(Ok(NotifyStatus(s.(protocol := "", expStatus := Completed))), 3)
  {
    AcceptedRun(s, known, protocol);
  }

  /** `path_replace`: every '/' becomes '#'. */
  function PathReplace(path: string): (r: string)
    ensures |r| == |path|
    ensures forall i | 0 <= i < |path| :: r[i] == (if path[i] == '/' then '#' else path[i])
  {
    if path == [] then [] else [if path[0] == '/' then '#' else path[0]] + PathReplace(path[1..])
  }

  /** The result holds no '/', the characters that were not '/' are kept,
      and replacing again changes nothing. */
  lemma PathReplaceSpec(path: string)
    ensures '/' !in PathReplace(path)
    ensures forall i | 0 <= i < |path| && path[i] != '/' :: PathReplace(path)[i] == path[i]
    ensures PathReplace(PathReplace(path)) == PathReplace(path)
  {
    var r := PathReplace(path);
    assert forall i | 0 <= i < |r| :: r[i] != '/';
  }

  /** The protocol name `move` dispatches. */
  function MoveName(what: string, from: string, to: string): string {
    "move_" + what + "_" + PathReplace(from) + "_" + PathReplace(to)
  }

  /** The controller's websocket as the driver sees it: the replies still to
      be read and the requests sent so far. */
  class Link {
    var inbox: seq<Response>
    var outbox: seq<Request>

    constructor(replies: seq<Response>)
      ensures inbox == replies && outbox == []
    {
      inbox := replies;
      outbox := [];
    }

    /** `recv`: a closed socket (nothing left to read) raises. */
    method Recv() returns (r: Result<Response>)
      modifies this
      ensures old(inbox) == [] ==> r == Err(ConnectionClosed) && inbox == old(inbox)
      ensures old(inbox) != [] ==> r == Ok(old(inbox)[0]) && inbox == old(inbox)[1..]
      ensures outbox == old(outbox)
    {
      if inbox == [] {
        return Err(ConnectionClosed);
      }
      r := Ok(inbox[0]);
      inbox := inbox[1..];
    }

    method Send(req: Request)
      modifies this
      ensures outbox == old(outbox) + [req] && inbox == old(inbox)
    {
      outbox := outbox + [req];
    }

    /** `_wait_response` / `_wait_complete`: at most `budget` reads. */
    method WaitFor(budget: nat, t: Target) returns (r: Result<Response>)
      modifies this
      ensures var s := ScanFor(old(inbox), budget, t);
        r == s.result && inbox == old(inbox)[s.consumed..] && outbox == old(outbox)
    {
      var i := 0;
      ScanStart(old(inbox), budget, t);
      while i < budget
        invariant Scanning(old(inbox), budget, t, i)
        invariant inbox == old(inbox)[i..] && outbox == old(outbox)
      {
        ScanExit(old(inbox), budget, t, i);
        var m := Recv();
        if m.Err? || Matches(m.value, t) {
          return m;
        }
        ScanShift(old(inbox), budget, t, i);
        i := i + 1;
      }
      ScanExit(old(inbox), budget, t, i);
      return Err(NoResponse);
    }

    /** `_get_protocol_paths`: ask for the paths, then read until the paths
        reply arrives or `budget` messages were read. */
    method GetProtocolPaths(budget: nat) returns (r: Result<Response>)
      requires budget >= 1
      modifies this
      ensures var s := PathsScan(old(inbox), budget);
        r == s.result && inbox == old(inbox)[s.consumed..] && outbox == old(outbox) + [GetProtocolPathsReq]
    {
      Send(GetProtocolPathsReq);
      r := ReadPaths(budget);
    }

    method ReadPaths(budget: nat) returns (r: Result<Response>)
      requires budget >= 1
      modifies this
      ensures var s := PathsScan(old(inbox), budget);
        r == s.result && inbox == old(inbox)[s.consumed..] && outbox == old(outbox)
    {
      var res := NotifyUsers;
      var i := 0;
      ScanStart(old(inbox), budget, OfKind(KGetProtocolPaths));
      while i < budget
        invariant Scanning(old(inbox), budget, OfKind(KGetProtocolPaths), i)
        invariant inbox == old(inbox)[i..] && outbox == old(outbox)
        invariant i > 0 ==> res == old(inbox)[i - 1]
      {
        ScanExit(old(inbox), budget, OfKind(KGetProtocolPaths), i);
        var m := Recv();
        if m.Err? {
          return m;
        }
        res := m.value;
        if res.GetProtocolPathsResp? {
          return Ok(res);
        }
        ScanShift(old(inbox), budget, OfKind(KGetProtocolPaths), i);
        i := i + 1;
      }
      ScanExit(old(inbox), budget, OfKind(KGetProtocolPaths), i);
      return Ok(res);
    }

    /** One status poll of `_wait_until_idle`: ask, then wait for the
        GetStatus reply. */
    method PollStatus(budget: nat) returns (r: Result<Response>)
      modifies this
      ensures var s := ScanFor(old(inbox), budget, OfKind(KGetStatus));
        r == s.result && inbox == old(inbox)[s.consumed..] && outbox == old(outbox) + [GetStatusReq]
      ensures r.Ok? ==> r.value.GetStatusResp?
    {
      Send(GetStatusReq);
      r := WaitFor(budget, OfKind(KGetStatus));
    }

    /** `_wait_until_idle`, each poll waiting for at most `budget` reads. */
    method WaitUntilIdle(budget: nat) returns (r: Result<Response>)
      modifies this
      ensures var w := WaitIdle(old(inbox), budget);
        r == w.result && inbox == old(inbox)[w.consumed..] && outbox == old(outbox) + Polls(w.polls)
    {
      ghost var used: nat := 0;
      ghost var polls: nat := 0;
      while true
        invariant Waiting(old(inbox), old(outbox), budget, inbox, outbox, used, polls)
        decreases |inbox|
      {
        var res;
        res, used := PollRound(budget, old(inbox), old(outbox), used, polls);
        if res.Err? || IsIdle(res.value.status) {
          return res;
        }
        polls := polls + 1;
      }
    }

    /** One round of the polling loop of `_wait_until_idle`. */
    method PollRound(budget: nat, ghost all: seq<Response>, ghost sent: seq<Request>, ghost used: nat, ghost polls: nat)
      returns (res: Result<Response>, ghost next: nat)
      requires Waiting(all, sent, budget, inbox, outbox, used, polls)
      modifies this
      ensures res.Ok? ==> res.value.GetStatusResp?
      ensures res.Err? || IsIdle(res.value.status) ==>
        var w := WaitIdle(all, budget);
        res == w.result && inbox == all[w.consumed..] && outbox == sent + Polls(w.polls)
      ensures res.Ok? && !IsIdle(res.value.status) ==>
        |inbox| < old(|inbox|) && Waiting(all, sent, budget, inbox, outbox, next, polls + 1)
    {
      ghost var s := ScanFor(all[used..], budget, OfKind(KGetStatus));
      PollsAppend(sent, polls);
      res := PollStatus(budget);
      next := used + s.consumed;
      if res.Err? || IsIdle(res.value.status) {
        WaitIdleDone(all, budget, used, polls);
      } else {
        WaitIdleContinue(all, budget, used, polls, s.consumed);
      }
    }
  }

  /** The state of the polling loop: `used` messages read by `polls` polls,
      and the rest of the wait left to the remaining inbox. */
  ghost predicate Waiting(all: seq<Response>, sent: seq<Request>, budget: nat, inbox: seq<Response>, outbox: seq<Request>, used: nat, polls: nat) {
    used <= |all| && inbox == all[used..] && outbox == sent + Polls(polls)
    && WaitIdle(all, budget) == ShiftWait(WaitIdle(all[used..], budget), used, polls)
  }

  /** The last poll of the wait: an error or an idle status ends it. */
  lemma WaitIdleDone(all: seq<Response>, budget: nat, used: nat, polls: nat)
    requires used <= |all|
    requires WaitIdle(all, budget) == ShiftWait(WaitIdle(all[used..], budget), used, polls)
    requires var s := ScanFor(all[used..], budget, OfKind(KGetStatus));
      s.result.Err? || (s.result.value.GetStatusResp? && IsIdle(s.result.value.status))
    ensures var s := ScanFor(all[used..], budget, OfKind(KGetStatus));
      var w := WaitIdle(all, budget);
      w.result == s.result && w.polls == polls + 1 && all[used..][s.consumed..] == all[w.consumed..]
  {
    var before := all[used..];
    WaitIdleLast(before, budget);
    SliceTwice(all, used, ScanFor(before, budget, OfKind(KGetStatus)).consumed);
  }

  lemma WaitIdleLast(inbox: seq<Response>, budget: nat)
    requires var s := ScanFor(inbox, budget, OfKind(KGetStatus));
      s.result.Err? || (s.result.value.GetStatusResp? && IsIdle(s.result.value.status))
    ensures var s := ScanFor(inbox, budget, OfKind(KGetStatus));
      WaitIdle(inbox, budget) == Wait(s.result, s.consumed, 1)
  {
  }

  /** A poll that reads a busy status hands the rest of the wait to the
      remaining inbox. */
  lemma WaitIdleContinue(all: seq<Response>, budget: nat, used: nat, polls: nat, k: nat)
    requires used <= |all|
    requires WaitIdle(all, budget) == ShiftWait(WaitIdle(all[used..], budget), used, polls)
    requires var s := ScanFor(all[used..], budget, OfKind(KGetStatus));
      s.consumed == k && s.result.Ok? && s.result.value.GetStatusResp? && !IsIdle(s.result.value.status)
    ensures k >= 1 && used + k <= |all| && all[used..][k..] == all[used + k..]
    ensures WaitIdle(all, budget) == ShiftWait(WaitIdle(all[used + k..], budget), used + k, polls + 1)
  {
    var before := all[used..];
    WaitIdleStep(before, budget, k);
    SliceTwice(all, used, k);
    ShiftChain(WaitIdle(all, budget), WaitIdle(before, budget), WaitIdle(all[used + k..], budget), used, k, polls);
  }

  lemma ShiftChain(a: Wait, b: Wait, w: Wait, used: nat, k: nat, polls: nat)
    requires a == ShiftWait(b, used, polls) && b == ShiftWait(w, k, 1)
    ensures a == ShiftWait(w, used + k, polls + 1)
  {
  }

  /** A poll that reads a non-idle status after `k` messages leaves the rest
      of the wait to the remaining inbox. */
  lemma WaitIdleStep(inbox: seq<Response>, budget: nat, k: nat)
    requires var s := ScanFor(inbox, budget, OfKind(KGetStatus));
      s.consumed == k && s.result.Ok? && s.result.value.GetStatusResp? && !IsIdle(s.result.value.status)
    ensures k <= |inbox| && WaitIdle(inbox, budget) == ShiftWait(WaitIdle(inbox[k..], budget), k, 1)
  {
  }

  lemma PollsAppend(sent: seq<Request>, n: nat)
    ensures sent + Polls(n) + [GetStatusReq] == sent + Polls(n + 1)
  {
    assert Polls(n + 1) == [GetStatusReq] + Polls(n);
    assert Polls(n) + [GetStatusReq] == Polls(n + 1);
  }

  /** `_run` once the controller lists the protocol: the outcome is the
      wait for an idle cell, then the execution. */
  lemma RunListed(basePath: string, protocol: string, inbox: seq<Response>, budget: nat,
                  p: Scan, w: Wait, e: Scan)
    requires budget >= 1 && p == PathsScan(inbox, budget)
    requires p.result.Ok? && p.result.value.GetProtocolPathsResp? && basePath + protocol in p.result.value.paths
    requires w == WaitIdle(inbox[p.consumed..], budget)
    requires w.result.Ok? ==> e == Execution(inbox[p.consumed..][w.consumed..], budget)
    ensures w.result.Err? ==>
      RunOutcome(basePath, protocol, inbox, budget)
        == RunResult(w.result, p.consumed + w.consumed, [GetProtocolPathsReq] + Polls(w.polls))
    ensures w.result.Ok? ==>
      RunOutcome(basePath, protocol, inbox, budget)
        == RunResult(e.result, p.consumed + w.consumed + e.consumed,
                     [GetProtocolPathsReq] + (Polls(w.polls) + [ExecuteProtocolReq(basePath + protocol)]))
  {
    if w.result.Ok? {
      AppendThree([GetProtocolPathsReq], Polls(w.polls), [ExecuteProtocolReq(basePath + protocol)]);
    }
  }

  lemma SliceTwice<T>(s: seq<T>, a: nat, b: nat)
    requires a + b <= |s|
    ensures s[a..][b..] == s[a + b..]
  {
  }

  lemma AppendThree<T>(x: seq<T>, y: seq<T>, z: seq<T>)
    ensures x + y + z == x + (y + z)
  {
  }

  class MaholoDriver {
    const basePath: string
    const maxRetries: nat
    const link: Link

    constructor(basePath: string, link: Link)
      ensures this.basePath == basePath && this.link == link && maxRetries == MaxRetries
    {
      this.basePath := basePath;
      this.link := link;
      maxRetries := MaxRetries;
    }

    /** `_run`. */
    method RunOnLink(protocol: string) returns (r: Result<Response>)
      requires maxRetries >= 1
      modifies link
      ensures var o := RunOutcome(basePath, protocol, old(link.inbox), maxRetries);
        r == o.result && link.inbox == old(link.inbox)[o.consumed..] && link.outbox == old(link.outbox) + o.sent
    {
      ghost var in0 := link.inbox;
      var paths := link.GetProtocolPaths(maxRetries);
      if paths.Err? {
        return paths;
      }
      if !(paths.value.GetProtocolPathsResp? && basePath + protocol in paths.value.paths) {
        return Err(DriverError("protocol " + protocol + " not found in maholo"));
      }
      ghost var p := PathsScan(in0, maxRetries);
      ghost var w := WaitIdle(in0[p.consumed..], maxRetries);
      ghost var e := if w.result.Ok? then Execution(in0[p.consumed..][w.consumed..], maxRetries) else Scan(w.result, 0);
      r := StartWhenIdle(basePath + protocol);
      RunListed(basePath, protocol, in0, maxRetries, p, w, e);
      SliceTwice(in0, p.consumed, w.consumed);
      if w.result.Ok? {
        SliceTwice(in0, p.consumed + w.consumed, e.consumed);
      }
      ghost var tail := if w.result.Ok? then Polls(w.polls) + [ExecuteProtocolReq(basePath + protocol)] else Polls(w.polls);
      AppendThree(old(link.outbox), [GetProtocolPathsReq], tail);
    }

    /** The rest of `_run` once the protocol is listed: wait for an idle
        cell, send the execute request and read its outcome. */
    method StartWhenIdle(full: string) returns (r: Result<Response>)
      modifies link
      ensures var w := WaitIdle(old(link.inbox), maxRetries);
        w.result.Err? ==>
          r == w.result && link.inbox == old(link.inbox)[w.consumed..]
          && link.outbox == old(link.outbox) + Polls(w.polls)
      ensures var w := WaitIdle(old(link.inbox), maxRetries);
        w.result.Ok? ==>
          var e := Execution(old(link.inbox)[w.consumed..], maxRetries);
          r == e.result && link.inbox == old(link.inbox)[w.consumed..][e.consumed..]
          && link.outbox == old(link.outbox) + (Polls(w.polls) + [ExecuteProtocolReq(full)])
    {
      var idle := link.WaitUntilIdle(maxRetries);
      if idle.Err? {
        return idle;
      }
      link.Send(ExecuteProtocolReq(full));
      r := Execute(maxRetries);
      AppendThree(old(link.outbox), Polls(WaitIdle(old(link.inbox), maxRetries).polls), [ExecuteProtocolReq(full)]);
    }

    /** Read the execute reply, map its error code, wait for completion. */
    method Execute(budget: nat) returns (r: Result<Response>)
      modifies link
      ensures var e := Execution(old(link.inbox), budget);
        r == e.result && link.inbox == old(link.inbox)[e.consumed..] && link.outbox == old(link.outbox)
    {
      var exe := link.Recv();
      if exe.Err? {
        return exe;
      }
      if !exe.value.ExecuteProtocolResp? {
        return Err(AttributeError("'Data' has no attribute 'error_code'"));
      }
      var c := CheckErrorCode(exe.value.data.errorCode);
      if c.Err? {
        return Err(c.error);
      }
      r := link.WaitFor(budget, CompletedStatus);
    }

    /** Opening the session (`async with self.client`): a failed connection
        becomes FatalDriverError; the controller's first message must be
        NotifyUsers. */
    method Open(connectFails: bool) returns (r: Result<()>)
      modifies link
      ensures connectFails ==> r == Err(FatalDriverError("Connection to maholo failed")) && link.inbox == old(link.inbox)
      ensures !connectFails && old(link.inbox) == [] ==> r == Err(ConnectionClosed) && link.inbox == []
      ensures !connectFails && old(link.inbox) != [] ==>
        link.inbox == old(link.inbox)[1..] &&
        (r.Ok? <==> old(link.inbox)[0].NotifyUsers?) &&
        (r.Err? ==> r.error == PlainException("Connection failed"))
      ensures link.outbox == old(link.outbox)
    {
      if connectFails {
        return Err(FatalDriverError("Connection to maholo failed"));
      }
      var first := link.Recv();
      if first.Err? {
        return Err(first.error);
      }
      if !first.value.NotifyUsers? {
        return Err(PlainException("Connection failed"));
      }
      return Ok(());
    }

    /** `run(protocol)`, apart from the image listing of `getimage`
        protocols. */
    method Run(protocol: string, connectFails: bool) returns (r: Result<()>)
      requires maxRetries >= 1
      modifies link
      ensures connectFails ==>
        r == Err(FatalDriverError("Connection to maholo failed")) && link.inbox == old(link.inbox)
        && link.outbox == old(link.outbox)
      ensures !connectFails && old(link.inbox) == [] ==>
        r == Err(ConnectionClosed) && link.inbox == [] && link.outbox == old(link.outbox)
      ensures !connectFails && old(link.inbox) != [] && !old(link.inbox)[0].NotifyUsers? ==>
        r == Err(PlainException("Connection failed")) && link.inbox == old(link.inbox)[1..]
        && link.outbox == old(link.outbox)
      ensures !connectFails && old(link.inbox) != [] && old(link.inbox)[0].NotifyUsers? ==>
        var o := RunOutcome(basePath, protocol, old(link.inbox)[1..], maxRetries);
        r == (if o.result.Ok? then Ok(()) else Err(o.result.error))
        && link.inbox == old(link.inbox)[1..][o.consumed..] && link.outbox == old(link.outbox) + o.sent
    {
      var session := Open(connectFails);
      if session.Err? {
        return session;
      }
      var res := RunOnLink(protocol);
      if res.Err? {
        return Err(res.error);
      }
      return Ok(());
    }

    /** `move(what, from_, to)`: run the move protocol named from the
        '/'-free forms of both places. */
    method Move(what: string, from: string, to: string, connectFails: bool) returns (r: Result<()>)
      requires maxRetries >= 1
      modifies link
      ensures connectFails ==>
        r == Err(FatalDriverError("Connection to maholo failed")) && link.inbox == old(link.inbox)
        && link.outbox == old(link.outbox)
      ensures !connectFails && old(link.inbox) == [] ==>
        r == Err(ConnectionClosed) && link.inbox == [] && link.outbox == old(link.outbox)
      ensures !connectFails && old(link.inbox) != [] && !old(link.inbox)[0].NotifyUsers? ==>
        r == Err(PlainException("Connection failed")) && link.inbox == old(link.inbox)[1..]
        && link.outbox == old(link.outbox)
      ensures !connectFails && old(link.inbox) != [] && old(link.inbox)[0].NotifyUsers? ==>
        var o := RunOutcome(basePath, MoveName(what, from, to), old(link.inbox)[1..], maxRetries);
        r == (if o.result.Ok? then Ok(()) else Err(o.result.error))
        && link.inbox == old(link.inbox)[1..][o.consumed..] && link.outbox == old(link.outbox) + o.sent
    {
      r := Run(MoveName(what, from, to), connectFails);
    }
  }
}

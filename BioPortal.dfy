/** The robot cell's status record and its three transitions
    (`drivers/maholo/maholo_api/schemas.py`, byte-for-byte the same as
    `maholocon/maholo_api/schemas.py`), and the cookie strings sent when
    connecting. */
module BioPortal {
  import opened Common

  datatype Mode = Standard | Reservation | ExternalRemote
  datatype CellStatus = CellIdle | Experiment
  datatype RobotPos = Origin | NotOrigin
  datatype ExpStatus = ExpNone | Requested | Running | Pause | Completed | Aborted

  /** A snapshot of `BioPortalStatus`, as carried by NotifyStatus and
      GetStatus messages. */
  datatype Status = Status(
    mode: Mode,
    cellStatus: CellStatus,
    alarms: seq<string>,
    robotPos: RobotPos,
    expStatus: ExpStatus,
    protocol: string)

  predicate IsIdle(s: Status) {
    s.mode == ExternalRemote && s.cellStatus == CellIdle && s.robotPos == Origin && s.expStatus == ExpNone
  }

  predicate IsRequested(s: Status) {
    s.mode == ExternalRemote && s.cellStatus == Experiment && s.robotPos == Origin && s.expStatus == Requested
  }

  /** Running does not look at the robot position. */
  predicate IsRunning(s: Status) {
    s.mode == ExternalRemote && s.cellStatus == Experiment && s.expStatus == Running
  }

  /** The three phases exclude each other. */
  lemma PhasesExclusive(s: Status)
    ensures !(IsIdle(s) && IsRequested(s))
    ensures !(IsIdle(s) && IsRunning(s))
    ensures !(IsRequested(s) && IsRunning(s))
  {
  }

  /** `request`: only from idle; the cell enters the experiment with the
      protocol requested. */
  function AfterRequest(s: Status, protocol: string): (r: Result<Status>)
    ensures r.Ok? <==> IsIdle(s)
    ensures r.Ok? ==> IsRequested(r.value)
  {
    if !IsIdle(s) then Err(ValueError("Not idle"))
    else Ok(s.(cellStatus := Experiment, expStatus := Requested, protocol := protocol))
  }

  /** `run`: only once requested; the robot leaves its origin. */
  function AfterRun(s: Status): (r: Result<Status>)
    ensures r.Ok? <==> IsRequested(s)
    ensures r.Ok? ==> IsRunning(r.value) && r.value.protocol == s.protocol
  {
    if !IsRequested(s) then Err(ValueError("Not requested"))
    else Ok(s.(robotPos := NotOrigin, expStatus := Running))
  }

  /** `complete`: only while running; the record goes back to idle and
      the returned copy is marked completed. */
  function AfterComplete(s: Status): (r: Result<(Status, Status)>)
    ensures r.Ok? <==> IsRunning(s)
    ensures r.Ok? ==> IsIdle(r.value.0) && r.value.1.expStatus == Completed
  {
    if !IsRunning(s) then Err(ValueError("Not running"))
    else
      var idle := s.(cellStatus := CellIdle, robotPos := Origin, expStatus := ExpNone, protocol := "");
      Ok((idle, idle.(expStatus := Completed)))
  }

  lemma RequestSpec(s: Status, protocol: string)
    ensures AfterRequest(s, protocol).Ok? <==> IsIdle(s)
    ensures AfterRequest(s, protocol).Err? ==> AfterRequest(s, protocol).error.ValueError?
    ensures AfterRequest(s, protocol).Ok? ==>
      var t := AfterRequest(s, protocol).value;
      IsRequested(t) && t.protocol == protocol && t.mode == s.mode && t.alarms == s.alarms && t.robotPos == s.robotPos
  {
  }

  lemma RunSpec(s: Status)
    ensures AfterRun(s).Ok? <==> IsRequested(s)
    ensures AfterRun(s).Err? ==> AfterRun(s).error.ValueError?
    ensures AfterRun(s).Ok? ==>
      var t := AfterRun(s).value;
      IsRunning(t) && t.robotPos == NotOrigin && t.mode == s.mode && t.alarms == s.alarms && t.protocol == s.protocol
  {
  }

  lemma CompleteSpec(s: Status)
    ensures AfterComplete(s).Ok? <==> IsRunning(s)
    ensures AfterComplete(s).Err? ==> AfterComplete(s).error.ValueError?
    ensures AfterComplete(s).Ok? ==>
      var (self, copy) := AfterComplete(s).value;
      IsIdle(self) && self.protocol == "" && self.mode == s.mode && self.alarms == s.alarms
      && copy == self.(expStatus := Completed)
  {
  }

  /** From idle, `request; run; complete` returns to the same idle record
      with the protocol cleared, and reports it completed. */
  lemma Cycle(s: Status, protocol: string)
    requires IsIdle(s)
    ensures AfterRequest(s, protocol).Ok?
    ensures AfterRun(AfterRequest(s, protocol).value).Ok?
    ensures AfterComplete(AfterRun(AfterRequest(s, protocol).value).value).Ok?
    ensures var (self, copy) := AfterComplete(AfterRun(AfterRequest(s, protocol).value).value).value;
      self == s.(protocol := "") && copy == s.(protocol := "", expStatus := Completed)
  {
  }

  /** `BioPortalStatus`, whose transitions update its fields in place. */
  class BioPortalStatus {
    var mode: Mode
    var cellStatus: CellStatus
    var alarms: seq<string>
    var robotPos: RobotPos
    var expStatus: ExpStatus
    var protocol: string

    function Snapshot(): (r: Status)
      reads this
      ensures r.mode == mode && r.cellStatus == cellStatus && r.alarms == alarms
      ensures r.robotPos == robotPos && r.expStatus == expStatus && r.protocol == protocol
    {
      Status(mode, cellStatus, alarms, robotPos, expStatus, protocol)
    }

    constructor(s: Status)
      ensures Snapshot() == s
    {
      mode := s.mode;
      cellStatus := s.cellStatus;
      alarms := s.alarms;
      robotPos := s.robotPos;
      expStatus := s.expStatus;
      protocol := s.protocol;
    }

    method Request(p: string) returns (r: Result<()>)
      modifies this
      ensures AfterRequest(old(Snapshot()), p).Err? ==>
        r.Err? && r.error == AfterRequest(old(Snapshot()), p).error && Snapshot() == old(Snapshot())
      ensures AfterRequest(old(Snapshot()), p).Ok? ==>
        r.Ok? && Snapshot() == AfterRequest(old(Snapshot()), p).value
    {
      if !IsIdle(Snapshot()) {
        return Err(ValueError("Not idle"));
      }
      cellStatus := Experiment;
      expStatus := Requested;
      protocol := p;
      return Ok(());
    }

    method Run() returns (r: Result<()>)
      modifies this
      ensures AfterRun(old(Snapshot())).Err? ==>
        r.Err? && r.error == AfterRun(old(Snapshot())).error && Snapshot() == old(Snapshot())
      ensures AfterRun(old(Snapshot())).Ok? ==>
        r.Ok? && Snapshot() == AfterRun(old(Snapshot())).value
    {
      if !IsRequested(Snapshot()) {
        return Err(ValueError("Not requested"));
      }
      robotPos := NotOrigin;
      expStatus := Running;
      return Ok(());
    }

    /** Returns the deep copy marked completed. */
    method Complete() returns (r: Result<Status>)
      modifies this
      ensures AfterComplete(old(Snapshot())).Err? ==>
        r.Err? && r.error == AfterComplete(old(Snapshot())).error && Snapshot() == old(Snapshot())
      ensures AfterComplete(old(Snapshot())).Ok? ==>
        r.Ok? && Snapshot() == AfterComplete(old(Snapshot())).value.0
        && r.value == AfterComplete(old(Snapshot())).value.1
    {
      if !IsRunning(Snapshot()) {
        return Err(ValueError("Not running"));
      }
      cellStatus := CellIdle;
      robotPos := Origin;
      expStatus := ExpNone;
      protocol := "";
      var copy := Snapshot();
      return Ok(copy.(expStatus := Completed));
    }
  }

  /** `BaseCookie.to_cookie` (also `ConnectionCookie`). */
  function BaseCookie(group: string, name: string, to: string): string {
    Join(["Group=" + group, " Name=" + name, " To=" + to], ';')
  }

  /** `ServiceCookie.From`. */
  function ServiceFrom(group: string, name: string): string {
    name + "@" + group
  }

  /** `ServiceCookie.to_cookie`: the third field runs `To` and `From`
      together with no separator between them. */
  function ServiceCookie(group: string, name: string, to: string): string {
    Join(["Group=" + group, " Name=" + name, " To=" + to + "From=" + ServiceFrom(group, name)], ';')
  }

  /** Three fields joined by `;` then read back. */
  lemma JoinThree(a: string, b: string, c: string)
    requires ';' !in a && ';' !in b && ';' !in c
    ensures Join([a, b, c], ';') == a + ";" + b + ";" + c
    ensures Split(Join([a, b, c], ';'), ';') == [a, b, c]
  {
    var parts := [a, b, c];
    assert parts[1..] == [b, c] && parts[1..][1..] == [c];
    assert Join([c], ';') == c;
    assert Join([b, c], ';') == b + ";" + c;
    SplitJoin(parts, ';');
  }

  /** The cookie reads back field by field when no value holds a `;`, and
      its fields are written `; `-separated. */
  lemma BaseCookieFields(group: string, name: string, to: string)
    requires ';' !in group && ';' !in name && ';' !in to
    ensures BaseCookie(group, name, to) == "Group=" + group + "; Name=" + name + "; To=" + to
    ensures Split(BaseCookie(group, name, to), ';') == ["Group=" + group, " Name=" + name, " To=" + to]
  {
    JoinThree("Group=" + group, " Name=" + name, " To=" + to);
  }

  /** The service cookie's third field is `To=<to>From=<name>@<group>`: the
      cookie splits back into these three fields when no value holds a `;`. */
  lemma ServiceCookieFields(group: string, name: string, to: string)
    requires ';' !in group && ';' !in name && ';' !in to
    ensures Split(ServiceCookie(group, name, to), ';') == ["Group=" + group, " Name=" + name, " To=" + to + "From=" + (name + "@" + group)]
  {
    JoinThree("Group=" + group, " Name=" + name, " To=" + to + "From=" + ServiceFrom(group, name));
  }
}

/** The plan and schedule trees of `src/protocol.py`: node kinds, preorder
    flattening, the dict form, the typed parsers with their child-type rules,
    plan-to-schedule conversion, and the mutable parent/child links. */
module PlanTree {
  import opened Common

  datatype FromType = START | FINISH

  /** What a node carries besides its links. */
  datatype Kind =
    | Start
    | ScheduleStart(startTime: Option<Time>)
    | Delay(duration: int, fromType: FromType, offset: int)
    | Protocol(name: string, duration: int)
    | StartedProtocol(name: string, duration: int, scheduledTime: Option<Time>,
                      startTime: Option<Time>, endTime: Option<Time>)

  /** A tree as reached through `post_node`. */
  datatype Node = Node(kind: Kind, post: seq<Node>)

  datatype NodeType = PLAN_START | DELAY | PROTOCOL | SCHEDULE_START | STARTED_PROTOCOL

  /** `isinstance(n, Protocol)`: `StartedProtocol` is a subclass of `Protocol`. */
  predicate IsProtocolInstance(k: Kind) {
    k.Protocol? || k.StartedProtocol?
  }

  function TypeOf(k: Kind): NodeType {
    match k
    case Start => PLAN_START
    case ScheduleStart(_) => SCHEDULE_START
    case Delay(_, _, _) => DELAY
    case Protocol(_, _) => PROTOCOL
    case StartedProtocol(_, _, _, _, _) => STARTED_PROTOCOL
  }

  /** `NodeType.value`. */
  function NodeTypeValue(t: NodeType): string {
    match t
    case PLAN_START => "plan_start"
    case DELAY => "delay"
    case PROTOCOL => "protocol"
    case SCHEDULE_START => "schedule_start"
    case STARTED_PROTOCOL => "started_protocol"
  }

  /** `NodeType(value)`: the member with that value, otherwise `ValueError`. */
  function ParseNodeType(s: string): (r: Result<NodeType>)
    ensures r.Ok? ==> NodeTypeValue(r.value) == s
    ensures r.Err? ==> forall t: NodeType :: NodeTypeValue(t) != s
  {
    if s == "plan_start" then Ok(PLAN_START)
    else if s == "delay" then Ok(DELAY)
    else if s == "protocol" then Ok(PROTOCOL)
    else if s == "schedule_start" then Ok(SCHEDULE_START)
    else if s == "started_protocol" then Ok(STARTED_PROTOCOL)
    else
      assert forall t: NodeType :: NodeTypeValue(t) != s;
      Err(ValueError("'" + s + "' is not a valid NodeType"))
  }

  /** Every member's value parses back to that member. */
  lemma ParseNodeTypeRoundTrip(t: NodeType)
    ensures ParseNodeType(NodeTypeValue(t)) == Ok(t)
  {
    match t {
      case PLAN_START =>
      case DELAY =>
      case PROTOCOL =>
      case SCHEDULE_START =>
      case STARTED_PROTOCOL =>
    }
  }

  /** `FromType.name`. */
  function FromTypeName(f: FromType): string {
    match f
    case START => "START"
    case FINISH => "FINISH"
  }

  /** `FromType[name]`: lookup by member name, otherwise `KeyError`. */
  function ParseFromType(s: string): (r: Result<FromType>)
    ensures r.Ok? <==> s == "START" || s == "FINISH"
    ensures r.Ok? ==> FromTypeName(r.value) == s
  {
    if s == "START" then Ok(START)
    else if s == "FINISH" then Ok(FINISH)
    else Err(KeyError(s))
  }

  // ---------------------------------------------------------------------
  // Preorder flattening

  /** `flatten`: the node, then each child's flattening in order. */
  function Flatten(n: Node): (r: seq<Node>)
    ensures |r| >= 1 && r[0] == n
    decreases n, 1
  {
    [n] + FlattenAll(n.post)
  }

  function FlattenAll(ns: seq<Node>): seq<Node>
    decreases ns, 0
  {
    if ns == [] then [] else Flatten(ns[0]) + FlattenAll(ns[1..])
  }

  /** Number of nodes in the subtree. */
  function Size(n: Node): nat
    decreases n, 1
  {
    1 + SizeAll(n.post)
  }

  function SizeAll(ns: seq<Node>): nat
    decreases ns, 0
  {
    if ns == [] then 0 else Size(ns[0]) + SizeAll(ns[1..])
  }

  /** The flattening lists every node of the subtree once: its length is the
      subtree size and it starts with the node itself. */
  lemma {:induction false} FlattenLength(n: Node)
    ensures |Flatten(n)| == Size(n) && Flatten(n)[0] == n
    decreases n, 1
  {
    FlattenAllLength(n.post);
  }

  lemma {:induction false} FlattenAllLength(ns: seq<Node>)
    ensures |FlattenAll(ns)| == SizeAll(ns)
    decreases ns, 0
  {
    if ns != [] {
      FlattenLength(ns[0]);
      FlattenAllLength(ns[1..]);
    }
  }

  /** A node's flattening is the node followed by its children's flattenings,
      so every child subtree's nodes appear in it. */
  lemma {:induction false} FlattenContainsChildren(n: Node, i: nat)
    requires i < |n.post|
    ensures forall x | x in Flatten(n.post[i]) :: x in Flatten(n)
  {
    FlattenAllContains(n.post, i);
  }

  lemma {:induction false} FlattenAllContains(ns: seq<Node>, i: nat)
    requires i < |ns|
    ensures forall x | x in Flatten(ns[i]) :: x in FlattenAll(ns)
    decreases i
  {
    if i > 0 {
      FlattenAllContains(ns[1..], i - 1);
    }
  }

  // ---------------------------------------------------------------------
  // Dict form

  /** A time as it sits in the dict: a POSIX timestamp, which
      `datetime.fromtimestamp` reads, or the `datetime` object itself. */
  datatype DictTime = Timestamp(seconds: Time) | DateTimeObject(at: Time)

  /** The dict `to_dict` builds and the parsers read. An absent key and a key
      holding `None` read the same through `data.get`; `hasPostNode` says
      whether `"post_node"` holds a list. Timedeltas are whole seconds. */
  datatype NodeDict = NodeDict(
    nodeType: Option<string>,
    hasPostNode: bool,
    postNode: seq<NodeDict>,
    name: Option<string>,
    duration: Option<int>,
    offset: Option<int>,
    fromType: Option<string>,
    startTime: Option<DictTime>,
    scheduledTime: Option<DictTime>,
    endTime: Option<DictTime>)

  /** How `to_dict` writes a recorded time. */
  datatype TimeForm =
    | DatetimeObjects   // the code: the attribute itself goes into the dict
    | PosixTimestamps   // what `from_dict` and `json.dump` expect

  function EncodeTime(form: TimeForm, t: Option<Time>): Option<DictTime> {
    if t.None? then None
    else if form == DatetimeObjects then Some(DateTimeObject(t.value))
    else Some(Timestamp(t.value))
  }

  /** A dict time `from_dict` accepts: absent, or a timestamp. */
  predicate Readable(v: Option<DictTime>) {
    v.None? || v.value.Timestamp?
  }

  /** `datetime.fromtimestamp` applied when the value is not `None`: a
      timestamp reads back as its instant, a `datetime` object raises
      `TypeError`. */
  function FromTimestamp(v: Option<DictTime>): (r: Result<Option<Time>>)
    ensures r.Ok? <==> Readable(v)
    ensures r.Ok? ==> (r.value.None? <==> v.None?)
    ensures r.Ok? && v.Some? ==> r.value.value == v.value.seconds
    ensures r.Err? ==> r.error.TypeError?
  {
    match v
    case None => Ok(None)
    case Some(Timestamp(s)) => Ok(Some(s))
    case Some(DateTimeObject(_)) => Err(TypeError("'datetime.datetime' object cannot be interpreted as an integer"))
  }

  /** Encoding as timestamps and reading back gives every time unchanged. */
  lemma TimestampRoundTrip(t: Option<Time>)
    ensures FromTimestamp(EncodeTime(PosixTimestamps, t)) == Ok(t)
  {
  }

  /** `to_dict` of every node kind, with the times written in `form`. */
  function ToDictBy(form: TimeForm, n: Node): (r: NodeDict)
    ensures r.nodeType == Some(NodeTypeValue(TypeOf(n.kind))) && r.hasPostNode && |r.postNode| == |n.post|
    decreases n, 1
  {
    var kids := ToDictAllBy(form, n.post);
    var base := NodeDict(Some(NodeTypeValue(TypeOf(n.kind))), true, kids,
                         None, None, None, None, None, None, None);
    match n.kind
    case Start => base
    case ScheduleStart(t) => base.(startTime := EncodeTime(form, t))
    case Delay(d, f, o) => base.(duration := Some(d), fromType := Some(FromTypeName(f)), offset := Some(o))
    case Protocol(name, d) => base.(name := Some(name), duration := Some(d))
    case StartedProtocol(name, d, sch, st, en) =>
      base.(name := Some(name), duration := Some(d), scheduledTime := EncodeTime(form, sch),
            startTime := EncodeTime(form, st), endTime := EncodeTime(form, en))
  }

  function ToDictAllBy(form: TimeForm, ns: seq<Node>): (r: seq<NodeDict>)
    ensures |r| == |ns|
    decreases ns, 0
  {
    if ns == [] then [] else [ToDictBy(form, ns[0])] + ToDictAllBy(form, ns[1..])
  }

  /** `to_dict` as written: recorded times go into the dict as `datetime`
      objects. */
  function ToDictAsWritten(n: Node): (r: NodeDict)
    ensures r.nodeType == Some(NodeTypeValue(TypeOf(n.kind))) && |r.postNode| == |n.post|
    ensures RecordsTime(n.kind) <==> !(Readable(r.startTime) && Readable(r.scheduledTime) && Readable(r.endTime))
  {
    ToDictBy(DatetimeObjects, n)
  }

  /** `to_dict` writing the POSIX timestamps its readers expect. */
  function ToDict(n: Node): (r: NodeDict)
    ensures r.nodeType == Some(NodeTypeValue(TypeOf(n.kind))) && |r.postNode| == |n.post|
    ensures Readable(r.startTime) && Readable(r.scheduledTime) && Readable(r.endTime)
    ensures n.kind.ScheduleStart? ==> FromTimestamp(r.startTime) == Ok(n.kind.startTime)
    ensures n.kind.StartedProtocol? ==>
      && FromTimestamp(r.scheduledTime) == Ok(n.kind.scheduledTime)
      && FromTimestamp(r.startTime) == Ok(n.kind.startTime)
      && FromTimestamp(r.endTime) == Ok(n.kind.endTime)
  {
    ToDictBy(PosixTimestamps, n)
  }

  function ToDictAll(ns: seq<Node>): (r: seq<NodeDict>)
    ensures |r| == |ns|
  {
    ToDictAllBy(PosixTimestamps, ns)
  }

  /** Checks `from_dict` of the typed kinds share: a `node_type` that is
      present, valid and the expected one. */
  function CheckNodeType(d: NodeDict, expected: NodeType, msg: string): (r: Result<()>)
    ensures r.Ok? <==> d.nodeType == Some(NodeTypeValue(expected))
  {
    if d.nodeType.None? then Err(ValueError(msg))
    else
      var t :- ParseNodeType(d.nodeType.value);
      if t != expected then Err(ValueError(msg)) else Ok(())
  }

  /** `Start.from_dict`: no checks at all. */
  function StartFromDict(d: NodeDict): Result<Kind> {
    Ok(Start)
  }

  /** `ScheduleStart.from_dict`. */
  function ScheduleStartFromDict(d: NodeDict): (r: Result<Kind>)
    ensures r.Ok? <==> d.nodeType == Some("schedule_start") && Readable(d.startTime)
    ensures r.Ok? ==> r.value.ScheduleStart? && Ok(r.value.startTime) == FromTimestamp(d.startTime)
  {
    var _ :- CheckNodeType(d, SCHEDULE_START, "Invalid node_type for ScheduleStart node");
    var t :- FromTimestamp(d.startTime);
    Ok(ScheduleStart(t))
  }

  /** `Delay.from_dict`: type, then duration, offset and from_type present,
      then a from_type that names a member. */
  function DelayFromDict(d: NodeDict): (r: Result<Kind>)
    ensures r.Ok? <==> d.nodeType == Some("delay") && d.duration.Some? && d.offset.Some?
                       && (d.fromType == Some("START") || d.fromType == Some("FINISH"))
    ensures r.Ok? ==> r.value.Delay? && r.value.duration == d.duration.value
                      && r.value.offset == d.offset.value && FromTypeName(r.value.fromType) == d.fromType.value
  {
    var _ :- CheckNodeType(d, DELAY, "Invalid node_type for Delay node");
    if d.duration.None? then Err(ValueError("Missing duration for Delay node"))
    else if d.offset.None? then Err(ValueError("Missing offset for Delay node"))
    else if d.fromType.None? then Err(ValueError("Missing from_type for Delay node"))
    else
      var f :- ParseFromType(d.fromType.value);
      Ok(Delay(d.duration.value, f, d.offset.value))
  }

  /** `Protocol.from_dict`. */
  function ProtocolFromDict(d: NodeDict): (r: Result<Kind>)
    ensures r.Ok? <==> d.nodeType == Some("protocol") && d.name.Some? && d.duration.Some?
    ensures r.Ok? ==> r.value == Protocol(d.name.value, d.duration.value)
  {
    var _ :- CheckNodeType(d, PROTOCOL, "Invalid node_type for Protocol node");
    if d.name.None? then Err(ValueError("Missing name for Protocol node"))
    else if d.duration.None? then Err(ValueError("Missing duration for Protocol node"))
    else Ok(Protocol(d.name.value, d.duration.value))
  }

  /** `StartedProtocol.from_dict`: the three times are optional and are
      read in the order scheduled, start, end. */
  function StartedProtocolFromDict(d: NodeDict): (r: Result<Kind>)
    ensures r.Ok? <==> d.nodeType == Some("started_protocol") && d.name.Some? && d.duration.Some?
                       && Readable(d.scheduledTime) && Readable(d.startTime) && Readable(d.endTime)
    ensures r.Ok? ==> r.value.StartedProtocol? && r.value.name == d.name.value && r.value.duration == d.duration.value
                      && Ok(r.value.scheduledTime) == FromTimestamp(d.scheduledTime)
                      && Ok(r.value.startTime) == FromTimestamp(d.startTime)
                      && Ok(r.value.endTime) == FromTimestamp(d.endTime)
  {
    var _ :- CheckNodeType(d, STARTED_PROTOCOL, "Invalid node_type for StartedProtocol node");
    if d.name.None? then Err(ValueError("Missing name for StartedProtocol node"))
    else if d.duration.None? then Err(ValueError("Missing duration for StartedProtocol node"))
    else
      var sch :- FromTimestamp(d.scheduledTime);
      var st :- FromTimestamp(d.startTime);
      var en :- FromTimestamp(d.endTime);
      Ok(StartedProtocol(d.name.value, d.duration.value, sch, st, en))
  }

  // ---------------------------------------------------------------------
  // Plan trees

  /** The child types `plan_from_dict` admits: Start and Protocol take
      Protocol or Delay children, Delay takes only Protocol children. */
  predicate PlanChildOk(parent: Kind, child: Kind) {
    match parent
    case Start => child.Protocol? || child.Delay?
    case Delay(_, _, _) => child.Protocol?
    case Protocol(_, _) => child.Protocol? || child.Delay?
    case _ => false
  }

  predicate WellTypedPlan(n: Node) {
    && (n.kind.Start? || n.kind.Delay? || n.kind.Protocol?)
    && forall i | 0 <= i < |n.post| :: PlanChildOk(n.kind, n.post[i].kind) && WellTypedPlan(n.post[i])
  }

  /** The node-type dispatch of `plan_from_dict`: the kind's own
      `from_dict`, or `ValueError` for a type no plan holds. */
  function PlanKindFromDict(t: NodeType, d: NodeDict): Result<Kind> {
    match t
    case PLAN_START => StartFromDict(d)
    case DELAY => DelayFromDict(d)
    case PROTOCOL => ProtocolFromDict(d)
    case _ => Err(ValueError("Unknown node type: NodeType." + NodeTypeName(t)))
  }

  /** `plan_from_dict`: node_type, post_node, every child (first failure
      wins), the node's own `from_dict`, then the child-type rule. */
  function PlanFromDict(d: NodeDict): (r: Result<Node>)
    ensures d.nodeType.None? ==> r == Err(ValueError("Missing node_type"))
    ensures r.Ok? ==> d.hasPostNode && |r.value.post| == |d.postNode|
    ensures r.Ok? ==> forall i | 0 <= i < |r.value.post| :: PlanChildOk(r.value.kind, r.value.post[i].kind)
    decreases d, 1
  {
    if d.nodeType.None? then Err(ValueError("Missing node_type"))
    else
      var t :- ParseNodeType(d.nodeType.value);
      if !d.hasPostNode then Err(ValueError("Missing post_node"))
      else
        var kids :- PlanFromDictAll(d.postNode);
        var kind :- PlanKindFromDict(t, d);
        if forall i | 0 <= i < |kids| :: PlanChildOk(kind, kids[i].kind) then Ok(Node(kind, kids))
        else Err(ValueError("Invalid post_node type"))
  }

  function PlanFromDictAll(ds: seq<NodeDict>): (r: Result<seq<Node>>)
    ensures r.Ok? ==> |r.value| == |ds|
    decreases ds, 0
  {
    if ds == [] then Ok([])
    else
      var h :- PlanFromDict(ds[0]);
      var t :- PlanFromDictAll(ds[1..]);
      Ok([h] + t)
  }

  function NodeTypeName(t: NodeType): string {
    match t
    case PLAN_START => "PLAN_START"
    case DELAY => "DELAY"
    case PROTOCOL => "PROTOCOL"
    case SCHEDULE_START => "SCHEDULE_START"
    case STARTED_PROTOCOL => "STARTED_PROTOCOL"
  }

  /** Whatever `plan_from_dict` returns obeys the child-type rules. */
  lemma {:induction false} PlanFromDictWellTyped(d: NodeDict)
    ensures PlanFromDict(d).Ok? ==> WellTypedPlan(PlanFromDict(d).value)
    decreases d, 1
  {
    if PlanFromDict(d).Ok? {
      PlanFromDictAllWellTyped(d.postNode);
    }
  }

  lemma {:induction false} PlanFromDictAllWellTyped(ds: seq<NodeDict>)
    ensures PlanFromDictAll(ds).Ok? ==>
      forall i | 0 <= i < |ds| :: WellTypedPlan(PlanFromDictAll(ds).value[i])
    decreases ds, 0
  {
    if ds != [] && PlanFromDictAll(ds).Ok? {
      PlanFromDictWellTyped(ds[0]);
      PlanFromDictAllWellTyped(ds[1..]);
      var r := PlanFromDictAll(ds).value;
      assert r == [PlanFromDict(ds[0]).value] + PlanFromDictAll(ds[1..]).value;
    }
  }

  /** Round trip: a plan tree obeying the child-type rules comes back from its
      dict with the same kinds, names, durations, from_type, offsets and child
      order. */
  lemma {:induction false} PlanRoundTrip(n: Node)
    requires WellTypedPlan(n)
    ensures PlanFromDict(ToDict(n)) == Ok(n)
    decreases n, 1
  {
    PlanRoundTripAll(n.post);
    PlanFieldsRoundTrip(n);
  }

  /** What reading back one plan node needs besides its children: its type
      name and its own fields parse back, and its children's kinds are
      allowed. */
  lemma PlanFieldsRoundTrip(n: Node)
    requires WellTypedPlan(n)
    ensures ParseNodeType(NodeTypeValue(TypeOf(n.kind))) == Ok(TypeOf(n.kind))
    ensures PlanKindFromDict(TypeOf(n.kind), ToDict(n)) == Ok(n.kind)
    ensures forall i | 0 <= i < |n.post| :: PlanChildOk(n.kind, n.post[i].kind)
  {
    ParseNodeTypeRoundTrip(TypeOf(n.kind));
    StartFields(n);
    DelayFields(n);
    ProtocolFields(n);
  }

  lemma StartFields(n: Node)
    ensures n.kind.Start? ==> PlanKindFromDict(TypeOf(n.kind), ToDict(n)) == Ok(n.kind)
  {
  }

  lemma ProtocolFields(n: Node)
    ensures n.kind.Protocol? ==> PlanKindFromDict(TypeOf(n.kind), ToDict(n)) == Ok(n.kind)
  {
  }

  lemma {:induction false} PlanRoundTripAll(ns: seq<Node>)
    requires forall i | 0 <= i < |ns| :: WellTypedPlan(ns[i])
    ensures PlanFromDictAll(ToDictAll(ns)) == Ok(ns)
    decreases ns, 0
  {
    if ns != [] {
      var d := ToDictAll(ns);
      assert d[0] == ToDict(ns[0]) && d[1..] == ToDictAll(ns[1..]);
      PlanRoundTrip(ns[0]);
      PlanRoundTripAll(ns[1..]);
      assert ns == [ns[0]] + ns[1..];
    }
  }

  // ---------------------------------------------------------------------
  // Schedule trees

  /** Child types of a schedule tree: ScheduleStart and StartedProtocol take
      StartedProtocol or Delay children, Delay takes StartedProtocol
      children (the schedule counterpart of the plan rule). */
  predicate ScheduleChildOk(parent: Kind, child: Kind) {
    match parent
    case ScheduleStart(_) => child.StartedProtocol? || child.Delay?
    case Delay(_, _, _) => child.StartedProtocol?
    case StartedProtocol(_, _, _, _, _) => child.StartedProtocol? || child.Delay?
    case _ => false
  }

  predicate WellTypedSchedule(n: Node) {
    && (n.kind.ScheduleStart? || n.kind.Delay? || n.kind.StartedProtocol?)
    && forall i | 0 <= i < |n.post| :: ScheduleChildOk(n.kind, n.post[i].kind) && WellTypedSchedule(n.post[i])
  }

  /** Which child kinds a Delay may take when a schedule is read back. */
  /** The kinds the schedule parser produces. */
  predicate ScheduleKind(k: Kind) {
    k.ScheduleStart? || k.Delay? || k.StartedProtocol?
  }

  datatype DelayRule =
    | ExactProtocol      // `type(post_node) is not Protocol` as the code has it
    | StartedOnly        // the schedule counterpart of the plan rule

  predicate ScheduleChildOkBy(rule: DelayRule, parent: Kind, child: Kind) {
    if parent.Delay? then
      (match rule
       case ExactProtocol => child.Protocol?
       case StartedOnly => child.StartedProtocol?)
    else ScheduleChildOk(parent, child)
  }

  /** The node-type dispatch of `schedule_from_dict`: the kind's own
      `from_dict`, or `ValueError` for a type no schedule holds. */
  function ScheduleKindFromDict(t: NodeType, d: NodeDict): Result<Kind> {
    match t
    case SCHEDULE_START => ScheduleStartFromDict(d)
    case DELAY => DelayFromDict(d)
    case STARTED_PROTOCOL => StartedProtocolFromDict(d)
    case _ => Err(ValueError("Unknown node type: NodeType." + NodeTypeName(t)))
  }

  /** `schedule_from_dict` parameterised by the Delay child rule. */
  function ScheduleFromDictBy(rule: DelayRule, d: NodeDict): (r: Result<Node>)
    ensures d.nodeType.None? ==> r == Err(ValueError("Missing node_type"))
    ensures r.Ok? ==> d.hasPostNode && |r.value.post| == |d.postNode|
    ensures r.Ok? ==> forall i | 0 <= i < |r.value.post| :: ScheduleChildOkBy(rule, r.value.kind, r.value.post[i].kind)
    ensures r.Ok? ==> ScheduleKind(r.value.kind)
    ensures r.Ok? ==> forall i | 0 <= i < |r.value.post| :: ScheduleKind(r.value.post[i].kind)
    decreases d, 1
  {
    if d.nodeType.None? then Err(ValueError("Missing node_type"))
    else
      var t :- ParseNodeType(d.nodeType.value);
      if !d.hasPostNode then Err(ValueError("Missing post_node"))
      else
        var kids :- ScheduleFromDictAllBy(rule, d.postNode);
        var kind :- ScheduleKindFromDict(t, d);
        if forall i | 0 <= i < |kids| :: ScheduleChildOkBy(rule, kind, kids[i].kind) then Ok(Node(kind, kids))
        else Err(ValueError("Invalid post_node type"))
  }

  function ScheduleFromDictAllBy(rule: DelayRule, ds: seq<NodeDict>): (r: Result<seq<Node>>)
    ensures r.Ok? ==> |r.value| == |ds|
    ensures r.Ok? ==> forall i | 0 <= i < |r.value| :: ScheduleKind(r.value[i].kind)
    decreases ds, 0
  {
    if ds == [] then Ok([])
    else
      var h :- ScheduleFromDictBy(rule, ds[0]);
      var t :- ScheduleFromDictAllBy(rule, ds[1..]);
      Ok([h] + t)
  }

  /** `schedule_from_dict` as written: a Delay's children must be exactly
      `Protocol`, a kind this parser never produces. */
  function ScheduleFromDictAsWritten(d: NodeDict): (r: Result<Node>)
    ensures r.Ok? ==> |r.value.post| == |d.postNode|
    ensures r.Ok? && r.value.kind.Delay? ==> r.value.post == []
  {
    var r := ScheduleFromDictBy(ExactProtocol, d);
    if r.Ok? && r.value.post != [] then
      assert ScheduleKind(r.value.post[0].kind);
      r
    else r
  }

  /** `schedule_from_dict` with the Delay rule the schedule trees need. */
  function ScheduleFromDict(d: NodeDict): (r: Result<Node>)
    ensures r.Ok? ==> ScheduleKind(r.value.kind) && |r.value.post| == |d.postNode|
    ensures r.Ok? && r.value.kind.Delay? ==> forall i | 0 <= i < |r.value.post| :: r.value.post[i].kind.StartedProtocol?
  {
    ScheduleFromDictBy(StartedOnly, d)
  }

  /** The schedule parser only ever yields ScheduleStart, Delay and
      StartedProtocol nodes. */
  lemma {:induction false} ScheduleFromDictKinds(rule: DelayRule, d: NodeDict)
    ensures ScheduleFromDictBy(rule, d).Ok? ==>
      var k := ScheduleFromDictBy(rule, d).value.kind;
      k.ScheduleStart? || k.Delay? || k.StartedProtocol?
  {
  }

  /** As written, every Delay with at least one child is rejected. */
  lemma {:induction false} AsWrittenRejectsDelayChildren(d: NodeDict)
    requires d.nodeType == Some("delay") && d.hasPostNode && |d.postNode| > 0
    ensures ScheduleFromDictAsWritten(d).Err?
  {
    var kids := ScheduleFromDictAllBy(ExactProtocol, d.postNode);
    if kids.Ok? {
      var first := ScheduleFromDictBy(ExactProtocol, d.postNode[0]);
      assert first.Ok? && kids.value[0] == first.value;
      ScheduleFromDictKinds(ExactProtocol, d.postNode[0]);
    }
  }

  /** With the corrected rule every well-typed schedule tree round-trips
      through its dict. */
  lemma {:induction false} ScheduleRoundTrip(n: Node)
    requires WellTypedSchedule(n)
    ensures ScheduleFromDict(ToDict(n)) == Ok(n)
    decreases n, 1
  {
    ScheduleRoundTripAll(n.post);
    ScheduleFieldsRoundTrip(n);
  }

  /** What reading back one schedule node needs besides its children: its
      type name and its own fields parse back, and its children's kinds are
      allowed. */
  lemma ScheduleFieldsRoundTrip(n: Node)
    requires WellTypedSchedule(n)
    ensures ParseNodeType(NodeTypeValue(TypeOf(n.kind))) == Ok(TypeOf(n.kind))
    ensures ScheduleKindFromDict(TypeOf(n.kind), ToDict(n)) == Ok(n.kind)
    ensures forall i | 0 <= i < |n.post| :: ScheduleChildOkBy(StartedOnly, n.kind, n.post[i].kind)
  {
    ParseNodeTypeRoundTrip(TypeOf(n.kind));
    ScheduleStartFields(n);
    DelayFields(n);
    StartedProtocolFields(n);
  }

  lemma ScheduleStartFields(n: Node)
    ensures n.kind.ScheduleStart? ==> ScheduleKindFromDict(TypeOf(n.kind), ToDict(n)) == Ok(n.kind)
  {
  }

  lemma DelayFields(n: Node)
    ensures n.kind.Delay? ==> DelayFromDict(ToDict(n)) == Ok(n.kind)
  {
  }

  lemma StartedProtocolFields(n: Node)
    ensures n.kind.StartedProtocol? ==> ScheduleKindFromDict(TypeOf(n.kind), ToDict(n)) == Ok(n.kind)
  {
    if n.kind.StartedProtocol? {
      var d := ToDict(n);
      TimestampRoundTrip(n.kind.scheduledTime);
      TimestampRoundTrip(n.kind.startTime);
      TimestampRoundTrip(n.kind.endTime);
      assert d.scheduledTime == EncodeTime(PosixTimestamps, n.kind.scheduledTime);
      assert d.startTime == EncodeTime(PosixTimestamps, n.kind.startTime);
      assert d.endTime == EncodeTime(PosixTimestamps, n.kind.endTime);
    }
  }

  lemma {:induction false} ScheduleRoundTripAll(ns: seq<Node>)
    requires forall i | 0 <= i < |ns| :: WellTypedSchedule(ns[i])
    ensures ScheduleFromDictAllBy(StartedOnly, ToDictAll(ns)) == Ok(ns)
    decreases ns, 0
  {
    if ns != [] {
      var d := ToDictAll(ns);
      assert d[0] == ToDict(ns[0]) && d[1..] == ToDictAll(ns[1..]);
      ScheduleRoundTrip(ns[0]);
      ScheduleRoundTripAll(ns[1..]);
      assert ns == [ns[0]] + ns[1..];
    }
  }

  /** A delay holding one started protocol: the corrected parser reads its
      dict back, the parser as written rejects it. */
  lemma DelayWithChildCounterexample()
    ensures var n := Node(Delay(5, START, 0), [Node(StartedProtocol("P2", 0, None, None, None), [])]);
      ScheduleFromDictAsWritten(ToDict(n)).Err? && ScheduleFromDict(ToDict(n)) == Ok(n)
  {
    var n := Node(Delay(5, START, 0), [Node(StartedProtocol("P2", 0, None, None, None), [])]);
    assert WellTypedSchedule(n);
    ScheduleRoundTrip(n);
    AsWrittenRejectsDelayChildren(ToDict(n));
  }

  /** A node kind carrying a recorded time. */
  predicate RecordsTime(k: Kind) {
    || (k.ScheduleStart? && k.startTime.Some?)
    || (k.StartedProtocol? && (k.scheduledTime.Some? || k.startTime.Some? || k.endTime.Some?))
  }

  /** No node of the tree carries a recorded time. */
  predicate NoTimes(n: Node) {
    !RecordsTime(n.kind) && forall i | 0 <= i < |n.post| :: NoTimes(n.post[i])
  }

  /** As written, a node with a recorded time cannot be read back from its
      own dict: `fromtimestamp` is handed the `datetime` object. */
  lemma AsWrittenRejectsRecordedTimes(rule: DelayRule, n: Node)
    requires RecordsTime(n.kind)
    ensures ScheduleFromDictBy(rule, ToDictAsWritten(n)).Err?
  {
    ParseNodeTypeRoundTrip(TypeOf(n.kind));
    assert !ScheduleKindFromDict(TypeOf(n.kind), ToDictAsWritten(n)).Ok?;
  }

  /** Without recorded times the two encodings write the same dict. */
  lemma {:induction false} AsWrittenAgreesWithoutTimes(n: Node)
    requires NoTimes(n)
    ensures ToDictAsWritten(n) == ToDict(n)
    decreases n, 1
  {
    AsWrittenAgreesWithoutTimesAll(n.post);
  }

  lemma {:induction false} AsWrittenAgreesWithoutTimesAll(ns: seq<Node>)
    requires forall i | 0 <= i < |ns| :: NoTimes(ns[i])
    ensures ToDictAllBy(DatetimeObjects, ns) == ToDictAllBy(PosixTimestamps, ns)
    decreases ns, 0
  {
    if ns != [] {
      AsWrittenAgreesWithoutTimes(ns[0]);
      AsWrittenAgreesWithoutTimesAll(ns[1..]);
    }
  }

  /** A schedule whose start is recorded: the corrected encoding reads back,
      the one as written raises `TypeError`. */
  lemma RecordedStartCounterexample()
    ensures var n := Node(ScheduleStart(Some(0)), []);
      && ScheduleFromDictAsWritten(ToDictAsWritten(n)).Err?
      && ScheduleFromDictAsWritten(ToDictAsWritten(n)).error.TypeError?
      && ScheduleFromDict(ToDict(n)) == Ok(n)
  {
    var n := Node(ScheduleStart(Some(0)), []);
    assert WellTypedSchedule(n);
    ScheduleRoundTrip(n);
    ParseNodeTypeRoundTrip(SCHEDULE_START);
    assert ScheduleFromDictAllBy(ExactProtocol, ToDictAsWritten(n).postNode) == Ok([]);
  }

  // ---------------------------------------------------------------------
  // Plan to schedule

  /** How `plan2schedule` treats a Delay. */
  datatype DelayReuse =
    | ReuseInput   // the code: keep the input node and append the converted children to its own
    | FreshDelay   // a new Delay holding only the converted children

  /** `plan2schedule`: children are converted first; Start becomes an empty
      ScheduleStart, Protocol a StartedProtocol with the same name and
      duration, and converted children must be StartedProtocol or Delay. A
      ScheduleStart or StartedProtocol input reaches no branch and the code
      fails on the unbound result. */
  function PlanToScheduleBy(reuse: DelayReuse, n: Node): (r: Result<Node>)
    ensures r.Ok? ==> ScheduleKind(r.value.kind) || r.value.kind.Delay?
    ensures r.Ok? ==> |r.value.post| == (if reuse == ReuseInput && n.kind.Delay? then 2 * |n.post| else |n.post|)
    decreases n, 1
  {
    var kids :- PlanToScheduleAllBy(reuse, n.post);
    if !(n.kind.Start? || n.kind.Protocol? || n.kind.Delay?) then
      Err(UnboundLocalError("cannot access local variable 'current_node'"))
    else if !(forall i | 0 <= i < |kids| :: kids[i].kind.StartedProtocol? || kids[i].kind.Delay?) then
      Err(ValueError("Invalid post_node type"))
    else
      match n.kind
      case Start => Ok(Node(ScheduleStart(None), kids))
      case Protocol(name, d) => Ok(Node(StartedProtocol(name, d, None, None, None), kids))
      case Delay(_, _, _) =>
        Ok(Node(n.kind, if reuse == ReuseInput then n.post + kids else kids))
  }

  function PlanToScheduleAllBy(reuse: DelayReuse, ns: seq<Node>): (r: Result<seq<Node>>)
    ensures r.Ok? ==> |r.value| == |ns|
    decreases ns, 0
  {
    if ns == [] then Ok([])
    else
      var h :- PlanToScheduleBy(reuse, ns[0]);
      var t :- PlanToScheduleAllBy(reuse, ns[1..]);
      Ok([h] + t)
  }

  /** `plan2schedule` as written. */
  function PlanToScheduleAsWritten(n: Node): (r: Result<Node>)
    ensures r.Ok? && n.kind.Delay? ==> |r.value.post| == 2 * |n.post| && r.value.post[..|n.post|] == n.post
    ensures r.Ok? && !n.kind.Delay? ==> |r.value.post| == |n.post|
  {
    PlanToScheduleBy(ReuseInput, n)
  }

  /** `plan2schedule` with a fresh Delay, as the other branches build fresh nodes. */
  function PlanToSchedule(n: Node): (r: Result<Node>)
    ensures r.Ok? ==> ScheduleKind(r.value.kind) && |r.value.post| == |n.post|
    ensures r.Ok? ==> forall i | 0 <= i < |r.value.post| :: r.value.post[i].kind.StartedProtocol? || r.value.post[i].kind.Delay?
  {
    PlanToScheduleBy(FreshDelay, n)
  }

  /** `m` is the schedule counterpart of the plan `n`, node for node. */
  predicate Converted(n: Node, m: Node) {
    && |m.post| == |n.post|
    && (match n.kind
        case Start => m.kind == ScheduleStart(None)
        case Protocol(name, d) => m.kind == StartedProtocol(name, d, None, None, None)
        case Delay(_, _, _) => m.kind == n.kind
        case _ => false)
    && forall i | 0 <= i < |n.post| :: Converted(n.post[i], m.post[i])
  }

  /** The corrected conversion turns every well-typed plan into a well-typed
      schedule of the same shape, with names, durations and delays kept. */
  lemma {:induction false} PlanToScheduleSound(n: Node)
    requires WellTypedPlan(n)
    ensures PlanToSchedule(n).Ok?
    ensures WellTypedSchedule(PlanToSchedule(n).value) && Converted(n, PlanToSchedule(n).value)
    decreases n, 1
  {
    PlanToScheduleAllSound(n.post);
  }

  lemma {:induction false} PlanToScheduleAllSound(ns: seq<Node>)
    requires forall i | 0 <= i < |ns| :: WellTypedPlan(ns[i])
    ensures PlanToScheduleAllBy(FreshDelay, ns).Ok?
    ensures var r := PlanToScheduleAllBy(FreshDelay, ns).value;
      forall i | 0 <= i < |ns| :: WellTypedSchedule(r[i]) && Converted(ns[i], r[i])
    decreases ns, 0
  {
    if ns != [] {
      PlanToScheduleSound(ns[0]);
      PlanToScheduleAllSound(ns[1..]);
      var r := PlanToScheduleAllBy(FreshDelay, ns).value;
      assert r == [PlanToSchedule(ns[0]).value] + PlanToScheduleAllBy(FreshDelay, ns[1..]).value;
    }
  }

  /** Plan, schedule, dict and back: the corrected conversion and parser
      compose into an identity on the converted schedule. */
  lemma PlanScheduleDictRoundTrip(n: Node)
    requires WellTypedPlan(n)
    ensures PlanToSchedule(n).Ok? && ScheduleFromDict(ToDict(PlanToSchedule(n).value)) == PlanToSchedule(n)
    ensures ToDictAsWritten(PlanToSchedule(n).value) == ToDict(PlanToSchedule(n).value)
  {
    PlanToScheduleSound(n);
    ScheduleRoundTrip(PlanToSchedule(n).value);
    ConvertedHasNoTimes(n, PlanToSchedule(n).value);
    AsWrittenAgreesWithoutTimes(PlanToSchedule(n).value);
  }

  /** A freshly converted schedule records no time yet. */
  lemma {:induction false} ConvertedHasNoTimes(n: Node, m: Node)
    requires Converted(n, m)
    ensures NoTimes(m)
    decreases n
  {
    forall i | 0 <= i < |m.post| ensures NoTimes(m.post[i]) {
      ConvertedHasNoTimes(n.post[i], m.post[i]);
    }
  }

  /** As written, a Delay keeps its plan children and gains the converted
      ones, so a Delay with k children comes out with 2k. */
  lemma AsWrittenDelayDoubles(n: Node)
    requires n.kind.Delay? && PlanToScheduleAsWritten(n).Ok?
    ensures PlanToScheduleAsWritten(n).value.post[..|n.post|] == n.post
    ensures |PlanToScheduleAsWritten(n).value.post| == 2 * |n.post|
  {
  }

  /** A delay with one protocol child: as written it yields two children, one
      of them still a plan Protocol; the corrected conversion yields one. */
  lemma DelayReuseCounterexample()
    ensures var n := Node(Delay(5, START, 0), [Node(Protocol("P3", 0), [])]);
      && |PlanToScheduleAsWritten(n).value.post| == 2
      && PlanToScheduleAsWritten(n).value.post[0].kind.Protocol?
      && PlanToSchedule(n) == Ok(Node(Delay(5, START, 0), [Node(StartedProtocol("P3", 0, None, None, None), [])]))
  {
    var c := Node(Protocol("P3", 0), []);
    var n := Node(Delay(5, START, 0), [c]);
    var sc := Node(StartedProtocol("P3", 0, None, None, None), []);
    assert PlanToScheduleAllBy(ReuseInput, c.post) == Ok([]);
    assert PlanToScheduleBy(ReuseInput, c) == Ok(sc);
    assert [c][1..] == [] && [c][0] == c;
    assert PlanToScheduleAllBy(ReuseInput, [c][1..]) == Ok([]);
    assert [sc] + [] == [sc];
    assert PlanToScheduleAllBy(ReuseInput, [c]) == Ok([sc]);
    assert PlanToScheduleAllBy(FreshDelay, c.post) == Ok([]);
    assert PlanToScheduleBy(FreshDelay, c) == Ok(sc);
    assert PlanToScheduleAllBy(FreshDelay, [c]) == Ok([sc]);
  }

  // ---------------------------------------------------------------------
  // Mutable links

  /** Python's default recursion limit, which bounds how far `top` can climb. */
  const RecursionLimit: nat := 1000

  /** A node object with its `pre_node` and `post_node` links. */
  class GraphNode {
    const kind: Kind
    var preNode: GraphNode?
    var postNode: seq<GraphNode>

    /** Construction runs `__post_init__`: every given child's `pre_node`
        becomes the new node; nothing else changes. */
    constructor(kind: Kind, children: seq<GraphNode>)
      modifies set c | c in children
      ensures this.kind == kind && preNode == null && postNode == children
      ensures forall c | c in children :: c.preNode == this
      ensures forall c | c in children :: c.postNode == old(c.postNode)
    {
      this.kind := kind;
      preNode := null;
      postNode := children;
      new;
      var i := 0;
      while i < |children|
        invariant 0 <= i <= |children|
        invariant preNode == null && postNode == children
        invariant forall k | 0 <= k < i :: children[k].preNode == this
        invariant forall c | c in children :: c.postNode == old(c.postNode)
      {
        children[i].preNode := this;
        i := i + 1;
      }
    }

    /** `add`: append the child and point its `pre_node` here. A previous
        parent is not told, so it still lists the child. */
    method Add(other: GraphNode)
      modifies this, other
      ensures postNode == old(postNode) + [other]
      ensures other.preNode == this
      ensures other != this ==> other.postNode == old(other.postNode) && preNode == old(preNode)
      ensures var p := old(other.preNode); p != null && p != this ==> p.postNode == old(p.postNode)
    {
      postNode := postNode + [other];
      other.preNode := this;
    }

    /** The node reached from `n` by following `pre_node` `k` times, if the
        chain is that long. */
    static ghost function Up(n: GraphNode, k: nat): GraphNode?
      reads *
      decreases k
    {
      if k == 0 then n
      else if n.preNode == null then null
      else Up(n.preNode, k - 1)
    }

    /** `top`: follow `pre_node` to a node without one. A chain longer than
        the recursion limit, a cycle for instance, ends in `RecursionError`. */
    method Top() returns (r: Result<GraphNode>)
      ensures r.Ok? ==> r.value.preNode == null && exists k | 0 <= k < RecursionLimit :: Up(this, k) == r.value
      ensures r.Err? ==> r.error == RecursionError &&
                         forall k | 0 <= k < RecursionLimit :: Up(this, k) != null && Up(this, k).preNode != null
    {
      var cur: GraphNode := this;
      var depth := 0;
      while depth < RecursionLimit
        invariant 0 <= depth <= RecursionLimit
        invariant Up(this, depth) == cur
        invariant forall k | 0 <= k < depth :: Up(this, k) != null && Up(this, k).preNode != null
      {
        if cur.preNode == null {
          return Ok(cur);
        }
        UpStep(this, depth);
        cur := cur.preNode;
        depth := depth + 1;
      }
      return Err(RecursionError);
    }

    static lemma UpStep(n: GraphNode, k: nat)
      requires Up(n, k) != null && Up(n, k).preNode != null
      ensures Up(n, k + 1) == Up(n, k).preNode
      decreases k
    {
      if k > 0 {
        UpStep(n.preNode, k - 1);
      }
    }

    /** `self > others`: add each in order, then return `top`. A single node
        is the one-element list. */
    method Gt(others: seq<GraphNode>) returns (r: Result<GraphNode>)
      modifies this, set o | o in others
      ensures postNode == old(postNode) + others
      ensures forall o | o in others :: o.preNode == this
      ensures this !in others ==> preNode == old(preNode)
      ensures forall o | o in others && o != this :: o.postNode == old(o.postNode)
      ensures r.Ok? ==> r.value.preNode == null && exists k | 0 <= k < RecursionLimit :: Up(this, k) == r.value
      ensures r.Err? ==> r.error == RecursionError
    {
      var i := 0;
      while i < |others|
        invariant 0 <= i <= |others|
        invariant postNode == old(postNode) + others[..i]
        invariant forall k | 0 <= k < i :: others[k].preNode == this
        invariant this !in others ==> preNode == old(preNode)
        invariant forall o | o in others && o != this :: o.postNode == old(o.postNode)
      {
        Add(others[i]);
        i := i + 1;
      }
      assert others[..|others|] == others;
      r := Top();
    }
  }
}

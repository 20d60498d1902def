/** The constraint model of `src/optimizer.py`: the protocol tree converted to
    whole-second optimisation nodes, the horizon and time origin, and the
    constraints the CP-SAT model is given, stated as a predicate a candidate
    assignment must satisfy. The search itself is a parameter: the solver's
    answer is passed in and checked. */
module Optimizer {
  import opened Common
  import PlanTree

  /** A protocol-tree node as `src/executor.py` and `optimize_schedule` use it:
      every node has an id, and protocols carry their recorded start, finish
      and scheduled times. */
  datatype PNode =
    | PStart(id: Uuid, post: seq<PNode>)
    | PProtocol(id: Uuid, name: string, duration: int, startedTime: Option<Time>,
                finishedTime: Option<Time>, scheduledTime: Option<Time>, post: seq<PNode>)
    | PDelay(id: Uuid, duration: int, fromType: PlanTree.FromType, offset: int, post: seq<PNode>)

  /** An optimisation node: times are seconds after the origin. */
  datatype OptNode =
    | OStart(id: Uuid, post: seq<OptNode>)
    | ODelay(id: Uuid, duration: int, fromType: PlanTree.FromType, offset: int, post: seq<OptNode>)
    | OProtocol(id: Uuid, name: string, duration: int, startedTime: Option<int>,
                finishedTime: Option<int>, post: seq<OptNode>)

  // ---------------------------------------------------------------------
  // Preorder flattening of both trees

  function PFlatten(n: PNode): (r: seq<PNode>)
    ensures |r| >= 1 && r[0] == n
    decreases n, 1
  {
    [n] + PFlattenAll(n.post)
  }

  function PFlattenAll(ns: seq<PNode>): seq<PNode>
    decreases ns, 0
  {
    if ns == [] then [] else PFlatten(ns[0]) + PFlattenAll(ns[1..])
  }

  /** `Node.flatten` of the optimisation tree. */
  function OFlatten(n: OptNode): (r: seq<OptNode>)
    ensures |r| >= 1 && r[0] == n
    decreases n, 1
  {
    [n] + OFlattenAll(n.post)
  }

  function OFlattenAll(ns: seq<OptNode>): seq<OptNode>
    decreases ns, 0
  {
    if ns == [] then [] else OFlatten(ns[0]) + OFlattenAll(ns[1..])
  }

  /** A node of the flattening other than the root lies in some child's
      flattening, and every child's flattening is part of the parent's. */
  lemma {:induction false} OFlattenShape(x: OptNode)
    ensures forall i | 0 <= i < |x.post| :: forall z | z in OFlatten(x.post[i]) :: z in OFlatten(x)
    ensures forall q | q in OFlatten(x) :: q == x || exists i | 0 <= i < |x.post| :: q in OFlatten(x.post[i])
  {
    OFlattenAllShape(x.post);
  }

  lemma {:induction false} OFlattenAllShape(ns: seq<OptNode>)
    ensures forall i | 0 <= i < |ns| :: forall z | z in OFlatten(ns[i]) :: z in OFlattenAll(ns)
    ensures forall q | q in OFlattenAll(ns) :: exists i | 0 <= i < |ns| :: q in OFlatten(ns[i])
    decreases ns
  {
    if ns != [] {
      OFlattenAllShape(ns[1..]);
      forall q | q in OFlattenAll(ns) ensures exists i | 0 <= i < |ns| :: q in OFlatten(ns[i]) {
        assert OFlattenAll(ns) == OFlatten(ns[0]) + OFlattenAll(ns[1..]);
        if q !in OFlatten(ns[0]) {
          assert q in OFlattenAll(ns[1..]);
          var j :| 0 <= j < |ns[1..]| && q in OFlatten(ns[1..][j]);
          assert ns[j + 1] == ns[1..][j];
        }
      }
      forall i | 0 <= i < |ns| ensures forall z | z in OFlatten(ns[i]) :: z in OFlattenAll(ns) {
        if i > 0 {
          assert ns[i] == ns[1..][i - 1];
        }
      }
    }
  }

  /** Flattening is closed under descent: the subtree of a node in the
      flattening lies inside it. */
  lemma {:induction false} OFlattenTransitive(x: OptNode, y: OptNode)
    requires y in OFlatten(x)
    ensures forall z | z in OFlatten(y) :: z in OFlatten(x)
    decreases x
  {
    OFlattenShape(x);
    if y != x {
      var i :| 0 <= i < |x.post| && y in OFlatten(x.post[i]);
      OFlattenTransitive(x.post[i], y);
    }
  }

  // ---------------------------------------------------------------------
  // Time origin, conversions and horizon

  /** `TimeSecondsConverter.time_to_seconds`. */
  function TimeToSeconds(origin: Time, t: Time): (r: int)
    ensures SecondsToTime(origin, r) == t
    ensures r == 0 <==> t == origin
  {
    t - origin
  }

  /** `TimeSecondsConverter.seconds_to_time`. */
  function SecondsToTime(origin: Time, s: int): Time {
    origin + s
  }

  /** The converter is a bijection that maps the origin to zero. */
  lemma ConverterRoundTrip(origin: Time, t: Time, s: int)
    ensures SecondsToTime(origin, TimeToSeconds(origin, t)) == t
    ensures TimeToSeconds(origin, SecondsToTime(origin, s)) == s
    ensures TimeToSeconds(origin, origin) == 0
  {
  }

  /** Earliest recorded start among the protocols, if any. */
  function MinStarted(nodes: seq<PNode>): (r: Option<Time>)
    ensures r.None? <==> forall i | 0 <= i < |nodes| :: !(nodes[i].PProtocol? && nodes[i].startedTime.Some?)
    ensures r.Some? ==> exists i | 0 <= i < |nodes| :: nodes[i].PProtocol? && nodes[i].startedTime == r
    ensures r.Some? ==> forall i | 0 <= i < |nodes| && nodes[i].PProtocol? && nodes[i].startedTime.Some? ::
                          r.value <= nodes[i].startedTime.value
  {
    if nodes == [] then None
    else
      var rest := MinStarted(nodes[1..]);
      assert forall i | 1 <= i < |nodes| :: nodes[i] == nodes[1..][i - 1];
      if nodes[0].PProtocol? && nodes[0].startedTime.Some? then
        if rest.Some? && rest.value < nodes[0].startedTime.value then rest else nodes[0].startedTime
      else rest
  }

  /** `get_oldest_time`: the earliest recorded start, with `now` when no
      protocol has started, and also when that earliest start is the epoch
      itself (the code tests the minimum against its default 0). */
  function OldestTime(nodes: seq<PNode>, now: Time): (r: Time)
    ensures MinStarted(nodes).None? ==> r == now
    ensures MinStarted(nodes).Some? && MinStarted(nodes).value != 0 ==>
      && (exists i | 0 <= i < |nodes| :: nodes[i].PProtocol? && nodes[i].startedTime == Some(r))
      && (forall i | 0 <= i < |nodes| && nodes[i].PProtocol? && nodes[i].startedTime.Some? ::
            r <= nodes[i].startedTime.value)
    ensures MinStarted(nodes) == Some(0) ==> r == now
  {
    var m := MinStarted(nodes);
    if m.None? || m.value == 0 then now else m.value
  }

  function DurationOf(n: PNode): int {
    match n
    case PStart(_, _) => 0
    case PProtocol(_, _, d, _, _, _, _) => d
    case PDelay(_, d, _, _, _) => d
  }

  /** `sum_durations`: Protocol and Delay durations; Start adds nothing. */
  function SumDurations(nodes: seq<PNode>): (r: int)
    ensures (forall i | 0 <= i < |nodes| :: DurationOf(nodes[i]) >= 0) ==> r >= 0
  {
    if nodes == [] then 0 else DurationOf(nodes[0]) + SumDurations(nodes[1..])
  }

  lemma {:induction false} SumDurationsAppend(a: seq<PNode>, b: seq<PNode>)
    ensures SumDurations(a + b) == SumDurations(a) + SumDurations(b)
  {
    if a == [] {
      assert a + b == b;
    } else {
      SumDurationsAppend(a[1..], b);
      assert (a + b)[0] == a[0];
      assert (a + b)[1..] == a[1..] + b;
    }
  }

  /** With non-negative durations the horizon covers every single protocol
      and delay: no node's duration exceeds it. */
  lemma {:induction false} HorizonCoversEachDuration(nodes: seq<PNode>, i: nat)
    requires i < |nodes|
    requires forall k | 0 <= k < |nodes| :: DurationOf(nodes[k]) >= 0
    ensures DurationOf(nodes[i]) <= SumDurations(nodes)
    ensures SumDurations(nodes) >= 0
  {
    if i > 0 {
      HorizonCoversEachDuration(nodes[1..], i - 1);
    } else if |nodes| > 1 {
      HorizonCoversEachDuration(nodes[1..], 0);
    }
  }

  // ---------------------------------------------------------------------
  // Conversion

  function Shift(t: Option<Time>, origin: Time): Option<int> {
    if t.Some? then Some(TimeToSeconds(origin, t.value)) else None
  }

  /** The trees `protocol_to_opt` accepts: no Start below the root, and only
      protocols below a Delay. */
  predicate Convertible(p: PNode) {
    forall i | 0 <= i < |p.post| ::
      && !p.post[i].PStart?
      && (p.PDelay? ==> p.post[i].PProtocol?)
      && Convertible(p.post[i])
  }

  /** `o` is `p` converted: same kind, id, name, duration, from_type and
      offset, recorded times shifted to the origin when present, children in
      the same order. */
  predicate Corresponds(p: PNode, o: OptNode, origin: Time) {
    && |o.post| == |p.post|
    && (match p
        case PStart(id, _) => o == OStart(id, o.post)
        case PProtocol(id, name, d, st, fin, _, _) =>
          o == OProtocol(id, name, d, Shift(st, origin), Shift(fin, origin), o.post)
        case PDelay(id, d, f, off, _) => o == ODelay(id, d, f, off, o.post))
    && forall i | 0 <= i < |p.post| :: Corresponds(p.post[i], o.post[i], origin)
  }

  /** `protocol_to_opt`: children first, each of which must be a Protocol or
      Delay; a Delay's converted children must all be protocols. */
  function ToOpt(p: PNode, origin: Time): (r: Result<OptNode>)
    ensures r.Ok? <==> Convertible(p)
    ensures r.Ok? ==> Corresponds(p, r.value, origin)
    ensures r.Err? ==> r.error.ValueError?
    decreases p, 1
  {
    var kids :- ToOptAll(p.post, origin);
    match p
    case PStart(id, _) => Ok(OStart(id, kids))
    case PProtocol(id, name, d, st, fin, _, _) =>
      Ok(OProtocol(id, name, d, Shift(st, origin), Shift(fin, origin), kids))
    case PDelay(id, d, f, off, _) =>
      if forall i | 0 <= i < |kids| :: kids[i].OProtocol? then Ok(ODelay(id, d, f, off, kids))
      else Err(ValueError("Protocol expected as post_node"))
  }

  function ToOptAll(ps: seq<PNode>, origin: Time): (r: Result<seq<OptNode>>)
    ensures r.Ok? <==> forall i | 0 <= i < |ps| :: !ps[i].PStart? && Convertible(ps[i])
    ensures r.Ok? ==> |r.value| == |ps| && forall i | 0 <= i < |ps| :: Corresponds(ps[i], r.value[i], origin)
    ensures r.Err? ==> r.error.ValueError?
    decreases ps, 0
  {
    if ps == [] then Ok([])
    else if ps[0].PStart? then Err(ValueError("Protocol or Delay expected as post_node"))
    else
      var h :- ToOpt(ps[0], origin);
      var t :- ToOptAll(ps[1..], origin);
      assert forall i | 1 <= i < |ps| :: ps[i] == ps[1..][i - 1];
      Ok([h] + t)
  }

  // ---------------------------------------------------------------------
  // Constraints

  /** A candidate answer: start and finish per protocol id, loss per delay
      id, and the makespan. */
  datatype Solution = Solution(start: map<Uuid, int>, finish: map<Uuid, int>, loss: map<Uuid, int>, makespan: int)

  /** A protocol gets an interval unless both its start and finish were
      recorded. */
  predicate HasInterval(n: OptNode)
    requires n.OProtocol?
  {
    !(n.startedTime.Some? && n.finishedTime.Some?)
  }

  /** `Protocol.set_vars`: start and finish within `[0, horizon]`; a recorded
      start pins the start; a recorded start and finish also pin the finish;
      otherwise the interval forces `finish == start + duration`. */
  predicate ProtocolVarsOk(n: OptNode, s: Solution, horizon: int)
    requires n.OProtocol?
  {
    && n.id in s.start && n.id in s.finish
    && 0 <= s.start[n.id] <= horizon && 0 <= s.finish[n.id] <= horizon
    && (n.startedTime.Some? ==> s.start[n.id] == n.startedTime.value)
    && (n.startedTime.Some? && n.finishedTime.Some? ==> s.finish[n.id] == n.finishedTime.value)
    && (HasInterval(n) ==> s.finish[n.id] == s.start[n.id] + n.duration)
  }

  /** Every constraint `optimize_schedule` posts, with `Delay.set_loss` taking
      its default `max_duration_times` of 2. */
  predicate Feasible(root: OptNode, s: Solution, horizon: int) {
    var nodes := OFlatten(root);
    && 0 <= s.makespan <= horizon
    && (forall n <- nodes | n.OProtocol? :: ProtocolVarsOk(n, s, horizon) && s.makespan >= s.finish[n.id])
    // AddNoOverlap over the intervals
    && (forall n <- nodes, m <- nodes | n.OProtocol? && m.OProtocol? && HasInterval(n) && HasInterval(m) && n.id != m.id ::
          n.id in s.start && m.id in s.start && n.id in s.finish && m.id in s.finish &&
          (s.finish[n.id] <= s.start[m.id] || s.finish[m.id] <= s.start[n.id]))
    // Protocol -> Protocol order
    && (forall n <- nodes, c <- n.post | n.OProtocol? && c.OProtocol? ::
          n.id in s.finish && c.id in s.start && s.finish[n.id] <= s.start[c.id])
    // loss domain of every delay
    && (forall d <- nodes | d.ODelay? :: d.id in s.loss && 0 <= s.loss[d.id] <= d.duration * 2)
    // Protocol -> Delay -> Protocol window
    && (forall p <- nodes, d <- p.post, c <- d.post | p.OProtocol? && d.ODelay? && c.OProtocol? ::
          d.id in s.loss && p.id in s.finish && c.id in s.start &&
          s.loss[d.id] == (s.start[c.id] - s.finish[p.id]) - (d.duration + d.offset))
  }

  /** Between a protocol and a protocol after a delay, the gap from the
      parent's finish lies in `[duration + offset, 3 * duration + offset]`,
      whatever the delay's from_type. */
  lemma DelayWindow(root: OptNode, s: Solution, horizon: int, p: OptNode, i: nat, j: nat)
    requires Feasible(root, s, horizon)
    requires p in OFlatten(root) && p.OProtocol? && i < |p.post| && p.post[i].ODelay?
    requires j < |p.post[i].post| && p.post[i].post[j].OProtocol?
    ensures var d := p.post[i]; var c := d.post[j];
      d.duration + d.offset <= s.start[c.id] - s.finish[p.id] <= d.duration * 3 + d.offset
  {
    var d := p.post[i];
    OFlattenShape(root);
    OFlattenTransitive(root, p);
    OFlattenShape(p);
    assert d in OFlatten(d);
    assert d in OFlatten(root);
    assert p.post[i] in p.post && d.post[j] in d.post;
  }

  /** The recorded data the precedence guarantee needs: non-negative
      durations, delays that do not pull a successor before its parent's
      finish, and recorded finishes no earlier than recorded starts. */
  predicate Sane(n: OptNode) {
    match n
    case OStart(_, _) => true
    case ODelay(_, d, _, off, _) => d >= 0 && d + off >= 0
    case OProtocol(_, _, d, st, fin, _) =>
      d >= 0 && (st.Some? && fin.Some? ==> st.value <= fin.value)
  }

  /** The shape `protocol_to_opt` produces: no Start below the root, only
      protocols below a Delay. */
  predicate ConvertedShape(n: OptNode) {
    forall c | c in n.post :: !c.OStart? && (n.ODelay? ==> c.OProtocol?)
  }

  /** What a feasible answer says around one node. */
  predicate LocalOrder(n: OptNode, s: Solution) {
    && ConvertedShape(n)
    && (n.OProtocol? ==>
          && n.id in s.start && n.id in s.finish && s.start[n.id] <= s.finish[n.id]
          && (forall c | c in n.post && c.OProtocol? :: c.id in s.start && s.finish[n.id] <= s.start[c.id])
          && (forall c, g | c in n.post && c.ODelay? && g in c.post && g.OProtocol? ::
                g.id in s.start && s.finish[n.id] <= s.start[g.id]))
  }

  lemma LocalOrderFromFeasible(root: OptNode, s: Solution, horizon: int, n: OptNode)
    requires Feasible(root, s, horizon)
    requires forall m | m in OFlatten(root) :: Sane(m) && ConvertedShape(m)
    requires n in OFlatten(root)
    ensures LocalOrder(n, s)
  {
    if n.OProtocol? {
      assert ProtocolVarsOk(n, s, horizon);
      OFlattenTransitive(root, n);
      OFlattenShape(n);
      forall c, g | c in n.post && c.ODelay? && g in c.post && g.OProtocol?
        ensures g.id in s.start && s.finish[n.id] <= s.start[g.id]
      {
        var i :| 0 <= i < |n.post| && n.post[i] == c;
        assert c in OFlatten(c);
        assert c in OFlatten(root);
        assert Sane(c);
        assert 0 <= s.loss[c.id];
      }
    }
  }

  /** Everything below a protocol starts no earlier than a bound that
      protocol starts after. */
  lemma {:induction false} SubtreeStartsAfter(x: OptNode, s: Solution, bound: int)
    requires forall m | m in OFlatten(x) :: LocalOrder(m, s)
    requires x.OProtocol? && x.id in s.start && bound <= s.start[x.id]
    ensures forall q | q in OFlatten(x) && q.OProtocol? :: q.id in s.start && bound <= s.start[q.id]
    decreases x
  {
    OFlattenShape(x);
    assert x in OFlatten(x);
    assert LocalOrder(x, s);
    forall q | q in OFlatten(x) && q.OProtocol? ensures q.id in s.start && bound <= s.start[q.id] {
      if q != x {
        var i :| 0 <= i < |x.post| && q in OFlatten(x.post[i]);
        var c := x.post[i];
        assert c in x.post;
        if c.OProtocol? {
          SubtreeStartsAfter(c, s, bound);
        } else {
          OFlattenShape(c);
          assert c in OFlatten(c);
          assert LocalOrder(c, s);
          assert c.ODelay?;
          if q != c {
            var j :| 0 <= j < |c.post| && q in OFlatten(c.post[j]);
            var g := c.post[j];
            assert g in c.post;
            forall m | m in OFlatten(g) ensures LocalOrder(m, s) {
              assert m in OFlatten(c);
            }
            SubtreeStartsAfter(g, s, bound);
          }
        }
      }
    }
  }

  /** Precedence along the tree: in a feasible answer over sane data of the
      converted shape, every protocol below a protocol, directly or through
      delays, starts no earlier than that protocol finishes. */
  lemma Precedence(root: OptNode, s: Solution, horizon: int, p: OptNode, q: OptNode)
    requires Feasible(root, s, horizon)
    requires forall n | n in OFlatten(root) :: Sane(n) && ConvertedShape(n)
    requires p in OFlatten(root) && p.OProtocol?
    requires q in OFlatten(p) && q != p && q.OProtocol?
    ensures p.id in s.finish && q.id in s.start && s.finish[p.id] <= s.start[q.id]
  {
    OFlattenTransitive(root, p);
    forall m | m in OFlatten(p) ensures LocalOrder(m, s) {
      LocalOrderFromFeasible(root, s, horizon, m);
    }
    OFlattenShape(p);
    assert p in OFlatten(p);
    assert LocalOrder(p, s);
    var i :| 0 <= i < |p.post| && q in OFlatten(p.post[i]);
    var c := p.post[i];
    assert c in p.post;
    if c.OProtocol? {
      SubtreeStartsAfter(c, s, s.finish[p.id]);
    } else {
      OFlattenShape(c);
      assert c.ODelay?;
      if q != c {
        var j :| 0 <= j < |c.post| && q in OFlatten(c.post[j]);
        var g := c.post[j];
        assert g in c.post;
        assert c in OFlatten(c);
        assert LocalOrder(c, s);
        forall m | m in OFlatten(g) ensures LocalOrder(m, s) {
          assert m in OFlatten(c);
        }
        SubtreeStartsAfter(g, s, s.finish[p.id]);
      }
    }
  }

  // ---------------------------------------------------------------------
  // optimize_schedule

  /** The result of a successful optimisation: the time origin and the
      accepted answer. */
  datatype Plan = Plan(origin: Time, solution: Solution)

  /** `optimize_schedule` with the solver's answer as a parameter (`None` for
      any status other than OPTIMAL): horizon and origin from the tree, the
      conversion, then the answer must meet every constraint. */
  function OptimizeSchedule(start: PNode, now: Time, answer: Option<Solution>): (r: Result<Plan>)
    ensures r.Ok? ==>
      && Convertible(start) && answer == Some(r.value.solution)
      && r.value.origin == OldestTime(PFlatten(start), now)
      && Feasible(ToOpt(start, r.value.origin).value, r.value.solution, SumDurations(PFlatten(start)))
    ensures !Convertible(start) ==> r.Err? && r.error.ValueError?
    ensures answer.None? ==> r.Err?
    ensures r.Err? ==> r.error.ValueError?
    ensures var origin := OldestTime(PFlatten(start), now);
      Convertible(start) && answer.Some? && Feasible(ToOpt(start, origin).value, answer.value, SumDurations(PFlatten(start)))
      ==> r == Ok(Plan(origin, answer.value))
  {
    var nodes := PFlatten(start);
    var horizon := SumDurations(nodes);
    var origin := OldestTime(nodes, now);
    var opt :- ToOpt(start, origin);
    if answer.None? || !Feasible(opt, answer.value, horizon) then Err(ValueError("No optimal schedule found."))
    else Ok(Plan(origin, answer.value))
  }

  /** Writing the answer back: each protocol whose id has a start gets
      `scheduled_time = origin + start`. */
  function ApplyPlan(n: PNode, plan: Plan): (r: PNode)
    ensures r.id == n.id && |r.post| == |n.post|
    decreases n, 1
  {
    var kids := ApplyPlanAll(n.post, plan);
    match n
    case PStart(id, _) => PStart(id, kids)
    case PDelay(id, d, f, off, _) => PDelay(id, d, f, off, kids)
    case PProtocol(id, name, d, st, fin, sch, _) =>
      var sched := if id in plan.solution.start
                   then Some(SecondsToTime(plan.origin, plan.solution.start[id])) else sch;
      PProtocol(id, name, d, st, fin, sched, kids)
  }

  function ApplyPlanAll(ns: seq<PNode>, plan: Plan): (r: seq<PNode>)
    ensures |r| == |ns|
    decreases ns, 0
  {
    if ns == [] then [] else [ApplyPlan(ns[0], plan)] + ApplyPlanAll(ns[1..], plan)
  }

  /** Writing back touches only scheduled times: kinds, ids, names,
      durations and recorded times stay, and a protocol the answer covers is
      scheduled at its start after the origin. */
  lemma {:induction false} ApplyPlanKeeps(n: PNode, plan: Plan)
    ensures var r := ApplyPlan(n, plan);
      && r.PStart? == n.PStart? && r.PDelay? == n.PDelay? && r.PProtocol? == n.PProtocol?
      && (n.PDelay? ==> r == n.(post := r.post))
      && (n.PProtocol? ==> r.(scheduledTime := n.scheduledTime, post := n.post) == n)
      && (n.PProtocol? && n.id in plan.solution.start ==>
            r.scheduledTime == Some(plan.origin + plan.solution.start[n.id]))
  {
  }
}

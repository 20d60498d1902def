/** The optimiser-driven executor of `src/executor.py`: registered plans are
    merged under one Start, re-planned, the queue is emptied, and the earliest
    protocol that has not started is queued. Running a task stamps the
    protocol's start before the driver call and its finish after it. */
module Executor {
  import opened Common
  import opened AwaitList
  import opened Optimizer

  /** The sort key `scheduled_time or datetime.max`. */
  datatype Key = At(t: Time) | Latest

  function KeyOf(n: PNode): Key
    requires n.PProtocol?
  {
    if n.scheduledTime.Some? then At(n.scheduledTime.value) else Latest
  }

  predicate KeyLess(a: Key, b: Key) {
    a.At? && (b.Latest? || a.t < b.t)
  }

  /** A protocol node (exact type) that has not started. */
  predicate Candidate(n: PNode) {
    n.PProtocol? && n.startedTime.None?
  }

  /** `min(protocols, key=...)` over the candidates of `nodes`: the first
      candidate whose key no candidate beats; `ValueError` when there is no
      candidate at all. */
  function NextProtocol(nodes: seq<PNode>): (r: Result<nat>)
    ensures r.Err? <==> forall i | 0 <= i < |nodes| :: !Candidate(nodes[i])
    ensures r.Err? ==> r.error.ValueError?
    ensures r.Ok? ==> r.value < |nodes| && Candidate(nodes[r.value])
    ensures r.Ok? ==> forall i | 0 <= i < |nodes| && Candidate(nodes[i]) :: !KeyLess(KeyOf(nodes[i]), KeyOf(nodes[r.value]))
    ensures r.Ok? ==> forall i | 0 <= i < r.value && Candidate(nodes[i]) :: KeyLess(KeyOf(nodes[r.value]), KeyOf(nodes[i]))
  {
    if nodes == [] then Err(ValueError("min() iterable argument is empty"))
    else
      var rest := NextProtocol(nodes[1..]);
      assert forall i | 1 <= i < |nodes| :: nodes[i] == nodes[1..][i - 1];
      if !Candidate(nodes[0]) then
        if rest.Ok? then Ok(rest.value + 1) else rest
      else if rest.Ok? && KeyLess(KeyOf(nodes[rest.value + 1]), KeyOf(nodes[0])) then Ok(rest.value + 1)
      else Ok(0)
  }

  /** A protocol whose start is recorded is never chosen again, even when
      its finish was never recorded. */
  lemma StartedNeverChosen(nodes: seq<PNode>, id: Uuid)
    requires forall i | 0 <= i < |nodes| && nodes[i].PProtocol? && nodes[i].id == id :: nodes[i].startedTime.Some?
    requires NextProtocol(nodes).Ok?
    ensures nodes[NextProtocol(nodes).value].id != id
  {
  }

  /** The children of every registered plan, in registration order: what
      `marged_protocol > starts.post_node` gathers. */
  function Children(ps: seq<PNode>): seq<PNode> {
    if ps == [] then [] else ps[0].post + Children(ps[1..])
  }

  /** `sum([p.flatten() for p in self.protocols], [])`. */
  function AllNodes(ps: seq<PNode>): seq<PNode> {
    if ps == [] then [] else PFlatten(ps[0]) + AllNodes(ps[1..])
  }

  /** The answer written back below each plan's root. */
  function ApplyBelow(ps: seq<PNode>, plan: Plan): (r: seq<PNode>)
    ensures |r| == |ps|
    ensures forall i | 0 <= i < |ps| :: r[i].id == ps[i].id
  {
    if ps == [] then [] else [ps[0].(post := ApplyPlanAll(ps[0].post, plan))] + ApplyBelow(ps[1..], plan)
  }

  lemma {:induction false} ApplyPlanAllAppend(a: seq<PNode>, b: seq<PNode>, plan: Plan)
    ensures ApplyPlanAll(a + b, plan) == ApplyPlanAll(a, plan) + ApplyPlanAll(b, plan)
  {
    if a == [] {
      assert a + b == b;
    } else {
      ApplyPlanAllAppend(a[1..], b, plan);
      assert (a + b)[0] == a[0];
      assert (a + b)[1..] == a[1..] + b;
    }
  }

  /** The merged tree and the registered plans share their nodes: writing
      the answer into the merged tree is writing it below every plan's root. */
  lemma {:induction false} MergedSharesNodes(ps: seq<PNode>, plan: Plan)
    ensures ApplyPlanAll(Children(ps), plan) == Children(ApplyBelow(ps, plan))
  {
    if ps != [] {
      MergedSharesNodes(ps[1..], plan);
      ApplyPlanAllAppend(ps[0].post, Children(ps[1..]), plan);
    }
  }

  /** Which time `process_task` records. */
  datatype Stamp = Started(at: Time) | Finished(at: Time)

  /** Record the time on the protocols carrying `id`. */
  function StampNode(n: PNode, id: Uuid, st: Stamp): (r: PNode)
    ensures r.id == n.id
    decreases n, 1
  {
    var kids := StampAll(n.post, id, st);
    match n
    case PStart(i, _) => PStart(i, kids)
    case PDelay(i, d, f, o, _) => PDelay(i, d, f, o, kids)
    case PProtocol(i, name, d, s, fin, sch, _) =>
      if i != id then PProtocol(i, name, d, s, fin, sch, kids)
      else match st
        case Started(t) => PProtocol(i, name, d, Some(t), fin, sch, kids)
        case Finished(t) => PProtocol(i, name, d, s, Some(t), sch, kids)
  }

  function StampAll(ns: seq<PNode>, id: Uuid, st: Stamp): (r: seq<PNode>)
    ensures |r| == |ns|
    decreases ns, 0
  {
    if ns == [] then [] else [StampNode(ns[0], id, st)] + StampAll(ns[1..], id, st)
  }

  /** After a start is recorded, every protocol node with that id carries it. */
  lemma {:induction false} StampedStartEverywhere(n: PNode, id: Uuid, t: Time)
    ensures forall x | x in PFlatten(StampNode(n, id, Started(t))) && x.PProtocol? && x.id == id ::
      x.startedTime == Some(t)
    decreases n, 1
  {
    StampedStartEverywhereAll(n.post, id, t);
  }

  lemma {:induction false} StampedStartEverywhereAll(ns: seq<PNode>, id: Uuid, t: Time)
    ensures forall x | x in PFlattenAll(StampAll(ns, id, Started(t))) && x.PProtocol? && x.id == id ::
      x.startedTime == Some(t)
    decreases ns, 0
  {
    if ns != [] {
      StampedStartEverywhere(ns[0], id, t);
      StampedStartEverywhereAll(ns[1..], id, t);
      assert StampAll(ns, id, Started(t))[1..] == StampAll(ns[1..], id, Started(t));
    }
  }

  /** Recording a finish keeps every recorded start. */
  lemma {:induction false} FinishKeepsStart(n: PNode, id: Uuid, t: Time)
    ensures var r := StampNode(n, id, Finished(t));
      r.PProtocol? == n.PProtocol? && (n.PProtocol? ==> r.startedTime == n.startedTime)
      && (n.PProtocol? && n.id == id ==> r.finishedTime == Some(t))
  {
  }

  /** Recording the start and then the finish leaves both on every
      protocol node with that id, so a clock that does not run backwards
      gives `started_time <= finished_time`. */
  lemma {:induction false} StampedInOrder(n: PNode, id: Uuid, t1: Time, t2: Time)
    ensures forall x | x in PFlatten(StampNode(StampNode(n, id, Started(t1)), id, Finished(t2))) && x.PProtocol? && x.id == id ::
      x.startedTime == Some(t1) && x.finishedTime == Some(t2)
    decreases n, 1
  {
    StampedInOrderAll(n.post, id, t1, t2);
  }

  lemma {:induction false} StampedInOrderAll(ns: seq<PNode>, id: Uuid, t1: Time, t2: Time)
    ensures forall x | x in PFlattenAll(StampAll(StampAll(ns, id, Started(t1)), id, Finished(t2))) && x.PProtocol? && x.id == id ::
      x.startedTime == Some(t1) && x.finishedTime == Some(t2)
    decreases ns, 0
  {
    if ns != [] {
      var once := StampAll(ns, id, Started(t1));
      StampedInOrder(ns[0], id, t1, t2);
      StampedInOrderAll(ns[1..], id, t1, t2);
      assert once[1..] == StampAll(ns[1..], id, Started(t1));
      assert StampAll(once, id, Finished(t2))[1..] == StampAll(once[1..], id, Finished(t2));
    }
  }

  /** Index of the first protocol node carrying the id. */
  function FirstWithId(nodes: seq<PNode>, id: Uuid): (r: Option<nat>)
    ensures r.Some? ==> r.value < |nodes| && nodes[r.value].PProtocol? && nodes[r.value].id == id
    ensures r.Some? ==> forall k | 0 <= k < r.value :: !(nodes[k].PProtocol? && nodes[k].id == id)
    ensures r.None? ==> forall k | 0 <= k < |nodes| :: !(nodes[k].PProtocol? && nodes[k].id == id)
  {
    if nodes == [] then None
    else if nodes[0].PProtocol? && nodes[0].id == id then Some(0)
    else
      match FirstWithId(nodes[1..], id)
      case None => None
      case Some(i) => Some(i + 1)
  }

  /** The queue after the cancel loop as written: deleting from the list the
      loop iterates skips every other task, so the tasks at odd positions
      survive. */
  function OddIndexed(s: seq<ATask>): (r: seq<ATask>)
    ensures |r| == |s| / 2
  {
    seq(|s| / 2, k requires 0 <= k < |s| / 2 => s[2 * k + 1])
  }

  /** The live queue after the loop as written has visited `i` tasks. */
  function AsWrittenQueue(s: seq<ATask>, i: nat): seq<ATask>
    requires 2 * i <= |s| + 1
  {
    var k := if 2 * i <= |s| then 2 * i else |s|;
    OddIndexed(s[..k]) + s[k..]
  }

  /** One iteration of the loop as written: position `i` holds `s[2i]`,
      and cancelling it yields the queue after `i + 1` visits. */
  lemma AsWrittenStep(s: seq<ATask>, i: nat)
    requires DistinctIds(s) && 2 * i <= |s| + 1 && i < |AsWrittenQueue(s, i)|
    ensures 2 * (i + 1) <= |s| + 1
    ensures AsWrittenQueue(s, i)[i] == s[2 * i]
    ensures RemoveFirst(AsWrittenQueue(s, i), s[2 * i].id) == AsWrittenQueue(s, i + 1)
  {
    var q := AsWrittenQueue(s, i);
    var k := 2 * i;
    AsWrittenShape(s, i);
    forall j | 0 <= j < i ensures q[j].id != s[k].id {
      assert q[j] == s[2 * j + 1];
    }
    RemoveFirstAt(q, s[k].id, i);
    assert q[..i] == OddIndexed(s[..k]);
    assert q[i + 1..] == s[k + 1..];
    AsWrittenGrow(s, i);
  }

  /** Before visit `i` the queue is the odd positions of the first `2i`
      tasks followed by the rest, and position `i` holds `s[2i]`. */
  lemma AsWrittenShape(s: seq<ATask>, i: nat)
    requires 2 * i <= |s| + 1 && i < |AsWrittenQueue(s, i)|
    ensures 2 * i < |s| && AsWrittenQueue(s, i) == OddIndexed(s[..2 * i]) + s[2 * i..]
    ensures |OddIndexed(s[..2 * i])| == i && AsWrittenQueue(s, i)[i] == s[2 * i]
  {
    var k := if 2 * i <= |s| then 2 * i else |s|;
    assert |AsWrittenQueue(s, i)| == k / 2 + |s| - k;
  }

  /** Dropping `s[2i]` from that queue gives the queue before visit `i + 1`. */
  lemma AsWrittenGrow(s: seq<ATask>, i: nat)
    requires 2 * i < |s|
    ensures 2 * (i + 1) <= |s| + 1
    ensures OddIndexed(s[..2 * i]) + s[2 * i + 1..] == AsWrittenQueue(s, i + 1)
  {
    var k := 2 * i;
    if k + 2 <= |s| {
      assert OddIndexed(s[..k + 2]) == OddIndexed(s[..k]) + [s[k + 1]];
      assert s[k + 1..] == [s[k + 1]] + s[k + 2..];
    } else {
      assert OddIndexed(s[..|s|]) == OddIndexed(s[..k]);
    }
  }

  /** When the loop as written stops, the queue holds the odd positions. */
  lemma AsWrittenDone(s: seq<ATask>, i: nat)
    requires 2 * i <= |s| + 1 && i >= |AsWrittenQueue(s, i)|
    ensures AsWrittenQueue(s, i) == OddIndexed(s)
  {
    var k := if 2 * i <= |s| then 2 * i else |s|;
    assert k == |s| by {
      assert |AsWrittenQueue(s, i)| == k / 2 + |s| - k;
    }
    assert s[..k] == s;
  }

  /** Whenever two or more tasks are queued, the loop as written leaves at
      least one of them behind. */
  lemma CancelAsWrittenLeavesTasks(s: seq<ATask>)
    requires |s| >= 2
    ensures |OddIndexed(s)| >= 1 && OddIndexed(s)[0] == s[1]
  {
  }

  /** The survivors of the loop as written keep distinct ids and hold no id
      the queue did not hold. */
  lemma OddIndexedIds(s: seq<ATask>, id: Uuid)
    requires DistinctIds(s)
    ensures DistinctIds(OddIndexed(s))
    ensures HasId(OddIndexed(s), id) ==> HasId(s, id)
  {
    var r := OddIndexed(s);
    if HasId(r, id) {
      var k :| 0 <= k < |r| && r[k].id == id;
      assert s[2 * k + 1].id == id;
    }
  }

  /** A plan with this root id is registered. */
  predicate Registered(ps: seq<PNode>, id: Uuid) {
    exists i | 0 <= i < |ps| :: ps[i].id == id
  }

  /** What `optimize` leaves behind: its outcome, the plans and the queue. */
  datatype Outcome = Outcome(result: Result<()>, plans: seq<PNode>, queue: seq<ATask>)

  /** The protocol nodes of the merged tree once the answer is written in. */
  function Replanned(ps: seq<PNode>, mergedId: Uuid, plan: Plan): seq<PNode> {
    PFlatten(ApplyPlan(PStart(mergedId, Children(ps)), plan))
  }

  /** `optimize` over the plans `ps` and the queue `queue`: re-plan the merged
      tree (a failure changes nothing), write the answer below every plan,
      run the cancel loop as written, then queue the earliest protocol that
      has not started under the fresh id `generated`, with its id as content. */
  function Optimized(ps: seq<PNode>, queue: seq<ATask>, mergedId: Uuid, now: Time,
                     answer: Option<Solution>, generated: Uuid): (o: Outcome)
    ensures |o.plans| == |ps| && forall i | 0 <= i < |ps| :: o.plans[i].id == ps[i].id
    ensures o.result.Ok? ==> |o.queue| == |queue| / 2 + 1
    ensures o.result.Err? ==> o.queue == queue || o.queue == OddIndexed(queue)
  {
    var plan := OptimizeSchedule(PStart(mergedId, Children(ps)), now, answer);
    if plan.Err? then Outcome(Err(plan.error), ps, queue)
    else
      var planned := ApplyBelow(ps, plan.value);
      var left := OddIndexed(queue);
      var nodes := Replanned(ps, mergedId, plan.value);
      var next := NextProtocol(nodes);
      if next.Err? then Outcome(Err(next.error), planned, left)
      else if nodes[next.value].scheduledTime.None? then
        Outcome(Err(ValueError("Next protocol has no scheduled time")), planned, left)
      else
        Outcome(Ok(()), planned,
                Insert(left, ATask(nodes[next.value].scheduledTime.value, generated, nodes[next.value].id)))
  }

  /** The queue `optimize` leaves is still in time order with distinct ids. */
  lemma OptimizedQueueValid(ps: seq<PNode>, queue: seq<ATask>, mergedId: Uuid, now: Time,
                            answer: Option<Solution>, generated: Uuid)
    requires Sorted(queue) && DistinctIds(queue) && !HasId(queue, generated)
    ensures var o := Optimized(ps, queue, mergedId, now, answer, generated);
      Sorted(o.queue) && DistinctIds(o.queue)
  {
    var o := Optimized(ps, queue, mergedId, now, answer, generated);
    var left := OddIndexed(queue);
    OddIndexedIds(queue, generated);
    assert Sorted(left);
    if o.result.Ok? {
      var plan := OptimizeSchedule(PStart(mergedId, Children(ps)), now, answer).value;
      var nodes := Replanned(ps, mergedId, plan);
      var n := nodes[NextProtocol(nodes).value];
      var t := ATask(n.scheduledTime.value, generated, n.id);
      InsertIsStableSort(left, t);
      InsertKeepsDistinct(left, t);
    }
  }

  /** Node `i` is a protocol that has not started and that no such protocol
      precedes in the `scheduled_time or datetime.max` order. */
  predicate Earliest(nodes: seq<PNode>, i: int) {
    && 0 <= i < |nodes| && Candidate(nodes[i])
    && forall j | 0 <= j < |nodes| && Candidate(nodes[j]) :: !KeyLess(KeyOf(nodes[j]), KeyOf(nodes[i]))
  }

  /** When `optimize` succeeds, the queue holds what the cancel loop left and
      one new task: the earliest protocol that has not started, at its
      re-planned time, under the fresh id. */
  lemma OptimizeQueuesEarliest(ps: seq<PNode>, queue: seq<ATask>, mergedId: Uuid, now: Time,
                               answer: Option<Solution>, generated: Uuid, plan: Plan)
    requires Sorted(queue)
    requires OptimizeSchedule(PStart(mergedId, Children(ps)), now, answer) == Ok(plan)
    ensures var o := Optimized(ps, queue, mergedId, now, answer, generated);
      var nodes := Replanned(ps, mergedId, plan);
      && o.plans == ApplyBelow(ps, plan)
      && (o.result.Err? ==> o.queue == OddIndexed(queue))
      && (o.result.Ok? ==>
            exists i | Earliest(nodes, i) ::
              && nodes[i].scheduledTime.Some?
              && multiset(o.queue) == multiset(OddIndexed(queue)) + multiset{ATask(nodes[i].scheduledTime.value, generated, nodes[i].id)})
  {
    var o := Optimized(ps, queue, mergedId, now, answer, generated);
    var nodes := Replanned(ps, mergedId, plan);
    var next := NextProtocol(nodes);
    if next.Ok? && nodes[next.value].scheduledTime.Some? {
      var i := next.value;
      var t := ATask(nodes[i].scheduledTime.value, generated, nodes[i].id);
      assert o.queue == Insert(OddIndexed(queue), t);
      assert Earliest(nodes, i);
      InsertIsStableSort(OddIndexed(queue), t);
    }
  }

  /** With at most one task queued, as sequential calls leave it, the loop
      as written cancels everything: a successful `optimize` leaves exactly
      the new task, a failed re-plan-and-pick leaves an empty queue. */
  lemma OptimizeOnShortQueue(ps: seq<PNode>, queue: seq<ATask>, mergedId: Uuid, now: Time,
                             answer: Option<Solution>, generated: Uuid)
    requires |queue| <= 1
    ensures var o := Optimized(ps, queue, mergedId, now, answer, generated);
      var plan := OptimizeSchedule(PStart(mergedId, Children(ps)), now, answer);
      && (o.result.Ok? ==> |o.queue| == 1 && o.queue[0].id == generated)
      && (plan.Ok? && o.result.Err? ==> o.queue == [])
  {
  }

  /** With two or more tasks queued, a re-plan that succeeds keeps the second
      one queued whatever happens next: the cancel loop skips it. */
  lemma OptimizeKeepsSkippedTask(ps: seq<PNode>, queue: seq<ATask>, mergedId: Uuid, now: Time,
                                 answer: Option<Solution>, generated: Uuid)
    requires Sorted(queue) && |queue| >= 2
    requires OptimizeSchedule(PStart(mergedId, Children(ps)), now, answer).Ok?
    ensures queue[1] in Optimized(ps, queue, mergedId, now, answer, generated).queue
  {
    var plan := OptimizeSchedule(PStart(mergedId, Children(ps)), now, answer).value;
    var o := Optimized(ps, queue, mergedId, now, answer, generated);
    assert OddIndexed(queue)[0] == queue[1];
    OptimizeQueuesEarliest(ps, queue, mergedId, now, answer, generated, plan);
    if o.result.Ok? {
      assert queue[1] in multiset(o.queue);
    }
  }

  class Executor {
    const awaitList: AwaitList
    var protocols: seq<PNode>

    /** The queue is in time order and its ids are distinct (every id is a
        fresh `uuid4`). */
    ghost predicate Valid()
      reads this, awaitList
    {
      awaitList.Valid() && DistinctIds(awaitList.tasks)
    }

    constructor()
      ensures Valid() && protocols == [] && fresh(awaitList) && awaitList.tasks == []
    {
      awaitList := new AwaitList();
      protocols := [];
    }

    /** The cancel loop of `optimize` as written: it walks the live list while
        `cancel_task` deletes from it. With distinct ids, exactly the tasks at
        odd positions survive. */
    method CancelAllAsWritten()
      requires Valid() && DistinctIds(awaitList.tasks)
      modifies awaitList
      ensures Valid()
      ensures awaitList.tasks == OddIndexed(old(awaitList.tasks))
    {
      ghost var s := awaitList.tasks;
      assert s[..0] == [] && s[0..] == s;
      var i := 0;
      while i < |awaitList.tasks|
        invariant awaitList.Valid()
        invariant 2 * i <= |s| + 1
        invariant awaitList.tasks == AsWrittenQueue(s, i)
        decreases |s| - i
      {
        AsWrittenStep(s, i);
        var t := awaitList.tasks[i];
        var _ := awaitList.CancelTask(t.id);
        i := i + 1;
      }
      AsWrittenDone(s, i);
    }

    /** The cancel loop as its comment intends: cancel every task of a
        snapshot of the queue, which empties it. */
    method CancelAll()
      requires Valid()
      modifies awaitList
      ensures Valid() && awaitList.tasks == []
    {
      var snapshot := awaitList.tasks;
      var i := 0;
      while i < |snapshot|
        invariant 0 <= i <= |snapshot|
        invariant awaitList.Valid()
        invariant awaitList.tasks == snapshot[i..]
      {
        RemoveFirstAt(awaitList.tasks, snapshot[i].id, 0);
        var _ := awaitList.CancelTask(snapshot[i].id);
        assert snapshot[i..][1..] == snapshot[i + 1..];
        i := i + 1;
      }
    }

    /** `optimize`: merge every plan's children under a fresh Start, re-plan
        (the solver's answer is `answer`), write the schedule back, run the
        cancel loop as written, then queue the earliest protocol that has
        not started, with its id as content. */
    method Optimize(mergedId: Uuid, now: Time, answer: Option<Solution>, generated: Uuid)
      returns (r: Result<()>)
      requires Valid() && !HasId(awaitList.tasks, generated)
      modifies this, awaitList
      ensures Valid()
      ensures Outcome(r, protocols, awaitList.tasks)
              == Optimized(old(protocols), old(awaitList.tasks), mergedId, now, answer, generated)
    {
      ghost var queue := awaitList.tasks;
      OptimizedQueueValid(protocols, queue, mergedId, now, answer, generated);
      OddIndexedIds(queue, generated);
      var merged := PStart(mergedId, Children(protocols));
      var plan := OptimizeSchedule(merged, now, answer);
      if plan.Err? {
        return Err(plan.error);
      }
      protocols := ApplyBelow(protocols, plan.value);
      CancelAllAsWritten();
      var nodes := PFlatten(ApplyPlan(merged, plan.value));
      var next := NextProtocol(nodes);
      if next.Err? {
        return Err(next.error);
      }
      var chosen := nodes[next.value];
      if chosen.scheduledTime.None? {
        return Err(ValueError("Next protocol has no scheduled time"));
      }
      var added := awaitList.AddTask(chosen.scheduledTime.value, chosen.id, None, generated);
      return Ok(());
    }

    /** `add_protocol`: a plan whose root id is already registered is
        rejected; otherwise it is registered and `optimize` runs (its failure
        leaves the plan registered). */
    method AddProtocol(p: PNode, mergedId: Uuid, now: Time, answer: Option<Solution>, generated: Uuid)
      returns (r: Result<PNode>)
      requires Valid() && !HasId(awaitList.tasks, generated)
      modifies this, awaitList
      ensures Valid()
      ensures Registered(old(protocols), p.id) ==>
        r.Err? && r.error.ValueError? && protocols == old(protocols) && awaitList.tasks == old(awaitList.tasks)
      ensures !Registered(old(protocols), p.id) ==>
        var o := Optimized(old(protocols) + [p], old(awaitList.tasks), mergedId, now, answer, generated);
        && protocols == o.plans && awaitList.tasks == o.queue
        && r == (if o.result.Ok? then Ok(p) else Err(o.result.error))
        && |protocols| == |old(protocols)| + 1 && protocols[|old(protocols)|].id == p.id
    {
      if Registered(protocols, p.id) {
        return Err(ValueError("Protocol with the same ID already exists"));
      }
      protocols := protocols + [p];
      var o := Optimize(mergedId, now, answer, generated);
      if o.Err? {
        return Err(o.error);
      }
      return Ok(p);
    }

    /** `process_task`: find the first protocol node whose id is the processed
        task's content (`ValueError` if none), record its start, call the
        driver (its outcome is a parameter), record its finish, then
        `optimize`. A failing driver leaves the start recorded, the finish
        unset and the queue as it was. */
    method ProcessTask(task: ATask, startedAt: Time, driver: Result<string>, finishedAt: Time,
                       mergedId: Uuid, now: Time, answer: Option<Solution>, generated: Uuid)
      returns (r: Result<()>)
      requires Valid() && !HasId(awaitList.tasks, generated)
      modifies this, awaitList
      ensures Valid()
      ensures FirstWithId(AllNodes(old(protocols)), task.content).None? ==>
        r.Err? && r.error.ValueError? && protocols == old(protocols) && awaitList.tasks == old(awaitList.tasks)
      ensures FirstWithId(AllNodes(old(protocols)), task.content).Some? && driver.Err? ==>
        r == Err(driver.error) && awaitList.tasks == old(awaitList.tasks) &&
        protocols == StampAll(old(protocols), task.content, Started(startedAt))
      ensures FirstWithId(AllNodes(old(protocols)), task.content).Some? && driver.Ok? ==>
        var stamped := StampAll(StampAll(old(protocols), task.content, Started(startedAt)),
                                task.content, Finished(finishedAt));
        Outcome(r, protocols, awaitList.tasks) == Optimized(stamped, old(awaitList.tasks), mergedId, now, answer, generated)
    {
      var nodes := AllNodes(protocols);
      var found := FirstWithId(nodes, task.content);
      if found.None? {
        return Err(ValueError("No protocol found for task: " + task.content));
      }
      protocols := StampAll(protocols, task.content, Started(startedAt));
      if driver.Err? {
        return Err(driver.error);
      }
      protocols := StampAll(protocols, task.content, Finished(finishedAt));
      r := Optimize(mergedId, now, answer, generated);
    }
  }
}

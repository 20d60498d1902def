/** The delay-driven scheduler of `src/scheduler.py`: after a protocol runs,
    each child of its node is put on the await list, Delay children at the
    start or finish time plus duration and offset, Protocol children at the
    current time. */
module Scheduler {
  import opened Common
  import opened PlanTree
  import opened AwaitList

  /** `MemoryScheduleSaver`: keeps a reference to the last saved value. */
  class MemoryScheduleSaver<T> {
    var state: Option<T>

    constructor()
      ensures state == None
    {
      state := None;
    }

    method Save(x: T)
      modifies this
      ensures state == Some(x)
    {
      state := Some(x);
    }

    /** `load`: the last saved value, or `ValueError` when nothing was saved. */
    method Load() returns (r: Result<T>)
      ensures state.None? ==> r.Err? && r.error.ValueError?
      ensures state.Some? ==> r == Ok(state.value)
    {
      if state.None? {
        return Err(ValueError("No scheduler state saved."));
      }
      return Ok(state.value);
    }
  }

  /** `add_time`: the instant `duration` after `start` (times carry no zone). */
  function AddTime(start: Time, duration: Time): (r: Time)
    ensures r - start == duration
  {
    start + duration
  }

  /** What one child of the processed node contributes to the queue: a
      (time, protocol name) pair, nothing, or the exception raised. */
  datatype Planned = Planned(time: Time, content: string)

  function ChildSchedule(child: Node, startedAt: Time, finishedAt: Time, now: Time): (r: Result<Option<Planned>>)
    ensures r.Err? <==> child.kind.Delay? && !Enqueues(child)
    ensures r.Ok? && child.kind.Delay? ==>
      r.value == Some(Planned(AddTime(if child.kind.fromType == START then startedAt else finishedAt,
                                      child.kind.duration + child.kind.offset), child.post[0].kind.name))
    ensures r.Ok? && !child.kind.Delay? ==> (r.value.Some? <==> IsProtocolInstance(child.kind))
    ensures r.Ok? && IsProtocolInstance(child.kind) ==> r.value == Some(Planned(now, child.kind.name))
  {
    match child.kind
    case Delay(d, f, o) =>
      var at := AddTime(if f == START then startedAt else finishedAt, d + o);
      if child.post == [] then Err(IndexError("list index out of range"))
      else if !IsProtocolInstance(child.post[0].kind) then Err(AttributeError("object has no attribute 'name'"))
      else Ok(Some(Planned(at, child.post[0].kind.name)))
    case Protocol(name, _) => Ok(Some(Planned(now, name)))
    case StartedProtocol(name, _, _, _, _) => Ok(Some(Planned(now, name)))
    case _ => Ok(None)
  }

  /** The tasks `new_schedules` enqueues for `children[from..]`, in child
      order, with the i-th child's task carrying the id `uuid4(i)`, and the
      exception that stops the loop, if any. */
  function Schedules(children: seq<Node>, from: nat, startedAt: Time, finishedAt: Time, now: Time,
                     uuid4: nat -> Uuid): (r: (seq<ATask>, Option<Exception>))
    ensures from <= |children| ==> |r.0| <= |children| - from
    ensures r.1.None? ==> forall i | from <= i < |children| :: ChildSchedule(children[i], startedAt, finishedAt, now).Ok?
    decreases |children| - from
  {
    if from >= |children| then ([], None)
    else
      match ChildSchedule(children[from], startedAt, finishedAt, now)
      case Err(e) => ([], Some(e))
      case Ok(None) => Schedules(children, from + 1, startedAt, finishedAt, now, uuid4)
      case Ok(Some(p)) =>
        var rest := Schedules(children, from + 1, startedAt, finishedAt, now, uuid4);
        ([ATask(p.time, uuid4(from), p.content)] + rest.0, rest.1)
  }

  /** Each child that is a Delay whose first successor is a protocol, or a
      protocol itself. */
  predicate Enqueues(child: Node) {
    || IsProtocolInstance(child.kind)
    || (child.kind.Delay? && child.post != [] && IsProtocolInstance(child.post[0].kind))
  }

  /** The queue entry a child adds: a Delay child's is for its first successor,
      due `duration + offset` after the start (from_type START) or the finish
      (FINISH); a protocol child's is for itself, due now. */
  predicate TaskFor(child: Node, t: ATask, startedAt: Time, finishedAt: Time, now: Time)
    requires Enqueues(child)
  {
    match child.kind
    case Delay(d, f, o) =>
      t.content == child.post[0].kind.name &&
      t.executionTime == (if f == START then startedAt else finishedAt) + d + o
    case _ => t.content == child.kind.name && t.executionTime == now
  }

  /** The indices in `[from, stop)` of the children that enqueue, in
      increasing order. */
  function Enqueuing(children: seq<Node>, from: nat, stop: nat): (idx: seq<nat>)
    requires stop <= |children|
    ensures forall k | 0 <= k < |idx| :: from <= idx[k] < stop && Enqueues(children[idx[k]])
    ensures forall k, l | 0 <= k < l < |idx| :: idx[k] < idx[l]
    ensures forall i | from <= i < stop && Enqueues(children[i]) :: i in idx
    decreases stop - from
  {
    if from >= stop then []
    else (if Enqueues(children[from]) then [from] else []) + Enqueuing(children, from + 1, stop)
  }

  /** A child that schedules without an exception adds a task exactly when
      it enqueues, and that task is the one `TaskFor` describes. */
  lemma ChildScheduleEnqueues(child: Node, startedAt: Time, finishedAt: Time, now: Time, id: Uuid)
    ensures var c := ChildSchedule(child, startedAt, finishedAt, now);
      c.Ok? ==> (c.value.Some? <==> Enqueues(child))
    ensures var c := ChildSchedule(child, startedAt, finishedAt, now);
      c.Ok? && c.value.Some? ==>
        Enqueues(child) && TaskFor(child, ATask(c.value.value.time, id, c.value.value.content), startedAt, finishedAt, now)
  {
  }

  /** `new_schedules` over `children[from..]` when `stop` is the first child
      that cannot be scheduled (or the end): it raises that child's
      exception, if any, and queues one task per enqueuing child before
      `stop`, in child order, the k-th carrying the id drawn for its child.
      A Delay child's task is for its first successor, due `duration +
      offset` after the start (from_type START) or the finish (FINISH); a
      protocol child's is for itself, due now. Other children add nothing. */
  lemma SchedulesSpec(children: seq<Node>, from: nat, stop: nat, startedAt: Time,
                      finishedAt: Time, now: Time, uuid4: nat -> Uuid)
    requires from <= stop <= |children|
    requires forall i | from <= i < stop :: ChildSchedule(children[i], startedAt, finishedAt, now).Ok?
    requires stop < |children| ==> ChildSchedule(children[stop], startedAt, finishedAt, now).Err?
    ensures Schedules(children, from, startedAt, finishedAt, now, uuid4).1
            == (if stop < |children| then Some(ChildSchedule(children[stop], startedAt, finishedAt, now).error) else None)
    ensures |Schedules(children, from, startedAt, finishedAt, now, uuid4).0| == |Enqueuing(children, from, stop)|
    ensures forall k | 0 <= k < |Enqueuing(children, from, stop)| ::
      var i := Enqueuing(children, from, stop)[k];
      var t := Schedules(children, from, startedAt, finishedAt, now, uuid4).0[k];
      t.id == uuid4(i) && TaskFor(children[i], t, startedAt, finishedAt, now)
  {
    SchedulesError(children, from, stop, startedAt, finishedAt, now, uuid4);
    SchedulesTasks(children, from, stop, startedAt, finishedAt, now, uuid4);
  }

  /** The exception `new_schedules` raises is the one of the first child
      that cannot be scheduled. */
  lemma {:induction false} SchedulesError(children: seq<Node>, from: nat, stop: nat, startedAt: Time,
                                          finishedAt: Time, now: Time, uuid4: nat -> Uuid)
    requires from <= stop <= |children|
    requires forall i | from <= i < stop :: ChildSchedule(children[i], startedAt, finishedAt, now).Ok?
    requires stop < |children| ==> ChildSchedule(children[stop], startedAt, finishedAt, now).Err?
    ensures Schedules(children, from, startedAt, finishedAt, now, uuid4).1
            == (if stop < |children| then Some(ChildSchedule(children[stop], startedAt, finishedAt, now).error) else None)
    decreases stop - from
  {
    if from < stop {
      SchedulesError(children, from + 1, stop, startedAt, finishedAt, now, uuid4);
    }
  }

  /** `ts[k]` is the queue entry the enqueuing child `children[idx[k]]` adds. */
  predicate TasksMatch(children: seq<Node>, ts: seq<ATask>, idx: seq<nat>,
                       startedAt: Time, finishedAt: Time, now: Time, uuid4: nat -> Uuid)
  {
    && |ts| == |idx|
    && forall k | 0 <= k < |idx| ::
         && idx[k] < |children| && Enqueues(children[idx[k]])
         && ts[k].id == uuid4(idx[k]) && TaskFor(children[idx[k]], ts[k], startedAt, finishedAt, now)
  }

  /** The tasks part of `SchedulesSpec`. */
  lemma {:induction false} SchedulesTasks(children: seq<Node>, from: nat, stop: nat, startedAt: Time,
                                          finishedAt: Time, now: Time, uuid4: nat -> Uuid)
    requires from <= stop <= |children|
    requires forall i | from <= i < stop :: ChildSchedule(children[i], startedAt, finishedAt, now).Ok?
    requires stop < |children| ==> ChildSchedule(children[stop], startedAt, finishedAt, now).Err?
    ensures TasksMatch(children, Schedules(children, from, startedAt, finishedAt, now, uuid4).0,
                       Enqueuing(children, from, stop), startedAt, finishedAt, now, uuid4)
    decreases stop - from
  {
    if from < stop {
      SchedulesTasks(children, from + 1, stop, startedAt, finishedAt, now, uuid4);
      var rest := Schedules(children, from + 1, startedAt, finishedAt, now, uuid4).0;
      var idx := Enqueuing(children, from + 1, stop);
      SchedulesStep(children, from, stop, rest, idx, startedAt, finishedAt, now, uuid4);
    } else {
      assert Schedules(children, from, startedAt, finishedAt, now, uuid4).0 == [];
    }
  }

  /** One child of `SchedulesTasks`: an enqueuing child puts its task in
      front, any other child adds nothing. */
  lemma SchedulesStep(children: seq<Node>, from: nat, stop: nat, rest: seq<ATask>, idx: seq<nat>,
                      startedAt: Time, finishedAt: Time, now: Time, uuid4: nat -> Uuid)
    requires from < stop <= |children|
    requires ChildSchedule(children[from], startedAt, finishedAt, now).Ok?
    requires rest == Schedules(children, from + 1, startedAt, finishedAt, now, uuid4).0
    requires idx == Enqueuing(children, from + 1, stop)
    requires TasksMatch(children, rest, idx, startedAt, finishedAt, now, uuid4)
    ensures TasksMatch(children, Schedules(children, from, startedAt, finishedAt, now, uuid4).0,
                       Enqueuing(children, from, stop), startedAt, finishedAt, now, uuid4)
  {
    ChildScheduleEnqueues(children[from], startedAt, finishedAt, now, uuid4(from));
    var c := ChildSchedule(children[from], startedAt, finishedAt, now);
    if c.value.Some? {
      var t := ATask(c.value.value.time, uuid4(from), c.value.value.content);
      assert Schedules(children, from, startedAt, finishedAt, now, uuid4).0 == [t] + rest;
      assert Enqueuing(children, from, stop) == [from] + idx;
      SchedulesShift(children, from, t, rest, idx, startedAt, finishedAt, now, uuid4);
    } else {
      assert Schedules(children, from, startedAt, finishedAt, now, uuid4).0 == rest;
      assert Enqueuing(children, from, stop) == idx;
    }
  }

  /** The step of `SchedulesStep` for an enqueuing child: its task goes in
      front, everything else moves one place along. */
  lemma SchedulesShift(children: seq<Node>, from: nat, t: ATask, ts: seq<ATask>, idx: seq<nat>,
                       startedAt: Time, finishedAt: Time, now: Time, uuid4: nat -> Uuid)
    requires from < |children| && Enqueues(children[from])
    requires t.id == uuid4(from) && TaskFor(children[from], t, startedAt, finishedAt, now)
    requires TasksMatch(children, ts, idx, startedAt, finishedAt, now, uuid4)
    ensures TasksMatch(children, [t] + ts, [from] + idx, startedAt, finishedAt, now, uuid4)
  {
    var allTs, allIdx := [t] + ts, [from] + idx;
    forall k | 0 <= k < |allIdx|
      ensures allIdx[k] < |children| && Enqueues(children[allIdx[k]])
              && allTs[k].id == uuid4(allIdx[k]) && TaskFor(children[allIdx[k]], allTs[k], startedAt, finishedAt, now)
    {
      if k > 0 {
        assert allIdx[k] == idx[k - 1] && allTs[k] == ts[k - 1];
      }
    }
  }

  /** Adding tasks one by one, as `add_task` does. */
  function InsertAll(s: seq<ATask>, ts: seq<ATask>): seq<ATask>
    decreases ts
  {
    if ts == [] then s else InsertAll(Insert(s, ts[0]), ts[1..])
  }

  /** The queue stays sorted and ends up with exactly the old tasks plus the
      new ones. */
  lemma {:induction false} InsertAllSpec(s: seq<ATask>, ts: seq<ATask>)
    requires Sorted(s)
    ensures Sorted(InsertAll(s, ts))
    ensures multiset(InsertAll(s, ts)) == multiset(s) + multiset(ts)
    decreases ts
  {
    if ts != [] {
      InsertIsStableSort(s, ts[0]);
      InsertAllSpec(Insert(s, ts[0]), ts[1..]);
      assert ts == [ts[0]] + ts[1..];
    }
  }

  /** First protocol in `nodes` with the given name, the way `process_task`
      picks `current_nodes[0]`. */
  function FirstNamed(nodes: seq<Node>, name: string): (r: Option<nat>)
    ensures r.Some? ==> r.value < |nodes| && IsProtocolInstance(nodes[r.value].kind)
                        && nodes[r.value].kind.name == name
    ensures r.Some? ==> forall k | 0 <= k < r.value :: !(IsProtocolInstance(nodes[k].kind) && nodes[k].kind.name == name)
    ensures r.None? ==> forall k | 0 <= k < |nodes| :: !(IsProtocolInstance(nodes[k].kind) && nodes[k].kind.name == name)
  {
    if nodes == [] then None
    else if IsProtocolInstance(nodes[0].kind) && nodes[0].kind.name == name then Some(0)
    else
      match FirstNamed(nodes[1..], name)
      case None => None
      case Some(i) => Some(i + 1)
  }

  /** What processing one task does: the outcome, the tasks it queued, the
      queue afterwards, and whether the saver was called. */
  datatype Turn = Turn(result: Result<()>, added: seq<ATask>, queue: seq<ATask>, saved: bool)

  /** `process_task` on the queue `queue`: the first protocol in preorder
      named after the processed entry (`ValueError` if none) is run by `executor`, and
      then `new_schedules` queues its children's tasks. */
  function Processed(root: Node, queue: seq<ATask>, task: ATask, executor: Result<string>,
                     startedAt: Time, finishedAt: Time, now: Time, uuid4: nat -> Uuid): (o: Turn)
    ensures o.result.Ok? ==> o.saved
    ensures o.added == [] ==> o.queue == queue
    ensures FirstNamed(Flatten(root), task.content).None? ==>
      o.result.Err? && o.result.error.ValueError? && !o.saved && o.added == []
    ensures executor.Err? ==> o.result.Err? && !o.saved && o.added == []
  {
    var nodes := Flatten(root);
    match FirstNamed(nodes, task.content)
    case None => Turn(Err(ValueError("No protocol found for task: " + task.content)), [], queue, false)
    case Some(i) =>
      if executor.Err? then Turn(Err(executor.error), [], queue, false)
      else
        var (ts, err) := Schedules(nodes[i].post, 0, startedAt, finishedAt, now, uuid4);
        Turn(if err.None? then Ok(()) else Err(err.value), ts, InsertAll(queue, ts), err.None? || ts != [])
  }

  /** Processing a task keeps the queue in time order and adds exactly the
      tasks it reports, to the tasks already there. */
  lemma ProcessedQueue(root: Node, queue: seq<ATask>, task: ATask, executor: Result<string>,
                       startedAt: Time, finishedAt: Time, now: Time, uuid4: nat -> Uuid)
    requires Sorted(queue)
    ensures var o := Processed(root, queue, task, executor, startedAt, finishedAt, now, uuid4);
      Sorted(o.queue) && multiset(o.queue) == multiset(queue) + multiset(o.added)
  {
    var o := Processed(root, queue, task, executor, startedAt, finishedAt, now, uuid4);
    InsertAllSpec(queue, o.added);
  }

  class Scheduler {
    const protocol: Node
    const awaitList: AwaitList
    const saver: MemoryScheduleSaver<Scheduler>

    ghost predicate Valid()
      reads this, awaitList
    {
      awaitList.Valid()
    }

    /** A missing await list or saver is replaced by a fresh empty one. */
    constructor(protocol: Node, awaitList: AwaitList?, saver: MemoryScheduleSaver?<Scheduler>)
      requires awaitList != null ==> awaitList.Valid()
      ensures Valid() && this.protocol == protocol
      ensures awaitList != null ==> this.awaitList == awaitList
      ensures awaitList == null ==> fresh(this.awaitList) && this.awaitList.tasks == []
      ensures saver != null ==> this.saver == saver
      ensures saver == null ==> fresh(this.saver) && this.saver.state == None
    {
      this.protocol := protocol;
      if awaitList != null {
        this.awaitList := awaitList;
      } else {
        this.awaitList := new AwaitList();
      }
      if saver != null {
        this.saver := saver;
      } else {
        this.saver := new MemoryScheduleSaver();
      }
    }

    /** `add_task`: enqueue through the await list, then save. */
    method AddTask(executionTime: Time, message: string, id: Option<Uuid>, generated: Uuid)
      returns (r: Result<ATask>)
      requires Valid()
      modifies awaitList, saver
      ensures Valid()
      ensures id.Some? && HasId(old(awaitList.tasks), id.value) ==>
        r.Err? && awaitList.tasks == old(awaitList.tasks) && saver.state == old(saver.state)
      ensures !(id.Some? && HasId(old(awaitList.tasks), id.value)) ==>
        && r == Ok(ATask(executionTime, if id.Some? then id.value else generated, message))
        && awaitList.tasks == Insert(old(awaitList.tasks), r.value)
        && saver.state == Some(this)
    {
      r := awaitList.AddTask(executionTime, message, id, generated);
      if r.Err? {
        return;
      }
      saver.Save(this);
    }

    /** `new_schedules`: one `add_task` per enqueuing child, in child order,
        then a save. The first child that cannot be scheduled raises, keeping
        what was queued before it. */
    method NewSchedules(current: Node, startedAt: Time, finishedAt: Time, now: Time, uuid4: nat -> Uuid)
      returns (r: Result<()>)
      requires Valid()
      modifies awaitList, saver
      ensures Valid()
      ensures var (ts, err) := Schedules(current.post, 0, startedAt, finishedAt, now, uuid4);
        && awaitList.tasks == InsertAll(old(awaitList.tasks), ts)
        && (err.None? ==> r == Ok(()) && saver.state == Some(this))
        && (err.Some? ==> r == Err(err.value) && (ts != [] ==> saver.state == Some(this))
                                              && (ts == [] ==> saver.state == old(saver.state)))
    {
      var children := current.post;
      var i := 0;
      ghost var all := Schedules(children, 0, startedAt, finishedAt, now, uuid4);
      while i < |children|
        invariant 0 <= i <= |children|
        invariant Valid()
        invariant var (ts, err) := Schedules(children, i, startedAt, finishedAt, now, uuid4);
          InsertAll(awaitList.tasks, ts) == InsertAll(old(awaitList.tasks), all.0) && err == all.1
        invariant var ts := Schedules(children, i, startedAt, finishedAt, now, uuid4).0;
          |all.0| > |ts| ==> saver.state == Some(this)
        invariant var ts := Schedules(children, i, startedAt, finishedAt, now, uuid4).0;
          |all.0| == |ts| ==> saver.state == old(saver.state)
        invariant |Schedules(children, i, startedAt, finishedAt, now, uuid4).0| <= |all.0|
      {
        var next := ChildSchedule(children[i], startedAt, finishedAt, now);
        if next.Err? {
          return Err(next.error);
        }
        if next.value.Some? {
          var p := next.value.value;
          var added := AddTask(p.time, p.content, None, uuid4(i));
        }
        i := i + 1;
      }
      saver.Save(this);
      return Ok(());
    }

    /** `process_task`: find the first protocol in preorder whose name is the
        task's content (`ValueError` if none), run it through `executor`
        (its outcome is a parameter), then schedule its children. */
    method ProcessTask(task: ATask, executor: Result<string>, startedAt: Time, finishedAt: Time,
                       now: Time, uuid4: nat -> Uuid)
      returns (r: Result<()>)
      requires Valid()
      modifies awaitList, saver
      ensures Valid()
      ensures var o := Processed(protocol, old(awaitList.tasks), task, executor, startedAt, finishedAt, now, uuid4);
        && r == o.result && awaitList.tasks == o.queue
        && saver.state == (if o.saved then Some(this) else old(saver.state))
    {
      var nodes := Flatten(protocol);
      var found := FirstNamed(nodes, task.content);
      if found.None? {
        return Err(ValueError("No protocol found for task: " + task.content));
      }
      var current := nodes[found.value];
      if executor.Err? {
        return Err(executor.error);
      }
      r := NewSchedules(current, startedAt, finishedAt, now, uuid4);
      ghost var o := Processed(protocol, old(awaitList.tasks), task, executor, startedAt, finishedAt, now, uuid4);
      ghost var sc := Schedules(current.post, 0, startedAt, finishedAt, now, uuid4);
      assert o.added == sc.0;
      assert o.saved == (sc.1.None? || sc.0 != []);
    }

    /** The seeding step of `process_tasks_loop`: only an empty queue is
        filled from the root. */
    method Seed(now: Time, uuid4: nat -> Uuid) returns (r: Result<()>)
      requires Valid()
      modifies awaitList, saver
      ensures Valid()
      ensures old(awaitList.tasks) != [] ==>
        r == Ok(()) && awaitList.tasks == old(awaitList.tasks) && saver.state == old(saver.state)
      ensures old(awaitList.tasks) == [] ==>
        var (ts, err) := Schedules(protocol.post, 0, now, now, now, uuid4);
        && awaitList.tasks == InsertAll([], ts)
        && r == (if err.None? then Ok(()) else Err(err.value))
        && saver.state == (if err.None? || ts != [] then Some(this) else old(saver.state))
    {
      if |awaitList.tasks| == 0 {
        r := NewSchedules(protocol, now, now, now, uuid4);
      } else {
        r := Ok(());
      }
    }

    /** One turn of the loop body: take the due head, if any, and process it. */
    method Step(now: Time, executor: Result<string>, startedAt: Time, finishedAt: Time,
                later: Time, uuid4: nat -> Uuid)
      returns (r: Result<Option<ATask>>)
      requires Valid()
      modifies awaitList, saver
      ensures Valid()
      ensures !(old(awaitList.tasks) != [] && old(awaitList.tasks)[0].executionTime <= now) ==>
        r == Ok(None) && awaitList.tasks == old(awaitList.tasks) && saver.state == old(saver.state)
      ensures old(awaitList.tasks) != [] && old(awaitList.tasks)[0].executionTime <= now ==>
        var o := Processed(protocol, old(awaitList.tasks)[1..], old(awaitList.tasks)[0], executor,
                           startedAt, finishedAt, later, uuid4);
        && r == (if o.result.Ok? then Ok(Some(old(awaitList.tasks)[0])) else Err(o.result.error))
        && awaitList.tasks == o.queue
        && saver.state == (if o.saved then Some(this) else old(saver.state))
    {
      var t := awaitList.PopDue(now);
      if t.None? {
        return Ok(None);
      }
      var done := ProcessTask(t.value, executor, startedAt, finishedAt, later, uuid4);
      if done.Err? {
        return Err(done.error);
      }
      return Ok(t);
    }
  }

  /** After `new_schedules` the queue holds the old tasks plus exactly the
      scheduled ones, still in time order. */
  lemma NewSchedulesQueue(s: seq<ATask>, current: Node, startedAt: Time, finishedAt: Time, now: Time,
                          uuid4: nat -> Uuid)
    requires Sorted(s)
    ensures var ts := Schedules(current.post, 0, startedAt, finishedAt, now, uuid4).0;
      Sorted(InsertAll(s, ts)) && multiset(InsertAll(s, ts)) == multiset(s) + multiset(ts)
  {
    InsertAllSpec(s, Schedules(current.post, 0, startedAt, finishedAt, now, uuid4).0);
  }
}

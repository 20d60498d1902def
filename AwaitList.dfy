/** The time-ordered task queue (`src/awaitlist.py`): tasks are kept sorted by
    execution time, new tasks go after every task due no later than them
    (Python's sort is stable), cancellation removes the first task with the
    id, and the waiter hands out the head once its time has come. */
module AwaitList {
  import opened Common

  datatype ATask = ATask(executionTime: Time, id: Uuid, content: string)

  /** Non-decreasing execution times: the order `tasks.sort(key=...)` leaves. */
  predicate Sorted(s: seq<ATask>) {
    forall i, j | 0 <= i < j < |s| :: s[i].executionTime <= s[j].executionTime
  }

  predicate HasId(s: seq<ATask>, id: Uuid) {
    exists i | 0 <= i < |s| :: s[i].id == id
  }

  predicate DistinctIds(s: seq<ATask>) {
    forall i, j | 0 <= i < j < |s| :: s[i].id != s[j].id
  }

  /** Number of leading tasks due no later than `t`. */
  function CountNotLater(s: seq<ATask>, t: Time): (k: nat)
    ensures k <= |s|
  {
    if s == [] || s[0].executionTime > t then 0 else 1 + CountNotLater(s[1..], t)
  }

  /** Where appending `x` and stably sorting a sorted queue puts `x`. */
  function Insert(s: seq<ATask>, x: ATask): (r: seq<ATask>)
    ensures |r| == |s| + 1
  {
    if s == [] then [x]
    else if x.executionTime < s[0].executionTime then [x] + s
    else [s[0]] + Insert(s[1..], x)
  }

  /** Stability: on a sorted queue, `x` lands after exactly the tasks due no
      later than it and before every later one, and the queue's own order is
      kept. */
  lemma InsertIsStable(s: seq<ATask>, x: ATask)
    requires Sorted(s)
    ensures var k := CountNotLater(s, x.executionTime);
      && Insert(s, x) == s[..k] + [x] + s[k..]
      && (forall i | 0 <= i < k :: s[i].executionTime <= x.executionTime)
      && (forall i | k <= i < |s| :: s[i].executionTime > x.executionTime)
  {
    InsertAt(s, x, CountNotLater(s, x.executionTime));
  }

  /** The same, with the count of tasks due no later than `x` given. */
  lemma {:induction false} InsertAt(s: seq<ATask>, x: ATask, k: nat)
    requires Sorted(s) && k == CountNotLater(s, x.executionTime)
    ensures Insert(s, x) == s[..k] + [x] + s[k..]
    ensures forall i | 0 <= i < k :: s[i].executionTime <= x.executionTime
    ensures forall i | k <= i < |s| :: s[i].executionTime > x.executionTime
  {
    if s != [] && x.executionTime >= s[0].executionTime {
      var tail := s[1..];
      assert Sorted(tail);
      InsertAt(tail, x, k - 1);
      ConsSplice(s, k - 1, x);
      assert forall i | 1 <= i < |s| :: s[i] == tail[i - 1];
    }
  }

  lemma ConsSplice(s: seq<ATask>, k: nat, x: ATask)
    requires k < |s|
    ensures [s[0]] + (s[1..][..k] + [x] + s[1..][k..]) == s[..k + 1] + [x] + s[k + 1..]
  {
    assert s[..k + 1] == [s[0]] + s[1..][..k];
    assert s[k + 1..] == s[1..][k..];
  }

  /** Inserting into a sorted queue gives the stable sort of `s + [x]`: sorted,
      and holding exactly the old tasks plus `x`. */
  lemma InsertIsStableSort(s: seq<ATask>, x: ATask)
    requires Sorted(s)
    ensures Sorted(Insert(s, x))
    ensures multiset(Insert(s, x)) == multiset(s) + multiset{x}
  {
    InsertIsStable(s, x);
    var k := CountNotLater(s, x.executionTime);
    SortedSplice(s, k, x);
    MultisetSplice(s, k, x);
  }

  lemma SortedSplice(s: seq<ATask>, k: nat, x: ATask)
    requires Sorted(s) && k <= |s|
    requires forall i | 0 <= i < k :: s[i].executionTime <= x.executionTime
    requires forall i | k <= i < |s| :: s[i].executionTime > x.executionTime
    ensures Sorted(s[..k] + [x] + s[k..])
  {
    var r := s[..k] + [x] + s[k..];
    forall a, b | 0 <= a < b < |r| ensures r[a].executionTime <= r[b].executionTime {
      var ta := if a < k then s[a] else if a == k then x else s[a - 1];
      var tb := if b < k then s[b] else if b == k then x else s[b - 1];
      assert r[a] == ta && r[b] == tb;
    }
  }

  lemma MultisetSplice(s: seq<ATask>, k: nat, x: ATask)
    requires k <= |s|
    ensures multiset(s[..k] + [x] + s[k..]) == multiset(s) + multiset{x}
  {
    assert s[..k] + s[k..] == s;
  }

  /** Inserting a task whose id is new keeps the ids distinct. */
  lemma InsertKeepsDistinct(s: seq<ATask>, x: ATask)
    requires Sorted(s) && DistinctIds(s) && !HasId(s, x.id)
    ensures DistinctIds(Insert(s, x))
  {
    InsertIsStable(s, x);
    var k := CountNotLater(s, x.executionTime);
    var r := Insert(s, x);
    assert forall i | 0 <= i < |r| :: r[i] == (if i < k then s[i] else if i == k then x else s[i - 1]);
    forall a, b | 0 <= a < b < |r| ensures r[a].id != r[b].id {
      if b == k {
        assert r[a] == s[a];
      } else if a == k {
        assert r[b] == s[b - 1];
      }
    }
  }

  /** Index of the first task carrying `id`. */
  function FirstIndex(s: seq<ATask>, id: Uuid): (i: nat)
    requires HasId(s, id)
    ensures i < |s| && s[i].id == id
    ensures forall k | 0 <= k < i :: s[k].id != id
  {
    if s[0].id == id then 0
    else
      assert HasId(s[1..], id) by {
        var i :| 0 <= i < |s| && s[i].id == id;
        assert s[1..][i - 1].id == id;
      }
      1 + FirstIndex(s[1..], id)
  }

  /** The queue without the first task carrying `id`: what `cancel_task` leaves. */
  function RemoveFirst(s: seq<ATask>, id: Uuid): (r: seq<ATask>)
  {
    if s == [] then []
    else if s[0].id == id then s[1..]
    else [s[0]] + RemoveFirst(s[1..], id)
  }

  /** Removing the first match at index `i` cuts exactly that element out. */
  lemma {:induction false} RemoveFirstAt(s: seq<ATask>, id: Uuid, i: nat)
    requires i < |s| && s[i].id == id
    requires forall k | 0 <= k < i :: s[k].id != id
    ensures RemoveFirst(s, id) == s[..i] + s[i + 1..]
  {
    if i > 0 {
      assert s[0].id != id;
      RemoveFirstAt(s[1..], id, i - 1);
      assert s[..i] == [s[0]] + s[1..][..i - 1];
      assert s[i + 1..] == s[1..][i..];
    }
  }

  /** Without a match the queue is left as it is. */
  lemma {:induction false} RemoveFirstAbsent(s: seq<ATask>, id: Uuid)
    requires !HasId(s, id)
    ensures RemoveFirst(s, id) == s
  {
    if s != [] {
      assert s[0].id != id;
      forall i | 0 <= i < |s[1..]| ensures s[1..][i].id != id {
        assert s[1..][i] == s[i + 1];
      }
      RemoveFirstAbsent(s[1..], id);
    }
  }

  /** Cancelling keeps the queue sorted, removes exactly one task with the id
      when there is one, and keeps every other task in its order. */
  lemma RemoveFirstSpec(s: seq<ATask>, id: Uuid)
    requires Sorted(s)
    ensures Sorted(RemoveFirst(s, id))
    ensures HasId(s, id) ==>
      var i := FirstIndex(s, id);
      RemoveFirst(s, id) == s[..i] + s[i + 1..] &&
      multiset(RemoveFirst(s, id)) + multiset{s[i]} == multiset(s)
    ensures !HasId(s, id) ==> RemoveFirst(s, id) == s
  {
    if HasId(s, id) {
      var i := FirstIndex(s, id);
      RemoveFirstAt(s, id, i);
      SortedCut(s, i);
      MultisetCut(s, i);
    } else {
      RemoveFirstAbsent(s, id);
    }
  }

  lemma SortedCut(s: seq<ATask>, i: nat)
    requires Sorted(s) && i < |s|
    ensures Sorted(s[..i] + s[i + 1..])
  {
    var r := s[..i] + s[i + 1..];
    forall a, b | 0 <= a < b < |r| ensures r[a].executionTime <= r[b].executionTime {
      var a' := if a < i then a else a + 1;
      var b' := if b < i then b else b + 1;
      assert r[a] == s[a'] && r[b] == s[b'];
    }
  }

  lemma MultisetCut(s: seq<ATask>, i: nat)
    requires i < |s|
    ensures multiset(s[..i] + s[i + 1..]) + multiset{s[i]} == multiset(s)
  {
    assert s[..i] + [s[i]] + s[i + 1..] == s;
  }

  /** The queue object. The lock, the condition variable and the waiting are
      scheduling concerns of asyncio and are not modelled. */
  class AwaitList {
    var tasks: seq<ATask>

    ghost predicate Valid()
      reads this
    {
      Sorted(tasks)
    }

    constructor()
      ensures Valid() && tasks == []
    {
      tasks := [];
    }

    /** `get_tasks`: the live queue, always in time order. */
    function GetTasks(): (r: seq<ATask>)
      reads this
      requires Valid()
      ensures Sorted(r) && r == tasks
    {
      tasks
    }

    /** `add_task`: an explicit id already in the queue raises `ValueError`;
        otherwise a new task (with `generated` standing for `uuid.uuid4()` when
        no id is given) is appended and the queue stably re-sorted. */
    method AddTask(executionTime: Time, content: string, id: Option<Uuid>, generated: Uuid)
      returns (r: Result<ATask>)
      requires Valid()
      modifies this
      ensures Valid()
      ensures id.Some? && HasId(old(tasks), id.value) ==> r.Err? && r.error.ValueError? && tasks == old(tasks)
      ensures !(id.Some? && HasId(old(tasks), id.value)) ==>
        && r == Ok(ATask(executionTime, if id.Some? then id.value else generated, content))
        && tasks == Insert(old(tasks), r.value)
    {
      if id.Some? && HasId(tasks, id.value) {
        return Err(ValueError("Task with id " + id.value + " already exists."));
      }
      var taskId := if id.Some? then id.value else generated;
      var task := ATask(executionTime, taskId, content);
      InsertIsStableSort(tasks, task);
      tasks := Insert(tasks, task);
      return Ok(task);
    }

    /** `cancel_task`: delete the first task with the id and report whether
        there was one. */
    method CancelTask(taskId: Uuid) returns (found: bool)
      requires Valid()
      modifies this
      ensures Valid()
      ensures found == HasId(old(tasks), taskId)
      ensures tasks == RemoveFirst(old(tasks), taskId)
    {
      RemoveFirstSpec(tasks, taskId);
      var i := 0;
      while i < |tasks|
        invariant 0 <= i <= |tasks|
        invariant tasks == old(tasks)
        invariant forall k | 0 <= k < i :: tasks[k].id != taskId
      {
        if tasks[i].id == taskId {
          RemoveFirstAt(tasks, taskId, i);
          tasks := tasks[..i] + tasks[i + 1..];
          return true;
        }
        i := i + 1;
      }
      return false;
    }

    /** One turn of `wait_for_next_task` at clock value `now`: the head is
        removed and handed out once it is due; otherwise nothing changes and
        the waiter keeps sleeping. */
    method PopDue(now: Time) returns (r: Option<ATask>)
      requires Valid()
      modifies this
      ensures Valid()
      ensures old(tasks) != [] && old(tasks)[0].executionTime <= now ==>
        r == Some(old(tasks)[0]) && tasks == old(tasks)[1..]
      ensures !(old(tasks) != [] && old(tasks)[0].executionTime <= now) ==>
        r == None && tasks == old(tasks)
      ensures r.Some? ==> r.value.executionTime <= now &&
                          forall k | 0 <= k < |tasks| :: r.value.executionTime <= tasks[k].executionTime
    {
      if tasks != [] {
        var next := tasks[0];
        if next.executionTime <= now {
          tasks := tasks[1..];
          return Some(next);
        }
      }
      return None;
    }
  }

  /** The tasks `PopDue` hands out at clock value `now`, one turn after the
      other, until the head is in the future. */
  function DueTasks(s: seq<ATask>, now: Time): (r: seq<ATask>)
    ensures |r| <= |s| && r == s[..|r|]
    ensures forall k | 0 <= k < |r| :: r[k].executionTime <= now
    ensures |r| < |s| ==> s[|r|].executionTime > now
  {
    if s == [] || s[0].executionTime > now then [] else [s[0]] + DueTasks(s[1..], now)
  }

  /** On a sorted queue the due tasks are exactly the tasks whose time has come,
      and they leave in non-decreasing time order. */
  lemma {:induction false} DueTasksAreAllDue(s: seq<ATask>, now: Time)
    requires Sorted(s)
    ensures Sorted(DueTasks(s, now))
    ensures forall t | t in s :: t in DueTasks(s, now) <==> t.executionTime <= now
  {
    var r := DueTasks(s, now);
    forall t | t in s ensures t in r <==> t.executionTime <= now {
      var i :| 0 <= i < |s| && s[i] == t;
      if i >= |r| {
        assert s[|r|].executionTime <= s[i].executionTime;
      }
      if t in r {
        var j :| 0 <= j < |r| && r[j] == t;
      }
    }
  }
}

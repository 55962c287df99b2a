/** Levels of first-in first-out queues (include/scheduler/multi_queue_scheduler.hpp):
    removal from every level, the front of the first non-empty level, and the boost that
    appends all lower levels to the first. */
module MultiQueue {
  import opened Common
  import opened Tasks
  import opened Policies
  import opened SingleQueue

  type Queues = seq<seq<TaskId>>

  /** All queued tasks. */
  function AllQueued(queues: Queues): multiset<TaskId> {
    if queues == [] then multiset{}
    else AllQueued(queues[..|queues| - 1]) + multiset(queues[|queues| - 1])
  }

  lemma {:induction false} QueuedIn(queues: Queues, x: TaskId)
    ensures x in AllQueued(queues) <==> exists level :: 0 <= level < |queues| && x in queues[level]
  {
    if queues != [] {
      var n := |queues| - 1;
      QueuedIn(queues[..n], x);
      if exists level :: 0 <= level < |queues| && x in queues[level] {
        var level :| 0 <= level < |queues| && x in queues[level];
        assert level < n ==> x in queues[..n][level];
      }
    }
  }

  lemma {:induction false} QueuedAppend(queues: Queues, level: nat, id: TaskId)
    requires level < |queues|
    ensures AllQueued(queues[level := queues[level] + [id]]) == AllQueued(queues) + multiset{id}
  {
    var n := |queues| - 1;
    var r := queues[level := queues[level] + [id]];
    if level < n {
      assert r[..n] == queues[..n][level := queues[..n][level] + [id]];
      QueuedAppend(queues[..n], level, id);
    } else {
      assert r[..n] == queues[..n];
    }
  }

  /** Every level without id. */
  function DropAll(queues: Queues, id: TaskId): (r: Queues)
    ensures |r| == |queues| && forall level :: 0 <= level < |r| ==> r[level] == Drop(queues[level], id)
  {
    if queues == [] then []
    else DropAll(queues[..|queues| - 1], id) + [Drop(queues[|queues| - 1], id)]
  }

  lemma {:induction false} QueuedDrop(queues: Queues, id: TaskId)
    ensures AllQueued(DropAll(queues, id)) == AllQueued(queues)[id := 0]
  {
    if queues != [] {
      var n := |queues| - 1;
      assert DropAll(queues, id)[..n] == DropAll(queues[..n], id);
      QueuedDrop(queues[..n], id);
      DropCounts(queues[n], id);
    }
  }

  /** The first level below n that holds a task, or n. */
  function FirstLevel(queues: Queues, n: nat): (level: nat)
    requires n <= |queues|
    ensures level <= n && (level < n ==> queues[level] != [])
    ensures forall k :: 0 <= k < level ==> queues[k] == []
  {
    if n == 0 then 0
    else
      var level := FirstLevel(queues, n - 1);
      if level < n - 1 || queues[n - 1] != [] then level else n
  }

  function Best(queues: Queues): Option<TaskId> {
    var level := FirstLevel(queues, |queues|);
    if level < |queues| then Some(queues[level][0]) else None
  }

  /** The tasks of levels 1 to n - 1, level by level. */
  function Lower(queues: Queues, n: nat): seq<TaskId>
    requires n <= |queues|
  {
    if n <= 1 then [] else Lower(queues, n - 1) + queues[n - 1]
  }

  /** All lower levels moved behind the first. */
  function Boosted(queues: Queues): (r: Queues)
    requires queues != []
    ensures |r| == |queues|
  {
    [queues[0] + Lower(queues, |queues|)] + Empties(|queues| - 1)
  }

  function Empties(n: nat): (r: Queues)
    ensures |r| == n && forall k :: 0 <= k < n ==> r[k] == []
  {
    if n == 0 then [] else Empties(n - 1) + [[]]
  }

  lemma {:induction false} QueuedEmpties(first: seq<TaskId>, n: nat)
    ensures AllQueued([first] + Empties(n)) == multiset(first)
  {
    var r := [first] + Empties(n);
    if n == 0 {
      assert r[..0] == [] && r[0] == first;
    } else {
      assert r[..n] == [first] + Empties(n - 1);
      QueuedEmpties(first, n - 1);
    }
  }

  lemma {:induction false} LowerCounts(queues: Queues, n: nat)
    requires 1 <= n <= |queues|
    ensures AllQueued(queues[..n]) == multiset(queues[0] + Lower(queues, n))
  {
    var all := queues[..n];
    assert all[..n - 1] == queues[..n - 1] && all[n - 1] == queues[n - 1];
    if n == 1 {
      LowerOfOne(queues);
    } else {
      LowerCounts(queues, n - 1);
      var upper := queues[0] + Lower(queues, n - 1);
      assert queues[0] + Lower(queues, n) == upper + queues[n - 1];
    }
  }

  lemma LowerOfOne(queues: Queues)
    requires queues != []
    ensures AllQueued(queues[..1]) == multiset(queues[0] + Lower(queues, 1))
  {
    assert queues[..1][..0] == [] && queues[0] + Lower(queues, 1) == queues[0];
  }

  /** A boost loses and duplicates nobody. */
  lemma BoostKeepsTasks(queues: Queues)
    requires queues != []
    ensures AllQueued(Boosted(queues)) == AllQueued(queues)
  {
    LowerCounts(queues, |queues|);
    assert queues[..|queues|] == queues;
    QueuedEmpties(queues[0] + Lower(queues, |queues|), |queues| - 1);
  }

  /** All tasks of the first n levels, level by level. */
  function Joined(queues: Queues, n: nat): seq<TaskId>
    requires n <= |queues|
  {
    if n == 0 then [] else Joined(queues, n - 1) + queues[n - 1]
  }

  lemma {:induction false} JoinedBoosted(queues: Queues, n: nat)
    requires 1 <= n <= |queues|
    ensures Joined(Boosted(queues), n) == queues[0] + Lower(queues, |queues|)
  {
    if n == 1 {
      assert Joined(Boosted(queues), 1) == [] + Boosted(queues)[0];
    } else {
      JoinedBoosted(queues, n - 1);
    }
  }

  lemma {:induction false} JoinedIsLower(queues: Queues, n: nat)
    requires 1 <= n <= |queues|
    ensures Joined(queues, n) == queues[0] + Lower(queues, n)
  {
    if n == 1 {
      assert Joined(queues, 1) == [] + queues[0];
    } else {
      JoinedIsLower(queues, n - 1);
      var upper := queues[0] + Lower(queues, n - 1);
      assert queues[0] + Lower(queues, n) == upper + queues[n - 1];
    }
  }

  /** How many places are ahead of the first occurrence of w. */
  function Ahead(q: seq<TaskId>, w: TaskId): (n: nat)
    ensures n <= |q| && (w in q ==> n < |q|)
  {
    if q == [] then 0
    else
      var n := |q| - 1;
      if w in q[..n] then Ahead(q[..n], w) else n
  }

  lemma {:induction false} AheadAppend(q: seq<TaskId>, more: seq<TaskId>, w: TaskId)
    requires w in q
    ensures Ahead(q + more, w) == Ahead(q, w)
  {
    if more == [] {
      assert q + more == q;
    } else {
      var n := |more| - 1;
      assert (q + more)[..|q| + n] == q + more[..n];
      AheadAppend(q, more[..n], w);
    }
  }

  lemma {:induction false} DropShortens(q: seq<TaskId>, x: TaskId)
    ensures |Drop(q, x)| <= |q| && (x in q ==> |Drop(q, x)| < |q|)
  {
    if q != [] {
      DropShortens(q[..|q| - 1], x);
    }
  }

  /** Removing another task moves w no further back, and forward if it was at the front. */
  lemma {:induction false} AheadDrop(q: seq<TaskId>, x: TaskId, w: TaskId)
    requires w in q && x != w
    ensures Ahead(Drop(q, x), w) <= Ahead(q, w)
    ensures q[0] == x ==> Ahead(Drop(q, x), w) < Ahead(q, w)
  {
    var n := |q| - 1;
    if w in q[..n] {
      AheadDrop(q[..n], x, w);
      assert w in Drop(q[..n], x);
      if q[n] != x {
        AheadAppend(Drop(q[..n], x), [q[n]], w);
      }
    } else {
      DropShortens(q[..n], x);
      assert q[n] == w && w !in Drop(q[..n], x);
      assert Drop(q, x)[..|Drop(q[..n], x)|] == Drop(q[..n], x);
      assert n > 0 && q[0] == x ==> q[..n][0] == x;
    }
  }

  // ------------------------------------------------ fields of many tasks

  function WithLevelZero(attrs: Attrs, ids: seq<TaskId>): Attrs {
    if ids == [] then attrs
    else
      var n := |ids| - 1;
      var rest := WithLevelZero(attrs, ids[..n]);
      rest[ids[n] := AttrOf(rest, ids[n]).(level := 0)]
  }

  function WithAllotment(attrs: Attrs, ids: seq<TaskId>, allotment: real): Attrs {
    if ids == [] then attrs
    else
      var n := |ids| - 1;
      var rest := WithAllotment(attrs, ids[..n], allotment);
      rest[ids[n] := AttrOf(rest, ids[n]).(allotment := allotment)]
  }

  lemma {:induction false} LevelZeroAt(attrs: Attrs, ids: seq<TaskId>, x: TaskId)
    ensures AttrOf(WithLevelZero(attrs, ids), x)
         == if x in ids then AttrOf(attrs, x).(level := 0) else AttrOf(attrs, x)
  {
    if ids != [] {
      var n := |ids| - 1;
      assert ids == ids[..n] + [ids[n]];
      LevelZeroAt(attrs, ids[..n], x);
    }
  }

  lemma {:induction false} AllotmentAt(attrs: Attrs, ids: seq<TaskId>, allotment: real, x: TaskId)
    ensures AttrOf(WithAllotment(attrs, ids, allotment), x)
         == if x in ids then AttrOf(attrs, x).(allotment := allotment) else AttrOf(attrs, x)
  {
    if ids != [] {
      var n := |ids| - 1;
      assert ids == ids[..n] + [ids[n]];
      AllotmentAt(attrs, ids[..n], allotment, x);
    }
  }

  lemma {:induction false} LevelZeroAppend(attrs: Attrs, a: seq<TaskId>, b: seq<TaskId>)
    ensures WithLevelZero(attrs, a + b) == WithLevelZero(WithLevelZero(attrs, a), b)
  {
    if b == [] {
      assert a + b == a;
    } else {
      var n := |b| - 1;
      assert (a + b)[..|a| + n] == a + b[..n];
      LevelZeroAppend(attrs, a, b[..n]);
    }
  }

  lemma {:induction false} AllotmentAppend(attrs: Attrs, a: seq<TaskId>, b: seq<TaskId>, allotment: real)
    ensures WithAllotment(attrs, a + b, allotment) == WithAllotment(WithAllotment(attrs, a, allotment), b, allotment)
  {
    if b == [] {
      assert a + b == a;
    } else {
      var n := |b| - 1;
      assert (a + b)[..|a| + n] == a + b[..n];
      AllotmentAppend(attrs, a, b[..n], allotment);
    }
  }

  // ------------------------------------------------ the queues object

  class LevelQueues {
    var queues: Queues

    constructor (levels: nat)
      ensures queues == Empties(levels)
    {
      queues := Empties(levels);
    }

    method Append(level: nat, id: TaskId)
      requires level < |queues|
      modifies this
      ensures queues == old(queues)[level := old(queues)[level] + [id]]
    {
      queues := queues[level := queues[level] + [id]];
    }

    method RemoveTask(id: TaskId)
      modifies this
      ensures queues == DropAll(old(queues), id)
    {
      var level := 0;
      while level < |queues|
        invariant 0 <= level <= |queues| == |old(queues)|
        invariant forall k :: 0 <= k < |queues| ==>
                    queues[k] == if k < level then Drop(old(queues)[k], id) else old(queues)[k]
      {
        var kept := EraseFrom(queues[level], id);
        queues := queues[level := kept];
        level := level + 1;
      }
      assert queues == DropAll(old(queues), id);
    }

    method EraseFrom(queue: seq<TaskId>, id: TaskId) returns (kept: seq<TaskId>)
      ensures kept == Drop(queue, id)
    {
      kept := [];
      for i := 0 to |queue|
        invariant kept == Drop(queue[..i], id)
      {
        assert queue[..i + 1][..i] == queue[..i];
        if queue[i] != id {
          kept := kept + [queue[i]];
        }
      }
      assert queue[..|queue|] == queue;
    }

    method ReadyCount() returns (count: nat)
      ensures count == |AllQueued(queues)|
    {
      count := 0;
      for level := 0 to |queues|
        invariant count == |AllQueued(queues[..level])|
      {
        assert queues[..level + 1][..level] == queues[..level];
        count := count + |queues[level]|;
      }
      assert queues[..|queues|] == queues;
    }

    method FindBest() returns (best: Option<TaskId>)
      ensures best == Best(queues)
    {
      var level := 0;
      while level < |queues|
        invariant 0 <= level <= |queues|
        invariant forall k :: 0 <= k < level ==> queues[k] == []
      {
        if queues[level] != [] {
          return Some(queues[level][0]);
        }
        level := level + 1;
      }
      best := None;
    }

    /** boost_all: level 0 for the tasks of the lower queues, which move behind queue 0. */
    method BoostAll(tasks: TaskFields)
      requires queues != []
      modifies this, tasks
      ensures queues == Boosted(old(queues))
      ensures tasks.attrs == WithLevelZero(old(tasks.attrs), Lower(old(queues), |old(queues)|))
    {
      var all: seq<TaskId> := [];
      var level := 1;
      while level < |queues|
        invariant 1 <= level <= |queues| == |old(queues)|
        invariant all == Lower(old(queues), level)
        invariant tasks.attrs == WithLevelZero(old(tasks.attrs), all)
        invariant forall k :: 0 <= k < |queues| ==>
                    queues[k] == if 1 <= k < level then [] else old(queues)[k]
      {
        SetLevelZero(tasks, queues[level]);
        LevelZeroAppend(old(tasks.attrs), all, queues[level]);
        all := all + queues[level];
        queues := queues[level := []];
        level := level + 1;
      }
      queues := queues[0 := queues[0] + all];
      assert queues == Boosted(old(queues));
    }

    method SetLevelZero(tasks: TaskFields, ids: seq<TaskId>)
      modifies tasks
      ensures tasks.attrs == WithLevelZero(old(tasks.attrs), ids)
    {
      for i := 0 to |ids|
        invariant tasks.attrs == WithLevelZero(old(tasks.attrs), ids[..i])
      {
        assert ids[..i + 1][..i] == ids[..i];
        tasks.attrs := tasks.attrs[ids[i] := AttrOf(tasks.attrs, ids[i]).(level := 0)];
      }
      assert ids[..|ids|] == ids;
    }

    /** The allotment of every queued task. */
    method SetAllotments(tasks: TaskFields, allotment: real)
      modifies tasks
      ensures tasks.attrs == WithAllotment(old(tasks.attrs), Joined(queues, |queues|), allotment)
    {
      for level := 0 to |queues|
        invariant tasks.attrs == WithAllotment(old(tasks.attrs), Joined(queues, level), allotment)
      {
        ghost var before := tasks.attrs;
        for i := 0 to |queues[level]|
          invariant tasks.attrs == WithAllotment(before, queues[level][..i], allotment)
        {
          assert queues[level][..i + 1][..i] == queues[level][..i];
          var id := queues[level][i];
          tasks.attrs := tasks.attrs[id := AttrOf(tasks.attrs, id).(allotment := allotment)];
        }
        assert queues[level][..|queues[level]|] == queues[level];
        AllotmentAppend(old(tasks.attrs), Joined(queues, level), queues[level], allotment);
      }
    }
  }
}

/** The ready vector of the single-queue schedulers
    (include/scheduler/single_queue_scheduler.hpp): insertion at the back, removal by
    identifier, and the choice of the best task by a comparator. */
module SingleQueue {
  import opened Common
  import opened Tasks
  import opened Policies

  /** What remains when every occurrence of id is erased. */
  function Drop(q: seq<TaskId>, id: TaskId): (r: seq<TaskId>)
    ensures forall x :: x in r <==> x in q && x != id
  {
    if q == [] then []
    else
      var n := |q| - 1;
      if q[n] == id then Drop(q[..n], id) else Drop(q[..n], id) + [q[n]]
  }

  lemma {:induction false} DropCounts(q: seq<TaskId>, id: TaskId)
    ensures multiset(Drop(q, id)) == multiset(q)[id := 0]
  {
    if q != [] {
      var n := |q| - 1;
      assert q == q[..n] + [q[n]];
      DropCounts(q[..n], id);
    }
  }

  /** A queue without repetition is no longer than the set it is from. */
  lemma {:induction false} DistinctFit(q: seq<TaskId>, ids: set<TaskId>)
    requires forall x :: multiset(q)[x] <= 1
    requires forall x :: x in q ==> x in ids
    ensures |q| <= |ids|
  {
    if q != [] {
      var n := |q| - 1;
      assert q == q[..n] + [q[n]];
      assert multiset(q) == multiset(q[..n]) + multiset{q[n]} && multiset(q)[q[n]] <= 1;
      forall x
        ensures multiset(q[..n])[x] <= 1
        ensures x in q[..n] ==> x in q && x != q[n]
      {
        assert multiset(q)[x] <= 1;
        assert x in q[..n] ==> x in multiset(q[..n]);
      }
      DistinctFit(q[..n], ids - {q[n]});
    }
  }

  type Comparator = (TaskId, TaskId) -> bool

  /** A left-to-right scan that keeps the current best unless the next task beats it. */
  function MinElement(less: Comparator, q: seq<TaskId>): (best: TaskId)
    requires q != []
    ensures best in q
  {
    var n := |q| - 1;
    if n == 0 then q[0]
    else
      var best := MinElement(less, q[..n]);
      if less(q[n], best) then q[n] else best
  }

  /** What std::min_element asks of its comparator. */
  ghost predicate StrictWeak(less: Comparator, q: seq<TaskId>) {
    && (forall x, y :: x in q && y in q && less(x, y) ==> !less(y, x))
    && (forall x, y, z :: x in q && y in q && z in q && !less(x, y) && !less(y, z) ==> !less(x, z))
  }

  /** With a strict weak order nothing beats the element found. */
  lemma {:induction false} MinElementLeast(less: Comparator, q: seq<TaskId>, x: TaskId)
    requires q != [] && x in q && StrictWeak(less, q)
    ensures !less(x, MinElement(less, q))
  {
    var n := |q| - 1;
    assert q == q[..n] + [q[n]];
    if n > 0 {
      var best := MinElement(less, q[..n]);
      if x in q[..n] {
        MinElementLeast(less, q[..n], x);
        assert less(q[n], best) ==> !less(best, q[n]);
      }
    }
  }

  function TotalWeight(attrs: Attrs, q: seq<TaskId>): (w: nat)
    ensures w >= |q|
  {
    if q == [] then 0 else TotalWeight(attrs, q[..|q| - 1]) + AttrOf(attrs, q[|q| - 1]).weight
  }

  /** The weight of a list is that of its parts, and of one task its own. */
  lemma {:induction false} TotalWeightAdds(attrs: Attrs, a: seq<TaskId>, b: seq<TaskId>, x: TaskId)
    ensures TotalWeight(attrs, a + b) == TotalWeight(attrs, a) + TotalWeight(attrs, b)
    ensures TotalWeight(attrs, [x]) == AttrOf(attrs, x).weight
  {
    if b == [] {
      assert a + b == a;
    } else {
      var n := |b| - 1;
      TotalWeightAdds(attrs, a, b[..n], x);
      assert (a + b)[..|a + b| - 1] == a + b[..n];
    }
  }

  lemma {:induction false} DropOther(q: seq<TaskId>, x: TaskId)
    requires x !in q
    ensures Drop(q, x) == q
  {
    if q != [] {
      assert q == q[..|q| - 1] + [q[|q| - 1]];
      DropOther(q[..|q| - 1], x);
    }
  }

  /** Taking the only x off takes its weight off. */
  lemma {:induction false} DropWeighs(attrs: Attrs, q: seq<TaskId>, x: TaskId)
    requires multiset(q)[x] == 1
    ensures |Drop(q, x)| + 1 == |q|
    ensures TotalWeight(attrs, Drop(q, x)) + AttrOf(attrs, x).weight == TotalWeight(attrs, q)
  {
    var n := |q| - 1;
    assert q == q[..n] + [q[n]];
    if q[n] == x {
      assert multiset(q[..n])[x] == 0;
      DropOther(q[..n], x);
    } else {
      DropWeighs(attrs, q[..n], x);
      TotalWeightAdds(attrs, Drop(q[..n], x), [q[n]], q[n]);
    }
  }

  lemma {:induction false} SameTotal(a: Attrs, b: Attrs, q: seq<TaskId>)
    requires forall x :: SameWeight(a, b, x)
    ensures TotalWeight(b, q) == TotalWeight(a, q)
  {
    if q != [] {
      SameTotal(a, b, q[..|q| - 1]);
      assert SameWeight(a, b, q[|q| - 1]);
    }
  }

  /** The vector itself. */
  class ReadyQueue {
    var tasks: seq<TaskId>

    constructor ()
      ensures tasks == []
    {
      tasks := [];
    }

    method AddTask(id: TaskId)
      modifies this
      ensures tasks == old(tasks) + [id]
    {
      tasks := tasks + [id];
    }

    /** Kept tasks move forward over erased ones. */
    method RemoveTask(id: TaskId)
      modifies this
      ensures tasks == Drop(old(tasks), id)
    {
      var kept: seq<TaskId> := [];
      var i := 0;
      while i < |tasks|
        invariant 0 <= i <= |tasks| && tasks == old(tasks)
        invariant kept == Drop(tasks[..i], id)
      {
        assert tasks[..i + 1][..i] == tasks[..i];
        if tasks[i] != id {
          kept := kept + [tasks[i]];
        }
        i := i + 1;
      }
      assert tasks[..i] == tasks;
      tasks := kept;
    }

    method FindBest(less: Comparator) returns (best: Option<TaskId>)
      ensures best == if tasks == [] then None else Some(MinElement(less, tasks))
    {
      if tasks == [] {
        return None;
      }
      var least := tasks[0];
      var i := 1;
      while i < |tasks|
        invariant 1 <= i <= |tasks| && least == MinElement(less, tasks[..i])
      {
        assert tasks[..i + 1][..i] == tasks[..i];
        if less(tasks[i], least) {
          least := tasks[i];
        }
        i := i + 1;
      }
      assert tasks[..i] == tasks;
      best := Some(least);
    }
  }
}

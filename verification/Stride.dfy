/** Stride scheduling (include/schedulers/stride_scheduler.hpp): the ready task with the
    smallest pass runs, and its pass advances by its stride times the used fraction of the
    quantum, at least 1. */
module Stride {
  import opened Common
  import opened Tasks
  import opened Policies
  import opened SingleQueue

  datatype Params = Params(quantum: real, constant: nat) {
    predicate Valid() {
      quantum > 0.0
    }
  }

  datatype Sched = Sched(queue: seq<TaskId>, globalPass: nat)

  function StrideFor(params: Params, weight: Weight): (stride: nat)
    ensures stride >= 1
  {
    var exact := params.constant / weight;
    if exact < 1 then 1 else exact
  }

  /** stride is k over weight, rounded down, and not 0. */
  predicate IsRounded(k: nat, weight: nat, stride: nat) {
    0 < weight <= k && k - weight < stride * weight <= k
  }

  /** The stride is the constant over the weight, rounded down, and 1 for weights above the
      constant. */
  predicate IsStride(params: Params, weight: nat, stride: nat) {
    if weight <= params.constant then IsRounded(params.constant, weight, stride) else stride == 1
  }

  lemma Rounded(n: nat, w: nat)
    requires w > 0
    ensures n - w < n / w * w <= n
    ensures w <= n ==> n / w >= 1
    ensures w > n ==> n / w == 0
  {
    assert n == n / w * w + n % w;
    if n / w == 0 {
      assert n / w * w == 0;
    } else {
      assert n / w * w >= w;
    }
  }

  lemma StrideMeans(params: Params, weight: Weight)
    ensures IsStride(params, weight, StrideFor(params, weight))
  {
    Rounded(params.constant, weight);
  }

  lemma ProductGrows(a: nat, b: nat, v: nat, w: nat)
    requires a <= b && v <= w
    ensures a * v <= b * w
  {
    assert b * w == a * v + a * (w - v) + (b - a) * w;
  }

  /** A heavier task never has a larger stride. */
  lemma HeavierStride(params: Params, v: Weight, w: Weight)
    requires v <= w
    ensures StrideFor(params, w) <= StrideFor(params, v)
  {
    hide StrideFor;
    StrideMeans(params, v);
    StrideMeans(params, w);
    var a, b := StrideFor(params, v), StrideFor(params, w);
    if w <= params.constant && a < b {
      assert (a + 1) * v == a * v + v;
      ProductGrows(a + 1, b, v, w);
    }
  }

  /** The part of the stride used. */
  function UsedStride(stride: nat, cpu: real, quantum: real): real
    requires quantum > 0.0
  {
    stride as real * (cpu / quantum)
  }

  /** How far a pass moves for cpu time; the conversion to unsigned truncates. */
  function Advance(params: Params, stride: nat, cpu: real): (n: nat)
    requires params.Valid()
    ensures n >= 1
    ensures stride >= 1 && 0.0 <= cpu <= params.quantum ==> n <= stride
    ensures stride >= 1 && cpu == params.quantum ==> n == stride
  {
    var exact := UsedStride(stride, cpu, params.quantum);
    FractionBound(stride, cpu, params.quantum);
    if exact < 1.0 then 1 else exact.Floor
  }

  /** A pass moves by the part of the stride used, rounded down, but by 1 at least. */
  lemma AdvanceMeans(params: Params, stride: nat, cpu: real)
    requires params.Valid() && cpu >= 0.0
    ensures IsTruncated(stride as real * cpu, params.quantum, Advance(params, stride, cpu))
  {
    hide IsTruncated, UsedStride;
    Exactly(stride, cpu, params.quantum);
    Truncated(UsedStride(stride, cpu, params.quantum), stride as real * cpu, params.quantum);
  }

  /** n is the whole number of times q is in used, but at least 1. */
  predicate IsTruncated(used: real, q: real, n: nat) {
    if used < q then n == 1 else n as real * q <= used < (n + 1) as real * q
  }

  lemma Truncated(exact: real, used: real, q: real)
    requires q > 0.0 && exact * q == used && exact >= 0.0
    ensures IsTruncated(used, q, if exact < 1.0 then 1 else exact.Floor)
  {
    if exact >= 1.0 {
      var n := exact.Floor;
      assert n as real <= exact < (n + 1) as real;
      Times(n as real, exact, (n + 1) as real, q);
      Times(1.0, exact, exact + 1.0, q);
    } else {
      Times(exact, exact, 1.0, q);
    }
  }

  lemma Exactly(stride: nat, cpu: real, quantum: real)
    requires quantum > 0.0
    ensures UsedStride(stride, cpu, quantum) * quantum == stride as real * cpu
    ensures cpu >= 0.0 ==> UsedStride(stride, cpu, quantum) >= 0.0
  {
    var f := cpu / quantum;
    assert f * quantum == cpu;
  }

  lemma Times(a: real, b: real, c: real, q: real)
    requires a <= b < c && q > 0.0
    ensures a * q <= b * q < c * q
  {
    assert (b - a) * q >= 0.0 && (c - b) * q > 0.0;
  }

  lemma FractionBound(stride: nat, cpu: real, quantum: real)
    requires quantum > 0.0
    ensures cpu <= quantum ==> UsedStride(stride, cpu, quantum) <= stride as real
    ensures cpu == quantum ==> UsedStride(stride, cpu, quantum) == stride as real
  {
    var f := cpu / quantum;
    assert cpu == f * quantum;
    if cpu <= quantum {
      assert (f - 1.0) * quantum <= 0.0;
      assert stride as real * f <= stride as real * 1.0;
    }
  }

  function Pass(attrs: Attrs, id: TaskId): nat {
    AttrOf(attrs, id).pass
  }

  function Add(params: Params, s: Sched, attrs: Attrs, id: TaskId, unstarted: bool): (Sched, Attrs) {
    var a := AttrOf(attrs, id);
    var pass := if unstarted || a.pass < s.globalPass then s.globalPass else a.pass;
    (s.(queue := s.queue + [id]),
     attrs[id := a.(stride := StrideFor(params, a.weight), pass := pass)])
  }

  predicate Before(attrs: Attrs, a: TaskId, b: TaskId) {
    var x, y := AttrOf(attrs, a), AttrOf(attrs, b);
    if x.pass != y.pass then x.pass < y.pass
    else if x.stride != y.stride then x.stride < y.stride
    else a < b
  }

  function Less(attrs: Attrs): Comparator {
    (a: TaskId, b: TaskId) => Before(attrs, a, b)
  }

  function Choice(params: Params, s: Sched, attrs: Attrs): Option<Decision> {
    if s.queue == [] then None else Some(Decision(MinElement(Less(attrs), s.queue), params.quantum))
  }

  function MinPass(attrs: Attrs, q: seq<TaskId>): nat
    requires q != []
  {
    var n := |q| - 1;
    if n == 0 then Pass(attrs, q[0])
    else
      var m := MinPass(attrs, q[..n]);
      if Pass(attrs, q[n]) < m then Pass(attrs, q[n]) else m
  }

  lemma {:induction false} MinPassLeast(attrs: Attrs, q: seq<TaskId>)
    requires q != []
    ensures forall x :: x in q ==> MinPass(attrs, q) <= Pass(attrs, x)
    ensures exists x :: x in q && MinPass(attrs, q) == Pass(attrs, x)
  {
    var n := |q| - 1;
    assert q == q[..n] + [q[n]];
    if n > 0 {
      MinPassLeast(attrs, q[..n]);
    }
  }

  /** update_global_pass. */
  function Updated(attrs: Attrs, s: Sched): Sched {
    if s.queue == [] then s
    else
      var m := MinPass(attrs, s.queue);
      s.(globalPass := if s.globalPass < m then m else s.globalPass)
  }

  function Charge(params: Params, s: Sched, attrs: Attrs, id: TaskId, cpu: real): (Sched, Attrs)
    requires params.Valid()
  {
    var a := AttrOf(attrs, id);
    var attrs1 := attrs[id := a.(pass := a.pass + Advance(params, a.stride, cpu))];
    (Updated(attrs1, s), attrs1)
  }

  function Table(params: Params): Policy<Sched>
    requires params.Valid()
  {
    Policy(
      params.quantum,
      _ => true,
      (s: Sched) => multiset(s.queue),
      (s: Sched, attrs: Attrs, id: TaskId, unstarted: bool) => Add(params, s, attrs, id, unstarted),
      (s: Sched, id: TaskId) => s.(queue := Drop(s.queue, id)),
      (s: Sched, attrs: Attrs) => Choice(params, s, attrs),
      (s: Sched, attrs: Attrs, id: TaskId, cpu: real) => Charge(params, s, attrs, id, cpu),
      (_, _, _, _) => false)
  }

  /** What the engines ask of a scheduler. */
  lemma TableIsLawful(params: Params)
    requires params.Valid()
    ensures Lawful(Table(params)) && Fresh(Table(params), Sched([], 0))
  {
    hide Add, Charge;
    var p := Table(params);
    forall s: Sched, attrs, id, unstarted
      ensures Yields(p, p.add(s, attrs, id, unstarted).0, p.ready(s) + multiset{id})
    {
      AddFacts(params, s, attrs, id, unstarted);
    }
    forall s: Sched, attrs, id, cpu
      ensures Yields(p, p.charge(s, attrs, id, cpu).0, p.ready(s))
    {
      ChargeFacts(params, s, attrs, id, cpu);
    }
    forall s: Sched, id
      ensures Yields(p, p.remove(s, id), p.ready(s)[id := 0])
    {
      DropCounts(s.queue, id);
    }
  }

  lemma TableIsLocal(params: Params)
    requires params.Valid()
    ensures Local(Table(params))
  {
    hide Add, Charge;
    var p := Table(params);
    forall s: Sched, attrs, id, unstarted
      ensures Touches(p, s, id, attrs, p.add(s, attrs, id, unstarted).1)
    {
      AddFacts(params, s, attrs, id, unstarted);
    }
    forall s: Sched, attrs, id, cpu
      ensures Touches(p, s, id, attrs, p.charge(s, attrs, id, cpu).1)
    {
      ChargeFacts(params, s, attrs, id, cpu);
    }
  }

  lemma AddFacts(params: Params, s: Sched, attrs: Attrs, id: TaskId, unstarted: bool)
    ensures var (s', attrs') := Add(params, s, attrs, id, unstarted);
            && s'.queue == s.queue + [id] && s'.globalPass == s.globalPass
            && AttrOf(attrs', id).weight == AttrOf(attrs, id).weight
            && AttrOf(attrs', id).stride == StrideFor(params, AttrOf(attrs, id).weight)
            && Pass(attrs', id) >= s.globalPass
            && (unstarted ==> Pass(attrs', id) == s.globalPass)
            && (!unstarted ==> Pass(attrs', id) == if Pass(attrs, id) < s.globalPass then s.globalPass else Pass(attrs, id))
            && (forall x :: x != id ==> AttrOf(attrs', x) == AttrOf(attrs, x))
  {
    hide StrideFor;
  }

  lemma ChargeFacts(params: Params, s: Sched, attrs: Attrs, id: TaskId, cpu: real)
    requires params.Valid()
    ensures var (s', attrs') := Charge(params, s, attrs, id, cpu);
            && s'.queue == s.queue
            && AttrOf(attrs', id) == AttrOf(attrs, id).(pass := Pass(attrs, id) + Advance(params, AttrOf(attrs, id).stride, cpu))
            && (forall x :: x != id ==> AttrOf(attrs', x) == AttrOf(attrs, x))
            && s' == Updated(attrs', s)
  {
    hide Advance;
  }

  /** The task chosen has the smallest pass, of those the smallest stride, and of those the
      smallest identifier. */
  lemma ChoosesLeastPass(params: Params, s: Sched, attrs: Attrs, x: TaskId)
    requires x in s.queue
    ensures Choice(params, s, attrs).Some? && Choice(params, s, attrs).value.id in s.queue
    ensures var id := Choice(params, s, attrs).value.id;
            var a, b := AttrOf(attrs, id), AttrOf(attrs, x);
            && Pass(attrs, id) <= Pass(attrs, x)
            && (a.pass == b.pass ==> a.stride <= b.stride)
            && (a.pass == b.pass && a.stride == b.stride ==> id <= x)
  {
    MinElementLeast(Less(attrs), s.queue, x);
  }

  /** A charge leaves the global pass where it was or raises it to the least pass of the ready
      tasks, and then none is behind it; some ready task is not ahead of it. */
  lemma GlobalPassFollows(params: Params, s: Sched, attrs: Attrs, id: TaskId, cpu: real)
    requires params.Valid() && s.queue != []
    ensures var (s', attrs') := Charge(params, s, attrs, id, cpu);
            && s'.globalPass >= s.globalPass
            && (exists x :: x in s.queue && Pass(attrs', x) <= s'.globalPass)
            && (s'.globalPass == s.globalPass || forall x :: x in s.queue ==> s'.globalPass <= Pass(attrs', x))
  {
    hide MinPass, Advance;
    MinPassLeast(Charge(params, s, attrs, id, cpu).1, s.queue);
  }

  // ------------------------------------------------ the scheduler object

  class StrideScheduler {
    const params: Params
    const ready: ReadyQueue
    var globalPass: nat

    ghost predicate Valid()
      reads this, ready
    {
      params.Valid()
    }

    ghost function State(): Sched
      reads this, ready
    {
      Sched(ready.tasks, globalPass)
    }

    constructor (params: Params)
      requires params.Valid()
      ensures Valid() && this.params == params && fresh(ready) && State() == Sched([], 0)
    {
      this.params := params;
      ready := new ReadyQueue();
      globalPass := 0;
    }

    method AddTask(tasks: TaskFields, id: TaskId, unstarted: bool)
      requires Valid()
      modifies ready, tasks
      ensures (State(), tasks.attrs) == old(Add(params, State(), tasks.attrs, id, unstarted))
      ensures IsStride(params, AttrOf(old(tasks.attrs), id).weight, AttrOf(tasks.attrs, id).stride)
    {
      hide StrideFor, IsStride;
      var a := AttrOf(tasks.attrs, id);
      StrideMeans(params, a.weight);
      a := a.(stride := StrideFor(params, a.weight));
      if unstarted {
        a := a.(pass := globalPass);
      } else if a.pass < globalPass {
        a := a.(pass := globalPass);
      }
      tasks.attrs := tasks.attrs[id := a];
      ready.AddTask(id);
    }

    method RemoveTask(id: TaskId)
      modifies ready
      ensures State() == old(State()).(queue := Drop(old(ready.tasks), id))
    {
      ready.RemoveTask(id);
    }

    method Schedule(tasks: TaskFields) returns (d: Option<Decision>)
      ensures d == Choice(params, State(), tasks.attrs)
    {
      var best := ready.FindBest(Less(tasks.attrs));
      d := if best.None? then None else Some(Decision(best.value, params.quantum));
    }

    method OnCpuUsed(tasks: TaskFields, id: TaskId, cpu: real)
      requires Valid()
      modifies this`globalPass, tasks
      ensures (State(), tasks.attrs) == old(Charge(params, State(), tasks.attrs, id, cpu))
    {
      var a := AttrOf(tasks.attrs, id);
      tasks.attrs := tasks.attrs[id := a.(pass := a.pass + Advance(params, a.stride, cpu))];
      UpdateGlobalPass(tasks);
    }

    /** Stride scheduling preempts nobody on arrival. */
    method ShouldPreempt(tasks: TaskFields, id: TaskId, running: Option<TaskId>) returns (yes: bool)
      requires Valid()
      ensures yes <==> running.None? || Table(params).preempts(State(), tasks.attrs, id, running.value)
    {
      yes := running.None?;
    }

    method UpdateGlobalPass(tasks: TaskFields)
      modifies this`globalPass
      ensures State() == old(Updated(tasks.attrs, State()))
    {
      var least: Option<nat> := None;
      var i := 0;
      while i < |ready.tasks|
        invariant 0 <= i <= |ready.tasks|
        invariant if i == 0 then least.None? else least == Some(MinPass(tasks.attrs, ready.tasks[..i]))
      {
        assert ready.tasks[..i + 1][..i] == ready.tasks[..i];
        var pass := Pass(tasks.attrs, ready.tasks[i]);
        if least.None? || pass < least.value {
          least := Some(pass);
        }
        i := i + 1;
      }
      assert ready.tasks[..i] == ready.tasks;
      if least.Some? && globalPass < least.value {
        globalPass := least.value;
      }
    }
  }
}

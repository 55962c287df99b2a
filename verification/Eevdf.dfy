/** Earliest eligible virtual deadline first (include/schedulers/eevdf_scheduler.hpp): among
    the ready tasks whose eligible time has come, the earliest deadline runs; virtual time
    advances by the used CPU time over the total ready weight. */
module Eevdf {
  import opened Common
  import opened Tasks
  import opened Policies
  import opened SingleQueue

  datatype Params = Params(baseSlice: real, minSlice: real) {
    predicate Valid() {
      baseSlice > 0.0 && minSlice > 0.0
    }
  }

  datatype Sched = Sched(queue: seq<TaskId>, virtualTime: real)

  function Request(params: Params, weight: Weight): (r: real)
    requires params.Valid()
    ensures r > 0.0
  {
    Scaled(params.baseSlice, weight as real)
  }

  function SliceFor(params: Params, weight: Weight): (r: real)
    requires params.Valid()
    ensures r >= params.minSlice
  {
    Max(params.baseSlice * weight as real / NICE_0_LOAD, params.minSlice)
  }

  function Add(params: Params, s: Sched, attrs: Attrs, id: TaskId, unstarted: bool): (Sched, Attrs)
    requires params.Valid()
  {
    var a := AttrOf(attrs, id);
    var eligible := if unstarted then s.virtualTime else Max(a.eligible, s.virtualTime);
    var vruntime := if unstarted then s.virtualTime else Max(a.vruntime, s.virtualTime);
    (s.(queue := s.queue + [id]),
     attrs[id := a.(eligible := eligible, vruntime := vruntime, deadline := eligible + Request(params, a.weight))])
  }

  predicate Eligible(s: Sched, a: Attr) {
    a.eligible <= s.virtualTime + TOLERANCE
  }

  /** Of the eligible tasks of q the first with the least deadline. */
  function EarliestDeadline(s: Sched, attrs: Attrs, q: seq<TaskId>): Option<TaskId> {
    if q == [] then None
    else
      var n := |q| - 1;
      var best := EarliestDeadline(s, attrs, q[..n]);
      var a := AttrOf(attrs, q[n]);
      if Eligible(s, a) && (best.None? || a.deadline < AttrOf(attrs, best.value).deadline) then Some(q[n]) else best
  }

  /** The first with the least eligible time. */
  function EarliestEligible(attrs: Attrs, q: seq<TaskId>): Option<TaskId> {
    if q == [] then None
    else
      var n := |q| - 1;
      var best := EarliestEligible(attrs, q[..n]);
      if best.None? || AttrOf(attrs, q[n]).eligible < AttrOf(attrs, best.value).eligible then Some(q[n]) else best
  }

  function Choice(params: Params, s: Sched, attrs: Attrs): Option<Decision>
    requires params.Valid()
  {
    var due := EarliestDeadline(s, attrs, s.queue);
    var best := if due.Some? then due else EarliestEligible(attrs, s.queue);
    if best.None? then None
    else Some(Decision(best.value, SliceFor(params, AttrOf(attrs, best.value).weight)))
  }

  function Advanced(s: Sched, attrs: Attrs, cpu: real): Sched {
    var total := TotalWeight(attrs, s.queue);
    s.(virtualTime := s.virtualTime + Scaled(cpu, if total < 1 then NICE_0_LOAD else total as real))
  }

  function Charge(params: Params, s: Sched, attrs: Attrs, id: TaskId, cpu: real): (Sched, Attrs)
    requires params.Valid()
  {
    var a := AttrOf(attrs, id);
    var vruntime := a.vruntime + Scaled(cpu, a.weight as real);
    (Advanced(s, attrs, cpu),
     attrs[id := a.(vruntime := vruntime, eligible := vruntime, deadline := vruntime + Request(params, a.weight))])
  }

  predicate Preempts(s: Sched, attrs: Attrs, id: TaskId, running: TaskId) {
    Eligible(s, AttrOf(attrs, id)) && AttrOf(attrs, id).deadline < AttrOf(attrs, running).deadline
  }

  function Table(params: Params): Policy<Sched>
    requires params.Valid()
  {
    Policy(
      params.minSlice,
      (_: Sched) => true,
      (s: Sched) => multiset(s.queue),
      (s: Sched, attrs: Attrs, id: TaskId, unstarted: bool) => Add(params, s, attrs, id, unstarted),
      (s: Sched, id: TaskId) => s.(queue := Drop(s.queue, id)),
      (s: Sched, attrs: Attrs) => Choice(params, s, attrs),
      (s: Sched, attrs: Attrs, id: TaskId, cpu: real) => Charge(params, s, attrs, id, cpu),
      (s: Sched, attrs: Attrs, id: TaskId, running: TaskId) => Preempts(s, attrs, id, running))
  }

  // ------------------------------------------------ what the scans find

  lemma {:induction false} EarliestDeadlineLeast(s: Sched, attrs: Attrs, q: seq<TaskId>)
    ensures var best := EarliestDeadline(s, attrs, q);
            && (best.Some? ==> best.value in q && Eligible(s, AttrOf(attrs, best.value)))
            && forall x :: x in q && Eligible(s, AttrOf(attrs, x)) ==>
                 best.Some? && AttrOf(attrs, best.value).deadline <= AttrOf(attrs, x).deadline
  {
    if q != [] {
      assert q == q[..|q| - 1] + [q[|q| - 1]];
      EarliestDeadlineLeast(s, attrs, q[..|q| - 1]);
    }
  }

  lemma {:induction false} EarliestEligibleLeast(attrs: Attrs, q: seq<TaskId>)
    ensures var best := EarliestEligible(attrs, q);
            && (best.Some? <==> q != []) && (best.Some? ==> best.value in q)
            && forall x :: x in q ==> AttrOf(attrs, best.value).eligible <= AttrOf(attrs, x).eligible
  {
    if q != [] {
      assert q == q[..|q| - 1] + [q[|q| - 1]];
      EarliestEligibleLeast(attrs, q[..|q| - 1]);
    }
  }

  /** A ready task is chosen whenever there is one; if the eligible time of some ready task has
      come, one of these with the least deadline, and else one with the least eligible time. */
  lemma ChoiceFacts(params: Params, s: Sched, attrs: Attrs)
    requires params.Valid() && s.queue != []
    ensures Choice(params, s, attrs).Some?
    ensures var d := Choice(params, s, attrs).value;
            var a := AttrOf(attrs, d.id);
            && d.id in s.queue && d.slice == SliceFor(params, a.weight)
            && (forall x :: x in s.queue && AttrOf(attrs, x).eligible <= s.virtualTime + TOLERANCE ==>
                  a.eligible <= s.virtualTime + TOLERANCE && a.deadline <= AttrOf(attrs, x).deadline)
            && (a.eligible > s.virtualTime + TOLERANCE ==> forall x :: x in s.queue ==> a.eligible <= AttrOf(attrs, x).eligible)
  {
    hide SliceFor;
    EarliestDeadlineLeast(s, attrs, s.queue);
    EarliestEligibleLeast(attrs, s.queue);
  }

  // ------------------------------------------------ requests, slices and service

  /** slice is the base slice at the weight, unless the minimum is more. */
  predicate IsSlice(params: Params, weight: nat, slice: real) {
    && slice >= params.minSlice
    && (slice * 1024.0 == params.baseSlice * weight as real
        || (slice == params.minSlice && slice * 1024.0 > params.baseSlice * weight as real))
  }

  lemma SliceMeans(params: Params, weight: Weight)
    requires params.Valid()
    ensures IsSlice(params, weight, SliceFor(params, weight))
  {
    var x := params.baseSlice * weight as real;
    assert x / NICE_0_LOAD * 1024.0 == x;
  }

  /** A returning task is put forward to virtual time if it is behind; its deadline is one
      request, the base slice over its weight, after its eligible time. */
  lemma EnqueuesOnTime(params: Params, s: Sched, attrs: Attrs, id: TaskId, unstarted: bool)
    requires params.Valid()
    ensures var a, b := AttrOf(attrs, id), AttrOf(Add(params, s, attrs, id, unstarted).1, id);
            && (unstarted || a.eligible < s.virtualTime ==> b.eligible == s.virtualTime)
            && (!unstarted && a.eligible >= s.virtualTime ==> b.eligible == a.eligible)
            && (unstarted || a.vruntime < s.virtualTime ==> b.vruntime == s.virtualTime)
            && (!unstarted && a.vruntime >= s.virtualTime ==> b.vruntime == a.vruntime)
            && (b.deadline - b.eligible) * a.weight as real == params.baseSlice * 1024.0
  {
    hide Scaled;
    ScaledMeans(params.baseSlice, AttrOf(attrs, id).weight as real);
  }

  /** CPU time moves the task's virtual runtime by its share of nice 0, and virtual time by
      that of all ready tasks. */
  lemma ChargesService(params: Params, s: Sched, attrs: Attrs, id: TaskId, cpu: real)
    requires params.Valid()
    ensures var a, b := AttrOf(attrs, id), AttrOf(Charge(params, s, attrs, id, cpu).1, id);
            && (b.vruntime - a.vruntime) * a.weight as real == cpu * 1024.0
            && b.eligible == b.vruntime && (b.deadline - b.eligible) * a.weight as real == params.baseSlice * 1024.0
    ensures (Charge(params, s, attrs, id, cpu).0.virtualTime - s.virtualTime)
            * (if s.queue == [] then 1024.0 else TotalWeight(attrs, s.queue) as real) == cpu * 1024.0
  {
    hide Scaled, TotalWeight;
    var a := AttrOf(attrs, id);
    ScaledMeans(cpu, a.weight as real);
    ScaledMeans(params.baseSlice, a.weight as real);
    var total := TotalWeight(attrs, s.queue);
    NoTasksNoWeight(attrs, s.queue);
    ScaledMeans(cpu, if total < 1 then NICE_0_LOAD else total as real);
  }

  lemma NoTasksNoWeight(attrs: Attrs, q: seq<TaskId>)
    ensures q == [] <==> TotalWeight(attrs, q) == 0
  {
  }

  /** A running task gives way exactly to one whose eligible time has come and whose deadline
      is earlier. */
  lemma PreemptsLater(s: Sched, attrs: Attrs, id: TaskId, running: TaskId)
    ensures Preempts(s, attrs, id, running) <==>
              && AttrOf(attrs, id).eligible <= s.virtualTime + TOLERANCE
              && AttrOf(attrs, id).deadline < AttrOf(attrs, running).deadline
  {
  }

  // ------------------------------------------------ what the engines ask

  lemma AddFacts(params: Params, s: Sched, attrs: Attrs, id: TaskId, unstarted: bool)
    requires params.Valid()
    ensures var (s', attrs') := Add(params, s, attrs, id, unstarted);
            var a := AttrOf(attrs', id);
            && s'.queue == s.queue + [id] && s'.virtualTime == s.virtualTime
            && a.weight == AttrOf(attrs, id).weight && a.deadline == a.eligible + Request(params, a.weight)
            && a.eligible >= s.virtualTime && a.vruntime >= s.virtualTime
            && (unstarted || AttrOf(attrs, id).eligible == AttrOf(attrs, id).vruntime ==> a.eligible == a.vruntime)
            && (forall x :: x != id ==> AttrOf(attrs', x) == AttrOf(attrs, x))
  {
    hide Request;
  }

  lemma ChargeFacts(params: Params, s: Sched, attrs: Attrs, id: TaskId, cpu: real)
    requires params.Valid()
    ensures var (s', attrs') := Charge(params, s, attrs, id, cpu);
            var a := AttrOf(attrs', id);
            && s' == Advanced(s, attrs, cpu) && s'.queue == s.queue
            && a.weight == AttrOf(attrs, id).weight && a.deadline == a.eligible + Request(params, a.weight)
            && a.eligible == a.vruntime
            && (forall x :: x != id ==> AttrOf(attrs', x) == AttrOf(attrs, x))
            && (cpu >= 0.0 ==> s'.virtualTime >= s.virtualTime)
  {
    hide Request, Scaled;
  }

  lemma TableIsLawful(params: Params)
    requires params.Valid()
    ensures Lawful(Table(params)) && Fresh(Table(params), Sched([], 0.0))
  {
    hide Add, Charge, Choice, SliceFor;
    var p := Table(params);
    forall s: Sched, attrs, id, unstarted
      ensures Yields(p, p.add(s, attrs, id, unstarted).0, p.ready(s) + multiset{id})
    {
      AddFacts(params, s, attrs, id, unstarted);
    }
    forall s: Sched, attrs, id, cpu
      ensures Yields(p, p.charge(s, attrs, id, cpu).0, p.ready(s))
    {
      ChargeFacts(params, s, attrs, id, cpu);
    }
    forall s: Sched, id
      ensures Yields(p, p.remove(s, id), p.ready(s)[id := 0])
    {
      DropCounts(s.queue, id);
    }
    forall s: Sched, attrs | |p.ready(s)| > 0
      ensures LawfulDecision(p, s, p.schedule(s, attrs))
    {
      ChoiceFacts(params, s, attrs);
    }
  }

  lemma TableIsLocal(params: Params)
    requires params.Valid()
    ensures Local(Table(params))
  {
    hide Add, Charge;
    var p := Table(params);
    forall s: Sched, attrs, id, unstarted
      ensures Touches(p, s, id, attrs, p.add(s, attrs, id, unstarted).1)
    {
      AddFacts(params, s, attrs, id, unstarted);
    }
    forall s: Sched, attrs, id, cpu
      ensures Touches(p, s, id, attrs, p.charge(s, attrs, id, cpu).1)
    {
      ChargeFacts(params, s, attrs, id, cpu);
    }
  }

  // ------------------------------------------------ the scheduler object

  class EevdfScheduler {
    const params: Params
    const ready: ReadyQueue
    var virtualTime: real

    ghost predicate Valid()
      reads this, ready
    {
      params.Valid()
    }

    ghost function State(): Sched
      reads this, ready
    {
      Sched(ready.tasks, virtualTime)
    }

    constructor (params: Params)
      requires params.Valid()
      ensures Valid() && this.params == params && fresh(ready) && State() == Sched([], 0.0)
    {
      this.params := params;
      ready := new ReadyQueue();
      virtualTime := 0.0;
    }

    method AddTask(tasks: TaskFields, id: TaskId, unstarted: bool)
      requires Valid()
      modifies ready, tasks
      ensures (State(), tasks.attrs) == old(Add(params, State(), tasks.attrs, id, unstarted))
    {
      var a := AttrOf(tasks.attrs, id);
      if unstarted {
        a := a.(eligible := virtualTime, vruntime := virtualTime);
      } else {
        a := a.(eligible := Max(a.eligible, virtualTime), vruntime := Max(a.vruntime, virtualTime));
      }
      a := a.(deadline := a.eligible + Request(params, a.weight));
      tasks.attrs := tasks.attrs[id := a];
      ready.AddTask(id);
    }

    method RemoveTask(id: TaskId)
      modifies ready
      ensures State() == old(State()).(queue := Drop(old(ready.tasks), id))
    {
      ready.RemoveTask(id);
    }

    method Schedule(tasks: TaskFields) returns (d: Option<Decision>)
      requires Valid()
      ensures d == Choice(params, State(), tasks.attrs)
    {
      var best: Option<TaskId> := None;
      for i := 0 to |ready.tasks|
        invariant best == EarliestDeadline(State(), tasks.attrs, ready.tasks[..i])
      {
        assert ready.tasks[..i + 1][..i] == ready.tasks[..i];
        var a := AttrOf(tasks.attrs, ready.tasks[i]);
        if a.eligible <= virtualTime + TOLERANCE {
          if best.None? || a.deadline < AttrOf(tasks.attrs, best.value).deadline {
            best := Some(ready.tasks[i]);
          }
        }
      }
      assert ready.tasks[..|ready.tasks|] == ready.tasks;
      if best.None? {
        best := FindEarliestEligible(tasks);
      }
      d := if best.None? then None
           else Some(Decision(best.value, SliceFor(params, AttrOf(tasks.attrs, best.value).weight)));
    }

    method FindEarliestEligible(tasks: TaskFields) returns (best: Option<TaskId>)
      ensures best == EarliestEligible(tasks.attrs, ready.tasks)
    {
      best := None;
      for i := 0 to |ready.tasks|
        invariant best == EarliestEligible(tasks.attrs, ready.tasks[..i])
      {
        assert ready.tasks[..i + 1][..i] == ready.tasks[..i];
        if best.None? || AttrOf(tasks.attrs, ready.tasks[i]).eligible < AttrOf(tasks.attrs, best.value).eligible {
          best := Some(ready.tasks[i]);
        }
      }
      assert ready.tasks[..|ready.tasks|] == ready.tasks;
    }

    method OnCpuUsed(tasks: TaskFields, id: TaskId, cpu: real)
      requires Valid()
      modifies this`virtualTime, tasks
      ensures (State(), tasks.attrs) == old(Charge(params, State(), tasks.attrs, id, cpu))
    {
      var a := AttrOf(tasks.attrs, id);
      AdvanceVirtualTime(tasks, cpu);
      a := a.(vruntime := a.vruntime + Scaled(cpu, a.weight as real));
      a := a.(eligible := a.vruntime);
      a := a.(deadline := a.eligible + Request(params, a.weight));
      tasks.attrs := tasks.attrs[id := a];
    }

    method AdvanceVirtualTime(tasks: TaskFields, cpu: real)
      modifies this`virtualTime
      ensures State() == old(Advanced(State(), tasks.attrs, cpu))
    {
      var total: nat := 0;
      for i := 0 to |ready.tasks|
        invariant total == TotalWeight(tasks.attrs, ready.tasks[..i])
      {
        assert ready.tasks[..i + 1][..i] == ready.tasks[..i];
        total := total + AttrOf(tasks.attrs, ready.tasks[i]).weight;
      }
      assert ready.tasks[..|ready.tasks|] == ready.tasks;
      virtualTime := virtualTime + Scaled(cpu, if total < 1 then NICE_0_LOAD else total as real);
    }

    method ShouldPreempt(tasks: TaskFields, id: TaskId, running: Option<TaskId>) returns (yes: bool)
      ensures yes <==> running.None? || Preempts(State(), tasks.attrs, id, running.value)
    {
      if running.None? {
        return true;
      }
      if AttrOf(tasks.attrs, id).eligible <= virtualTime + TOLERANCE {
        return AttrOf(tasks.attrs, id).deadline < AttrOf(tasks.attrs, running.value).deadline;
      }
      yes := false;
    }
  }
}

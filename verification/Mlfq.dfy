/** The multi-level feedback queue (include/schedulers/mlfq_scheduler.hpp): new tasks start
    at the top, a task that uses up its allotment moves down, and a periodic boost brings
    every queued task back to the top. */
module Mlfq {
  import opened Common
  import opened Tasks
  import opened Policies
  import opened MultiQueue

  datatype Level = Level(quantum: real, allotment: real)

  datatype Params = Params(levels: seq<Level>, boostInterval: real, enableBoost: bool) {
    predicate Valid() {
      levels != [] && forall k :: 0 <= k < |levels| ==> levels[k].quantum > 0.0
    }

    function Bottom(): int {
      |levels| - 1
    }
  }

  datatype Sched = Sched(queues: Queues, sinceBoost: real)

  function Quantum(params: Params, level: int): (q: real)
    requires params.Valid()
    ensures q > 0.0
  {
    if 0 <= level < |params.levels| then params.levels[level].quantum
    else params.levels[params.Bottom()].quantum
  }

  /** A level without an allotment of its own uses its quantum. */
  function Allotment(params: Params, level: int): (a: real)
    requires params.Valid()
    ensures 0 <= level < |params.levels| ==> a > 0.0
  {
    if 0 <= level < |params.levels| then
      var own := params.levels[level].allotment;
      if own > 0.0 then own else params.levels[level].quantum
    else params.levels[params.Bottom()].allotment
  }

  function Clamp(params: Params, level: int): (r: nat)
    requires params.Valid()
    ensures r < |params.levels|
  {
    if level < 0 then 0 else if level < params.Bottom() then level else params.Bottom()
  }

  predicate Shaped(params: Params, s: Sched) {
    |s.queues| == |params.levels|
  }

  function Add(params: Params, s: Sched, attrs: Attrs, id: TaskId, unstarted: bool): (Sched, Attrs)
    requires params.Valid() && Shaped(params, s)
  {
    var a := AttrOf(attrs, id);
    var b := if unstarted then a.(level := 0, allotment := Allotment(params, 0)) else a;
    var level := Clamp(params, b.level);
    (s.(queues := s.queues[level := s.queues[level] + [id]]), attrs[id := b.(level := level)])
  }

  function Choice(params: Params, s: Sched, attrs: Attrs): Option<Decision>
    requires params.Valid()
  {
    var best := Best(s.queues);
    if best.None? then None
    else Some(Decision(best.value, Quantum(params, AttrOf(attrs, best.value).level)))
  }

  /** The fields of a task after using cpu time, before any boost. */
  function Spend(params: Params, a: Attr, cpu: real): Attr
    requires params.Valid()
  {
    if a.allotment - cpu <= 0.0 then
      var level := if a.level < params.Bottom() then a.level + 1 else a.level;
      a.(level := level, allotment := Allotment(params, level))
    else a.(allotment := a.allotment - cpu)
  }

  predicate BoostDue(params: Params, s: Sched, cpu: real) {
    params.enableBoost && s.sinceBoost + cpu >= params.boostInterval
  }

  function Boost(params: Params, s: Sched, attrs: Attrs): (Sched, Attrs)
    requires params.Valid() && Shaped(params, s)
  {
    var queues := Boosted(s.queues);
    (Sched(queues, 0.0),
     WithAllotment(WithLevelZero(attrs, Lower(s.queues, |s.queues|)), Joined(queues, |queues|), Allotment(params, 0)))
  }

  function Charge(params: Params, s: Sched, attrs: Attrs, id: TaskId, cpu: real): (Sched, Attrs)
    requires params.Valid() && Shaped(params, s)
  {
    var attrs1 := attrs[id := Spend(params, AttrOf(attrs, id), cpu)];
    if BoostDue(params, s, cpu) then Boost(params, s, attrs1)
    else if params.enableBoost then (s.(sinceBoost := s.sinceBoost + cpu), attrs1)
    else (s, attrs1)
  }

  predicate Preempts(attrs: Attrs, id: TaskId, running: TaskId) {
    AttrOf(attrs, id).level < AttrOf(attrs, running).level
  }

  /** The smallest quantum of the first n levels. */
  function LeastQuantum(params: Params, n: nat): (q: real)
    requires params.Valid() && 0 < n <= |params.levels|
    ensures q > 0.0 && forall k :: 0 <= k < n ==> q <= params.levels[k].quantum
  {
    if n == 1 then params.levels[0].quantum
    else Min(params.levels[n - 1].quantum, LeastQuantum(params, n - 1))
  }

  function Table(params: Params): Policy<Sched>
    requires params.Valid()
  {
    Policy(
      LeastQuantum(params, |params.levels|),
      (s: Sched) => Shaped(params, s),
      (s: Sched) => AllQueued(s.queues),
      (s: Sched, attrs: Attrs, id: TaskId, unstarted: bool) =>
        if Shaped(params, s) then Add(params, s, attrs, id, unstarted) else (s, attrs),
      (s: Sched, id: TaskId) => s.(queues := DropAll(s.queues, id)),
      (s: Sched, attrs: Attrs) => Choice(params, s, attrs),
      (s: Sched, attrs: Attrs, id: TaskId, cpu: real) =>
        if Shaped(params, s) then Charge(params, s, attrs, id, cpu) else (s, attrs),
      (_, attrs: Attrs, id: TaskId, running: TaskId) => Preempts(attrs, id, running))
  }

  // ------------------------------------------------ what each operation does

  lemma AddFacts(params: Params, s: Sched, attrs: Attrs, id: TaskId, unstarted: bool)
    requires params.Valid() && Shaped(params, s)
    ensures var (s', attrs') := Add(params, s, attrs, id, unstarted);
            var level := AttrOf(attrs', id).level;
            && 0 <= level < |s.queues| && Shaped(params, s') && s'.sinceBoost == s.sinceBoost
            && s'.queues == s.queues[level := s.queues[level] + [id]]
            && AllQueued(s'.queues) == AllQueued(s.queues) + multiset{id}
            && AttrOf(attrs', id).weight == AttrOf(attrs, id).weight
            && (unstarted ==> level == 0 && AttrOf(attrs', id).allotment == Allotment(params, 0))
            && (!unstarted ==> level == Clamp(params, AttrOf(attrs, id).level))
            && (!unstarted ==> AttrOf(attrs', id).allotment == AttrOf(attrs, id).allotment)
            && (forall x :: x != id ==> AttrOf(attrs', x) == AttrOf(attrs, x))
  {
    var level := AttrOf(Add(params, s, attrs, id, unstarted).1, id).level;
    QueuedAppend(s.queues, level, id);
  }

  /** A charge touches the charged task, and with a boost the queued ones; a boost leaves
      all tasks in the top queue, in level order. */
  lemma ChargeFacts(params: Params, s: Sched, attrs: Attrs, id: TaskId, cpu: real)
    requires params.Valid() && Shaped(params, s)
    ensures var (s', attrs') := Charge(params, s, attrs, id, cpu);
            && Shaped(params, s') && AllQueued(s'.queues) == AllQueued(s.queues)
            && s'.queues == (if BoostDue(params, s, cpu) then Boosted(s.queues) else s.queues)
            && forall x :: ChargedAttr(params, s, attrs, id, cpu, x, AttrOf(attrs', x))
  {
    hide ChargedAttr;
    BoostKeepsTasks(s.queues);
    forall x
      ensures ChargedAttr(params, s, attrs, id, cpu, x, AttrOf(Charge(params, s, attrs, id, cpu).1, x))
    {
      ChargeAt(params, s, attrs, id, cpu, x);
    }
  }

  /** a is what a charge makes of task x's fields. */
  predicate ChargedAttr(params: Params, s: Sched, attrs: Attrs, id: TaskId, cpu: real, x: TaskId, a: Attr)
    requires params.Valid()
  {
    && a.weight == AttrOf(attrs, x).weight
    && (x !in AllQueued(s.queues) ==>
          a == if x == id then Spend(params, AttrOf(attrs, id), cpu) else AttrOf(attrs, x))
    && (x in AllQueued(s.queues) && x != id ==>
          a == if BoostDue(params, s, cpu) then QueuedAtTop(params, s, attrs, x) else AttrOf(attrs, x))
  }

  lemma ChargeAt(params: Params, s: Sched, attrs: Attrs, id: TaskId, cpu: real, x: TaskId)
    requires params.Valid() && Shaped(params, s)
    ensures ChargedAttr(params, s, attrs, id, cpu, x, AttrOf(Charge(params, s, attrs, id, cpu).1, x))
  {
    hide Boost, AllQueued, Allotment;
    if BoostDue(params, s, cpu) {
      BoostAt(params, s, attrs[id := Spend(params, AttrOf(attrs, id), cpu)], x);
    }
  }

  /** A queued task's fields after a boost. */
  function QueuedAtTop(params: Params, s: Sched, attrs: Attrs, x: TaskId): Attr
    requires params.Valid()
  {
    var a := AttrOf(attrs, x).(allotment := Allotment(params, 0));
    if x in Lower(s.queues, |s.queues|) then a.(level := 0) else a
  }

  lemma BoostAt(params: Params, s: Sched, attrs: Attrs, x: TaskId)
    requires params.Valid() && Shaped(params, s)
    ensures AttrOf(Boost(params, s, attrs).1, x)
         == if x in AllQueued(s.queues) then QueuedAtTop(params, s, attrs, x) else AttrOf(attrs, x)
  {
    var n := |s.queues|;
    var lower := Lower(s.queues, n);
    LevelZeroAt(attrs, lower, x);
    AllotmentAt(WithLevelZero(attrs, lower), Joined(Boosted(s.queues), n), Allotment(params, 0), x);
    JoinedBoosted(s.queues, n);
    LowerCounts(s.queues, n);
    assert s.queues[..n] == s.queues;
    assert x in AllQueued(s.queues) <==> x in s.queues[0] + lower;
  }

  // ------------------------------------------------ what the engines ask

  lemma TableIsLawful(params: Params)
    requires params.Valid()
    ensures Lawful(Table(params))
    ensures Fresh(Table(params), Sched(Empties(|params.levels|), 0.0))
  {
    hide Add, Charge, Choice, LeastQuantum, DropAll, AllQueued, Yields, LawfulDecision;
    var p := Table(params);
    forall s: Sched, attrs, id, unstarted | p.valid(s)
      ensures Yields(p, p.add(s, attrs, id, unstarted).0, p.ready(s) + multiset{id})
    {
      AddYields(params, s, attrs, id, unstarted);
    }
    forall s: Sched, attrs, id, cpu | p.valid(s)
      ensures Yields(p, p.charge(s, attrs, id, cpu).0, p.ready(s))
    {
      ChargeYields(params, s, attrs, id, cpu);
    }
    forall s: Sched, id | p.valid(s)
      ensures Yields(p, p.remove(s, id), p.ready(s)[id := 0])
    {
      RemoveYields(params, s, id);
    }
    forall s: Sched, attrs | p.valid(s) && |p.ready(s)| > 0
      ensures LawfulDecision(p, s, p.schedule(s, attrs))
    {
      ChoiceIsLawful(params, s, attrs);
    }
    FreshIsEmpty(params);
  }

  lemma AddYields(params: Params, s: Sched, attrs: Attrs, id: TaskId, unstarted: bool)
    requires params.Valid() && Shaped(params, s)
    ensures Yields(Table(params), Table(params).add(s, attrs, id, unstarted).0, Table(params).ready(s) + multiset{id})
  {
    hide Add;
    AddFacts(params, s, attrs, id, unstarted);
  }

  lemma ChargeYields(params: Params, s: Sched, attrs: Attrs, id: TaskId, cpu: real)
    requires params.Valid() && Shaped(params, s)
    ensures Yields(Table(params), Table(params).charge(s, attrs, id, cpu).0, Table(params).ready(s))
  {
    hide Charge;
    ChargeFacts(params, s, attrs, id, cpu);
  }

  lemma RemoveYields(params: Params, s: Sched, id: TaskId)
    requires params.Valid() && Shaped(params, s)
    ensures Yields(Table(params), Table(params).remove(s, id), Table(params).ready(s)[id := 0])
  {
    QueuedDrop(s.queues, id);
  }

  lemma ChoiceIsLawful(params: Params, s: Sched, attrs: Attrs)
    requires params.Valid() && Shaped(params, s) && |AllQueued(s.queues)| > 0
    ensures LawfulDecision(Table(params), s, Table(params).schedule(s, attrs))
  {
    hide Choice;
    ChoosesTopFront(params, s, attrs);
  }

  lemma FreshIsEmpty(params: Params)
    requires params.Valid()
    ensures AllQueued(Empties(|params.levels|)) == multiset{}
  {
    var n := |params.levels|;
    assert Empties(n) == [[]] + Empties(n - 1);
    QueuedEmpties([], n - 1);
  }

  /** The choice is the front of the first non-empty level; if tasks are queued by level, it is
      granted the quantum that the table has for that level. */
  lemma ChoosesTopFront(params: Params, s: Sched, attrs: Attrs)
    requires params.Valid() && Shaped(params, s) && |AllQueued(s.queues)| > 0
    ensures var level := FirstLevel(s.queues, |s.queues|);
            && level < |s.queues| && s.queues[level] != []
            && s.queues[level][0] in AllQueued(s.queues)
            && Choice(params, s, attrs)
               == Some(Decision(s.queues[level][0], Quantum(params, AttrOf(attrs, s.queues[level][0]).level)))
            && Choice(params, s, attrs).value.slice >= LeastQuantum(params, |params.levels|)
            && (QueuedByLevel(s.queues, attrs) ==> Choice(params, s, attrs).value.slice == params.levels[level].quantum)
  {
    var x :| x in AllQueued(s.queues);
    QueuedIn(s.queues, x);
    var level := FirstLevel(s.queues, |s.queues|);
    QueuedIn(s.queues, s.queues[level][0]);
    assert s.queues[level][0] in s.queues[level];
  }

  /** Every queued task's level is the queue that holds it. */
  ghost predicate QueuedByLevel(queues: Queues, attrs: Attrs) {
    forall level, x {:trigger x in queues[level]} ::
      0 <= level < |queues| && x in queues[level] ==> AttrOf(attrs, x).level == level
  }

  lemma TableIsLocal(params: Params)
    requires params.Valid()
    ensures Local(Table(params))
  {
    hide Add, Charge, Choice;
    var p := Table(params);
    forall s: Sched, attrs, id, unstarted | p.valid(s)
      ensures Touches(p, s, id, attrs, p.add(s, attrs, id, unstarted).1)
    {
      AddFacts(params, s, attrs, id, unstarted);
    }
    forall s: Sched, attrs, id, cpu | p.valid(s)
      ensures Touches(p, s, id, attrs, p.charge(s, attrs, id, cpu).1)
    {
      ChargeFacts(params, s, attrs, id, cpu);
    }
  }

  // ------------------------------------------------ the scheduler object

  class MlfqScheduler {
    const params: Params
    const levels: LevelQueues
    var sinceBoost: real

    ghost predicate Valid()
      reads this, levels
    {
      params.Valid() && |levels.queues| == |params.levels|
    }

    ghost function State(): Sched
      reads this, levels
    {
      Sched(levels.queues, sinceBoost)
    }

    constructor (params: Params)
      requires params.Valid()
      ensures Valid() && this.params == params && fresh(levels) && State() == Sched(Empties(|params.levels|), 0.0)
    {
      this.params := params;
      levels := new LevelQueues(|params.levels|);
      sinceBoost := 0.0;
    }

    method AddTask(tasks: TaskFields, id: TaskId, unstarted: bool)
      requires Valid()
      modifies levels, tasks
      ensures Valid() && (State(), tasks.attrs) == old(Add(params, State(), tasks.attrs, id, unstarted))
    {
      var a := AttrOf(tasks.attrs, id);
      if unstarted {
        a := a.(level := 0, allotment := Allotment(params, 0));
      }
      var level := Clamp(params, a.level);
      tasks.attrs := tasks.attrs[id := a.(level := level)];
      levels.Append(level, id);
    }

    method RemoveTask(id: TaskId)
      requires Valid()
      modifies levels
      ensures Valid() && State() == old(State()).(queues := DropAll(old(levels.queues), id))
    {
      levels.RemoveTask(id);
    }

    method Schedule(tasks: TaskFields) returns (d: Option<Decision>)
      requires Valid()
      ensures d == Choice(params, State(), tasks.attrs)
      ensures d.Some? ==>
                var level := AttrOf(tasks.attrs, d.value.id).level;
                0 <= level < |params.levels| ==> d.value.slice == params.levels[level].quantum
    {
      var best := levels.FindBest();
      if best.None? {
        return None;
      }
      d := Some(Decision(best.value, Quantum(params, AttrOf(tasks.attrs, best.value).level)));
    }

    method OnCpuUsed(tasks: TaskFields, id: TaskId, cpu: real)
      requires Valid()
      modifies this`sinceBoost, levels, tasks
      ensures Valid() && (State(), tasks.attrs) == old(Charge(params, State(), tasks.attrs, id, cpu))
    {
      var a := AttrOf(tasks.attrs, id);
      a := a.(allotment := a.allotment - cpu);
      if a.allotment <= 0.0 {
        if a.level < params.Bottom() {
          a := a.(level := a.level + 1);
        }
        a := a.(allotment := Allotment(params, a.level));
      }
      tasks.attrs := tasks.attrs[id := a];
      if params.enableBoost {
        sinceBoost := sinceBoost + cpu;
        if sinceBoost >= params.boostInterval {
          PerformBoost(tasks);
          sinceBoost := 0.0;
        }
      }
    }

    method PerformBoost(tasks: TaskFields)
      requires Valid()
      modifies levels, tasks
      ensures Valid() && (State().queues, tasks.attrs)
           == old((Boost(params, State(), tasks.attrs).0.queues, Boost(params, State(), tasks.attrs).1))
    {
      levels.BoostAll(tasks);
      levels.SetAllotments(tasks, Allotment(params, 0));
    }

    method ShouldPreempt(tasks: TaskFields, id: TaskId, running: Option<TaskId>) returns (yes: bool)
      ensures yes <==> running.None? || Preempts(tasks.attrs, id, running.value)
    {
      if running.None? {
        return true;
      }
      yes := AttrOf(tasks.attrs, id).level < AttrOf(tasks.attrs, running.value).level;
    }
  }
}

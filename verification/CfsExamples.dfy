/** Runs of the completely fair scheduler on one core, step by step. */
module CfsExamples {
  import opened Common
  import opened Tasks
  import opened Policies
  import opened Lanes
  import opened SingleQueue
  import opened Cfs
  import opened Engine
  import opened EngineInvariant
  import opened EngineRuns
  import opened EngineLanes
  import opened EngineOpening
  import opened CfsRuns

  // ------------------------------------------------ driving one core

  /** One core between events: nothing stale is pending and nobody did more than time passed. */
  ghost predicate Driven(params: Params, cfg: Config, s: State<Sched>, work: real)
    requires params.Valid()
  {
    && Inv(Table(params), cfg, s) && !cfg.shared && cfg.cores == 1 && OneTimer(s)
    && forall x :: x in s.tasks ==> s.tasks[x].execution == work && Done(s, x) <= Dispatched(s)
  }

  /** When the running task started, or now. */
  function Dispatched(s: State<Sched>): real
    requires 0 < |s.cores|
  {
    if s.cores[0].running.Some? then s.cores[0].since else s.now
  }

  /** A task still to arrive may be the next event at time 0. */
  lemma NextArrival(params: Params, cfg: Config, s: State<Sched>, work: real, x: TaskId) returns (i: nat)
    requires params.Valid() && Driven(params, cfg, s, work) && Opening(s) && x in Awaited(s)
    ensures Earliest(s.events, i) && s.events[i] == Arrival(0.0, x)
  {
    hide Places, Accounted, Timers, Lawful, OneTimer;
    var a := Arrival(s.tasks[x].arrival, x);
    assert multiset(s.events)[a] == 1;
    assert a in multiset(s.events);
    i :| 0 <= i < |s.events| && s.events[i] == a;
    forall j | 0 <= j < |s.events|
      ensures s.events[i].time <= s.events[j].time
    {
      assert s.events[j] in s.events;
    }
  }

  /** With nothing to arrive, the timer of the running task is the next event. */
  lemma NextTimer(params: Params, cfg: Config, s: State<Sched>, work: real) returns (i: nat)
    requires params.Valid() && Driven(params, cfg, s, work) && Awaited(s) == {} && s.cores[0].running.Some?
    ensures Earliest(s.events, i)
    ensures s.events[i] == TimeSlice(s.events[i].time, s.cores[0].running.value, 0)
    ensures s.cores[0].running.value in s.tasks
    ensures s.events[i].time == Deadline(s.cores[0], s.tasks[s.cores[0].running.value])
  {
    hide Places, Accounted, Lawful;
    assert Timed(s, 0);
    var e := TimeSlice(Deadline(s.cores[0], s.tasks[s.cores[0].running.value]), s.cores[0].running.value, 0);
    i :| 0 <= i < |s.events| && s.events[i] == e;
    forall j | 0 <= j < |s.events|
      ensures s.events[i].time <= s.events[j].time
    {
      NothingAwaited(s, s.events[j]);
    }
  }

  lemma NothingAwaited(s: State<Sched>, e: Event)
    requires Clock(s) && Awaited(s) == {} && e in s.events
    ensures e.TimeSlice?
  {
    assert e.Arrival? ==> e.id in Awaited(s);
  }

  lemma ArrivalStep(params: Params, cfg: Config, s: State<Sched>, work: real, i: nat)
    requires params.Valid() && Driven(params, cfg, s, work) && Opening(s)
    requires Earliest(s.events, i) && s.events[i].Arrival? && s.events[i].time == 0.0
    requires Polite(Table(params), s, s.events[i].id)
    ensures var p, r, d := Table(params), Step(Table(params), cfg, s, i), Admit(Table(params), View(s, 0), s.events[i].id, true);
            && Driven(params, cfg, r, work) && Opening(r) && Awaited(r) == Awaited(s) - {s.events[i].id}
            && View(r, 0) == if d.running.None? then Begin(p, cfg.defaultSlice, d) else d
  {
    hide Lawful, Local, Places, Clock, Accounted, Timers, Step, OneTimer, Opening, Done, Polite;
    var p := Table(params);
    TableIsLocal(params);
    var m := StepIsMove(p, cfg, s, i, 0);
    StepKeeps(p, cfg, s, i);
    StepAwaits(p, cfg, s, i);
    StepDone(p, cfg, s, i, m);
    StepKeepsOneTimer(p, cfg, s, i);
    OpeningStep(p, cfg, s, i);
    PoliteNext(p, cfg, s, m);
    OpeningSince(p, cfg, Step(p, cfg, s, i));
  }

  lemma OpeningSince(p: Policy<Sched>, cfg: Config, s: State<Sched>)
    requires Inv(p, cfg, s) && cfg.cores == 1 && Opening(s)
    ensures Dispatched(s) == 0.0
    ensures forall x :: x in s.tasks ==> Done(s, x) == 0.0
  {
    hide Lawful, Clock;
    if s.cores[0].running.Some? {
      var x := s.cores[0].running.value;
      assert x in s.tasks && s.place[x] == OnCore(0) && TaskOk(s, x);
    }
  }

  lemma PoliteNext(p: Policy<Sched>, cfg: Config, s: State<Sched>, m: Move)
    requires 0 < |s.scheds| && 0 < |s.cores| && m.Arrive? && Polite(p, s, m.id) && Can(p, View(s, 0), m)
    ensures var d := Admit(p, View(s, 0), m.id, true);
            Next(p, cfg.defaultSlice, View(s, 0), m) == if d.running.None? then Begin(p, cfg.defaultSlice, d) else d
  {
  }

  /** The running task uses its whole slice and goes back to the queue. */
  lemma SliceStep(params: Params, cfg: Config, s: State<Sched>, work: real, i: nat)
    requires params.Valid() && Driven(params, cfg, s, work) && Awaited(s) == {} && s.cores[0].running.Some?
    requires Earliest(s.events, i) && s.events[i] == TimeSlice(s.events[i].time, s.cores[0].running.value, 0)
    requires s.cores[0].running.value in s.tasks
    requires s.events[i].time == Deadline(s.cores[0], s.tasks[s.cores[0].running.value])
    requires s.cores[0].since + s.cores[0].granted + 0.001 < work
    ensures var p, r, id := Table(params), Step(Table(params), cfg, s, i), s.cores[0].running.value;
            && Driven(params, cfg, r, work) && Awaited(r) == {} && r.now == s.cores[0].since + s.cores[0].granted
            && View(r, 0) == Begin(p, cfg.defaultSlice, Admit(p, Release(p, View(s, 0), s.cores[0].granted), id, false))
            && (r.cores[0].running.Some? ==> r.cores[0].since == r.now)
  {
    hide Lawful, Local, Places, Clock, Accounted, Timers, Step, OneTimer, Done, OwnCharge, Next, Can, Cpu, Begin, Admit, Release, Charges, Table;
    var p := Table(params);
    TableIsLocal(params);
    var m := StepIsMove(p, cfg, s, i, 0);
    StepKeeps(p, cfg, s, i);
    StepAwaits(p, cfg, s, i);
    StepDone(p, cfg, s, i, m);
    StepKeepsOneTimer(p, cfg, s, i);
    WholeSlice(params, cfg, s, work, i, m);
    SliceNext(p, cfg, View(s, 0), m);
    TimerSince(p, cfg, s, i);
  }

  lemma SliceNext(p: Policy<Sched>, cfg: Config, d: Lane<Sched>, m: Move)
    requires m.Timer? && !m.done && Can(p, d, m)
    ensures d.running.Some?
    ensures Next(p, cfg.defaultSlice, d, m) == Begin(p, cfg.defaultSlice, Admit(p, Release(p, d, m.cpu), d.running.value, false))
  {
  }

  lemma WholeSlice(params: Params, cfg: Config, s: State<Sched>, work: real, i: nat, m: Move)
    requires params.Valid() && Driven(params, cfg, s, work) && i < |s.events| && AloneStep(s, s.events[i], m)
    requires s.events[i].TimeSlice? && s.cores[0].running == Some(s.events[i].id)
    requires s.events[i].id in s.tasks && s.events[i].time == Deadline(s.cores[0], s.tasks[s.events[i].id])
    requires s.cores[0].since + s.cores[0].granted + 0.001 < work
    ensures m == Timer(s.cores[0].granted, false, None) && s.events[i].time == s.cores[0].since + s.cores[0].granted
    ensures s.cores[0].since <= s.now && s.cores[0].granted > 0.0
  {
    hide Lawful, Places, Clock, Accounted, OneTimer;
    assert Done(s, s.events[i].id) <= s.cores[0].since;
  }

  lemma TimerSince(p: Policy<Sched>, cfg: Config, s: State<Sched>, i: nat)
    requires Shape(p, cfg, s) && !cfg.shared && cfg.cores == 1 && i < |s.events| && s.events[i].TimeSlice?
    requires s.events[i].core == 0 && s.cores[0].running == Some(s.events[i].id)
    ensures var r := Step(p, cfg, s, i); r.cores[0].running.Some? ==> r.cores[0].since == r.now
  {
    hide Lawful, Busiest, Engine.Charge, Complete, Requeue, Dispatch;
    var e, u := s.events[i], Pop(p, cfg, s, i);
    assert e in s.events;
    var s1 := Engine.Charge(p, cfg, u, 0);
    var s2 := if s1.tasks[e.id].IsCompleted() then Complete(p, cfg, s1, 0) else Requeue(p, cfg, s1, 0);
    DispatchSince(p, cfg, s2);
  }

  lemma DispatchSince(p: Policy<Sched>, cfg: Config, s: State<Sched>)
    requires Shape(p, cfg, s) && !cfg.shared && cfg.cores == 1
    ensures var r := Dispatch(p, cfg, s, 0); r.cores[0].running.Some? ==> r.cores[0].since == r.now == s.now
  {
    hide Lawful;
    if ReadyCount(p, s, 0) > 0 {
      NextIsKnown(p, cfg, s, 0);
    } else {
      assert Busiest(p, s, 0, 1).None?;
    }
  }

  lemma DrivenShape(params: Params, cfg: Config, s: State<Sched>, work: real)
    requires params.Valid() && Driven(params, cfg, s, work)
    ensures Shape(Table(params), cfg, s) && |s.scheds| == 1 && |s.cores| == 1
  {
  }

  lemma {:induction false} InitialExecution(cfg: Config, jobs: seq<Job>, work: real)
    requires forall i :: 0 <= i < |jobs| ==> jobs[i].execution == work
    ensures forall x :: x in Initial(cfg, Sched([], 0.0), jobs).tasks ==>
              Initial(cfg, Sched([], 0.0), jobs).tasks[x].execution == work
  {
    if jobs != [] {
      InitialExecution(cfg, jobs[..|jobs| - 1], work);
    }
  }

  lemma InitialDriven(params: Params, cfg: Config, jobs: seq<Job>, work: real)
    requires params.Valid() && cfg.Valid() && !cfg.shared && cfg.cores == 1 && ValidJobs(jobs) && AllAtZero(jobs)
    requires forall i :: 0 <= i < |jobs| ==> jobs[i].execution == work
    ensures var s := Initial(cfg, Sched([], 0.0), jobs);
            && Driven(params, cfg, s, work) && Opening(s)
            && View(s, 0) == Lane(Sched([], 0.0), s.attrs, None, 0.0)
  {
    hide Lawful, Inv, Opening;
    TableIsLawful(params);
    InitialInv(Table(params), cfg, Sched([], 0.0), jobs);
    InitialOpens(cfg, Sched([], 0.0), jobs);
    InitialOneTimer(cfg, Sched([], 0.0), jobs);
    InitialExecution(cfg, jobs, work);
    LanesStart(cfg, Sched([], 0.0), jobs, 0);
  }

  /** Virtual runtimes of the listed tasks and the minimum are 0. */
  predicate AtRest(d: Lane<Sched>, ids: set<TaskId>) {
    && d.sched.minVruntime == 0.0 && (d.running.Some? ==> d.running.value in ids)
    && forall x :: x in ids ==> x in d.attrs && d.attrs[x].vruntime == 0.0
  }

  function Joining(d: Lane<Sched>, x: TaskId): Lane<Sched> {
    d.(sched := d.sched.(queue := d.sched.queue + [x]))
  }

  lemma Joins(params: Params, d: Lane<Sched>, x: TaskId, ids: set<TaskId>)
    requires params.Valid() && AtRest(d, ids) && x in ids
    ensures Admit(Table(params), d, x, true) == Joining(d, x) && !Displaces(Table(params), Joining(d, x), x)
  {
    assert d.attrs[x := d.attrs[x].(vruntime := 0.0)] == d.attrs;
  }

  /** Task x arrives next, at time 0, without preempting. */
  lemma Arrives(params: Params, cfg: Config, s: State<Sched>, work: real, x: TaskId, ids: set<TaskId>) returns (i: nat)
    requires params.Valid() && Driven(params, cfg, s, work) && Opening(s) && x in Awaited(s)
    requires AtRest(View(s, 0), ids) && x in ids
    ensures Earliest(s.events, i) && s.events[i].time == 0.0
    ensures var r, d := Step(Table(params), cfg, s, i), Joining(View(s, 0), x);
            && Driven(params, cfg, r, work) && Opening(r) && Awaited(r) == Awaited(s) - {x}
            && View(r, 0) == if d.running.None? then Begin(Table(params), cfg.defaultSlice, d) else d
  {
    hide Lawful, Inv, Opening, OneTimer, Done, Admit, Begin, Displaces, Step, AtRest;
    DrivenShape(params, cfg, s, work);
    i := NextArrival(params, cfg, s, work, x);
    Joins(params, View(s, 0), x, ids);
    ArrivalStep(params, cfg, s, work, i);
  }

  /** The running task's timer is next, and its whole slice is charged. */
  lemma Slices(params: Params, cfg: Config, s: State<Sched>, work: real) returns (i: nat)
    requires params.Valid() && Driven(params, cfg, s, work) && Awaited(s) == {} && s.cores[0].running.Some?
    requires s.cores[0].since + s.cores[0].granted + 0.001 < work
    ensures Earliest(s.events, i) && s.events[i].time == s.cores[0].since + s.cores[0].granted
    ensures var p, r, id := Table(params), Step(Table(params), cfg, s, i), s.cores[0].running.value;
            && Driven(params, cfg, r, work) && Awaited(r) == {} && r.now == s.cores[0].since + s.cores[0].granted
            && View(r, 0) == Begin(p, cfg.defaultSlice, Admit(p, Release(p, View(s, 0), s.cores[0].granted), id, false))
            && (r.cores[0].running.Some? ==> r.cores[0].since == r.now)
  {
    hide Lawful, Inv, OneTimer, Done, Admit, Release, Begin, Step, Table;
    DrivenShape(params, cfg, s, work);
    i := NextTimer(params, cfg, s, work);
    SliceStep(params, cfg, s, work, i);
  }

  /** Where some run of the jobs is. */
  ghost predicate Passes(params: Params, cfg: Config, jobs: seq<Job>, work: real, choices: seq<nat>, stop: real, s: State<Sched>)
    requires params.Valid()
  {
    && Reached(Table(params), cfg, Sched([], 0.0), jobs, choices, stop, s)
    && Driven(params, cfg, s, work) && |s.scheds| == 1 && |s.cores| == 1
  }

  lemma Starts(params: Params, cfg: Config, jobs: seq<Job>, work: real, stop: real) returns (s: State<Sched>)
    requires params.Valid() && cfg.Valid() && !cfg.shared && cfg.cores == 1 && ValidJobs(jobs) && AllAtZero(jobs)
    requires forall i :: 0 <= i < |jobs| ==> jobs[i].execution == work
    ensures s == Initial(cfg, Sched([], 0.0), jobs) && Passes(params, cfg, jobs, work, [], stop, s)
    ensures Opening(s) && View(s, 0) == Lane(Sched([], 0.0), s.attrs, None, 0.0)
  {
    hide Lawful, Opening, Driven, Initial;
    s := Initial(cfg, Sched([], 0.0), jobs);
    InitialDriven(params, cfg, jobs, work);
    DrivenShape(params, cfg, s, work);
    TableIsLawful(params);
    NoChoices(Table(params), cfg, s, stop);
  }

  lemma Moved(params: Params, cfg: Config, jobs: seq<Job>, work: real, choices: seq<nat>, stop: real, s: State<Sched>, i: nat)
    returns (choices': seq<nat>, r: State<Sched>)
    requires params.Valid() && Passes(params, cfg, jobs, work, choices, stop, s)
    requires Shape(Table(params), cfg, s) && Earliest(s.events, i) && s.events[i].time <= stop
    requires Driven(params, cfg, Step(Table(params), cfg, s, i), work)
    ensures r == Step(Table(params), cfg, s, i) && Passes(params, cfg, jobs, work, choices', stop, r)
    ensures Shape(Table(params), cfg, r)
  {
    hide Reached, Step, Table, Lawful;
    choices', r := choices + [i], Step(Table(params), cfg, s, i);
    DrivenShape(params, cfg, r, work);
    ReachedStep(Table(params), cfg, Sched([], 0.0), jobs, choices, stop, s, i);
  }

  // ------------------------------------------------ short queues

  lemma ScanThree(less: Comparator, a: TaskId, b: TaskId, c: TaskId)
    ensures MinElement(less, [a]) == a
    ensures MinElement(less, [a, b]) == if less(b, a) then b else a
    ensures MinElement(less, [a, b, c]) == (var best := MinElement(less, [a, b]); if less(c, best) then c else best)
  {
    assert [a, b][..1] == [a] && [a, b, c][..2] == [a, b];
  }

  lemma DropLast(q: seq<TaskId>, x: TaskId, id: TaskId)
    ensures Drop(q + [x], id) == if x == id then Drop(q, id) else Drop(q, id) + [x]
  {
    assert (q + [x])[..|q|] == q;
  }

  lemma DropThree(a: TaskId, b: TaskId, c: TaskId, id: TaskId)
    ensures Drop([a], id) == if a == id then [] else [a]
    ensures Drop([a, b], id) == Drop([a], id) + if b == id then [] else [b]
    ensures Drop([a, b, c], id) == Drop([a, b], id) + if c == id then [] else [c]
  {
    DropLast([], a, id);
    DropLast([a], b, id);
    DropLast([a, b], c, id);
    assert [a] == [] + [a] && [a, b] == [a] + [b] && [a, b, c] == [a, b] + [c];
  }

  lemma LeastOfTwo(attrs: Attrs, a: TaskId, b: TaskId)
    ensures MinVruntime(attrs, [a]) == Vruntime(attrs, a)
    ensures MinVruntime(attrs, [a, b]) == Min(Vruntime(attrs, a), Vruntime(attrs, b))
  {
    assert [a, b][..1] == [a] && [a][..0] == [];
  }

  lemma WeightOfThree(attrs: Attrs, a: TaskId, b: TaskId, c: TaskId)
    ensures TotalWeight(attrs, [a]) == AttrOf(attrs, a).weight
    ensures TotalWeight(attrs, [a, b]) == AttrOf(attrs, a).weight + AttrOf(attrs, b).weight
    ensures TotalWeight(attrs, [a, b, c]) == AttrOf(attrs, a).weight + AttrOf(attrs, b).weight + AttrOf(attrs, c).weight
  {
    assert [a][..0] == [] && [a, b][..1] == [a] && [a, b, c][..2] == [a, b];
  }

  // ------------------------------------------------ a run in which the scan misses

  /** Slices of nine tenths of the comparator's tolerance. */
  const STEP := 0.0000000009

  function Tiny(): Params {
    Params(0.0, STEP, 4.0)
  }

  function Fields(a: real, b: real, c: real): Attrs {
    map[1 := NewAttr(1024).(vruntime := a), 2 := NewAttr(1024).(vruntime := b), 3 := NewAttr(1024).(vruntime := c)]
  }

  function Stage(queue: seq<TaskId>, attrs: Attrs, id: TaskId): Lane<Sched> {
    Lane(Sched(queue, 0.0), attrs, Some(id), STEP)
  }

  lemma TinySlices(attrs: Attrs, a: TaskId, b: TaskId, c: TaskId, id: TaskId)
    requires AttrOf(attrs, a).weight == AttrOf(attrs, b).weight == AttrOf(attrs, c).weight == AttrOf(attrs, id).weight == 1024
    ensures SliceFor(Tiny(), Sched([a], 0.0), attrs, id) == STEP
    ensures SliceFor(Tiny(), Sched([a, b, c], 0.0), attrs, id) == STEP
  {
    WeightOfThree(attrs, a, b, c);
    PeriodIs(Tiny(), 1);
    PeriodIs(Tiny(), 3);
  }

  /** The scheduler's choice among three is taken off the queue. */
  lemma PickThree(slice0: real, d: Lane<Sched>, a: TaskId, b: TaskId, c: TaskId)
    requires d.sched == Sched([a, b, c], 0.0)
    requires AttrOf(d.attrs, a).weight == AttrOf(d.attrs, b).weight == AttrOf(d.attrs, c).weight == 1024
    ensures var best := MinElement(Less(d.attrs), [a, b, c]);
            Begin(Table(Tiny()), slice0, d) == Stage(Drop([a, b, c], best), d.attrs, best)
  {
    hide SliceFor, MinElement, Drop;
    var best := MinElement(Less(d.attrs), [a, b, c]);
    assert best in [a, b, c];
    TinySlices(d.attrs, a, b, c, best);
  }

  /** The running task is charged one slice and put behind the two others; nobody's virtual
      runtime is negative and somebody's is 0. */
  lemma RequeueThird(d: Lane<Sched>, a: TaskId, b: TaskId)
    requires d.sched == Sched([a, b], 0.0) && d.running.Some? && d.running.value !in {a, b}
    requires d.running.value in d.attrs && d.attrs[d.running.value].weight == 1024
    requires Vruntime(d.attrs, d.running.value) >= 0.0
    requires Min(Vruntime(d.attrs, a), Vruntime(d.attrs, b)) == 0.0
    ensures var id := d.running.value;
            var v := Vruntime(d.attrs, id) + STEP;
            Admit(Table(Tiny()), Release(Table(Tiny()), d, STEP), id, false)
              == d.(sched := Sched([a, b, id], 0.0), running := None, attrs := d.attrs[id := d.attrs[id].(vruntime := v)])
  {
    hide MinVruntime;
    var id := d.running.value;
    var v := Vruntime(d.attrs, id) + STEP;
    var attrs := d.attrs[id := d.attrs[id].(vruntime := v)];
    LeastOfTwo(attrs, a, b);
    assert Scaled(STEP, 1024.0) == STEP;
    assert attrs[id := attrs[id].(vruntime := v)] == attrs;
    assert [a, b] + [id] == [a, b, id];
  }

  lemma FirstSlice(slice0: real)
    ensures var d := Stage([2, 3], Fields(0.0, 0.0, 0.0), 1);
            Begin(Table(Tiny()), slice0, Admit(Table(Tiny()), Release(Table(Tiny()), d, STEP), 1, false))
              == Stage([2, 3], Fields(STEP, 0.0, 0.0), 1)
  {
    hide Begin, Admit, Release, MinElement, Drop, Table;
    var attrs := Fields(STEP, 0.0, 0.0);
    RequeueThird(Stage([2, 3], Fields(0.0, 0.0, 0.0), 1), 2, 3);
    assert Fields(0.0, 0.0, 0.0)[1 := attrs[1]] == attrs;
    ScanThree(Less(attrs), 2, 3, 1);
    DropThree(2, 3, 1, 1);
    assert MinElement(Less(attrs), [2, 3, 1]) == 1;
    assert Drop([2, 3, 1], 1) == [2, 3];
    PickThree(slice0, Lane(Sched([2, 3, 1], 0.0), attrs, None, STEP), 2, 3, 1);
  }

  lemma SecondSlice(slice0: real)
    ensures var d := Stage([2, 3], Fields(STEP, 0.0, 0.0), 1);
            Begin(Table(Tiny()), slice0, Admit(Table(Tiny()), Release(Table(Tiny()), d, STEP), 1, false))
              == Stage([3, 1], Fields(STEP + STEP, 0.0, 0.0), 2)
  {
    hide Begin, Admit, Release, MinElement, Drop, Table;
    var attrs := Fields(STEP + STEP, 0.0, 0.0);
    RequeueThird(Stage([2, 3], Fields(STEP, 0.0, 0.0), 1), 2, 3);
    assert Fields(STEP, 0.0, 0.0)[1 := attrs[1]] == attrs;
    ScanThree(Less(attrs), 2, 3, 1);
    DropThree(2, 3, 1, 2);
    assert MinElement(Less(attrs), [2, 3, 1]) == 2;
    assert Drop([2, 3, 1], 2) == [3, 1];
    PickThree(slice0, Lane(Sched([2, 3, 1], 0.0), attrs, None, STEP), 2, 3, 1);
  }

  lemma ThirdSlice(slice0: real)
    ensures var d := Stage([3, 1], Fields(STEP + STEP, 0.0, 0.0), 2);
            Begin(Table(Tiny()), slice0, Admit(Table(Tiny()), Release(Table(Tiny()), d, STEP), 2, false))
              == Stage([3, 1], Fields(STEP + STEP, STEP, 0.0), 2)
  {
    hide Begin, Admit, Release, MinElement, Drop, Table;
    var attrs := Fields(STEP + STEP, STEP, 0.0);
    RequeueThird(Stage([3, 1], Fields(STEP + STEP, 0.0, 0.0), 2), 3, 1);
    assert Fields(STEP + STEP, 0.0, 0.0)[2 := attrs[2]] == attrs;
    ScanThree(Less(attrs), 3, 1, 2);
    DropThree(3, 1, 2, 2);
    assert MinElement(Less(attrs), [3, 1, 2]) == 2;
    assert Drop([3, 1, 2], 2) == [3, 1];
    PickThree(slice0, Lane(Sched([3, 1, 2], 0.0), attrs, None, STEP), 3, 1, 2);
  }

  lemma PickOne(params: Params, slice0: real, d: Lane<Sched>, x: TaskId)
    requires params.Valid() && d.sched == Sched([x], 0.0)
    ensures Begin(Table(params), slice0, d) == Lane(Sched([], 0.0), d.attrs, Some(x), SliceFor(params, Sched([x], 0.0), d.attrs, x))
  {
    hide SliceFor, MinElement;
    ScanThree(Less(d.attrs), x, x, x);
    DropLast([], x, x);
    assert [] + [x] == [x] && Drop([], x) == [];
  }

  function ThreeJobs(): seq<Job> {
    [Job(1, 0.0, 1.0, 1024), Job(2, 0.0, 1.0, 1024), Job(3, 0.0, 1.0, 1024)]
  }

  lemma Submitted(cfg: Config, rest: seq<Job>, job: Job)
    ensures Initial(cfg, Sched([], 0.0), rest + [job]) == Submit(Initial(cfg, Sched([], 0.0), rest), job)
  {
    assert (rest + [job])[..|rest|] == rest;
  }

  lemma ThreeInitially(cfg: Config)
    ensures var s := Initial(cfg, Sched([], 0.0), ThreeJobs());
            s.attrs == Fields(0.0, 0.0, 0.0) && Awaited(s) == {1, 2, 3}
  {
    hide Initial;
    var jobs := ThreeJobs();
    assert jobs == [jobs[0], jobs[1]] + [jobs[2]] && [jobs[0], jobs[1]] == [jobs[0]] + [jobs[1]] && [jobs[0]] == [] + [jobs[0]];
    Nothing(cfg);
    Submitted(cfg, [], jobs[0]);
    Submitted(cfg, [jobs[0]], jobs[1]);
    Submitted(cfg, [jobs[0], jobs[1]], jobs[2]);
  }

  lemma Nothing(cfg: Config)
    ensures Initial(cfg, Sched([], 0.0), []) == Empty(cfg, Sched([], 0.0))
  {
  }

  lemma Zeros()
    ensures forall x :: x in {1, 2, 3} ==>
              x in Fields(0.0, 0.0, 0.0) && Fields(0.0, 0.0, 0.0)[x] == NewAttr(1024)
  {
  }

  /** The three jobs arrive one by one, and the first runs. */
  lemma ThreeArrive(cfg: Config, stop: real) returns (choices: seq<nat>, s: State<Sched>)
    requires cfg.Valid() && !cfg.shared && cfg.cores == 1 && stop >= 0.0
    ensures Passes(Tiny(), cfg, ThreeJobs(), 1.0, choices, stop, s) && Shape(Table(Tiny()), cfg, s)
    ensures Opening(s) && Awaited(s) == {} && View(s, 0) == Stage([2, 3], Fields(0.0, 0.0, 0.0), 1)
  {
    hide Lawful, Driven, Opening, Begin, Step, Table, Fields, Reached, SliceFor, Initial;
    s := Starts(Tiny(), cfg, ThreeJobs(), 1.0, stop);
    DrivenShape(Tiny(), cfg, s, 1.0);
    ThreeInitially(cfg);
    Zeros();
    var i := Arrives(Tiny(), cfg, s, 1.0, 1, {1, 2, 3});
    PickOne(Tiny(), cfg.defaultSlice, Joining(View(s, 0), 1), 1);
    TinySlices(s.attrs, 1, 2, 3, 1);
    choices, s := Moved(Tiny(), cfg, ThreeJobs(), 1.0, [], stop, s, i);
    i := Arrives(Tiny(), cfg, s, 1.0, 2, {1, 2, 3});
    choices, s := Moved(Tiny(), cfg, ThreeJobs(), 1.0, choices, stop, s, i);
    i := Arrives(Tiny(), cfg, s, 1.0, 3, {1, 2, 3});
    choices, s := Moved(Tiny(), cfg, ThreeJobs(), 1.0, choices, stop, s, i);
    assert [] + [2] + [3] == [2, 3];
  }

  /** The scan can miss in a run: three equal jobs, slices of nine tenths of the tolerance,
      and after three of them task 2 has just been chosen over task 1, which is put before it. */
  lemma ScanMissesInRuns(cfg: Config, stop: real) returns (choices: seq<nat>, s: State<Sched>)
    requires cfg.Valid() && !cfg.shared && cfg.cores == 1 && stop >= 1.0
    ensures Tiny().Valid() && AllAtZero(ThreeJobs())
    ensures Reached(Table(Tiny()), cfg, Sched([], 0.0), ThreeJobs(), choices, stop, s)
    ensures |s.scheds| == 1 && |s.cores| == 1 && s.cores[0].running == Some(2) && s.cores[0].since == s.now
    ensures 1 in s.scheds[0].queue && Before(s.attrs, 1, 2)
  {
    hide Lawful, Driven, Opening, Begin, Step, Table, Reached, Admit, Release;
    choices, s := ThreeArrive(cfg, stop);
    StartsAtZero(cfg, s);
    var i := Slices(Tiny(), cfg, s, 1.0);
    FirstSlice(cfg.defaultSlice);
    choices, s := Moved(Tiny(), cfg, ThreeJobs(), 1.0, choices, stop, s, i);
    i := Slices(Tiny(), cfg, s, 1.0);
    SecondSlice(cfg.defaultSlice);
    choices, s := Moved(Tiny(), cfg, ThreeJobs(), 1.0, choices, stop, s, i);
    i := Slices(Tiny(), cfg, s, 1.0);
    ThirdSlice(cfg.defaultSlice);
    choices, s := Moved(Tiny(), cfg, ThreeJobs(), 1.0, choices, stop, s, i);
  }

  lemma StartsAtZero(cfg: Config, s: State<Sched>)
    requires Driven(Tiny(), cfg, s, 1.0) && Opening(s) && s.cores[0].running.Some?
    ensures s.cores[0].since == 0.0
  {
    OpeningSince(Table(Tiny()), cfg, s);
  }

  // ------------------------------------------------ a run with proportional shares

  /** The default parameters (cfs_scheduler.hpp:29-30). */
  function Defaults(): Params {
    Params(24.0, 3.0, 4.0)
  }

  function TwoJobs(): seq<Job> {
    [Job(1, 0.0, 100.0, 1024), Job(2, 0.0, 100.0, 1024)]
  }

  function Pair(a: real): Attrs {
    map[1 := NewAttr(1024).(vruntime := a), 2 := NewAttr(1024)]
  }

  lemma TwoInitially(cfg: Config)
    ensures var s := Initial(cfg, Sched([], 0.0), TwoJobs()); s.attrs == Pair(0.0) && Awaited(s) == {1, 2}
  {
    hide Initial;
    var jobs := TwoJobs();
    assert jobs == [jobs[0]] + [jobs[1]] && [jobs[0]] == [] + [jobs[0]];
    Nothing(cfg);
    Submitted(cfg, [], jobs[0]);
    Submitted(cfg, [jobs[0]], jobs[1]);
  }

  lemma DefaultSlices(attrs: Attrs)
    requires AttrOf(attrs, 1).weight == AttrOf(attrs, 2).weight == 1024
    ensures SliceFor(Defaults(), Sched([1], 0.0), attrs, 1) == 12.0
    ensures SliceFor(Defaults(), Sched([2, 1], 0.0), attrs, 2) == 8.0
  {
    WeightOfThree(attrs, 1, 2, 2);
    WeightOfThree(attrs, 2, 1, 1);
    PeriodIs(Defaults(), 1);
    PeriodIs(Defaults(), 2);
  }

  lemma HalfCharged()
    ensures var p, d := Table(Defaults()), Lane(Sched([2], 0.0), Pair(0.0), Some(1), 12.0);
            Admit(p, Release(p, d, 12.0), 1, false) == Lane(Sched([2, 1], 0.0), Pair(12.0), None, 12.0)
  {
    hide MinVruntime;
    var attrs := Pair(12.0);
    LeastOfTwo(attrs, 2, 2);
    assert Scaled(12.0, 1024.0) == 12.0;
    assert Pair(0.0)[1 := attrs[1]] == attrs && attrs[1 := attrs[1]] == attrs && [2] + [1] == [2, 1];
  }

  /** After half a period task 1 makes way for task 2. */
  lemma HalfPeriod(slice0: real)
    ensures var p, d := Table(Defaults()), Lane(Sched([2], 0.0), Pair(0.0), Some(1), 12.0);
            Begin(p, slice0, Admit(p, Release(p, d, 12.0), 1, false)) == Lane(Sched([1], 0.0), Pair(12.0), Some(2), 8.0)
  {
    hide SliceFor, MinElement, Drop, Admit, Release;
    HalfCharged();
    var attrs := Pair(12.0);
    ScanThree(Less(attrs), 2, 1, 1);
    DropThree(2, 1, 0, 2);
    DefaultSlices(attrs);
    assert MinElement(Less(attrs), [2, 1]) == 2 && Drop([2, 1], 2) == [1];
  }

  lemma TwoAtRest()
    ensures forall x :: x in {1, 2} ==> x in Pair(0.0) && Pair(0.0)[x] == NewAttr(1024)
  {
  }

  /** The two jobs arrive, and the first has its slice. */
  lemma TwoShare(cfg: Config, stop: real) returns (choices: seq<nat>, s: State<Sched>)
    requires cfg.Valid() && !cfg.shared && cfg.cores == 1 && stop >= 12.0
    ensures Passes(Defaults(), cfg, TwoJobs(), 100.0, choices, stop, s)
    ensures View(s, 0) == Lane(Sched([1], 0.0), Pair(12.0), Some(2), 8.0)
  {
    hide Lawful, Driven, Opening, Begin, Step, Table, Reached, SliceFor, Initial, Admit, Release, Pair;
    s := Starts(Defaults(), cfg, TwoJobs(), 100.0, stop);
    DrivenShape(Defaults(), cfg, s, 100.0);
    TwoInitially(cfg);
    TwoAtRest();
    var i := Arrives(Defaults(), cfg, s, 100.0, 1, {1, 2});
    PickOne(Defaults(), cfg.defaultSlice, Joining(View(s, 0), 1), 1);
    DefaultSlices(s.attrs);
    choices, s := Moved(Defaults(), cfg, TwoJobs(), 100.0, [], stop, s, i);
    i := Arrives(Defaults(), cfg, s, 100.0, 2, {1, 2});
    choices, s := Moved(Defaults(), cfg, TwoJobs(), 100.0, choices, stop, s, i);
    assert [] + [2] == [2];
    OpeningZero(cfg, s);
    i := Slices(Defaults(), cfg, s, 100.0);
    HalfPeriod(cfg.defaultSlice);
    choices, s := Moved(Defaults(), cfg, TwoJobs(), 100.0, choices, stop, s, i);
  }

  lemma OpeningZero(cfg: Config, s: State<Sched>)
    requires Driven(Defaults(), cfg, s, 100.0) && Opening(s) && s.cores[0].running.Some?
    ensures s.cores[0].since == 0.0
  {
    OpeningSince(Table(Defaults()), cfg, s);
  }

  /** Such runs exist: with the default parameters and two equal jobs, a state in which task
      1 waits, task 2 runs, task 1 has been charged, and everything is as
      SharesAreProportionalInRuns asks. */
  lemma SharesAreProportionalSomewhere(cfg: Config, stop: real) returns (choices: seq<nat>, s: State<Sched>)
    requires cfg.Valid() && !cfg.shared && cfg.cores == 1 && stop >= 12.0
    ensures Defaults().Valid() && AllAtZero(TwoJobs()) && CreditCoversJobs(Defaults(), TwoJobs(), 12.0)
    ensures Reached(Table(Defaults()), cfg, Sched([], 0.0), TwoJobs(), choices, stop, s)
    ensures var s0 := Initial(cfg, Sched([], 0.0), TwoJobs());
            Shape(Table(Defaults()), cfg, s0) && RunAddsAtMost(Defaults(), cfg, s0, choices, stop, 12.0)
    ensures 1 in s.place && s.place[1].Queued? && 1 in s.tasks && 2 in s.place && s.place[2].OnCore? && 2 in s.tasks
    ensures Vruntime(s.attrs, 1) == 12.0 && Vruntime(s.attrs, 2) == 0.0
  {
    hide Reached, RunAddsAtMost, Table, Lawful, Initial, SliceLimit, CoversJobs, CreditCoversJobs;
    choices, s := TwoShare(cfg, stop);
    assert Scaled(12.0, 1024.0) == 12.0;
    EqualWeightsQualify(Defaults(), TwoJobs(), 1024);
    JobsBoundCharges(Defaults(), cfg, TwoJobs(), choices, stop, s, 12.0);
    TwoPlaces(cfg, s);
    ReachedStart(cfg, choices, stop, s);
  }

  lemma ReachedStart(cfg: Config, choices: seq<nat>, stop: real, s: State<Sched>)
    requires Reached(Table(Defaults()), cfg, Sched([], 0.0), TwoJobs(), choices, stop, s)
    ensures Shape(Table(Defaults()), cfg, Initial(cfg, Sched([], 0.0), TwoJobs()))
  {
  }

  lemma TwoPlaces(cfg: Config, s: State<Sched>)
    requires Driven(Defaults(), cfg, s, 100.0) && |s.scheds| == 1 && |s.cores| == 1
    requires s.scheds[0].queue == [1] && s.cores[0].running == Some(2)
    ensures 1 in s.place && s.place[1].Queued? && 1 in s.tasks && 2 in s.place && s.place[2].OnCore? && 2 in s.tasks
  {
    hide Lawful, Clock, Accounted, Timers, OneTimer;
    assert Table(Defaults()).ready(s.scheds[0])[1] == 1;
  }
}

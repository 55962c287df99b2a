/** One core and all jobs submitted for time 0: as long as no arrival preempts, every task
    has arrived before anything is charged. */
module EngineOpening {
  import opened Common
  import opened Tasks
  import opened Policies
  import opened Lanes
  import opened Engine
  import opened EngineInvariant
  import opened EngineRuns
  import opened EngineLanes

  /** Time 0 has not passed and nobody has executed. */
  ghost predicate Opening<S>(s: State<S>) {
    && s.now == 0.0
    && (forall e :: e in s.events && e.TimeSlice? ==> e.time > 0.0)
    && (forall id :: id in s.tasks ==> s.tasks[id].remaining == s.tasks[id].execution)
    && (forall id :: id in Awaited(s) && id in s.tasks ==> s.tasks[id].arrival == 0.0)
  }

  /** The next event is an arrival while any is awaited. */
  lemma ArrivalsFirst<S(!new)>(p: Policy<S>, cfg: Config, s: State<S>, i: nat)
    requires Inv(p, cfg, s) && Opening(s) && Awaited(s) != {} && Earliest(s.events, i)
    ensures s.events[i].Arrival? && s.events[i].time == 0.0
  {
    hide Places, Accounted, Timers, Lawful;
    var x :| x in Awaited(s);
    var a := Arrival(s.tasks[x].arrival, x);
    assert multiset(s.events)[a] == 1;
    assert a in s.events && s.events[i] in s.events;
  }

  /** An arriving task does not preempt. */
  predicate Polite<S>(p: Policy<S>, s: State<S>, id: TaskId)
    requires 0 < |s.scheds| && 0 < |s.cores|
  {
    !Displaces(p, Admit(p, View(s, 0), id, true), id)
  }

  /** Same tasks with the same work. */
  ghost predicate SameWork<S>(s: State<S>, r: State<S>) {
    && r.tasks.Keys == s.tasks.Keys
    && forall x :: x in s.tasks ==>
         && r.tasks[x].remaining == s.tasks[x].remaining
         && r.tasks[x].execution == s.tasks[x].execution
         && r.tasks[x].arrival == s.tasks[x].arrival
  }

  /** A polite arrival only joins the queue, and an idle core then dispatches. */
  lemma PoliteStep<S(!new)>(p: Policy<S>, cfg: Config, s: State<S>, i: nat) returns (s1: State<S>)
    requires Inv(p, cfg, s) && !cfg.shared && cfg.cores == 1 && Earliest(s.events, i)
    requires s.events[i].Arrival? && Polite(p, s, s.events[i].id)
    ensures Shape(p, cfg, s1) && s1.events == Without(s.events, i) && s1.now == s.events[i].time
    ensures SameWork(s, s1) && s1.cores == s.cores && s1.switches == s.switches && ReadyCount(p, s1, 0) > 0
    ensures Step(p, cfg, s, i) == if s1.cores[0].running.None? then Dispatch(p, cfg, s1, 0) else s1
  {
    hide Places, Clock, Accounted, Timers, Lawful, Dispatch, Enqueue, Preempt, Without;
    var e, u := s.events[i], Pop(p, cfg, s, i);
    ArrivalKnown(p, cfg, s, i);
    var u' := u.(nextCore := if cfg.balancer.RoundRobin? then (u.nextCore + 1) % cfg.cores else u.nextCore);
    s1 := Enqueue(p, cfg, u', e.id, 0);
    EnqueueOpens(p, cfg, u', e.id);
    ViewEnqueue(p, cfg, u', e.id, 0);
    EnqueueGrows(p, cfg, u', e.id, 0);
  }

  lemma OpeningStep<S(!new)>(p: Policy<S>, cfg: Config, s: State<S>, i: nat)
    requires Inv(p, cfg, s) && !cfg.shared && cfg.cores == 1 && Opening(s) && Earliest(s.events, i)
    requires s.events[i].Arrival? && s.events[i].time == 0.0 && Polite(p, s, s.events[i].id)
    ensures Opening(Step(p, cfg, s, i))
  {
    hide Places, Clock, Accounted, Timers, Lawful, Dispatch, Polite, Without, Step;
    StepAwaits(p, cfg, s, i);
    WithoutFacts(s.events, i);
    PositiveWork(p, cfg, s);
    var s1 := PoliteStep(p, cfg, s, i);
    if s1.cores[0].running.None? {
      DispatchOpens(p, cfg, s1);
    }
  }

  lemma PositiveWork<S(!new)>(p: Policy<S>, cfg: Config, s: State<S>)
    requires Inv(p, cfg, s)
    ensures forall id :: id in s.tasks ==> s.tasks[id].execution > 0.0
  {
    forall id | id in s.tasks
      ensures s.tasks[id].execution > 0.0
    {
      assert TaskOk(s, id);
    }
  }

  lemma EnqueueOpens<S(!new)>(p: Policy<S>, cfg: Config, s: State<S>, id: TaskId)
    requires Shape(p, cfg, s) && id in s.tasks && !cfg.shared && cfg.cores == 1
    ensures var r := Enqueue(p, cfg, s, id, 0);
            r.events == s.events && r.cores == s.cores && r.switches == s.switches && SameWork(s, r)
  {
    hide Lawful;
  }

  /** A dispatch sets a timer in the future. */
  lemma DispatchOpens<S(!new)>(p: Policy<S>, cfg: Config, s: State<S>)
    requires Shape(p, cfg, s) && !cfg.shared && cfg.cores == 1 && ReadyCount(p, s, 0) > 0 && s.now == 0.0
    requires forall id :: id in s.tasks ==> s.tasks[id].remaining > 0.0
    requires forall e :: e in s.events && e.TimeSlice? ==> e.time > 0.0
    ensures var r := Dispatch(p, cfg, s, 0);
            SameWork(s, r) && forall e :: e in r.events && e.TimeSlice? ==> e.time > 0.0
  {
    hide Lawful;
    NextIsKnown(p, cfg, s, 0);
  }

  // ------------------------------------------------ the calls of the opening

  lemma {:induction false} AloneMeansNoArrivals<S>(p: Policy<S>, slice0: real, d: Lane<S>, roster: Roster, calls: seq<Call>)
    requires Trace(p, slice0, d, calls) && Alone(p, slice0, d, roster, calls) && roster.awaited == {}
    ensures NoArrivals(calls)
    decreases |calls|
  {
    hide Allowed, Do;
    if calls != [] {
      AloneMeansNoArrivals(p, slice0, Do(p, slice0, d, calls[0]), Follow(d, roster, calls[0]), calls[1..]);
      assert calls == [calls[0]] + calls[1..];
    }
  }

  lemma {:induction false} PunctualAfter(a: seq<Call>, b: seq<Call>)
    requires Punctual(b) && forall call :: call in a ==> !call.Charged?
    ensures Punctual(a + b)
  {
    if a == [] {
      assert a + b == b;
    } else {
      assert (a + b)[1..] == a[1..] + b && a[0] in a;
      PunctualAfter(a[1..], b);
    }
  }

  lemma PoliteMove<S>(p: Policy<S>, s: State<S>, m: Move)
    requires 0 < |s.scheds| && 0 < |s.cores| && m.Arrive? && Polite(p, s, m.id)
    ensures forall call :: call in MoveCalls(p, View(s, 0), m) ==> !call.Charged?
  {
  }

  // ------------------------------------------------ what a step executes

  function Done<S>(s: State<S>, id: TaskId): real
    requires id in s.tasks
  {
    s.tasks[id].execution - s.tasks[id].remaining
  }

  ghost predicate SameDone<S>(s: State<S>, r: State<S>) {
    SameExecution(s, r) && forall x :: x in s.tasks ==> Done(r, x) == Done(s, x)
  }

  ghost predicate SameExecution<S>(s: State<S>, r: State<S>) {
    r.tasks.Keys == s.tasks.Keys && forall x :: x in s.tasks ==> r.tasks[x].execution == s.tasks[x].execution
  }

  lemma DispatchDone<S(!new)>(p: Policy<S>, cfg: Config, s: State<S>)
    requires Shape(p, cfg, s) && !cfg.shared && cfg.cores == 1
    ensures SameDone(s, Dispatch(p, cfg, s, 0))
  {
    hide Lawful, Busiest;
    if ReadyCount(p, s, 0) > 0 {
      NextIsKnown(p, cfg, s, 0);
    } else {
      assert Busiest(p, s, 0, 1).None?;
    }
  }

  lemma ChargeDone<S(!new)>(p: Policy<S>, cfg: Config, s: State<S>)
    requires Busy(p, cfg, s, 0) && !cfg.shared && ChargeInBounds(s, 0)
    ensures var id, u := s.cores[0].running.value, Charge(p, cfg, s, 0);
            && SameExecution(s, u)
            && forall x :: x in s.tasks ==> Done(u, x) == Done(s, x) + if x == id then s.now - s.cores[0].since else 0.0
  {
    hide Lawful;
  }

  lemma LeaveDone<S(!new)>(p: Policy<S>, cfg: Config, s: State<S>)
    requires Busy(p, cfg, s, 0) && !cfg.shared
    ensures SameDone(s, Requeue(p, cfg, s, 0)) && SameDone(s, Complete(p, cfg, s, 0))
  {
    hide Lawful;
  }

  /** A step executes what its timer charges, and a polite arrival executes nothing. */
  lemma StepDone<S(!new)>(p: Policy<S>, cfg: Config, s: State<S>, i: nat, m: Move)
    requires Inv(p, cfg, s) && !cfg.shared && cfg.cores == 1 && Earliest(s.events, i)
    requires AloneStep(s, s.events[i], m) && (m.Arrive? ==> Polite(p, s, m.id))
    ensures var r := Step(p, cfg, s, i);
            && SameExecution(s, r)
            && forall x :: x in s.tasks ==>
                 Done(r, x) == Done(s, x) + if m.Timer? && s.cores[0].running == Some(x) then m.cpu else 0.0
  {
    hide Places, Clock, Accounted, Timers, Lawful, Step, Polite, OwnCharge, Done;
    var e := s.events[i];
    if e.Arrival? {
      ArrivalDone(p, cfg, s, i);
    } else {
      TimerDone(p, cfg, s, i);
      if m.Timer? {
        OwnChargeTime(s, e, 0, m);
      }
    }
  }

  lemma ArrivalDone<S(!new)>(p: Policy<S>, cfg: Config, s: State<S>, i: nat)
    requires Inv(p, cfg, s) && !cfg.shared && cfg.cores == 1 && Earliest(s.events, i)
    requires s.events[i].Arrival? && Polite(p, s, s.events[i].id)
    ensures SameDone(s, Step(p, cfg, s, i))
  {
    hide Places, Clock, Accounted, Timers, Lawful, Dispatch, Polite, Step;
    var s1 := PoliteStep(p, cfg, s, i);
    if s1.cores[0].running.None? {
      DispatchDone(p, cfg, s1);
    }
  }

  lemma TimerDone<S(!new)>(p: Policy<S>, cfg: Config, s: State<S>, i: nat)
    requires Inv(p, cfg, s) && !cfg.shared && cfg.cores == 1 && Earliest(s.events, i) && s.events[i].TimeSlice?
    ensures var r, e := Step(p, cfg, s, i), s.events[i];
            && SameExecution(s, r)
            && forall x :: x in s.tasks ==>
                 Done(r, x) == Done(s, x)
                   + if x == e.id && s.cores[0].running == Some(e.id) then e.time - s.cores[0].since else 0.0
  {
    hide Places, Clock, Accounted, Timers, Lawful, TimerFires, Done, ChargeInBounds;
    var e, u := s.events[i], Pop(p, cfg, s, i);
    assert e in s.events;
    if s.cores[0].running == Some(e.id) {
      BoundsAtPop(p, cfg, s, i, 0);
    }
    FiresDone(p, cfg, u, e.id);
    SameDoneLater(p, cfg, s, i);
  }

  lemma SameDoneLater<S(!new)>(p: Policy<S>, cfg: Config, s: State<S>, i: nat)
    requires Shape(p, cfg, s) && i < |s.events|
    ensures SameDone(s, Pop(p, cfg, s, i))
  {
  }

  lemma FiresDone<S(!new)>(p: Policy<S>, cfg: Config, u: State<S>, id: TaskId)
    requires Shape(p, cfg, u) && !cfg.shared && cfg.cores == 1 && id in u.tasks
    requires u.cores[0].running == Some(id) ==> ChargeInBounds(u, 0)
    ensures var r := TimerFires(p, cfg, u, id, 0);
            && SameExecution(u, r)
            && forall x :: x in u.tasks ==>
                 Done(r, x) == Done(u, x)
                   + if x == id && u.cores[0].running == Some(id) then u.now - u.cores[0].since else 0.0
  {
    hide Lawful, Dispatch, Requeue, Complete, Charge, Done;
    if u.cores[0].running == Some(id) {
      ChargeDone(p, cfg, u);
      var s1 := Charge(p, cfg, u, 0);
      LeaveDone(p, cfg, s1);
      DispatchDone(p, cfg, if s1.tasks[id].IsCompleted() then Complete(p, cfg, s1, 0) else Requeue(p, cfg, s1, 0));
    }
  }

  // ------------------------------------------------ what a step dispatches

  lemma DispatchSwitches<S(!new)>(p: Policy<S>, cfg: Config, s: State<S>)
    requires Shape(p, cfg, s) && !cfg.shared && cfg.cores == 1
    ensures Dispatch(p, cfg, s, 0).switches <= s.switches + 1
  {
    hide Lawful, Busiest;
    if ReadyCount(p, s, 0) > 0 {
      NextIsKnown(p, cfg, s, 0);
    } else {
      assert Busiest(p, s, 0, 1).None?;
    }
  }

  lemma LeaveSwitches<S(!new)>(p: Policy<S>, cfg: Config, s: State<S>)
    requires Busy(p, cfg, s, 0) && !cfg.shared
    ensures Charge(p, cfg, s, 0).switches == s.switches
    ensures Requeue(p, cfg, s, 0).switches == s.switches && Complete(p, cfg, s, 0).switches == s.switches
  {
    hide Lawful;
  }

  /** On one core a step dispatches at most once, and only when the timer of the running task
      fires or a polite arrival finds the core idle. */
  lemma StepSwitches<S(!new)>(p: Policy<S>, cfg: Config, s: State<S>, i: nat, m: Move)
    requires Inv(p, cfg, s) && !cfg.shared && cfg.cores == 1 && Earliest(s.events, i)
    requires AloneStep(s, s.events[i], m) && (m.Arrive? ==> Polite(p, s, m.id)) && s.cores[0].running.Some?
    ensures Step(p, cfg, s, i).switches <= s.switches + if m.Timer? then 1 else 0
  {
    hide Places, Clock, Accounted, Timers, Lawful, Polite, OwnCharge, Dispatch, TimerFires;
    var e := s.events[i];
    assert e in s.events;
    if e.Arrival? {
      hide Step;
      var s1 := PoliteStep(p, cfg, s, i);
    } else {
      FiresSwitches(p, cfg, Pop(p, cfg, s, i), e.id);
    }
  }

  lemma FiresSwitches<S(!new)>(p: Policy<S>, cfg: Config, u: State<S>, id: TaskId)
    requires Shape(p, cfg, u) && !cfg.shared && cfg.cores == 1 && id in u.tasks
    ensures TimerFires(p, cfg, u, id, 0).switches <= u.switches + if u.cores[0].running == Some(id) then 1 else 0
  {
    hide Lawful, Dispatch, Charge, Requeue, Complete;
    if u.cores[0].running == Some(id) {
      var s1 := Charge(p, cfg, u, 0);
      LeaveSwitches(p, cfg, u);
      LeaveSwitches(p, cfg, s1);
      DispatchSwitches(p, cfg, if s1.tasks[id].IsCompleted() then Complete(p, cfg, s1, 0) else Requeue(p, cfg, s1, 0));
    }
  }

  // ------------------------------------------------ jobs submitted for time 0

  ghost predicate AllAtZero(jobs: seq<Job>) {
    forall i :: 0 <= i < |jobs| ==> jobs[i].arrival == 0.0
  }

  lemma {:induction false} InitialOpens<S>(cfg: Config, sched: S, jobs: seq<Job>)
    requires AllAtZero(jobs)
    ensures Opening(Initial(cfg, sched, jobs))
    ensures forall id :: id in Initial(cfg, sched, jobs).tasks ==> Done(Initial(cfg, sched, jobs), id) == 0.0
  {
    if jobs != [] {
      InitialOpens(cfg, sched, jobs[..|jobs| - 1]);
      assert jobs[|jobs| - 1].arrival == 0.0;
      var s := Initial(cfg, sched, jobs[..|jobs| - 1]);
      forall id | id in Awaited(Initial(cfg, sched, jobs)) && id in Initial(cfg, sched, jobs).tasks
        ensures Initial(cfg, sched, jobs).tasks[id].arrival == 0.0
      {
        assert id == jobs[|jobs| - 1].id || id in Awaited(s);
      }
    }
  }

  // ------------------------------------------------ no preemption, no stale timers

  /** At most one timer is pending, and it is the running task's, at its deadline. */
  ghost predicate OneTimer<S>(s: State<S>) {
    && 0 < |s.cores|
    && (forall i, j :: 0 <= i < |s.events| && 0 <= j < |s.events| && s.events[i].TimeSlice? && s.events[j].TimeSlice? ==> i == j)
    && (forall e :: e in s.events && e.TimeSlice? ==> Live(s, e))
  }

  predicate Live<S>(s: State<S>, e: Event)
    requires 0 < |s.cores|
  {
    e.id in s.tasks && s.cores[0].running == Some(e.id) && e.time == Deadline(s.cores[0], s.tasks[e.id])
  }

  ghost predicate NoTimer(events: seq<Event>) {
    forall e :: e in events ==> e.Arrival?
  }

  lemma DispatchOneTimer<S(!new)>(p: Policy<S>, cfg: Config, s: State<S>)
    requires Shape(p, cfg, s) && !cfg.shared && cfg.cores == 1 && NoTimer(s.events)
    ensures OneTimer(Dispatch(p, cfg, s, 0))
  {
    hide Lawful, Busiest;
    var r := Dispatch(p, cfg, s, 0);
    if ReadyCount(p, s, 0) > 0 {
      NextIsKnown(p, cfg, s, 0);
      assert r.events[..|s.events|] == s.events;
      forall i | 0 <= i < |s.events|
        ensures r.events[i].Arrival?
      {
        assert r.events[i] == s.events[i];
      }
      assert Live(r, r.events[|s.events|]);
    } else {
      assert Busiest(p, s, 0, 1).None?;
      assert r.events == s.events;
      forall i | 0 <= i < |r.events|
        ensures r.events[i].Arrival?
      {
        assert r.events[i] in s.events;
      }
    }
  }

  lemma IdleHasNoTimer<S>(s: State<S>)
    requires OneTimer(s) && s.cores[0].running.None?
    ensures NoTimer(s.events)
  {
    forall e | e in s.events
      ensures e.Arrival?
    {
      assert e.TimeSlice? ==> Live(s, e);
    }
  }

  lemma PoppedHasNoTimer<S>(s: State<S>, i: nat)
    requires OneTimer(s) && i < |s.events| && s.events[i].TimeSlice?
    ensures NoTimer(Without(s.events, i))
  {
    forall e | e in Without(s.events, i)
      ensures e.Arrival?
    {
      var k :| 0 <= k < |s.events| - 1 && Without(s.events, i)[k] == e;
      assert e == s.events[if k < i then k else k + 1];
    }
  }

  lemma PoppedArrival<S>(s: State<S>, r: State<S>, i: nat)
    requires OneTimer(s) && i < |s.events| && r.events == Without(s.events, i) && r.cores == s.cores
    requires SameWorkOf(s, r)
    ensures OneTimer(r)
  {
    forall a, b | 0 <= a < |r.events| && 0 <= b < |r.events| && r.events[a].TimeSlice? && r.events[b].TimeSlice?
      ensures a == b
    {
      assert r.events[a] == s.events[if a < i then a else a + 1];
      assert r.events[b] == s.events[if b < i then b else b + 1];
    }
    WithoutFacts(s.events, i);
    forall e | e in r.events && e.TimeSlice?
      ensures Live(r, e)
    {
      assert Live(s, e);
    }
  }

  ghost predicate SameWorkOf<S>(s: State<S>, r: State<S>) {
    forall x :: x in s.tasks ==> x in r.tasks && r.tasks[x].remaining == s.tasks[x].remaining
  }

  lemma FiresOneTimer<S(!new)>(p: Policy<S>, cfg: Config, u: State<S>, id: TaskId)
    requires Shape(p, cfg, u) && !cfg.shared && cfg.cores == 1 && id in u.tasks
    requires u.cores[0].running == Some(id) && NoTimer(u.events)
    ensures OneTimer(TimerFires(p, cfg, u, id, 0))
  {
    hide Lawful, Dispatch, Requeue, Complete, Charge;
    var s1 := Charge(p, cfg, u, 0);
    ReleaseEvents(p, cfg, u, 0);
    DispatchOneTimer(p, cfg, if s1.tasks[id].IsCompleted() then Complete(p, cfg, s1, 0) else Requeue(p, cfg, s1, 0));
  }

  /** Without preemption no timer is ever stale, so each fires at its task's deadline. */
  lemma StepKeepsOneTimer<S(!new)>(p: Policy<S>, cfg: Config, s: State<S>, i: nat)
    requires Inv(p, cfg, s) && !cfg.shared && cfg.cores == 1 && Earliest(s.events, i) && OneTimer(s)
    requires s.events[i].Arrival? ==> Polite(p, s, s.events[i].id)
    ensures OneTimer(Step(p, cfg, s, i))
  {
    hide Places, Clock, Accounted, Timers, Lawful, Dispatch, Polite, OneTimer, TimerFires;
    assert s.events[i] in s.events;
    if s.events[i].Arrival? {
      hide Step;
      var s1 := PoliteStep(p, cfg, s, i);
      PoppedArrival(s, s1, i);
      if s1.cores[0].running.None? {
        IdleHasNoTimer(s1);
        DispatchOneTimer(p, cfg, s1);
      }
    } else {
      assert Live(s, s.events[i]) by { TimerIsLive(s, i); }
      PoppedHasNoTimer(s, i);
      FiresOneTimer(p, cfg, Pop(p, cfg, s, i), s.events[i].id);
    }
  }

  lemma TimerIsLive<S>(s: State<S>, i: nat)
    requires OneTimer(s) && i < |s.events| && s.events[i].TimeSlice?
    ensures Live(s, s.events[i])
  {
    assert s.events[i] in s.events;
  }

  lemma {:induction false} InitialOneTimer<S>(cfg: Config, sched: S, jobs: seq<Job>)
    requires cfg.cores == 1
    ensures NoTimer(Initial(cfg, sched, jobs).events) && |Initial(cfg, sched, jobs).cores| == 1
  {
    if jobs != [] {
      InitialOneTimer(cfg, sched, jobs[..|jobs| - 1]);
    }
  }
}

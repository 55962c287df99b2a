/** Every run ends, although timers are never cancelled and a task may be dispatched again
    with nothing left to execute: an explicit measure falls with every event. */
module EngineTermination {
  import opened Common
  import opened Tasks
  import opened Policies
  import opened Engine
  import opened EngineInvariant
  import opened EngineRuns
  import opened EngineWork

  /** No dispatch of a task with more than 0.001 left sets its timer closer than this. */
  function Quantum<S>(p: Policy<S>, cfg: Config): real {
    Min(Min(p.minSlice, cfg.defaultSlice), 0.001)
  }

  lemma QuantumPositive<S(!new)>(p: Policy<S>, cfg: Config)
    requires Lawful(p) && cfg.Valid()
    ensures Quantum(p, cfg) > 0.0
  {
  }

  /** How many quanta fit between time and stop, plus one; 0 past stop. */
  function Ticks(time: real, stop: real, d: real): (n: nat)
    requires d > 0.0
  {
    if time > stop then 0
    else
      assert (stop - time) / d >= 0.0;
      ((stop - time) / d).Floor + 1
  }

  function Cost(e: Event, stop: real, d: real): nat
    requires d > 0.0
  {
    Ticks(e.time, stop, d) + if e.Arrival? then 2 else 0
  }

  function CostSum(events: seq<Event>, stop: real, d: real): nat
    requires d > 0.0
  {
    if events == [] then 0 else CostSum(events[..|events| - 1], stop, d) + Cost(events[|events| - 1], stop, d)
  }

  /** Ready tasks that would complete without executing further. */
  function Spent<S>(s: State<S>): set<TaskId> {
    set id | id in s.tasks && id in s.place && s.place[id].Queued? && s.tasks[id].IsCompleted()
  }

  function Measure<S>(s: State<S>, stop: real, d: real): nat
    requires d > 0.0
  {
    CostSum(s.events, stop, d) + |Spent(s)|
  }

  // ------------------------------------------------ ticks and sums

  lemma TicksFall(t1: real, t2: real, stop: real, d: real)
    requires d > 0.0 && t1 <= t2
    ensures Ticks(t2, stop, d) <= Ticks(t1, stop, d)
    ensures t1 + d <= t2 && t1 <= stop ==> Ticks(t2, stop, d) < Ticks(t1, stop, d)
  {
    if t2 <= stop {
      Quotients(stop - t2, stop - t1, d);
    }
  }

  lemma Quotients(a: real, b: real, d: real)
    requires d > 0.0 && a <= b
    ensures a / d <= b / d
    ensures a + d <= b ==> a / d + 1.0 <= b / d
  {
    AddQuotients(a, b - a, d);
    if a + d <= b {
      AddQuotients(d, b - a - d, d);
    }
  }

  lemma AddQuotients(x: real, y: real, d: real)
    requires d > 0.0
    ensures (x + y) / d == x / d + y / d && (y >= 0.0 ==> y / d >= 0.0) && d / d == 1.0
  {
    var u, v := x / d, y / d;
    assert (u + v) * d == u * d + v * d == x + y;
  }

  lemma {:induction false} CostSumConcat(xs: seq<Event>, ys: seq<Event>, stop: real, d: real)
    requires d > 0.0
    ensures CostSum(xs + ys, stop, d) == CostSum(xs, stop, d) + CostSum(ys, stop, d)
  {
    if ys == [] {
      assert xs + ys == xs;
    } else {
      CostSumConcat(xs, ys[..|ys| - 1], stop, d);
      assert (xs + ys)[..|xs + ys| - 1] == xs + ys[..|ys| - 1];
    }
  }

  lemma CostSumWithout(xs: seq<Event>, i: nat, stop: real, d: real)
    requires d > 0.0 && i < |xs|
    ensures CostSum(Without(xs, i), stop, d) == CostSum(xs, stop, d) - Cost(xs[i], stop, d)
  {
    CostSumConcat(xs[..i], xs[i + 1..], stop, d);
    CostSumConcat(xs[..i + 1], xs[i + 1..], stop, d);
    assert xs == xs[..i + 1] + xs[i + 1..];
    assert xs[..i + 1][..i] == xs[..i];
  }

  lemma CostSumAppend(xs: seq<Event>, e: Event, stop: real, d: real)
    requires d > 0.0
    ensures CostSum(xs + [e], stop, d) == CostSum(xs, stop, d) + Cost(e, stop, d)
  {
    assert (xs + [e])[..|xs|] == xs;
  }

  // ------------------------------------------------ what each operation costs

  /** Only task id changes: at most it is one more spent ready task. */
  lemma SpentGrows<S>(s: State<S>, r: State<S>, id: TaskId)
    requires forall x :: x in r.tasks && x in r.place && x != id ==>
               x in s.tasks && x in s.place && r.tasks[x] == s.tasks[x] && r.place[x] == s.place[x]
    ensures |Spent(r)| <= |Spent(s)| + 1
    ensures id !in Spent(r) ==> |Spent(r)| <= |Spent(s)|
  {
    SubsetSize(Spent(r) - {id}, Spent(s));
  }

  lemma SubsetSize<T>(a: set<T>, b: set<T>)
    requires a <= b
    ensures |a| <= |b|
  {
    assert b == a + (b - a);
  }

  lemma SpentShrinks<S>(s: State<S>, r: State<S>, id: TaskId)
    requires forall x :: x in r.tasks && x in r.place && x != id ==>
               x in s.tasks && x in s.place && r.tasks[x] == s.tasks[x] && r.place[x] == s.place[x]
    requires id !in Spent(r)
    ensures |Spent(r)| <= |Spent(s)| - if id in Spent(s) then 1 else 0
  {
    SubsetSize(Spent(r), Spent(s) - {id});
  }

  /** Launching a queued task adds a timer that costs less than one set for now, or takes a
      spent task out of the queues. */
  lemma LaunchCost<S(!new)>(p: Policy<S>, cfg: Config, s: State<S>, c: nat, q: nat, d: Decision, stop: real)
    requires Inv(p, cfg, s) && c < cfg.cores && q < cfg.Queues() && s.now <= stop
    requires d.id in p.ready(s.scheds[q]) && LawfulDecision(p, s.scheds[q], Some(d))
    ensures d.id in s.tasks && Quantum(p, cfg) > 0.0
    ensures Measure(Launch(p, cfg, RemoveFrom(p, cfg, s, d.id, q), c, d), stop, Quantum(p, cfg))
         <  Measure(s, stop, Quantum(p, cfg)) + Ticks(s.now, stop, Quantum(p, cfg))
  {
    hide Timers, Clock;
    var g := Quantum(p, cfg);
    ReadyIsPlaced(p, s, q, d.id);
    assert TaskOk(s, d.id);
    hide Places, Accounted;
    var r := Launch(p, cfg, RemoveFrom(p, cfg, s, d.id, q), c, d);
    var e := r.events[|s.events|];
    CostSumAppend(s.events, e, stop, g);
    TicksFall(s.now, e.time, stop, g);
    SpentShrinks(s, r, d.id);
  }

  lemma MigrateCost<S(!new)>(p: Policy<S>, cfg: Config, s: State<S>, c: nat, v: nat, id: TaskId, stop: real, g: real)
    requires Inv(p, cfg, s) && v < cfg.Queues() && c < cfg.Queues() && id in p.ready(s.scheds[v]) && g > 0.0
    ensures id in s.tasks && Measure(Stolen(p, cfg, s, c, v, id), stop, g) == Measure(s, stop, g)
  {
    ReadyIsPlaced(p, s, v, id);
    assert Spent(Stolen(p, cfg, s, c, v, id)) == Spent(s);
  }

  lemma DispatchCost<S(!new)>(p: Policy<S>, cfg: Config, s: State<S>, c: nat, stop: real)
    requires Inv(p, cfg, s) && c < cfg.cores && s.cores[c].running.None? && s.now <= stop
    ensures Quantum(p, cfg) > 0.0
    ensures Measure(Dispatch(p, cfg, s, c), stop, Quantum(p, cfg))
         <  Measure(s, stop, Quantum(p, cfg)) + Ticks(s.now, stop, Quantum(p, cfg))
  {
    hide Accounted, Timers, Clock, Places;
    IdleIsSame(p, cfg, s, c);
    var q := cfg.QueueOf(c);
    if ReadyCount(p, s, q) > 0 {
      Decides(p, s.scheds[q], s.attrs);
      LaunchCost(p, cfg, s, c, q, p.schedule(s.scheds[q], s.attrs).value, stop);
    } else if cfg.stealing && !cfg.shared {
      StealCost(p, cfg, s, c, stop);
    }
  }

  lemma StealCost<S(!new)>(p: Policy<S>, cfg: Config, s: State<S>, c: nat, stop: real)
    requires Inv(p, cfg, s) && c < cfg.cores && s.cores[c].running.None? && !cfg.shared && s.now <= stop
    ensures Quantum(p, cfg) > 0.0
    ensures Measure(Steal(p, cfg, s, c), stop, Quantum(p, cfg))
         <  Measure(s, stop, Quantum(p, cfg)) + Ticks(s.now, stop, Quantum(p, cfg))
  {
    hide Accounted, Timers, Clock, Places, Lawful, Measure, Quantum;
    QuantumPositive(p, cfg);
    IdleIsSame(p, cfg, s, c);
    var v := Busiest(p, s, c, cfg.cores);
    if v.Some? {
      var s2, d := StealIsLaunch(p, cfg, s, c, v.value);
      MigrateCost(p, cfg, s, c, v.value, p.schedule(s.scheds[v.value], s.attrs).value.id, stop, Quantum(p, cfg));
      LaunchCost(p, cfg, s2, c, c, d, stop);
    } else {
      PositiveTicks(s.now, stop, Quantum(p, cfg));
    }
  }

  lemma PositiveTicks(time: real, stop: real, d: real)
    requires d > 0.0 && time <= stop
    ensures Ticks(time, stop, d) > 0
  {
  }

  // ------------------------------------------------ what each handler costs

  /** The running task, charged: on its queue again, spent only if so little is left. */
  lemma ReleaseCost<S(!new)>(p: Policy<S>, cfg: Config, s: State<S>, c: nat, stop: real, g: real)
    requires Busy(p, cfg, s, c) && g > 0.0
    ensures var r := Requeue(p, cfg, Charge(p, cfg, s, c), c);
            && Measure(r, stop, g) <= Measure(s, stop, g) + 1
            && (!r.tasks[s.cores[c].running.value].IsCompleted() ==> Measure(r, stop, g) <= Measure(s, stop, g))
  {
    SpentGrows(s, Requeue(p, cfg, Charge(p, cfg, s, c), c), s.cores[c].running.value);
  }

  lemma FinishCost<S(!new)>(p: Policy<S>, cfg: Config, s: State<S>, c: nat, stop: real, g: real)
    requires Busy(p, cfg, s, c) && g > 0.0
    ensures Measure(Complete(p, cfg, Charge(p, cfg, s, c), c), stop, g) <= Measure(s, stop, g)
  {
    SpentGrows(s, Complete(p, cfg, Charge(p, cfg, s, c), c), s.cores[c].running.value);
  }

  lemma EnqueueCost<S(!new)>(p: Policy<S>, cfg: Config, s: State<S>, id: TaskId, q: nat, stop: real, g: real)
    requires Shape(p, cfg, s) && id in s.tasks && q < cfg.Queues() && g > 0.0
    ensures Measure(Enqueue(p, cfg, s, id, q), stop, g) <= Measure(s, stop, g) + 1
  {
    SpentGrows(s, Enqueue(p, cfg, s, id, q), id);
  }

  lemma PopCost<S(!new)>(p: Policy<S>, cfg: Config, s: State<S>, i: nat, stop: real, g: real)
    requires Shape(p, cfg, s) && i < |s.events| && g > 0.0
    ensures Measure(Pop(p, cfg, s, i), stop, g) == Measure(s, stop, g) - Cost(s.events[i], stop, g)
  {
    CostSumWithout(s.events, i, stop, g);
    assert Spent(Pop(p, cfg, s, i)) == Spent(s);
  }

  lemma PreemptCost<S(!new)>(p: Policy<S>, cfg: Config, s: State<S>, c: nat, stop: real, g: real)
    requires Busy(p, cfg, s, c) && g > 0.0
    ensures Measure(Preempt(p, cfg, s, c), stop, g) <= Measure(s, stop, g) + 1
  {
    ReleaseCost(p, cfg, s, c, stop, g);
    assert Spent(Preempt(p, cfg, s, c)) == Spent(Requeue(p, cfg, Charge(p, cfg, s, c), c));
  }

  lemma TimerCost<S(!new)>(p: Policy<S>, cfg: Config, s: State<S>, i: nat, stop: real)
    requires Inv(p, cfg, s) && Earliest(s.events, i) && s.events[i].TimeSlice? && s.events[i].time <= stop
    ensures s.events[i].id in s.tasks && s.events[i].core < cfg.cores && Quantum(p, cfg) > 0.0
    ensures Measure(TimerFires(p, cfg, Pop(p, cfg, s, i), s.events[i].id, s.events[i].core), stop, Quantum(p, cfg))
         <  Measure(s, stop, Quantum(p, cfg))
  {
    hide Accounted, Timers, Clock, Places, Lawful, Quantum, Measure;
    QuantumPositive(p, cfg);
    var g, e, u := Quantum(p, cfg), s.events[i], Pop(p, cfg, s, i);
    assert e in s.events;
    PopTimer(p, cfg, s, i);
    PopCost(p, cfg, s, i, stop, g);
    PositiveTicks(e.time, stop, g);
    if s.cores[e.core].running == Some(e.id) {
      BoundsAtPop(p, cfg, s, i, e.core);
      var s1 := Charge(p, cfg, u, e.core);
      if s1.tasks[e.id].IsCompleted() {
        FinishKeeps(p, cfg, u, e.core);
        FinishCost(p, cfg, u, e.core, stop, g);
        DispatchCost(p, cfg, Complete(p, cfg, s1, e.core), e.core, stop);
      } else {
        ReleaseKeeps(p, cfg, u, e.core);
        ReleaseCost(p, cfg, u, e.core, stop, g);
        DispatchCost(p, cfg, Requeue(p, cfg, s1, e.core), e.core, stop);
      }
    }
  }

  /** After an arrival was queued: dispatch on an idle core, preemption, or neither. */
  lemma PlacementCost<S(!new)>(p: Policy<S>, cfg: Config, s1: State<S>, c: nat, stop: real)
    requires Inv(p, cfg, s1) && c < cfg.cores && s1.now <= stop
    requires s1.cores[c].running.Some? ==> ChargeInBounds(s1, c)
    ensures Quantum(p, cfg) > 0.0
    ensures s1.cores[c].running.None? ==>
              Measure(Dispatch(p, cfg, s1, c), stop, Quantum(p, cfg))
                < Measure(s1, stop, Quantum(p, cfg)) + Ticks(s1.now, stop, Quantum(p, cfg))
    ensures s1.cores[c].running.Some? ==>
              Measure(Dispatch(p, cfg, Preempt(p, cfg, s1, c), c), stop, Quantum(p, cfg))
                < Measure(s1, stop, Quantum(p, cfg)) + Ticks(s1.now, stop, Quantum(p, cfg)) + 1
  {
    hide Accounted, Timers, Clock, Places, Lawful, Quantum, Measure;
    QuantumPositive(p, cfg);
    if s1.cores[c].running.None? {
      DispatchCost(p, cfg, s1, c, stop);
    } else {
      PreemptKeeps(p, cfg, s1, c);
      PreemptCost(p, cfg, s1, c, stop, Quantum(p, cfg));
      DispatchCost(p, cfg, Preempt(p, cfg, s1, c), c, stop);
    }
  }

  /** Popping an arrival pays for its queueing, a preemption and a timer. */
  lemma ArrivalCost<S(!new)>(p: Policy<S>, cfg: Config, s: State<S>, i: nat, q: nat, stop: real, g: real)
    requires Inv(p, cfg, s) && Earliest(s.events, i) && s.events[i].Arrival? && q < cfg.Queues() && g > 0.0
    requires s.events[i].time <= stop
    ensures s.events[i].id in s.tasks
    ensures var s1 := Enqueue(p, cfg, Pop(p, cfg, s, i), s.events[i].id, q);
            && Measure(s1, stop, g) + Ticks(s1.now, stop, g) + 1 <= Measure(s, stop, g)
            && s1.cores == s.cores && Ticks(s1.now, stop, g) > 0
  {
    hide Accounted, Timers, Clock, Places, Lawful, Measure, Ticks;
    var e, u := s.events[i], Pop(p, cfg, s, i);
    assert e in s.events;
    PopCost(p, cfg, s, i, stop, g);
    EnqueueCost(p, cfg, u, e.id, q, stop, g);
    PositiveTicks(e.time, stop, g);
  }

  lemma SharedArrivalCost<S(!new)>(p: Policy<S>, cfg: Config, s: State<S>, i: nat, stop: real)
    requires Inv(p, cfg, s) && Earliest(s.events, i) && s.events[i].Arrival? && cfg.shared
    requires s.events[i].time <= stop
    ensures s.events[i].id in s.tasks && Quantum(p, cfg) > 0.0
    ensures Measure(SharedArrival(p, cfg, Pop(p, cfg, s, i), s.events[i].id), stop, Quantum(p, cfg))
         <  Measure(s, stop, Quantum(p, cfg))
  {
    hide Accounted, Timers, Clock, Places, Lawful, Quantum, Measure, Ticks, Enqueue, Preempt, Dispatch,
         FirstIdle, FirstPreempted, Preempts, LeastLoadedBelow;
    QuantumPositive(p, cfg);
    ArriveKeeps(p, cfg, s, i, 0);
    ArrivalCost(p, cfg, s, i, 0, stop, Quantum(p, cfg));
    var s1 := Enqueue(p, cfg, Pop(p, cfg, s, i), s.events[i].id, 0);
    var idle := FirstIdle(s1, cfg.cores);
    var victim := FirstPreempted(p, s1, s.events[i].id, cfg.cores);
    if idle < cfg.cores {
      PlacementCost(p, cfg, s1, idle, stop);
    } else if victim < cfg.cores {
      ArrivalBounds(p, cfg, s, i, 0, victim);
      PlacementCost(p, cfg, s1, victim, stop);
    }
  }

  lemma PerCoreArrivalCost<S(!new)>(p: Policy<S>, cfg: Config, s: State<S>, i: nat, stop: real)
    requires Inv(p, cfg, s) && Earliest(s.events, i) && s.events[i].Arrival? && !cfg.shared
    requires s.events[i].time <= stop
    ensures s.events[i].id in s.tasks && Quantum(p, cfg) > 0.0
    ensures Measure(PerCoreArrival(p, cfg, Pop(p, cfg, s, i), s.events[i].id), stop, Quantum(p, cfg))
         <  Measure(s, stop, Quantum(p, cfg))
  {
    hide Accounted, Timers, Clock, Places, Lawful, Quantum, Measure, Ticks, Enqueue, Preempt, Dispatch,
         FirstIdle, FirstPreempted, Preempts, LeastLoadedBelow;
    QuantumPositive(p, cfg);
    var u := Pop(p, cfg, s, i);
    var c := Target(p, cfg, u);
    var next := if cfg.balancer.RoundRobin? then (u.nextCore + 1) % cfg.cores else u.nextCore;
    var s' := s.(nextCore := next);
    CounterKeeps(p, cfg, s, s');
    assert Pop(p, cfg, s', i) == u.(nextCore := next);
    CounterCost(s, s', stop, Quantum(p, cfg));
    ArriveKeeps(p, cfg, s', i, c);
    ArrivalCost(p, cfg, s', i, c, stop, Quantum(p, cfg));
    var s1 := Enqueue(p, cfg, u.(nextCore := next), s.events[i].id, c);
    if s1.cores[c].running.Some? {
      ArrivalBounds(p, cfg, s', i, c, c);
    }
    PlacementCost(p, cfg, s1, c, stop);
  }

  lemma CounterCost<S>(s: State<S>, r: State<S>, stop: real, g: real)
    requires g > 0.0 && r.events == s.events && r.tasks == s.tasks && r.place == s.place
    ensures Measure(r, stop, g) == Measure(s, stop, g)
  {
    assert Spent(r) == Spent(s);
  }

  /** Each event taken before stop lowers the measure, whichever earliest event it is. */
  lemma StepCost<S(!new)>(p: Policy<S>, cfg: Config, s: State<S>, i: nat, stop: real)
    requires Inv(p, cfg, s) && Earliest(s.events, i) && s.events[i].time <= stop
    ensures Quantum(p, cfg) > 0.0
    ensures Measure(Step(p, cfg, s, i), stop, Quantum(p, cfg)) < Measure(s, stop, Quantum(p, cfg))
  {
    hide Accounted, Timers, Clock, Places, Lawful, Quantum, Measure, TimerFires, SharedArrival, PerCoreArrival;
    if s.events[i].TimeSlice? {
      TimerCost(p, cfg, s, i, stop);
    } else if cfg.shared {
      SharedArrivalCost(p, cfg, s, i, stop);
    } else {
      PerCoreArrivalCost(p, cfg, s, i, stop);
    }
  }

  lemma {:induction false} RunIsBounded<S(!new)>(p: Policy<S>, cfg: Config, s: State<S>, choices: seq<nat>, stop: real)
    requires Inv(p, cfg, s) && Run(p, cfg, s, choices, stop)
    ensures Quantum(p, cfg) > 0.0 && |choices| <= Measure(s, stop, Quantum(p, cfg))
    decreases |choices|
  {
    hide Accounted, Timers, Clock, Places, Lawful, Quantum, Measure;
    QuantumPositive(p, cfg);
    if choices != [] {
      StepCost(p, cfg, s, choices[0], stop);
      StepKeeps(p, cfg, s, choices[0]);
      RunIsBounded(p, cfg, Step(p, cfg, s, choices[0]), choices[1..], stop);
    }
  }

  /** Termination: a run handles at most as many events as the measure of the submitted
      jobs, which only counts their arrivals. */
  lemma RunsTerminate<S(!new)>(p: Policy<S>, cfg: Config, sched: S, jobs: seq<Job>,
                               choices: seq<nat>, stop: real, s: State<S>)
    requires Reached(p, cfg, sched, jobs, choices, stop, s)
    ensures Quantum(p, cfg) > 0.0
    ensures |choices| <= CostSum(Initial(cfg, sched, jobs).events, stop, Quantum(p, cfg))
  {
    InitialInv(p, cfg, sched, jobs);
    RunIsBounded(p, cfg, Initial(cfg, sched, jobs), choices, stop);
    NothingQueued(cfg, sched, jobs);
  }

  lemma {:induction false} NothingQueued<S(!new)>(cfg: Config, sched: S, jobs: seq<Job>)
    ensures forall id :: id in Initial(cfg, sched, jobs).place ==> Initial(cfg, sched, jobs).place[id] == Pending
    ensures Spent(Initial(cfg, sched, jobs)) == {}
  {
    if jobs != [] {
      NothingQueued(cfg, sched, jobs[..|jobs| - 1]);
    }
  }

  /** A run that drains its events has completed every task. */
  lemma DrainedRunCompletes<S(!new)>(p: Policy<S>, cfg: Config, sched: S, jobs: seq<Job>,
                                     choices: seq<nat>, stop: real, s: State<S>, id: TaskId)
    requires Reached(p, cfg, sched, jobs, choices, stop, s) && s.events == [] && id in s.tasks
    ensures multiset(s.completed)[id] == 1 && s.tasks[id].IsCompleted()
  {
    hide Lawful, Places, Clock, Accounted, Timers, Run;
    ReachedInv(p, cfg, sched, jobs, choices, stop, s);
    DrainedPlace(p, s, id);
    if s.place[id].Queued? {
      NeverIdleWithWork(p, cfg, sched, jobs, choices, stop, s, s.place[id].queue);
    }
  }

  lemma DrainedPlace<S(!new)>(p: Policy<S>, s: State<S>, id: TaskId)
    requires Places(p, s) && Clock(s) && Accounted(s) && Timers(s, -1) && s.events == [] && id in s.tasks
    ensures forall c :: 0 <= c < |s.cores| ==> s.cores[c].running.None?
    ensures id in s.place
    ensures s.place[id] == Finished ==> multiset(s.completed)[id] == 1 && s.tasks[id].IsCompleted()
    ensures s.place[id] != Finished ==>
              (s.place[id].Queued? && s.place[id].queue < |s.scheds|
               && id in p.ready(s.scheds[s.place[id].queue]))
  {
    assert id in s.place && Placed(s, id) && TaskOk(s, id);
    forall c | 0 <= c < |s.cores|
      ensures s.cores[c].running.None?
    {
      assert Timed(s, c);
    }
    if s.place[id].Queued? {
      assert p.ready(s.scheds[s.place[id].queue])[id] == 1;
    }
  }
}

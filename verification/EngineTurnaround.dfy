/** Nobody completes at the moment of arrival, however short the task. */
module EngineTurnaround {
  import opened Common
  import opened Tasks
  import opened Policies
  import opened Engine
  import opened EngineInvariant
  import opened EngineRuns

  /** Every pending timer, stale or not, is later than its task's arrival, and so was every
      completion. */
  ghost predicate Late<S>(s: State<S>) {
    && (forall e :: e in s.events && e.TimeSlice? ==> e.id in s.tasks && e.time > s.tasks[e.id].arrival)
    && (forall id :: id in s.tasks && id in s.place && s.place[id] == Finished ==>
          s.tasks[id].completion > s.tasks[id].arrival >= 0.0)
  }

  // ------------------------------------------------ what the operations keep

  lemma EnqueueLate<S(!new)>(p: Policy<S>, cfg: Config, s: State<S>, id: TaskId, q: nat)
    requires Shape(p, cfg, s) && Late(s) && id in s.tasks && q < cfg.Queues()
    ensures Late(Enqueue(p, cfg, s, id, q))
  {
    hide Lawful;
  }

  lemma RequeueLate<S(!new)>(p: Policy<S>, cfg: Config, s: State<S>, c: nat)
    requires Busy(p, cfg, s, c) && Late(s)
    ensures Late(Requeue(p, cfg, s, c))
  {
    hide Lawful;
  }

  lemma ChargeLate<S(!new)>(p: Policy<S>, cfg: Config, s: State<S>, c: nat)
    requires Busy(p, cfg, s, c) && Late(s)
    ensures Late(Charge(p, cfg, s, c))
    ensures var id := s.cores[c].running.value;
            && id in Charge(p, cfg, s, c).tasks && Charge(p, cfg, s, c).tasks[id].arrival == s.tasks[id].arrival
  {
    hide Lawful;
  }

  /** The one place where a task completes. */
  lemma CompleteLate<S(!new)>(p: Policy<S>, cfg: Config, s: State<S>, c: nat)
    requires Busy(p, cfg, s, c) && Late(s)
    requires s.now > s.tasks[s.cores[c].running.value].arrival >= 0.0
    ensures Late(Complete(p, cfg, s, c))
  {
    hide Lawful;
  }

  lemma PreemptLate<S(!new)>(p: Policy<S>, cfg: Config, s: State<S>, c: nat)
    requires Busy(p, cfg, s, c) && Late(s)
    ensures Late(Preempt(p, cfg, s, c))
  {
    hide Lawful, Charge, Requeue;
    ChargeLate(p, cfg, s, c);
    RequeueLate(p, cfg, Charge(p, cfg, s, c), c);
  }

  /** A queued task has something left, or its arrival is past. */
  lemma QueuedIsLate<S(!new)>(p: Policy<S>, s: State<S>, q: nat, id: TaskId, slice: real)
    requires Places(p, s) && Accounted(s) && q < |s.scheds| && id in p.ready(s.scheds[q]) && id in s.tasks && slice > 0.0
    ensures s.now + Min(slice, s.tasks[id].remaining) > s.tasks[id].arrival
  {
    assert p.ready(s.scheds[q])[id] > 0;
    assert s.place[id] == Queued(q) && TaskOk(s, id);
  }

  lemma LaunchLate<S(!new)>(p: Policy<S>, cfg: Config, s: State<S>, c: nat, q: nat, d: Decision)
    requires Inv(p, cfg, s) && Late(s) && c < cfg.cores && q < cfg.Queues() && d.id in p.ready(s.scheds[q])
    ensures d.id in s.tasks && Late(Launch(p, cfg, RemoveFrom(p, cfg, s, d.id, q), c, d))
  {
    hide Lawful, Clock, Timers, Accounted;
    ReadyIsPlaced(p, s, q, d.id);
    QueuedIsLate(p, s, q, d.id, if d.slice > 0.0 then d.slice else cfg.defaultSlice);
  }

  lemma StolenLate<S(!new)>(p: Policy<S>, cfg: Config, s: State<S>, c: nat, v: nat, id: TaskId)
    requires Shape(p, cfg, s) && Late(s) && c < cfg.Queues() && v < cfg.Queues() && id in s.tasks
    ensures Late(Stolen(p, cfg, s, c, v, id))
  {
    hide Lawful;
  }

  lemma DispatchLate<S(!new)>(p: Policy<S>, cfg: Config, s: State<S>, c: nat)
    requires Inv(p, cfg, s) && Late(s) && c < cfg.cores && s.cores[c].running.None?
    ensures Late(Dispatch(p, cfg, s, c))
  {
    hide Accounted, Timers, Clock, Places, Lawful, Launch, Late;
    IdleIsSame(p, cfg, s, c);
    var q := cfg.QueueOf(c);
    if ReadyCount(p, s, q) > 0 {
      Decides(p, s.scheds[q], s.attrs);
      LaunchLate(p, cfg, s, c, q, p.schedule(s.scheds[q], s.attrs).value);
    } else if cfg.stealing && !cfg.shared {
      var v := Busiest(p, s, c, cfg.cores);
      if v.Some? {
        var s2, d := StealIsLaunch(p, cfg, s, c, v.value);
        StolenLate(p, cfg, s, c, v.value, p.schedule(s.scheds[v.value], s.attrs).value.id);
        LaunchLate(p, cfg, s2, c, c, d);
      }
    }
  }

  // ------------------------------------------------ every run

  lemma PopLate<S(!new)>(p: Policy<S>, cfg: Config, s: State<S>, i: nat)
    requires Shape(p, cfg, s) && Late(s) && i < |s.events|
    ensures Late(Pop(p, cfg, s, i))
  {
    hide Lawful;
    WithoutFacts(s.events, i);
  }

  lemma SharedArrivalLate<S(!new)>(p: Policy<S>, cfg: Config, s: State<S>, i: nat)
    requires Inv(p, cfg, s) && Late(s) && Earliest(s.events, i) && s.events[i].Arrival? && cfg.shared
    ensures s.events[i].id in s.tasks
    ensures Late(SharedArrival(p, cfg, Pop(p, cfg, s, i), s.events[i].id))
  {
    hide Accounted, Timers, Clock, Places, Lawful, Late, Dispatch, Preempt, Enqueue;
    var u, id := Pop(p, cfg, s, i), s.events[i].id;
    PopLate(p, cfg, s, i);
    ArriveKeeps(p, cfg, s, i, 0);
    EnqueueLate(p, cfg, u, id, 0);
    var s1 := Enqueue(p, cfg, u, id, 0);
    var idle := FirstIdle(s1, cfg.cores);
    if idle < cfg.cores {
      DispatchLate(p, cfg, s1, idle);
    } else {
      var victim := FirstPreempted(p, s1, id, cfg.cores);
      if victim < cfg.cores {
        EnqueueCores(p, cfg, u, id, 0);
        ArrivalBounds(p, cfg, s, i, 0, victim);
        PreemptKeeps(p, cfg, s1, victim);
        PreemptLate(p, cfg, s1, victim);
        DispatchLate(p, cfg, Preempt(p, cfg, s1, victim), victim);
      }
    }
  }

  lemma PerCoreArrivalLate<S(!new)>(p: Policy<S>, cfg: Config, s: State<S>, i: nat)
    requires Inv(p, cfg, s) && Late(s) && Earliest(s.events, i) && s.events[i].Arrival? && !cfg.shared
    ensures s.events[i].id in s.tasks
    ensures Late(PerCoreArrival(p, cfg, Pop(p, cfg, s, i), s.events[i].id))
  {
    hide Accounted, Timers, Clock, Places, Lawful, Late, Enqueue, Dispatch, Preempt, Target;
    var id, u := s.events[i].id, Pop(p, cfg, s, i);
    var c := Target(p, cfg, u);
    var next := if cfg.balancer.RoundRobin? then (u.nextCore + 1) % cfg.cores else u.nextCore;
    PopLate(p, cfg, s, i);
    SameLate(u, u.(nextCore := next));
    AssignedKeeps(p, cfg, s, i, c, next);
    EnqueueLate(p, cfg, u.(nextCore := next), id, c);
    var s1 := Enqueue(p, cfg, u.(nextCore := next), id, c);
    if s1.cores[c].running.None? {
      DispatchLate(p, cfg, s1, c);
    } else if p.preempts(s1.scheds[c], s1.attrs, id, s1.cores[c].running.value) {
      PreemptKeeps(p, cfg, s1, c);
      PreemptLate(p, cfg, s1, c);
      DispatchLate(p, cfg, Preempt(p, cfg, s1, c), c);
    }
  }

  lemma SameLate<S>(s: State<S>, r: State<S>)
    requires Late(s) && r.events == s.events && r.tasks == s.tasks && r.place == s.place
    ensures Late(r)
  {
  }

  lemma TimerLate<S(!new)>(p: Policy<S>, cfg: Config, s: State<S>, i: nat)
    requires Inv(p, cfg, s) && Late(s) && Earliest(s.events, i) && s.events[i].TimeSlice?
    ensures s.events[i].id in s.tasks && s.events[i].core < cfg.cores
    ensures Late(TimerFires(p, cfg, Pop(p, cfg, s, i), s.events[i].id, s.events[i].core))
  {
    hide Accounted, Timers, Clock, Places, Lawful, Late, Dispatch, Charge, Requeue, Complete;
    var e, u := s.events[i], Pop(p, cfg, s, i);
    assert e in s.events;
    PopLate(p, cfg, s, i);
    PopTimer(p, cfg, s, i);
    if s.cores[e.core].running == Some(e.id) {
      BoundsAtPop(p, cfg, s, i, e.core);
      ChargeLate(p, cfg, u, e.core);
      var s1 := Charge(p, cfg, u, e.core);
      if s1.tasks[e.id].IsCompleted() {
        FinishKeeps(p, cfg, u, e.core);
        TimerIsLate(p, cfg, s, e);
        CompleteLate(p, cfg, s1, e.core);
        DispatchLate(p, cfg, Complete(p, cfg, s1, e.core), e.core);
      } else {
        ReleaseKeeps(p, cfg, u, e.core);
        RequeueLate(p, cfg, s1, e.core);
        DispatchLate(p, cfg, Requeue(p, cfg, s1, e.core), e.core);
      }
    }
  }

  lemma TimerIsLate<S(!new)>(p: Policy<S>, cfg: Config, s: State<S>, e: Event)
    requires Inv(p, cfg, s) && Late(s) && e in s.events && e.TimeSlice?
    ensures e.id in s.tasks && e.time > s.tasks[e.id].arrival >= 0.0
  {
    hide Lawful, Places, Clock, Timers;
    assert TaskOk(s, e.id);
  }

  lemma StepLate<S(!new)>(p: Policy<S>, cfg: Config, s: State<S>, i: nat)
    requires Inv(p, cfg, s) && Late(s) && Earliest(s.events, i)
    ensures Late(Step(p, cfg, s, i))
  {
    hide InvBut, Late, TimerFires, SharedArrival, PerCoreArrival;
    if s.events[i].TimeSlice? {
      TimerLate(p, cfg, s, i);
    } else if cfg.shared {
      SharedArrivalLate(p, cfg, s, i);
    } else {
      PerCoreArrivalLate(p, cfg, s, i);
    }
  }

  lemma {:induction false} RunLate<S(!new)>(p: Policy<S>, cfg: Config, s: State<S>, choices: seq<nat>, stop: real)
    requires Inv(p, cfg, s) && Late(s) && Run(p, cfg, s, choices, stop)
    ensures Late(After(p, cfg, s, choices, stop))
    decreases |choices|
  {
    hide Lawful, Places, Clock, Accounted, Timers, Late, Step;
    if choices != [] {
      StepLate(p, cfg, s, choices[0]);
      StepKeeps(p, cfg, s, choices[0]);
      RunLate(p, cfg, Step(p, cfg, s, choices[0]), choices[1..], stop);
    }
  }

  lemma {:induction false} InitialLate<S>(cfg: Config, sched: S, jobs: seq<Job>)
    ensures Late(Initial(cfg, sched, jobs))
    ensures forall id :: id in Initial(cfg, sched, jobs).place ==> Initial(cfg, sched, jobs).place[id] == Pending
    ensures forall e :: e in Initial(cfg, sched, jobs).events ==> e.Arrival?
  {
    if jobs != [] {
      InitialLate(cfg, sched, jobs[..|jobs| - 1]);
    }
  }

  /** In every reachable state of either engine every completed task has a positive turnaround
      time. */
  lemma TurnaroundIsPositive<S(!new)>(p: Policy<S>, cfg: Config, sched: S, jobs: seq<Job>, choices: seq<nat>, stop: real,
                                      s: State<S>, id: TaskId)
    requires Reached(p, cfg, sched, jobs, choices, stop, s) && id in s.completed
    ensures id in s.tasks && s.tasks[id].TurnaroundTime() > 0.0 && s.tasks[id].execution > 0.0
  {
    hide Lawful, Clock, Timers, Run, After, Initial;
    ReachedInv(p, cfg, sched, jobs, choices, stop, s);
    InitialInv(p, cfg, sched, jobs);
    InitialLate(cfg, sched, jobs);
    RunLate(p, cfg, Initial(cfg, sched, jobs), choices, stop);
    assert s.place[id] == Finished && id in s.place.Keys && TaskOk(s, id);
  }
}

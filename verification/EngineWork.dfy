/** No core idles while it could work. */
module EngineWork {
  import opened Common
  import opened Tasks
  import opened Policies
  import opened Engine
  import opened EngineInvariant
  import opened EngineRuns

  /** No idle core's own queue holds a task. */
  ghost predicate WorkConserving<S(!new)>(p: Policy<S>, cfg: Config, s: State<S>)
    requires Shape(p, cfg, s)
  {
    forall c: nat :: c < cfg.cores && s.cores[c].running.None? ==> ReadyCount(p, s, cfg.QueueOf(c)) == 0
  }

  /** Core c's dispatch: a non-empty queue loses one task to core c; an empty one leaves
      core c idle or gives it a task stolen from a queue of at least two. */
  ghost predicate Dispatched<S(!new)>(p: Policy<S>, cfg: Config, s: State<S>, r: State<S>, c: nat)
    requires Shape(p, cfg, s) && Shape(p, cfg, r) && c < cfg.cores
  {
    var q := cfg.QueueOf(c);
    && (forall k: nat :: k < cfg.cores && k != c ==> r.cores[k] == s.cores[k])
    && (forall k: nat :: k < cfg.Queues() ==> ReadyCount(p, r, k) <= ReadyCount(p, s, k))
    && (ReadyCount(p, s, q) > 0 ==> r.cores[c].running.Some? && ReadyCount(p, r, q) < ReadyCount(p, s, q))
    && (ReadyCount(p, s, q) == 0 && r.cores[c].running.None? && cfg.stealing && !cfg.shared ==>
          forall k: nat :: k < cfg.Queues() && k != c ==> ReadyCount(p, s, k) <= 1)
  }

  lemma DispatchEffect<S(!new)>(p: Policy<S>, cfg: Config, s: State<S>, c: nat)
    requires Shape(p, cfg, s) && c < cfg.cores
    ensures Dispatched(p, cfg, s, Dispatch(p, cfg, s, c), c)
  {
    var q := cfg.QueueOf(c);
    if ReadyCount(p, s, q) > 0 {
      Decides(p, s.scheds[q], s.attrs);
      RemovalCounts(p, s.scheds[q], p.schedule(s.scheds[q], s.attrs).value.id);
    } else if cfg.stealing && !cfg.shared {
      StealEffect(p, cfg, s, c);
    }
  }

  lemma RemovalCounts<S(!new)>(p: Policy<S>, x: S, id: TaskId)
    requires Lawful(p) && p.valid(x) && id in p.ready(x)
    ensures |p.ready(p.remove(x, id))| < |p.ready(x)|
  {
  }

  /** Core c takes the next task of its own queue. */
  lemma LaunchEffect<S(!new)>(p: Policy<S>, cfg: Config, s: State<S>, c: nat)
    requires Shape(p, cfg, s) && c < cfg.cores && !cfg.shared && ReadyCount(p, s, c) > 0
    ensures p.schedule(s.scheds[c], s.attrs).Some? && p.schedule(s.scheds[c], s.attrs).value.id in s.tasks
    ensures var d := p.schedule(s.scheds[c], s.attrs).value;
            var r := Launch(p, cfg, RemoveFrom(p, cfg, s, d.id, c), c, d);
            && r.cores[c].running.Some?
            && (forall k: nat :: k < cfg.cores && k != c ==> r.cores[k] == s.cores[k])
            && (forall k: nat :: k < cfg.cores ==> ReadyCount(p, r, k) <= ReadyCount(p, s, k) - if k == c then 1 else 0)
  {
    hide Lawful;
    NextIsKnown(p, cfg, s, c);
    RemovalCounts(p, s.scheds[c], p.schedule(s.scheds[c], s.attrs).value.id);
  }

  /** A task moves from queue v to queue c. */
  lemma StolenCounts<S(!new)>(p: Policy<S>, cfg: Config, s: State<S>, c: nat, v: nat, id: TaskId)
    requires Shape(p, cfg, s) && c < cfg.cores && v < cfg.cores && v != c && !cfg.shared
    requires id in s.tasks && id in p.ready(s.scheds[v])
    ensures var s2 := Stolen(p, cfg, s, c, v, id);
            && Shape(p, cfg, s2) && s2.cores == s.cores
            && (forall k: nat :: k < cfg.cores ==> ReadyCount(p, s2, k) <= ReadyCount(p, s, k) + if k == c then 1 else 0)
            && ReadyCount(p, s2, c) > 0
  {
    hide Lawful;
    RemovalCounts(p, s.scheds[v], id);
    StolenIsReady(p, cfg, s, c, v, id);
  }

  lemma StealEffect<S(!new)>(p: Policy<S>, cfg: Config, s: State<S>, c: nat)
    requires Shape(p, cfg, s) && c < cfg.cores && !cfg.shared && cfg.stealing
    requires ReadyCount(p, s, c) == 0
    ensures Dispatched(p, cfg, s, Steal(p, cfg, s, c), c)
  {
    hide Lawful, Shape, AddTo, RemoveFrom, Launch;
    QueuesAndCores(p, cfg, s);
    var v := Busiest(p, s, c, cfg.cores);
    if v.Some? {
      NextIsKnown(p, cfg, s, v.value);
      var id := p.schedule(s.scheds[v.value], s.attrs).value.id;
      StolenCounts(p, cfg, s, c, v.value, id);
      LaunchEffect(p, cfg, Stolen(p, cfg, s, c, v.value, id), c);
    }
  }

  lemma QueuesAndCores<S(!new)>(p: Policy<S>, cfg: Config, s: State<S>)
    requires Shape(p, cfg, s)
    ensures |s.cores| == cfg.cores && |s.scheds| == cfg.Queues()
  {
  }

  /** The stolen task is exactly the one dispatched on the thief. */
  lemma StolenTaskRuns<S(!new)>(p: Policy<S>, cfg: Config, s: State<S>, c: nat, v: nat)
    requires Shape(p, cfg, s) && c < cfg.cores && !cfg.shared && ReadyCount(p, s, c) == 0
    requires Busiest(p, s, c, cfg.cores) == Some(v)
    ensures p.schedule(s.scheds[v], s.attrs).Some?
    ensures Steal(p, cfg, s, c).cores[c].running == Some(p.schedule(s.scheds[v], s.attrs).value.id)
    ensures ReadyCount(p, Steal(p, cfg, s, c), c) == 0
  {
    var d := p.schedule(s.scheds[v], s.attrs);
    Decides(p, s.scheds[v], s.attrs);
    StolenIsReady(p, cfg, s, c, v, d.value.id);
    var s2 := Stolen(p, cfg, s, c, v, d.value.id);
    assert p.ready(s.scheds[c]) == multiset{};
    assert p.ready(s2.scheds[c]) == multiset{d.value.id};
    Decides(p, s2.scheds[c], s2.attrs);
  }

  /** What every policy step but dispatch does to queues and cores: only queue q grows, by
      at most one, and only core c may become idle. */
  ghost predicate Grows<S(!new)>(p: Policy<S>, cfg: Config, s: State<S>, r: State<S>, q: nat, c: int)
    requires Shape(p, cfg, s) && Shape(p, cfg, r)
  {
    && (forall k: nat :: k < cfg.cores && k != c ==> r.cores[k].running == s.cores[k].running)
    && (forall k: nat :: k < cfg.Queues() ==>
          ReadyCount(p, r, k) <= ReadyCount(p, s, k) + if k == q then 1 else 0)
  }

  lemma EnqueueGrows<S(!new)>(p: Policy<S>, cfg: Config, s: State<S>, id: TaskId, q: nat)
    requires Shape(p, cfg, s) && id in s.tasks && q < cfg.Queues()
    ensures Grows(p, cfg, s, Enqueue(p, cfg, s, id, q), q, -1)
    ensures ReadyCount(p, Enqueue(p, cfg, s, id, q), q) == ReadyCount(p, s, q) + 1
  {
  }

  lemma RequeueGrows<S(!new)>(p: Policy<S>, cfg: Config, s: State<S>, c: nat)
    requires Busy(p, cfg, s, c)
    ensures Grows(p, cfg, s, Requeue(p, cfg, Charge(p, cfg, s, c), c), cfg.QueueOf(c), c)
    ensures ReadyCount(p, Requeue(p, cfg, Charge(p, cfg, s, c), c), cfg.QueueOf(c)) > 0
  {
  }

  lemma CompleteGrows<S(!new)>(p: Policy<S>, cfg: Config, s: State<S>, c: nat)
    requires Busy(p, cfg, s, c)
    ensures Grows(p, cfg, s, Complete(p, cfg, Charge(p, cfg, s, c), c), cfg.QueueOf(c), c)
  {
  }

  lemma PreemptGrows<S(!new)>(p: Policy<S>, cfg: Config, s: State<S>, c: nat)
    requires Busy(p, cfg, s, c)
    ensures Grows(p, cfg, s, Preempt(p, cfg, s, c), cfg.QueueOf(c), c)
    ensures ReadyCount(p, Preempt(p, cfg, s, c), cfg.QueueOf(c)) > 0
  {
    hide Charge, Requeue;
    RequeueGrows(p, cfg, s, c);
  }

  lemma SameQueues<S(!new)>(p: Policy<S>, cfg: Config, s: State<S>, r: State<S>)
    requires Shape(p, cfg, s) && Shape(p, cfg, r) && r.scheds == s.scheds && r.cores == s.cores
    ensures WorkConserving(p, cfg, s) ==> WorkConserving(p, cfg, r)
    ensures NoAvoidableIdleness(p, cfg, s) ==> NoAvoidableIdleness(p, cfg, r)
  {
    assert forall k: nat :: k < cfg.Queues() ==> ReadyCount(p, r, k) == ReadyCount(p, s, k);
  }

  /** After core c's dispatch work is conserved, if the other idle cores of its queue see at
      most the task core c takes. */
  lemma DispatchConserves<S(!new)>(p: Policy<S>, cfg: Config, s: State<S>, c: nat)
    requires Shape(p, cfg, s) && c < cfg.cores
    requires forall k: nat :: k < cfg.cores && k != c && s.cores[k].running.None? ==>
               ReadyCount(p, s, cfg.QueueOf(k)) <= if cfg.QueueOf(k) == cfg.QueueOf(c) then 1 else 0
    ensures WorkConserving(p, cfg, Dispatch(p, cfg, s, c))
  {
    var r := Dispatch(p, cfg, s, c);
    DispatchEffect(p, cfg, s, c);
    hide Shape;
    forall k: nat | k < cfg.cores && r.cores[k].running.None?
      ensures ReadyCount(p, r, cfg.QueueOf(k)) == 0
    {
    }
  }

  lemma TimerConserves<S(!new)>(p: Policy<S>, cfg: Config, s: State<S>, id: TaskId, c: nat)
    requires Shape(p, cfg, s) && id in s.tasks && c < cfg.cores && WorkConserving(p, cfg, s)
    ensures WorkConserving(p, cfg, TimerFires(p, cfg, s, id, c))
  {
    hide Lawful;
    if s.cores[c].running == Some(id) {
      var s1 := Charge(p, cfg, s, c);
      if s1.tasks[id].IsCompleted() {
        CompleteGrows(p, cfg, s, c);
        DispatchConserves(p, cfg, Complete(p, cfg, s1, c), c);
      } else {
        RequeueGrows(p, cfg, s, c);
        DispatchConserves(p, cfg, Requeue(p, cfg, s1, c), c);
      }
    }
  }

  lemma SharedArrivalConserves<S(!new)>(p: Policy<S>, cfg: Config, s: State<S>, id: TaskId)
    requires Shape(p, cfg, s) && id in s.tasks && cfg.shared && WorkConserving(p, cfg, s)
    ensures WorkConserving(p, cfg, SharedArrival(p, cfg, s, id))
  {
    hide Lawful, Preempt, Enqueue, Dispatch;
    var s1 := Enqueue(p, cfg, s, id, 0);
    EnqueueGrows(p, cfg, s, id, 0);
    var idle := FirstIdle(s1, cfg.cores);
    if idle < cfg.cores {
      DispatchConserves(p, cfg, s1, idle);
    } else {
      var victim := FirstPreempted(p, s1, id, cfg.cores);
      if victim < cfg.cores {
        PreemptGrows(p, cfg, s1, victim);
        DispatchConserves(p, cfg, Preempt(p, cfg, s1, victim), victim);
      }
    }
  }

  /** Placing a task on core c, wherever the balancer stands next. */
  lemma PlacingConserves<S(!new)>(p: Policy<S>, cfg: Config, s: State<S>, id: TaskId, c: nat)
    requires Shape(p, cfg, s) && id in s.tasks && !cfg.shared && c < cfg.cores && WorkConserving(p, cfg, s)
    ensures var s1 := Enqueue(p, cfg, s, id, c);
            WorkConserving(p, cfg,
              if s1.cores[c].running.None? then Dispatch(p, cfg, s1, c)
              else if p.preempts(s1.scheds[c], s1.attrs, id, s1.cores[c].running.value) then
                Dispatch(p, cfg, Preempt(p, cfg, s1, c), c)
              else s1)
  {
    hide Lawful, Preempt, Enqueue, Dispatch;
    var s1 := Enqueue(p, cfg, s, id, c);
    EnqueueGrows(p, cfg, s, id, c);
    if s1.cores[c].running.None? {
      DispatchConserves(p, cfg, s1, c);
    } else if p.preempts(s1.scheds[c], s1.attrs, id, s1.cores[c].running.value) {
      PreemptGrows(p, cfg, s1, c);
      DispatchConserves(p, cfg, Preempt(p, cfg, s1, c), c);
    }
  }

  lemma PerCoreArrivalConserves<S(!new)>(p: Policy<S>, cfg: Config, s: State<S>, id: TaskId)
    requires Shape(p, cfg, s) && id in s.tasks && !cfg.shared && WorkConserving(p, cfg, s)
    ensures WorkConserving(p, cfg, PerCoreArrival(p, cfg, s, id))
  {
    hide Lawful, Preempt, Enqueue, Dispatch, Target, WorkConserving;
    var next := if cfg.balancer.RoundRobin? then (s.nextCore + 1) % cfg.cores else s.nextCore;
    SameQueues(p, cfg, s, s.(nextCore := next));
    PlacingConserves(p, cfg, s.(nextCore := next), id, Target(p, cfg, s));
  }

  lemma StepConserves<S(!new)>(p: Policy<S>, cfg: Config, s: State<S>, i: nat)
    requires Shape(p, cfg, s) && i < |s.events| && WorkConserving(p, cfg, s)
    ensures WorkConserving(p, cfg, Step(p, cfg, s, i))
  {
    hide Lawful, TimerFires, SharedArrival, PerCoreArrival;
    var u := Pop(p, cfg, s, i);
    var e := s.events[i];
    assert e in s.events;
    SameQueues(p, cfg, s, u);
    if e.TimeSlice? {
      TimerConserves(p, cfg, u, e.id, e.core);
    } else if cfg.shared {
      SharedArrivalConserves(p, cfg, u, e.id);
    } else {
      PerCoreArrivalConserves(p, cfg, u, e.id);
    }
  }

  lemma {:induction false} RunConserves<S(!new)>(p: Policy<S>, cfg: Config, s: State<S>, choices: seq<nat>, stop: real)
    requires Shape(p, cfg, s) && Run(p, cfg, s, choices, stop) && WorkConserving(p, cfg, s)
    ensures WorkConserving(p, cfg, After(p, cfg, s, choices, stop))
    decreases |choices|
  {
    hide Shape, Step, WorkConserving;
    if choices != [] {
      StepConserves(p, cfg, s, choices[0]);
      RunConserves(p, cfg, Step(p, cfg, s, choices[0]), choices[1..], stop);
    }
  }

  lemma {:induction false} InitialQueuesEmpty<S(!new)>(p: Policy<S>, cfg: Config, sched: S, jobs: seq<Job>)
    requires Fresh(p, sched)
    ensures |Initial(cfg, sched, jobs).scheds| == cfg.Queues()
    ensures forall q :: 0 <= q < cfg.Queues() ==> Initial(cfg, sched, jobs).scheds[q] == sched
  {
    if jobs != [] {
      InitialQueuesEmpty(p, cfg, sched, jobs[..|jobs| - 1]);
    }
  }

  /** Work conservation: in every state of every run no idle core's queue holds a task. */
  lemma NeverIdleWithWork<S(!new)>(p: Policy<S>, cfg: Config, sched: S, jobs: seq<Job>,
                                   choices: seq<nat>, stop: real, s: State<S>, c: nat)
    requires Reached(p, cfg, sched, jobs, choices, stop, s)
    requires c < cfg.cores && c < |s.cores| && s.cores[c].running.None?
    ensures cfg.QueueOf(c) < |s.scheds| && p.ready(s.scheds[cfg.QueueOf(c)]) == multiset{}
  {
    InitialQueuesEmpty(p, cfg, sched, jobs);
    RunConserves(p, cfg, Initial(cfg, sched, jobs), choices, stop);
    assert ReadyCount(p, s, cfg.QueueOf(c)) == 0;
  }

  // ------------------------------------------------ least-loaded balancing and stealing

  /** While some core is idle, no queue holds two tasks. */
  ghost predicate NoAvoidableIdleness<S(!new)>(p: Policy<S>, cfg: Config, s: State<S>)
    requires Shape(p, cfg, s)
  {
    forall c: nat, k: nat :: c < cfg.cores && s.cores[c].running.None? && k < cfg.Queues() ==>
      ReadyCount(p, s, k) <= 1
  }

  predicate Balanced(cfg: Config) {
    !cfg.shared && cfg.stealing && cfg.balancer.LeastLoaded?
  }

  /** Dispatch on core c restores the property, if the other idle cores see no queue of two
      except possibly core c's own, of two. */
  lemma DispatchBalances<S(!new)>(p: Policy<S>, cfg: Config, s: State<S>, c: nat)
    requires Shape(p, cfg, s) && c < cfg.cores && Balanced(cfg)
    requires forall j: nat, k: nat :: j < cfg.cores && j != c && s.cores[j].running.None? && k < cfg.Queues() ==>
               ReadyCount(p, s, k) <= if k == c then 2 else 1
    ensures NoAvoidableIdleness(p, cfg, Dispatch(p, cfg, s, c))
  {
    var r := Dispatch(p, cfg, s, c);
    DispatchEffect(p, cfg, s, c);
    hide Shape, Dispatch;
    forall j: nat, k: nat | j < cfg.cores && r.cores[j].running.None? && k < cfg.Queues()
      ensures ReadyCount(p, r, k) <= 1
    {
      assert ReadyCount(p, r, k) <= ReadyCount(p, s, k);
    }
  }

  lemma TimerBalances<S(!new)>(p: Policy<S>, cfg: Config, s: State<S>, id: TaskId, c: nat)
    requires Shape(p, cfg, s) && id in s.tasks && c < cfg.cores && Balanced(cfg)
    requires NoAvoidableIdleness(p, cfg, s)
    ensures NoAvoidableIdleness(p, cfg, TimerFires(p, cfg, s, id, c))
  {
    hide Lawful;
    if s.cores[c].running == Some(id) {
      var s1 := Charge(p, cfg, s, c);
      if s1.tasks[id].IsCompleted() {
        CompleteGrows(p, cfg, s, c);
        DispatchBalances(p, cfg, Complete(p, cfg, s1, c), c);
      } else {
        RequeueGrows(p, cfg, s, c);
        DispatchBalances(p, cfg, Requeue(p, cfg, s1, c), c);
      }
    }
  }

  /** With an idle core about, the least-loaded core is idle and its queue empty. */
  lemma TargetIsIdle<S(!new)>(p: Policy<S>, cfg: Config, s: State<S>, j: nat)
    requires Shape(p, cfg, s) && Balanced(cfg) && WorkConserving(p, cfg, s)
    requires j < cfg.cores && s.cores[j].running.None?
    ensures s.cores[Target(p, cfg, s)].running.None?
    ensures ReadyCount(p, s, Target(p, cfg, s)) == 0
  {
    assert Load(p, s, j) == 0;
  }

  lemma ArrivalBalances<S(!new)>(p: Policy<S>, cfg: Config, s: State<S>, id: TaskId)
    requires Shape(p, cfg, s) && id in s.tasks && Balanced(cfg)
    requires WorkConserving(p, cfg, s) && NoAvoidableIdleness(p, cfg, s)
    ensures NoAvoidableIdleness(p, cfg, PerCoreArrival(p, cfg, s, id))
  {
    hide Lawful, Preempt, Enqueue, Dispatch;
    var c := Target(p, cfg, s);
    var s1 := Enqueue(p, cfg, s, id, c);
    EnqueueGrows(p, cfg, s, id, c);
    if j: nat :| j < cfg.cores && s.cores[j].running.None? {
      TargetIsIdle(p, cfg, s, j);
      DispatchBalances(p, cfg, s1, c);
    } else if p.preempts(s1.scheds[c], s1.attrs, id, s1.cores[c].running.value) {
      PreemptGrows(p, cfg, s1, c);
      DispatchBalances(p, cfg, Preempt(p, cfg, s1, c), c);
    }
  }

  lemma {:induction false} RunBalances<S(!new)>(p: Policy<S>, cfg: Config, s: State<S>, choices: seq<nat>, stop: real)
    requires Shape(p, cfg, s) && Run(p, cfg, s, choices, stop) && Balanced(cfg)
    requires WorkConserving(p, cfg, s) && NoAvoidableIdleness(p, cfg, s)
    ensures NoAvoidableIdleness(p, cfg, After(p, cfg, s, choices, stop))
    decreases |choices|
  {
    hide Shape, WorkConserving, NoAvoidableIdleness;
    if choices != [] {
      StepConserves(p, cfg, s, choices[0]);
      StepBalances(p, cfg, s, choices[0]);
      RunBalances(p, cfg, Step(p, cfg, s, choices[0]), choices[1..], stop);
    }
  }

  lemma StepBalances<S(!new)>(p: Policy<S>, cfg: Config, s: State<S>, i: nat)
    requires Shape(p, cfg, s) && i < |s.events| && Balanced(cfg)
    requires WorkConserving(p, cfg, s) && NoAvoidableIdleness(p, cfg, s)
    ensures NoAvoidableIdleness(p, cfg, Step(p, cfg, s, i))
  {
    hide Lawful, TimerFires, SharedArrival, PerCoreArrival;
    var u := Pop(p, cfg, s, i);
    var e := s.events[i];
    assert e in s.events;
    SameQueues(p, cfg, s, u);
    if e.TimeSlice? {
      TimerBalances(p, cfg, u, e.id, e.core);
    } else {
      ArrivalBalances(p, cfg, u, e.id);
    }
  }

  /** Least-loaded balancing plus stealing leaves no avoidable idleness: while any core is
      idle its own queue is empty and no queue holds two tasks. */
  lemma LeastLoadedStealing<S(!new)>(p: Policy<S>, cfg: Config, sched: S, jobs: seq<Job>,
                                     choices: seq<nat>, stop: real, s: State<S>, c: nat, k: nat)
    requires Reached(p, cfg, sched, jobs, choices, stop, s) && Balanced(cfg)
    requires c < cfg.cores && c < |s.cores| && s.cores[c].running.None? && k < cfg.cores
    ensures |s.scheds| == cfg.cores && |p.ready(s.scheds[k])| <= if k == c then 0 else 1
  {
    InitialQueuesEmpty(p, cfg, sched, jobs);
    RunConserves(p, cfg, Initial(cfg, sched, jobs), choices, stop);
    RunBalances(p, cfg, Initial(cfg, sched, jobs), choices, stop);
    assert ReadyCount(p, s, k) <= 1;
    assert ReadyCount(p, s, cfg.QueueOf(c)) == 0;
  }
}

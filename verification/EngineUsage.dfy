/** Conservation of CPU time: what the tasks executed is what the cores were charged, so
    finished work never exceeds the cores' capacity. */
module EngineUsage {
  import opened Common
  import opened Tasks
  import opened Policies
  import opened Engine
  import opened EngineInvariant
  import opened EngineRuns

  /** Executed time of the listed tasks. */
  function Executed<S>(s: State<S>, ids: seq<TaskId>): real
    requires forall id :: id in ids ==> id in s.tasks
  {
    if ids == [] then 0.0
    else
      var id := ids[|ids| - 1];
      Executed(s, ids[..|ids| - 1]) + (s.tasks[id].execution - s.tasks[id].remaining)
  }

  /** Time charged on the first n cores. */
  function Charged(cores: seq<Core>, n: nat): real
    requires n <= |cores|
  {
    if n == 0 then 0.0 else Charged(cores, n - 1) + cores[n - 1].busy
  }

  ghost predicate Lists<S>(s: State<S>, ids: seq<TaskId>) {
    && (forall i, j :: 0 <= i < j < |ids| ==> ids[i] != ids[j])
    && (forall id :: id in ids <==> id in s.tasks)
  }

  /** No core was charged for more time than has passed up to its last dispatch, or now. */
  ghost predicate WithinClock<S>(s: State<S>) {
    forall c :: 0 <= c < |s.cores| ==>
      0.0 <= s.cores[c].busy <= if s.cores[c].running.Some? then s.cores[c].since else s.now
  }

  ghost predicate Conserved<S>(s: State<S>, ids: seq<TaskId>) {
    Lists(s, ids) && WithinClock(s) && Executed(s, ids) == Charged(s.cores, |s.cores|)
  }

  /** Nobody executes, no core is charged, and a core can only become busy, as of now. */
  ghost predicate SameWork<S>(s: State<S>, r: State<S>) {
    && r.tasks.Keys == s.tasks.Keys && |r.cores| == |s.cores| && r.now >= s.now
    && (forall id :: id in s.tasks ==> SameProgress(s.tasks[id], r.tasks[id]))
    && (forall c {:trigger r.cores[c]} :: 0 <= c < |s.cores| ==> SameCharge(s.cores[c], r.cores[c], r.now))
  }

  predicate SameProgress(t: Task, u: Task) {
    u.execution == t.execution && u.remaining == t.remaining
  }

  predicate SameCharge(a: Core, b: Core, now: real) {
    b.busy == a.busy && (b == a || (a.running.None? && b.since == now))
  }

  lemma {:induction false} ExecutedSame<S>(s: State<S>, r: State<S>, ids: seq<TaskId>)
    requires forall id :: id in ids ==>
               && id in s.tasks && id in r.tasks
               && r.tasks[id].execution - r.tasks[id].remaining == s.tasks[id].execution - s.tasks[id].remaining
    ensures Executed(r, ids) == Executed(s, ids)
  {
    if ids != [] {
      ExecutedSame(s, r, ids[..|ids| - 1]);
    }
  }

  lemma {:induction false} ChargedSame(a: seq<Core>, b: seq<Core>, n: nat)
    requires n <= |a| && n <= |b| && forall c :: 0 <= c < n ==> a[c].busy == b[c].busy
    ensures Charged(a, n) == Charged(b, n)
  {
    if n > 0 {
      ChargedSame(a, b, n - 1);
    }
  }

  /** One task executes el more. */
  lemma {:induction false} ExecutedMore<S>(s: State<S>, r: State<S>, ids: seq<TaskId>, id: TaskId, el: real)
    requires forall i, j :: 0 <= i < j < |ids| ==> ids[i] != ids[j]
    requires forall x :: x in ids ==> x in s.tasks && x in r.tasks
    requires forall x :: x in ids && x != id ==> r.tasks[x] == s.tasks[x]
    requires id in ids && r.tasks[id].execution == s.tasks[id].execution
    requires r.tasks[id].remaining == s.tasks[id].remaining - el
    ensures Executed(r, ids) == Executed(s, ids) + el
  {
    var rest := ids[..|ids| - 1];
    if ids[|ids| - 1] == id {
      ExecutedSame(s, r, rest);
    } else {
      ExecutedMore(s, r, rest, id, el);
    }
  }

  lemma {:induction false} ChargedMore(a: seq<Core>, b: seq<Core>, n: nat, c: nat, el: real)
    requires c < n <= |a| && |b| == |a| && b[c].busy == a[c].busy + el
    requires forall k :: 0 <= k < n && k != c ==> b[k].busy == a[k].busy
    ensures Charged(b, n) == Charged(a, n) + el
  {
    if c == n - 1 {
      ChargedSame(a, b, n - 1);
    } else {
      ChargedMore(a, b, n - 1, c, el);
    }
  }

  lemma SameWorkConserves<S>(s: State<S>, r: State<S>, ids: seq<TaskId>)
    requires Conserved(s, ids) && SameWork(s, r)
    ensures Conserved(r, ids)
  {
    ExecutedSame(s, r, ids);
    ChargedSame(s.cores, r.cores, |s.cores|);
    forall c | 0 <= c < |r.cores|
      ensures 0.0 <= r.cores[c].busy <= if r.cores[c].running.Some? then r.cores[c].since else r.now
    {
      assert SameCharge(s.cores[c], r.cores[c], r.now);
    }
  }

  /** Task id was charged el on core c, which is now idle. */
  lemma ChargeConserves<S>(s: State<S>, r: State<S>, ids: seq<TaskId>, c: nat, id: TaskId, el: real)
    requires Conserved(s, ids) && c < |s.cores| && s.cores[c].running == Some(id) && id in s.tasks
    requires el == s.now - s.cores[c].since && el >= 0.0
    requires r.now == s.now && |r.cores| == |s.cores|
    requires r.cores[c].running.None? && r.cores[c].busy == s.cores[c].busy + el
    requires forall k {:trigger r.cores[k]} :: 0 <= k < |s.cores| && k != c ==> r.cores[k] == s.cores[k]
    requires id in r.tasks && r.tasks == s.tasks[id := r.tasks[id]]
    requires r.tasks[id].execution == s.tasks[id].execution && r.tasks[id].remaining == s.tasks[id].remaining - el
    ensures Conserved(r, ids)
  {
    ExecutedMore(s, r, ids, id, el);
    ChargedMore(s.cores, r.cores, |s.cores|, c, el);
    assert 0.0 <= s.cores[c].busy <= s.cores[c].since;
  }

  lemma ReleaseConserves<S(!new)>(p: Policy<S>, cfg: Config, s: State<S>, ids: seq<TaskId>, c: nat)
    requires Busy(p, cfg, s, c) && ChargeInBounds(s, c) && Conserved(s, ids)
    ensures Conserved(Requeue(p, cfg, Charge(p, cfg, s, c), c), ids)
    ensures Conserved(Preempt(p, cfg, s, c), ids)
  {
    hide Conserved, Lawful;
    var id := s.cores[c].running.value;
    ChargeConserves(s, Requeue(p, cfg, Charge(p, cfg, s, c), c), ids, c, id, s.now - s.cores[c].since);
    ChargeConserves(s, Preempt(p, cfg, s, c), ids, c, id, s.now - s.cores[c].since);
  }

  lemma FinishConserves<S(!new)>(p: Policy<S>, cfg: Config, s: State<S>, ids: seq<TaskId>, c: nat)
    requires Busy(p, cfg, s, c) && ChargeInBounds(s, c) && Conserved(s, ids)
    ensures Conserved(Complete(p, cfg, Charge(p, cfg, s, c), c), ids)
  {
    hide Conserved, Lawful;
    var id := s.cores[c].running.value;
    ChargeConserves(s, Complete(p, cfg, Charge(p, cfg, s, c), c), ids, c, id, s.now - s.cores[c].since);
  }

  /** A launch on an idle core, from a state with the same tasks and cores. */
  lemma LaunchSameWork<S(!new)>(p: Policy<S>, cfg: Config, s: State<S>, u: State<S>, c: nat, d: Decision)
    requires Shape(p, cfg, u) && c < cfg.cores && s.cores == u.cores && s.tasks == u.tasks && s.now == u.now
    requires u.cores[c].running.None? && d.id in u.tasks
    ensures SameWork(s, Launch(p, cfg, u, c, d))
  {
    hide Lawful;
    var r := Launch(p, cfg, u, c, d);
    forall k {:trigger r.cores[k]} | 0 <= k < |s.cores|
      ensures SameCharge(s.cores[k], r.cores[k], r.now)
    {
    }
  }

  lemma SameIsSameWork<S>(s: State<S>, r: State<S>)
    requires r.cores == s.cores && r.tasks == s.tasks && r.now == s.now
    ensures SameWork(s, r)
  {
  }

  lemma DispatchSameWork<S(!new)>(p: Policy<S>, cfg: Config, s: State<S>, c: nat)
    requires Inv(p, cfg, s) && c < cfg.cores && s.cores[c].running.None?
    ensures SameWork(s, Dispatch(p, cfg, s, c))
  {
    hide SameWork, Lawful, Places, Clock, Accounted, Timers, Launch;
    IdleIsSame(p, cfg, s, c);
    SameIsSameWork(s, s);
    var q := cfg.QueueOf(c);
    var x := p.schedule(s.scheds[q], s.attrs);
    if ReadyCount(p, s, q) > 0 {
      Decides(p, s.scheds[q], s.attrs);
      LaunchSameWork(p, cfg, s, RemoveFrom(p, cfg, s, x.value.id, q), c, x.value);
    } else if cfg.stealing && !cfg.shared && Busiest(p, s, c, cfg.cores).Some? {
      var s2, d := StealIsLaunch(p, cfg, s, c, Busiest(p, s, c, cfg.cores).value);
      LaunchSameWork(p, cfg, s, RemoveFrom(p, cfg, s2, d.id, c), c, d);
    }
  }

  lemma EnqueueSameWork<S(!new)>(p: Policy<S>, cfg: Config, s: State<S>, i: nat, id: TaskId, q: nat, next: nat)
    requires Shape(p, cfg, s) && i < |s.events| && id in s.tasks && q < cfg.Queues() && s.now <= s.events[i].time
    ensures SameWork(s, Enqueue(p, cfg, Pop(p, cfg, s, i).(nextCore := next), id, q))
  {
    hide Lawful;
  }

  lemma TimerConserves<S(!new)>(p: Policy<S>, cfg: Config, s: State<S>, i: nat, ids: seq<TaskId>)
    requires Inv(p, cfg, s) && Earliest(s.events, i) && s.events[i].TimeSlice? && Conserved(s, ids)
    ensures Conserved(Step(p, cfg, s, i), ids)
  {
    hide Conserved, SameWork, Accounted, Timers, Places, Lawful, Charge, Requeue, Complete, Dispatch;
    var e, u := s.events[i], Pop(p, cfg, s, i);
    assert e in s.events;
    PopConserves(p, cfg, s, i, ids);
    if s.cores[e.core].running == Some(e.id) {
      BoundsAtPop(p, cfg, s, i, e.core);
      PopTimer(p, cfg, s, i);
      var s1 := Charge(p, cfg, u, e.core);
      if s1.tasks[e.id].IsCompleted() {
        FinishConserves(p, cfg, u, ids, e.core);
        FinishKeeps(p, cfg, u, e.core);
        DispatchSameWork(p, cfg, Complete(p, cfg, s1, e.core), e.core);
        SameWorkConserves(Complete(p, cfg, s1, e.core), Step(p, cfg, s, i), ids);
      } else {
        ReleaseConserves(p, cfg, u, ids, e.core);
        ReleaseKeeps(p, cfg, u, e.core);
        DispatchSameWork(p, cfg, Requeue(p, cfg, s1, e.core), e.core);
        SameWorkConserves(Requeue(p, cfg, s1, e.core), Step(p, cfg, s, i), ids);
      }
    }
  }

  lemma PopConserves<S(!new)>(p: Policy<S>, cfg: Config, s: State<S>, i: nat, ids: seq<TaskId>)
    requires Inv(p, cfg, s) && Earliest(s.events, i) && Conserved(s, ids)
    ensures Conserved(Pop(p, cfg, s, i), ids)
  {
    PopLater(s, i);
    SameWorkConserves(s, Pop(p, cfg, s, i), ids);
  }

  /** Dispatch on core c after an arrival was queued, preempting if it is busy. */
  lemma PlacementConserves<S(!new)>(p: Policy<S>, cfg: Config, s1: State<S>, c: nat, ids: seq<TaskId>)
    requires Inv(p, cfg, s1) && c < cfg.cores && Conserved(s1, ids)
    requires s1.cores[c].running.Some? ==> ChargeInBounds(s1, c)
    ensures s1.cores[c].running.None? ==> Conserved(Dispatch(p, cfg, s1, c), ids)
    ensures s1.cores[c].running.Some? ==> Conserved(Dispatch(p, cfg, Preempt(p, cfg, s1, c), c), ids)
  {
    hide Conserved, SameWork, Accounted, Timers, Places, Clock, Lawful, Preempt, Dispatch;
    if s1.cores[c].running.None? {
      DispatchSameWork(p, cfg, s1, c);
      SameWorkConserves(s1, Dispatch(p, cfg, s1, c), ids);
    } else {
      ReleaseConserves(p, cfg, s1, ids, c);
      PreemptKeeps(p, cfg, s1, c);
      var s2 := Preempt(p, cfg, s1, c);
      DispatchSameWork(p, cfg, s2, c);
      SameWorkConserves(s2, Dispatch(p, cfg, s2, c), ids);
    }
  }

  lemma SharedArrivalConserves<S(!new)>(p: Policy<S>, cfg: Config, s: State<S>, i: nat, ids: seq<TaskId>)
    requires Inv(p, cfg, s) && Earliest(s.events, i) && s.events[i].Arrival? && cfg.shared && Conserved(s, ids)
    ensures Conserved(Step(p, cfg, s, i), ids)
  {
    hide Conserved, SameWork, Accounted, Timers, Places, Clock, Lawful, Enqueue, Preempt, Dispatch,
         FirstIdle, FirstPreempted, Preempts;
    var u, id := Pop(p, cfg, s, i), s.events[i].id;
    ArriveKeeps(p, cfg, s, i, 0);
    PopLater(s, i);
    EnqueueSameWork(p, cfg, s, i, id, 0, s.nextCore);
    assert u.(nextCore := s.nextCore) == u;
    var s1 := Enqueue(p, cfg, u, id, 0);
    SameWorkConserves(s, s1, ids);
    EnqueueCores(p, cfg, u, id, 0);
    var idle, victim := FirstIdle(s1, cfg.cores), FirstPreempted(p, s1, id, cfg.cores);
    if idle < cfg.cores {
      PlacementConserves(p, cfg, s1, idle, ids);
    } else if victim < cfg.cores {
      ArrivalBounds(p, cfg, s, i, 0, victim);
      PlacementConserves(p, cfg, s1, victim, ids);
    }
  }

  lemma PerCoreArrivalConserves<S(!new)>(p: Policy<S>, cfg: Config, s: State<S>, i: nat, ids: seq<TaskId>)
    requires Inv(p, cfg, s) && Earliest(s.events, i) && s.events[i].Arrival? && !cfg.shared && Conserved(s, ids)
    ensures Conserved(Step(p, cfg, s, i), ids)
  {
    hide Conserved, SameWork, Accounted, Timers, Places, Clock, Lawful, Enqueue, Preempt, Dispatch, LeastLoadedBelow;
    var u, id := Pop(p, cfg, s, i), s.events[i].id;
    var c := Target(p, cfg, u);
    var next := if cfg.balancer.RoundRobin? then (u.nextCore + 1) % cfg.cores else u.nextCore;
    var s' := s.(nextCore := next);
    CounterKeeps(p, cfg, s, s');
    assert Pop(p, cfg, s', i) == u.(nextCore := next);
    ArriveKeeps(p, cfg, s', i, c);
    PopLater(s, i);
    EnqueueSameWork(p, cfg, s, i, id, c, next);
    var s1 := Enqueue(p, cfg, u.(nextCore := next), id, c);
    SameWorkConserves(s, s1, ids);
    EnqueueCores(p, cfg, u.(nextCore := next), id, c);
    if s1.cores[c].running.Some? {
      ArrivalBounds(p, cfg, s', i, c, c);
    }
    PlacementConserves(p, cfg, s1, c, ids);
  }

  lemma {:induction false} RunConserves<S(!new)>(p: Policy<S>, cfg: Config, s: State<S>, choices: seq<nat>, stop: real, ids: seq<TaskId>)
    requires Inv(p, cfg, s) && Run(p, cfg, s, choices, stop) && Conserved(s, ids)
    ensures Conserved(After(p, cfg, s, choices, stop), ids)
    decreases |choices|
  {
    hide Conserved, Accounted, Timers, Places, Clock, Lawful, Step;
    if choices != [] {
      var i := choices[0];
      StepKeeps(p, cfg, s, i);
      if s.events[i].TimeSlice? {
        TimerConserves(p, cfg, s, i, ids);
      } else if cfg.shared {
        SharedArrivalConserves(p, cfg, s, i, ids);
      } else {
        PerCoreArrivalConserves(p, cfg, s, i, ids);
      }
      RunConserves(p, cfg, Step(p, cfg, s, i), choices[1..], stop, ids);
    }
  }

  lemma InitialConserved<S(!new)>(p: Policy<S>, cfg: Config, sched: S, jobs: seq<Job>)
    requires Lawful(p) && cfg.Valid() && Fresh(p, sched) && ValidJobs(jobs)
    ensures Conserved(Initial(cfg, sched, jobs), Ids(jobs))
  {
    hide Places, Clock, Timers, Accounted, Lawful, Initial, Executed, Charged;
    InitialInv(p, cfg, sched, jobs);
    var s, ids := Initial(cfg, sched, jobs), Ids(jobs);
    InitialLists(s, jobs);
    NothingStarted(cfg, sched, jobs);
    NothingExecuted(s, ids);
    NothingCharged(s.cores, |s.cores|);
  }

  lemma InitialLists<S>(s: State<S>, jobs: seq<Job>)
    requires ValidJobs(jobs)
    requires forall id :: id in s.tasks <==> exists i :: 0 <= i < |jobs| && jobs[i].id == id
    ensures Lists(s, Ids(jobs))
  {
    var ids := Ids(jobs);
    forall id
      ensures id in ids <==> id in s.tasks
    {
      if id in s.tasks {
        var i :| 0 <= i < |jobs| && jobs[i].id == id;
        assert ids[i] == id;
      }
    }
  }

  ghost predicate Unstarted<S>(s: State<S>) {
    forall id :: id in s.tasks ==> s.tasks[id].remaining == s.tasks[id].execution
  }

  lemma {:induction false} NothingStarted<S>(cfg: Config, sched: S, jobs: seq<Job>)
    ensures Unstarted(Initial(cfg, sched, jobs))
  {
    if jobs != [] {
      NothingStarted(cfg, sched, jobs[..|jobs| - 1]);
      assert Unstarted(Submit(Initial(cfg, sched, jobs[..|jobs| - 1]), jobs[|jobs| - 1]));
    }
  }

  lemma {:induction false} NothingExecuted<S>(s: State<S>, ids: seq<TaskId>)
    requires forall id :: id in ids ==> id in s.tasks && s.tasks[id].remaining == s.tasks[id].execution
    ensures Executed(s, ids) == 0.0
  {
    if ids != [] {
      NothingExecuted(s, ids[..|ids| - 1]);
    }
  }

  lemma {:induction false} NothingCharged(cores: seq<Core>, n: nat)
    requires n <= |cores| && forall c :: 0 <= c < n ==> cores[c].busy == 0.0
    ensures Charged(cores, n) == 0.0
  {
    if n > 0 {
      NothingCharged(cores, n - 1);
    }
  }

  /** Execution time of completed tasks, counted in list order. */
  function CompletedWork<S>(s: State<S>, ids: seq<TaskId>): real
    requires forall id :: id in ids ==> id in s.tasks
  {
    if ids == [] then 0.0
    else
      var id := ids[|ids| - 1];
      CompletedWork(s, ids[..|ids| - 1]) + if id in s.completed then s.tasks[id].execution else 0.0
  }

  lemma {:induction false} CompletedIsExecuted<S(!new)>(p: Policy<S>, s: State<S>, ids: seq<TaskId>)
    requires Places(p, s) && Accounted(s) && forall id :: id in ids ==> id in s.tasks
    ensures CompletedWork(s, ids) <= Executed(s, ids) + 0.001 * |ids| as real
  {
    if ids != [] {
      CompletedIsExecuted(p, s, ids[..|ids| - 1]);
      assert TaskOk(s, ids[|ids| - 1]);
    }
  }

  lemma {:induction false} ChargedWithinTime<S>(s: State<S>, n: nat)
    requires WithinClock(s) && n <= |s.cores|
    requires forall c :: 0 <= c < |s.cores| && s.cores[c].running.Some? ==> s.cores[c].since <= s.now
    ensures Charged(s.cores, n) <= n as real * s.now
  {
    if n > 0 {
      ChargedWithinTime(s, n - 1);
      assert n as real * s.now == (n - 1) as real * s.now + s.now;
    }
  }

  lemma UsageBounds<S(!new)>(p: Policy<S>, cfg: Config, s: State<S>, ids: seq<TaskId>)
    requires Inv(p, cfg, s) && Conserved(s, ids)
    ensures forall id :: id in ids ==> id in s.tasks
    ensures Executed(s, ids) == Charged(s.cores, |s.cores|) <= cfg.cores as real * s.now
    ensures CompletedWork(s, ids) <= cfg.cores as real * s.now + 0.001 * |ids| as real
  {
    hide Lawful, Places, Clock, Accounted, WithinClock, Executed, Charged, CompletedWork;
    ChargedWithinTime(s, |s.cores|);
    CompletedIsExecuted(p, s, ids);
    ManyCores(s, cfg.cores);
  }

  lemma ManyCores<S>(s: State<S>, cores: nat)
    requires |s.cores| == cores
    ensures |s.cores| as real * s.now == cores as real * s.now
  {
  }

  /** CPU time is conserved in every state of every run: the tasks executed exactly what the
      cores were charged; and the completed work never exceeds the capacity of the cores so
      far by more than 0.001 a task, which bounds the reported utilization. */
  lemma CpuTimeIsConserved<S(!new)>(p: Policy<S>, cfg: Config, sched: S, jobs: seq<Job>,
                                    choices: seq<nat>, stop: real, s: State<S>)
    requires Reached(p, cfg, sched, jobs, choices, stop, s)
    ensures forall id :: id in Ids(jobs) ==> id in s.tasks
    ensures Executed(s, Ids(jobs)) == Charged(s.cores, |s.cores|) <= cfg.cores as real * s.now
    ensures CompletedWork(s, Ids(jobs)) <= cfg.cores as real * s.now + 0.001 * |jobs| as real
  {
    hide Places, Accounted, Clock, Lawful, Initial, Conserved, WithinClock, Executed, Charged, CompletedWork;
    ReachedInv(p, cfg, sched, jobs, choices, stop, s);
    InitialInv(p, cfg, sched, jobs);
    InitialConserved(p, cfg, sched, jobs);
    RunConserves(p, cfg, Initial(cfg, sched, jobs), choices, stop, Ids(jobs));
    UsageBounds(p, cfg, s, Ids(jobs));
  }
}

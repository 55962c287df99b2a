/** Properties of tasks' scheduling fields over whole runs of either engine: what a policy
    establishes when a task first arrives and keeps afterwards holds of every arrived task,
    and what ties a queued task's fields to its place in the queue holds of every queue. */
module EngineFields {
  import opened Common
  import opened Tasks
  import opened Policies
  import opened Engine
  import opened EngineInvariant
  import opened EngineRuns

  /** fit is about any arrived task's fields, home about those of a task ready in a
      scheduler. */
  datatype Claim<!S> = Claim(fit: Attr -> bool, home: (S, TaskId, Attr) -> bool)

  ghost predicate Homes<S>(p: Policy<S>, k: Claim<S>, s: S, attrs: Attrs) {
    forall x :: x in p.ready(s) ==> k.home(s, x, AttrOf(attrs, x))
  }

  /** Adding an unstarted task makes its fields fit; all other operations keep fitting
      fields fitting; every operation keeps the fields of the ready tasks at home. */
  ghost predicate Preserves<S(!new)>(p: Policy<S>, k: Claim<S>) {
    && (forall s, attrs, id, unstarted :: p.valid(s) && id !in p.ready(s) && Homes(p, k, s, attrs) ==>
          AddPreserves(p, k, s, attrs, id, unstarted))
    && (forall s, attrs, id, cpu :: p.valid(s) && id !in p.ready(s) && cpu >= 0.0 && Homes(p, k, s, attrs) ==>
          ChargePreserves(p, k, s, attrs, id, cpu))
    && (forall s, attrs, id :: p.valid(s) && Homes(p, k, s, attrs) ==> Homes(p, k, p.remove(s, id), attrs))
  }

  ghost predicate AddPreserves<S>(p: Policy<S>, k: Claim<S>, s: S, attrs: Attrs, id: TaskId, unstarted: bool) {
    var r := p.add(s, attrs, id, unstarted);
    && Homes(p, k, r.0, r.1)
    && forall x :: (x == id && unstarted) || k.fit(AttrOf(attrs, x)) ==> k.fit(AttrOf(r.1, x))
  }

  ghost predicate ChargePreserves<S>(p: Policy<S>, k: Claim<S>, s: S, attrs: Attrs, id: TaskId, cpu: real) {
    var r := p.charge(s, attrs, id, cpu);
    && Homes(p, k, r.0, r.1)
    && forall x :: k.fit(AttrOf(attrs, x)) ==> k.fit(AttrOf(r.1, x))
  }

  /** The claim holds of all arrived tasks and all queues. */
  ghost predicate AllFit<S>(p: Policy<S>, k: Claim<S>, s: State<S>) {
    && (forall id :: id in s.place && s.place[id] != Pending ==> k.fit(AttrOf(s.attrs, id)))
    && (forall q :: 0 <= q < |s.scheds| ==> Homes(p, k, s.scheds[q], s.attrs))
  }

  /** No task is ready twice, and id nowhere. */
  ghost predicate Separate<S>(p: Policy<S>, scheds: seq<S>, id: TaskId) {
    && (forall q :: 0 <= q < |scheds| ==> id !in p.ready(scheds[q]))
    && (forall q, r :: 0 <= q < |scheds| && 0 <= r < |scheds| && q != r ==> Disjoint(p, scheds[q], scheds[r]))
  }

  ghost predicate Disjoint<S>(p: Policy<S>, a: S, b: S) {
    forall x :: x in p.ready(a) ==> x !in p.ready(b)
  }

  lemma PlacesSeparate<S(!new)>(p: Policy<S>, s: State<S>, id: TaskId)
    requires Places(p, s) && (id in s.place ==> !s.place[id].Queued?)
    ensures Separate(p, s.scheds, id)
  {
    forall q | 0 <= q < |s.scheds|
      ensures id !in p.ready(s.scheds[q])
    {
      assert p.ready(s.scheds[q])[id] == 0;
    }
    forall q, r, x | 0 <= q < |s.scheds| && 0 <= r < |s.scheds| && q != r && x in p.ready(s.scheds[q])
      ensures x !in p.ready(s.scheds[r])
    {
      ReadyIsPlaced(p, s, q, x);
      assert p.ready(s.scheds[r])[x] == 0;
    }
  }

  /** Queues disjoint from the one operated on do not notice. */
  lemma OthersKeepHomes<S(!new)>(p: Policy<S>, k: Claim<S>, a: S, b: S, id: TaskId, before: Attrs, after: Attrs)
    requires Disjoint(p, b, a) && id !in p.ready(b) && Homes(p, k, b, before) && Touches(p, a, id, before, after)
    ensures Homes(p, k, b, after)
  {
    forall x | x in p.ready(b)
      ensures k.home(b, x, AttrOf(after, x))
    {
      assert SameAttr(before, after, x);
    }
  }

  lemma AddFits<S(!new)>(p: Policy<S>, cfg: Config, s: State<S>, id: TaskId, q: nat, k: Claim<S>)
    requires Shape(p, cfg, s) && Local(p) && Preserves(p, k) && AllFit(p, k, s) && Separate(p, s.scheds, id)
    requires id in s.tasks && q < cfg.Queues() && (s.place[id] == Pending ==> s.tasks[id].start < 0.0)
    ensures AllFit(p, k, AddTo(p, cfg, s, id, q))
  {
    hide Lawful, Homes;
    var r := AddTo(p, cfg, s, id, q);
    assert AddPreserves(p, k, s.scheds[q], s.attrs, id, s.tasks[id].start < 0.0);
    assert Touches(p, s.scheds[q], id, s.attrs, r.attrs);
    forall o | 0 <= o < |r.scheds| && o != q
      ensures Homes(p, k, r.scheds[o], r.attrs)
    {
      assert Disjoint(p, s.scheds[o], s.scheds[q]) && id !in p.ready(s.scheds[o]);
      OthersKeepHomes(p, k, s.scheds[q], s.scheds[o], id, s.attrs, r.attrs);
    }
  }

  lemma EnqueueFits<S(!new)>(p: Policy<S>, cfg: Config, s: State<S>, id: TaskId, q: nat, k: Claim<S>)
    requires Shape(p, cfg, s) && Local(p) && Preserves(p, k) && AllFit(p, k, s) && Separate(p, s.scheds, id)
    requires id in s.tasks && q < cfg.Queues() && (s.place[id] == Pending ==> s.tasks[id].start < 0.0)
    ensures AllFit(p, k, Enqueue(p, cfg, s, id, q))
  {
    hide Lawful, Local, Homes, AddTo, Preserves, Separate;
    var u := s.(tasks := s.tasks[id := s.tasks[id].MarkReady(s.now)]);
    assert AllFit(p, k, u);
    AddFits(p, cfg, u, id, q, k);
  }

  lemma ChargeFits<S(!new)>(p: Policy<S>, cfg: Config, s: State<S>, c: nat, k: Claim<S>)
    requires Busy(p, cfg, s, c) && Local(p) && Preserves(p, k) && AllFit(p, k, s)
    requires Separate(p, s.scheds, s.cores[c].running.value) && s.now >= s.cores[c].since
    ensures AllFit(p, k, Charge(p, cfg, s, c))
  {
    hide Lawful, Homes;
    var id, q, r := s.cores[c].running.value, cfg.QueueOf(c), Charge(p, cfg, s, c);
    assert ChargePreserves(p, k, s.scheds[q], s.attrs, id, s.now - s.cores[c].since);
    assert Touches(p, s.scheds[q], id, s.attrs, r.attrs);
    forall o | 0 <= o < |r.scheds| && o != q
      ensures Homes(p, k, r.scheds[o], r.attrs)
    {
      assert Disjoint(p, s.scheds[o], s.scheds[q]) && id !in p.ready(s.scheds[o]);
      OthersKeepHomes(p, k, s.scheds[q], s.scheds[o], id, s.attrs, r.attrs);
    }
  }

  lemma ChargeSeparate<S(!new)>(p: Policy<S>, cfg: Config, s: State<S>, c: nat, id: TaskId)
    requires Busy(p, cfg, s, c) && Separate(p, s.scheds, id)
    ensures Separate(p, Charge(p, cfg, s, c).scheds, id) && Charge(p, cfg, s, c).place == s.place
  {
    var r := Charge(p, cfg, s, c);
    forall q | 0 <= q < |s.scheds|
      ensures p.ready(r.scheds[q]) == p.ready(s.scheds[q])
    {
    }
    forall q, o | 0 <= q < |r.scheds| && 0 <= o < |r.scheds| && q != o
      ensures Disjoint(p, r.scheds[q], r.scheds[o])
    {
      assert Disjoint(p, s.scheds[q], s.scheds[o]);
    }
  }

  lemma RequeueFits<S(!new)>(p: Policy<S>, cfg: Config, s: State<S>, c: nat, k: Claim<S>)
    requires Busy(p, cfg, s, c) && Local(p) && Preserves(p, k) && AllFit(p, k, s)
    requires Separate(p, s.scheds, s.cores[c].running.value) && s.place[s.cores[c].running.value] != Pending
    ensures AllFit(p, k, Requeue(p, cfg, s, c))
  {
    hide Lawful, Local, Homes, Enqueue, Preserves, Separate;
    var id := s.cores[c].running.value;
    var t := s.tasks[id];
    var u := Idle(p, cfg, s, c).(tasks := s.tasks[id := t.(preemptions := t.preemptions + 1)],
                                 preemptions := s.preemptions + 1);
    assert AllFit(p, k, u);
    EnqueueFits(p, cfg, u, id, cfg.QueueOf(c), k);
  }

  lemma RemoveFits<S(!new)>(p: Policy<S>, cfg: Config, s: State<S>, id: TaskId, q: nat, k: Claim<S>)
    requires Shape(p, cfg, s) && Preserves(p, k) && AllFit(p, k, s) && q < cfg.Queues()
    ensures AllFit(p, k, RemoveFrom(p, cfg, s, id, q))
  {
    hide Lawful, Homes;
  }

  lemma LaunchFits<S(!new)>(p: Policy<S>, cfg: Config, s: State<S>, q: nat, c: nat, d: Decision, k: Claim<S>)
    requires Shape(p, cfg, s) && Preserves(p, k) && AllFit(p, k, s) && c < cfg.cores && q < cfg.Queues()
    requires d.id in s.tasks && s.place[d.id] != Pending
    ensures AllFit(p, k, Launch(p, cfg, RemoveFrom(p, cfg, s, d.id, q), c, d))
  {
    hide Lawful, Homes, Preserves, RemoveFrom;
    RemoveFits(p, cfg, s, d.id, q, k);
    SamePlace(p, cfg, s, d.id, q);
  }

  lemma SamePlace<S(!new)>(p: Policy<S>, cfg: Config, s: State<S>, id: TaskId, q: nat)
    requires Shape(p, cfg, s) && q < cfg.Queues()
    ensures RemoveFrom(p, cfg, s, id, q).place == s.place && RemoveFrom(p, cfg, s, id, q).tasks == s.tasks
  {
  }

  lemma RemoveSeparates<S(!new)>(p: Policy<S>, cfg: Config, s: State<S>, id: TaskId, q: nat)
    requires Shape(p, cfg, s) && Places(p, s) && q < cfg.Queues() && id in p.ready(s.scheds[q])
    ensures Separate(p, RemoveFrom(p, cfg, s, id, q).scheds, id)
  {
    var r := RemoveFrom(p, cfg, s, id, q);
    assert p.ready(r.scheds[q]) == p.ready(s.scheds[q])[id := 0];
    ReadyIsPlaced(p, s, q, id);
    forall o | 0 <= o < |r.scheds|
      ensures id !in p.ready(r.scheds[o])
    {
      assert o != q ==> p.ready(s.scheds[o])[id] == 0;
    }
    forall a, b, x | 0 <= a < |r.scheds| && 0 <= b < |r.scheds| && a != b && x in p.ready(r.scheds[a])
      ensures x !in p.ready(r.scheds[b])
    {
      ReadyIsPlaced(p, s, a, x);
      assert p.ready(s.scheds[b])[x] == 0;
    }
  }

  lemma StealFits<S(!new)>(p: Policy<S>, cfg: Config, s: State<S>, c: nat, k: Claim<S>)
    requires Inv(p, cfg, s) && Local(p) && Preserves(p, k) && AllFit(p, k, s)
    requires c < cfg.cores && s.cores[c].running.None? && !cfg.shared
    ensures AllFit(p, k, Steal(p, cfg, s, c))
  {
    hide Lawful, Local, Accounted, Timers, Clock, Places, Launch, AddTo, RemoveFrom, Preserves, Busiest, Homes, Separate;
    IdleIsSame(p, cfg, s, c);
    var v := Busiest(p, s, c, cfg.cores);
    if v.Some? {
      var s2, d := StealIsLaunch(p, cfg, s, c, v.value);
      var id := p.schedule(s.scheds[v.value], s.attrs).value.id;
      ReadyIsPlaced(p, s, v.value, id);
      RemoveFits(p, cfg, s, id, v.value, k);
      RemoveSeparates(p, cfg, s, id, v.value);
      SamePlace(p, cfg, s, id, v.value);
      AddFits(p, cfg, RemoveFrom(p, cfg, s, id, v.value), id, c, k);
      ReadyIsPlaced(p, s2, c, d.id);
      LaunchFits(p, cfg, s2, c, c, d, k);
    }
  }

  lemma DispatchFits<S(!new)>(p: Policy<S>, cfg: Config, s: State<S>, c: nat, k: Claim<S>)
    requires Inv(p, cfg, s) && Local(p) && Preserves(p, k) && AllFit(p, k, s) && c < cfg.cores && s.cores[c].running.None?
    ensures AllFit(p, k, Dispatch(p, cfg, s, c))
  {
    hide Lawful, Local, Homes, Separate, Accounted, Timers, Clock, Places, Launch, Steal, Preserves;
    var q := cfg.QueueOf(c);
    if ReadyCount(p, s, q) > 0 {
      NextIsKnown(p, cfg, s, q);
      var d := p.schedule(s.scheds[q], s.attrs).value;
      ReadyIsPlaced(p, s, q, d.id);
      LaunchFits(p, cfg, s, q, c, d, k);
    } else if cfg.stealing && !cfg.shared {
      StealFits(p, cfg, s, c, k);
    }
  }

  /** The running task is charged and requeued or completed. */
  lemma ReleaseFits<S(!new)>(p: Policy<S>, cfg: Config, s: State<S>, c: nat, k: Claim<S>)
    requires Busy(p, cfg, s, c) && Places(p, s) && Local(p) && Preserves(p, k) && AllFit(p, k, s) && s.now >= s.cores[c].since
    ensures AllFit(p, k, Requeue(p, cfg, Charge(p, cfg, s, c), c))
    ensures AllFit(p, k, Complete(p, cfg, Charge(p, cfg, s, c), c))
  {
    hide Lawful, Local, Homes, Separate, Preserves, Requeue, Charge, Places;
    RunningIsPlaced(p, s, c);
    PlacesSeparate(p, s, s.cores[c].running.value);
    ChargeFits(p, cfg, s, c, k);
    ChargeSeparate(p, cfg, s, c, s.cores[c].running.value);
    RequeueFits(p, cfg, Charge(p, cfg, s, c), c, k);
  }

  lemma ArrivalFits<S(!new)>(p: Policy<S>, cfg: Config, s: State<S>, i: nat, q: nat, c: nat, k: Claim<S>)
    requires Inv(p, cfg, s) && Earliest(s.events, i) && s.events[i].Arrival? && q < cfg.Queues() && c < cfg.cores
    requires Local(p) && Preserves(p, k) && AllFit(p, k, s)
    ensures s.events[i].id in s.tasks
    ensures var s1 := Enqueue(p, cfg, Pop(p, cfg, s, i), s.events[i].id, q);
            && AllFit(p, k, s1)
            && (s1.cores[c].running.None? ==> AllFit(p, k, Dispatch(p, cfg, s1, c)))
            && (s1.cores[c].running.Some? ==> AllFit(p, k, Dispatch(p, cfg, Preempt(p, cfg, s1, c), c)))
  {
    hide Lawful, Local, Homes, Separate, Accounted, Timers, Clock, Places, Preserves, Dispatch, Charge, Requeue, Enqueue;
    var u := Pop(p, cfg, s, i);
    var id := s.events[i].id;
    ArriveKeeps(p, cfg, s, i, q);
    Unstarted(p, cfg, s, i);
    SamePlaces(p, s, u);
    PlacesSeparate(p, u, id);
    assert AllFit(p, k, u);
    EnqueueFits(p, cfg, u, id, q, k);
    var s1 := Enqueue(p, cfg, u, id, q);
    if s1.cores[c].running.None? {
      DispatchFits(p, cfg, s1, c, k);
    } else {
      EnqueueCores(p, cfg, u, id, q);
      ArrivalBounds(p, cfg, s, i, q, c);
      ReleaseFits(p, cfg, s1, c, k);
      PreemptKeeps(p, cfg, s1, c);
      DispatchFits(p, cfg, Preempt(p, cfg, s1, c), c, k);
    }
  }

  lemma Unstarted<S(!new)>(p: Policy<S>, cfg: Config, s: State<S>, i: nat)
    requires Inv(p, cfg, s) && i < |s.events| && s.events[i].Arrival?
    ensures s.events[i].id in s.tasks && s.tasks[s.events[i].id].start < 0.0
    ensures s.place[s.events[i].id] == Pending
  {
    assert s.events[i] in s.events && Awaits(s, s.events[i]);
    assert TaskOk(s, s.events[i].id);
  }

  lemma TimerFits<S(!new)>(p: Policy<S>, cfg: Config, s: State<S>, i: nat, k: Claim<S>)
    requires Inv(p, cfg, s) && Earliest(s.events, i) && s.events[i].TimeSlice?
    requires Local(p) && Preserves(p, k) && AllFit(p, k, s)
    ensures s.events[i].id in s.tasks && s.events[i].core < cfg.cores
    ensures AllFit(p, k, TimerFires(p, cfg, Pop(p, cfg, s, i), s.events[i].id, s.events[i].core))
  {
    hide Lawful, Local, Homes, Separate, Accounted, Timers, Clock, Places, Preserves, Dispatch, Charge, Requeue, Complete;
    var e := s.events[i];
    assert e in s.events;
    var u := Pop(p, cfg, s, i);
    assert AllFit(p, k, u);
    PopTimer(p, cfg, s, i);
    if s.cores[e.core].running == Some(e.id) {
      BoundsAtPop(p, cfg, s, i, e.core);
      ReleaseFits(p, cfg, u, e.core, k);
      var s1 := Charge(p, cfg, u, e.core);
      if s1.tasks[e.id].IsCompleted() {
        FinishKeeps(p, cfg, u, e.core);
        DispatchFits(p, cfg, Complete(p, cfg, s1, e.core), e.core, k);
      } else {
        ReleaseKeeps(p, cfg, u, e.core);
        DispatchFits(p, cfg, Requeue(p, cfg, s1, e.core), e.core, k);
      }
    }
  }

  lemma SharedArrivalFits<S(!new)>(p: Policy<S>, cfg: Config, s: State<S>, i: nat, k: Claim<S>)
    requires Inv(p, cfg, s) && Earliest(s.events, i) && s.events[i].Arrival? && cfg.shared
    requires Local(p) && Preserves(p, k) && AllFit(p, k, s)
    ensures s.events[i].id in s.tasks
    ensures AllFit(p, k, SharedArrival(p, cfg, Pop(p, cfg, s, i), s.events[i].id))
  {
    hide Lawful, Local, Homes, Separate, Accounted, Timers, Clock, Places, Preserves, AllFit, Dispatch, Preempt, Enqueue;
    ArrivalFits(p, cfg, s, i, 0, 0, k);
    var id := s.events[i].id;
    var s1 := Enqueue(p, cfg, Pop(p, cfg, s, i), id, 0);
    EnqueueCores(p, cfg, Pop(p, cfg, s, i), id, 0);
    var idle := FirstIdle(s1, cfg.cores);
    if idle < cfg.cores {
      ArrivalFits(p, cfg, s, i, 0, idle, k);
    } else {
      var victim := FirstPreempted(p, s1, id, cfg.cores);
      if victim < cfg.cores {
        ArrivalFits(p, cfg, s, i, 0, victim, k);
      }
    }
  }

  lemma PerCoreArrivalFits<S(!new)>(p: Policy<S>, cfg: Config, s: State<S>, i: nat, k: Claim<S>)
    requires Inv(p, cfg, s) && Earliest(s.events, i) && s.events[i].Arrival? && !cfg.shared
    requires Local(p) && Preserves(p, k) && AllFit(p, k, s)
    ensures s.events[i].id in s.tasks
    ensures AllFit(p, k, PerCoreArrival(p, cfg, Pop(p, cfg, s, i), s.events[i].id))
  {
    hide Lawful, Local, Homes, Separate, Accounted, Timers, Clock, Places, Preserves, Dispatch, Preempt, Enqueue;
    var u := Pop(p, cfg, s, i);
    var c := Target(p, cfg, u);
    var next := if cfg.balancer.RoundRobin? then (u.nextCore + 1) % cfg.cores else u.nextCore;
    var s' := s.(nextCore := next);
    CounterKeeps(p, cfg, s, s');
    assert AllFit(p, k, s');
    assert Pop(p, cfg, s', i) == u.(nextCore := next);
    ArrivalFits(p, cfg, s', i, c, c, k);
  }

  lemma StepFits<S(!new)>(p: Policy<S>, cfg: Config, s: State<S>, i: nat, k: Claim<S>)
    requires Inv(p, cfg, s) && Earliest(s.events, i) && Local(p) && Preserves(p, k) && AllFit(p, k, s)
    ensures AllFit(p, k, Step(p, cfg, s, i))
  {
    hide Lawful, Local, Homes, Separate, Accounted, Timers, Clock, Places, Preserves, AllFit, SharedArrival, PerCoreArrival, TimerFires;
    if s.events[i].TimeSlice? {
      TimerFits(p, cfg, s, i, k);
    } else if cfg.shared {
      SharedArrivalFits(p, cfg, s, i, k);
    } else {
      PerCoreArrivalFits(p, cfg, s, i, k);
    }
  }

  lemma {:induction false} RunFits<S(!new)>(p: Policy<S>, cfg: Config, s: State<S>, choices: seq<nat>, stop: real, k: Claim<S>)
    requires Inv(p, cfg, s) && Run(p, cfg, s, choices, stop) && Local(p) && Preserves(p, k) && AllFit(p, k, s)
    ensures AllFit(p, k, After(p, cfg, s, choices, stop))
    decreases |choices|
  {
    hide Lawful, Local, Homes, Separate, Accounted, Timers, Clock, Places, Preserves, Step, AllFit;
    if choices != [] {
      StepFits(p, cfg, s, choices[0], k);
      StepKeeps(p, cfg, s, choices[0]);
      RunFits(p, cfg, Step(p, cfg, s, choices[0]), choices[1..], stop, k);
    }
  }

  lemma {:induction false} NobodyArrivedYet<S>(cfg: Config, sched: S, jobs: seq<Job>)
    ensures forall id :: id in Initial(cfg, sched, jobs).place ==> Initial(cfg, sched, jobs).place[id] == Pending
  {
    if jobs != [] {
      NobodyArrivedYet(cfg, sched, jobs[..|jobs| - 1]);
    }
  }

  lemma QueuesStartEmpty<S(!new)>(p: Policy<S>, k: Claim<S>, cfg: Config, sched: S, jobs: seq<Job>)
    requires Lawful(p) && cfg.Valid() && Fresh(p, sched) && ValidJobs(jobs)
    ensures AllFit(p, k, Initial(cfg, sched, jobs))
  {
    var s := Initial(cfg, sched, jobs);
    InitialInv(p, cfg, sched, jobs);
    NobodyArrivedYet(cfg, sched, jobs);
    hide Clock, Accounted, Timers;
    forall q | 0 <= q < |s.scheds|
      ensures p.ready(s.scheds[q]) == multiset{}
    {
      forall x
        ensures p.ready(s.scheds[q])[x] == 0
      {
      }
    }
  }

  /** The fields of every arrived task fit in every reachable state, on both engines. */
  lemma FieldsAlwaysFit<S(!new)>(p: Policy<S>, cfg: Config, sched: S, jobs: seq<Job>, choices: seq<nat>, stop: real,
                                 s: State<S>, k: Claim<S>)
    requires Reached(p, cfg, sched, jobs, choices, stop, s) && Local(p) && Preserves(p, k)
    ensures AllFit(p, k, s)
  {
    hide Lawful, Local, Homes, Separate, Accounted, Timers, Clock, Places, Preserves, AllFit;
    InitialInv(p, cfg, sched, jobs);
    QueuesStartEmpty(p, k, cfg, sched, jobs);
    RunFits(p, cfg, Initial(cfg, sched, jobs), choices, stop, k);
  }
}

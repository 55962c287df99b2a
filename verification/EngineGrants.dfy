/** Where a core's slice comes from: in every reachable state of either engine the slice of a
    running task is what its scheduler granted when it chose the task. */
module EngineGrants {
  import opened Common
  import opened Tasks
  import opened Policies
  import opened Engine
  import opened EngineInvariant
  import opened EngineRuns
  import opened EngineSteps

  /** No two cores run the same task, and no running task is ready. */
  ghost predicate Lone<S(!new)>(p: Policy<S>, s: State<S>) {
    && (forall j: nat, k: nat :: j < k < |s.cores| && s.cores[j].running.Some? ==> s.cores[j].running != s.cores[k].running)
    && (forall k: nat, q: nat :: k < |s.cores| && q < |s.scheds| && s.cores[k].running.Some? ==>
          s.cores[k].running.value !in p.ready(s.scheds[q]))
  }

  /** The cores but c keep their slices and the fields of their tasks; weights never change. */
  ghost predicate Holds<S>(s: State<S>, r: State<S>, c: int) {
    && |r.cores| == |s.cores|
    && (forall k: nat :: k < |s.cores| && k != c ==> HoldsOn(s, r, k))
    && (forall x :: SameWeight(s.attrs, r.attrs, x))
  }

  ghost predicate HoldsOn<S>(s: State<S>, r: State<S>, k: nat)
    requires k < |s.cores| && k < |r.cores|
  {
    r.cores[k] == s.cores[k] && (s.cores[k].running.Some? ==> SameAttr(s.attrs, r.attrs, s.cores[k].running.value))
  }

  lemma HoldsTwice<S>(s: State<S>, t: State<S>, r: State<S>, b: int, c: int, either: int)
    requires Holds(s, t, b) && Holds(t, r, c) && (b < 0 || b == either) && (c < 0 || c == either)
    ensures Holds(s, r, either)
  {
    forall k: nat | k < |s.cores| && k != either
      ensures HoldsOn(s, r, k)
    {
      assert HoldsOn(s, t, k) && HoldsOn(t, r, k);
    }
    forall x
      ensures SameWeight(s.attrs, r.attrs, x)
    {
      assert SameWeight(s.attrs, t.attrs, x) && SameWeight(t.attrs, r.attrs, x);
    }
  }

  lemma SameHolds<S>(s: State<S>, r: State<S>)
    requires r.cores == s.cores && r.attrs == s.attrs
    ensures Holds(s, r, -1)
  {
  }

  lemma PlacesLone<S(!new)>(p: Policy<S>, s: State<S>)
    requires Places(p, s)
    ensures Lone(p, s)
  {
    forall k: nat, q: nat | k < |s.cores| && q < |s.scheds| && s.cores[k].running.Some?
      ensures s.cores[k].running.value !in p.ready(s.scheds[q])
    {
      assert p.ready(s.scheds[q])[s.cores[k].running.value] == 0;
    }
  }

  // ------------------------------------------------ what the operations hold

  lemma AddHolds<S(!new)>(p: Policy<S>, cfg: Config, s: State<S>, id: TaskId, q: nat)
    requires Shape(p, cfg, s) && Local(p) && id in s.tasks && q < cfg.Queues() && Lone(p, s)
    requires forall k: nat :: k < |s.cores| ==> s.cores[k].running != Some(id)
    ensures Holds(s, AddTo(p, cfg, s, id, q), -1) && Lone(p, AddTo(p, cfg, s, id, q))
  {
    var r := AddTo(p, cfg, s, id, q);
    assert Touches(p, s.scheds[q], id, s.attrs, r.attrs);
    AddReady(p, s.scheds[q], s.attrs, id, s.tasks[id].start < 0.0);
    hide Lawful, Local;
    forall k: nat | k < |s.cores|
      ensures HoldsOn(s, r, k)
    {
    }
  }

  lemma AddReady<S(!new)>(p: Policy<S>, x: S, attrs: Attrs, id: TaskId, unstarted: bool)
    requires Lawful(p) && p.valid(x)
    ensures p.ready(p.add(x, attrs, id, unstarted).0) == p.ready(x) + multiset{id}
  {
    assert Yields(p, p.add(x, attrs, id, unstarted).0, p.ready(x) + multiset{id});
  }

  lemma AddCores<S(!new)>(p: Policy<S>, cfg: Config, s: State<S>, id: TaskId, q: nat)
    requires Shape(p, cfg, s) && id in s.tasks && q < cfg.Queues()
    ensures AddTo(p, cfg, s, id, q).cores == s.cores
  {
  }

  lemma EnqueueHolds<S(!new)>(p: Policy<S>, cfg: Config, s: State<S>, id: TaskId, q: nat)
    requires Shape(p, cfg, s) && Local(p) && id in s.tasks && q < cfg.Queues() && Lone(p, s)
    requires forall k: nat :: k < |s.cores| ==> s.cores[k].running != Some(id)
    ensures Holds(s, Enqueue(p, cfg, s, id, q), -1) && Lone(p, Enqueue(p, cfg, s, id, q))
    ensures Enqueue(p, cfg, s, id, q).cores == s.cores
  {
    hide Lawful, Local, Lone, Holds, AddTo;
    var u := s.(tasks := s.tasks[id := s.tasks[id].MarkReady(s.now)]);
    SameLone(p, s, u);
    AddHolds(p, cfg, u, id, q);
    SameHolds(s, u);
    HoldsTwice(s, u, Enqueue(p, cfg, s, id, q), -1, -1, -1);
    AddCores(p, cfg, u, id, q);
  }

  lemma ChargeHolds<S(!new)>(p: Policy<S>, cfg: Config, s: State<S>, c: nat)
    requires Busy(p, cfg, s, c) && Local(p) && Lone(p, s)
    ensures var r := Charge(p, cfg, s, c); Holds(s, r, c) && Lone(p, r) && r.cores[c].running == s.cores[c].running
  {
    var id, q, r := s.cores[c].running.value, cfg.QueueOf(c), Charge(p, cfg, s, c);
    assert Touches(p, s.scheds[q], id, s.attrs, r.attrs);
    assert Yields(p, p.charge(s.scheds[q], s.attrs, id, s.now - s.cores[c].since).0, p.ready(s.scheds[q]));
    hide Lawful, Local;
    forall k: nat | k < |s.cores| && k != c
      ensures HoldsOn(s, r, k)
    {
    }
  }

  lemma RequeueHolds<S(!new)>(p: Policy<S>, cfg: Config, s: State<S>, c: nat)
    requires Busy(p, cfg, s, c) && Local(p) && Lone(p, s)
    ensures Holds(s, Requeue(p, cfg, s, c), c)
  {
    hide Lawful, Local, Enqueue, Holds;
    var id := s.cores[c].running.value;
    var t := s.tasks[id];
    var u := Idle(p, cfg, s, c).(tasks := s.tasks[id := t.(preemptions := t.preemptions + 1)],
                                 preemptions := s.preemptions + 1);
    EnqueueHolds(p, cfg, u, id, cfg.QueueOf(c));
    OnlyCore(s, u, c);
    HoldsTwice(s, u, Requeue(p, cfg, s, c), c, -1, c);
  }

  lemma OnlyCore<S>(s: State<S>, r: State<S>, c: nat)
    requires c < |s.cores| && r.attrs == s.attrs && |r.cores| == |s.cores|
    requires forall k: nat :: k < |s.cores| && k != c ==> r.cores[k] == s.cores[k]
    ensures Holds(s, r, c)
  {
  }

  lemma ReleaseHolds<S(!new)>(p: Policy<S>, cfg: Config, s: State<S>, c: nat)
    requires Busy(p, cfg, s, c) && Local(p) && Lone(p, s)
    ensures Holds(s, Requeue(p, cfg, Charge(p, cfg, s, c), c), c)
    ensures Holds(s, Complete(p, cfg, Charge(p, cfg, s, c), c), c)
    ensures Holds(s, Preempt(p, cfg, s, c), c)
  {
    hide Lawful, Local, Lone, Holds, Charge, Requeue;
    var s1 := Charge(p, cfg, s, c);
    ChargeHolds(p, cfg, s, c);
    RequeueHolds(p, cfg, s1, c);
    HoldsTwice(s, s1, Requeue(p, cfg, s1, c), c, c, c);
    OnlyCore(s1, Complete(p, cfg, s1, c), c);
    HoldsTwice(s, s1, Complete(p, cfg, s1, c), c, c, c);
    SameHolds(Requeue(p, cfg, s1, c), Preempt(p, cfg, s, c));
    HoldsTwice(s, Requeue(p, cfg, s1, c), Preempt(p, cfg, s, c), c, -1, c);
  }

  lemma ArrivalHolds<S(!new)>(p: Policy<S>, cfg: Config, s: State<S>, u: State<S>, id: TaskId, q: nat, c: int)
    requires Shape(p, cfg, u) && Local(p) && Lone(p, u) && id in u.tasks && q < cfg.Queues() && c < cfg.cores
    requires u.cores == s.cores && u.attrs == s.attrs
    requires forall k: nat :: k < |u.cores| ==> u.cores[k].running != Some(id)
    ensures var s1 := Enqueue(p, cfg, u, id, q);
            Holds(s, if c >= 0 && s1.cores[c].running.Some? then Preempt(p, cfg, s1, c) else s1, c)
  {
    hide Lawful, Local, Lone, Holds, Enqueue, Preempt;
    var s1 := Enqueue(p, cfg, u, id, q);
    SameHolds(s, u);
    EnqueueHolds(p, cfg, u, id, q);
    HoldsTwice(s, u, s1, -1, -1, -1);
    Fewer(s, s1, c);
    if c >= 0 && s1.cores[c].running.Some? {
      ReleaseHolds(p, cfg, s1, c);
      HoldsTwice(s, s1, Preempt(p, cfg, s1, c), -1, c, c);
    }
  }

  lemma Fewer<S>(s: State<S>, r: State<S>, c: int)
    requires Holds(s, r, -1)
    ensures Holds(s, r, c)
  {
  }

  lemma PreparedHolds<S(!new)>(p: Policy<S>, cfg: Config, s: State<S>, i: nat, t: State<S>, c: int, q: nat, next: nat)
    requires Inv(p, cfg, s) && Local(p) && i < |s.events| && Prepared(p, cfg, s, i, t, c, q, next)
    ensures Holds(s, t, c)
  {
    hide Lawful, Local, Places, Clock, Accounted, Timers, Takes, Lone, Holds, Enqueue, Charge, Requeue, Complete, Preempt;
    var e, u := s.events[i], Pop(p, cfg, s, i);
    PlacesLone(p, s);
    SameLone(p, s, u);
    SameHolds(s, u);
    if e.Arrival? {
      ArrivesNowhere(p, cfg, s, i);
      SameLone(p, s, u.(nextCore := next));
      ArrivalHolds(p, cfg, s, u.(nextCore := next), e.id, q, c);
    } else if e.core < cfg.cores && u.cores[e.core].running == Some(e.id) {
      ReleaseHolds(p, cfg, u, c);
      HoldsTwice(s, u, t, -1, c, c);
    }
  }

  lemma SameLone<S(!new)>(p: Policy<S>, s: State<S>, r: State<S>)
    requires Lone(p, s) && r.cores == s.cores && r.scheds == s.scheds
    ensures Lone(p, r)
  {
  }

  lemma ArrivesNowhere<S(!new)>(p: Policy<S>, cfg: Config, s: State<S>, i: nat)
    requires Inv(p, cfg, s) && i < |s.events| && s.events[i].Arrival?
    ensures forall k: nat :: k < |s.cores| ==> s.cores[k].running != Some(s.events[i].id)
  {
    assert s.events[i] in s.events && Awaits(s, s.events[i]);
  }

  // ------------------------------------------------ the scheduler's decision

  /** Scheduler x, with the tasks' fields being attrs, chose the task that core runs and
      granted its slice, or left the slice to the default. */
  ghost predicate Grants<S>(p: Policy<S>, cfg: Config, core: Core, x: S, attrs: Attrs) {
    && p.valid(x)
    && var d := p.schedule(x, attrs);
       && d.Some? && core.running == Some(d.value.id) && p.ready(x)[d.value.id] == 1
       && core.granted == if d.value.slice > 0.0 then d.value.slice else cfg.defaultSlice
  }

  /** Core c was dispatched in the step that led to r, by a choice of scheduler x. */
  ghost predicate JustGranted<S>(p: Policy<S>, cfg: Config, r: State<S>, c: nat, x: S)
    requires c < |r.cores| && cfg.QueueOf(c) < |r.scheds|
  {
    && Grants(p, cfg, r.cores[c], x, r.attrs) && r.cores[c].since == r.now
    && r.scheds[cfg.QueueOf(c)] == p.remove(x, r.cores[c].running.value)
  }

  lemma LaunchGrants<S(!new)>(p: Policy<S>, cfg: Config, t2: State<S>, c: nat, d: Decision)
    requires Inv(p, cfg, t2) && c < cfg.cores && t2.cores[c].running.None? && d.id in t2.tasks
    requires p.schedule(t2.scheds[cfg.QueueOf(c)], t2.attrs) == Some(d)
    requires LawfulDecision(p, t2.scheds[cfg.QueueOf(c)], Some(d))
    ensures var r := Launch(p, cfg, RemoveFrom(p, cfg, t2, d.id, cfg.QueueOf(c)), c, d);
            JustGranted(p, cfg, r, c, t2.scheds[cfg.QueueOf(c)]) && Holds(t2, r, c)
  {
    hide Lawful, Clock, Accounted, Timers;
    ReadyIsPlaced(p, t2, cfg.QueueOf(c), d.id);
  }

  lemma StolenHolds<S(!new)>(p: Policy<S>, cfg: Config, t: State<S>, c: nat, v: nat, id: TaskId)
    requires Inv(p, cfg, t) && Local(p) && c < cfg.Queues() && v < cfg.Queues() && id in t.tasks && id in p.ready(t.scheds[v])
    ensures Holds(t, Stolen(p, cfg, t, c, v, id), -1)
  {
    hide Lawful, Local, Clock, Accounted, Timers, AddTo, Holds, Lone;
    ReadyIsPlaced(p, t, v, id);
    PlacesLone(p, t);
    var u := RemoveFrom(p, cfg, t, id, v);
    RemovedLone(p, cfg, t, id, v);
    AddHolds(p, cfg, u, id, c);
    SameHolds(t, u);
    HoldsTwice(t, u, AddTo(p, cfg, u, id, c), -1, -1, -1);
    SameHolds(AddTo(p, cfg, u, id, c), Stolen(p, cfg, t, c, v, id));
    HoldsTwice(t, AddTo(p, cfg, u, id, c), Stolen(p, cfg, t, c, v, id), -1, -1, -1);
  }

  lemma RemovedLone<S(!new)>(p: Policy<S>, cfg: Config, s: State<S>, id: TaskId, q: nat)
    requires Shape(p, cfg, s) && Lone(p, s) && q < cfg.Queues()
    ensures Lone(p, RemoveFrom(p, cfg, s, id, q))
  {
    assert Yields(p, p.remove(s.scheds[q], id), p.ready(s.scheds[q])[id := 0]);
  }

  lemma DispatchGrants<S(!new)>(p: Policy<S>, cfg: Config, t: State<S>, c: nat)
    requires Inv(p, cfg, t) && Local(p) && c < cfg.cores && t.cores[c].running.None?
    ensures var r := Dispatch(p, cfg, t, c);
            Holds(t, r, c) && (r.cores[c].running.Some? ==> exists x :: JustGranted(p, cfg, r, c, x))
  {
    hide Lawful, Local, Accounted, Clock, Timers, Places, Dispatch, Launch, Stolen, Holds;
    var t2, d := DispatchParts(p, cfg, t, c);
    if d.Some? {
      LaunchGrants(p, cfg, t2, c, d.value);
      if t2 != t {
        var v: nat, id :| IsStolen(p, cfg, t, c, t2, v, id);
        StolenHolds(p, cfg, t, c, v, id);
        HoldsTwice(t, t2, Dispatch(p, cfg, t, c), -1, c, c);
      }
    } else {
      SameHolds(t, t);
      Fewer(t, t, c);
    }
  }

  /** After every step of either engine a busy core either goes on as before, with its slice
      and its task's fields unchanged, or its scheduler has just chosen the task from the
      ready ones and granted the slice. */
  lemma StepGrants<S(!new)>(p: Policy<S>, cfg: Config, s: State<S>, i: nat, c: nat)
    requires Inv(p, cfg, s) && Local(p) && Earliest(s.events, i) && c < cfg.cores
    ensures var r := Step(p, cfg, s, i);
            && (forall x :: SameWeight(s.attrs, r.attrs, x))
            && (r.cores[c].running.Some? ==> HoldsOn(s, r, c) || exists x :: JustGranted(p, cfg, r, c, x))
  {
    hide Lawful, Local, Accounted, Clock, Timers, Places, Dispatch, Step, Prepared, HoldsOn, SameWeight;
    var t, b, q, next := StepParts(p, cfg, s, i);
    PreparedHolds(p, cfg, s, i, t, b, q, next);
    if b >= 0 {
      DispatchGrants(p, cfg, t, b);
      HoldsTwice(s, t, Step(p, cfg, s, i), b, b, b);
    }
  }

  // ------------------------------------------------ runs

  /** Some decision granted core c's slice, when its task's fields and all weights were what
      they are now. */
  ghost predicate Granted<S(!new)>(p: Policy<S>, cfg: Config, s: State<S>, c: nat)
    requires c < |s.cores|
  {
    s.cores[c].running.Some? ==>
      exists x, attrs :: GrantedBy(p, cfg, s, c, x, attrs)
  }

  ghost predicate GrantedBy<S(!new)>(p: Policy<S>, cfg: Config, s: State<S>, c: nat, x: S, attrs: Attrs)
    requires c < |s.cores|
  {
    && Grants(p, cfg, s.cores[c], x, attrs) && SameAttr(attrs, s.attrs, s.cores[c].running.value)
    && forall y :: SameWeight(attrs, s.attrs, y)
  }

  lemma StepKeepsGranted<S(!new)>(p: Policy<S>, cfg: Config, s: State<S>, i: nat, c: nat)
    requires Inv(p, cfg, s) && Local(p) && Earliest(s.events, i) && c < cfg.cores && Granted(p, cfg, s, c)
    ensures Granted(p, cfg, Step(p, cfg, s, i), c)
  {
    hide Lawful, Local, Accounted, Clock, Timers, Places, Step, Grants;
    var r := Step(p, cfg, s, i);
    StepGrants(p, cfg, s, i, c);
    if r.cores[c].running.Some? {
      if x :| JustGranted(p, cfg, r, c, x) {
        assert GrantedBy(p, cfg, r, c, x, r.attrs);
      } else {
        var x, attrs :| GrantedBy(p, cfg, s, c, x, attrs);
        forall y
          ensures SameWeight(attrs, r.attrs, y)
        {
          assert SameWeight(attrs, s.attrs, y) && SameWeight(s.attrs, r.attrs, y);
        }
        assert GrantedBy(p, cfg, r, c, x, attrs);
      }
    }
  }

  lemma {:induction false} RunKeepsGranted<S(!new)>(p: Policy<S>, cfg: Config, s: State<S>, choices: seq<nat>, stop: real, c: nat)
    requires Inv(p, cfg, s) && Local(p) && Run(p, cfg, s, choices, stop) && c < cfg.cores && Granted(p, cfg, s, c)
    ensures Granted(p, cfg, After(p, cfg, s, choices, stop), c)
    decreases |choices|
  {
    hide Lawful, Local, Accounted, Clock, Timers, Places, Step, Granted;
    if choices != [] {
      StepKeepsGranted(p, cfg, s, choices[0], c);
      StepKeeps(p, cfg, s, choices[0]);
      RunKeepsGranted(p, cfg, Step(p, cfg, s, choices[0]), choices[1..], stop, c);
    }
  }

  /** In every reachable state of either engine the slice of a busy core was granted, together
      with the choice of its task, by a scheduler in which the task was ready, and since then
      neither the task's fields nor anybody's weight has changed. */
  lemma SlicesAreGranted<S(!new)>(p: Policy<S>, cfg: Config, sched: S, jobs: seq<Job>, choices: seq<nat>, stop: real,
                                  s: State<S>, c: nat) returns (x: S, attrs: Attrs)
    requires Reached(p, cfg, sched, jobs, choices, stop, s) && Local(p) && c < cfg.cores
    requires c < |s.cores| && s.cores[c].running.Some?
    ensures GrantedBy(p, cfg, s, c, x, attrs)
  {
    hide Lawful, Local, Accounted, Clock, Timers, Places, Run, After, Initial, GrantedBy;
    InitialInv(p, cfg, sched, jobs);
    RunKeepsGranted(p, cfg, Initial(cfg, sched, jobs), choices, stop, c);
    x, attrs :| GrantedBy(p, cfg, s, c, x, attrs);
  }
}

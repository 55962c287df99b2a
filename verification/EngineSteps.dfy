/** The parts of a step: what happens to the tasks before the dispatch, if there is one, and
    what the dispatch does. */
module EngineSteps {
  import opened Common
  import opened Tasks
  import opened Policies
  import opened Engine
  import opened EngineInvariant

  /** Core k serves queue q. */
  predicate Serves(cfg: Config, k: nat, q: nat) {
    k < cfg.cores && cfg.QueueOf(k) == q
  }

  /** An arriving task, just queued in s1, takes core c of its queue: that is idle, or all are
      busy and core c runs a task that gives way.  It takes none (c is -1) only if all are busy
      and none gives way. */
  ghost predicate Takes<S(!new)>(p: Policy<S>, cfg: Config, s1: State<S>, id: TaskId, c: int, q: nat)
    requires Shape(p, cfg, s1) && c < cfg.cores && q < cfg.Queues()
  {
    && (c >= 0 ==> Serves(cfg, c, q))
    && ((c >= 0 && s1.cores[c].running.None?)
        || (AllBusy(p, cfg, s1, q)
            && if c >= 0 then GivesWay(p, s1, id, c, q)
               else forall k: nat :: Serves(cfg, k, q) ==> !GivesWay(p, s1, id, k, q)))
  }

  ghost predicate AllBusy<S(!new)>(p: Policy<S>, cfg: Config, s: State<S>, q: nat)
    requires Shape(p, cfg, s)
  {
    forall k: nat :: Serves(cfg, k, q) ==> s.cores[k].running.Some?
  }

  /** The task of core k gives way to task id. */
  predicate GivesWay<S>(p: Policy<S>, s: State<S>, id: TaskId, k: nat, q: nat)
    requires k < |s.cores| && q < |s.scheds|
  {
    s.cores[k].running.Some? && p.preempts(s.scheds[q], s.attrs, id, s.cores[k].running.value)
  }

  /** t is the state before core c dispatches, or the state after the step if c is -1.  An
      arriving task has been put in queue q, the balancer standing at next, and has displaced
      the task of core c if that was busy; the timer of core c has released its task. */
  ghost predicate Prepared<S(!new)>(p: Policy<S>, cfg: Config, s: State<S>, i: nat, t: State<S>, c: int, q: nat, next: nat)
    requires Shape(p, cfg, s) && i < |s.events|
  {
    var e, u := s.events[i], Pop(p, cfg, s, i);
    && e.id in s.tasks && q < cfg.Queues() && c < cfg.cores
    && if e.Arrival? then
         var s1 := Enqueue(p, cfg, u.(nextCore := next), e.id, q);
         && Takes(p, cfg, s1, e.id, c, q)
         && t == if c >= 0 && s1.cores[c].running.Some? then Preempt(p, cfg, s1, c) else s1
       else if e.core < cfg.cores && u.cores[e.core].running == Some(e.id) then
         && c == e.core
         && var s1 := Charge(p, cfg, u, c);
            t == if s1.tasks[e.id].IsCompleted() then Complete(p, cfg, s1, c) else Requeue(p, cfg, s1, c)
       else c == -1 && t == u
  }

  /** The step, if core c dispatches at the end of it. */
  ghost predicate Ends<S(!new)>(p: Policy<S>, cfg: Config, t: State<S>, r: State<S>, c: int, q: nat)
    requires Shape(p, cfg, t)
  {
    && c < cfg.cores && q < cfg.Queues()
    && if c >= 0 then q == cfg.QueueOf(c) && t.cores[c].running.None? && r == Dispatch(p, cfg, t, c) else r == t
  }

  lemma TimerParts<S(!new)>(p: Policy<S>, cfg: Config, s: State<S>, i: nat) returns (t: State<S>, c: int, q: nat)
    requires Inv(p, cfg, s) && Earliest(s.events, i) && s.events[i].TimeSlice?
    ensures Inv(p, cfg, t) && Prepared(p, cfg, s, i, t, c, q, 0) && Ends(p, cfg, t, Step(p, cfg, s, i), c, q)
  {
    hide Accounted, Timers, Clock, Places, Lawful, Dispatch, Charge, Requeue, Complete;
    var e, u := s.events[i], Pop(p, cfg, s, i);
    assert e in s.events;
    PopTimer(p, cfg, s, i);
    t, c, q := u, -1, 0;
    if s.cores[e.core].running == Some(e.id) {
      BoundsAtPop(p, cfg, s, i, e.core);
      c, q := e.core, cfg.QueueOf(e.core);
      var s1 := Charge(p, cfg, u, c);
      if s1.tasks[e.id].IsCompleted() {
        FinishKeeps(p, cfg, u, c);
        t := Complete(p, cfg, s1, c);
      } else {
        ReleaseKeeps(p, cfg, u, c);
        t := Requeue(p, cfg, s1, c);
      }
    }
  }

  /** The two scans of the shared engine. */
  lemma ScansTake<S(!new)>(p: Policy<S>, cfg: Config, s1: State<S>, id: TaskId)
    requires Shape(p, cfg, s1) && cfg.shared
    ensures var idle, victim := FirstIdle(s1, cfg.cores), FirstPreempted(p, s1, id, cfg.cores);
            && (idle < cfg.cores ==> Takes(p, cfg, s1, id, idle, 0))
            && (idle == cfg.cores ==> Takes(p, cfg, s1, id, if victim < cfg.cores then victim else -1, 0))
  {
    hide Lawful;
    var idle, victim := FirstIdle(s1, cfg.cores), FirstPreempted(p, s1, id, cfg.cores);
    forall k: nat | idle == victim == cfg.cores && k < cfg.cores
      ensures s1.cores[k].running.Some? && !GivesWay(p, s1, id, k, 0)
    {
      assert !Preempts(p, s1, id, k);
    }
  }

  lemma SharedParts<S(!new)>(p: Policy<S>, cfg: Config, s: State<S>, i: nat) returns (t: State<S>, c: int)
    requires Inv(p, cfg, s) && Earliest(s.events, i) && s.events[i].Arrival? && cfg.shared
    ensures Inv(p, cfg, t) && Prepared(p, cfg, s, i, t, c, 0, s.nextCore) && Ends(p, cfg, t, Step(p, cfg, s, i), c, 0)
  {
    hide Accounted, Timers, Clock, Places, Lawful, Dispatch, Preempt, Enqueue, Takes;
    var u, id := Pop(p, cfg, s, i), s.events[i].id;
    assert u.(nextCore := s.nextCore) == u;
    ArriveKeeps(p, cfg, s, i, 0);
    var s1 := Enqueue(p, cfg, u, id, 0);
    ScansTake(p, cfg, s1, id);
    EnqueueCores(p, cfg, u, id, 0);
    t, c := s1, -1;
    var idle := FirstIdle(s1, cfg.cores);
    if idle < cfg.cores {
      c := idle;
    } else {
      var victim := FirstPreempted(p, s1, id, cfg.cores);
      if victim < cfg.cores {
        ArrivalBounds(p, cfg, s, i, 0, victim);
        PreemptKeeps(p, cfg, s1, victim);
        t, c := Preempt(p, cfg, s1, victim), victim;
      }
    }
  }

  /** The balancer sends an arrival to core q: in turn, or to the first with the fewest tasks. */
  ghost predicate Sends<S(!new)>(p: Policy<S>, cfg: Config, s: State<S>, q: nat, next: nat)
    requires Shape(p, cfg, s) && !cfg.shared && q < cfg.cores
  {
    match cfg.balancer
    case RoundRobin => q == s.nextCore % cfg.cores && next == (s.nextCore + 1) % cfg.cores
    case LeastLoaded =>
      && next == s.nextCore
      && (forall k: nat :: k < cfg.cores ==> Load(p, s, q) <= Load(p, s, k))
      && (forall k: nat :: k < q ==> Load(p, s, q) < Load(p, s, k))
  }

  lemma TargetIsSent<S(!new)>(p: Policy<S>, cfg: Config, s: State<S>, i: nat)
    requires Shape(p, cfg, s) && !cfg.shared && i < |s.events|
    ensures var u := Pop(p, cfg, s, i);
            Sends(p, cfg, s, Target(p, cfg, u), if cfg.balancer.RoundRobin? then (u.nextCore + 1) % cfg.cores else u.nextCore)
  {
    hide Lawful;
    var u := Pop(p, cfg, s, i);
    assert forall k: nat :: k < cfg.cores ==> Load(p, u, k) == Load(p, s, k);
  }

  lemma PerCoreParts<S(!new)>(p: Policy<S>, cfg: Config, s: State<S>, i: nat) returns (t: State<S>, c: int, q: nat, next: nat)
    requires Inv(p, cfg, s) && Earliest(s.events, i) && s.events[i].Arrival? && !cfg.shared
    ensures Inv(p, cfg, t) && Prepared(p, cfg, s, i, t, c, q, next) && Ends(p, cfg, t, Step(p, cfg, s, i), c, q)
    ensures Sends(p, cfg, s, q, next)
  {
    hide Accounted, Timers, Clock, Places, Lawful, Dispatch, Preempt, Enqueue, Target, Sends;
    TargetIsSent(p, cfg, s, i);
    var u, id := Pop(p, cfg, s, i), s.events[i].id;
    q := Target(p, cfg, u);
    next := if cfg.balancer.RoundRobin? then (u.nextCore + 1) % cfg.cores else u.nextCore;
    AssignedKeeps(p, cfg, s, i, q, next);
    var s1 := Enqueue(p, cfg, u.(nextCore := next), id, q);
    t, c := s1, -1;
    if s1.cores[q].running.None? {
      c := q;
    } else if p.preempts(s1.scheds[q], s1.attrs, id, s1.cores[q].running.value) {
      PreemptKeeps(p, cfg, s1, q);
      t, c := Preempt(p, cfg, s1, q), q;
    }
  }

  /** Every step is a preparation and possibly a dispatch. */
  lemma StepParts<S(!new)>(p: Policy<S>, cfg: Config, s: State<S>, i: nat) returns (t: State<S>, c: int, q: nat, next: nat)
    requires Inv(p, cfg, s) && Earliest(s.events, i)
    ensures Inv(p, cfg, t) && Prepared(p, cfg, s, i, t, c, q, next) && Ends(p, cfg, t, Step(p, cfg, s, i), c, q)
    ensures s.events[i].Arrival? && !cfg.shared ==> Sends(p, cfg, s, q, next)
    ensures s.events[i].Arrival? && cfg.shared ==> next == s.nextCore
  {
    hide InvBut, Prepared, Ends, Step, Sends;
    next := s.nextCore;
    if s.events[i].TimeSlice? {
      t, c, q := TimerParts(p, cfg, s, i);
      next := 0;
    } else if cfg.shared {
      q := 0;
      t, c := SharedParts(p, cfg, s, i);
    } else {
      t, c, q, next := PerCoreParts(p, cfg, s, i);
    }
  }

  ghost predicate IsStolen<S(!new)>(p: Policy<S>, cfg: Config, t: State<S>, c: nat, t2: State<S>, v: nat, id: TaskId)
    requires Shape(p, cfg, t) && c < cfg.cores && !cfg.shared
  {
    v < cfg.cores && v != c && id in p.ready(t.scheds[v]) && id in t.tasks && t2 == Stolen(p, cfg, t, c, v, id)
  }

  /** What core c runs after its dispatch, if it runs anything: the choice d of its scheduler,
      in a state that is the one before the dispatch but for a steal. */
  ghost predicate Picks<S(!new)>(p: Policy<S>, cfg: Config, t: State<S>, r: State<S>, c: nat, t2: State<S>, d: Option<Decision>)
    requires Shape(p, cfg, t) && c < cfg.cores
  {
    if d.None? then r == t && t2 == t
    else
      && Inv(p, cfg, t2) && t2.cores[c].running.None?
      && p.schedule(t2.scheds[cfg.QueueOf(c)], t2.attrs) == d
      && LawfulDecision(p, t2.scheds[cfg.QueueOf(c)], d) && d.value.id in t2.tasks
      && (t2 == t
          || (!cfg.shared && exists v: nat, id :: IsStolen(p, cfg, t, c, t2, v, id)))
      && r == Launch(p, cfg, RemoveFrom(p, cfg, t2, d.value.id, cfg.QueueOf(c)), c, d.value)
  }

  lemma DispatchParts<S(!new)>(p: Policy<S>, cfg: Config, t: State<S>, c: nat) returns (t2: State<S>, d: Option<Decision>)
    requires Inv(p, cfg, t) && c < cfg.cores && t.cores[c].running.None?
    ensures Picks(p, cfg, t, Dispatch(p, cfg, t, c), c, t2, d)
  {
    hide Accounted, Timers, Clock, Places, Lawful, Launch;
    IdleIsSame(p, cfg, t, c);
    var q := cfg.QueueOf(c);
    t2, d := t, None;
    if ReadyCount(p, t, q) > 0 {
      NextIsKnown(p, cfg, t, q);
      d := p.schedule(t.scheds[q], t.attrs);
    } else if cfg.stealing && !cfg.shared {
      var v := Busiest(p, t, c, cfg.cores);
      if v.Some? {
        var s2, d2 := StealIsLaunch(p, cfg, t, c, v.value);
        assert IsStolen(p, cfg, t, c, s2, v.value, p.schedule(t.scheds[v.value], t.attrs).value.id);
        t2, d := s2, Some(d2);
      }
    }
  }
}

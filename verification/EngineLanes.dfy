/** What one core of the per-core engine does is a trace of its lane, stealing included,
    so what is proved of lane traces holds along engine runs. */
module EngineLanes {
  import opened Common
  import opened Tasks
  import opened Policies
  import opened Lanes
  import opened Engine
  import opened EngineInvariant
  import opened EngineRuns
  import opened EngineHistory

  function View<S>(s: State<S>, c: nat): Lane<S>
    requires c < |s.scheds| && c < |s.cores|
  {
    Lane(s.scheds[c], s.attrs, s.cores[c].running, s.cores[c].granted)
  }

  /** Task x is ready or running on core c. */
  predicate InLane<S>(p: Policy<S>, s: State<S>, c: nat, x: TaskId)
    requires c < |s.scheds| && c < |s.cores|
  {
    x in p.ready(s.scheds[c]) || s.cores[c].running == Some(x)
  }

  /** Nothing happened on core c. */
  ghost predicate Elsewhere<S>(p: Policy<S>, s: State<S>, r: State<S>, c: nat) {
    && c < |s.scheds| && c < |s.cores| && |r.scheds| == |s.scheds| && |r.cores| == |s.cores|
    && r.scheds[c] == s.scheds[c] && r.cores[c] == s.cores[c]
    && (forall x :: SameWeight(s.attrs, r.attrs, x) && (InLane(p, s, c, x) ==> SameAttr(s.attrs, r.attrs, x)))
  }

  /** No task ready on core k is ready or running on core c. */
  ghost predicate Foreign<S>(p: Policy<S>, s: State<S>, k: nat, c: nat) {
    k < |s.scheds| && c < |s.scheds| && c < |s.cores| && forall x :: x in p.ready(s.scheds[k]) ==> !InLane(p, s, c, x)
  }

  lemma SameElsewhere<S>(p: Policy<S>, s: State<S>, c: nat)
    requires c < |s.scheds| && c < |s.cores|
    ensures Elsewhere(p, s, s, c)
  {
  }

  lemma ElsewhereComposes<S>(p: Policy<S>, s: State<S>, u: State<S>, r: State<S>, c: nat)
    requires Elsewhere(p, s, u, c) && Elsewhere(p, u, r, c)
    ensures Elsewhere(p, s, r, c)
  {
    forall x
      ensures SameWeight(s.attrs, r.attrs, x) && (InLane(p, s, c, x) ==> SameAttr(s.attrs, r.attrs, x))
    {
      assert SameWeight(s.attrs, u.attrs, x) && SameWeight(u.attrs, r.attrs, x);
    }
  }

  lemma QueuesAreForeign<S(!new)>(p: Policy<S>, s: State<S>, k: nat, c: nat)
    requires Places(p, s) && k < |s.scheds| && c < |s.scheds| && c < |s.cores| && k != c
    ensures Foreign(p, s, k, c)
    ensures k < |s.cores| && s.cores[k].running.Some? ==> !InLane(p, s, c, s.cores[k].running.value)
  {
    forall x | x in p.ready(s.scheds[k])
      ensures !InLane(p, s, c, x)
    {
      ReadyIsPlaced(p, s, k, x);
      assert p.ready(s.scheds[c])[x] == 0;
    }
    if k < |s.cores| && s.cores[k].running.Some? {
      RunningIsPlaced(p, s, k);
      assert p.ready(s.scheds[c])[s.cores[k].running.value] == 0;
    }
  }

  // ------------------------------------------------ operations of other cores

  lemma AddElsewhere<S(!new)>(p: Policy<S>, cfg: Config, s: State<S>, id: TaskId, k: nat, c: nat)
    requires Shape(p, cfg, s) && Local(p) && !cfg.shared && id in s.tasks && k < cfg.cores && c < cfg.cores && k != c
    requires Foreign(p, s, k, c) && !InLane(p, s, c, id)
    ensures Elsewhere(p, s, AddTo(p, cfg, s, id, k), c) && Foreign(p, AddTo(p, cfg, s, id, k), k, c)
  {
    assert Touches(p, s.scheds[k], id, s.attrs, p.add(s.scheds[k], s.attrs, id, s.tasks[id].start < 0.0).1);
  }

  lemma EnqueueElsewhere<S(!new)>(p: Policy<S>, cfg: Config, s: State<S>, id: TaskId, k: nat, c: nat)
    requires Shape(p, cfg, s) && Local(p) && !cfg.shared && id in s.tasks && k < cfg.cores && c < cfg.cores && k != c
    requires Foreign(p, s, k, c) && !InLane(p, s, c, id)
    ensures Elsewhere(p, s, Enqueue(p, cfg, s, id, k), c) && Foreign(p, Enqueue(p, cfg, s, id, k), k, c)
  {
    hide Lawful, Local, AddTo;
    var u := s.(tasks := s.tasks[id := s.tasks[id].MarkReady(s.now)]);
    assert Elsewhere(p, s, u, c);
    AddElsewhere(p, cfg, u, id, k, c);
    ElsewhereComposes(p, s, u, AddTo(p, cfg, u, id, k), c);
  }

  lemma ChargeElsewhere<S(!new)>(p: Policy<S>, cfg: Config, s: State<S>, k: nat, c: nat)
    requires Busy(p, cfg, s, k) && Local(p) && !cfg.shared && c < cfg.cores && k != c
    requires Foreign(p, s, k, c) && !InLane(p, s, c, s.cores[k].running.value)
    ensures Elsewhere(p, s, Charge(p, cfg, s, k), c) && Foreign(p, Charge(p, cfg, s, k), k, c)
  {
    var id, elapsed := s.cores[k].running.value, s.now - s.cores[k].since;
    assert Touches(p, s.scheds[k], id, s.attrs, p.charge(s.scheds[k], s.attrs, id, elapsed).1);
  }

  lemma RequeueElsewhere<S(!new)>(p: Policy<S>, cfg: Config, s: State<S>, k: nat, c: nat)
    requires Busy(p, cfg, s, k) && Local(p) && !cfg.shared && c < cfg.cores && k != c
    requires Foreign(p, s, k, c) && !InLane(p, s, c, s.cores[k].running.value)
    ensures Elsewhere(p, s, Requeue(p, cfg, s, k), c) && Foreign(p, Requeue(p, cfg, s, k), k, c)
  {
    hide Lawful, Local, Enqueue;
    var id := s.cores[k].running.value;
    var t := s.tasks[id];
    var u := Idle(p, cfg, s, k).(tasks := s.tasks[id := t.(preemptions := t.preemptions + 1)],
                                 preemptions := s.preemptions + 1);
    assert Elsewhere(p, s, u, c) && Foreign(p, u, k, c);
    EnqueueElsewhere(p, cfg, u, id, k, c);
    ElsewhereComposes(p, s, u, Enqueue(p, cfg, u, id, k), c);
  }

  lemma LaunchElsewhere<S(!new)>(p: Policy<S>, cfg: Config, s: State<S>, q: nat, k: nat, d: Decision, c: nat)
    requires Shape(p, cfg, s) && !cfg.shared && k < cfg.cores && q < cfg.cores && c < cfg.cores && k != c && q != c
    requires d.id in s.tasks
    ensures Elsewhere(p, s, Launch(p, cfg, RemoveFrom(p, cfg, s, d.id, q), k, d), c)
  {
  }

  /** Core k steals, but not from c. */
  lemma StealElsewhere<S(!new)>(p: Policy<S>, cfg: Config, s: State<S>, k: nat, c: nat)
    requires Inv(p, cfg, s) && Local(p) && !cfg.shared && k < cfg.cores && c < cfg.cores && k != c
    requires s.cores[k].running.None? && Busiest(p, s, k, cfg.cores) != Some(c)
    ensures Elsewhere(p, s, Steal(p, cfg, s, k), c)
  {
    hide Lawful, Local, Accounted, Timers, Clock, Places, Launch, Elsewhere;
    IdleIsSame(p, cfg, s, k);
    var v := Busiest(p, s, k, cfg.cores);
    if v.Some? {
      var s2, d := StealIsLaunch(p, cfg, s, k, v.value);
      StolenElsewhere(p, cfg, s, k, v.value, c);
      LaunchElsewhere(p, cfg, s2, k, k, d, c);
      ElsewhereComposes(p, s, s2, Steal(p, cfg, s, k), c);
    } else {
      SameElsewhere(p, s, c);
    }
  }

  lemma StolenElsewhere<S(!new)>(p: Policy<S>, cfg: Config, s: State<S>, k: nat, v: nat, c: nat)
    requires Shape(p, cfg, s) && Places(p, s) && Local(p) && !cfg.shared
    requires k < cfg.cores && v < cfg.cores && c < cfg.cores && k != c && v != c && v != k
    requires ReadyCount(p, s, v) > 0
    ensures p.schedule(s.scheds[v], s.attrs).Some? && p.schedule(s.scheds[v], s.attrs).value.id in s.tasks
    ensures Elsewhere(p, s, Stolen(p, cfg, s, k, v, p.schedule(s.scheds[v], s.attrs).value.id), c)
  {
    hide Lawful, Local, Places, AddTo;
    NextIsKnown(p, cfg, s, v);
    var id := p.schedule(s.scheds[v], s.attrs).value.id;
    QueuesAreForeign(p, s, v, c);
    QueuesAreForeign(p, s, k, c);
    var u := RemoveFrom(p, cfg, s, id, v);
    assert Elsewhere(p, s, u, c);
    assert Foreign(p, u, k, c);
    AddElsewhere(p, cfg, u, id, k, c);
    ElsewhereComposes(p, s, u, AddTo(p, cfg, u, id, k), c);
  }

  /** Core k steals from core c. */
  lemma StealFrom<S(!new)>(p: Policy<S>, cfg: Config, s: State<S>, k: nat, c: nat) returns (id: TaskId)
    requires Inv(p, cfg, s) && Local(p) && !cfg.shared && k < cfg.cores && c < cfg.cores && k != c
    requires s.cores[k].running.None? && Busiest(p, s, k, cfg.cores) == Some(c)
    ensures Loses(p, s, Steal(p, cfg, s, k), c, id)
  {
    hide Lawful, Local, Accounted, Timers, Clock, Places, Launch;
    var s2, d := StealIsLaunch(p, cfg, s, k, c);
    id := p.schedule(s.scheds[c], s.attrs).value.id;
    var u := RemoveFrom(p, cfg, s, id, c);
    QueuesAreForeign(p, s, k, c);
    RemoveShrinks(p, cfg, s, id, c);
    assert id in p.ready(s.scheds[c]);
    assert s.cores[c].running != Some(id) by { ReadyIsPlaced(p, s, c, id); NotRunning(p, s, c, id); }
    AddElsewhere(p, cfg, u, id, k, c);
    LaunchElsewhere(p, cfg, s2, k, k, d, c);
    ElsewhereComposes(p, u, s2, Steal(p, cfg, s, k), c);
  }

  lemma NotRunning<S(!new)>(p: Policy<S>, s: State<S>, c: nat, id: TaskId)
    requires Places(p, s) && c < |s.cores| && id in s.place && s.place[id].Queued?
    ensures s.cores[c].running != Some(id)
  {
  }

  lemma RemoveShrinks<S(!new)>(p: Policy<S>, cfg: Config, s: State<S>, id: TaskId, c: nat)
    requires Shape(p, cfg, s) && c < cfg.Queues()
    ensures p.ready(RemoveFrom(p, cfg, s, id, c).scheds[c]) == p.ready(s.scheds[c])[id := 0]
  {
  }

  /** Core c's queue loses a task to somebody else's core. */
  ghost predicate Loses<S>(p: Policy<S>, s: State<S>, r: State<S>, c: nat, id: TaskId) {
    && c < |s.scheds| && c < |s.cores| && |r.scheds| == |s.scheds| && |r.cores| == |s.cores|
    && id in p.ready(s.scheds[c]) && s.cores[c].running != Some(id)
    && r.scheds[c] == p.remove(s.scheds[c], id) && r.cores[c] == s.cores[c]
    && (forall x :: SameWeight(s.attrs, r.attrs, x) && (InLane(p, s, c, x) && x != id ==> SameAttr(s.attrs, r.attrs, x)))
  }

  // ------------------------------------------------ operations of the core itself

  lemma ViewEnqueue<S(!new)>(p: Policy<S>, cfg: Config, s: State<S>, id: TaskId, c: nat)
    requires Shape(p, cfg, s) && !cfg.shared && id in s.tasks && c < cfg.cores
    ensures View(Enqueue(p, cfg, s, id, c), c) == Admit(p, View(s, c), id, s.tasks[id].start < 0.0)
  {
  }

  lemma ViewComplete<S(!new)>(p: Policy<S>, cfg: Config, s: State<S>, c: nat)
    requires Busy(p, cfg, s, c) && !cfg.shared
    ensures var elapsed := s.now - s.cores[c].since;
            var r := Complete(p, cfg, Charge(p, cfg, s, c), c);
            && View(r, c) == Release(p, View(s, c), elapsed)
            && r.cores[c].busy == s.cores[c].busy + elapsed
  {
  }

  lemma ViewRequeue<S(!new)>(p: Policy<S>, cfg: Config, s: State<S>, c: nat)
    requires Busy(p, cfg, s, c) && !cfg.shared && s.tasks[s.cores[c].running.value].start >= 0.0
    ensures var elapsed := s.now - s.cores[c].since;
            var r := Requeue(p, cfg, Charge(p, cfg, s, c), c);
            && View(r, c) == Admit(p, Release(p, View(s, c), elapsed), s.cores[c].running.value, false)
            && r.cores[c].busy == s.cores[c].busy + elapsed
  {
    hide Lawful;
  }

  /** Without stealing a dispatch is the lane's own. */
  lemma ViewDispatch<S(!new)>(p: Policy<S>, cfg: Config, s: State<S>, c: nat)
    requires Shape(p, cfg, s) && !cfg.shared && c < cfg.cores && s.cores[c].running.None?
    requires ReadyCount(p, s, c) > 0 || !cfg.stealing || Busiest(p, s, c, cfg.cores).None?
    ensures View(Dispatch(p, cfg, s, c), c) == Begin(p, cfg.defaultSlice, View(s, c))
    ensures Dispatch(p, cfg, s, c).cores[c].busy == s.cores[c].busy
  {
    IdleIsSame(p, cfg, s, c);
    if ReadyCount(p, s, c) > 0 {
      NextIsKnown(p, cfg, s, c);
    }
  }

  /** A successful steal admits the stolen task and starts the lane's choice. */
  lemma ViewSteal<S(!new)>(p: Policy<S>, cfg: Config, s: State<S>, c: nat) returns (id: TaskId, unstarted: bool)
    requires Inv(p, cfg, s) && !cfg.shared && cfg.stealing && c < cfg.cores && s.cores[c].running.None?
    requires ReadyCount(p, s, c) == 0 && Busiest(p, s, c, cfg.cores).Some?
    ensures View(Dispatch(p, cfg, s, c), c)
         == Begin(p, cfg.defaultSlice, Admit(p, View(s, c), id, unstarted))
    ensures Dispatch(p, cfg, s, c).cores[c].busy == s.cores[c].busy
  {
    hide Lawful, Accounted, Timers, Clock, Places, Steal, Busiest, Idle;
    var v := Busiest(p, s, c, cfg.cores).value;
    var s2, d := StealIsLaunch(p, cfg, s, c, v);
    id := p.schedule(s.scheds[v], s.attrs).value.id;
    unstarted := s.tasks[id].start < 0.0;
    assert View(s2, c) == Admit(p, View(s, c), id, unstarted);
  }

  // ------------------------------------------------ one step is one move

  /** What step i of the engine is for core c. */
  ghost predicate IsMove<S(!new)>(p: Policy<S>, cfg: Config, s: State<S>, r: State<S>, c: nat, m: Move) {
    && c < |s.cores| && c < |s.scheds| && c < |r.cores| && c < |r.scheds|
    && Can(p, View(s, c), m)
    && View(r, c) == Next(p, cfg.defaultSlice, View(s, c), m)
    && r.cores[c].busy == s.cores[c].busy + Cpu(p, View(s, c), m)
  }

  lemma ElsewhereIsMove<S(!new)>(p: Policy<S>, cfg: Config, s: State<S>, r: State<S>, c: nat) returns (m: Move)
    requires Elsewhere(p, s, r, c)
    ensures IsMove(p, cfg, s, r, c, m) && m == Outside(None, r.attrs)
  {
    m := Outside(None, r.attrs);
  }

  lemma LossIsMove<S(!new)>(p: Policy<S>, cfg: Config, s: State<S>, r: State<S>, c: nat, id: TaskId) returns (m: Move)
    requires Loses(p, s, r, c, id)
    ensures IsMove(p, cfg, s, r, c, m)
  {
    m := Outside(Some(id), r.attrs);
  }

  /** A task arrives in core c's queue. */
  lemma ArrivalIsMove<S(!new)>(p: Policy<S>, cfg: Config, s: State<S>, id: TaskId, c: nat) returns (m: Move)
    requires Shape(p, cfg, s) && !cfg.shared && c < cfg.cores && id in s.tasks && s.tasks[id].start < 0.0
    requires !InLane(p, s, c, id)
    requires s.cores[c].running.Some? ==>
               && 0.0 <= s.now - s.cores[c].since <= s.cores[c].granted
               && s.tasks[s.cores[c].running.value].start >= 0.0
    ensures m.Arrive? && m.id == id
    ensures var s1 := Enqueue(p, cfg, s, id, c);
            IsMove(p, cfg, s,
              if s1.cores[c].running.None? then Dispatch(p, cfg, s1, c)
              else if p.preempts(s1.scheds[c], s1.attrs, id, s1.cores[c].running.value) then
                Dispatch(p, cfg, Preempt(p, cfg, s1, c), c)
              else s1, c, m)
  {
    hide Lawful, Dispatch, Enqueue, Preempt, Begin;
    m := Arrive(id, s.now - s.cores[c].since);
    var s1 := Enqueue(p, cfg, s, id, c);
    ViewEnqueue(p, cfg, s, id, c);
    EnqueueCores(p, cfg, s, id, c);
    EnqueueGrows(p, cfg, s, id, c);
    if s1.cores[c].running.None? {
      ViewDispatch(p, cfg, s1, c);
    } else if p.preempts(s1.scheds[c], s1.attrs, id, s1.cores[c].running.value) {
      ViewPreempt(p, cfg, s1, c);
      ViewDispatch(p, cfg, Preempt(p, cfg, s1, c), c);
    }
  }

  lemma ViewPreempt<S(!new)>(p: Policy<S>, cfg: Config, s: State<S>, c: nat)
    requires Busy(p, cfg, s, c) && !cfg.shared && s.tasks[s.cores[c].running.value].start >= 0.0
    ensures var elapsed := s.now - s.cores[c].since;
            var r := Preempt(p, cfg, s, c);
            && View(r, c) == Admit(p, Release(p, View(s, c), elapsed), s.cores[c].running.value, false)
            && r.cores[c].busy == s.cores[c].busy + elapsed
            && r.cores[c].running.None? && ReadyCount(p, r, c) > 0
  {
    hide Lawful, Requeue, Charge;
    ViewRequeue(p, cfg, s, c);
    RequeueIdles(p, cfg, s, c);
  }

  lemma EnqueueGrows<S(!new)>(p: Policy<S>, cfg: Config, s: State<S>, id: TaskId, q: nat)
    requires Shape(p, cfg, s) && id in s.tasks && q < cfg.Queues()
    ensures ReadyCount(p, Enqueue(p, cfg, s, id, q), q) == ReadyCount(p, s, q) + 1
    ensures forall x :: x in s.tasks ==> Enqueue(p, cfg, s, id, q).tasks[x].start == s.tasks[x].start
  {
  }

  lemma RequeueIdles<S(!new)>(p: Policy<S>, cfg: Config, s: State<S>, c: nat)
    requires Busy(p, cfg, s, c) && !cfg.shared
    ensures Requeue(p, cfg, Charge(p, cfg, s, c), c).cores[c].running.None?
    ensures ReadyCount(p, Requeue(p, cfg, Charge(p, cfg, s, c), c), c) > 0
  {
  }

  lemma ArrivalKnown<S(!new)>(p: Policy<S>, cfg: Config, s: State<S>, i: nat)
    requires Inv(p, cfg, s) && i < |s.events| && s.events[i].Arrival?
    ensures s.events[i].id in s.tasks && s.place[s.events[i].id] == Pending
    ensures s.tasks[s.events[i].id].start < 0.0
  {
    assert s.events[i] in s.events && Awaits(s, s.events[i]);
    assert TaskOk(s, s.events[i].id);
  }

  lemma ArrivalNotInLane<S(!new)>(p: Policy<S>, cfg: Config, s: State<S>, i: nat, c: nat)
    requires Inv(p, cfg, s) && Earliest(s.events, i) && s.events[i].Arrival? && !cfg.shared && c < cfg.cores
    ensures !InLane(p, s, c, s.events[i].id)
    ensures s.cores[c].running.Some? ==>
              && 0.0 <= s.events[i].time - s.cores[c].since <= s.cores[c].granted
              && s.tasks[s.cores[c].running.value].start >= 0.0
  {
    ArrivalKnown(p, cfg, s, i);
    assert p.ready(s.scheds[c])[s.events[i].id] == 0;
    if s.cores[c].running.Some? {
      ChargeBound(p, cfg, s, i, c);
      assert TaskOk(s, s.cores[c].running.value);
    }
  }

  lemma ReadyDispatchElsewhere<S(!new)>(p: Policy<S>, cfg: Config, s: State<S>, k: nat, c: nat)
    requires Shape(p, cfg, s) && !cfg.shared && k < cfg.cores && c < cfg.cores && k != c && ReadyCount(p, s, k) > 0
    ensures Elsewhere(p, s, Dispatch(p, cfg, s, k), c)
  {
    hide Lawful, Launch, Steal;
    NextIsKnown(p, cfg, s, k);
    LaunchElsewhere(p, cfg, s, k, k, p.schedule(s.scheds[k], s.attrs).value, c);
  }

  /** The running task of core k is charged and requeued. */
  lemma ReleaseElsewhere<S(!new)>(p: Policy<S>, cfg: Config, s: State<S>, k: nat, c: nat)
    requires Busy(p, cfg, s, k) && Local(p) && !cfg.shared && c < cfg.cores && k != c
    requires Foreign(p, s, k, c) && !InLane(p, s, c, s.cores[k].running.value)
    ensures Elsewhere(p, s, Requeue(p, cfg, Charge(p, cfg, s, k), k), c)
  {
    hide Lawful, Local, Charge, Requeue, Foreign;
    ChargeElsewhere(p, cfg, s, k, c);
    var u := Charge(p, cfg, s, k);
    assert u.scheds[c] == s.scheds[c] && u.cores[c] == s.cores[c];
    RequeueElsewhere(p, cfg, u, k, c);
    ElsewhereComposes(p, s, u, Requeue(p, cfg, u, k), c);
  }

  lemma CompleteElsewhere<S(!new)>(p: Policy<S>, cfg: Config, s: State<S>, k: nat, c: nat)
    requires Busy(p, cfg, s, k) && Local(p) && !cfg.shared && c < cfg.cores && k != c
    requires Foreign(p, s, k, c) && !InLane(p, s, c, s.cores[k].running.value)
    ensures Elsewhere(p, s, Complete(p, cfg, Charge(p, cfg, s, k), k), c)
  {
    hide Lawful, Local, Charge, Foreign;
    ChargeElsewhere(p, cfg, s, k, c);
    var u := Charge(p, cfg, s, k);
    assert Elsewhere(p, u, Complete(p, cfg, u, k), c);
    ElsewhereComposes(p, s, u, Complete(p, cfg, u, k), c);
  }

  /** Arrival of task id on core k, not in core c's lane. */
  lemma ArrivalElsewhere<S(!new)>(p: Policy<S>, cfg: Config, s: State<S>, id: TaskId, k: nat, c: nat)
    requires Shape(p, cfg, s) && Local(p) && !cfg.shared && k < cfg.cores && c < cfg.cores && k != c
    requires id in s.tasks && !InLane(p, s, c, id) && Foreign(p, s, k, c)
    requires s.cores[k].running.Some? ==> !InLane(p, s, c, s.cores[k].running.value)
    ensures var s1 := Enqueue(p, cfg, s, id, k);
            Elsewhere(p, s,
              if s1.cores[k].running.None? then Dispatch(p, cfg, s1, k)
              else if p.preempts(s1.scheds[k], s1.attrs, id, s1.cores[k].running.value) then
                Dispatch(p, cfg, Preempt(p, cfg, s1, k), k)
              else s1, c)
  {
    hide Lawful, Local, Enqueue, Dispatch, Requeue, Charge, Foreign;
    var s1 := Enqueue(p, cfg, s, id, k);
    EnqueueElsewhere(p, cfg, s, id, k, c);
    EnqueueCores(p, cfg, s, id, k);
    EnqueueGrows(p, cfg, s, id, k);
    if s1.cores[k].running.None? {
      ReadyDispatchElsewhere(p, cfg, s1, k, c);
      ElsewhereComposes(p, s, s1, Dispatch(p, cfg, s1, k), c);
    } else if p.preempts(s1.scheds[k], s1.attrs, id, s1.cores[k].running.value) {
      ReleaseElsewhere(p, cfg, s1, k, c);
      RequeueIdles(p, cfg, s1, k);
      var s2 := Preempt(p, cfg, s1, k);
      assert Elsewhere(p, s1, s2, c);
      ReadyDispatchElsewhere(p, cfg, s2, k, c);
      ElsewhereComposes(p, s1, s2, Dispatch(p, cfg, s2, k), c);
      ElsewhereComposes(p, s, s1, Dispatch(p, cfg, s2, k), c);
    }
  }

  /** An arrival, here or on another core. */
  lemma ArrivalStep<S(!new)>(p: Policy<S>, cfg: Config, s: State<S>, i: nat, c: nat) returns (m: Move)
    requires Inv(p, cfg, s) && Local(p) && !cfg.shared && c < cfg.cores && Earliest(s.events, i)
    requires s.events[i].Arrival?
    ensures IsMove(p, cfg, s, Step(p, cfg, s, i), c, m)
    ensures cfg.cores == 1 ==> m.Arrive? && m.id == s.events[i].id
  {
    hide Lawful, Local, Accounted, Timers, Clock, Places, Enqueue, Dispatch, Preempt, IsMove, InLane, Elsewhere, Foreign;
    var e := s.events[i];
    var u := Pop(p, cfg, s, i);
    ArrivalKnown(p, cfg, s, i);
    var k := Target(p, cfg, u);
    var u' := u.(nextCore := if cfg.balancer.RoundRobin? then (u.nextCore + 1) % cfg.cores else u.nextCore);
    ArrivalNotInLane(p, cfg, s, i, c);
    SameLane(p, s, u', c);
    if k == c {
      m := ArrivalIsMove(p, cfg, u', e.id, c);
      SameLaneMoves(p, cfg, s, u', Step(p, cfg, s, i), c, m);
    } else {
      QueuesAreForeign(p, s, k, c);
      SameForeign(p, s, u', k, c);
      ArrivalElsewhere(p, cfg, u', e.id, k, c);
      ElsewhereComposes(p, s, u', Step(p, cfg, s, i), c);
      m := ElsewhereIsMove(p, cfg, s, Step(p, cfg, s, i), c);
    }
  }

  lemma SameLane<S>(p: Policy<S>, s: State<S>, u: State<S>, c: nat)
    requires u.scheds == s.scheds && u.cores == s.cores && u.attrs == s.attrs && c < |s.scheds| && c < |s.cores|
    ensures View(u, c) == View(s, c) && Elsewhere(p, s, u, c)
    ensures forall x :: InLane(p, s, c, x) <==> InLane(p, u, c, x)
  {
  }

  lemma SameForeign<S>(p: Policy<S>, s: State<S>, u: State<S>, k: nat, c: nat)
    requires u.scheds == s.scheds && u.cores == s.cores && Foreign(p, s, k, c)
    ensures Foreign(p, u, k, c)
  {
    forall x | x in p.ready(u.scheds[k])
      ensures !InLane(p, u, c, x)
    {
      assert !InLane(p, s, c, x);
    }
  }

  lemma SameLaneMoves<S(!new)>(p: Policy<S>, cfg: Config, s: State<S>, u: State<S>, r: State<S>, c: nat, m: Move)
    requires u.scheds == s.scheds && u.cores == s.cores && u.attrs == s.attrs && IsMove(p, cfg, u, r, c, m)
    ensures IsMove(p, cfg, s, r, c, m)
  {
    assert View(u, c) == View(s, c);
  }

  /** A timer of core c itself. */
  lemma OwnTimer<S(!new)>(p: Policy<S>, cfg: Config, s: State<S>, i: nat, c: nat) returns (m: Move)
    requires Inv(p, cfg, s) && !cfg.shared && c < cfg.cores && Earliest(s.events, i)
    requires s.events[i].TimeSlice? && s.events[i].core == c && s.cores[c].running == Some(s.events[i].id)
    ensures IsMove(p, cfg, s, Step(p, cfg, s, i), c, m)
    ensures m.Timer? && (cfg.cores == 1 ==> m.stolen.None?)
    ensures s.events[i].id in s.tasks && OwnCharge(s, s.events[i], c, m)
  {
    hide Lawful, Accounted, Timers, Clock, Places, Charge, Requeue, Complete, Dispatch, Busiest, Begin;
    var id := s.events[i].id;
    var u := Pop(p, cfg, s, i);
    PopTimer(p, cfg, s, i);
    BoundsAtPop(p, cfg, s, i, c);
    ChargeBound(p, cfg, s, i, c);
    HasStarted(p, cfg, s, c);
    var cpu := u.now - u.cores[c].since;
    var s1 := Charge(p, cfg, u, c);
    ChargedRemaining(p, cfg, u, c);
    if s1.tasks[id].IsCompleted() {
      m := OwnCompletion(p, cfg, u, c);
      SameLaneMoves(p, cfg, s, u, Step(p, cfg, s, i), c, m);
    } else {
      m := Timer(cpu, false, None);
      ViewRequeue(p, cfg, u, c);
      RequeueIdles(p, cfg, u, c);
      ViewDispatch(p, cfg, Requeue(p, cfg, s1, c), c);
    }
  }

  /** The move of a timer charges the time since the dispatch and ends the task when at most
      0.001 is left. */
  predicate OwnCharge<S>(s: State<S>, e: Event, c: nat, m: Move)
    requires m.Timer? && c < |s.cores| && e.id in s.tasks
  {
    m.cpu == e.time - s.cores[c].since && (m.done <==> s.tasks[e.id].remaining - m.cpu <= 0.001)
  }

  lemma OwnChargeTime<S>(s: State<S>, e: Event, c: nat, m: Move)
    requires m.Timer? && c < |s.cores| && e.id in s.tasks && OwnCharge(s, e, c, m)
    ensures m.cpu == e.time - s.cores[c].since
  {
  }

  lemma ChargedRemaining<S(!new)>(p: Policy<S>, cfg: Config, s: State<S>, c: nat)
    requires Busy(p, cfg, s, c) && ChargeInBounds(s, c)
    ensures var id := s.cores[c].running.value;
            Charge(p, cfg, s, c).tasks[id].remaining == s.tasks[id].remaining - (s.now - s.cores[c].since)
  {
  }

  lemma HasStarted<S(!new)>(p: Policy<S>, cfg: Config, s: State<S>, c: nat)
    requires Inv(p, cfg, s) && c < cfg.cores && s.cores[c].running.Some?
    ensures s.tasks[s.cores[c].running.value].start >= 0.0
  {
    RunningIsPlaced(p, s, c);
    assert TaskOk(s, s.cores[c].running.value);
  }

  /** The task on core c completes; the core takes its next task or steals one. */
  lemma OwnCompletion<S(!new)>(p: Policy<S>, cfg: Config, u: State<S>, c: nat) returns (m: Move)
    requires InvBut(p, cfg, u, c) && Busy(p, cfg, u, c) && !cfg.shared && ChargeInBounds(u, c)
    requires u.now - u.cores[c].since <= u.cores[c].granted
    requires Charge(p, cfg, u, c).tasks[u.cores[c].running.value].IsCompleted()
    ensures IsMove(p, cfg, u, Dispatch(p, cfg, Complete(p, cfg, Charge(p, cfg, u, c), c), c), c, m)
    ensures m.Timer? && m.done && m.cpu == u.now - u.cores[c].since && (cfg.cores == 1 ==> m.stolen.None?)
  {
    hide Lawful, Accounted, Timers, Clock, Places, Charge, Complete, Dispatch, Busiest, Begin;
    var cpu := u.now - u.cores[c].since;
    var s2 := Complete(p, cfg, Charge(p, cfg, u, c), c);
    FinishKeeps(p, cfg, u, c);
    ViewComplete(p, cfg, u, c);
    SameReady(p, cfg, u, c);
    if cfg.stealing && ReadyCount(p, s2, c) == 0 && Busiest(p, s2, c, cfg.cores).Some? {
      var id, unstarted := ViewSteal(p, cfg, s2, c);
      m := Timer(cpu, true, Some((id, unstarted)));
    } else {
      ViewDispatch(p, cfg, s2, c);
      m := Timer(cpu, true, None);
    }
  }

  lemma SameReady<S(!new)>(p: Policy<S>, cfg: Config, s: State<S>, c: nat)
    requires Busy(p, cfg, s, c) && !cfg.shared
    ensures ReadyCount(p, Complete(p, cfg, Charge(p, cfg, s, c), c), c) == ReadyCount(p, s, c)
  {
  }

  /** A timer of another core: core k's completion may steal from core c. */
  lemma OtherCompletion<S(!new)>(p: Policy<S>, cfg: Config, s: State<S>, u: State<S>, k: nat, c: nat) returns (m: Move)
    requires InvBut(p, cfg, u, k) && Busy(p, cfg, u, k) && !cfg.shared && ChargeInBounds(u, k) && Local(p)
    requires Charge(p, cfg, u, k).tasks[u.cores[k].running.value].IsCompleted() && k != c && c < cfg.cores
    requires Foreign(p, u, k, c) && !InLane(p, u, c, u.cores[k].running.value) && Elsewhere(p, s, u, c)
    ensures IsMove(p, cfg, s, Dispatch(p, cfg, Complete(p, cfg, Charge(p, cfg, u, k), k), k), c, m)
  {
    hide Lawful, Local, Accounted, Timers, Clock, Places, Charge, Complete, Dispatch, Busiest, Foreign, InLane, IsMove, Elsewhere;
    var s2 := Complete(p, cfg, Charge(p, cfg, u, k), k);
    var r := Dispatch(p, cfg, s2, k);
    FinishKeeps(p, cfg, u, k);
    CompleteElsewhere(p, cfg, u, k, c);
    ElsewhereComposes(p, s, u, s2, c);
    if ReadyCount(p, s2, k) > 0 || Busiest(p, s2, k, cfg.cores) != Some(c) || !cfg.stealing {
      QuietDispatch(p, cfg, s2, k, c);
      ElsewhereComposes(p, s, s2, r, c);
      m := ElsewhereIsMove(p, cfg, s, r, c);
    } else {
      var id := StealFrom(p, cfg, s2, k, c);
      StealingDispatch(p, cfg, s2, k);
      LossComposes(p, s, s2, r, c, id);
      m := LossIsMove(p, cfg, s, r, c, id);
    }
  }

  lemma QuietDispatch<S(!new)>(p: Policy<S>, cfg: Config, s: State<S>, k: nat, c: nat)
    requires Inv(p, cfg, s) && Local(p) && !cfg.shared && k < cfg.cores && c < cfg.cores && k != c
    requires s.cores[k].running.None?
    requires ReadyCount(p, s, k) > 0 || Busiest(p, s, k, cfg.cores) != Some(c) || !cfg.stealing
    ensures Elsewhere(p, s, Dispatch(p, cfg, s, k), c)
  {
    hide Lawful, Local, Accounted, Timers, Clock, Places, Steal, Busiest;
    if ReadyCount(p, s, k) > 0 {
      ReadyDispatchElsewhere(p, cfg, s, k, c);
    } else {
      IdleIsSame(p, cfg, s, k);
      if cfg.stealing {
        StealElsewhere(p, cfg, s, k, c);
      }
    }
  }

  lemma StealingDispatch<S(!new)>(p: Policy<S>, cfg: Config, s: State<S>, k: nat)
    requires Shape(p, cfg, s) && !cfg.shared && cfg.stealing && k < cfg.cores && ReadyCount(p, s, k) == 0
    ensures Dispatch(p, cfg, s, k) == Steal(p, cfg, s, k)
  {
  }

  lemma LossComposes<S>(p: Policy<S>, s: State<S>, u: State<S>, r: State<S>, c: nat, id: TaskId)
    requires Elsewhere(p, s, u, c) && Loses(p, u, r, c, id)
    ensures Loses(p, s, r, c, id)
  {
    forall x
      ensures SameWeight(s.attrs, r.attrs, x) && (InLane(p, s, c, x) && x != id ==> SameAttr(s.attrs, r.attrs, x))
    {
      assert SameWeight(s.attrs, u.attrs, x) && SameWeight(u.attrs, r.attrs, x);
    }
  }

  lemma OtherTimer<S(!new)>(p: Policy<S>, cfg: Config, s: State<S>, i: nat, k: nat, c: nat) returns (m: Move)
    requires Inv(p, cfg, s) && Local(p) && !cfg.shared && c < cfg.cores && k < cfg.cores && k != c && Earliest(s.events, i)
    requires s.events[i].TimeSlice? && s.events[i].core == k && s.cores[k].running == Some(s.events[i].id)
    ensures IsMove(p, cfg, s, Step(p, cfg, s, i), c, m)
  {
    hide Lawful, Local, Accounted, Timers, Clock, Places, Charge, Requeue, Complete, Dispatch, Busiest, Foreign, InLane, Elsewhere, IsMove;
    var id := s.events[i].id;
    var u := Pop(p, cfg, s, i);
    PopTimer(p, cfg, s, i);
    BoundsAtPop(p, cfg, s, i, k);
    QueuesAreForeign(p, s, k, c);
    SameLane(p, s, u, c);
    SameForeign(p, s, u, k, c);
    var s1 := Charge(p, cfg, u, k);
    if s1.tasks[id].IsCompleted() {
      m := OtherCompletion(p, cfg, s, u, k, c);
    } else {
      var s2 := Requeue(p, cfg, s1, k);
      ReleaseElsewhere(p, cfg, u, k, c);
      RequeueIdles(p, cfg, u, k);
      ReadyDispatchElsewhere(p, cfg, s2, k, c);
      ElsewhereComposes(p, s, u, s2, c);
      ElsewhereComposes(p, s, s2, Dispatch(p, cfg, s2, k), c);
      m := ElsewhereIsMove(p, cfg, s, Step(p, cfg, s, i), c);
    }
  }

  /** On one core a step is an arrival, the timer of the running task, or nothing. */
  ghost predicate AloneStep<S>(s: State<S>, e: Event, m: Move) {
    && |s.cores| == 1
    && (if e.Arrival? then m.Arrive? && m.id == e.id else !m.Arrive?)
    && (m.Timer? ==>
          m.stolen.None? && e.TimeSlice? && e.id in s.tasks && s.cores[0].running == Some(e.id) && OwnCharge(s, e, 0, m))
    && (m.Outside? ==> m == Outside(None, s.attrs) && e.TimeSlice? && s.cores[0].running != Some(e.id))
  }

  /** Every step of a per-core engine is, for each core, one move of its lane. */
  lemma StepIsMove<S(!new)>(p: Policy<S>, cfg: Config, s: State<S>, i: nat, c: nat) returns (m: Move)
    requires Inv(p, cfg, s) && Local(p) && !cfg.shared && c < cfg.cores && Earliest(s.events, i)
    ensures IsMove(p, cfg, s, Step(p, cfg, s, i), c, m)
    ensures cfg.cores == 1 ==> AloneStep(s, s.events[i], m)
  {
    hide Lawful, Local, Accounted, Timers, Clock, Places, Dispatch, Charge, Requeue, Complete, IsMove, Elsewhere;
    var e := s.events[i];
    assert e in s.events;
    if e.Arrival? {
      m := ArrivalStep(p, cfg, s, i, c);
    } else if s.cores[e.core].running != Some(e.id) {
      SameLane(p, s, Pop(p, cfg, s, i), c);
      m := ElsewhereIsMove(p, cfg, s, Step(p, cfg, s, i), c);
    } else if e.core == c {
      m := OwnTimer(p, cfg, s, i, c);
    } else {
      m := OtherTimer(p, cfg, s, i, e.core, c);
    }
  }

  // ------------------------------------------------ arrivals still to come

  function Awaited<S>(s: State<S>): set<TaskId> {
    set id | id in s.place && s.place[id] == Pending
  }

  /** Timers are appended to the events. */
  predicate AddsTimers(a: seq<Event>, b: seq<Event>) {
    |a| <= |b| && b[..|a|] == a && forall i :: |a| <= i < |b| ==> b[i].TimeSlice?
  }

  lemma StealAddsTimers<S(!new)>(p: Policy<S>, cfg: Config, s: State<S>, c: nat)
    requires Shape(p, cfg, s) && c < cfg.cores && !cfg.shared
    ensures AddsTimers(s.events, Steal(p, cfg, s, c).events)
  {
    hide Lawful, Busiest;
  }

  lemma DispatchAddsTimers<S(!new)>(p: Policy<S>, cfg: Config, s: State<S>, c: nat)
    requires Shape(p, cfg, s) && c < cfg.cores && !cfg.shared
    ensures AddsTimers(s.events, Dispatch(p, cfg, s, c).events)
  {
    hide Lawful, Steal;
    if ReadyCount(p, s, c) > 0 {
      NextIsKnown(p, cfg, s, c);
    } else if cfg.stealing {
      StealAddsTimers(p, cfg, s, c);
    }
  }

  lemma ReleaseEvents<S(!new)>(p: Policy<S>, cfg: Config, s: State<S>, c: nat)
    requires Busy(p, cfg, s, c)
    ensures Requeue(p, cfg, Charge(p, cfg, s, c), c).events == s.events
    ensures Complete(p, cfg, Charge(p, cfg, s, c), c).events == s.events
  {
    hide Lawful;
  }

  lemma EnqueueEvents<S(!new)>(p: Policy<S>, cfg: Config, s: State<S>, id: TaskId, q: nat)
    requires Shape(p, cfg, s) && id in s.tasks && q < cfg.Queues()
    ensures Enqueue(p, cfg, s, id, q).events == s.events
  {
    hide Lawful;
  }

  lemma StepAddsTimers<S(!new)>(p: Policy<S>, cfg: Config, s: State<S>, i: nat)
    requires Shape(p, cfg, s) && i < |s.events| && !cfg.shared
    ensures AddsTimers(Without(s.events, i), Step(p, cfg, s, i).events)
  {
    hide Lawful, Dispatch, Requeue, Charge, Complete, Enqueue;
    var e, u := s.events[i], Pop(p, cfg, s, i);
    assert e in s.events;
    if e.Arrival? {
      var next := if cfg.balancer.RoundRobin? then (u.nextCore + 1) % cfg.cores else u.nextCore;
      var u' := u.(nextCore := next);
      var c := Target(p, cfg, u);
      var s1 := Enqueue(p, cfg, u', e.id, c);
      EnqueueEvents(p, cfg, u', e.id, c);
      if s1.cores[c].running.None? {
        DispatchAddsTimers(p, cfg, s1, c);
      } else if p.preempts(s1.scheds[c], s1.attrs, e.id, s1.cores[c].running.value) {
        ReleaseEvents(p, cfg, s1, c);
        DispatchAddsTimers(p, cfg, Preempt(p, cfg, s1, c), c);
      }
    } else if s.cores[e.core].running == Some(e.id) {
      var s1 := Charge(p, cfg, u, e.core);
      ReleaseEvents(p, cfg, u, e.core);
      DispatchAddsTimers(p, cfg,
        if s1.tasks[e.id].IsCompleted() then Complete(p, cfg, s1, e.core) else Requeue(p, cfg, s1, e.core), e.core);
    }
  }

  lemma AppendedArrivals(a: seq<Event>, b: seq<Event>, e: Event)
    requires AddsTimers(a, b) && e.Arrival?
    ensures multiset(b)[e] == multiset(a)[e]
  {
    assert b == a + b[|a|..];
    assert e !in b[|a|..];
  }

  /** A step takes one task off the pending list if it is an arrival, and none otherwise. */
  lemma StepAwaits<S(!new)>(p: Policy<S>, cfg: Config, s: State<S>, i: nat)
    requires Inv(p, cfg, s) && !cfg.shared && Earliest(s.events, i)
    ensures Awaited(Step(p, cfg, s, i))
         == if s.events[i].Arrival? then Awaited(s) - {s.events[i].id} else Awaited(s)
  {
    hide Lawful, Places, Accounted, Timers, Step;
    var e, r := s.events[i], Step(p, cfg, s, i);
    assert e in s.events && (e.Arrival? ==> Awaits(s, e));
    StepKeeps(p, cfg, s, i);
    StepAddsTimers(p, cfg, s, i);
    WithoutFacts(s.events, i);
    forall x
      ensures x in Awaited(r) <==> x in Awaited(s) && !(e.Arrival? && x == e.id)
    {
      if x in Awaited(r) {
        var a := Arrival(r.tasks[x].arrival, x);
        AppendedArrivals(Without(s.events, i), r.events, a);
        assert multiset(s.events)[a] > 0;
        assert a in s.events && Awaits(s, a);
        assert multiset(s.events)[a] == 1;
      }
      if x in Awaited(s) && !(e.Arrival? && x == e.id) {
        var a := Arrival(s.tasks[x].arrival, x);
        AppendedArrivals(Without(s.events, i), r.events, a);
        assert multiset(s.events)[a] == 1;
        assert a in multiset(r.events);
        assert a in r.events && Awaits(r, a);
      }
    }
  }

  // ------------------------------------------------ runs are traces

  /** Task w is in core c's queue in every state of the run. */
  ghost predicate WaitsOn<S(!new)>(p: Policy<S>, cfg: Config, s: State<S>, choices: seq<nat>, stop: real, c: nat, w: TaskId)
    requires Shape(p, cfg, s) && Run(p, cfg, s, choices, stop) && c < cfg.Queues()
    decreases |choices|
  {
    w in p.ready(s.scheds[c])
    && (choices == [] || WaitsOn(p, cfg, Step(p, cfg, s, choices[0]), choices[1..], stop, c, w))
  }

  lemma StepIsCalls<S(!new)>(p: Policy<S>, cfg: Config, s: State<S>, i: nat, c: nat) returns (m: Move, calls: seq<Call>)
    requires Inv(p, cfg, s) && Local(p) && !cfg.shared && c < cfg.cores && Earliest(s.events, i)
    ensures calls == MoveCalls(p, View(s, c), m) && IsMove(p, cfg, s, Step(p, cfg, s, i), c, m)
    ensures cfg.cores == 1 ==> AloneStep(s, s.events[i], m)
    ensures var r := Step(p, cfg, s, i);
            && Projects(p, cfg, s, r, c, calls)
            && Expands(p, cfg.defaultSlice, View(s, c), View(r, c), r.cores[c].busy - s.cores[c].busy, calls)
  {
    hide Lawful, Local, Accounted, Timers, Clock, Step, Next, Can, Cpu, Expands, Places, Alone, LastRoster;
    m := StepIsMove(p, cfg, s, i, c);
    LaneSound(p, cfg, s, c);
    MoveIsCalls(p, cfg.defaultSlice, View(s, c), m);
    calls := MoveCalls(p, View(s, c), m);
    ExpandsIsTrace(p, cfg.defaultSlice, View(s, c), View(Step(p, cfg, s, i), c), Step(p, cfg, s, i).cores[c].busy - s.cores[c].busy, calls);
    if cfg.cores == 1 {
      StepAwaits(p, cfg, s, i);
      if s.events[i].Arrival? {
        EventKnown(p, cfg, s, i);
      }
      MoveIsAlone(p, cfg.defaultSlice, View(s, c), Awaited(s), m);
    }
    assert Projects(p, cfg, s, Step(p, cfg, s, i), c, calls);
  }

  lemma EventKnown<S(!new)>(p: Policy<S>, cfg: Config, s: State<S>, i: nat)
    requires Inv(p, cfg, s) && i < |s.events| && s.events[i].Arrival?
    ensures s.events[i].id in Awaited(s)
  {
    ArrivalKnown(p, cfg, s, i);
  }

  lemma LaneSound<S(!new)>(p: Policy<S>, cfg: Config, s: State<S>, c: nat)
    requires Inv(p, cfg, s) && !cfg.shared && c < cfg.cores
    ensures Sound(p, View(s, c))
  {
    hide Lawful, Local, Accounted, Timers, Clock;
    if s.cores[c].running.Some? {
      RunningIsPlaced(p, s, c);
      TimerGrants(s, c);
    }
  }

  lemma TimerGrants<S>(s: State<S>, c: nat)
    requires Timers(s, -1) && c < |s.cores| && s.cores[c].running.Some?
    ensures s.cores[c].granted > 0.0
  {
  }

  /** A run of the engine is, for each core, a trace of calls to its scheduler with the
      same charges; on a single core, a trace of a lane alone. */
  lemma {:induction false} RunIsTrace<S(!new)>(
    p: Policy<S>, cfg: Config, s: State<S>, choices: seq<nat>, stop: real, c: nat) returns (calls: seq<Call>)
    requires Inv(p, cfg, s) && Local(p) && !cfg.shared && c < cfg.cores && Run(p, cfg, s, choices, stop)
    ensures var r := After(p, cfg, s, choices, stop);
            Projects(p, cfg, s, r, c, calls)
    ensures forall w :: WaitsOn(p, cfg, s, choices, stop, c, w) ==>
              Waits(p, cfg.defaultSlice, View(s, c), calls, w)
    decreases |choices|
  {
    hide Lawful, Local, Accounted, Timers, Clock, Places, Step, Next, Can, Cpu, Allowed, Do, Alone, LastRoster;
    if choices == [] {
      calls := [];
      NoCalls(p, cfg.defaultSlice, View(s, c), Roster(Awaited(s), None));
    } else {
      var m, first := StepIsCalls(p, cfg, s, choices[0], c);
      StepKeeps(p, cfg, s, choices[0]);
      var u := Step(p, cfg, s, choices[0]);
      var rest := RunIsTrace(p, cfg, u, choices[1..], stop, c);
      calls := first + rest;
      Joined(p, cfg.defaultSlice, View(s, c), first, rest);
      if cfg.cores == 1 {
        JoinedAlone(p, cfg.defaultSlice, View(s, c), Roster(Awaited(s), None), first, rest);
      }
      forall w | WaitsOn(p, cfg, s, choices, stop, c, w)
        ensures Waits(p, cfg.defaultSlice, View(s, c), calls, w)
      {
        assert WaitsOn(p, cfg, u, choices[1..], stop, c, w);
        assert w in p.ready(u.scheds[c]);
      }
    }
  }

  /** The calls lead core c's lane from s to r, charging what the core was charged. */
  ghost predicate Projects<S(!new)>(p: Policy<S>, cfg: Config, s: State<S>, r: State<S>, c: nat, calls: seq<Call>) {
    && c < |s.scheds| && c < |s.cores| && c < |r.scheds| && c < |r.cores|
    && Trace(p, cfg.defaultSlice, View(s, c), calls)
    && End(p, cfg.defaultSlice, View(s, c), calls) == View(r, c)
    && Used(calls) == r.cores[c].busy - s.cores[c].busy
    && (cfg.cores == 1 ==>
          && Alone(p, cfg.defaultSlice, View(s, c), Roster(Awaited(s), None), calls)
          && LastRoster(p, cfg.defaultSlice, View(s, c), Roster(Awaited(s), None), calls) == Roster(Awaited(r), None))
  }

  // ------------------------------------------------ reachable states

  /** The tasks are the submitted jobs throughout. */
  lemma ReachedIds<S(!new)>(p: Policy<S>, cfg: Config, sched: S, jobs: seq<Job>, choices: seq<nat>, stop: real, s: State<S>)
    requires Reached(p, cfg, sched, jobs, choices, stop, s) && !cfg.shared
    ensures Members(Ids(jobs)) == s.tasks.Keys
  {
    hide Lawful, InvBut, Initial, After, Run;
    InitialInv(p, cfg, sched, jobs);
    RunKeepsIds(p, cfg, Initial(cfg, sched, jobs), choices, stop);
    forall x
      ensures x in Ids(jobs) <==> x in s.tasks
    {
      if x in s.tasks {
        var i :| 0 <= i < |jobs| && jobs[i].id == x;
        assert Ids(jobs)[i] == x;
      }
    }
  }

  lemma {:induction false} LanesStart<S>(cfg: Config, sched: S, jobs: seq<Job>, c: nat)
    requires c < cfg.cores && !cfg.shared
    ensures var s := Initial(cfg, sched, jobs);
            && c < |s.scheds| && c < |s.cores| && View(s, c) == Lane(sched, s.attrs, None, 0.0)
  {
    if jobs != [] {
      LanesStart(cfg, sched, jobs[..|jobs| - 1], c);
    }
  }

  /** Core c's lane in a reachable state is where some trace from a fresh lane ends. */
  lemma ReachedLane<S(!new)>(p: Policy<S>, cfg: Config, sched: S, jobs: seq<Job>, choices: seq<nat>, stop: real,
                             s: State<S>, c: nat) returns (d: Lane<S>, calls: seq<Call>)
    requires Reached(p, cfg, sched, jobs, choices, stop, s) && Local(p) && !cfg.shared && c < cfg.cores
    ensures c < |s.scheds| && c < |s.cores| && Sound(p, View(s, c))
    ensures d == Lane(sched, d.attrs, None, 0.0) && Sound(p, d)
    ensures Trace(p, cfg.defaultSlice, d, calls) && End(p, cfg.defaultSlice, d, calls) == View(s, c)
  {
    hide Lawful, Local, Inv, InvBut, Trace, End;
    ReachedInv(p, cfg, sched, jobs, choices, stop, s);
    InitialInv(p, cfg, sched, jobs);
    LanesStart(cfg, sched, jobs, c);
    d := View(Initial(cfg, sched, jobs), c);
    calls := RunIsTrace(p, cfg, Initial(cfg, sched, jobs), choices, stop, c);
    LaneSound(p, cfg, s, c);
    LaneSound(p, cfg, Initial(cfg, sched, jobs), c);
  }

  /** On one core, every task is awaited, active, or done. */
  lemma LaneTidy<S(!new)>(p: Policy<S>, cfg: Config, s: State<S>)
    requires Inv(p, cfg, s) && !cfg.shared && cfg.cores == 1
    ensures Tidy(p, View(s, 0), Roster(Awaited(s), None), s.tasks.Keys)
  {
    hide Lawful, Accounted, Timers, Clock, Sound;
    LaneSound(p, cfg, s, 0);
    forall x | Active(p, View(s, 0), Roster(Awaited(s), None), x)
      ensures x in s.tasks && x !in Awaited(s)
    {
      if x in p.ready(s.scheds[0]) {
        ReadyIsPlaced(p, s, 0, x);
      } else {
        RunningIsPlaced(p, s, 0);
      }
    }
  }

  /** At event boundaries nobody is between the core and the queue. */
  function RosterOf<S>(s: State<S>): Roster {
    Roster(Awaited(s), None)
  }

  lemma UnfinishedIsActive<S(!new)>(p: Policy<S>, cfg: Config, s: State<S>, x: TaskId)
    requires Inv(p, cfg, s) && !cfg.shared && cfg.cores == 1
    requires x in s.place && (s.place[x].Queued? || s.place[x].OnCore?)
    ensures Active(p, View(s, 0), RosterOf(s), x)
  {
    hide Lawful, Clock, Accounted, Timers;
    assert Placed(s, x);
    assert s.place[x].Queued? ==> p.ready(s.scheds[0])[x] == 1;
  }

  /** The listed jobs that have not completed. */
  function Unfinished<S>(s: State<S>, ids: seq<TaskId>): (some: seq<TaskId>)
    ensures forall x :: x in some <==> x in ids && x !in s.completed
  {
    if ids == [] then []
    else
      var n := |ids| - 1;
      Unfinished(s, ids[..n]) + if ids[n] in s.completed then [] else [ids[n]]
  }

  lemma ActiveIsUnfinished<S(!new)>(p: Policy<S>, cfg: Config, s: State<S>, x: TaskId)
    requires Inv(p, cfg, s) && !cfg.shared && cfg.cores == 1
    requires Active(p, View(s, 0), RosterOf(s), x) || x in Awaited(s)
    ensures x !in s.completed
  {
    hide Lawful, Clock, Accounted, Timers;
    assert p.ready(s.scheds[0])[x] > 0 ==> s.place[x] == Queued(0);
  }

  /** On one core, every unfinished task is awaited or active. */
  lemma UnfinishedTidy<S(!new)>(p: Policy<S>, cfg: Config, sched: S, jobs: seq<Job>, before: seq<nat>, stop: real, s: State<S>)
    requires !cfg.shared && cfg.cores == 1 && Reached(p, cfg, sched, jobs, before, stop, s)
    ensures 0 < |s.scheds| && 0 < |s.cores|
    ensures Tidy(p, View(s, 0), RosterOf(s), Members(Unfinished(s, Ids(jobs))))
  {
    hide Lawful, Clock, Accounted, Timers, Reached, Sound;
    var some := Members(Unfinished(s, Ids(jobs)));
    ReachedInv(p, cfg, sched, jobs, before, stop, s);
    LaneTidy(p, cfg, s);
    ReachedIds(p, cfg, sched, jobs, before, stop, s);
    forall x | x in s.tasks.Keys && (Active(p, View(s, 0), RosterOf(s), x) || x in Awaited(s))
      ensures x in some
    {
      ActiveIsUnfinished(p, cfg, s, x);
      assert x in Members(Ids(jobs));
    }
  }
}

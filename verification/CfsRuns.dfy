/** Fairness of the completely fair scheduler along the runs of an engine with one core and
    all jobs submitted for time 0. */
module CfsRuns {
  import opened Common
  import opened Tasks
  import opened Policies
  import opened Lanes
  import opened SingleQueue
  import opened Cfs
  import opened CfsFairness
  import opened Engine
  import opened EngineInvariant
  import opened EngineRuns
  import opened EngineHistory
  import opened EngineLanes
  import opened EngineOpening
  import opened EngineSteps
  import opened EngineGrants
  import opened EngineCounters

  // ------------------------------------------------ slices are shares

  /** A slice granted by scheduler x is its task's share of x's queue. */
  lemma GrantIsShare(params: Params, cfg: Config, core: Core, x: Sched, attrs: Attrs)
    requires params.Valid() && Grants(Table(params), cfg, core, x, attrs)
    ensures core.running.Some? && multiset(x.queue)[core.running.value] == 1
    ensures var w := AttrOf(attrs, core.running.value).weight;
            IsShare(params, |x.queue|, w, w + TotalWeight(attrs, x.queue), core.granted)
  {
    hide IsShare, SliceFor;
    assert x.queue != [];
    ChoiceIsShare(params, x, attrs);
    ShareIsPositive(params, x, attrs);
  }

  lemma ShareIsPositive(params: Params, s: Sched, attrs: Attrs)
    requires params.Valid() && s.queue != []
    ensures Choice(params, s, attrs).value.slice > 0.0
  {
    hide SliceFor;
  }

  /** In every step of a run of either engine: a core that is not as before, and busy, has been
      granted its task's share of the tasks that were ready, which are those still queued and
      the task itself, its weight counted once more. */
  lemma DispatchIsShareInRuns(params: Params, cfg: Config, jobs: seq<Job>, before: seq<nat>, stop: real, s: State<Sched>,
                              i: nat, c: nat)
    requires params.Valid() && Reached(Table(params), cfg, Sched([], 0.0), jobs, before, stop, s)
    requires Shape(Table(params), cfg, s) && Earliest(s.events, i) && c < cfg.cores
    ensures var r := Step(Table(params), cfg, s, i);
            r.cores[c].running.Some? && r.cores[c] != s.cores[c] ==>
              var w, queue := AttrOf(r.attrs, r.cores[c].running.value).weight, r.scheds[cfg.QueueOf(c)].queue;
              IsShare(params, |queue| + 1, w, w + w + TotalWeight(r.attrs, queue), r.cores[c].granted)
  {
    hide Lawful, Local, Places, Clock, Accounted, Timers, Step, Reached, IsShare, Grants, Drop;
    ReachedInv(Table(params), cfg, Sched([], 0.0), jobs, before, stop, s);
    TableIsLocal(params);
    StepGrants(Table(params), cfg, s, i, c);
    var r := Step(Table(params), cfg, s, i);
    if r.cores[c].running.Some? && r.cores[c] != s.cores[c] {
      var x :| JustGranted(Table(params), cfg, r, c, x);
      GrantIsShare(params, cfg, r.cores[c], x, r.attrs);
      DropWeighs(r.attrs, x.queue, r.cores[c].running.value);
    }
  }

  /** In every reachable state of either engine the slice of a busy core is its task's share of
      some set of tasks that were ready together with it. */
  lemma SlicesAreSharesInRuns(params: Params, cfg: Config, jobs: seq<Job>, choices: seq<nat>, stop: real, s: State<Sched>, c: nat)
    returns (queue: seq<TaskId>)
    requires params.Valid() && Reached(Table(params), cfg, Sched([], 0.0), jobs, choices, stop, s)
    requires c < cfg.cores && c < |s.cores| && s.cores[c].running.Some?
    ensures var w := AttrOf(s.attrs, s.cores[c].running.value).weight;
            && s.cores[c].running.value in queue
            && IsShare(params, |queue|, w, w + TotalWeight(s.attrs, queue), s.cores[c].granted)
  {
    hide Lawful, Local, Reached, IsShare, Grants;
    TableIsLocal(params);
    var x, attrs := SlicesAreGranted(Table(params), cfg, Sched([], 0.0), jobs, choices, stop, s, c);
    GrantIsShare(params, cfg, s.cores[c], x, attrs);
    SameTotal(attrs, s.attrs, x.queue);
    queue := x.queue;
    assert s.cores[c].running.value in multiset(queue);
  }

  // ------------------------------------------------ preemption

  /** In every step of a run of either engine: an arrival displaces a task exactly if all cores
      of the queue it is sent to are busy and one of them runs a task whose virtual runtime is
      above the scheduler's minimum by more than the wakeup granularity at that task's weight. */
  lemma ArrivalsDisplaceInRuns(params: Params, cfg: Config, jobs: seq<Job>, before: seq<nat>, stop: real, s: State<Sched>, i: nat)
    returns (q: nat)
    requires params.Valid() && Reached(Table(params), cfg, Sched([], 0.0), jobs, before, stop, s)
    requires Shape(Table(params), cfg, s) && Earliest(s.events, i) && s.events[i].Arrival?
    ensures q < cfg.Queues()
    ensures Step(Table(params), cfg, s, i).preemptions > s.preemptions <==>
              && AllBusy(Table(params), cfg, s, q)
              && exists k: nat :: Serves(cfg, k, q) && Overtaken(params, s, k, q)
  {
    hide Lawful, Local, Places, Clock, Accounted, Timers, Step, Reached, Add, Overtaken;
    ReachedInv(Table(params), cfg, Sched([], 0.0), jobs, before, stop, s);
    var queue, next := ArrivalPreempts(Table(params), cfg, s, i);
    q := queue;
    ArrivesNowhere(Table(params), cfg, s, i);
    forall k: nat | Serves(cfg, k, q) && s.cores[k].running.Some?
      ensures var x := Add(params, s.scheds[q], s.attrs, s.events[i].id, true);
              Cfs.Preempts(params, x.1, s.events[i].id, s.cores[k].running.value) <==> Overtaken(params, s, k, q)
    {
      NewcomerPreempts(params, s, k, q, s.events[i].id);
    }
  }

  /** The task of core k is ahead of the minimum of its queue by more than the granularity. */
  predicate Overtaken(params: Params, s: State<Sched>, k: nat, q: nat)
    requires k < |s.cores| && q < |s.scheds|
  {
    && s.cores[k].running.Some?
    && var y := s.cores[k].running.value;
       (Vruntime(s.attrs, y) - s.scheds[q].minVruntime) * AttrOf(s.attrs, y).weight as real > params.wakeupGranularity * 1024.0
  }

  lemma NewcomerPreempts(params: Params, s: State<Sched>, k: nat, q: nat, id: TaskId)
    requires params.Valid() && k < |s.cores| && q < |s.scheds| && s.cores[k].running.Some? && s.cores[k].running != Some(id)
    ensures Cfs.Preempts(params, Add(params, s.scheds[q], s.attrs, id, true).1, id, s.cores[k].running.value)
       <==> Overtaken(params, s, k, q)
  {
    hide Add, Cfs.Preempts;
    AddFacts(params, s.scheds[q], s.attrs, id, true);
    PreemptsLaggards(params, Add(params, s.scheds[q], s.attrs, id, true).1, id, s.cores[k].running.value);
  }

  // ------------------------------------------------ slices are bounded

  /** Half a period for n ready tasks, or the granularity. */
  function SliceLimit(params: Params, n: nat): (r: real)
    requires params.Valid()
    ensures r >= 0.0
  {
    Max(Max(params.latency, Stretched(params, n)) / 2.0, params.minGranularity)
  }

  lemma SliceLimitGrows(params: Params, a: nat, b: nat)
    requires params.Valid() && a <= b
    ensures SliceLimit(params, a) <= SliceLimit(params, b)
  {
    var more, g := (b - a) as real, params.minGranularity;
    assert more * g >= 0.0 && b as real * g == a as real * g + more * g;
  }

  lemma ShareBound(period: real, weight: nat, total: nat)
    requires 0 < total && 2 * weight <= total && period >= 0.0
    ensures Share(period, weight, total) <= period / 2.0
  {
    HalfProduct(period, weight as real, total as real);
  }

  lemma HalfProduct(period: real, weight: real, total: real)
    requires 0.0 < total && 2.0 * weight <= total && period >= 0.0
    ensures period * weight / total <= period / 2.0
  {
    var x := period * weight / total;
    assert x * total == period * weight;
    assert period * (total - 2.0 * weight) >= 0.0;
    assert period * (total - 2.0 * weight) == period * total - 2.0 * (period * weight);
    assert (period / 2.0 - x) * total >= 0.0;
  }

  lemma {:induction false} WeightInTotal(attrs: Attrs, q: seq<TaskId>, id: TaskId)
    requires id in q
    ensures AttrOf(attrs, id).weight <= TotalWeight(attrs, q)
  {
    var n := |q| - 1;
    assert q == q[..n] + [q[n]];
    if id in q[..n] {
      WeightInTotal(attrs, q[..n], id);
    }
  }

  /** Since the chosen task is counted twice it never gets more than half the period, unless
      the granularity is more than that. */
  lemma SliceBound(params: Params, s: Sched, attrs: Attrs, id: TaskId)
    requires params.Valid() && id in s.queue
    ensures SliceFor(params, s, attrs, id) <= SliceLimit(params, |s.queue|)
  {
    hide Share;
    var weight := AttrOf(attrs, id).weight;
    WeightInTotal(attrs, s.queue, id);
    PeriodIs(params, |s.queue|);
    ShareBound(Period(params, |s.queue|), weight, weight + TotalWeight(attrs, s.queue));
  }

  /** The comparison of whole numbers picks the longer of the two periods. */
  lemma PeriodIs(params: Params, n: nat)
    requires params.Valid() && n > 0
    ensures Period(params, n) == Max(params.latency, Stretched(params, n))
  {
    hide Stretched;
    RoomFor(params, n);
  }

  /** The latency has room for exactly as many granularities as its quotient's floor. */
  lemma RoomFor(params: Params, n: nat)
    requires params.Valid()
    ensures n > (params.latency / params.minGranularity).Floor ==> Stretched(params, n) >= params.latency
    ensures n <= (params.latency / params.minGranularity).Floor ==> Stretched(params, n) <= params.latency
  {
    var l, g := params.latency, params.minGranularity;
    Quotient(l, g);
    FloorAround(l / g);
    if n > (l / g).Floor {
      assert n as real >= (l / g).Floor as real + 1.0;
      Longer(l / g, n as real, g);
    } else {
      Longer(n as real, l / g, g);
    }
  }

  lemma Quotient(a: real, b: real)
    requires b > 0.0
    ensures a / b * b == a
  {
  }

  lemma FloorAround(x: real)
    ensures x.Floor as real <= x < x.Floor as real + 1.0
  {
  }

  lemma Longer(a: real, b: real, g: real)
    requires a <= b && g >= 0.0
    ensures a * g <= b * g
  {
    assert (b - a) * g >= 0.0;
  }

  /** The running slice is bounded for a queue drawn from n tasks. */
  predicate Limited(params: Params, d: Lane<Sched>, n: nat)
    requires params.Valid()
  {
    d.running.Some? ==> d.granted <= SliceLimit(params, n)
  }

  /** delta covers the virtual runtime of the longest slice of every task. */
  ghost predicate Covers(params: Params, attrs: Attrs, ids: set<TaskId>, delta: real)
    requires params.Valid()
  {
    forall x: TaskId :: x in ids ==> Scaled(SliceLimit(params, |ids|), AttrOf(attrs, x).weight as real) <= delta
  }

  lemma ScaledGrows(a: real, b: real, weight: real)
    requires weight > 0.0 && a <= b
    ensures Scaled(a, weight) <= Scaled(b, weight)
  {
    var x, y := a * NICE_0_LOAD / weight, b * NICE_0_LOAD / weight;
    assert x * weight == a * NICE_0_LOAD && y * weight == b * NICE_0_LOAD;
    assert (y - x) * weight >= 0.0;
  }

  lemma CallIsLimited(params: Params, slice0: real, d: Lane<Sched>, roster: Roster, call: Call, ids: set<TaskId>, delta: real)
    requires params.Valid() && slice0 > 0.0 && Tidy(Table(params), d, roster, ids)
    requires Allowed(Table(params), d, call) && Expected(d, roster, call)
    requires Limited(params, d, |ids|) && Covers(params, d.attrs, ids, delta)
    ensures var d' := Do(Table(params), slice0, d, call);
            Limited(params, d', |ids|) && Covers(params, d'.attrs, ids, delta)
    ensures ChargeWithin(d, call, delta)
  {
    hide Lawful, Add, Cfs.Charge, SliceFor, Scaled, SliceLimit;
    match call
    case Added(id, unstarted) => AddFacts(params, d.sched, d.attrs, id, unstarted);
    case Charged(cpu) =>
      var r := d.running.value;
      ChargeFacts(params, d.sched, d.attrs, r, cpu);
      assert Active(Table(params), d, roster, r);
      ScaledGrows(cpu, SliceLimit(params, |ids|), AttrOf(d.attrs, r).weight as real);
    case Picked =>
      if d.sched.queue != [] {
        PickIsLimited(params, d, roster, ids);
      }
    case Apart(_, _) =>
  }

  lemma PickIsLimited(params: Params, d: Lane<Sched>, roster: Roster, ids: set<TaskId>)
    requires params.Valid() && Tidy(Table(params), d, roster, ids) && d.sched.queue != []
    ensures forall x :: x in d.sched.queue ==> SliceFor(params, d.sched, d.attrs, x) <= SliceLimit(params, |ids|)
  {
    hide Lawful, SliceFor;
    forall x
      ensures x in d.sched.queue ==> x in ids
      ensures multiset(d.sched.queue)[x] <= 1
    {
      assert Table(params).ready(d.sched)[x] <= 1;
      assert x in d.sched.queue ==> Active(Table(params), d, roster, x);
    }
    DistinctFit(d.sched.queue, ids);
    SliceLimitGrows(params, |d.sched.queue|, |ids|);
    forall x | x in d.sched.queue
      ensures SliceFor(params, d.sched, d.attrs, x) <= SliceLimit(params, |ids|)
    {
      SliceBound(params, d.sched, d.attrs, x);
    }
  }

  lemma {:induction false} TraceIsLimited(params: Params, slice0: real, d: Lane<Sched>, roster: Roster, calls: seq<Call>,
                                          ids: set<TaskId>, delta: real)
    requires params.Valid() && slice0 > 0.0 && Tidy(Table(params), d, roster, ids)
    requires Trace(Table(params), slice0, d, calls) && Alone(Table(params), slice0, d, roster, calls)
    requires Limited(params, d, |ids|) && Covers(params, d.attrs, ids, delta)
    ensures ChargesWithin(params, slice0, d, calls, delta)
    ensures var d' := End(Table(params), slice0, d, calls);
            Limited(params, d', |ids|) && Covers(params, d'.attrs, ids, delta)
    decreases |calls|
  {
    hide Sound, Tidy, Allowed, Do, Expected, Follow, Limited, Covers, ChargeWithin;
    if calls != [] {
      DoTidy(Table(params), slice0, d, roster, calls[0], ids);
      CallIsLimited(params, slice0, d, roster, calls[0], ids, delta);
      TraceIsLimited(params, slice0, Do(Table(params), slice0, d, calls[0]), Follow(d, roster, calls[0]), calls[1..], ids, delta);
    }
  }

  // ------------------------------------------------ one step

  function Executed(s: State<Sched>): Service {
    map id | id in s.tasks :: Done(s, id)
  }

  /** The step charges at most delta virtual runtime. */
  ghost predicate StepAddsAtMost(params: Params, cfg: Config, s: State<Sched>, i: nat, delta: real)
    requires params.Valid() && Shape(Table(params), cfg, s) && i < |s.events|
  {
    s.cores[0].running.Some? ==>
      Scaled(Step(Table(params), cfg, s, i).cores[0].busy - s.cores[0].busy,
             AttrOf(s.attrs, s.cores[0].running.value).weight as real) <= delta
  }

  /** No step of the run charges more: delta is at least the largest charge made. */
  ghost predicate RunAddsAtMost(params: Params, cfg: Config, s: State<Sched>, choices: seq<nat>, stop: real, delta: real)
    requires params.Valid() && Shape(Table(params), cfg, s) && Run(Table(params), cfg, s, choices, stop)
    decreases |choices|
  {
    choices == [] || (StepAddsAtMost(params, cfg, s, choices[0], delta)
                      && RunAddsAtMost(params, cfg, Step(Table(params), cfg, s, choices[0]), choices[1..], stop, delta))
  }

  /** What holds along such runs: virtual runtimes near, and as long as tasks are awaited,
      nobody charged. */
  ghost predicate Fair(params: Params, s: State<Sched>, delta: real)
    requires params.Valid()
  {
    && 0 < |s.scheds| && 0 < |s.cores|
    && Spread(params, View(s, 0), RosterOf(s), delta + Slack(|s.tasks.Keys|), Slack(|s.tasks.Keys|))
    && (Awaited(s) != {} ==> Opening(s) && Level(params, View(s, 0), RosterOf(s)))
  }

  /** At the opening no arrival preempts: all virtual runtimes are 0. */
  lemma LevelIsPolite(params: Params, s: State<Sched>, id: TaskId)
    requires params.Valid() && 0 < |s.scheds| && 0 < |s.cores| && Level(params, View(s, 0), RosterOf(s))
    requires s.cores[0].running != Some(id)
    ensures Polite(Table(params), s, id)
  {
    hide Add;
    AddFacts(params, s.scheds[0], s.attrs, id, true);
    if s.cores[0].running.Some? {
      assert Active(Table(params), View(s, 0), RosterOf(s), s.cores[0].running.value);
    }
  }

  lemma {:induction false} TraceKeepsLevel(params: Params, slice0: real, d: Lane<Sched>, roster: Roster, calls: seq<Call>)
    requires params.Valid() && slice0 > 0.0 && Sound(Table(params), d) && Level(params, d, roster)
    requires Trace(Table(params), slice0, d, calls) && Alone(Table(params), slice0, d, roster, calls)
    requires forall call :: call in calls ==> !call.Charged?
    ensures Level(params, End(Table(params), slice0, d, calls), LastRoster(Table(params), slice0, d, roster, calls))
    decreases |calls|
  {
    hide Sound, Level, Expected, Follow, Allowed, Do;
    if calls != [] {
      assert calls[0] in calls && forall call :: call in calls[1..] ==> call in calls;
      CallKeepsLevel(params, slice0, d, roster, calls[0]);
      DoSound(Table(params), slice0, d, calls[0]);
      TraceKeepsLevel(params, slice0, Do(Table(params), slice0, d, calls[0]), Follow(d, roster, calls[0]), calls[1..]);
    }
  }

  /** The phase of the calls of one step. */
  lemma StepPhase(params: Params, cfg: Config, s: State<Sched>, i: nat, m: Move, calls: seq<Call>, delta: real)
    requires params.Valid() && Inv(Table(params), cfg, s) && !cfg.shared && cfg.cores == 1 && Earliest(s.events, i)
    requires Fair(params, s, delta) && AloneStep(s, s.events[i], m)
    requires calls == MoveCalls(Table(params), View(s, 0), m)
    requires Trace(Table(params), cfg.defaultSlice, View(s, 0), calls)
    requires Alone(Table(params), cfg.defaultSlice, View(s, 0), RosterOf(s), calls)
    ensures Phase(params, View(s, 0), RosterOf(s), calls)
    ensures Awaited(s) != {} ==> m.Arrive? && Polite(Table(params), s, m.id) && s.events[i].time == 0.0
    ensures Awaited(s) != {} ==> forall call :: call in calls ==> !call.Charged?
    ensures Awaited(s) == {} ==> NoArrivals(calls) && !m.Arrive?
  {
    hide Lawful, Places, Clock, Accounted, Timers, Spread, Level, Opening, OwnCharge;
    if Awaited(s) == {} {
      AloneMeansNoArrivals(Table(params), cfg.defaultSlice, View(s, 0), RosterOf(s), calls);
      if m.Arrive? {
        EventKnown(Table(params), cfg, s, i);
        assert false;
      }
    } else {
      ArrivalsFirst(Table(params), cfg, s, i);
      ArrivalNotInLane(Table(params), cfg, s, i, 0);
      LevelIsPolite(params, s, m.id);
      PoliteMove(Table(params), s, m);
      assert calls == calls + [];
      PunctualAfter(calls, []);
    }
  }

  lemma {:induction false} NoChargesWithin(params: Params, slice0: real, d: Lane<Sched>, calls: seq<Call>, delta: real)
    requires params.Valid() && Trace(Table(params), slice0, d, calls) && forall call :: call in calls ==> !call.Charged?
    ensures ChargesWithin(params, slice0, d, calls, delta) && Used(calls) == 0.0
    decreases |calls|
  {
    hide Do, Allowed;
    if calls != [] {
      assert calls[0] in calls && forall call :: call in calls[1..] ==> call in calls;
      NoChargesWithin(params, slice0, Do(Table(params), slice0, d, calls[0]), calls[1..], delta);
    }
  }

  lemma FirstChargeWithin(params: Params, slice0: real, d: Lane<Sched>, calls: seq<Call>, delta: real)
    requires params.Valid() && Trace(Table(params), slice0, d, calls) && d.running.Some?
    requires calls != [] && calls[0].Charged? && forall call :: call in calls[1..] ==> !call.Charged?
    requires Scaled(Used(calls), AttrOf(d.attrs, d.running.value).weight as real) <= delta
    ensures ChargesWithin(params, slice0, d, calls, delta)
  {
    hide Do, Allowed, Scaled;
    NoChargesWithin(params, slice0, Do(Table(params), slice0, d, calls[0]), calls[1..], delta);
  }

  /** What the step charges bounds what its calls charge. */
  lemma CallsAddAtMost(params: Params, cfg: Config, s: State<Sched>, i: nat, m: Move, calls: seq<Call>, delta: real)
    requires params.Valid() && Shape(Table(params), cfg, s) && !cfg.shared && cfg.cores == 1 && i < |s.events|
    requires StepAddsAtMost(params, cfg, s, i, delta) && AloneStep(s, s.events[i], m)
    requires Projects(Table(params), cfg, s, Step(Table(params), cfg, s, i), 0, calls)
    requires calls == MoveCalls(Table(params), View(s, 0), m)
    requires !m.Timer? ==> forall call :: call in calls ==> !call.Charged?
    ensures ChargesWithin(params, cfg.defaultSlice, View(s, 0), calls, delta)
  {
    hide Lawful, Step, Scaled, OwnCharge, ChargesWithin, Trace, Charges, Table;
    if m.Timer? {
      FirstChargeWithin(params, cfg.defaultSlice, View(s, 0), calls, delta);
    } else {
      NoChargesWithin(params, cfg.defaultSlice, View(s, 0), calls, delta);
    }
  }

  lemma OutsideCharges(params: Params, s: State<Sched>, m: Move)
    requires params.Valid() && 0 < |s.scheds| && 0 < |s.cores| && m.Outside?
    ensures forall call :: call in MoveCalls(Table(params), View(s, 0), m) ==> !call.Charged?
  {
  }

  lemma StepChargesWithin(params: Params, cfg: Config, s: State<Sched>, i: nat, m: Move, calls: seq<Call>, delta: real)
    requires params.Valid() && Inv(Table(params), cfg, s) && !cfg.shared && cfg.cores == 1 && Earliest(s.events, i)
    requires StepAddsAtMost(params, cfg, s, i, delta) && AloneStep(s, s.events[i], m)
    requires m.Arrive? ==> Polite(Table(params), s, m.id)
    requires Projects(Table(params), cfg, s, Step(Table(params), cfg, s, i), 0, calls)
    requires calls == MoveCalls(Table(params), View(s, 0), m)
    ensures ChargesWithin(params, cfg.defaultSlice, View(s, 0), calls, delta)
  {
    hide Lawful, Places, Clock, Accounted, Timers, Step, OwnCharge, Polite, Projects, Trace, ChargesWithin, StepAddsAtMost, Table,
      MoveCalls;
    if m.Arrive? {
      PoliteMove(Table(params), s, m);
    } else if m.Outside? {
      OutsideCharges(params, s, m);
    }
    CallsAddAtMost(params, cfg, s, i, m, calls, delta);
  }

  lemma StepStaysFair(params: Params, cfg: Config, s: State<Sched>, i: nat, delta: real)
    requires params.Valid() && Inv(Table(params), cfg, s) && !cfg.shared && cfg.cores == 1 && Earliest(s.events, i)
    requires Fair(params, s, delta) && delta >= 0.0 && StepAddsAtMost(params, cfg, s, i, delta)
    ensures Fair(params, Step(Table(params), cfg, s, i), delta)
  {
    hide Lawful, Local, Places, Clock, Accounted, Timers, Step, Spread, Level, Opening, Slack,
      Trace, Alone, End, LastRoster, Phase, ChargesWithin, Table, Polite, Tidy, AloneStep, MoveCalls, StepAddsAtMost;
    var p := Table(params);
    TableIsLocal(params);
    var m, calls := StepIsCalls(p, cfg, s, i, 0);
    StepPhase(params, cfg, s, i, m, calls, delta);
    LaneTidy(p, cfg, s);
    StepKeepsIds(p, cfg, s, i);
    StepChargesWithin(params, cfg, s, i, m, calls, delta);
    VruntimesStayNear(params, cfg.defaultSlice, View(s, 0), RosterOf(s), calls, s.tasks.Keys, delta);
    if Awaited(Step(p, cfg, s, i)) != {} {
      StillOpening(params, cfg, s, i, m, calls);
    }
  }

  lemma StillOpening(params: Params, cfg: Config, s: State<Sched>, i: nat, m: Move, calls: seq<Call>)
    requires params.Valid() && Inv(Table(params), cfg, s) && !cfg.shared && cfg.cores == 1 && Earliest(s.events, i)
    requires Awaited(Step(Table(params), cfg, s, i)) != {} && AloneStep(s, s.events[i], m)
    requires Awaited(s) != {} ==>
               && Opening(s) && Level(params, View(s, 0), RosterOf(s))
               && m.Arrive? && Polite(Table(params), s, m.id) && s.events[i].time == 0.0
               && forall call :: call in calls ==> !call.Charged?
    requires Projects(Table(params), cfg, s, Step(Table(params), cfg, s, i), 0, calls)
    ensures Opening(Step(Table(params), cfg, s, i))
    ensures Level(params, View(Step(Table(params), cfg, s, i), 0), RosterOf(Step(Table(params), cfg, s, i)))
  {
    hide Lawful, Local, Places, Clock, Accounted, Timers, Step, Level, Opening, Trace, Alone, End, LastRoster, Table, Polite,
      MoveCalls;
    StepAwaits(Table(params), cfg, s, i);
    OpeningStep(Table(params), cfg, s, i);
    LaneSound(Table(params), cfg, s, 0);
    TraceKeepsLevel(params, cfg.defaultSlice, View(s, 0), RosterOf(s), calls);
  }

  // ------------------------------------------------ runs

  lemma {:induction false} RunStaysFair(params: Params, cfg: Config, s: State<Sched>, choices: seq<nat>, stop: real, delta: real)
    requires params.Valid() && Inv(Table(params), cfg, s) && !cfg.shared && cfg.cores == 1 && delta >= 0.0
    requires Run(Table(params), cfg, s, choices, stop) && Fair(params, s, delta)
    requires RunAddsAtMost(params, cfg, s, choices, stop, delta)
    ensures Fair(params, After(Table(params), cfg, s, choices, stop), delta)
    decreases |choices|
  {
    hide Lawful, Places, Clock, Accounted, Timers, Step, Fair, Table, StepAddsAtMost;
    if choices != [] {
      StepStaysFair(params, cfg, s, choices[0], delta);
      StepKeeps(Table(params), cfg, s, choices[0]);
      RunStaysFair(params, cfg, Step(Table(params), cfg, s, choices[0]), choices[1..], stop, delta);
    }
  }

  lemma {:induction false} InitialWeights(cfg: Config, jobs: seq<Job>)
    requires ValidJobs(jobs)
    ensures forall i :: 0 <= i < |jobs| ==> AttrOf(Initial(cfg, Sched([], 0.0), jobs).attrs, jobs[i].id).weight == jobs[i].weight
    ensures |Initial(cfg, Sched([], 0.0), jobs).tasks.Keys| <= |jobs|
  {
    if jobs != [] {
      var rest := jobs[..|jobs| - 1];
      InitialWeights(cfg, rest);
      var s := Initial(cfg, Sched([], 0.0), rest);
      assert Initial(cfg, Sched([], 0.0), jobs).tasks.Keys == s.tasks.Keys + {jobs[|jobs| - 1].id};
      forall i | 0 <= i < |jobs|
        ensures AttrOf(Initial(cfg, Sched([], 0.0), jobs).attrs, jobs[i].id).weight == jobs[i].weight
      {
        if i < |rest| {
          assert jobs[i].id != jobs[|jobs| - 1].id && rest[i] == jobs[i];
        }
      }
    }
  }

  lemma FreshLimited(params: Params, attrs: Attrs, n: nat)
    requires params.Valid()
    ensures Limited(params, Lane(Sched([], 0.0), attrs, None, 0.0), n)
  {
  }

  lemma FreshLevel(params: Params, s: State<Sched>)
    requires params.Valid() && 0 < |s.scheds| && 0 < |s.cores|
    requires View(s, 0) == Lane(Sched([], 0.0), s.attrs, None, 0.0)
    ensures Level(params, View(s, 0), RosterOf(s))
  {
  }

  lemma InitialFair(params: Params, cfg: Config, jobs: seq<Job>, delta: real)
    requires params.Valid() && cfg.Valid() && !cfg.shared && cfg.cores == 1 && ValidJobs(jobs) && AllAtZero(jobs)
    requires delta >= 0.0
    ensures Fair(params, Initial(cfg, Sched([], 0.0), jobs), delta)
  {
    hide Lawful, Slack, Spread, Inv;
    var s := Initial(cfg, Sched([], 0.0), jobs);
    InitialOpens(cfg, Sched([], 0.0), jobs);
    LanesStart(cfg, Sched([], 0.0), jobs, 0);
    FreshLevel(params, s);
    LevelIsSpread(params, View(s, 0), RosterOf(s), delta + Slack(|s.tasks.Keys|), Slack(|s.tasks.Keys|));
  }

  /** Fairness: on one core with all jobs submitted for time 0, in every reachable state the
      virtual runtimes of any two unfinished arrived tasks differ by at most the largest
      virtual runtime charged in one step so far plus the comparator's tolerance for each task
      but one. */
  lemma VruntimesStayNearInRuns(params: Params, cfg: Config, jobs: seq<Job>, choices: seq<nat>, stop: real,
                                s: State<Sched>, delta: real, x: TaskId, y: TaskId)
    requires params.Valid() && !cfg.shared && cfg.cores == 1 && AllAtZero(jobs) && delta >= 0.0
    requires Reached(Table(params), cfg, Sched([], 0.0), jobs, choices, stop, s)
    requires RunAddsAtMost(params, cfg, Initial(cfg, Sched([], 0.0), jobs), choices, stop, delta)
    requires x in s.place && (s.place[x].Queued? || s.place[x].OnCore?)
    requires y in s.place && (s.place[y].Queued? || s.place[y].OnCore?)
    ensures Vruntime(s.attrs, x) <= Vruntime(s.attrs, y) + delta + Slack(|jobs|)
  {
    hide Lawful, Inv, Slack, Table, Level, Opening, Run, After, RunAddsAtMost, Initial;
    ReachedFair(params, cfg, jobs, choices, stop, s, delta);
    SlackGrows(|s.tasks.Keys|, |jobs|);
    ReachedInv(Table(params), cfg, Sched([], 0.0), jobs, choices, stop, s);
    UnfinishedIsActive(Table(params), cfg, s, x);
    UnfinishedIsActive(Table(params), cfg, s, y);
    assert Near(s.attrs, x, y, delta + Slack(|s.tasks.Keys|));
  }

  lemma ReachedFair(params: Params, cfg: Config, jobs: seq<Job>, choices: seq<nat>, stop: real, s: State<Sched>, delta: real)
    requires params.Valid() && !cfg.shared && cfg.cores == 1 && AllAtZero(jobs) && delta >= 0.0
    requires Reached(Table(params), cfg, Sched([], 0.0), jobs, choices, stop, s)
    requires RunAddsAtMost(params, cfg, Initial(cfg, Sched([], 0.0), jobs), choices, stop, delta)
    ensures Fair(params, s, delta) && |s.tasks.Keys| <= |jobs|
  {
    hide Lawful, Fair, Slack, Run, After, Table, Inv, RunAddsAtMost;
    var s0 := Initial(cfg, Sched([], 0.0), jobs);
    InitialFair(params, cfg, jobs, delta);
    InitialInv(Table(params), cfg, Sched([], 0.0), jobs);
    RunStaysFair(params, cfg, s0, choices, stop, delta);
    RunKeepsIds(Table(params), cfg, s0, choices, stop);
    InitialWeights(cfg, jobs);
  }

  // ------------------------------------------------ CPU time over weight

  /** Virtual runtimes are executed time over weight, and no clamp can fire. */
  ghost predicate Serviced(params: Params, s: State<Sched>, delta: real)
    requires params.Valid()
  {
    && Fair(params, s, delta)
    && CreditCovers(params, View(s, 0), s.tasks.Keys, delta + Slack(|s.tasks.Keys|))
    && Proportional(params, View(s, 0), RosterOf(s), Executed(s))
  }

  lemma OpeningIsBlank(s: State<Sched>)
    requires Opening(s)
    ensures Blank(Executed(s))
  {
  }

  /** The calls of one step charge what the step executes. */
  lemma TotalsOfMove(params: Params, slice0: real, d: Lane<Sched>, m: Move, service: Service, x: TaskId)
    requires params.Valid() && Trace(Table(params), slice0, d, MoveCalls(Table(params), d, m))
    requires m.Arrive? ==> !Charges(Table(params), d, m)
    requires m.Timer? ==> m.stolen.None? && d.running.Some?
    ensures ServiceOf(Totals(params, slice0, d, MoveCalls(Table(params), d, m), service), x)
         == ServiceOf(service, x) + if m.Timer? && d.running == Some(x) then m.cpu else 0.0
  {
    hide Begin, Admit, Release, Charges;
    var p, calls := Table(params), MoveCalls(Table(params), d, m);
    if m.Timer? {
      TotalsAfterCharge(params, slice0, d, calls, service, x);
    } else {
      NoTotals(params, slice0, d, calls, service);
    }
  }

  lemma TotalsAfterCharge(params: Params, slice0: real, d: Lane<Sched>, calls: seq<Call>, service: Service, x: TaskId)
    requires params.Valid() && Trace(Table(params), slice0, d, calls) && d.running.Some?
    requires calls != [] && calls[0].Charged? && forall call :: call in calls[1..] ==> !call.Charged?
    ensures ServiceOf(Totals(params, slice0, d, calls, service), x)
         == ServiceOf(service, x) + if d.running == Some(x) then calls[0].cpu else 0.0
  {
    hide Do, Allowed;
    NoTotals(params, slice0, Do(Table(params), slice0, d, calls[0]), calls[1..], Served(d, calls[0], service));
  }

  lemma {:induction false} NoTotals(params: Params, slice0: real, d: Lane<Sched>, calls: seq<Call>, service: Service)
    requires params.Valid() && Trace(Table(params), slice0, d, calls) && forall call :: call in calls ==> !call.Charged?
    ensures Totals(params, slice0, d, calls, service) == service
    decreases |calls|
  {
    hide Do, Allowed;
    if calls != [] {
      assert calls[0] in calls && forall call :: call in calls[1..] ==> call in calls;
      NoTotals(params, slice0, Do(Table(params), slice0, d, calls[0]), calls[1..], service);
    }
  }

  lemma SameService(params: Params, d: Lane<Sched>, roster: Roster, a: Service, b: Service)
    requires params.Valid() && Proportional(params, d, roster, a)
    requires forall x: TaskId :: ServiceOf(a, x) == ServiceOf(b, x)
    ensures Proportional(params, d, roster, b)
  {
    hide Scaled;
  }

  lemma StepStaysServiced(params: Params, cfg: Config, s: State<Sched>, i: nat, delta: real)
    requires params.Valid() && Inv(Table(params), cfg, s) && !cfg.shared && cfg.cores == 1 && Earliest(s.events, i)
    requires Serviced(params, s, delta) && delta >= 0.0 && StepAddsAtMost(params, cfg, s, i, delta)
    ensures Serviced(params, Step(Table(params), cfg, s, i), delta)
  {
    hide Lawful, Local, Places, Clock, Accounted, Timers, Step, Spread, Level, Opening, Slack,
      Trace, Alone, End, LastRoster, Phase, ChargesWithin, Table, Polite, Tidy, AloneStep, MoveCalls, CreditCovers,
      Proportional, Totals, Executed, Blank, StepAddsAtMost;
    var p, r := Table(params), Step(Table(params), cfg, s, i);
    TableIsLocal(params);
    StepStaysFair(params, cfg, s, i, delta);
    var m, calls := StepIsCalls(p, cfg, s, i, 0);
    StepPhase(params, cfg, s, i, m, calls, delta);
    LaneTidy(p, cfg, s);
    StepKeepsIds(p, cfg, s, i);
    StepChargesWithin(params, cfg, s, i, m, calls, delta);
    if Awaited(s) != {} {
      OpeningIsBlank(s);
    }
    TraceKeepsService(params, cfg.defaultSlice, View(s, 0), RosterOf(s), calls, s.tasks.Keys, delta, Executed(s));
    TotalsOfStep(params, cfg, s, i, m, calls);
    SameService(params, View(r, 0), RosterOf(r), Totals(params, cfg.defaultSlice, View(s, 0), calls, Executed(s)), Executed(r));
  }

  lemma TotalsOfStep(params: Params, cfg: Config, s: State<Sched>, i: nat, m: Move, calls: seq<Call>)
    requires params.Valid() && Inv(Table(params), cfg, s) && !cfg.shared && cfg.cores == 1 && Earliest(s.events, i)
    requires AloneStep(s, s.events[i], m) && (m.Arrive? ==> Polite(Table(params), s, m.id))
    requires calls == MoveCalls(Table(params), View(s, 0), m) && Trace(Table(params), cfg.defaultSlice, View(s, 0), calls)
    ensures var totals := Totals(params, cfg.defaultSlice, View(s, 0), calls, Executed(s));
            forall x: TaskId :: ServiceOf(totals, x) == ServiceOf(Executed(Step(Table(params), cfg, s, i)), x)
  {
    hide Lawful, Places, Clock, Accounted, Timers, Step, Trace, Table, MoveCalls, Totals, Done;
    var r := Step(Table(params), cfg, s, i);
    StepDone(Table(params), cfg, s, i, m);
    forall x: TaskId
      ensures ServiceOf(Totals(params, cfg.defaultSlice, View(s, 0), calls, Executed(s)), x) == ServiceOf(Executed(r), x)
    {
      TotalsOfMove(params, cfg.defaultSlice, View(s, 0), m, Executed(s), x);
    }
  }

  lemma {:induction false} RunStaysServiced(params: Params, cfg: Config, s: State<Sched>, choices: seq<nat>, stop: real, delta: real)
    requires params.Valid() && Inv(Table(params), cfg, s) && !cfg.shared && cfg.cores == 1 && delta >= 0.0
    requires Run(Table(params), cfg, s, choices, stop) && Serviced(params, s, delta)
    requires RunAddsAtMost(params, cfg, s, choices, stop, delta)
    ensures Serviced(params, After(Table(params), cfg, s, choices, stop), delta)
    decreases |choices|
  {
    hide Lawful, Places, Clock, Accounted, Timers, Step, Serviced, Table, StepAddsAtMost;
    if choices != [] {
      StepStaysServiced(params, cfg, s, choices[0], delta);
      StepKeeps(Table(params), cfg, s, choices[0]);
      RunStaysServiced(params, cfg, Step(Table(params), cfg, s, choices[0]), choices[1..], stop, delta);
    }
  }

  /** The fairness bound is within every job's credit. */
  ghost predicate CreditCoversJobs(params: Params, jobs: seq<Job>, delta: real)
    requires params.Valid()
  {
    forall i :: 0 <= i < |jobs| ==> delta + Slack(|jobs|) <= Credit(params, jobs[i].weight)
  }

  lemma InitialServiced(params: Params, cfg: Config, jobs: seq<Job>, delta: real)
    requires params.Valid() && cfg.Valid() && !cfg.shared && cfg.cores == 1 && ValidJobs(jobs) && AllAtZero(jobs)
    requires delta >= 0.0 && CreditCoversJobs(params, jobs, delta)
    ensures Serviced(params, Initial(cfg, Sched([], 0.0), jobs), delta)
  {
    hide Lawful, Slack, Credit, Fair, Inv;
    var s := Initial(cfg, Sched([], 0.0), jobs);
    InitialFair(params, cfg, jobs, delta);
    TableIsLawful(params);
    InitialInv(Table(params), cfg, Sched([], 0.0), jobs);
    LanesStart(cfg, Sched([], 0.0), jobs, 0);
    InitialWeights(cfg, jobs);
    SlackGrows(|s.tasks.Keys|, |jobs|);
    forall x: TaskId | x in s.tasks.Keys
      ensures delta + Slack(|s.tasks.Keys|) <= Credit(params, AttrOf(s.attrs, x).weight)
    {
      var i :| 0 <= i < |jobs| && jobs[i].id == x;
    }
    NobodyActive(params, s);
  }

  lemma NobodyActive(params: Params, s: State<Sched>)
    requires params.Valid() && 0 < |s.scheds| && 0 < |s.cores|
    requires View(s, 0) == Lane(Sched([], 0.0), s.attrs, None, 0.0)
    ensures Proportional(params, View(s, 0), RosterOf(s), Executed(s))
  {
  }

  /** Proportional shares: on one core with all jobs submitted for time 0, if the fairness
      bound is within every job's credit, then in every reachable state an unfinished task's
      virtual runtime is exactly its executed time over its weight, and the executed times
      over weights of any two differ by at most the bound. */
  lemma SharesAreProportionalInRuns(params: Params, cfg: Config, jobs: seq<Job>, choices: seq<nat>, stop: real,
                                    s: State<Sched>, delta: real, x: TaskId, y: TaskId)
    requires params.Valid() && !cfg.shared && cfg.cores == 1 && AllAtZero(jobs)
    requires delta >= 0.0 && CreditCoversJobs(params, jobs, delta)
    requires Reached(Table(params), cfg, Sched([], 0.0), jobs, choices, stop, s)
    requires RunAddsAtMost(params, cfg, Initial(cfg, Sched([], 0.0), jobs), choices, stop, delta)
    requires x in s.place && (s.place[x].Queued? || s.place[x].OnCore?) && x in s.tasks
    requires y in s.place && (s.place[y].Queued? || s.place[y].OnCore?) && y in s.tasks
    ensures var wx, wy := AttrOf(s.attrs, x).weight as real, AttrOf(s.attrs, y).weight as real;
            && Vruntime(s.attrs, x) == Scaled(s.tasks[x].execution - s.tasks[x].remaining, wx)
            && Scaled(s.tasks[x].execution - s.tasks[x].remaining, wx)
               <= Scaled(s.tasks[y].execution - s.tasks[y].remaining, wy) + delta + Slack(|jobs|)
  {
    hide Lawful, Inv, Slack, Scaled, Table, Level, Opening, CreditCoversJobs, RunAddsAtMost,
      Run, After, Fair, CreditCovers, Initial;
    var s0 := Initial(cfg, Sched([], 0.0), jobs);
    InitialServiced(params, cfg, jobs, delta);
    InitialInv(Table(params), cfg, Sched([], 0.0), jobs);
    RunStaysServiced(params, cfg, s0, choices, stop, delta);
    ReachedInv(Table(params), cfg, Sched([], 0.0), jobs, choices, stop, s);
    UnfinishedIsActive(Table(params), cfg, s, x);
    UnfinishedIsActive(Table(params), cfg, s, y);
    VruntimesStayNearInRuns(params, cfg, jobs, choices, stop, s, delta, x, y);
  }

  // ------------------------------------------------ what a run can charge

  /** The longest slice of every job, as virtual runtime. */
  ghost predicate CoversJobs(params: Params, jobs: seq<Job>, delta: real)
    requires params.Valid()
  {
    delta >= 0.0 && forall i :: 0 <= i < |jobs| ==> Scaled(SliceLimit(params, |jobs|), jobs[i].weight as real) <= delta
  }

  /** The running slice is within the limit, and delta covers the limit for every task. */
  ghost predicate Bounded(params: Params, s: State<Sched>, delta: real)
    requires params.Valid()
  {
    && 0 < |s.scheds| && 0 < |s.cores|
    && Limited(params, View(s, 0), |s.tasks.Keys|) && Covers(params, s.attrs, s.tasks.Keys, delta)
  }

  /** A move charges no more than the running slice. */
  lemma MoveUse(params: Params, cfg: Config, s: State<Sched>, r: State<Sched>, m: Move)
    requires params.Valid() && IsMove(Table(params), cfg, s, r, 0, m) && Sound(Table(params), View(s, 0))
    requires s.cores[0].running.Some?
    ensures r.cores[0].busy - s.cores[0].busy <= s.cores[0].granted
  {
    hide Lawful, Next, Charges;
  }

  /** A step charges no more than the running slice. */
  lemma BoundedStep(params: Params, cfg: Config, s: State<Sched>, i: nat, delta: real)
    requires params.Valid() && Inv(Table(params), cfg, s) && !cfg.shared && cfg.cores == 1 && Earliest(s.events, i)
    requires Bounded(params, s, delta)
    ensures Bounded(params, Step(Table(params), cfg, s, i), delta) && StepAddsAtMost(params, cfg, s, i, delta)
  {
    hide Lawful, Local, Places, Clock, Accounted, Timers, Step, Limited, Covers, Trace, Alone, End, LastRoster, Table,
      Tidy, AloneStep, MoveCalls, Scaled, SliceLimit, IsMove, Sound;
    var p, r := Table(params), Step(Table(params), cfg, s, i);
    TableIsLocal(params);
    var m, calls := StepIsCalls(p, cfg, s, i, 0);
    LaneTidy(p, cfg, s);
    StepKeepsIds(p, cfg, s, i);
    TraceIsLimited(params, cfg.defaultSlice, View(s, 0), RosterOf(s), calls, s.tasks.Keys, delta);
    if s.cores[0].running.Some? {
      LaneSound(p, cfg, s, 0);
      RunningIsKnown(p, cfg, s);
      MoveUse(params, cfg, s, r, m);
      CoveredUse(params, cfg, s, r.cores[0].busy - s.cores[0].busy, delta);
    }
  }

  lemma CoveredUse(params: Params, cfg: Config, s: State<Sched>, used: real, delta: real)
    requires params.Valid() && Bounded(params, s, delta) && s.cores[0].running.Some? && used <= s.cores[0].granted
    requires s.cores[0].running.value in s.tasks
    ensures Scaled(used, AttrOf(s.attrs, s.cores[0].running.value).weight as real) <= delta
  {
    hide Scaled, SliceLimit;
    ScaledGrows(used, SliceLimit(params, |s.tasks.Keys|), AttrOf(s.attrs, s.cores[0].running.value).weight as real);
  }

  lemma RunningIsKnown(p: Policy<Sched>, cfg: Config, s: State<Sched>)
    requires Shape(p, cfg, s) && s.cores[0].running.Some?
    ensures s.cores[0].running.value in s.tasks
  {
  }

  lemma {:induction false} BoundedRun(params: Params, cfg: Config, s: State<Sched>, choices: seq<nat>, stop: real, delta: real)
    requires params.Valid() && Inv(Table(params), cfg, s) && !cfg.shared && cfg.cores == 1
    requires Run(Table(params), cfg, s, choices, stop) && Bounded(params, s, delta)
    ensures RunAddsAtMost(params, cfg, s, choices, stop, delta)
    decreases |choices|
  {
    hide Lawful, Places, Clock, Accounted, Timers, Step, Bounded, Table, StepAddsAtMost;
    if choices != [] {
      BoundedStep(params, cfg, s, choices[0], delta);
      StepKeeps(Table(params), cfg, s, choices[0]);
      BoundedRun(params, cfg, Step(Table(params), cfg, s, choices[0]), choices[1..], stop, delta);
    }
  }

  lemma InitialBounded(params: Params, cfg: Config, jobs: seq<Job>, delta: real)
    requires params.Valid() && cfg.Valid() && !cfg.shared && cfg.cores == 1 && ValidJobs(jobs) && CoversJobs(params, jobs, delta)
    ensures Bounded(params, Initial(cfg, Sched([], 0.0), jobs), delta)
  {
    hide SliceLimit, Scaled, Limited, Initial;
    var s := Initial(cfg, Sched([], 0.0), jobs);
    InitialFacts(cfg, Sched([], 0.0), jobs);
    LanesStart(cfg, Sched([], 0.0), jobs, 0);
    FreshLimited(params, s.attrs, |s.tasks.Keys|);
    InitialWeights(cfg, jobs);
    SliceLimitGrows(params, |s.tasks.Keys|, |jobs|);
    forall x | x in s.tasks.Keys
      ensures Scaled(SliceLimit(params, |s.tasks.Keys|), AttrOf(s.attrs, x).weight as real) <= delta
    {
      var i :| 0 <= i < |jobs| && jobs[i].id == x;
      ScaledGrows(SliceLimit(params, |s.tasks.Keys|), SliceLimit(params, |jobs|), AttrOf(s.attrs, x).weight as real);
    }
  }

  /** What the jobs and the parameters alone say about the largest charge: half a period, or
      the granularity, at the weight of the lightest job. */
  lemma JobsBoundCharges(params: Params, cfg: Config, jobs: seq<Job>, choices: seq<nat>, stop: real, s: State<Sched>, delta: real)
    requires params.Valid() && !cfg.shared && cfg.cores == 1 && CoversJobs(params, jobs, delta)
    requires Reached(Table(params), cfg, Sched([], 0.0), jobs, choices, stop, s)
    ensures RunAddsAtMost(params, cfg, Initial(cfg, Sched([], 0.0), jobs), choices, stop, delta)
  {
    hide Lawful, Run, After, Table, Inv, RunAddsAtMost, Bounded, CoversJobs, Initial;
    InitialBounded(params, cfg, jobs, delta);
    InitialInv(Table(params), cfg, Sched([], 0.0), jobs);
    BoundedRun(params, cfg, Initial(cfg, Sched([], 0.0), jobs), choices, stop, delta);
  }

  /** Equal weights: the granularity of every job fits in the latency, twice at least, and the
      tolerance in half the credit. */
  predicate EqualWeights(params: Params, jobs: seq<Job>, weight: Weight)
    requires params.Valid()
  {
    && (forall i :: 0 <= i < |jobs| ==> jobs[i].weight == weight)
    && Stretched(params, |jobs|) <= params.latency && 2.0 * params.minGranularity <= params.latency
    && Slack(|jobs|) <= Scaled(params.latency / 2.0, weight as real)
  }

  /** Then half the latency covers every charge and is within every credit. */
  lemma EqualWeightsQualify(params: Params, jobs: seq<Job>, weight: Weight)
    requires params.Valid() && EqualWeights(params, jobs, weight)
    ensures CoversJobs(params, jobs, Scaled(params.latency / 2.0, weight as real))
    ensures CreditCoversJobs(params, jobs, Scaled(params.latency / 2.0, weight as real))
  {
    hide Slack, Scaled, Stretched;
    ScaledAdds(params.latency / 2.0, params.latency / 2.0, weight as real);
    assert params.latency / 2.0 + params.latency / 2.0 == params.latency;
    assert SliceLimit(params, |jobs|) == params.latency / 2.0;
  }

  /** Equal shares: with equal weights, as many jobs as the latency has room for, all
      submitted for time 0 to one core, in every reachable state the virtual runtime of an
      unfinished task is its scaled executed time, and these differ by at most half a latency
      and the tolerance. */
  lemma EqualWeightsShareInRuns(params: Params, cfg: Config, jobs: seq<Job>, choices: seq<nat>, stop: real,
                                s: State<Sched>, weight: Weight, x: TaskId, y: TaskId)
    requires params.Valid() && !cfg.shared && cfg.cores == 1 && AllAtZero(jobs) && EqualWeights(params, jobs, weight)
    requires Reached(Table(params), cfg, Sched([], 0.0), jobs, choices, stop, s)
    requires x in s.place && (s.place[x].Queued? || s.place[x].OnCore?) && x in s.tasks
    requires y in s.place && (s.place[y].Queued? || s.place[y].OnCore?) && y in s.tasks
    ensures var wx, wy := AttrOf(s.attrs, x).weight as real, AttrOf(s.attrs, y).weight as real;
            && Vruntime(s.attrs, x) == Scaled(s.tasks[x].execution - s.tasks[x].remaining, wx)
            && Scaled(s.tasks[x].execution - s.tasks[x].remaining, wx)
               <= Scaled(s.tasks[y].execution - s.tasks[y].remaining, wy)
                  + Scaled(params.latency / 2.0, weight as real) + Slack(|jobs|)
  {
    hide Lawful, Reached, Table, Slack, Scaled, CoversJobs, CreditCoversJobs, RunAddsAtMost, EqualWeights;
    var delta := Scaled(params.latency / 2.0, weight as real);
    EqualWeightsQualify(params, jobs, weight);
    JobsBoundCharges(params, cfg, jobs, choices, stop, s, delta);
    SharesAreProportionalInRuns(params, cfg, jobs, choices, stop, s, delta, x, y);
  }
}

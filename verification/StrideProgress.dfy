/** No task waits forever under stride scheduling: the tasks that can still run ahead of a
    waiting one have only a fixed lead in pass to use up. */
module StrideProgress {
  import opened Common
  import opened Tasks
  import opened Policies
  import opened Lanes
  import opened Stride

  /** A task still to arrive will start at the global pass. */
  function EntryPass(attrs: Attrs, s: Sched, awaited: set<TaskId>, x: TaskId): nat {
    if x in awaited then s.globalPass else Pass(attrs, x)
  }

  /** How many slices x could be given before its pass exceeds that of w, at 1 per slice. */
  function Lead(attrs: Attrs, s: Sched, awaited: set<TaskId>, w: TaskId, x: TaskId): nat {
    var entry := EntryPass(attrs, s, awaited, x);
    if x == w || Pass(attrs, w) < entry then 0 else Pass(attrs, w) - entry + 1
  }

  function Leads(attrs: Attrs, s: Sched, awaited: set<TaskId>, w: TaskId, ids: seq<TaskId>): nat {
    if ids == [] then 0
    else Leads(attrs, s, awaited, w, ids[..|ids| - 1]) + Lead(attrs, s, awaited, w, ids[|ids| - 1])
  }

  /** The leads of all tasks, and the running slice if its task is not ahead of w. */
  function Budget(d: Lane<Sched>, roster: Roster, w: TaskId, ids: seq<TaskId>): nat {
    Leads(d.attrs, d.sched, roster.awaited, w, ids)
    + if d.running.Some? && Pass(d.attrs, d.running.value) > Pass(d.attrs, w) then 1 else 0
  }

  /** If no lead grows the sum does not, and it falls if one lead, of a task listed, does. */
  lemma {:induction false} LeadsFall(a: Lane<Sched>, ra: Roster, b: Lane<Sched>, rb: Roster, w: TaskId, ids: seq<TaskId>, r: TaskId)
    requires forall x :: x in ids ==>
               Lead(b.attrs, b.sched, rb.awaited, w, x) <= Lead(a.attrs, a.sched, ra.awaited, w, x)
    ensures Leads(b.attrs, b.sched, rb.awaited, w, ids) <= Leads(a.attrs, a.sched, ra.awaited, w, ids)
    ensures r in ids && Lead(b.attrs, b.sched, rb.awaited, w, r) < Lead(a.attrs, a.sched, ra.awaited, w, r) ==>
              Leads(b.attrs, b.sched, rb.awaited, w, ids) < Leads(a.attrs, a.sched, ra.awaited, w, ids)
  {
    if ids != [] {
      var n := |ids| - 1;
      assert ids == ids[..n] + [ids[n]];
      LeadsFall(a, ra, b, rb, w, ids[..n], r);
    }
  }

  /** Each call keeps the budget, and a charge spends at least 1 of it. */
  lemma CallSpends(params: Params, slice0: real, d: Lane<Sched>, roster: Roster, call: Call, w: TaskId, ids: seq<TaskId>)
    requires params.Valid() && slice0 > 0.0 && Tidy(Table(params), d, roster, Members(ids))
    requires Allowed(Table(params), d, call) && Expected(d, roster, call)
    requires w in d.sched.queue && w in Do(Table(params), slice0, d, call).sched.queue
    ensures Budget(Do(Table(params), slice0, d, call), Follow(d, roster, call), w, ids)
            + (if call.Charged? then 1 else 0) <= Budget(d, roster, w, ids)
  {
    hide Lawful, Add, Charge, Advance;
    var p := Table(params);
    var d', roster' := Do(p, slice0, d, call), Follow(d, roster, call);
    assert Active(p, d, roster, w);
    match call
    case Added(id, unstarted) =>
      AddFacts(params, d.sched, d.attrs, id, unstarted);
      LeadsFall(d, roster, d', roster', w, ids, w);
    case Charged(cpu) =>
      var r := d.running.value;
      ChargeFacts(params, d.sched, d.attrs, r, cpu);
      assert Active(p, d, roster, r);
      LeadsFall(d, roster, d', roster', w, ids, r);
    case Picked =>
      ChoosesLeastPass(params, d.sched, d.attrs, w);
      LeadsFall(d, roster, d', roster', w, ids, w);
    case Apart(lost, attrs) =>
      LeadsFall(d, roster, d', roster', w, ids, w);
  }

  /** While a task waits on a core alone, the slices charged are covered by the budget. */
  lemma {:induction false} SlicesAreBounded(params: Params, slice0: real, d: Lane<Sched>, roster: Roster,
                                            calls: seq<Call>, w: TaskId, ids: seq<TaskId>)
    requires params.Valid() && slice0 > 0.0 && Tidy(Table(params), d, roster, Members(ids))
    requires Trace(Table(params), slice0, d, calls) && Alone(Table(params), slice0, d, roster, calls)
    requires Waits(Table(params), slice0, d, calls, w)
    ensures Slices(calls)
            + Budget(End(Table(params), slice0, d, calls), LastRoster(Table(params), slice0, d, roster, calls), w, ids)
         <= Budget(d, roster, w, ids)
    decreases |calls|
  {
    hide Allowed, Do, Expected, Follow, Tidy, Budget;
    if calls != [] {
      var p := Table(params);
      var d', roster' := Do(p, slice0, d, calls[0]), Follow(d, roster, calls[0]);
      DoTidy(p, slice0, d, roster, calls[0], Members(ids));
      assert w in p.ready(d'.sched);
      CallSpends(params, slice0, d, roster, calls[0], w, ids);
      SlicesAreBounded(params, slice0, d', roster', calls[1..], w, ids);
    }
  }

  // ------------------------------------------------ every slice is one quantum

  predicate Granted(params: Params, d: Lane<Sched>) {
    d.running.Some? ==> d.granted == params.quantum
  }

  lemma CallGrants(params: Params, slice0: real, d: Lane<Sched>, call: Call)
    requires params.Valid() && Granted(params, d) && Allowed(Table(params), d, call)
    ensures Granted(params, Do(Table(params), slice0, d, call))
    ensures call.Charged? ==> call.cpu <= params.quantum
  {
  }

  lemma OneMore(quantum: real, n: nat)
    ensures quantum * (n + 1) as real == quantum + quantum * n as real
  {
  }

  lemma {:induction false} TraceGrants(params: Params, slice0: real, d: Lane<Sched>, calls: seq<Call>)
    requires params.Valid() && Granted(params, d) && Trace(Table(params), slice0, d, calls)
    ensures Granted(params, End(Table(params), slice0, d, calls))
    ensures Used(calls) <= params.quantum * Slices(calls) as real
    decreases |calls|
  {
    hide Allowed, Do, Granted, Table;
    if calls != [] {
      CallGrants(params, slice0, d, calls[0]);
      TraceGrants(params, slice0, Do(Table(params), slice0, d, calls[0]), calls[1..]);
      OneMore(params.quantum, Slices(calls[1..]));
    }
  }

  lemma WaitInLane(params: Params, slice0: real, d: Lane<Sched>, roster: Roster, calls: seq<Call>, w: TaskId, ids: seq<TaskId>)
    requires params.Valid() && slice0 > 0.0 && Tidy(Table(params), d, roster, Members(ids))
    requires Granted(params, d)
    requires Trace(Table(params), slice0, d, calls) && Alone(Table(params), slice0, d, roster, calls)
    requires Waits(Table(params), slice0, d, calls, w)
    ensures Used(calls) <= params.quantum * (Leads(d.attrs, d.sched, roster.awaited, w, ids) + 1) as real
  {
    hide Tidy, Table, Trace, Alone, Waits, Leads, Slices, Used, End, LastRoster;
    TraceGrants(params, slice0, d, calls);
    SlicesAreBounded(params, slice0, d, roster, calls, w, ids);
    MoreSlices(params.quantum, Slices(calls), Leads(d.attrs, d.sched, roster.awaited, w, ids) + 1);
  }

  lemma MoreSlices(quantum: real, a: nat, b: nat)
    requires a <= b && quantum > 0.0
    ensures quantum * a as real <= quantum * b as real
  {
  }

  // ------------------------------------------------ the global pass

  /** The global pass is at most the pass of every ready task. */
  ghost predicate Behind(d: Lane<Sched>) {
    forall x :: x in d.sched.queue ==> d.sched.globalPass <= Pass(d.attrs, x)
  }

  lemma CallKeepsBehind(params: Params, slice0: real, d: Lane<Sched>, call: Call)
    requires params.Valid() && slice0 > 0.0 && Sound(Table(params), d) && Behind(d) && Allowed(Table(params), d, call)
    ensures Behind(Do(Table(params), slice0, d, call))
  {
    hide Lawful, Add, Charge, Advance, MinPass;
    match call
    case Added(id, unstarted) =>
      AddFacts(params, d.sched, d.attrs, id, unstarted);
    case Charged(cpu) =>
      ChargeFacts(params, d.sched, d.attrs, d.running.value, cpu);
      if d.sched.queue != [] {
        MinPassLeast(Charge(params, d.sched, d.attrs, d.running.value, cpu).1, d.sched.queue);
      }
    case Picked =>
    case Apart(lost, attrs) =>
      forall x | x in d.sched.queue && lost != Some(x)
        ensures Pass(attrs, x) == Pass(d.attrs, x)
      {
        assert x in Table(params).ready(d.sched) && SameAttr(d.attrs, attrs, x);
      }
  }

  lemma {:induction false} TraceKeepsBehind(params: Params, slice0: real, d: Lane<Sched>, calls: seq<Call>)
    requires params.Valid() && slice0 > 0.0 && Sound(Table(params), d) && Behind(d)
    requires Trace(Table(params), slice0, d, calls)
    ensures Behind(End(Table(params), slice0, d, calls))
    decreases |calls|
  {
    hide Allowed, Do, Sound, Behind;
    if calls != [] {
      DoSound(Table(params), slice0, d, calls[0]);
      CallKeepsBehind(params, slice0, d, calls[0]);
      TraceKeepsBehind(params, slice0, Do(Table(params), slice0, d, calls[0]), calls[1..]);
    }
  }
}

/** Stride scheduling inside the per-core engine. */
module StrideRuns {
  import opened Common
  import opened Tasks
  import opened Policies
  import opened Lanes
  import opened Stride
  import opened StrideProgress
  import opened Engine
  import opened EngineInvariant
  import opened EngineRuns
  import opened EngineLanes
  import opened EngineOpening
  import opened EngineWork
  import opened EngineFields
  import opened EngineGrants
  import opened EngineCounters

  // ------------------------------------------------ strides, slices and switches

  function FieldsClaim(params: Params): Claim<Sched>
    requires params.Valid()
  {
    Claim((a: Attr) => IsStride(params, a.weight, a.stride), (_: Sched, _: TaskId, a: Attr) => true)
  }

  lemma TableKeepsClaim(params: Params)
    requires params.Valid()
    ensures Preserves(Table(params), FieldsClaim(params))
  {
    hide Add, Stride.Charge, IsStride, StrideFor;
    var p, k := Table(params), FieldsClaim(params);
    forall s: Sched, attrs, id, unstarted
      ensures AddPreserves(p, k, s, attrs, id, unstarted)
    {
      AddFacts(params, s, attrs, id, unstarted);
      StrideMeans(params, AttrOf(attrs, id).weight);
    }
    forall s: Sched, attrs, id, cpu
      ensures ChargePreserves(p, k, s, attrs, id, cpu)
    {
      ChargeFacts(params, s, attrs, id, cpu);
    }
  }

  /** In every reachable state of either engine the stride of every arrived task is the
      constant over its weight, rounded down, at least 1. */
  lemma StridesFitInRuns(params: Params, cfg: Config, jobs: seq<Job>, choices: seq<nat>, stop: real, s: State<Sched>, id: TaskId)
    requires params.Valid() && Reached(Table(params), cfg, Sched([], 0), jobs, choices, stop, s)
    requires id in s.place && s.place[id] != Pending
    ensures var a := AttrOf(s.attrs, id);
            if a.weight <= params.constant then params.constant - a.weight < a.stride * a.weight <= params.constant
            else a.stride == 1
  {
    hide Lawful, Local, Preserves;
    TableIsLocal(params);
    TableKeepsClaim(params);
    FieldsAlwaysFit(Table(params), cfg, Sched([], 0), jobs, choices, stop, s, FieldsClaim(params));
    assert FieldsClaim(params).fit(AttrOf(s.attrs, id));
  }

  /** In every reachable state of either engine every busy core was granted the quantum, and
      no arrival has displaced anybody: a context switch is a dispatch. */
  lemma QuantaInRuns(params: Params, cfg: Config, jobs: seq<Job>, choices: seq<nat>, stop: real, s: State<Sched>, c: nat)
    requires params.Valid() && Reached(Table(params), cfg, Sched([], 0), jobs, choices, stop, s)
    requires c < cfg.cores && c < |s.cores|
    ensures s.cores[c].running.Some? ==> s.cores[c].granted == params.quantum
    ensures s.switches == s.preemptions + |s.completed| + BusyCores(s.cores, |s.cores|)
  {
    hide Lawful, Local, Reached;
    TableIsLocal(params);
    SwitchesAddUp(Table(params), cfg, Sched([], 0), jobs, choices, stop, s);
    if s.cores[c].running.Some? {
      var x, attrs := SlicesAreGranted(Table(params), cfg, Sched([], 0), jobs, choices, stop, s, c);
    }
  }

  // ------------------------------------------------ the global pass

  /** In every reachable state, through stealing and stale timers, each core's global pass
      is at most the pass of every task in its queue. */
  lemma GlobalPassIsLeast(params: Params, cfg: Config, jobs: seq<Job>, choices: seq<nat>, stop: real,
                          s: State<Sched>, c: nat, x: TaskId)
    requires params.Valid()
    requires Reached(Table(params), cfg, Sched([], 0), jobs, choices, stop, s) && !cfg.shared && c < cfg.cores
    requires x in s.scheds[c].queue
    ensures s.scheds[c].globalPass <= Pass(s.attrs, x)
  {
    hide Lawful, Local;
    TableIsLocal(params);
    var d, calls := ReachedLane(Table(params), cfg, Sched([], 0), jobs, choices, stop, s, c);
    TraceKeepsBehind(params, cfg.defaultSlice, d, calls);
  }

  lemma AlwaysPolite(params: Params, s: State<Sched>, id: TaskId)
    requires params.Valid() && 0 < |s.scheds| && 0 < |s.cores|
    ensures Polite(Table(params), s, id)
  {
  }

  /** The calls of a timer's move charge one slice, and those of other moves none. */
  lemma MoveSlices(params: Params, d: Lane<Sched>, m: Move)
    requires params.Valid() && (m.Timer? ==> m.stolen.None?)
    ensures Slices(MoveCalls(Table(params), d, m)) >= if m.Timer? then 1 else 0
  {
  }

  /** A step of a core on which w waits dispatches no more than the budget lost. */
  lemma StepSpends(params: Params, cfg: Config, s: State<Sched>, i: nat, w: TaskId, ids: seq<TaskId>)
    requires params.Valid() && Inv(Table(params), cfg, s) && !cfg.shared && cfg.cores == 1 && Earliest(s.events, i)
    requires 0 < |s.scheds| && 0 < |s.cores| && s.cores[0].running.Some?
    requires Tidy(Table(params), View(s, 0), RosterOf(s), Members(ids))
    requires w in Table(params).ready(s.scheds[0]) && w in Table(params).ready(Step(Table(params), cfg, s, i).scheds[0])
    ensures var r := Step(Table(params), cfg, s, i);
            && Tidy(Table(params), View(r, 0), RosterOf(r), Members(ids))
            && r.switches - s.switches + Budget(View(r, 0), RosterOf(r), w, ids) <= Budget(View(s, 0), RosterOf(s), w, ids)
  {
    hide Lawful, Local, Places, Clock, Accounted, Timers, Step, Tidy, Budget, Trace, Alone, Waits, End, LastRoster, AloneStep,
      Polite, MoveCalls, IsMove, Table;
    var p := Table(params);
    TableIsLocal(params);
    var m, calls := StepIsCalls(p, cfg, s, i, 0);
    SlicesAreBounded(params, cfg.defaultSlice, View(s, 0), RosterOf(s), calls, w, ids);
    TraceKeepsTidy(p, cfg.defaultSlice, View(s, 0), RosterOf(s), calls, Members(ids));
    OneMove(s, s.events[i], m);
    MoveSlices(params, View(s, 0), m);
    AlwaysPolite(params, s, if m.Arrive? then m.id else 0);
    StepSwitches(p, cfg, s, i, m);
  }

  lemma OneMove(s: State<Sched>, e: Event, m: Move)
    requires AloneStep(s, e, m)
    ensures m.Timer? ==> m.stolen.None?
  {
  }

  lemma {:induction false} RunSpends(params: Params, cfg: Config, jobs: seq<Job>, before: seq<nat>, stop: real, s: State<Sched>,
                                     choices: seq<nat>, w: TaskId, ids: seq<TaskId>)
    requires params.Valid() && !cfg.shared && cfg.cores == 1
    requires Reached(Table(params), cfg, Sched([], 0), jobs, before, stop, s) && 0 < |s.scheds| && 0 < |s.cores|
    requires Shape(Table(params), cfg, s)
    requires Run(Table(params), cfg, s, choices, stop) && WaitsOn(Table(params), cfg, s, choices, stop, 0, w)
    requires Tidy(Table(params), View(s, 0), RosterOf(s), Members(ids))
    ensures var r := After(Table(params), cfg, s, choices, stop);
            r.switches - s.switches <= Budget(View(s, 0), RosterOf(s), w, ids)
    decreases |choices|
  {
    hide Lawful, InvBut, Step, Tidy, Budget, Reached, Table;
    if choices != [] {
      var p, u := Table(params), Step(Table(params), cfg, s, choices[0]);
      ReachedInv(p, cfg, Sched([], 0), jobs, before, stop, s);
      ReachedStep(p, cfg, Sched([], 0), jobs, before, stop, s, choices[0]);
      BusyBesideWork(params, cfg, jobs, before, stop, s, w);
      StepSpends(params, cfg, s, choices[0], w, ids);
      RunSpends(params, cfg, jobs, before + [choices[0]], stop, u, choices[1..], w, ids);
    }
  }

  lemma BusyBesideWork(params: Params, cfg: Config, jobs: seq<Job>, before: seq<nat>, stop: real, s: State<Sched>, w: TaskId)
    requires params.Valid() && !cfg.shared && cfg.cores == 1 && 0 < |s.scheds| && 0 < |s.cores|
    requires Reached(Table(params), cfg, Sched([], 0), jobs, before, stop, s) && w in Table(params).ready(s.scheds[0])
    ensures s.cores[0].running.Some?
  {
    hide Reached, Table;
    if s.cores[0].running.None? {
      NeverIdleWithWork(Table(params), cfg, Sched([], 0), jobs, before, stop, s, 0);
    }
  }

  /** Progress on one core: while task w waits, whatever arrives, at most one task is
      dispatched for each step of pass by which the unfinished others may still precede it, and
      one for the slice already running; and the CPU time charged is at most a quantum each. */
  lemma WaitIsBounded(params: Params, cfg: Config, jobs: seq<Job>, before: seq<nat>, stop: real, s: State<Sched>,
                      choices: seq<nat>, w: TaskId)
    requires params.Valid() && !cfg.shared && cfg.cores == 1
    requires Reached(Table(params), cfg, Sched([], 0), jobs, before, stop, s)
    requires Run(Table(params), cfg, s, choices, stop) && WaitsOn(Table(params), cfg, s, choices, stop, 0, w)
    ensures var r, steps := After(Table(params), cfg, s, choices, stop), Leads(s.attrs, s.scheds[0], Awaited(s), w, Unfinished(s, Ids(jobs))) + 1;
            && r.switches - s.switches <= steps
            && r.cores[0].busy - s.cores[0].busy <= params.quantum * steps as real
  {
    hide Lawful, Local, Inv, InvBut, Trace, End, Alone, Waits, Leads, Table, Run, WaitsOn, After, Tidy;
    var p, ids := Table(params), Unfinished(s, Ids(jobs));
    TableIsLocal(params);
    ReachedInv(p, cfg, Sched([], 0), jobs, before, stop, s);
    ReachedGrants(params, cfg, jobs, before, stop, s);
    UnfinishedTidy(p, cfg, Sched([], 0), jobs, before, stop, s);
    RunSpends(params, cfg, jobs, before, stop, s, choices, w, ids);
    var calls := RunIsTrace(p, cfg, s, choices, stop, 0);
    WaitInLane(params, cfg.defaultSlice, View(s, 0), Roster(Awaited(s), None), calls, w, ids);
  }

  lemma ReachedGrants(params: Params, cfg: Config, jobs: seq<Job>, before: seq<nat>, stop: real, s: State<Sched>)
    requires params.Valid() && !cfg.shared && cfg.cores == 1
    requires Reached(Table(params), cfg, Sched([], 0), jobs, before, stop, s)
    ensures 0 < |s.cores| && 0 < |s.scheds| && StrideProgress.Granted(params, View(s, 0))
  {
    hide Lawful, Local;
    TableIsLocal(params);
    var d, past := ReachedLane(Table(params), cfg, Sched([], 0), jobs, before, stop, s, 0);
    TraceGrants(params, cfg.defaultSlice, d, past);
  }
}

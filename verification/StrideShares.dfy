/** Fairness of stride scheduling along the runs of an engine with one core and all jobs
    submitted for time 0. */
module StrideShares {
  import opened Common
  import opened Tasks
  import opened Policies
  import opened Lanes
  import opened Stride
  import opened StrideFairness
  import opened Engine
  import opened EngineInvariant
  import opened EngineRuns
  import opened EngineHistory
  import opened EngineLanes
  import opened EngineOpening

  /** What holds along such runs: passes near each other, one live timer, and as long as
      tasks are awaited, nobody charged. */
  ghost predicate Even(params: Params, s: State<Sched>)
    requires params.Valid()
  {
    && 0 < |s.scheds| && 0 < |s.cores| && OneTimer(s)
    && Spread(params, View(s, 0), RosterOf(s))
    && (Awaited(s) != {} ==> Opening(s) && Level(params, View(s, 0), RosterOf(s)))
  }

  lemma AlwaysPolite(params: Params, s: State<Sched>, id: TaskId)
    requires params.Valid() && 0 < |s.scheds| && 0 < |s.cores|
    ensures Polite(Table(params), s, id)
  {
  }

  lemma {:induction false} TraceKeepsLevel(params: Params, slice0: real, d: Lane<Sched>, roster: Roster, calls: seq<Call>)
    requires params.Valid() && slice0 > 0.0 && Sound(Table(params), d) && Level(params, d, roster)
    requires Trace(Table(params), slice0, d, calls) && Alone(Table(params), slice0, d, roster, calls)
    requires forall call :: call in calls ==> !call.Charged?
    ensures Level(params, End(Table(params), slice0, d, calls), LastRoster(Table(params), slice0, d, roster, calls))
    decreases |calls|
  {
    hide Sound, Level, Expected, Follow, Allowed, Do;
    if calls != [] {
      assert calls[0] in calls && forall call :: call in calls[1..] ==> call in calls;
      CallKeepsLevel(params, slice0, d, roster, calls[0]);
      DoSound(Table(params), slice0, d, calls[0]);
      TraceKeepsLevel(params, slice0, Do(Table(params), slice0, d, calls[0]), Follow(d, roster, calls[0]), calls[1..]);
    }
  }

  /** The phase of the calls of one step. */
  lemma StepPhase(params: Params, cfg: Config, s: State<Sched>, i: nat, m: Move, calls: seq<Call>)
    requires params.Valid() && Inv(Table(params), cfg, s) && !cfg.shared && cfg.cores == 1 && Earliest(s.events, i)
    requires Even(params, s) && AloneStep(s, s.events[i], m)
    requires calls == MoveCalls(Table(params), View(s, 0), m)
    requires Trace(Table(params), cfg.defaultSlice, View(s, 0), calls)
    requires Alone(Table(params), cfg.defaultSlice, View(s, 0), RosterOf(s), calls)
    ensures Phase(params, View(s, 0), RosterOf(s), calls)
    ensures Awaited(s) != {} ==> m.Arrive? && s.events[i].time == 0.0
    ensures Awaited(s) != {} ==> forall call :: call in calls ==> !call.Charged?
    ensures Awaited(s) == {} ==> NoArrivals(calls)
  {
    hide Lawful, Places, Clock, Accounted, Timers, Spread, Level, Opening, OwnCharge, OneTimer;
    if Awaited(s) == {} {
      AloneMeansNoArrivals(Table(params), cfg.defaultSlice, View(s, 0), RosterOf(s), calls);
    } else {
      ArrivalsFirst(Table(params), cfg, s, i);
      AlwaysPolite(params, s, m.id);
      PoliteMove(Table(params), s, m);
      assert calls == calls + [];
      PunctualAfter(calls, []);
    }
  }

  lemma StepStaysEven(params: Params, cfg: Config, s: State<Sched>, i: nat)
    requires params.Valid() && Inv(Table(params), cfg, s) && !cfg.shared && cfg.cores == 1 && Earliest(s.events, i)
    requires Even(params, s)
    ensures Even(params, Step(Table(params), cfg, s, i))
  {
    hide Lawful, Local, Places, Clock, Accounted, Timers, Step, Spread, Level, Opening, OneTimer,
      Trace, Alone, End, LastRoster, Phase, Table, Polite, Tidy, AloneStep, MoveCalls;
    var p := Table(params);
    TableIsLocal(params);
    var m, calls := StepIsCalls(p, cfg, s, i, 0);
    StepPhase(params, cfg, s, i, m, calls);
    LaneTidy(p, cfg, s);
    PassesStayNear(params, cfg.defaultSlice, View(s, 0), RosterOf(s), calls, s.tasks.Keys);
    AlwaysPolite(params, s, s.events[i].id);
    StepKeepsOneTimer(p, cfg, s, i);
    if Awaited(Step(p, cfg, s, i)) != {} {
      StillOpening(params, cfg, s, i, m, calls);
    }
  }

  lemma StillOpening(params: Params, cfg: Config, s: State<Sched>, i: nat, m: Move, calls: seq<Call>)
    requires params.Valid() && Inv(Table(params), cfg, s) && !cfg.shared && cfg.cores == 1 && Earliest(s.events, i)
    requires Awaited(Step(Table(params), cfg, s, i)) != {} && AloneStep(s, s.events[i], m)
    requires Awaited(s) != {} ==>
               && Opening(s) && Level(params, View(s, 0), RosterOf(s))
               && m.Arrive? && s.events[i].time == 0.0
               && forall call :: call in calls ==> !call.Charged?
    requires Projects(Table(params), cfg, s, Step(Table(params), cfg, s, i), 0, calls)
    ensures Opening(Step(Table(params), cfg, s, i))
    ensures Level(params, View(Step(Table(params), cfg, s, i), 0), RosterOf(Step(Table(params), cfg, s, i)))
  {
    hide Lawful, Local, Places, Clock, Accounted, Timers, Step, Level, Opening, Trace, Alone, End, LastRoster, Table, Polite,
      MoveCalls;
    StepAwaits(Table(params), cfg, s, i);
    AlwaysPolite(params, s, m.id);
    OpeningStep(Table(params), cfg, s, i);
    LaneSound(Table(params), cfg, s, 0);
    TraceKeepsLevel(params, cfg.defaultSlice, View(s, 0), RosterOf(s), calls);
  }

  lemma InitialEven(params: Params, cfg: Config, jobs: seq<Job>)
    requires params.Valid() && cfg.Valid() && !cfg.shared && cfg.cores == 1 && ValidJobs(jobs) && AllAtZero(jobs)
    ensures Even(params, Initial(cfg, Sched([], 0), jobs))
  {
    hide Lawful, Spread, Inv;
    var s := Initial(cfg, Sched([], 0), jobs);
    InitialOpens(cfg, Sched([], 0), jobs);
    InitialOneTimer(cfg, Sched([], 0), jobs);
    LanesStart(cfg, Sched([], 0), jobs, 0);
    FreshLevel(params, s);
    LevelIsSpread(params, View(s, 0), RosterOf(s));
  }

  lemma FreshLevel(params: Params, s: State<Sched>)
    requires params.Valid() && 0 < |s.scheds| && 0 < |s.cores|
    requires View(s, 0) == Lane(Sched([], 0), s.attrs, None, 0.0)
    ensures Level(params, View(s, 0), RosterOf(s))
  {
  }

  lemma {:induction false} RunStaysEven(params: Params, cfg: Config, s: State<Sched>, choices: seq<nat>, stop: real)
    requires params.Valid() && Inv(Table(params), cfg, s) && !cfg.shared && cfg.cores == 1
    requires Run(Table(params), cfg, s, choices, stop) && Even(params, s)
    ensures Even(params, After(Table(params), cfg, s, choices, stop))
    decreases |choices|
  {
    hide Lawful, Places, Clock, Accounted, Timers, Step, Even, Table;
    if choices != [] {
      StepStaysEven(params, cfg, s, choices[0]);
      StepKeeps(Table(params), cfg, s, choices[0]);
      RunStaysEven(params, cfg, Step(Table(params), cfg, s, choices[0]), choices[1..], stop);
    }
  }

  /** On one core with all jobs submitted for time 0, in every reachable state no unfinished
      task's pass is ahead of another's by more than its own stride, whatever the weights. */
  lemma PassesStayNearInRuns(params: Params, cfg: Config, jobs: seq<Job>, choices: seq<nat>, stop: real,
                             s: State<Sched>, x: TaskId, y: TaskId)
    requires params.Valid() && !cfg.shared && cfg.cores == 1 && AllAtZero(jobs)
    requires Reached(Table(params), cfg, Sched([], 0), jobs, choices, stop, s)
    requires x in s.place && (s.place[x].Queued? || s.place[x].OnCore?)
    requires y in s.place && (s.place[y].Queued? || s.place[y].OnCore?)
    ensures Pass(s.attrs, x) <= Pass(s.attrs, y) + StrideFor(params, AttrOf(s.attrs, x).weight)
    ensures IsStride(params, AttrOf(s.attrs, x).weight, StrideFor(params, AttrOf(s.attrs, x).weight))
  {
    hide Lawful, Inv, Table, IsStride, Level, Opening, OneTimer, Run, After, StrideFor;
    var s0 := Initial(cfg, Sched([], 0), jobs);
    InitialEven(params, cfg, jobs);
    InitialInv(Table(params), cfg, Sched([], 0), jobs);
    RunStaysEven(params, cfg, s0, choices, stop);
    ReachedInv(Table(params), cfg, Sched([], 0), jobs, choices, stop, s);
    UnfinishedIsActive(Table(params), cfg, s, x);
    UnfinishedIsActive(Table(params), cfg, s, y);
    assert Near(params, s.attrs, x, y);
    StrideMeans(params, AttrOf(s.attrs, x).weight);
  }

  // ------------------------------------------------ whole quanta

  /** Should the running task use its quantum, it will not be behind the global pass. */
  predicate StepKeepsUp(params: Params, s: State<Sched>)
    requires params.Valid()
  {
    0 < |s.scheds| && 0 < |s.cores| && KeepsUp(params, View(s, 0), Charged(params.quantum))
  }

  /** The clamp on returning tasks (stride_scheduler.hpp:45) does not fire along the run. */
  ghost predicate RunKeepsUp(params: Params, cfg: Config, s: State<Sched>, choices: seq<nat>, stop: real)
    requires params.Valid() && Shape(Table(params), cfg, s) && Run(Table(params), cfg, s, choices, stop)
    decreases |choices|
  {
    choices == [] || (StepKeepsUp(params, s)
                      && RunKeepsUp(params, cfg, Step(Table(params), cfg, s, choices[0]), choices[1..], stop))
  }

  /** Passes and executed times count whole quanta. */
  ghost predicate Tally(params: Params, s: State<Sched>, turns: Turns)
    requires params.Valid()
  {
    && Even(params, s)
    && Tallied(params, View(s, 0), RosterOf(s), turns, false)
    && (Awaited(s) != {} ==> Blank(turns))
    && forall x: TaskId :: Active(Table(params), View(s, 0), RosterOf(s), x) ==> Quanta(params, s, turns, x)
  }

  /** The time of n quanta. */
  function QuantaTime(params: Params, n: nat): real {
    n as real * params.quantum
  }

  predicate Quanta(params: Params, s: State<Sched>, turns: Turns, x: TaskId) {
    x in s.tasks && Done(s, x) == QuantaTime(params, TurnsOf(turns, x))
  }

  /** Timers are never cut short, so only a task that completes is charged less than a
      quantum. */
  lemma TimerIsWhole(params: Params, s: State<Sched>, i: nat, m: Move)
    requires params.Valid() && Even(params, s) && i < |s.events| && AloneStep(s, s.events[i], m) && m.Timer? && !m.done
    ensures m.cpu == params.quantum
  {
    TimerIsLive(s, i);
  }

  lemma MoveIsWhole(params: Params, d: Lane<Sched>, m: Move)
    requires params.Valid() && (m.Arrive? ==> !Charges(Table(params), d, m))
    requires m.Timer? && !m.done ==> m.cpu == params.quantum
    requires m.Timer? ==> m.stolen.None?
    ensures WholeQuanta(params, MoveCalls(Table(params), d, m))
  {
    hide Charges;
  }

  lemma {:induction false} NoCounts(params: Params, slice0: real, d: Lane<Sched>, calls: seq<Call>, turns: Turns)
    requires params.Valid() && Trace(Table(params), slice0, d, calls) && forall call :: call in calls ==> !call.Charged?
    ensures Counts(params, slice0, d, calls, turns) == turns
    decreases |calls|
  {
    hide Do, Allowed;
    if calls != [] {
      assert calls[0] in calls && forall call :: call in calls[1..] ==> call in calls;
      NoCounts(params, slice0, Do(Table(params), slice0, d, calls[0]), calls[1..], turns);
    }
  }

  lemma {:induction false} UnchargedKeepUp(params: Params, slice0: real, d: Lane<Sched>, calls: seq<Call>)
    requires params.Valid() && Trace(Table(params), slice0, d, calls) && forall call :: call in calls ==> !call.Charged?
    ensures AllKeepUp(params, slice0, d, calls)
    decreases |calls|
  {
    hide Do, Allowed;
    if calls != [] {
      assert calls[0] in calls && forall call :: call in calls[1..] ==> call in calls;
      UnchargedKeepUp(params, slice0, Do(Table(params), slice0, d, calls[0]), calls[1..]);
    }
  }

  lemma MoveKeepsUp(params: Params, slice0: real, d: Lane<Sched>, m: Move)
    requires params.Valid() && Trace(Table(params), slice0, d, MoveCalls(Table(params), d, m))
    requires m.Arrive? ==> !Charges(Table(params), d, m)
    requires m.Timer? ==> m.stolen.None? && d.running.Some?
    requires KeepsUp(params, d, Charged(params.quantum))
    ensures AllKeepUp(params, slice0, d, MoveCalls(Table(params), d, m))
  {
    hide Begin, Admit, Release, Charges, Do, Allowed;
    var calls := MoveCalls(Table(params), d, m);
    if m.Timer? {
      assert calls[0] == Charged(m.cpu);
      UnchargedKeepUp(params, slice0, Do(Table(params), slice0, d, calls[0]), calls[1..]);
    } else {
      UnchargedKeepUp(params, slice0, d, calls);
    }
  }

  lemma CountsOfMove(params: Params, slice0: real, d: Lane<Sched>, m: Move, turns: Turns, x: TaskId)
    requires params.Valid() && Trace(Table(params), slice0, d, MoveCalls(Table(params), d, m))
    requires m.Arrive? ==> !Charges(Table(params), d, m)
    requires m.Timer? ==> m.stolen.None? && d.running.Some?
    ensures TurnsOf(Counts(params, slice0, d, MoveCalls(Table(params), d, m), turns), x)
         == TurnsOf(turns, x) + if m.Timer? && d.running == Some(x) then 1 else 0
  {
    hide Begin, Admit, Release, Charges, Do, Allowed;
    var calls := MoveCalls(Table(params), d, m);
    if m.Timer? {
      assert calls[0] == Charged(m.cpu);
      NoCounts(params, slice0, Do(Table(params), slice0, d, calls[0]), calls[1..], Counted(d, calls[0], turns));
    } else {
      NoCounts(params, slice0, d, calls, turns);
    }
  }

  lemma OneMoreQuantum(params: Params, n: nat)
    ensures QuantaTime(params, n + 1) == QuantaTime(params, n) + params.quantum
  {
  }

  lemma QuantaAfter(params: Params, cfg: Config, s: State<Sched>, i: nat, m: Move, turns: Turns, turns': Turns, x: TaskId)
    requires params.Valid() && Inv(Table(params), cfg, s) && !cfg.shared && cfg.cores == 1 && Earliest(s.events, i)
    requires Even(params, s) && AloneStep(s, s.events[i], m)
    requires IsMove(Table(params), cfg, s, Step(Table(params), cfg, s, i), 0, m)
    requires Active(Table(params), View(s, 0), RosterOf(s), x) ==> Quanta(params, s, turns, x)
    requires m.Arrive? ==> Quanta(params, s, turns, m.id)
    requires TurnsOf(turns', x) == TurnsOf(turns, x) + if m.Timer? && s.cores[0].running == Some(x) then 1 else 0
    requires Active(Table(params), View(Step(Table(params), cfg, s, i), 0), RosterOf(Step(Table(params), cfg, s, i)), x)
    ensures Quanta(params, Step(Table(params), cfg, s, i), turns', x)
  {
    hide Lawful, Places, Clock, Accounted, Timers, Step, Even, OwnCharge, Done, Next, Can, Cpu, IsMove, Sound, Table, Polite,
      Active, Awaited, QuantaTime;
    var r := Step(Table(params), cfg, s, i);
    AlwaysPolite(params, s, if m.Arrive? then m.id else 0);
    StepDone(Table(params), cfg, s, i, m);
    ActiveBefore(params, cfg, s, i, m, x);
    OneMoreQuantum(params, TurnsOf(turns, x));
    if m.Timer? && s.cores[0].running == Some(x) {
      TimerIsWhole(params, s, i, m);
    }
  }

  lemma ActiveBefore(params: Params, cfg: Config, s: State<Sched>, i: nat, m: Move, x: TaskId)
    requires params.Valid() && Inv(Table(params), cfg, s) && !cfg.shared && cfg.cores == 1 && Earliest(s.events, i)
    requires AloneStep(s, s.events[i], m) && IsMove(Table(params), cfg, s, Step(Table(params), cfg, s, i), 0, m)
    requires Active(Table(params), View(Step(Table(params), cfg, s, i), 0), RosterOf(Step(Table(params), cfg, s, i)), x)
    ensures Active(Table(params), View(s, 0), RosterOf(s), x) || (m.Arrive? && x == m.id)
    ensures m.Timer? && m.done ==> s.cores[0].running != Some(x)
  {
    hide Lawful, Places, Clock, Accounted, Timers, Step, OwnCharge, Next, Can, Cpu, Sound, Table;
    LaneSound(Table(params), cfg, s, 0);
    NextActive(Table(params), cfg.defaultSlice, View(s, 0), m, RosterOf(s));
  }

  lemma StepKeepsTally(params: Params, cfg: Config, s: State<Sched>, i: nat, turns: Turns) returns (turns': Turns)
    requires params.Valid() && Inv(Table(params), cfg, s) && !cfg.shared && cfg.cores == 1 && Earliest(s.events, i)
    requires Tally(params, s, turns) && StepKeepsUp(params, s)
    ensures Tally(params, Step(Table(params), cfg, s, i), turns')
  {
    hide Lawful, Local, Places, Clock, Accounted, Timers, Step, Spread, Level, Opening, OneTimer,
      Trace, Alone, End, LastRoster, Phase, Table, Tidy, AloneStep, MoveCalls, Tallied, Counts, Quanta,
      Charges, IsMove, Blank, WholeQuanta, AllKeepUp, StepKeepsUp;
    var p, r := Table(params), Step(Table(params), cfg, s, i);
    TableIsLocal(params);
    StepStaysEven(params, cfg, s, i);
    var m, calls := StepIsCalls(p, cfg, s, i, 0);
    StepPhase(params, cfg, s, i, m, calls);
    LaneTidy(p, cfg, s);
    StepKeepsIds(p, cfg, s, i);
    StepIsWhole(params, s, i, m);
    StepCallsKeepUp(params, cfg, s, i, m);
    var short := TraceKeepsTally(params, cfg.defaultSlice, View(s, 0), RosterOf(s), calls, s.tasks.Keys, turns, false);
    turns' := Counts(params, cfg.defaultSlice, View(s, 0), calls, turns);
    ShortIsPast(params, View(r, 0), RosterOf(r), turns', short);
    if Awaited(s) != {} {
      NoCounts(params, cfg.defaultSlice, View(s, 0), calls, turns);
    }
    StepAwaits(p, cfg, s, i);
    forall x: TaskId | Active(p, View(r, 0), RosterOf(r), x)
      ensures Quanta(params, r, turns', x)
    {
      TallyMove(params, cfg, s, i, m, turns, turns', x);
    }
  }

  lemma ShortIsPast(params: Params, d: Lane<Sched>, roster: Roster, turns: Turns, short: bool)
    requires params.Valid() && Tallied(params, d, roster, turns, short) && roster.left.None?
    ensures Tallied(params, d, roster, turns, false)
  {
  }

  lemma StepCallsKeepUp(params: Params, cfg: Config, s: State<Sched>, i: nat, m: Move)
    requires params.Valid() && Even(params, s) && StepKeepsUp(params, s) && i < |s.events| && AloneStep(s, s.events[i], m)
    requires Trace(Table(params), cfg.defaultSlice, View(s, 0), MoveCalls(Table(params), View(s, 0), m))
    ensures AllKeepUp(params, cfg.defaultSlice, View(s, 0), MoveCalls(Table(params), View(s, 0), m))
  {
    hide Spread, Level, Opening, OneTimer, OwnCharge, MoveCalls, Trace, AllKeepUp, KeepsUp, Table;
    AlwaysPolite(params, s, if m.Arrive? then m.id else 0);
    MoveKeepsUp(params, cfg.defaultSlice, View(s, 0), m);
  }

  lemma StepIsWhole(params: Params, s: State<Sched>, i: nat, m: Move)
    requires params.Valid() && Even(params, s) && i < |s.events| && AloneStep(s, s.events[i], m)
    ensures WholeQuanta(params, MoveCalls(Table(params), View(s, 0), m))
  {
    hide Spread, Level, Opening, OneTimer, OwnCharge, WholeQuanta, MoveCalls;
    if m.Timer? && !m.done {
      TimerIsWhole(params, s, i, m);
    }
    AlwaysPolite(params, s, if m.Arrive? then m.id else 0);
    MoveIsWhole(params, View(s, 0), m);
  }

  lemma TallyMove(params: Params, cfg: Config, s: State<Sched>, i: nat, m: Move, turns: Turns, turns': Turns, x: TaskId)
    requires params.Valid() && Inv(Table(params), cfg, s) && !cfg.shared && cfg.cores == 1 && Earliest(s.events, i)
    requires Even(params, s) && AloneStep(s, s.events[i], m) && (Awaited(s) != {} ==> Blank(turns))
    requires IsMove(Table(params), cfg, s, Step(Table(params), cfg, s, i), 0, m)
    requires Active(Table(params), View(s, 0), RosterOf(s), x) ==> Quanta(params, s, turns, x)
    requires Trace(Table(params), cfg.defaultSlice, View(s, 0), MoveCalls(Table(params), View(s, 0), m))
    requires turns' == Counts(params, cfg.defaultSlice, View(s, 0), MoveCalls(Table(params), View(s, 0), m), turns)
    requires Active(Table(params), View(Step(Table(params), cfg, s, i), 0), RosterOf(Step(Table(params), cfg, s, i)), x)
    ensures Quanta(params, Step(Table(params), cfg, s, i), turns', x)
  {
    hide Lawful, Places, Clock, Accounted, Timers, Step, OwnCharge, Next, Can, Cpu, IsMove, Sound, Trace, MoveCalls, Counts,
      Spread, Level, OneTimer, Table;
    AlwaysPolite(params, s, if m.Arrive? then m.id else 0);
    CountsOfMove(params, cfg.defaultSlice, View(s, 0), m, turns, x);
    if m.Arrive? {
      EventKnown(Table(params), cfg, s, i);
      ArrivalKnown(Table(params), cfg, s, i);
      assert TurnsOf(turns, m.id) == 0 && Done(s, m.id) == 0.0;
    }
    QuantaAfter(params, cfg, s, i, m, turns, turns', x);
  }

  lemma {:induction false} RunKeepsTally(params: Params, cfg: Config, s: State<Sched>, choices: seq<nat>, stop: real,
                                         turns: Turns) returns (turns': Turns)
    requires params.Valid() && Inv(Table(params), cfg, s) && !cfg.shared && cfg.cores == 1
    requires Run(Table(params), cfg, s, choices, stop) && Tally(params, s, turns)
    requires RunKeepsUp(params, cfg, s, choices, stop)
    ensures Tally(params, After(Table(params), cfg, s, choices, stop), turns')
    decreases |choices|
  {
    hide Lawful, Places, Clock, Accounted, Timers, Step, Tally, Table, StepKeepsUp;
    turns' := turns;
    if choices != [] {
      turns' := StepKeepsTally(params, cfg, s, choices[0], turns);
      StepKeeps(Table(params), cfg, s, choices[0]);
      turns' := RunKeepsTally(params, cfg, Step(Table(params), cfg, s, choices[0]), choices[1..], stop, turns');
    }
  }

  lemma InitialTally(params: Params, cfg: Config, jobs: seq<Job>)
    requires params.Valid() && cfg.Valid() && !cfg.shared && cfg.cores == 1 && ValidJobs(jobs) && AllAtZero(jobs)
    ensures Tally(params, Initial(cfg, Sched([], 0), jobs), map[])
  {
    hide Lawful, Spread, Inv, Even;
    InitialEven(params, cfg, jobs);
    LanesStart(cfg, Sched([], 0), jobs, 0);
  }

  lemma ReachedTally(params: Params, cfg: Config, jobs: seq<Job>, choices: seq<nat>, stop: real, s: State<Sched>)
    returns (turns: Turns)
    requires params.Valid() && !cfg.shared && cfg.cores == 1 && AllAtZero(jobs)
    requires Reached(Table(params), cfg, Sched([], 0), jobs, choices, stop, s)
    requires RunKeepsUp(params, cfg, Initial(cfg, Sched([], 0), jobs), choices, stop)
    ensures Tally(params, s, turns)
  {
    hide Lawful, Inv, Table, Tally, Run, After, RunKeepsUp, Initial;
    InitialTally(params, cfg, jobs);
    InitialInv(Table(params), cfg, Sched([], 0), jobs);
    turns := RunKeepsTally(params, cfg, Initial(cfg, Sched([], 0), jobs), choices, stop, map[]);
  }

  /** Shares follow strides: on one core with all jobs submitted for time 0, as long as the
      clamp has not fired, in every reachable state the executed times of unfinished arrived
      tasks are whole quanta, a task's pass is its quanta times its stride, and so the quanta
      times strides of any two are within a stride. */
  lemma SharesFollowStridesInRuns(params: Params, cfg: Config, jobs: seq<Job>, choices: seq<nat>, stop: real,
                                  s: State<Sched>, x: TaskId, y: TaskId) returns (a: nat, b: nat)
    requires params.Valid() && !cfg.shared && cfg.cores == 1 && AllAtZero(jobs)
    requires Reached(Table(params), cfg, Sched([], 0), jobs, choices, stop, s)
    requires RunKeepsUp(params, cfg, Initial(cfg, Sched([], 0), jobs), choices, stop)
    requires x in s.place && (s.place[x].Queued? || s.place[x].OnCore?) && x in s.tasks
    requires y in s.place && (s.place[y].Queued? || s.place[y].OnCore?) && y in s.tasks
    ensures s.tasks[x].execution - s.tasks[x].remaining == QuantaTime(params, a)
    ensures s.tasks[y].execution - s.tasks[y].remaining == QuantaTime(params, b)
    ensures var sx, sy := StrideFor(params, AttrOf(s.attrs, x).weight), StrideFor(params, AttrOf(s.attrs, y).weight);
            && Pass(s.attrs, x) == sx * a && Pass(s.attrs, y) == sy * b
            && sx * a <= sy * b + sx
  {
    hide Lawful, Inv, Table, Even, Run, After, StrideFor, Blank, QuantaTime, RunKeepsUp, Reached;
    var turns := ReachedTally(params, cfg, jobs, choices, stop, s);
    ReachedInv(Table(params), cfg, Sched([], 0), jobs, choices, stop, s);
    UnfinishedIsActive(Table(params), cfg, s, x);
    UnfinishedIsActive(Table(params), cfg, s, y);
    a, b := TurnsOf(turns, x), TurnsOf(turns, y);
    assert Quanta(params, s, turns, x) && Quanta(params, s, turns, y);
    assert InTally(params, s.attrs, turns, x) && InTally(params, s.attrs, turns, y);
    PassesStayNearInRuns(params, cfg, jobs, choices, stop, s, x, y);
  }

  // ------------------------------------------------ shares in terms of weights

  /** Weights above the constant count as the constant. */
  function Capped(params: Params, weight: nat): nat {
    if weight < params.constant then weight else params.constant
  }

  /** a, less 1, is to b at most as weight v is to weight w, but for v in the constant k. */
  predicate TurnsWithin(k: nat, v: nat, w: nat, a: nat, b: nat) {
    0 < v <= k && 0 < w <= k && (a - 1) * (w * (k - v)) <= b * (v * k)
  }

  /** Quanta of tasks whose strides are k over their weights v and w, rounded down. */
  lemma QuantaFollowWeights(k: nat, sx: nat, sy: nat, v: nat, w: nat, a: nat, b: nat)
    requires IsRounded(k, v, sx) && IsRounded(k, w, sy) && sx * a <= sy * b + sx
    ensures TurnsWithin(k, v, w, a, b)
  {
    if a == 0 {
      NonnegativeProduct(w, k - v);
      NonnegativeProduct(v, k);
      NonnegativeProduct(b, v * k);
    } else {
      var n := a - 1;
      assert n * sx <= b * sy;
      assert w * (k - v) <= w * (sx * v) by { Larger(w, k - v, sx * v); }
      Larger(n, w * (k - v), w * (sx * v));
      Larger(v * w, n * sx, b * sy);
      Larger(b * v, sy * w, k);
      Regroup(n, w, sx, v, b, sy, k);
    }
  }

  lemma NonnegativeProduct(a: nat, b: nat)
    ensures a * b >= 0
  {
  }

  lemma Larger(n: nat, a: nat, b: nat)
    requires a <= b
    ensures n * a <= n * b
  {
  }

  lemma Regroup(n: nat, w: nat, sx: nat, v: nat, b: nat, sy: nat, k: nat)
    ensures n * (w * (sx * v)) == v * w * (n * sx)
    ensures v * w * (b * sy) == b * v * (sy * w)
    ensures b * v * k == b * (v * k)
  {
  }

  /** The same for times of whole quanta. */
  lemma TimesFollowWeights(params: Params, v: nat, w: nat, a: nat, b: nat)
    requires params.Valid() && TurnsWithin(params.constant, v, w, a, b)
    ensures InShare(params, QuantaTime(params, a), QuantaTime(params, b), v, w)
  {
    var p, q := w * (params.constant - v), v * params.constant;
    var less := b * q - (a - 1) * p;
    assert less as real * params.quantum >= 0.0;
    assert less as real == b as real * q as real - (a as real - 1.0) * p as real;
    assert QuantaTime(params, a) - params.quantum == (a as real - 1.0) * params.quantum;
  }

  lemma CappedStride(params: Params, weight: Weight, stride: nat)
    requires params.constant > 0 && IsStride(params, weight, stride)
    ensures IsRounded(params.constant, Capped(params, weight), stride)
  {
  }

  /** x, less a quantum, is to y at most as the weights are, but for the rounding of a stride. */
  predicate InShare(params: Params, x: real, y: real, v: nat, w: nat) {
    && 0 < v <= params.constant && 0 < w <= params.constant
    && (x - params.quantum) * (w * (params.constant - v)) as real <= y * (v * params.constant) as real
  }

  lemma TurnsInShare(params: Params, v: Weight, w: Weight, a: nat, b: nat)
    requires params.Valid() && params.constant > 0
    requires StrideFor(params, v) * a <= StrideFor(params, w) * b + StrideFor(params, v)
    ensures InShare(params, QuantaTime(params, a), QuantaTime(params, b), Capped(params, v), Capped(params, w))
  {
    hide StrideFor, IsStride, Capped, QuantaTime, IsRounded, TurnsWithin, InShare;
    StrideMeans(params, v);
    StrideMeans(params, w);
    CappedStride(params, v, StrideFor(params, v));
    CappedStride(params, w, StrideFor(params, w));
    QuantaFollowWeights(params.constant, StrideFor(params, v), StrideFor(params, w), Capped(params, v), Capped(params, w), a, b);
    TimesFollowWeights(params, Capped(params, v), Capped(params, w), a, b);
  }

  /** Shares follow weights: on one core with all jobs submitted for time 0, as long as the
      clamp has not fired, in every reachable state the executed times of any two unfinished
      arrived tasks are in share. */
  lemma SharesFollowWeightsInRuns(params: Params, cfg: Config, jobs: seq<Job>, choices: seq<nat>, stop: real,
                                  s: State<Sched>, x: TaskId, y: TaskId)
    requires params.Valid() && params.constant > 0 && !cfg.shared && cfg.cores == 1 && AllAtZero(jobs)
    requires Reached(Table(params), cfg, Sched([], 0), jobs, choices, stop, s)
    requires RunKeepsUp(params, cfg, Initial(cfg, Sched([], 0), jobs), choices, stop)
    requires x in s.place && (s.place[x].Queued? || s.place[x].OnCore?) && x in s.tasks
    requires y in s.place && (s.place[y].Queued? || s.place[y].OnCore?) && y in s.tasks
    ensures InShare(params, s.tasks[x].execution - s.tasks[x].remaining, s.tasks[y].execution - s.tasks[y].remaining,
                    Capped(params, AttrOf(s.attrs, x).weight), Capped(params, AttrOf(s.attrs, y).weight))
  {
    hide Lawful, Inv, Table, Run, After, StrideFor, QuantaTime, RunKeepsUp, Reached, Capped, Initial, InShare;
    var a, b := SharesFollowStridesInRuns(params, cfg, jobs, choices, stop, s, x, y);
    TurnsInShare(params, AttrOf(s.attrs, x).weight, AttrOf(s.attrs, y).weight, a, b);
  }

  // ------------------------------------------------ equal weights

  ghost predicate EqualWeights(s: State<Sched>, weight: Weight) {
    forall x :: x in s.tasks ==> AttrOf(s.attrs, x).weight == weight
  }

  lemma {:induction false} InitialWeights(cfg: Config, jobs: seq<Job>, weight: Weight)
    requires forall i :: 0 <= i < |jobs| ==> jobs[i].weight == weight
    ensures EqualWeights(Initial(cfg, Sched([], 0), jobs), weight)
  {
    if jobs != [] {
      InitialWeights(cfg, jobs[..|jobs| - 1], weight);
    }
  }

  lemma CallKeepsWeights(params: Params, slice0: real, d: Lane<Sched>, call: Call, x: TaskId)
    requires params.Valid() && Allowed(Table(params), d, call)
    ensures AttrOf(Do(Table(params), slice0, d, call).attrs, x).weight == AttrOf(d.attrs, x).weight
  {
    hide StrideFor, Add, Stride.Charge;
    match call
    case Added(id, unstarted) => AddFacts(params, d.sched, d.attrs, id, unstarted);
    case Charged(cpu) => ChargeFacts(params, d.sched, d.attrs, d.running.value, cpu);
    case Picked =>
    case Apart(_, attrs) => assert SameWeight(d.attrs, attrs, x);
  }

  lemma {:induction false} TraceKeepsWeights(params: Params, slice0: real, d: Lane<Sched>, calls: seq<Call>, x: TaskId)
    requires params.Valid() && Trace(Table(params), slice0, d, calls)
    ensures AttrOf(End(Table(params), slice0, d, calls).attrs, x).weight == AttrOf(d.attrs, x).weight
    decreases |calls|
  {
    hide Do, Allowed;
    if calls != [] {
      CallKeepsWeights(params, slice0, d, calls[0], x);
      TraceKeepsWeights(params, slice0, Do(Table(params), slice0, d, calls[0]), calls[1..], x);
    }
  }

  lemma StepKeepsWeights(params: Params, cfg: Config, s: State<Sched>, i: nat, weight: Weight)
    requires params.Valid() && Inv(Table(params), cfg, s) && !cfg.shared && cfg.cores == 1 && Earliest(s.events, i)
    requires EqualWeights(s, weight)
    ensures EqualWeights(Step(Table(params), cfg, s, i), weight)
  {
    hide Lawful, Local, Places, Clock, Accounted, Timers, Step, Trace, End, Table, Alone, LastRoster;
    var p, r := Table(params), Step(Table(params), cfg, s, i);
    TableIsLocal(params);
    var m, calls := StepIsCalls(p, cfg, s, i, 0);
    StepKeepsIds(p, cfg, s, i);
    forall x | x in r.tasks
      ensures AttrOf(r.attrs, x).weight == weight
    {
      assert x in r.tasks.Keys;
      TraceKeepsWeights(params, cfg.defaultSlice, View(s, 0), calls, x);
    }
  }

  /** With equal weights a whole quantum takes the running task to or past the least ready
      pass, so the clamp never fires. */
  lemma EqualKeepUp(params: Params, cfg: Config, s: State<Sched>, weight: Weight)
    requires params.Valid() && Inv(Table(params), cfg, s) && !cfg.shared && cfg.cores == 1
    requires Even(params, s) && EqualWeights(s, weight)
    ensures StepKeepsUp(params, s)
  {
    hide Lawful, Places, Clock, Accounted, Timers, Level, Opening, OneTimer, Release, Table, Tidy;
    LaneTidy(Table(params), cfg, s);
    if s.cores[0].running.Some? {
      FullQuantumLeads(params, View(s, 0), RosterOf(s), s.tasks.Keys, weight);
    }
  }

  lemma {:induction false} EqualRunKeepsUp(params: Params, cfg: Config, s: State<Sched>, choices: seq<nat>, stop: real, weight: Weight)
    requires params.Valid() && Inv(Table(params), cfg, s) && !cfg.shared && cfg.cores == 1
    requires Run(Table(params), cfg, s, choices, stop) && Even(params, s) && EqualWeights(s, weight)
    ensures RunKeepsUp(params, cfg, s, choices, stop)
    ensures EqualWeights(After(Table(params), cfg, s, choices, stop), weight)
    decreases |choices|
  {
    hide Lawful, Places, Clock, Accounted, Timers, Step, Even, Table, StepKeepsUp, EqualWeights;
    if choices != [] {
      EqualKeepUp(params, cfg, s, weight);
      StepStaysEven(params, cfg, s, choices[0]);
      StepKeepsWeights(params, cfg, s, choices[0], weight);
      StepKeeps(Table(params), cfg, s, choices[0]);
      EqualRunKeepsUp(params, cfg, Step(Table(params), cfg, s, choices[0]), choices[1..], stop, weight);
    }
  }

  /** Equal shares: on one core with all jobs submitted for time 0 with the same weight, in
      every reachable state the executed times of any two unfinished arrived tasks are whole
      quanta and differ by at most one. */
  lemma QuantaDifferByOneInRuns(params: Params, cfg: Config, jobs: seq<Job>, choices: seq<nat>, stop: real,
                                s: State<Sched>, weight: Weight, x: TaskId, y: TaskId)
    requires params.Valid() && !cfg.shared && cfg.cores == 1 && AllAtZero(jobs)
    requires forall i :: 0 <= i < |jobs| ==> jobs[i].weight == weight
    requires Reached(Table(params), cfg, Sched([], 0), jobs, choices, stop, s)
    requires x in s.place && (s.place[x].Queued? || s.place[x].OnCore?) && x in s.tasks
    requires y in s.place && (s.place[y].Queued? || s.place[y].OnCore?) && y in s.tasks
    ensures exists n: nat :: s.tasks[x].execution - s.tasks[x].remaining == QuantaTime(params, n)
    ensures s.tasks[x].execution - s.tasks[x].remaining <= s.tasks[y].execution - s.tasks[y].remaining + params.quantum
  {
    hide Lawful, Inv, Table, Even, Run, After, StrideFor, QuantaTime, RunKeepsUp, Initial;
    var s0 := Initial(cfg, Sched([], 0), jobs);
    InitialEven(params, cfg, jobs);
    InitialWeights(cfg, jobs, weight);
    InitialInv(Table(params), cfg, Sched([], 0), jobs);
    EqualRunKeepsUp(params, cfg, s0, choices, stop, weight);
    var a, b := SharesFollowStridesInRuns(params, cfg, jobs, choices, stop, s, x, y);
    FewTurns(StrideFor(params, weight), a, b);
    OneMoreQuantum(params, b);
    MoreQuanta(params, a, b + 1);
  }

  lemma FewTurns(stride: nat, a: nat, b: nat)
    requires stride >= 1 && stride * a <= stride * b + stride
    ensures a <= b + 1
  {
    if a > b + 1 {
      WholeGrows(stride, b + 1, a);
      OneTurnMore(stride, b);
    }
  }

  lemma MoreQuanta(params: Params, a: nat, b: nat)
    requires params.Valid() && a <= b
    ensures QuantaTime(params, a) <= QuantaTime(params, b)
  {
  }
}

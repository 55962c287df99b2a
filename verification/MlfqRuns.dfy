/** The feedback queue inside the per-core engine, stealing included. */
module MlfqRuns {
  import opened Common
  import opened Tasks
  import opened Policies
  import opened Lanes
  import opened SingleQueue
  import opened MultiQueue
  import opened Mlfq
  import opened MlfqRules
  import opened Engine
  import opened EngineInvariant
  import opened EngineRuns
  import opened EngineHistory
  import opened EngineLanes
  import opened EngineFields
  import opened EngineSteps
  import opened EngineGrants
  import opened EngineCounters

  function FreshSched(params: Params): Sched {
    Sched(Empties(|params.levels|), 0.0)
  }

  lemma FreshLane(params: Params, attrs: Attrs)
    requires params.Valid()
    ensures Filed(params, Lane(FreshSched(params), attrs, None, 0.0))
    ensures NobodyOutranks(Lane(FreshSched(params), attrs, None, 0.0))
    ensures params.boostInterval > 0.0 ==> Paced(params, Lane(FreshSched(params), attrs, None, 0.0))
  {
  }

  lemma {:induction false} RunKeepsRule1(params: Params, cfg: Config, s: State<Sched>, choices: seq<nat>, stop: real, c: nat)
    requires params.Valid() && Inv(Table(params), cfg, s) && !cfg.shared && c < cfg.cores
    requires Run(Table(params), cfg, s, choices, stop)
    requires Filed(params, View(s, c)) && NobodyOutranks(View(s, c))
    ensures var r := After(Table(params), cfg, s, choices, stop);
            c < |r.scheds| && c < |r.cores| && Filed(params, View(r, c)) && NobodyOutranks(View(r, c))
    decreases |choices|
  {
    hide Lawful, Places, Clock, Accounted, Timers, Local, Step, Filed, NobodyOutranks, Next, Can, Table;
    if choices != [] {
      var p := Table(params);
      TableIsLocal(params);
      var m := StepIsMove(p, cfg, s, choices[0], c);
      LaneSound(p, cfg, s, c);
      MoveKeepsRule1(params, cfg.defaultSlice, View(s, c), m);
      StepKeeps(p, cfg, s, choices[0]);
      RunKeepsRule1(params, cfg, Step(p, cfg, s, choices[0]), choices[1..], stop, c);
    }
  }

  /** Rule 1 in every reachable state, on every core: no ready task outranks the running one,
      even right after a boost. */
  lemma NoReadyTaskOutranks(params: Params, cfg: Config, jobs: seq<Job>, choices: seq<nat>, stop: real,
                            s: State<Sched>, c: nat)
    requires params.Valid() && Reached(Table(params), cfg, FreshSched(params), jobs, choices, stop, s)
    requires !cfg.shared && c < cfg.cores
    ensures s.cores[c].running.Some? ==>
              forall level, x :: 0 <= level < |s.scheds[c].queues| && x in s.scheds[c].queues[level] ==>
                AttrOf(s.attrs, s.cores[c].running.value).level <= level
  {
    hide Lawful, Inv, InvBut, Table;
    ReachedInv(Table(params), cfg, FreshSched(params), jobs, choices, stop, s);
    InitialInv(Table(params), cfg, FreshSched(params), jobs);
    var s0 := Initial(cfg, FreshSched(params), jobs);
    LanesStart(cfg, FreshSched(params), jobs, c);
    FreshLane(params, s0.attrs);
    RunKeepsRule1(params, cfg, s0, choices, stop, c);
    forall level, x | 0 <= level < |s.scheds[c].queues| && x in s.scheds[c].queues[level]
      ensures x in AllQueued(s.scheds[c].queues)
    {
      QueuedIn(s.scheds[c].queues, x);
    }
  }

  /** In every state of the run in which w is in core c's top queue, at most k tasks are
      ahead of it there, counting the running one. */
  ghost predicate AheadAtMost(params: Params, cfg: Config, s: State<Sched>, choices: seq<nat>, stop: real,
                              c: nat, w: TaskId, k: nat)
    requires params.Valid() && Shape(Table(params), cfg, s) && Run(Table(params), cfg, s, choices, stop)
    requires !cfg.shared && c < cfg.cores
    decreases |choices|
  {
    && (s.scheds[c].queues != [] && w in s.scheds[c].queues[0] ==>
          Ahead(s.scheds[c].queues[0], w) + (if s.cores[c].running.Some? then 1 else 0) <= k)
    && (choices == [] || AheadAtMost(params, cfg, Step(Table(params), cfg, s, choices[0]), choices[1..], stop, c, w, k))
  }

  /** What a core keeps under this policy. */
  ghost predicate Ruled(params: Params, s: State<Sched>, c: nat)
    requires params.Valid()
  {
    && c < |s.scheds| && c < |s.cores|
    && Filed(params, View(s, c)) && Paced(params, View(s, c)) && NobodyOutranks(View(s, c))
  }

  lemma RuledStep(params: Params, cfg: Config, s: State<Sched>, i: nat, c: nat)
    requires params.Valid() && params.boostInterval > 0.0 && Inv(Table(params), cfg, s) && !cfg.shared && c < cfg.cores
    requires Earliest(s.events, i) && Ruled(params, s, c)
    ensures Ruled(params, Step(Table(params), cfg, s, i), c)
    ensures Step(Table(params), cfg, s, i).cores[c].busy <= s.cores[c].busy + LongestSlice(params)
  {
    hide Lawful, Places, Clock, Accounted, Timers, Local, Step, Filed, NobodyOutranks, Next, Can, Table, LongestSlice, Paced;
    var p := Table(params);
    TableIsLocal(params);
    var m := StepIsMove(p, cfg, s, i, c);
    LaneSound(p, cfg, s, c);
    MoveKeepsRule1(params, cfg.defaultSlice, View(s, c), m);
    var _, calls := StepIsCalls(p, cfg, s, i, c);
    TraceKeepsPace(params, cfg.defaultSlice, View(s, c), calls);
    MoveInSlice(params, View(s, c), m);
  }

  lemma MoveInSlice(params: Params, d: Lane<Sched>, m: Move)
    requires params.Valid() && Paced(params, d) && Can(Table(params), d, m)
    ensures Cpu(Table(params), d, m) <= LongestSlice(params)
  {
    hide LongestSlice, Quantum;
  }

  lemma {:induction false} WaitFrom(params: Params, cfg: Config, s: State<Sched>, choices: seq<nat>, stop: real,
                                    c: nat, w: TaskId, k: nat)
    requires params.Valid() && params.boostInterval > 0.0 && params.enableBoost
    requires Inv(Table(params), cfg, s) && !cfg.shared && c < cfg.cores && Ruled(params, s, c)
    requires Run(Table(params), cfg, s, choices, stop) && WaitsOn(Table(params), cfg, s, choices, stop, c, w)
    requires AheadAtMost(params, cfg, s, choices, stop, c, w, k)
    ensures After(Table(params), cfg, s, choices, stop).cores[c].busy - s.cores[c].busy
            + (if AtTopOf(View(s, c), w) then 0.0 else s.scheds[c].sinceBoost)
          < params.boostInterval + LongestSlice(params) + TurnsAtTop(params, k)
    decreases |choices|
  {
    hide Lawful, Places, Clock, Accounted, Timers, Local, Step, Next, Can, Table, LongestSlice, TurnsAtTop, Ruled;
    var p := Table(params);
    if AtTopOf(View(s, c), w) {
      TopRun(params, cfg, s, choices, stop, c, w, k);
      RuledMeans(params, s, c);
    } else if choices == [] {
      RuledMeans(params, s, c);
      TurnsAtLeast(params, k);
    } else {
      var u := Step(p, cfg, s, choices[0]);
      assert w in p.ready(u.scheds[c]);
      StepKeeps(p, cfg, s, choices[0]);
      RuledStep(params, cfg, s, choices[0], c);
      RuledMeans(params, s, c);
      if AtTopOf(View(u, c), w) {
        TopRun(params, cfg, u, choices[1..], stop, c, w, k);
      } else {
        LowStep(params, cfg, s, choices[0], c, w);
        WaitFrom(params, cfg, u, choices[1..], stop, c, w, k);
      }
    }
  }

  lemma RuledMeans(params: Params, s: State<Sched>, c: nat)
    requires params.Valid() && Ruled(params, s, c)
    ensures 0.0 <= s.scheds[c].sinceBoost < params.boostInterval
  {
    hide Filed, NobodyOutranks;
  }

  lemma TurnsAtLeast(params: Params, k: nat)
    requires params.Valid()
    ensures TurnsAtTop(params, k) >= 0.0
  {
  }

  /** Once in the top queue, w waits for the tasks ahead of it. */
  lemma TopRun(params: Params, cfg: Config, s: State<Sched>, choices: seq<nat>, stop: real, c: nat, w: TaskId, k: nat)
    requires params.Valid() && params.boostInterval > 0.0 && params.enableBoost
    requires Inv(Table(params), cfg, s) && !cfg.shared && c < cfg.cores && Ruled(params, s, c)
    requires Run(Table(params), cfg, s, choices, stop) && WaitsOn(Table(params), cfg, s, choices, stop, c, w)
    requires AheadAtMost(params, cfg, s, choices, stop, c, w, k) && AtTopOf(View(s, c), w)
    ensures After(Table(params), cfg, s, choices, stop).cores[c].busy - s.cores[c].busy <= TurnsAtTop(params, k)
  {
    hide Lawful, Places, Clock, Accounted, Timers, Local, Table, TurnsAtTop, Filed, Trace, Waits;
    var p := Table(params);
    TableIsLocal(params);
    LaneSound(p, cfg, s, c);
    var calls := RunIsTrace(p, cfg, s, choices, stop, c);
    FiledIsShaped(params, View(s, c));
    TopWait(params, cfg.defaultSlice, View(s, c), calls, w);
    RunningAtTop(params, View(s, c), w);
    FewerTurns(params, Ahead(s.scheds[c].queues[0], w) + (if s.cores[c].running.Some? then 1 else 0), k);
    FewerTurns(params, Ahead(s.scheds[c].queues[0], w) + 1, Ahead(s.scheds[c].queues[0], w) + 1);
  }

  /** While w is ready at the top, the running slice is a top-level quantum. */
  lemma RunningAtTop(params: Params, d: Lane<Sched>, w: TaskId)
    requires params.Valid() && Filed(params, d) && Paced(params, d) && NobodyOutranks(d) && AtTopOf(d, w)
    ensures d.running.Some? ==> d.granted == Quantum(params, 0)
  {
    hide Quantum;
    QueuedIn(d.sched.queues, w);
  }

  /** A step after which w is not yet at the top adds to the time since the last boost. */
  lemma LowStep(params: Params, cfg: Config, s: State<Sched>, i: nat, c: nat, w: TaskId)
    requires params.Valid() && params.boostInterval > 0.0 && params.enableBoost
    requires Inv(Table(params), cfg, s) && !cfg.shared && c < cfg.cores && Ruled(params, s, c) && Earliest(s.events, i)
    requires var r := Step(Table(params), cfg, s, i);
             && w in Table(params).ready(s.scheds[c]) && w in Table(params).ready(r.scheds[c])
             && !AtTopOf(View(r, c), w)
    ensures var r := Step(Table(params), cfg, s, i);
            r.scheds[c].sinceBoost == s.scheds[c].sinceBoost + (r.cores[c].busy - s.cores[c].busy)
  {
    hide Lawful, Places, Clock, Accounted, Timers, Local, Table, Step, Filed, Paced, NobodyOutranks, Trace, Waits;
    var p := Table(params);
    TableIsLocal(params);
    LaneSound(p, cfg, s, c);
    var _, calls := StepIsCalls(p, cfg, s, i, c);
    NoBoostYet(params, cfg.defaultSlice, View(s, c), calls, w);
  }

  // ------------------------------------------------ how many can be ahead

  lemma {:induction false} LevelCounts(queues: Queues, level: nat, x: TaskId)
    requires level < |queues|
    ensures multiset(queues[level])[x] <= AllQueued(queues)[x]
  {
    if level < |queues| - 1 {
      LevelCounts(queues[..|queues| - 1], level, x);
    }
  }

  /** Everybody else may be ahead, but nobody twice. */
  lemma FewAhead(params: Params, cfg: Config, s: State<Sched>, c: nat, w: TaskId)
    requires params.Valid() && Inv(Table(params), cfg, s) && !cfg.shared && c < cfg.cores && AtTopOf(View(s, c), w)
    ensures Ahead(s.scheds[c].queues[0], w) + (if s.cores[c].running.Some? then 1 else 0) <= |s.tasks.Keys| - 1
  {
    hide Lawful, Clock, Accounted, Timers;
    var p, q := Table(params), s.scheds[c].queues[0];
    var ids := if s.cores[c].running.Some? then s.tasks.Keys - {s.cores[c].running.value} else s.tasks.Keys;
    forall x
      ensures multiset(q)[x] <= 1
      ensures x in q ==> x in ids
    {
      LevelCounts(s.scheds[c].queues, 0, x);
      assert p.ready(s.scheds[c])[x] <= 1;
      if x in q {
        assert x in multiset(q);
        ReadyIsPlaced(p, s, c, x);
      }
    }
    DistinctFit(q, ids);
  }

  lemma {:induction false} RunAheadAtMost(params: Params, cfg: Config, s: State<Sched>, choices: seq<nat>, stop: real,
                                          c: nat, w: TaskId)
    requires params.Valid() && Inv(Table(params), cfg, s) && !cfg.shared && c < cfg.cores && |s.tasks.Keys| > 0
    requires Run(Table(params), cfg, s, choices, stop)
    ensures AheadAtMost(params, cfg, s, choices, stop, c, w, |s.tasks.Keys| - 1)
    decreases |choices|
  {
    hide Lawful, Places, Clock, Accounted, Timers, Step;
    if AtTopOf(View(s, c), w) {
      FewAhead(params, cfg, s, c, w);
    }
    if choices != [] {
      StepKeeps(Table(params), cfg, s, choices[0]);
      StepKeepsIds(Table(params), cfg, s, choices[0]);
      RunAheadAtMost(params, cfg, Step(Table(params), cfg, s, choices[0]), choices[1..], stop, c, w);
    }
  }

  // ------------------------------------------------ the theorem

  lemma ReachedRuled(params: Params, cfg: Config, jobs: seq<Job>, choices: seq<nat>, stop: real, s: State<Sched>, c: nat)
    requires params.Valid() && params.boostInterval > 0.0 && !cfg.shared && c < cfg.cores
    requires Reached(Table(params), cfg, FreshSched(params), jobs, choices, stop, s)
    ensures Ruled(params, s, c)
  {
    hide Lawful, Inv, InvBut, Table, Paced;
    InitialInv(Table(params), cfg, FreshSched(params), jobs);
    var s0 := Initial(cfg, FreshSched(params), jobs);
    LanesStart(cfg, FreshSched(params), jobs, c);
    FreshLane(params, s0.attrs);
    RunKeepsRule1(params, cfg, s0, choices, stop, c);
    TableIsLocal(params);
    var d, calls := ReachedLane(Table(params), cfg, FreshSched(params), jobs, choices, stop, s, c);
    FreshLane(params, d.attrs);
    TraceKeepsPace(params, cfg.defaultSlice, d, calls);
  }

  /** Bounded waiting on every core of every run: with boosts on, while a task stays in a
      core's queue, that core is charged less than a boost interval, the longest quantum, and
      one top-level quantum for each other task that may be ahead, whatever arrives, migrates
      or is stolen, and however timers cut the slices. */
  lemma WaitIsBoundedInRuns(params: Params, cfg: Config, jobs: seq<Job>, before: seq<nat>, stop: real, s: State<Sched>,
                            choices: seq<nat>, c: nat, w: TaskId, k: nat)
    requires params.Valid() && params.boostInterval > 0.0 && params.enableBoost && !cfg.shared && c < cfg.cores
    requires Reached(Table(params), cfg, FreshSched(params), jobs, before, stop, s)
    requires Run(Table(params), cfg, s, choices, stop) && WaitsOn(Table(params), cfg, s, choices, stop, c, w)
    requires AheadAtMost(params, cfg, s, choices, stop, c, w, k) || k == |s.tasks.Keys| - 1
    ensures After(Table(params), cfg, s, choices, stop).cores[c].busy - s.cores[c].busy
          < params.boostInterval + LongestSlice(params) + TurnsAtTop(params, k)
  {
    hide Lawful, Inv, InvBut, Table, TurnsAtTop, LongestSlice, Ruled, AheadAtMost, Reached, Run;
    ReachedInv(Table(params), cfg, FreshSched(params), jobs, before, stop, s);
    ReachedRuled(params, cfg, jobs, before, stop, s, c);
    if k == |s.tasks.Keys| - 1 {
      HasTasks(Table(params), cfg, s, c, w);
      RunAheadAtMost(params, cfg, s, choices, stop, c, w);
    }
    RuledMeans(params, s, c);
    WaitFrom(params, cfg, s, choices, stop, c, w, k);
  }

  lemma HasTasks(p: Policy<Sched>, cfg: Config, s: State<Sched>, c: nat, w: TaskId)
    requires Inv(p, cfg, s) && c < cfg.Queues() && w in p.ready(s.scheds[c])
    ensures |s.tasks.Keys| > 0
  {
    assert w in s.tasks.Keys;
  }

  // ------------------------------------------------ slices and preemption

  lemma GrantIsQuantum(params: Params, cfg: Config, core: Core, x: Sched, attrs: Attrs)
    requires params.Valid() && Grants(Table(params), cfg, core, x, attrs)
    ensures core.running.Some?
    ensures var level := AttrOf(attrs, core.running.value).level;
            0 <= level < |params.levels| ==> core.granted == params.levels[level].quantum
  {
    hide AllQueued, LeastQuantum;
  }

  /** In every reachable state of either engine a running task has a level of the table, and its
      core was granted the quantum that the table has for that level. */
  lemma QuantaInRuns(params: Params, cfg: Config, jobs: seq<Job>, choices: seq<nat>, stop: real, s: State<Sched>, c: nat)
    requires params.Valid() && Reached(Table(params), cfg, FreshSched(params), jobs, choices, stop, s)
    requires c < cfg.cores && c < |s.cores| && s.cores[c].running.Some?
    ensures var level := AttrOf(s.attrs, s.cores[c].running.value).level;
            0 <= level < |params.levels| && s.cores[c].granted == params.levels[level].quantum
  {
    hide Lawful, Local, Reached, Grants, Table, Inv, InvBut;
    TableIsLocal(params);
    ReachedInv(Table(params), cfg, FreshSched(params), jobs, choices, stop, s);
    RunningArrived(Table(params), cfg, s, c);
    AllotmentsAlwaysFit(params, cfg, jobs, choices, stop, s, s.cores[c].running.value);
    var x, attrs := SlicesAreGranted(Table(params), cfg, FreshSched(params), jobs, choices, stop, s, c);
    GrantIsQuantum(params, cfg, s.cores[c], x, attrs);
  }

  lemma RunningArrived(p: Policy<Sched>, cfg: Config, s: State<Sched>, c: nat)
    requires Inv(p, cfg, s) && c < |s.cores| && s.cores[c].running.Some?
    ensures s.cores[c].running.value in s.place && s.place[s.cores[c].running.value] != Pending
  {
    RunningIsPlaced(p, s, c);
  }

  /** In every step of a run of either engine: an arrival displaces a task exactly if all cores
      of the queue it is sent to are busy and one of them runs a task below the top level. */
  lemma ArrivalsDisplaceInRuns(params: Params, cfg: Config, jobs: seq<Job>, before: seq<nat>, stop: real, s: State<Sched>, i: nat)
    returns (q: nat)
    requires params.Valid() && Reached(Table(params), cfg, FreshSched(params), jobs, before, stop, s)
    requires Shape(Table(params), cfg, s) && Earliest(s.events, i) && s.events[i].Arrival?
    ensures q < cfg.Queues()
    ensures Step(Table(params), cfg, s, i).preemptions > s.preemptions <==>
              && AllBusy(Table(params), cfg, s, q)
              && exists k: nat :: Serves(cfg, k, q) && BelowTop(s, k)
  {
    hide Lawful, Local, Places, Clock, Accounted, Timers, Step, Reached, Add, BelowTop;
    ReachedInv(Table(params), cfg, FreshSched(params), jobs, before, stop, s);
    var queue, next := ArrivalPreempts(Table(params), cfg, s, i);
    q := queue;
    ArrivesNowhere(Table(params), cfg, s, i);
    forall k: nat | Serves(cfg, k, q) && s.cores[k].running.Some?
      ensures Mlfq.Preempts(Add(params, s.scheds[q], s.attrs, s.events[i].id, true).1, s.events[i].id, s.cores[k].running.value)
         <==> BelowTop(s, k)
    {
      NewcomerPreempts(params, s, k, q, s.events[i].id);
    }
  }

  predicate BelowTop(s: State<Sched>, k: nat)
    requires k < |s.cores|
  {
    s.cores[k].running.Some? && AttrOf(s.attrs, s.cores[k].running.value).level > 0
  }

  lemma NewcomerPreempts(params: Params, s: State<Sched>, k: nat, q: nat, id: TaskId)
    requires params.Valid() && k < |s.cores| && q < |s.scheds| && Shaped(params, s.scheds[q])
    requires s.cores[k].running.Some? && s.cores[k].running != Some(id)
    ensures Mlfq.Preempts(Add(params, s.scheds[q], s.attrs, id, true).1, id, s.cores[k].running.value) <==> BelowTop(s, k)
  {
    hide Add;
    AddFacts(params, s.scheds[q], s.attrs, id, true);
  }

  // ------------------------------------------------ allotments

  /** The claim made of arrived tasks, and of queued ones that their level is their queue. */
  function FieldsClaim(params: Params): Claim<Sched>
    requires params.Valid()
  {
    Claim((a: Attr) => Budgeted(params, a), (s: Sched, x: TaskId, a: Attr) => AtHome(s, x, a))
  }

  predicate AtHome(s: Sched, x: TaskId, a: Attr) {
    forall level :: 0 <= level < |s.queues| && x in s.queues[level] ==> a.level == level
  }

  lemma HomesAreFiled(params: Params, s: Sched, attrs: Attrs)
    requires params.Valid() && Shaped(params, s)
    ensures Homes(Table(params), FieldsClaim(params), s, attrs) <==> Filed(params, Lane(s, attrs, None, 0.0))
  {
    var d := Lane(s, attrs, None, 0.0);
    if Homes(Table(params), FieldsClaim(params), s, attrs) {
      forall level, x | 0 <= level < |s.queues| && x in s.queues[level]
        ensures AttrOf(attrs, x).level == level
      {
        QueuedIn(s.queues, x);
        assert x in Table(params).ready(s);
        assert FieldsClaim(params).home(s, x, AttrOf(attrs, x));
      }
    }
    if Filed(params, d) {
      forall x | x in Table(params).ready(s)
        ensures FieldsClaim(params).home(s, x, AttrOf(attrs, x))
      {
      }
    }
  }

  lemma TableKeepsClaim(params: Params)
    requires params.Valid()
    ensures Preserves(Table(params), FieldsClaim(params))
  {
    hide Add, Mlfq.Charge, AddPreserves, ChargePreserves, Homes, AllQueued, DropAll;
    var p, k := Table(params), FieldsClaim(params);
    forall s: Sched, attrs, id, unstarted | p.valid(s) && id !in p.ready(s) && Homes(p, k, s, attrs)
      ensures AddPreserves(p, k, s, attrs, id, unstarted)
    {
      AddKeepsClaim(params, s, attrs, id, unstarted);
    }
    forall s: Sched, attrs, id, cpu | p.valid(s) && id !in p.ready(s) && cpu >= 0.0 && Homes(p, k, s, attrs)
      ensures ChargePreserves(p, k, s, attrs, id, cpu)
    {
      ChargeKeepsClaim(params, s, attrs, id, cpu);
    }
    forall s: Sched, attrs, id | p.valid(s) && Homes(p, k, s, attrs)
      ensures Homes(p, k, p.remove(s, id), attrs)
    {
      RemoveKeepsClaim(params, s, attrs, id);
    }
  }

  lemma AddKeepsClaim(params: Params, s: Sched, attrs: Attrs, id: TaskId, unstarted: bool)
    requires params.Valid() && Shaped(params, s) && id !in AllQueued(s.queues)
    requires Homes(Table(params), FieldsClaim(params), s, attrs)
    ensures AddPreserves(Table(params), FieldsClaim(params), s, attrs, id, unstarted)
  {
    hide Add, Homes, Filed, Allotment;
    var r := Add(params, s, attrs, id, unstarted);
    AddFacts(params, s, attrs, id, unstarted);
    HomesAreFiled(params, s, attrs);
    AddKeepsFiled(params, Lane(s, attrs, None, 0.0), id, unstarted);
    HomesAreFiled(params, r.0, r.1);
  }

  /** Whoever runs. */
  lemma SameFiled(params: Params, d: Lane<Sched>, d': Lane<Sched>)
    requires Filed(params, d) && d'.sched == d.sched && d'.attrs == d.attrs
    ensures Filed(params, d')
  {
  }

  lemma ChargeKeepsClaim(params: Params, s: Sched, attrs: Attrs, id: TaskId, cpu: real)
    requires params.Valid() && Shaped(params, s) && id !in AllQueued(s.queues) && cpu >= 0.0
    requires Homes(Table(params), FieldsClaim(params), s, attrs)
    ensures ChargePreserves(Table(params), FieldsClaim(params), s, attrs, id, cpu)
  {
    hide Mlfq.Charge, Homes, Filed, Allotment, QueuedAtTop, Spend;
    var r := Mlfq.Charge(params, s, attrs, id, cpu);
    HomesAreFiled(params, s, attrs);
    ChargeFacts(params, s, attrs, id, cpu);
    var d := Lane(s, attrs, Some(id), 0.0);
    SameFiled(params, Lane(s, attrs, None, 0.0), d);
    ChargeKeepsFiled(params, d, cpu);
    assert Filed(params, Lane(r.0, r.1, None, 0.0));
    HomesAreFiled(params, r.0, r.1);
    forall x | Budgeted(params, AttrOf(attrs, x))
      ensures Budgeted(params, AttrOf(r.1, x))
    {
      ChargeKeepsBudget(params, s, attrs, id, cpu, x);
    }
  }

  /** After a boost a queued task is at the top with a full allotment. */
  lemma BoostedIsFull(params: Params, s: Sched, attrs: Attrs, x: TaskId)
    requires params.Valid() && Filed(params, Lane(s, attrs, None, 0.0)) && x in AllQueued(s.queues)
    ensures Budgeted(params, QueuedAtTop(params, s, attrs, x))
  {
    hide Allotment, AllQueued;
    LowerCounts(s.queues, |s.queues|);
    assert s.queues[..|s.queues|] == s.queues;
    assert x in s.queues[0] + Lower(s.queues, |s.queues|);
    assert x in s.queues[0] ==> AttrOf(attrs, x).level == 0;
  }

  /** A charge leaves every task some of its level's allotment. */
  lemma ChargeKeepsBudget(params: Params, s: Sched, attrs: Attrs, id: TaskId, cpu: real, x: TaskId)
    requires params.Valid() && Filed(params, Lane(s, attrs, None, 0.0)) && id !in AllQueued(s.queues) && cpu >= 0.0
    requires Budgeted(params, AttrOf(attrs, x))
    ensures Budgeted(params, AttrOf(Mlfq.Charge(params, s, attrs, id, cpu).1, x))
  {
    hide Mlfq.Charge, Allotment, AllQueued, QueuedAtTop;
    ChargeFacts(params, s, attrs, id, cpu);
    assert ChargedAttr(params, s, attrs, id, cpu, x, AttrOf(Mlfq.Charge(params, s, attrs, id, cpu).1, x));
    if x in AllQueued(s.queues) {
      BoostedIsFull(params, s, attrs, x);
    }
  }

  lemma RemoveKeepsClaim(params: Params, s: Sched, attrs: Attrs, id: TaskId)
    requires params.Valid() && Shaped(params, s) && Homes(Table(params), FieldsClaim(params), s, attrs)
    ensures Homes(Table(params), FieldsClaim(params), Table(params).remove(s, id), attrs)
  {
    hide Homes;
    HomesAreFiled(params, s, attrs);
    assert Filed(params, Lane(Table(params).remove(s, id), attrs, None, 0.0));
    HomesAreFiled(params, Table(params).remove(s, id), attrs);
  }

  /** In every reachable state of either engine, every arrived task has a level of the table
      with some of that level's allotment left, at most all of it, and every queued task is
      in the queue of its level. */
  lemma AllotmentsAlwaysFit(params: Params, cfg: Config, jobs: seq<Job>, choices: seq<nat>, stop: real,
                            s: State<Sched>, id: TaskId)
    requires params.Valid() && Reached(Table(params), cfg, FreshSched(params), jobs, choices, stop, s)
    requires id in s.place && s.place[id] != Pending
    ensures var a := AttrOf(s.attrs, id);
            && 0 <= a.level < |params.levels|
            && 0.0 < a.allotment <= WholeAllotment(params.levels[a.level])
            && forall q, level ::
                 0 <= q < |s.scheds| && 0 <= level < |s.scheds[q].queues| && id in s.scheds[q].queues[level] ==>
                   a.level == level
  {
    hide Lawful, Local, Preserves, Reached, Table, Homes;
    var p, k := Table(params), FieldsClaim(params);
    TableIsLocal(params);
    TableKeepsClaim(params);
    FieldsAlwaysFit(p, cfg, FreshSched(params), jobs, choices, stop, s, k);
    assert k.fit(AttrOf(s.attrs, id));
    forall q, level | 0 <= q < |s.scheds| && 0 <= level < |s.scheds[q].queues| && id in s.scheds[q].queues[level]
      ensures AttrOf(s.attrs, id).level == level
    {
      HomeIsLevel(params, s.scheds[q], s.attrs, id, level);
    }
  }

  lemma HomeIsLevel(params: Params, s: Sched, attrs: Attrs, id: TaskId, level: nat)
    requires params.Valid() && Homes(Table(params), FieldsClaim(params), s, attrs)
    requires level < |s.queues| && id in s.queues[level]
    ensures AttrOf(attrs, id).level == level
  {
    QueuedIn(s.queues, id);
    assert id in Table(params).ready(s);
    assert FieldsClaim(params).home(s, id, AttrOf(attrs, id));
  }

  /** On every core of every run: take the calls by which a run leads on from a reachable
      state in which w has its level's whole allotment.  If w is neither demoted nor boosted
      along them and then charged, it goes down a level exactly if its time there reaches the
      allotment, is past it by less than a quantum, and then has the next level's whole
      allotment. */
  lemma DemotedByAllotmentInRuns(params: Params, cfg: Config, jobs: seq<Job>, before: seq<nat>, stop: real, s: State<Sched>,
                                 choices: seq<nat>, c: nat, w: TaskId, cpu: real) returns (calls: seq<Call>)
    requires params.Valid() && params.boostInterval > 0.0 && !cfg.shared && c < cfg.cores
    requires Reached(Table(params), cfg, FreshSched(params), jobs, before, stop, s)
    requires Run(Table(params), cfg, s, choices, stop)
    requires var a := AttrOf(s.attrs, w);
             0 <= a.level < |params.levels| - 1 && a.allotment == WholeAllotment(params.levels[a.level])
    ensures Projects(Table(params), cfg, s, After(Table(params), cfg, s, choices, stop), c, calls)
    ensures var r, level := After(Table(params), cfg, s, choices, stop), AttrOf(s.attrs, w).level;
            r.cores[c].running == Some(w) && 0.0 <= cpu <= r.cores[c].granted
            && StaysAtLevel(params, cfg.defaultSlice, View(s, c), calls, w) ==>
              var time := TimeOf(params, cfg.defaultSlice, View(s, c), calls, w) + cpu;
              var after := AttrOf(Release(Table(params), View(r, c), cpu).attrs, w);
              var whole := WholeAllotment(params.levels[level]);
              && time < whole + params.levels[level].quantum
              && (time >= whole <==> after.level == level + 1)
              && (time < whole <==> after.level == level)
              && (time >= whole ==> after.allotment == WholeAllotment(params.levels[level + 1]))
  {
    hide Lawful, Local, Places, Clock, Accounted, Timers, Table, Reached, Run, After, Trace, End, StaysAtLevel, TimeOf, Release, Paced,
      Filed, Sound, Alone, LastRoster, Ruled;
    TableIsLocal(params);
    ReachedInv(Table(params), cfg, FreshSched(params), jobs, before, stop, s);
    ReachedRuled(params, cfg, jobs, before, stop, s, c);
    RuledLane(params, s, c);
    LaneSound(Table(params), cfg, s, c);
    calls := RunIsTrace(Table(params), cfg, s, choices, stop, c);
    var r := After(Table(params), cfg, s, choices, stop);
    if r.cores[c].running == Some(w) && 0.0 <= cpu <= r.cores[c].granted
       && StaysAtLevel(params, cfg.defaultSlice, View(s, c), calls, w) {
      DemotedByAllotment(params, cfg.defaultSlice, View(s, c), calls, w, cpu);
    }
  }

  lemma RuledLane(params: Params, s: State<Sched>, c: nat)
    requires params.Valid() && Ruled(params, s, c)
    ensures c < |s.scheds| && c < |s.cores| && Filed(params, View(s, c)) && Paced(params, View(s, c))
  {
  }
}

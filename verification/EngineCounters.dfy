/** What the counters of the engines count: preemptions are those of the tasks, a context
    switch is a dispatch or an arrival that preempts, and a steal moves a task to another
    core's queue. */
module EngineCounters {
  import opened Common
  import opened Tasks
  import opened Policies
  import opened Engine
  import opened EngineInvariant
  import opened EngineRuns
  import opened EngineSteps
  import opened EngineUsage

  /** Preemptions of the listed tasks. */
  function Interruptions(tasks: map<TaskId, Task>, ids: seq<TaskId>): nat
    requires forall id :: id in ids ==> id in tasks
  {
    if ids == [] then 0
    else Interruptions(tasks, ids[..|ids| - 1]) + tasks[ids[|ids| - 1]].preemptions
  }

  /** Busy ones among the first n cores. */
  function BusyCores(cores: seq<Core>, n: nat): nat
    requires n <= |cores|
  {
    if n == 0 then 0 else BusyCores(cores, n - 1) + if cores[n - 1].running.Some? then 1 else 0
  }

  /** Each dispatch so far ended in a preemption or a completion, or has not ended. */
  function Dispatches<S>(s: State<S>): nat {
    s.preemptions + |s.completed| + BusyCores(s.cores, |s.cores|)
  }

  /** Of the preemptions, urgent many were by an arrival. */
  ghost predicate Counted<S>(s: State<S>, ids: seq<TaskId>, urgent: nat) {
    && Lists(s, ids) && s.preemptions == Interruptions(s.tasks, ids)
    && s.switches == Dispatches(s) + urgent && urgent <= s.preemptions
  }

  lemma {:induction false} InterruptionsSame(a: map<TaskId, Task>, b: map<TaskId, Task>, ids: seq<TaskId>)
    requires forall x :: x in ids ==> x in a && x in b && b[x].preemptions == a[x].preemptions
    ensures Interruptions(b, ids) == Interruptions(a, ids)
  {
    if ids != [] {
      InterruptionsSame(a, b, ids[..|ids| - 1]);
    }
  }

  lemma {:induction false} InterruptionsMore(a: map<TaskId, Task>, b: map<TaskId, Task>, ids: seq<TaskId>, id: TaskId)
    requires forall i, j :: 0 <= i < j < |ids| ==> ids[i] != ids[j]
    requires forall x :: x in ids ==> x in a && x in b && b[x].preemptions == a[x].preemptions + if x == id then 1 else 0
    requires id in ids
    ensures Interruptions(b, ids) == Interruptions(a, ids) + 1
  {
    var rest := ids[..|ids| - 1];
    if ids[|ids| - 1] == id {
      InterruptionsSame(a, b, rest);
    } else {
      InterruptionsMore(a, b, rest, id);
    }
  }

  lemma {:induction false} BusySame(a: seq<Core>, b: seq<Core>, n: nat)
    requires n <= |a| && n <= |b| && forall k :: 0 <= k < n ==> b[k].running.Some? == a[k].running.Some?
    ensures BusyCores(b, n) == BusyCores(a, n)
  {
    if n > 0 {
      BusySame(a, b, n - 1);
    }
  }

  /** Core c becomes busy in b. */
  lemma {:induction false} BusyMore(a: seq<Core>, b: seq<Core>, n: nat, c: nat)
    requires c < n <= |a| && |b| == |a| && a[c].running.None? && b[c].running.Some?
    requires forall k :: 0 <= k < n && k != c ==> b[k].running.Some? == a[k].running.Some?
    ensures BusyCores(b, n) == BusyCores(a, n) + 1
  {
    if c == n - 1 {
      BusySame(a, b, n - 1);
    } else {
      BusyMore(a, b, n - 1, c);
    }
  }

  // ------------------------------------------------ what the operations count

  /** Nothing is counted. */
  ghost predicate SameCounts<S>(s: State<S>, r: State<S>) {
    && r.tasks.Keys == s.tasks.Keys && r.completed == s.completed && r.cores == s.cores
    && r.switches == s.switches && r.preemptions == s.preemptions
    && forall x :: x in s.tasks ==> SamePreemptions(s.tasks[x], r.tasks[x])
  }

  predicate SamePreemptions(t: Task, u: Task) {
    u.preemptions == t.preemptions
  }

  lemma SameCountsKeep<S>(s: State<S>, r: State<S>, ids: seq<TaskId>, urgent: nat)
    requires Counted(s, ids, urgent) && SameCounts(s, r)
    ensures Counted(r, ids, urgent)
  {
    forall x | x in ids
      ensures r.tasks[x].preemptions == s.tasks[x].preemptions
    {
      assert SamePreemptions(s.tasks[x], r.tasks[x]);
    }
    InterruptionsSame(s.tasks, r.tasks, ids);
  }

  lemma EnqueueCounts<S(!new)>(p: Policy<S>, cfg: Config, s: State<S>, id: TaskId, q: nat)
    requires Shape(p, cfg, s) && id in s.tasks && q < cfg.Queues()
    ensures SameCounts(s, Enqueue(p, cfg, s, id, q)) && Enqueue(p, cfg, s, id, q).steals == s.steals
  {
    hide Lawful;
  }

  /** The task of core c is off the core, counted as preempted or completed. */
  ghost predicate Released<S>(s: State<S>, r: State<S>, c: nat, done: bool) {
    && c < |s.cores| && s.cores[c].running.Some? && s.cores[c].running.value in s.tasks
    && r.tasks.Keys == s.tasks.Keys && |r.cores| == |s.cores| && r.switches == s.switches && r.cores[c].running.None?
    && (forall k :: 0 <= k < |s.cores| && k != c ==> r.cores[k] == s.cores[k])
    && (forall x :: x in s.tasks ==>
          r.tasks[x].preemptions == s.tasks[x].preemptions + if !done && s.cores[c].running == Some(x) then 1 else 0)
    && |r.completed| == |s.completed| + (if done then 1 else 0)
    && r.preemptions == s.preemptions + if done then 0 else 1
  }

  lemma ReleaseCounts<S(!new)>(p: Policy<S>, cfg: Config, s: State<S>, c: nat)
    requires Busy(p, cfg, s, c)
    ensures Released(s, Requeue(p, cfg, Charge(p, cfg, s, c), c), c, false)
    ensures Requeue(p, cfg, Charge(p, cfg, s, c), c).steals == s.steals
  {
    hide Lawful;
  }

  lemma CompletionCounts<S(!new)>(p: Policy<S>, cfg: Config, s: State<S>, c: nat)
    requires Busy(p, cfg, s, c)
    ensures Released(s, Complete(p, cfg, Charge(p, cfg, s, c), c), c, true)
    ensures Complete(p, cfg, Charge(p, cfg, s, c), c).steals == s.steals
  {
    hide Lawful;
  }

  lemma ReleasedKeep<S>(s: State<S>, r: State<S>, c: nat, done: bool, ids: seq<TaskId>, urgent: nat)
    requires Counted(s, ids, urgent) && Released(s, r, c, done)
    ensures Counted(r, ids, urgent)
  {
    BusyMore(r.cores, s.cores, |s.cores|, c);
    if done {
      InterruptionsSame(s.tasks, r.tasks, ids);
    } else {
      InterruptionsMore(s.tasks, r.tasks, ids, s.cores[c].running.value);
    }
  }

  /** Core c takes a task, counted as a switch. */
  ghost predicate Started<S>(s: State<S>, r: State<S>, c: nat) {
    && c < |s.cores| && s.cores[c].running.None?
    && r.tasks.Keys == s.tasks.Keys && |r.cores| == |s.cores| && r.switches == s.switches + 1 && r.cores[c].running.Some?
    && (forall k :: 0 <= k < |s.cores| && k != c ==> r.cores[k] == s.cores[k])
    && (forall x :: x in s.tasks ==> SamePreemptions(s.tasks[x], r.tasks[x]))
    && r.completed == s.completed && r.preemptions == s.preemptions
  }

  lemma LaunchCounts<S(!new)>(p: Policy<S>, cfg: Config, s: State<S>, c: nat, d: Decision)
    requires Shape(p, cfg, s) && c < cfg.cores && s.cores[c].running.None? && d.id in s.tasks
    ensures var r := Launch(p, cfg, RemoveFrom(p, cfg, s, d.id, cfg.QueueOf(c)), c, d);
            Started(s, r, c) && r.steals == s.steals
  {
    hide Lawful;
  }

  lemma StolenCounts<S(!new)>(p: Policy<S>, cfg: Config, s: State<S>, c: nat, v: nat, id: TaskId)
    requires Shape(p, cfg, s) && c < cfg.Queues() && v < cfg.Queues() && id in s.tasks
    ensures SameCounts(s, Stolen(p, cfg, s, c, v, id)) && Stolen(p, cfg, s, c, v, id).steals == s.steals + 1
  {
    hide Lawful;
  }

  lemma StartedKeep<S>(s: State<S>, r: State<S>, c: nat, ids: seq<TaskId>, urgent: nat)
    requires Counted(s, ids, urgent) && Started(s, r, c)
    ensures Counted(r, ids, urgent)
  {
    BusyMore(s.cores, r.cores, |s.cores|, c);
    forall x | x in ids
      ensures r.tasks[x].preemptions == s.tasks[x].preemptions
    {
      assert SamePreemptions(s.tasks[x], r.tasks[x]);
    }
    InterruptionsSame(s.tasks, r.tasks, ids);
  }

  lemma SwitchCounts<S>(s: State<S>, ids: seq<TaskId>, urgent: nat)
    requires Counted(s, ids, urgent) && urgent < s.preemptions
    ensures Counted(s.(switches := s.switches + 1), ids, urgent + 1)
  {
  }

  // ------------------------------------------------ one step

  /** The arrival on core c finds it busy and takes it. */
  predicate Displaces<S>(s: State<S>, e: Event, c: int) {
    e.Arrival? && 0 <= c < |s.cores| && s.cores[c].running.Some?
  }

  lemma ArrivalCounts<S(!new)>(p: Policy<S>, cfg: Config, u: State<S>, id: TaskId, c: int, q: nat, ids: seq<TaskId>, urgent: nat)
    requires Shape(p, cfg, u) && id in u.tasks && q < cfg.Queues() && c < cfg.cores && Counted(u, ids, urgent)
    ensures var s1 := Enqueue(p, cfg, u, id, q);
            var busy := c >= 0 && s1.cores[c].running.Some?;
            var t := if busy then Preempt(p, cfg, s1, c) else s1;
            && Counted(t, ids, urgent + if busy then 1 else 0) && t.steals == u.steals && s1.cores == u.cores
            && t.preemptions == u.preemptions + if busy then 1 else 0
  {
    hide Lawful, Enqueue, Charge, Requeue, Counted, Released;
    var s1 := Enqueue(p, cfg, u, id, q);
    EnqueueCounts(p, cfg, u, id, q);
    SameCountsKeep(u, s1, ids, urgent);
    if c >= 0 && s1.cores[c].running.Some? {
      ReleaseCounts(p, cfg, s1, c);
      var s2 := Requeue(p, cfg, Charge(p, cfg, s1, c), c);
      ReleasedKeep(s1, s2, c, false, ids, urgent);
      NotAllUrgent(s1, s2, c, ids, urgent);
      SwitchCounts(s2, ids, urgent);
      OneReleased(s1, s2, c);
    }
  }

  lemma PreparedCounts<S(!new)>(p: Policy<S>, cfg: Config, s: State<S>, i: nat, t: State<S>, c: int, q: nat, next: nat,
                                ids: seq<TaskId>, urgent: nat)
    requires Shape(p, cfg, s) && i < |s.events| && Prepared(p, cfg, s, i, t, c, q, next) && Counted(s, ids, urgent)
    ensures Counted(t, ids, urgent + if Displaces(s, s.events[i], c) then 1 else 0) && t.steals == s.steals
    ensures s.events[i].Arrival? ==> t.preemptions == s.preemptions + if Displaces(s, s.events[i], c) then 1 else 0
  {
    hide Lawful, Enqueue, Charge, Requeue, Complete, Preempt, Counted, Released;
    var e, u := s.events[i], Pop(p, cfg, s, i);
    if e.Arrival? {
      SameCountsKeep(s, u.(nextCore := next), ids, urgent);
      ArrivalCounts(p, cfg, u.(nextCore := next), e.id, c, q, ids, urgent);
    } else {
      SameCountsKeep(s, u, ids, urgent);
      if e.core < cfg.cores && u.cores[e.core].running == Some(e.id) {
        ReleaseCounts(p, cfg, u, c);
        CompletionCounts(p, cfg, u, c);
        ReleasedKeep(u, t, c, Charge(p, cfg, u, c).tasks[e.id].IsCompleted(), ids, urgent);
      }
    }
  }

  lemma OneReleased<S>(s: State<S>, r: State<S>, c: nat)
    requires Released(s, r, c, false)
    ensures r.preemptions == s.preemptions + 1
  {
  }

  lemma NotAllUrgent<S>(s: State<S>, r: State<S>, c: nat, ids: seq<TaskId>, urgent: nat)
    requires Counted(s, ids, urgent) && Released(s, r, c, false)
    ensures urgent < r.preemptions
  {
  }

  lemma DispatchCounts<S(!new)>(p: Policy<S>, cfg: Config, t: State<S>, c: nat, ids: seq<TaskId>, urgent: nat)
    requires Inv(p, cfg, t) && c < cfg.cores && t.cores[c].running.None? && Counted(t, ids, urgent)
    ensures Counted(Dispatch(p, cfg, t, c), ids, urgent)
  {
    hide Lawful, Accounted, Clock, Timers, Places, Dispatch, Launch, Stolen, Counted;
    var t2, d := DispatchParts(p, cfg, t, c);
    if d.Some? {
      if t2 != t {
        var v: nat, id :| IsStolen(p, cfg, t, c, t2, v, id);
        StolenCounts(p, cfg, t, c, v, id);
        SameCountsKeep(t, t2, ids, urgent);
      }
      LaunchCounts(p, cfg, t2, c, d.value);
      StartedKeep(t2, Dispatch(p, cfg, t, c), c, ids, urgent);
    }
  }

  ghost predicate NeverPreempts<S(!new)>(p: Policy<S>) {
    forall x, attrs, id, running :: !p.preempts(x, attrs, id, running)
  }

  lemma NobodyDisplaced<S(!new)>(p: Policy<S>, cfg: Config, s: State<S>, i: nat, t: State<S>, c: int, q: nat, next: nat)
    requires Shape(p, cfg, s) && i < |s.events| && Prepared(p, cfg, s, i, t, c, q, next) && NeverPreempts(p)
    ensures !Displaces(s, s.events[i], c)
  {
    hide Lawful;
  }

  /** The event is an arrival that displaces a running task. */
  ghost predicate Displacing<S(!new)>(p: Policy<S>, cfg: Config, s: State<S>, i: nat)
    requires Shape(p, cfg, s) && i < |s.events|
  {
    s.events[i].Arrival? && Step(p, cfg, s, i).preemptions > s.preemptions
  }

  lemma StepCounts<S(!new)>(p: Policy<S>, cfg: Config, s: State<S>, i: nat, ids: seq<TaskId>, urgent: nat)
    requires Inv(p, cfg, s) && Earliest(s.events, i) && Counted(s, ids, urgent)
    ensures Counted(Step(p, cfg, s, i), ids, urgent + if Displacing(p, cfg, s, i) then 1 else 0)
    ensures NeverPreempts(p) ==> !Displacing(p, cfg, s, i)
  {
    hide Lawful, Accounted, Clock, Timers, Places, Dispatch, Step, Prepared, Counted, NeverPreempts;
    var t, c, q, next := StepParts(p, cfg, s, i);
    if NeverPreempts(p) {
      NobodyDisplaced(p, cfg, s, i, t, c, q, next);
    }
    PreparedCounts(p, cfg, s, i, t, c, q, next, ids, urgent);
    if c >= 0 {
      DispatchCounts(p, cfg, t, c, ids, urgent + if Displaces(s, s.events[i], c) then 1 else 0);
      DispatchPreemptsNobody(p, cfg, t, c);
    }
  }

  /** Displacing arrivals among the events of a run. */
  ghost function Displacements<S(!new)>(p: Policy<S>, cfg: Config, s: State<S>, choices: seq<nat>, stop: real): nat
    requires Shape(p, cfg, s) && Run(p, cfg, s, choices, stop)
    decreases |choices|
  {
    if choices == [] then 0
    else (if Displacing(p, cfg, s, choices[0]) then 1 else 0)
         + Displacements(p, cfg, Step(p, cfg, s, choices[0]), choices[1..], stop)
  }

  lemma {:induction false} RunCounts<S(!new)>(p: Policy<S>, cfg: Config, s: State<S>, choices: seq<nat>, stop: real,
                                              ids: seq<TaskId>, urgent: nat)
    requires Inv(p, cfg, s) && Run(p, cfg, s, choices, stop) && Counted(s, ids, urgent)
    ensures Counted(After(p, cfg, s, choices, stop), ids, urgent + Displacements(p, cfg, s, choices, stop))
    ensures NeverPreempts(p) ==> Displacements(p, cfg, s, choices, stop) == 0
    decreases |choices|
  {
    hide Lawful, Accounted, Clock, Timers, Places, Step, Counted, NeverPreempts, Displacing;
    if choices != [] {
      StepCounts(p, cfg, s, choices[0], ids, urgent);
      StepKeeps(p, cfg, s, choices[0]);
      RunCounts(p, cfg, Step(p, cfg, s, choices[0]), choices[1..], stop, ids,
                urgent + if Displacing(p, cfg, s, choices[0]) then 1 else 0);
    }
  }

  lemma {:induction false} NothingCounted<S>(cfg: Config, sched: S, jobs: seq<Job>)
    ensures var s := Initial(cfg, sched, jobs);
            && s.switches == s.preemptions == 0 && s.completed == []
            && (forall id :: id in s.tasks ==> s.tasks[id].preemptions == 0)
  {
    if jobs != [] {
      NothingCounted(cfg, sched, jobs[..|jobs| - 1]);
    }
  }

  lemma {:induction false} NoneInterrupted(tasks: map<TaskId, Task>, ids: seq<TaskId>)
    requires forall id :: id in ids ==> id in tasks && tasks[id].preemptions == 0
    ensures Interruptions(tasks, ids) == 0
  {
    if ids != [] {
      NoneInterrupted(tasks, ids[..|ids| - 1]);
    }
  }

  lemma {:induction false} NoneBusy(cores: seq<Core>, n: nat)
    requires n <= |cores| && forall k :: 0 <= k < n ==> cores[k].running.None?
    ensures BusyCores(cores, n) == 0
  {
    if n > 0 {
      NoneBusy(cores, n - 1);
    }
  }

  /** In every reachable state of either engine the preemption counter is the sum of the tasks'
      preemptions; every dispatch so far ended in a preemption or a completion or goes on, and
      the context switches are the dispatches and, counted once more, the arrivals that displaced
      a task, of which there are none unless the policy preempts. */
  lemma SwitchesAddUp<S(!new)>(p: Policy<S>, cfg: Config, sched: S, jobs: seq<Job>, choices: seq<nat>, stop: real, s: State<S>)
    requires Reached(p, cfg, sched, jobs, choices, stop, s)
    ensures (forall id :: id in Ids(jobs) ==> id in s.tasks) && s.preemptions == Interruptions(s.tasks, Ids(jobs))
    ensures var displaced := Displacements(p, cfg, Initial(cfg, sched, jobs), choices, stop);
            && s.switches == s.preemptions + |s.completed| + BusyCores(s.cores, |s.cores|) + displaced
            && displaced <= s.preemptions
            && (NeverPreempts(p) ==> displaced == 0)
  {
    hide Lawful, InvBut, Run, After, Initial, NeverPreempts, Displacements, Interruptions, BusyCores;
    InitialInv(p, cfg, sched, jobs);
    InitialCounted(p, cfg, sched, jobs);
    RunCounts(p, cfg, Initial(cfg, sched, jobs), choices, stop, Ids(jobs), 0);
  }

  lemma InitialCounted<S(!new)>(p: Policy<S>, cfg: Config, sched: S, jobs: seq<Job>)
    requires Lawful(p) && cfg.Valid() && Fresh(p, sched) && ValidJobs(jobs)
    ensures Counted(Initial(cfg, sched, jobs), Ids(jobs), 0)
  {
    hide Lawful, Places, Clock, Accounted, Timers, Initial, Interruptions, BusyCores;
    var s0 := Initial(cfg, sched, jobs);
    InitialInv(p, cfg, sched, jobs);
    InitialLists(s0, jobs);
    NothingCounted(cfg, sched, jobs);
    NoneInterrupted(s0.tasks, Ids(jobs));
    NoneBusy(s0.cores, |s0.cores|);
  }

  // ------------------------------------------------ who goes where

  /** Queued tasks stay where they are; a task may join queue q. */
  predicate Joins(before: map<TaskId, Place>, after: map<TaskId, Place>, q: nat) {
    && after.Keys == before.Keys
    && forall x :: x in before && (before[x].Queued? || (after[x].Queued? && after[x] != Queued(q))) ==> after[x] == before[x]
  }

  lemma PreparedStay<S(!new)>(p: Policy<S>, cfg: Config, s: State<S>, i: nat, t: State<S>, c: int, q: nat, next: nat)
    requires Inv(p, cfg, s) && i < |s.events| && Prepared(p, cfg, s, i, t, c, q, next)
    requires c >= 0 ==> q == cfg.QueueOf(c)
    ensures Joins(s.place, t.place, q)
    ensures s.events[i].Arrival? ==> s.events[i].id in t.place && t.place[s.events[i].id] == Queued(q)
    ensures t.nextCore == if s.events[i].Arrival? then next else s.nextCore
  {
    hide Lawful, Clock, Accounted, Timers, Takes, Places, Joins, Enqueue, Preempt, Charge, Requeue, Complete;
    var e, u := s.events[i], Pop(p, cfg, s, i);
    if e.Arrival? {
      IsPending(p, cfg, s, i);
      EnqueuePlaces(p, cfg, u.(nextCore := next), e.id, q);
      OneJoins(s.place, e.id, q);
      if c >= 0 && s.cores[c].running.Some? {
        RunningIsPlaced(p, s, c);
        PreemptPlaces(p, cfg, Enqueue(p, cfg, u.(nextCore := next), e.id, q), c);
        TwoJoin(s.place, e.id, s.cores[c].running.value, q);
      }
    } else if e.core < cfg.cores && s.cores[e.core].running == Some(e.id) {
      RunningIsPlaced(p, s, e.core);
      ReleasePlaces(p, cfg, u, e.core);
      OneJoins(s.place, e.id, q);
    } else {
      NoneJoins(s.place, q);
    }
  }

  lemma NoneJoins(place: map<TaskId, Place>, q: nat)
    ensures Joins(place, place, q)
  {
  }

  lemma OneJoins(place: map<TaskId, Place>, x: TaskId, q: nat)
    requires x in place && !place[x].Queued?
    ensures Joins(place, place[x := Queued(q)], q) && Joins(place, place[x := Finished], q)
  {
  }

  lemma TwoJoin(place: map<TaskId, Place>, x: TaskId, y: TaskId, q: nat)
    requires x in place && y in place && !place[x].Queued? && !place[y].Queued?
    ensures Joins(place, place[x := Queued(q)][y := Queued(q)], q)
  {
  }

  lemma EnqueuePlaces<S(!new)>(p: Policy<S>, cfg: Config, s: State<S>, id: TaskId, q: nat)
    requires Shape(p, cfg, s) && id in s.tasks && q < cfg.Queues()
    ensures var r := Enqueue(p, cfg, s, id, q);
            r.place == s.place[id := Queued(q)] && r.nextCore == s.nextCore && r.cores == s.cores
  {
    hide Lawful;
  }

  lemma IsPending<S(!new)>(p: Policy<S>, cfg: Config, s: State<S>, i: nat)
    requires Inv(p, cfg, s) && i < |s.events| && s.events[i].Arrival?
    ensures s.events[i].id in s.place && s.place[s.events[i].id] == Pending
  {
    assert s.events[i] in s.events && Awaits(s, s.events[i]);
  }

  lemma ReleasePlaces<S(!new)>(p: Policy<S>, cfg: Config, s: State<S>, c: nat)
    requires Busy(p, cfg, s, c)
    ensures Requeue(p, cfg, Charge(p, cfg, s, c), c).place == s.place[s.cores[c].running.value := Queued(cfg.QueueOf(c))]
    ensures Requeue(p, cfg, Charge(p, cfg, s, c), c).nextCore == s.nextCore
    ensures Complete(p, cfg, Charge(p, cfg, s, c), c).place == s.place[s.cores[c].running.value := Finished]
    ensures Complete(p, cfg, Charge(p, cfg, s, c), c).nextCore == s.nextCore
  {
    hide Lawful;
  }

  lemma PreemptPlaces<S(!new)>(p: Policy<S>, cfg: Config, s: State<S>, c: nat)
    requires Busy(p, cfg, s, c)
    ensures Preempt(p, cfg, s, c).place == s.place[s.cores[c].running.value := Queued(cfg.QueueOf(c))]
    ensures Preempt(p, cfg, s, c).nextCore == s.nextCore
  {
    hide Lawful, Charge, Requeue;
    ReleasePlaces(p, cfg, s, c);
  }

  lemma LaunchPlaces<S(!new)>(p: Policy<S>, cfg: Config, s: State<S>, c: nat, d: Decision)
    requires Shape(p, cfg, s) && c < cfg.cores && d.id in s.tasks
    ensures var r := Launch(p, cfg, RemoveFrom(p, cfg, s, d.id, cfg.QueueOf(c)), c, d);
            r.place == s.place[d.id := OnCore(c)] && r.nextCore == s.nextCore
  {
    hide Lawful;
  }

  lemma StolenPlaces<S(!new)>(p: Policy<S>, cfg: Config, s: State<S>, c: nat, v: nat, id: TaskId)
    requires Shape(p, cfg, s) && c < cfg.Queues() && v < cfg.Queues() && id in s.tasks
    ensures Stolen(p, cfg, s, c, v, id).place == s.place[id := Queued(c)] && Stolen(p, cfg, s, c, v, id).nextCore == s.nextCore
  {
    hide Lawful;
  }

  /** A task queued on core v in s is neither there nor on core v in r. */
  predicate Moved<S>(s: State<S>, r: State<S>, x: TaskId, v: nat) {
    x in s.place && x in r.place && s.place[x] == Queued(v) && r.place[x] != Queued(v) && r.place[x] != OnCore(v)
  }

  /** Before a dispatch on core c a task may be stolen; then core c takes one of its queue. */
  lemma DispatchPlaces<S(!new)>(p: Policy<S>, cfg: Config, t: State<S>, c: nat) returns (stolen: Option<TaskId>, taken: Option<TaskId>)
    requires Inv(p, cfg, t) && c < cfg.cores && t.cores[c].running.None? && !cfg.shared
    ensures stolen.Some? ==> stolen.value in t.place && t.place[stolen.value].Queued? && t.place[stolen.value] != Queued(c)
    ensures var r := Dispatch(p, cfg, t, c);
            var place := if stolen.Some? then t.place[stolen.value := Queued(c)] else t.place;
            && r.nextCore == t.nextCore && r.steals == t.steals + (if stolen.Some? then 1 else 0)
            && (taken.Some? ==> taken.value in place && place[taken.value] == Queued(c))
            && r.place == if taken.Some? then place[taken.value := OnCore(c)] else place
  {
    hide Lawful, Accounted, Clock, Timers, Places, Dispatch, Launch, Stolen;
    var t2, d := DispatchParts(p, cfg, t, c);
    stolen, taken := None, None;
    if d.Some? {
      taken := Some(d.value.id);
      LaunchCounts(p, cfg, t2, c, d.value);
      LaunchPlaces(p, cfg, t2, c, d.value);
      ReadyIsPlaced(p, t2, c, d.value.id);
      if t2 != t {
        var v: nat, id :| IsStolen(p, cfg, t, c, t2, v, id);
        stolen := Some(id);
        ReadyIsPlaced(p, t, v, id);
        StolenCounts(p, cfg, t, c, v, id);
        StolenPlaces(p, cfg, t, c, v, id);
      }
    }
  }

  /** In every step of the per-core engine the steal counter moves, by one, exactly if some
      task leaves its queue without running on that queue's core. */
  lemma StealsAreCounted<S(!new)>(p: Policy<S>, cfg: Config, s: State<S>, i: nat)
    requires Inv(p, cfg, s) && Earliest(s.events, i) && !cfg.shared
    ensures var r := Step(p, cfg, s, i);
            r.steals == s.steals + if exists x, v :: Moved(s, r, x, v) then 1 else 0
  {
    hide Lawful, Accounted, Clock, Timers, Places, Dispatch, Step, Prepared;
    var t, c, q, next := StepParts(p, cfg, s, i);
    var r := Step(p, cfg, s, i);
    PreparedStay(p, cfg, s, i, t, c, q, next);
    PreparedSteals(p, cfg, s, i, t, c, q, next);
    if c >= 0 {
      var stolen, taken := DispatchPlaces(p, cfg, t, c);
      if stolen.Some? {
        assert Moved(s, r, stolen.value, s.place[stolen.value].queue);
      }
    }
  }

  lemma PreparedSteals<S(!new)>(p: Policy<S>, cfg: Config, s: State<S>, i: nat, t: State<S>, c: int, q: nat, next: nat)
    requires Shape(p, cfg, s) && i < |s.events| && Prepared(p, cfg, s, i, t, c, q, next)
    ensures t.steals == s.steals
  {
    hide Lawful, Enqueue, Charge, Requeue, Complete, Takes;
    var e, u := s.events[i], Pop(p, cfg, s, i);
    if e.Arrival? {
      EnqueueCounts(p, cfg, u.(nextCore := next), e.id, q);
      var s1 := Enqueue(p, cfg, u.(nextCore := next), e.id, q);
      if c >= 0 && s1.cores[c].running.Some? {
        ReleaseCounts(p, cfg, s1, c);
      }
    } else if e.core < cfg.cores && u.cores[e.core].running == Some(e.id) {
      ReleaseCounts(p, cfg, u, c);
      CompletionCounts(p, cfg, u, c);
    }
  }

  /** In every step of the per-core engine an arriving task is queued on the core the balancer
      names, or runs there: the next in turn, or the first of those with the fewest queued and
      running tasks.  Only arrivals, and only with round robin, advance the turn. */
  lemma ArrivalsAreAssigned<S(!new)>(p: Policy<S>, cfg: Config, s: State<S>, i: nat) returns (q: nat)
    requires Inv(p, cfg, s) && Earliest(s.events, i) && !cfg.shared
    ensures var e, r := s.events[i], Step(p, cfg, s, i);
            if e.Arrival? then
              && e.id in r.place && q < cfg.cores && Sends(p, cfg, s, q, r.nextCore)
              && (r.place[e.id] == Queued(q) || r.place[e.id] == OnCore(q))
            else r.nextCore == s.nextCore
  {
    hide Lawful, Accounted, Clock, Timers, Places, Dispatch, Step, Prepared, Sends;
    var t, c, queue, next := StepParts(p, cfg, s, i);
    PreparedStay(p, cfg, s, i, t, c, queue, next);
    q := queue;
    if c >= 0 {
      var stolen, taken := DispatchPlaces(p, cfg, t, c);
    }
  }

  /** Arrivals among the events of a run. */
  ghost function Arrivals<S(!new)>(p: Policy<S>, cfg: Config, s: State<S>, choices: seq<nat>, stop: real): nat
    requires Shape(p, cfg, s) && Run(p, cfg, s, choices, stop)
    decreases |choices|
  {
    if choices == [] then 0
    else (if s.events[choices[0]].Arrival? then 1 else 0) + Arrivals(p, cfg, Step(p, cfg, s, choices[0]), choices[1..], stop)
  }

  lemma {:induction false} TurnsFollowArrivals<S(!new)>(p: Policy<S>, cfg: Config, s: State<S>, choices: seq<nat>, stop: real, n: nat)
    requires Inv(p, cfg, s) && Run(p, cfg, s, choices, stop) && !cfg.shared && cfg.balancer.RoundRobin?
    requires s.nextCore == n % cfg.cores
    ensures After(p, cfg, s, choices, stop).nextCore == (n + Arrivals(p, cfg, s, choices, stop)) % cfg.cores
    decreases |choices|
  {
    hide Lawful, Accounted, Clock, Timers, Places, Step;
    if choices != [] {
      var q := ArrivalsAreAssigned(p, cfg, s, choices[0]);
      StepKeeps(p, cfg, s, choices[0]);
      NextTurn(n, cfg.cores);
      TurnsFollowArrivals(p, cfg, Step(p, cfg, s, choices[0]), choices[1..], stop,
                          if s.events[choices[0]].Arrival? then n + 1 else n);
    }
  }

  /** The remainder is the only number below m that leaves a multiple of m. */
  lemma Remainder(n: nat, m: nat, k: int, r: nat)
    requires m > 0 && r < m && n == k * m + r
    ensures n % m == r
  {
    var d := k - n / m;
    assert n == n / m * m + n % m;
    assert d * m == n % m - r;
    if d > 0 {
      Whole(d - 1, m);
    } else if d < 0 {
      Whole(-d - 1, m);
    }
  }

  lemma Whole(d: nat, m: nat)
    ensures (d + 1) * m >= m
  {
    assert (d + 1) * m == d * m + m;
  }

  lemma NextTurn(n: nat, m: nat)
    requires m > 0
    ensures (n % m + 1) % m == (n + 1) % m
  {
    var k, r := n / m, n % m;
    assert n == k * m + r;
    if r + 1 == m {
      assert n + 1 == (k + 1) * m;
      Remainder(n + 1, m, k + 1, 0);
      Remainder(r + 1, m, 1, 0);
    } else {
      Remainder(n + 1, m, k, r + 1);
      Remainder(r + 1, m, 0, r + 1);
    }
  }

  lemma {:induction false} TurnsStart<S>(cfg: Config, sched: S, jobs: seq<Job>)
    ensures Initial(cfg, sched, jobs).nextCore == 0
  {
    if jobs != [] {
      TurnsStart(cfg, sched, jobs[..|jobs| - 1]);
    }
  }

  /** Round robin: in every run the (n + 1)-th task to arrive goes to core n modulo the number
      of cores, where it is queued or runs at once. */
  lemma RoundRobinInRuns<S(!new)>(p: Policy<S>, cfg: Config, sched: S, jobs: seq<Job>, choices: seq<nat>, stop: real,
                                  s: State<S>, i: nat)
    requires Reached(p, cfg, sched, jobs, choices, stop, s) && !cfg.shared && cfg.balancer.RoundRobin?
    requires Earliest(s.events, i) && s.events[i].Arrival? && Shape(p, cfg, s)
    ensures var q := Arrivals(p, cfg, Initial(cfg, sched, jobs), choices, stop) % cfg.cores;
            var r := Step(p, cfg, s, i);
            s.events[i].id in r.place && r.place[s.events[i].id] in {Queued(q), OnCore(q)}
  {
    hide Lawful, Accounted, Clock, Timers, Places, Run, After, Initial, Step, Arrivals;
    InitialInv(p, cfg, sched, jobs);
    ReachedInv(p, cfg, sched, jobs, choices, stop, s);
    TurnsStart(cfg, sched, jobs);
    Remainder(0, cfg.cores, 0, 0);
    TurnsFollowArrivals(p, cfg, Initial(cfg, sched, jobs), choices, stop, 0);
    var q := ArrivalsAreAssigned(p, cfg, s, i);
    ModTwice(Arrivals(p, cfg, Initial(cfg, sched, jobs), choices, stop), cfg.cores);
  }

  lemma ModTwice(n: nat, m: nat)
    requires m > 0
    ensures n % m % m == n % m
  {
    Remainder(n % m, m, 0, n % m);
  }

  // ------------------------------------------------ preemption by an arrival

  /** Task id, arriving in queue q, displaces a running task: all cores of the queue are busy,
      and one of them runs a task that gives way to it. */
  ghost predicate Urgent<S(!new)>(p: Policy<S>, cfg: Config, s: State<S>, id: TaskId, q: nat)
    requires Shape(p, cfg, s) && q < cfg.Queues()
  {
    var x := p.add(s.scheds[q], s.attrs, id, true);
    && AllBusy(p, cfg, s, q)
    && exists k: nat :: Serves(cfg, k, q) && s.cores[k].running.Some? && p.preempts(x.0, x.1, id, s.cores[k].running.value)
  }

  lemma EnqueueNew<S(!new)>(p: Policy<S>, cfg: Config, s: State<S>, i: nat, q: nat, next: nat)
    requires Inv(p, cfg, s) && i < |s.events| && s.events[i].Arrival? && q < cfg.Queues() && s.events[i].id in s.tasks
    ensures var id := s.events[i].id;
            var s1, x := Enqueue(p, cfg, Pop(p, cfg, s, i).(nextCore := next), id, q), p.add(s.scheds[q], s.attrs, id, true);
            && s1.cores == s.cores && s1.scheds[q] == x.0 && s1.attrs == x.1 && s1.preemptions == s.preemptions
  {
    hide Lawful, Clock, Timers, Places;
    IsPending(p, cfg, s, i);
    assert TaskOk(s, s.events[i].id);
  }

  lemma DispatchPreemptsNobody<S(!new)>(p: Policy<S>, cfg: Config, t: State<S>, c: nat)
    requires Inv(p, cfg, t) && c < cfg.cores && t.cores[c].running.None?
    ensures Dispatch(p, cfg, t, c).preemptions == t.preemptions
  {
    hide Lawful, Accounted, Clock, Timers, Places, Dispatch, Launch, Stolen;
    var t2, d := DispatchParts(p, cfg, t, c);
    if d.Some? {
      LaunchCounts(p, cfg, t2, c, d.value);
      if t2 != t {
        var v: nat, id :| IsStolen(p, cfg, t, c, t2, v, id);
        StolenCounts(p, cfg, t, c, v, id);
      }
    }
  }

  /** An arrival preempts, once, exactly if all cores of the queue it is sent to are busy and
      one of them runs a task that gives way to it, in either engine. */
  lemma ArrivalPreempts<S(!new)>(p: Policy<S>, cfg: Config, s: State<S>, i: nat) returns (q: nat, next: nat)
    requires Inv(p, cfg, s) && Earliest(s.events, i) && s.events[i].Arrival?
    ensures q < cfg.Queues() && (!cfg.shared ==> Sends(p, cfg, s, q, next))
    ensures Step(p, cfg, s, i).preemptions == s.preemptions + if Urgent(p, cfg, s, s.events[i].id, q) then 1 else 0
  {
    hide Lawful, Accounted, Clock, Timers, Places, Dispatch, Step, Enqueue, Charge, Requeue, Sends;
    var id := s.events[i].id;
    var t, c, queue, turn := StepParts(p, cfg, s, i);
    q, next := queue, turn;
    EnqueueNew(p, cfg, s, i, q, next);
    var s1 := Enqueue(p, cfg, Pop(p, cfg, s, i).(nextCore := next), id, q);
    if c >= 0 {
      DispatchPreemptsNobody(p, cfg, t, c);
      if s1.cores[c].running.Some? {
        ReleaseCounts(p, cfg, s1, c);
      }
    }
    TakesIfUrgent(p, cfg, s, s1, id, c, q);
  }

  lemma TakesIfUrgent<S(!new)>(p: Policy<S>, cfg: Config, s: State<S>, s1: State<S>, id: TaskId, c: int, q: nat)
    requires Shape(p, cfg, s) && Shape(p, cfg, s1) && c < cfg.cores && q < cfg.Queues() && Takes(p, cfg, s1, id, c, q)
    requires s1.cores == s.cores
    requires var x := p.add(s.scheds[q], s.attrs, id, true); s1.scheds[q] == x.0 && s1.attrs == x.1
    ensures Urgent(p, cfg, s, id, q) <==> c >= 0 && s1.cores[c].running.Some?
  {
    hide Lawful;
    if Urgent(p, cfg, s, id, q) {
      var x := p.add(s.scheds[q], s.attrs, id, true);
      var k: nat :| Serves(cfg, k, q) && s.cores[k].running.Some? && p.preempts(x.0, x.1, id, s.cores[k].running.value);
      assert GivesWay(p, s1, id, k, q);
    }
  }
}

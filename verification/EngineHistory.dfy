/** When tasks start and when they complete: a start time is set once, at the first dispatch,
    where response and waiting time agree, and only a live timer completes a task. */
module EngineHistory {
  import opened Common
  import opened Tasks
  import opened Policies
  import opened Engine
  import opened EngineInvariant
  import opened EngineRuns
  import opened EngineSteps

  /** The same tasks with the same arrival and start times. */
  ghost predicate SameStarts<S>(s: State<S>, r: State<S>) {
    && r.tasks.Keys == s.tasks.Keys && r.now == s.now
    && forall id :: id in s.tasks ==> SameStart(s.tasks[id], r.tasks[id])
  }

  predicate SameStart(t: Task, u: Task) {
    u.arrival == t.arrival && u.start == t.start
  }

  /** Task id starts right now: it has just been put on a core, after waiting since it
      arrived, which is its response time. */
  ghost predicate StartsNow<S>(s: State<S>, id: TaskId) {
    && id in s.tasks && id in s.place && s.place[id].OnCore?
    && var t, c := s.tasks[id], s.place[id].core;
       && t.start == s.now && t.wait == s.now - t.arrival == t.ResponseTime()
       && c < |s.cores| && s.cores[c].running == Some(id) && s.cores[c].since == s.now
  }

  // ------------------------------------------------ one step

  lemma EnqueueStarts<S(!new)>(p: Policy<S>, cfg: Config, s: State<S>, id: TaskId, q: nat)
    requires Shape(p, cfg, s) && id in s.tasks && q < cfg.Queues()
    ensures SameStarts(s, Enqueue(p, cfg, s, id, q)) && Enqueue(p, cfg, s, id, q).completed == s.completed
  {
    hide Lawful;
  }

  lemma ChargeStarts<S(!new)>(p: Policy<S>, cfg: Config, s: State<S>, c: nat)
    requires Busy(p, cfg, s, c)
    ensures SameStarts(s, Charge(p, cfg, s, c)) && Charge(p, cfg, s, c).completed == s.completed
    ensures Charge(p, cfg, s, c).cores[c].running == s.cores[c].running
  {
    hide Lawful;
  }

  lemma ReleaseStarts<S(!new)>(p: Policy<S>, cfg: Config, s: State<S>, c: nat)
    requires Busy(p, cfg, s, c)
    ensures SameStarts(s, Requeue(p, cfg, s, c)) && Requeue(p, cfg, s, c).completed == s.completed
    ensures SameStarts(s, Complete(p, cfg, s, c))
    ensures Complete(p, cfg, s, c).completed == s.completed + [s.cores[c].running.value]
  {
    hide Lawful;
  }

  lemma PreemptStarts<S(!new)>(p: Policy<S>, cfg: Config, s: State<S>, c: nat)
    requires Busy(p, cfg, s, c)
    ensures SameStarts(s, Preempt(p, cfg, s, c)) && Preempt(p, cfg, s, c).completed == s.completed
  {
    hide Lawful, Charge, Requeue;
    ChargeStarts(p, cfg, s, c);
    ReleaseStarts(p, cfg, Charge(p, cfg, s, c), c);
  }

  /** The timer of the task that runs on its core. */
  predicate Live<S>(s: State<S>, e: Event) {
    e.TimeSlice? && e.core < |s.cores| && s.cores[e.core].running == Some(e.id)
  }

  /** The event completes its task: at most 0.001 is left. */
  predicate Finishes<S>(s: State<S>, e: Event) {
    Live(s, e) && e.id in s.tasks && s.tasks[e.id].remaining - (e.time - s.cores[e.core].since) <= 0.001
  }

  lemma ChargedRemaining<S(!new)>(p: Policy<S>, cfg: Config, s: State<S>, i: nat)
    requires Shape(p, cfg, s) && i < |s.events| && Live(s, s.events[i])
    ensures s.events[i].id in s.tasks && Busy(p, cfg, Pop(p, cfg, s, i), s.events[i].core)
    ensures Charge(p, cfg, Pop(p, cfg, s, i), s.events[i].core).tasks[s.events[i].id].IsCompleted()
         <==> Finishes(s, s.events[i])
  {
    hide Lawful;
  }

  /** Before the dispatch nobody starts, and somebody completes exactly if a live timer finds
      at most 0.001 left. */
  lemma PreparedStarts<S(!new)>(p: Policy<S>, cfg: Config, s: State<S>, i: nat, t: State<S>, c: int, q: nat, next: nat)
    requires Shape(p, cfg, s) && i < |s.events| && Prepared(p, cfg, s, i, t, c, q, next)
    ensures t.now == s.events[i].time && SameStarts(s.(now := t.now), t)
    ensures t.completed == s.completed + if Finishes(s, s.events[i]) then [s.events[i].id] else []
  {
    hide Lawful, Enqueue, Charge, Requeue, Complete, Preempt, Takes;
    var e, u := s.events[i], Pop(p, cfg, s, i);
    if e.Arrival? {
      var s1 := Enqueue(p, cfg, u.(nextCore := next), e.id, q);
      EnqueueStarts(p, cfg, u.(nextCore := next), e.id, q);
      if c >= 0 && s1.cores[c].running.Some? {
        PreemptStarts(p, cfg, s1, c);
      }
    } else if e.core < cfg.cores && u.cores[e.core].running == Some(e.id) {
      ChargedRemaining(p, cfg, s, i);
      ChargeStarts(p, cfg, u, c);
      ReleaseStarts(p, cfg, Charge(p, cfg, u, c), c);
    }
  }

  /** A queued task that never ran has waited since it arrived. */
  lemma FirstStart(t: Task, q: nat, now: real, since: real)
    requires Accounts(t, Queued(q), now, since)
    ensures var u := t.MarkDispatched(now).Begin(now);
            && u.arrival == t.arrival
            && (t.start >= 0.0 ==> u.start == t.start)
            && (t.start < 0.0 ==> u.start == now && u.wait == now - t.arrival == u.ResponseTime())
  {
  }

  /** A launch starts the task it launches, if that never ran, and nobody else. */
  lemma LaunchStarts<S(!new)>(p: Policy<S>, cfg: Config, s: State<S>, c: nat, d: Decision, x: TaskId)
    requires Inv(p, cfg, s) && c < cfg.cores && d.id in p.ready(s.scheds[cfg.QueueOf(c)]) && x in s.tasks
    ensures d.id in s.tasks
    ensures var r := Launch(p, cfg, RemoveFrom(p, cfg, s, d.id, cfg.QueueOf(c)), c, d);
            && r.now == s.now && r.completed == s.completed
            && x in r.tasks && r.tasks[x].arrival == s.tasks[x].arrival
            && (r.tasks[x].start != s.tasks[x].start ==> s.tasks[x].start < 0.0 && StartsNow(r, x))
  {
    hide Lawful, Clock, Timers, Accounted, Places, Task.MarkDispatched, Task.Begin;
    var q := cfg.QueueOf(c);
    ReadyIsPlaced(p, s, q, d.id);
    QueuedAccounts(s, d.id, q);
    FirstStart(s.tasks[d.id], q, s.now, 0.0);
  }

  lemma QueuedAccounts<S>(s: State<S>, id: TaskId, q: nat)
    requires Accounted(s) && id in s.tasks && id in s.place && s.place[id] == Queued(q)
    ensures Accounts(s.tasks[id], Queued(q), s.now, 0.0)
  {
    assert TaskOk(s, id);
  }

  lemma StolenStarts<S(!new)>(p: Policy<S>, cfg: Config, s: State<S>, c: nat, v: nat, id: TaskId)
    requires Shape(p, cfg, s) && c < cfg.Queues() && v < cfg.Queues() && id in s.tasks
    ensures var r := Stolen(p, cfg, s, c, v, id);
            r.tasks == s.tasks && r.now == s.now && r.completed == s.completed
  {
    hide Lawful;
  }

  lemma DispatchStarts<S(!new)>(p: Policy<S>, cfg: Config, t: State<S>, c: nat, x: TaskId)
    requires Inv(p, cfg, t) && c < cfg.cores && t.cores[c].running.None? && x in t.tasks
    ensures var r := Dispatch(p, cfg, t, c);
            && r.now == t.now && r.completed == t.completed
            && x in r.tasks && r.tasks[x].arrival == t.tasks[x].arrival
            && (r.tasks[x].start != t.tasks[x].start ==> t.tasks[x].start < 0.0 && StartsNow(r, x))
  {
    hide Lawful, Accounted, Clock, Timers, Places, Dispatch, Launch, Stolen, StartsNow;
    var t2, d := DispatchParts(p, cfg, t, c);
    if d.Some? {
      if t2 != t {
        var v: nat, id :| IsStolen(p, cfg, t, c, t2, v, id);
        StolenStarts(p, cfg, t, c, v, id);
      }
      LaunchStarts(p, cfg, t2, c, d.value, x);
    }
  }

  /** In every step: a task that has started keeps its start time; one that starts does so at
      the time of the event taken, by being put on a core; and exactly the task whose live
      timer finds at most 0.001 left completes. */
  lemma StepStarts<S(!new)>(p: Policy<S>, cfg: Config, s: State<S>, i: nat, x: TaskId)
    requires Inv(p, cfg, s) && Earliest(s.events, i) && x in s.tasks
    ensures var r := Step(p, cfg, s, i);
            && r.now == s.events[i].time
            && x in r.tasks && r.tasks[x].arrival == s.tasks[x].arrival
            && (r.tasks[x].start != s.tasks[x].start ==> s.tasks[x].start < 0.0 && StartsNow(r, x))
            && r.completed == s.completed + if Finishes(s, s.events[i]) then [s.events[i].id] else []
  {
    hide Lawful, Accounted, Clock, Timers, Places, Dispatch, Step, StartsNow, Prepared, Finishes;
    var t, c, q, next := StepParts(p, cfg, s, i);
    PreparedStarts(p, cfg, s, i, t, c, q, next);
    assert SameStart(s.tasks[x], t.tasks[x]);
    if c >= 0 {
      DispatchStarts(p, cfg, t, c, x);
    }
  }

  // ------------------------------------------------ runs

  lemma {:induction false} RunKeepsStart<S(!new)>(p: Policy<S>, cfg: Config, s: State<S>, choices: seq<nat>, stop: real, x: TaskId)
    requires Inv(p, cfg, s) && Run(p, cfg, s, choices, stop) && x in s.tasks
    ensures var r := After(p, cfg, s, choices, stop);
            && x in r.tasks && r.tasks[x].arrival == s.tasks[x].arrival
            && (s.tasks[x].start >= 0.0 ==> r.tasks[x].start == s.tasks[x].start)
    decreases |choices|
  {
    hide Lawful, Accounted, Clock, Timers, Places, Step, StartsNow, Finishes;
    if choices != [] {
      StepStarts(p, cfg, s, choices[0], x);
      StepKeeps(p, cfg, s, choices[0]);
      RunKeepsStart(p, cfg, Step(p, cfg, s, choices[0]), choices[1..], stop, x);
    }
  }

  /** The choice by which a task is first dispatched. */
  lemma {:induction false} FirstDispatch<S(!new)>(p: Policy<S>, cfg: Config, s: State<S>, choices: seq<nat>, stop: real, x: TaskId)
    returns (k: nat)
    requires Inv(p, cfg, s) && Run(p, cfg, s, choices, stop) && x in s.tasks && s.tasks[x].start < 0.0
    requires x in After(p, cfg, s, choices, stop).tasks && After(p, cfg, s, choices, stop).tasks[x].start >= 0.0
    ensures k < |choices| && Run(p, cfg, s, choices[..k], stop) && Run(p, cfg, s, choices[..k + 1], stop)
    ensures var before := After(p, cfg, s, choices[..k], stop); x in before.tasks && before.tasks[x].start < 0.0
    ensures var u, r := After(p, cfg, s, choices[..k + 1], stop), After(p, cfg, s, choices, stop);
            StartsNow(u, x) && u.tasks[x].start == r.tasks[x].start && u.tasks[x].arrival == r.tasks[x].arrival
    decreases |choices|
  {
    hide Lawful, Accounted, Clock, Timers, Places, Step, Finishes;
    var u, rest := Step(p, cfg, s, choices[0]), choices[1..];
    StepStarts(p, cfg, s, choices[0], x);
    StepKeeps(p, cfg, s, choices[0]);
    NoChoices(p, cfg, s, stop);
    NoChoices(p, cfg, u, stop);
    if u.tasks[x].start >= 0.0 {
      k := 0;
      RunKeepsStart(p, cfg, u, rest, stop, x);
      assert choices[..1] == [choices[0]] && choices[..1][1..] == [];
    } else {
      var j := FirstDispatch(p, cfg, u, rest, stop, x);
      k := j + 1;
      assert choices[..k][1..] == rest[..j] && choices[..k + 1][1..] == rest[..j + 1];
    }
  }

  lemma {:induction false} NobodyStartedYet<S>(cfg: Config, sched: S, jobs: seq<Job>)
    ensures forall id :: id in Initial(cfg, sched, jobs).tasks ==> Initial(cfg, sched, jobs).tasks[id].start < 0.0
  {
    if jobs != [] {
      NobodyStartedYet(cfg, sched, jobs[..|jobs| - 1]);
    }
  }

  lemma CompletedHasStarted<S(!new)>(p: Policy<S>, cfg: Config, s: State<S>, x: TaskId)
    requires Inv(p, cfg, s) && x in s.completed
    ensures x in s.tasks && s.tasks[x].start >= 0.0
  {
    assert x in s.place.Keys && TaskOk(s, x);
  }

  /** The response time of a task that has started, and so of every completed one, is the
      time it had waited when it was first dispatched: the run goes through a state u, entered
      by its (k + 1)-th event, in which the task has just been put on a core at its start
      time, and had never been on one before. */
  lemma ResponseIsFirstWait<S(!new)>(p: Policy<S>, cfg: Config, sched: S, jobs: seq<Job>, choices: seq<nat>, stop: real,
                                     s: State<S>, x: TaskId) returns (k: nat, before: State<S>, u: State<S>)
    requires Reached(p, cfg, sched, jobs, choices, stop, s)
    requires x in s.completed || (x in s.tasks && s.tasks[x].start >= 0.0)
    ensures x in s.tasks && k < |choices|
    ensures Reached(p, cfg, sched, jobs, choices[..k], stop, before) && x in before.tasks && before.tasks[x].start < 0.0
    ensures Reached(p, cfg, sched, jobs, choices[..k + 1], stop, u) && StartsNow(u, x)
    ensures s.tasks[x].start == u.now && s.tasks[x].ResponseTime() == u.tasks[x].wait == u.now - s.tasks[x].arrival
  {
    hide Lawful, Accounted, Clock, Timers, Places, Run, After, Initial;
    var s0 := Initial(cfg, sched, jobs);
    InitialInv(p, cfg, sched, jobs);
    NobodyStartedYet(cfg, sched, jobs);
    ReachedInv(p, cfg, sched, jobs, choices, stop, s);
    if x in s.completed {
      CompletedHasStarted(p, cfg, s, x);
    }
    RunKeepsIds(p, cfg, s0, choices, stop);
    assert x in s.tasks.Keys;
    k := FirstDispatch(p, cfg, s0, choices, stop, x);
    before, u := After(p, cfg, s0, choices[..k], stop), After(p, cfg, s0, choices[..k + 1], stop);
    ReachedInv(p, cfg, sched, jobs, choices[..k + 1], stop, u);
    StartedIsLater(p, cfg, u);
  }

  lemma StartedIsLater<S(!new)>(p: Policy<S>, cfg: Config, s: State<S>)
    requires Inv(p, cfg, s)
    ensures s.now >= 0.0
  {
  }

  /** Nobody comes or goes. */
  lemma {:induction false} RunKeepsIds<S(!new)>(p: Policy<S>, cfg: Config, s: State<S>, choices: seq<nat>, stop: real)
    requires Inv(p, cfg, s) && Run(p, cfg, s, choices, stop)
    ensures After(p, cfg, s, choices, stop).tasks.Keys == s.tasks.Keys
    decreases |choices|
  {
    hide Lawful, Accounted, Clock, Timers, Places, Step;
    if choices != [] {
      StepKeepsIds(p, cfg, s, choices[0]);
      StepKeeps(p, cfg, s, choices[0]);
      RunKeepsIds(p, cfg, Step(p, cfg, s, choices[0]), choices[1..], stop);
    }
  }

  lemma StepKeepsIds<S(!new)>(p: Policy<S>, cfg: Config, s: State<S>, i: nat)
    requires Inv(p, cfg, s) && Earliest(s.events, i)
    ensures Step(p, cfg, s, i).tasks.Keys == s.tasks.Keys
  {
    hide Lawful, Accounted, Clock, Timers, Places, Dispatch, Step, Prepared, Stolen;
    var t, c, q, next := StepParts(p, cfg, s, i);
    PreparedStarts(p, cfg, s, i, t, c, q, next);
    if c >= 0 {
      var t2, d := DispatchParts(p, cfg, t, c);
      if d.Some? {
        if t2 != t {
          var v: nat, id :| IsStolen(p, cfg, t, c, t2, v, id);
          StolenStarts(p, cfg, t, c, v, id);
        }
        LaunchTasks(p, cfg, t2, c, d.value);
      }
    }
  }

  lemma LaunchTasks<S(!new)>(p: Policy<S>, cfg: Config, s: State<S>, c: nat, d: Decision)
    requires Shape(p, cfg, s) && c < cfg.cores && d.id in s.tasks
    ensures Launch(p, cfg, RemoveFrom(p, cfg, s, d.id, cfg.QueueOf(c)), c, d).tasks.Keys == s.tasks.Keys
  {
    hide Lawful;
  }
}

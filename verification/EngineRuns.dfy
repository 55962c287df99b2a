/** Theorems about whole runs: where they start, that every task is in exactly one place,
    and that its times add up. */
module EngineRuns {
  import opened Common
  import opened Tasks
  import opened Policies
  import opened Engine
  import opened EngineInvariant

  datatype Job = Job(id: TaskId, arrival: real, execution: real, weight: Weight)

  /** Distinct identifiers, arrivals from time 0 on, something to execute. */
  ghost predicate ValidJobs(jobs: seq<Job>) {
    && (forall i, j :: 0 <= i < j < |jobs| ==> jobs[i].id != jobs[j].id)
    && (forall i :: 0 <= i < |jobs| ==> jobs[i].arrival >= 0.0 && jobs[i].execution > 0.0)
  }

  /** The identifiers of the jobs, in order of submission. */
  function Ids(jobs: seq<Job>): (ids: seq<TaskId>)
    ensures |ids| == |jobs| && forall i :: 0 <= i < |jobs| ==> ids[i] == jobs[i].id
  {
    seq(|jobs|, i requires 0 <= i < |jobs| => jobs[i].id)
  }

  /** The constructor: cores and fresh schedulers, no task yet. */
  function Empty<S>(cfg: Config, sched: S): State<S> {
    State(0.0, map[], map[], seq(cfg.Queues(), _ => sched), seq(cfg.cores, _ => Core(None, 0.0, 0.0, 0.0)),
          [], [], 0, 0, 0, 0, map[])
  }

  /** add_task of the engines. */
  function Submit<S>(s: State<S>, job: Job): State<S> {
    s.(tasks := s.tasks[job.id := NewTask(job.arrival, job.execution)],
       attrs := s.attrs[job.id := NewAttr(job.weight)],
       events := s.events + [Arrival(job.arrival, job.id)],
       place := s.place[job.id := Pending])
  }

  function Initial<S>(cfg: Config, sched: S, jobs: seq<Job>): State<S> {
    if jobs == [] then Empty(cfg, sched)
    else Submit(Initial(cfg, sched, jobs[..|jobs| - 1]), jobs[|jobs| - 1])
  }

  lemma {:induction false} InitialInv<S(!new)>(p: Policy<S>, cfg: Config, sched: S, jobs: seq<Job>)
    requires Lawful(p) && cfg.Valid() && Fresh(p, sched) && ValidJobs(jobs)
    ensures Inv(p, cfg, Initial(cfg, sched, jobs))
    ensures forall id :: id in Initial(cfg, sched, jobs).tasks <==> exists i :: 0 <= i < |jobs| && jobs[i].id == id
    ensures Initial(cfg, sched, jobs).now == 0.0
    ensures forall c :: 0 <= c < cfg.cores ==> Initial(cfg, sched, jobs).cores[c] == Core(None, 0.0, 0.0, 0.0)
  {
    hide Lawful, Places, Clock, Accounted, Timers, Submit;
    InitialFacts(cfg, sched, jobs);
    if jobs != [] {
      var rest, job := jobs[..|jobs| - 1], jobs[|jobs| - 1];
      InitialInv(p, cfg, sched, rest);
      SubmitInv(p, cfg, Initial(cfg, sched, rest), job);
    } else {
      EmptyInv(p, cfg, sched);
    }
  }

  lemma EmptyInv<S(!new)>(p: Policy<S>, cfg: Config, sched: S)
    requires Lawful(p) && cfg.Valid() && Fresh(p, sched)
    ensures Inv(p, cfg, Empty(cfg, sched))
  {
    hide Lawful;
  }

  lemma {:induction false} InitialFacts<S>(cfg: Config, sched: S, jobs: seq<Job>)
    ensures forall id :: id in Initial(cfg, sched, jobs).tasks <==> exists i :: 0 <= i < |jobs| && jobs[i].id == id
    ensures Initial(cfg, sched, jobs).now == 0.0
    ensures |Initial(cfg, sched, jobs).cores| == cfg.cores
    ensures forall c :: 0 <= c < cfg.cores ==> Initial(cfg, sched, jobs).cores[c] == Core(None, 0.0, 0.0, 0.0)
  {
    if jobs != [] {
      var rest, job := jobs[..|jobs| - 1], jobs[|jobs| - 1];
      InitialFacts(cfg, sched, rest);
      var s := Initial(cfg, sched, rest);
      forall id
        ensures id in Submit(s, job).tasks <==> exists i :: 0 <= i < |jobs| && jobs[i].id == id
      {
        if id in s.tasks {
          var i :| 0 <= i < |rest| && rest[i].id == id;
          assert jobs[i].id == id;
        }
        if exists i :: 0 <= i < |jobs| && jobs[i].id == id {
          var i :| 0 <= i < |jobs| && jobs[i].id == id;
          assert i < |rest| ==> rest[i].id == id;
        }
      }
    }
  }

  lemma SubmitInv<S(!new)>(p: Policy<S>, cfg: Config, s: State<S>, job: Job)
    requires Inv(p, cfg, s) && job.id !in s.tasks && s.now == 0.0
    requires job.arrival >= 0.0 && job.execution > 0.0
    ensures Inv(p, cfg, Submit(s, job))
  {
    hide Lawful, Places, Clock, Accounted, Timers;
    SubmitPlaces(p, s, job);
    SubmitClock(s, job);
    SubmitAccounted(s, job);
    SubmitTimers(s, job);
  }

  lemma SubmitPlaces<S(!new)>(p: Policy<S>, s: State<S>, job: Job)
    requires Places(p, s) && job.id !in s.place
    ensures Places(p, Submit(s, job))
  {
    var r := Submit(s, job);
    forall x | x in r.place
      ensures Placed(r, x)
    {
      assert x in s.place ==> Placed(s, x);
    }
  }

  lemma SubmitAccounted<S>(s: State<S>, job: Job)
    requires Accounted(s) && job.arrival >= 0.0 && job.execution > 0.0
    ensures Accounted(Submit(s, job))
  {
    var r := Submit(s, job);
    forall x | x in r.tasks
      ensures x in r.place && TaskOk(r, x)
    {
      assert x in s.tasks ==> TaskOk(s, x);
    }
  }

  lemma SubmitTimers<S>(s: State<S>, job: Job)
    requires Timers(s, -1) && job.id !in s.tasks
    ensures Timers(Submit(s, job), -1)
  {
    var r := Submit(s, job);
    forall c | 0 <= c < |r.cores|
      ensures Timed(r, c)
    {
      assert Timed(s, c);
    }
  }

  lemma SubmitClock<S>(s: State<S>, job: Job)
    requires Clock(s) && job.id !in s.tasks && job.id !in s.place && s.now == 0.0 && job.arrival >= 0.0
    ensures Clock(Submit(s, job))
  {
    var r := Submit(s, job);
    var a := Arrival(job.arrival, job.id);
    assert multiset(r.events)[a] == 1 by {
      assert a in s.events ==> Awaits(s, a);
      assert a !in multiset(s.events);
    }
    forall x | x in r.place && r.place[x] == Pending
      ensures x in r.tasks && multiset(r.events)[Arrival(r.tasks[x].arrival, x)] == 1
    {
      assert x != job.id ==> multiset(s.events)[Arrival(s.tasks[x].arrival, x)] == 1;
    }
  }

  /** A state some run from some submitted jobs reaches. */
  ghost predicate Reached<S(!new)>(p: Policy<S>, cfg: Config, sched: S, jobs: seq<Job>,
                                   choices: seq<nat>, stop: real, s: State<S>) {
    && Lawful(p) && cfg.Valid() && Fresh(p, sched) && ValidJobs(jobs)
    && Shape(p, cfg, Initial(cfg, sched, jobs))
    && Run(p, cfg, Initial(cfg, sched, jobs), choices, stop)
    && s == After(p, cfg, Initial(cfg, sched, jobs), choices, stop)
  }

  lemma ReachedInv<S(!new)>(p: Policy<S>, cfg: Config, sched: S, jobs: seq<Job>,
                            choices: seq<nat>, stop: real, s: State<S>)
    requires Reached(p, cfg, sched, jobs, choices, stop, s)
    ensures Inv(p, cfg, s)
  {
    InitialInv(p, cfg, sched, jobs);
    RunKeeps(p, cfg, Initial(cfg, sched, jobs), choices, stop);
  }

  lemma NoChoices<S(!new)>(p: Policy<S>, cfg: Config, s: State<S>, stop: real)
    requires Shape(p, cfg, s)
    ensures Run(p, cfg, s, [], stop) && After(p, cfg, s, [], stop) == s
  {
  }

  lemma {:induction false} OneMoreChoice<S(!new)>(p: Policy<S>, cfg: Config, s: State<S>, choices: seq<nat>, i: nat, stop: real)
    requires Shape(p, cfg, s) && Run(p, cfg, s, choices, stop)
    requires Earliest(After(p, cfg, s, choices, stop).events, i)
    requires After(p, cfg, s, choices, stop).events[i].time <= stop
    ensures Run(p, cfg, s, choices + [i], stop)
    ensures After(p, cfg, s, choices + [i], stop) == Step(p, cfg, After(p, cfg, s, choices, stop), i)
    decreases |choices|
  {
    hide Lawful, Shape, Step;
    if choices == [] {
      assert ([i])[1..] == [];
    } else {
      OneMoreChoice(p, cfg, Step(p, cfg, s, choices[0]), choices[1..], i, stop);
      assert (choices + [i])[1..] == choices[1..] + [i];
    }
  }

  /** A reached state and any event that may come next. */
  lemma ReachedStep<S(!new)>(p: Policy<S>, cfg: Config, sched: S, jobs: seq<Job>, choices: seq<nat>, stop: real,
                             s: State<S>, i: nat)
    requires Reached(p, cfg, sched, jobs, choices, stop, s) && Earliest(s.events, i) && s.events[i].time <= stop
    requires Shape(p, cfg, s)
    ensures Reached(p, cfg, sched, jobs, choices + [i], stop, Step(p, cfg, s, i))
  {
    hide Lawful, Shape, Step, Initial;
    OneMoreChoice(p, cfg, Initial(cfg, sched, jobs), choices, i, stop);
  }

  /** How run leaves state s: with no event left, or the clock at stop and the first event
      past stop popped. */
  ghost predicate Stopped<S>(s: State<S>, r: State<S>, stop: real) {
    || (s.events == [] && r == s)
    || exists i: nat :: Earliest(s.events, i) && s.events[i].time > stop
                   && r == s.(now := stop, events := Without(s.events, i))
  }

  /** A run's clock is not past stop, unless it started there. */
  lemma {:induction false} RunWithinStop<S(!new)>(p: Policy<S>, cfg: Config, s: State<S>, choices: seq<nat>, stop: real)
    requires Shape(p, cfg, s) && Run(p, cfg, s, choices, stop)
    ensures After(p, cfg, s, choices, stop).now <= Max(s.now, stop)
    decreases |choices|
  {
    hide Lawful, Shape;
    if choices != [] {
      RunWithinStop(p, cfg, Step(p, cfg, s, choices[0]), choices[1..], stop);
    }
  }

  // ------------------------------------------------ exclusivity

  /** How often a task is ready in the first n queues. */
  function ReadyTimes<S>(p: Policy<S>, scheds: seq<S>, id: TaskId, n: nat): nat
    requires n <= |scheds|
  {
    if n == 0 then 0 else ReadyTimes(p, scheds, id, n - 1) + p.ready(scheds[n - 1])[id]
  }

  /** On how many of the first n cores a task runs. */
  function RunningTimes(cores: seq<Core>, id: TaskId, n: nat): nat
    requires n <= |cores|
  {
    if n == 0 then 0
    else RunningTimes(cores, id, n - 1) + if cores[n - 1].running == Some(id) then 1 else 0
  }

  /** How often a task is anywhere: awaited, ready, running, or completed. */
  function Occurrences<S>(p: Policy<S>, s: State<S>, id: TaskId): nat
    requires id in s.tasks
  {
    multiset(s.events)[Arrival(s.tasks[id].arrival, id)]
    + ReadyTimes(p, s.scheds, id, |s.scheds|)
    + RunningTimes(s.cores, id, |s.cores|)
    + multiset(s.completed)[id]
  }

  lemma {:induction false} ReadyTimesPlaced<S(!new)>(p: Policy<S>, s: State<S>, id: TaskId, n: nat)
    requires Places(p, s) && id in s.place && n <= |s.scheds|
    ensures ReadyTimes(p, s.scheds, id, n)
         == if s.place[id].Queued? && s.place[id].queue < n then 1 else 0
  {
    if n > 0 {
      ReadyTimesPlaced(p, s, id, n - 1);
      assert p.ready(s.scheds[n - 1])[id] == if s.place[id] == Queued(n - 1) then 1 else 0;
    }
  }

  lemma {:induction false} RunningTimesPlaced<S(!new)>(p: Policy<S>, s: State<S>, id: TaskId, n: nat)
    requires Places(p, s) && id in s.place && n <= |s.cores|
    ensures RunningTimes(s.cores, id, n) == if s.place[id].OnCore? && s.place[id].core < n then 1 else 0
  {
    if n > 0 {
      RunningTimesPlaced(p, s, id, n - 1);
      assert Placed(s, id);
    }
  }

  /** Exclusivity: whatever the policy, topology, balancer and tie-breaks, every task is in
      exactly one place exactly once, through preemption, stale timers and stealing. */
  lemma ExactlyOnce<S(!new)>(p: Policy<S>, cfg: Config, sched: S, jobs: seq<Job>,
                             choices: seq<nat>, stop: real, s: State<S>, id: TaskId)
    requires Reached(p, cfg, sched, jobs, choices, stop, s) && id in s.tasks
    ensures Occurrences(p, s, id) == 1
  {
    hide Accounted, Timers, Lawful, Initial, Run, After;
    ReachedInv(p, cfg, sched, jobs, choices, stop, s);
    assert id in s.place && Placed(s, id);
    ReadyTimesPlaced(p, s, id, |s.scheds|);
    RunningTimesPlaced(p, s, id, |s.cores|);
    var a := Arrival(s.tasks[id].arrival, id);
    if s.place[id] != Pending {
      assert a in s.events ==> Awaits(s, a);
      assert a !in multiset(s.events);
    }
    if s.place[id] != Finished {
      assert id !in multiset(s.completed);
    }
  }

  // ------------------------------------------------ time accounting

  /** Exact accounting in every state of every run: up to a task's last change of place,
      the time since its arrival is what it waited plus what it executed.  The response
      time never exceeds the waiting time, and a completed task has at most 0.001 left. */
  lemma TimesAddUp<S(!new)>(p: Policy<S>, cfg: Config, sched: S, jobs: seq<Job>,
                            choices: seq<nat>, stop: real, s: State<S>, id: TaskId)
    requires Reached(p, cfg, sched, jobs, choices, stop, s) && id in s.tasks
    ensures var t := s.tasks[id];
            && 0.0 <= t.remaining <= t.execution && t.ResponseTime() <= t.wait
            && (forall q: nat :: q < cfg.Queues() && id in p.ready(s.scheds[q]) ==>
                  s.now - t.arrival == t.wait + (t.execution - t.remaining) + (s.now - t.readySince))
            && (forall c: nat :: c < cfg.cores && s.cores[c].running == Some(id) ==>
                  s.now - t.arrival == t.wait + (t.execution - t.remaining) + (s.now - s.cores[c].since))
            && (id in s.completed ==>
                  t.TurnaroundTime() == t.wait + t.execution - t.remaining && t.remaining <= 0.001)
  {
    ReachedInv(p, cfg, sched, jobs, choices, stop, s);
    assert id in s.place && TaskOk(s, id);
    forall q: nat | q < cfg.Queues() && id in p.ready(s.scheds[q])
      ensures s.place[id] == Queued(q)
    {
      ReadyIsPlaced(p, s, q, id);
    }
  }

  /** Lazy cancellation is safe along every run: the next event, stale or not, finds each
      busy core with its timer pending, within its slice and its task's remaining time, so
      no charge is negative and none is cut off at 0. */
  lemma ChargesInBounds<S(!new)>(p: Policy<S>, cfg: Config, sched: S, jobs: seq<Job>,
                                 choices: seq<nat>, stop: real, s: State<S>, i: nat, c: nat)
    requires Reached(p, cfg, sched, jobs, choices, stop, s) && Earliest(s.events, i)
    requires c < cfg.cores && s.cores[c].running.Some?
    ensures s.cores[c].running.value in s.tasks
    ensures var t := s.tasks[s.cores[c].running.value];
            var elapsed := s.events[i].time - s.cores[c].since;
            && 0.0 <= elapsed <= Min(s.cores[c].granted, t.remaining)
            && t.Execute(elapsed).remaining == t.remaining - elapsed
            && s.now <= s.events[i].time
            && TimeSlice(Deadline(s.cores[c], t), s.cores[c].running.value, c) in s.events
  {
    ReachedInv(p, cfg, sched, jobs, choices, stop, s);
    ChargeBound(p, cfg, s, i, c);
    assert Timed(s, c);
  }
}

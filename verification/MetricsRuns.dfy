/** What the summary says about a run of either engine. */
module MetricsRuns {
  import opened Tasks
  import opened Policies
  import opened Engine
  import opened EngineInvariant
  import opened EngineRuns
  import opened EngineTurnaround
  import opened EngineUsage
  import opened Metrics

  /** The completed tasks of a state, in order of completion. */
  function CompletedTasks<S>(s: State<S>, ids: seq<TaskId>): seq<Task>
    requires forall id :: id in ids ==> id in s.tasks
  {
    if ids == [] then [] else CompletedTasks(s, ids[..|ids| - 1]) + [s.tasks[ids[|ids| - 1]]]
  }

  lemma {:induction false} CompletedAt<S>(s: State<S>, ids: seq<TaskId>)
    requires forall id :: id in ids ==> id in s.tasks
    ensures |CompletedTasks(s, ids)| == |ids|
    ensures forall i :: 0 <= i < |ids| ==> CompletedTasks(s, ids)[i] == s.tasks[ids[i]]
  {
    if ids != [] {
      CompletedAt(s, ids[..|ids| - 1]);
    }
  }

  /** In every reachable state the completed tasks have positive turnaround times, so the
      summary divides by none that is 0. */
  lemma CompletedMeasurable<S(!new)>(p: Policy<S>, cfg: Config, sched: S, jobs: seq<Job>, choices: seq<nat>, stop: real, s: State<S>)
    requires Reached(p, cfg, sched, jobs, choices, stop, s)
    ensures forall id :: id in s.completed ==> id in s.tasks
    ensures Measurable(CompletedTasks(s, s.completed))
  {
    hide Reached;
    forall id | id in s.completed
      ensures id in s.tasks && s.tasks[id].execution > 0.0 && s.tasks[id].TurnaroundTime() > 0.0
    {
      TurnaroundIsPositive(p, cfg, sched, jobs, choices, stop, s, id);
    }
    CompletedAt(s, s.completed);
    forall i | 0 <= i < |s.completed|
      ensures CompletedTasks(s, s.completed)[i].execution > 0.0 && CompletedTasks(s, s.completed)[i].TurnaroundTime() > 0.0
    {
      assert s.completed[i] in s.completed;
    }
  }

  // ------------------------------------------------ completed work

  /** Execution time of the listed tasks that are also among others. */
  function WorkAmong<S>(s: State<S>, ids: seq<TaskId>, others: set<TaskId>): real
    requires forall id :: id in ids ==> id in s.tasks
  {
    if ids == [] then 0.0
    else
      var id := ids[|ids| - 1];
      WorkAmong(s, ids[..|ids| - 1], others) + if id in others then s.tasks[id].execution else 0.0
  }

  lemma {:induction false} OneMoreAmong<S>(s: State<S>, ids: seq<TaskId>, others: set<TaskId>, x: TaskId)
    requires forall id :: id in ids ==> id in s.tasks
    requires forall i, j :: 0 <= i < j < |ids| ==> ids[i] != ids[j]
    requires x !in others && x in s.tasks
    ensures WorkAmong(s, ids, others + {x}) == WorkAmong(s, ids, others) + if x in ids then s.tasks[x].execution else 0.0
  {
    if ids != [] {
      assert ids == ids[..|ids| - 1] + [ids[|ids| - 1]];
      OneMoreAmong(s, ids[..|ids| - 1], others, x);
    }
  }

  lemma {:induction false} NobodyAmong<S>(s: State<S>, ids: seq<TaskId>)
    requires forall id :: id in ids ==> id in s.tasks
    ensures WorkAmong(s, ids, {}) == 0.0
  {
    if ids != [] {
      NobodyAmong(s, ids[..|ids| - 1]);
    }
  }

  function Elements(ids: seq<TaskId>): set<TaskId> {
    if ids == [] then {} else Elements(ids[..|ids| - 1]) + {ids[|ids| - 1]}
  }

  lemma {:induction false} ElementsAre(ids: seq<TaskId>)
    ensures forall id :: id in Elements(ids) <==> id in ids
  {
    if ids != [] {
      assert ids == ids[..|ids| - 1] + [ids[|ids| - 1]];
      ElementsAre(ids[..|ids| - 1]);
    }
  }

  /** A list without repetition of some of the tasks adds up, in any order. */
  lemma {:induction false} SumOverList<S>(s: State<S>, list: seq<TaskId>, ids: seq<TaskId>)
    requires forall id :: id in ids <==> id in s.tasks
    requires forall i, j :: 0 <= i < j < |ids| ==> ids[i] != ids[j]
    requires forall id :: id in list ==> id in s.tasks && multiset(list)[id] == 1
    ensures Sum(Executions(CompletedTasks(s, list))) == WorkAmong(s, ids, Elements(list))
  {
    if list == [] {
      NobodyAmong(s, ids);
    } else {
      var n := |list| - 1;
      var rest, x := list[..n], list[n];
      assert list == rest + [x];
      assert x !in rest by {
        assert multiset(list) == multiset(rest) + multiset{x};
        assert multiset(list)[x] == 1;
        assert x in rest ==> x in multiset(rest);
      }
      forall id | id in rest
        ensures id in s.tasks && multiset(rest)[id] == 1
      {
        assert id in list && id != x;
      }
      SumOverList(s, rest, ids);
      ElementsAre(rest);
      OneMoreAmong(s, ids, Elements(rest), x);
      LastExecution(s, list);
    }
  }

  lemma LastExecution<S>(s: State<S>, list: seq<TaskId>)
    requires list != [] && forall id :: id in list ==> id in s.tasks
    ensures Sum(Executions(CompletedTasks(s, list)))
         == Sum(Executions(CompletedTasks(s, list[..|list| - 1]))) + s.tasks[list[|list| - 1]].execution
  {
    var before := CompletedTasks(s, list[..|list| - 1]);
    var t := s.tasks[list[|list| - 1]];
    assert (before + [t])[..|before|] == before;
    var e := Executions(before);
    assert (e + [t.execution])[..|e|] == e;
  }

  lemma {:induction false} AmongCompleted<S>(s: State<S>, ids: seq<TaskId>)
    requires forall id :: id in ids ==> id in s.tasks
    ensures WorkAmong(s, ids, Elements(s.completed)) == CompletedWork(s, ids)
  {
    if ids != [] {
      ElementsAre(s.completed);
      AmongCompleted(s, ids[..|ids| - 1]);
    }
  }

  // ------------------------------------------------ the bounds

  /** In every reachable state of either engine the work completed is at most what the cores
      could do so far, but for the threshold of each task. */
  lemma CompletedWorkFits<S(!new)>(p: Policy<S>, cfg: Config, sched: S, jobs: seq<Job>, choices: seq<nat>, stop: real, s: State<S>)
    requires Reached(p, cfg, sched, jobs, choices, stop, s)
    ensures forall id :: id in s.completed ==> id in s.tasks
    ensures Sum(Executions(CompletedTasks(s, s.completed))) <= cfg.cores as real * s.now + 0.001 * |jobs| as real
  {
    hide Lawful, Clock, Timers, Accounted, Run, After, Executed, Charged, Executions, CompletedTasks, CompletedWork;
    ReachedInv(p, cfg, sched, jobs, choices, stop, s);
    CpuTimeIsConserved(p, cfg, sched, jobs, choices, stop, s);
    ReachedLists(p, cfg, sched, jobs, choices, stop, s);
    CompletedOnce(p, cfg, s);
    SumOverList(s, s.completed, Ids(jobs));
    AmongCompleted(s, Ids(jobs));
  }

  lemma CompletedOnce<S(!new)>(p: Policy<S>, cfg: Config, s: State<S>)
    requires Inv(p, cfg, s)
    ensures forall id :: id in s.completed ==> id in s.tasks && multiset(s.completed)[id] == 1
  {
    hide Lawful, Clock, Timers, Accounted;
    forall id | id in s.completed
      ensures id in s.tasks && multiset(s.completed)[id] == 1
    {
      assert id in s.place && s.place[id] == Finished && Placed(s, id);
      assert id in s.place.Keys;
    }
  }

  lemma ReachedLists<S(!new)>(p: Policy<S>, cfg: Config, sched: S, jobs: seq<Job>, choices: seq<nat>, stop: real, s: State<S>)
    requires Reached(p, cfg, sched, jobs, choices, stop, s)
    ensures Lists(s, Ids(jobs))
  {
    hide Lawful, Executed, Charged, WithinClock;
    InitialInv(p, cfg, sched, jobs);
    InitialConserved(p, cfg, sched, jobs);
    RunConserves(p, cfg, Initial(cfg, sched, jobs), choices, stop, Ids(jobs));
  }

  /** Jain's index of a run lies between 1/n and 1, and its percentiles are ordered. */
  lemma SummaryBounds<S(!new)>(p: Policy<S>, cfg: Config, sched: S, jobs: seq<Job>, choices: seq<nat>, stop: real, s: State<S>)
    requires Reached(p, cfg, sched, jobs, choices, stop, s) && s.completed != []
    ensures forall id :: id in s.completed ==> id in s.tasks
    ensures var done := CompletedTasks(s, s.completed);
            && Measurable(done) && |done| == |s.completed| && |Responses(done)| == |done|
            && 1.0 / |done| as real <= Jain(Shares(done)) <= 1.0
            && Percentile(Responses(done), 0.95) <= Percentile(Responses(done), 0.99)
  {
    hide Lawful, Inv, Run, After, Jain, Percentile, Rank, Shares, Responses, CompletedTasks, Measurable, Reached;
    CompletedMeasurable(p, cfg, sched, jobs, choices, stop, s);
    var done := CompletedTasks(s, s.completed);
    CompletedAt(s, s.completed);
    SameLengths(done);
    JainBounds(Shares(done));
    PercentilesOrdered(Responses(done), 0.95, 0.99);
  }

  lemma {:induction false} SumsOrdered(xs: seq<real>, ys: seq<real>)
    requires |xs| == |ys| && forall i :: 0 <= i < |xs| ==> xs[i] <= ys[i]
    ensures Sum(xs) <= Sum(ys)
  {
    if xs != [] {
      SumsOrdered(xs[..|xs| - 1], ys[..|ys| - 1]);
    }
  }

  lemma AveragesOrdered(a: real, b: real, n: nat)
    requires a <= b && n > 0
    ensures Average(a, n) <= Average(b, n)
  {
  }

  /** Of the tasks completed in a run the mean response time is at most the mean waiting time,
      and that at most the mean turnaround time. */
  lemma MeansOrdered<S(!new)>(p: Policy<S>, cfg: Config, sched: S, jobs: seq<Job>, choices: seq<nat>, stop: real, s: State<S>)
    requires Reached(p, cfg, sched, jobs, choices, stop, s) && s.completed != []
    ensures forall id :: id in s.completed ==> id in s.tasks
    ensures var done := CompletedTasks(s, s.completed);
            && done != []
            && Average(Sum(Responses(done)), |done|) <= Average(Sum(Waits(done)), |done|)
            && Average(Sum(Waits(done)), |done|) <= Average(Sum(Turnarounds(done)), |done|)
  {
    hide Lawful, Inv, Run, After, Responses, Waits, Turnarounds, CompletedTasks, Measurable, Reached, Average, Sum;
    CompletedMeasurable(p, cfg, sched, jobs, choices, stop, s);
    var done := CompletedTasks(s, s.completed);
    CompletedAt(s, s.completed);
    SameLengths(done);
    forall i: nat | i < |done|
      ensures Responses(done)[i] <= Waits(done)[i] <= Turnarounds(done)[i]
    {
      ListsAt(done, i);
      CompletedTimes(p, cfg, sched, jobs, choices, stop, s, s.completed[i]);
    }
    SumsOrdered(Responses(done), Waits(done));
    SumsOrdered(Waits(done), Turnarounds(done));
    AveragesOrdered(Sum(Responses(done)), Sum(Waits(done)), |done|);
    AveragesOrdered(Sum(Waits(done)), Sum(Turnarounds(done)), |done|);
  }

  lemma CompletedTimes<S(!new)>(p: Policy<S>, cfg: Config, sched: S, jobs: seq<Job>, choices: seq<nat>, stop: real, s: State<S>, id: TaskId)
    requires Reached(p, cfg, sched, jobs, choices, stop, s) && id in s.completed && id in s.tasks
    ensures s.tasks[id].ResponseTime() <= s.tasks[id].wait <= s.tasks[id].TurnaroundTime()
  {
    hide Reached;
    TimesAddUp(p, cfg, sched, jobs, choices, stop, s, id);
  }

  /** The utilization reported for a run exceeds 1 by at most the threshold of each task over
      the capacity. */
  lemma UtilizationBound<S(!new)>(p: Policy<S>, cfg: Config, sched: S, jobs: seq<Job>, choices: seq<nat>, stop: real, s: State<S>)
    requires Reached(p, cfg, sched, jobs, choices, stop, s) && s.now > 0.0
    ensures forall id :: id in s.completed ==> id in s.tasks
    ensures s.now * cfg.cores as real > 0.0
    ensures Utilization(CompletedTasks(s, s.completed), s.now, cfg.cores)
         <= 1.0 + 0.001 * |jobs| as real / (s.now * cfg.cores as real)
  {
    hide Lawful, Inv, Run, After, UsageRatio, Executions, CompletedTasks, Sum;
    CompletedWorkFits(p, cfg, sched, jobs, choices, stop, s);
    UtilizationWithin(CompletedTasks(s, s.completed), s.now, cfg.cores, |jobs|);
  }

  /** The same of what is left when a run has drained its events or was cut at stop: the
      tasks are those of the last state reached, and the clock is no earlier. */
  lemma FinalSummary<S(!new)>(p: Policy<S>, cfg: Config, sched: S, jobs: seq<Job>, choices: seq<nat>, stop: real,
                              s: State<S>, r: State<S>)
    requires Reached(p, cfg, sched, jobs, choices, stop, s) && Stopped(s, r, stop) && r.completed != []
    ensures forall id :: id in r.completed ==> id in r.tasks
    ensures var done := CompletedTasks(r, r.completed);
            && Measurable(done) && |done| == |r.completed| && |Responses(done)| == |done|
            && 1.0 / |done| as real <= Jain(Shares(done)) <= 1.0
            && Percentile(Responses(done), 0.95) <= Percentile(Responses(done), 0.99)
    ensures r.now > 0.0 ==>
              && r.now * cfg.cores as real > 0.0
              && Utilization(CompletedTasks(r, r.completed), r.now, cfg.cores)
                   <= 1.0 + 0.001 * |jobs| as real / (r.now * cfg.cores as real)
  {
    hide Lawful, Inv, Run, After, Jain, Percentile, Rank, Shares, Responses, CompletedTasks, Measurable, Reached, Utilization, Stopped;
    StoppedLater(p, cfg, sched, jobs, choices, stop, s, r);
    SummaryBounds(p, cfg, sched, jobs, choices, stop, s);
    SameCompleted(s, r, s.completed);
    if r.now > 0.0 {
      FinalUtilization(p, cfg, sched, jobs, choices, stop, s, r);
    }
  }

  lemma FinalUtilization<S(!new)>(p: Policy<S>, cfg: Config, sched: S, jobs: seq<Job>, choices: seq<nat>, stop: real,
                                  s: State<S>, r: State<S>)
    requires Reached(p, cfg, sched, jobs, choices, stop, s) && Stopped(s, r, stop) && r.now > 0.0
    ensures forall id :: id in r.completed ==> id in r.tasks
    ensures r.now * cfg.cores as real > 0.0
    ensures Utilization(CompletedTasks(r, r.completed), r.now, cfg.cores)
         <= 1.0 + 0.001 * |jobs| as real / (r.now * cfg.cores as real)
  {
    hide Reached, Stopped, Executions, Sum, CompletedTasks, Utilization;
    FinalWork(p, cfg, sched, jobs, choices, stop, s, r);
    UtilizationWithin(CompletedTasks(r, r.completed), r.now, cfg.cores, |jobs|);
  }

  lemma FinalWork<S(!new)>(p: Policy<S>, cfg: Config, sched: S, jobs: seq<Job>, choices: seq<nat>, stop: real,
                           s: State<S>, r: State<S>)
    requires Reached(p, cfg, sched, jobs, choices, stop, s) && Stopped(s, r, stop) && r.now > 0.0
    ensures cfg.cores > 0 && forall id :: id in r.completed ==> id in r.tasks
    ensures Sum(Executions(CompletedTasks(r, r.completed))) <= cfg.cores as real * r.now + 0.001 * |jobs| as real
  {
    hide Reached, Stopped, Executions, Sum, CompletedTasks;
    StoppedLater(p, cfg, sched, jobs, choices, stop, s, r);
    CompletedWorkFits(p, cfg, sched, jobs, choices, stop, s);
    SameCompleted(s, r, s.completed);
    CapacityGrows(s.now, r.now, cfg.cores as real);
  }

  lemma StoppedLater<S(!new)>(p: Policy<S>, cfg: Config, sched: S, jobs: seq<Job>, choices: seq<nat>, stop: real,
                              s: State<S>, r: State<S>)
    requires Reached(p, cfg, sched, jobs, choices, stop, s) && Stopped(s, r, stop)
    ensures cfg.cores > 0 && r.tasks == s.tasks && r.completed == s.completed
    ensures r.now > 0.0 ==> s.now <= r.now
  {
    hide Lawful, Run, After, Initial;
    InitialInv(p, cfg, sched, jobs);
    RunWithinStop(p, cfg, Initial(cfg, sched, jobs), choices, stop);
  }

  lemma CapacityGrows(a: real, b: real, cores: real)
    requires a <= b && cores >= 0.0
    ensures cores * a <= cores * b
  {
    assert cores * (b - a) >= 0.0;
  }

  lemma {:induction false} SameCompleted<S>(s: State<S>, r: State<S>, ids: seq<TaskId>)
    requires r.tasks == s.tasks && forall id :: id in ids ==> id in s.tasks
    ensures CompletedTasks(r, ids) == CompletedTasks(s, ids)
  {
    if ids != [] {
      SameCompleted(s, r, ids[..|ids| - 1]);
    }
  }

  lemma UtilizationWithin(tasks: seq<Task>, now: real, cores: nat, n: nat)
    requires now > 0.0 && cores > 0 && Sum(Executions(tasks)) <= cores as real * now + 0.001 * n as real
    ensures now * cores as real > 0.0
    ensures Utilization(tasks, now, cores) <= 1.0 + 0.001 * n as real / (now * cores as real)
  {
    hide UsageRatio, Executions, Sum;
    UsageBound(Sum(Executions(tasks)), now, cores, 0.001 * n as real);
  }

  lemma UsageBound(work: real, now: real, cores: nat, extra: real)
    requires now > 0.0 && cores > 0 && work <= cores as real * now + extra
    ensures now * cores as real > 0.0
    ensures UsageRatio(work, now, cores) <= 1.0 + extra / (now * cores as real)
  {
    ProductSign(now, cores as real);
    assert AtLeastOne(cores) == cores as real;
    var k := now * cores as real;
    assert now * AtLeastOne(cores) == k;
    assert UsageRatio(work, now, cores) == work / k;
    QuotientAtMost(work, now * cores as real, extra);
  }

  lemma QuotientAtMost(work: real, k: real, extra: real)
    requires k > 0.0 && work <= k + extra
    ensures work / k <= 1.0 + extra / k
  {
    var a, b := work / k, extra / k;
    assert a * k == work && b * k == extra;
    assert (1.0 + b) * k == k + extra;
    CancelFactor(a, 1.0 + b, k);
  }
}

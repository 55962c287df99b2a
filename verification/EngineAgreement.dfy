/** On one core the two engines are the same machine: for every policy, balancer and
    stealing flag, equal tie-breaks lead through equal states. */
module EngineAgreement {
  import opened Common
  import opened Tasks
  import opened Policies
  import opened Engine
  import opened EngineRuns

  /** One core, shared queue, against one core with its own queue. */
  predicate Twins(a: Config, b: Config) {
    a.cores == 1 && b.cores == 1 && a.shared && !b.shared && a.defaultSlice == b.defaultSlice
  }

  lemma DispatchAgrees<S(!new)>(p: Policy<S>, a: Config, b: Config, s: State<S>)
    requires Twins(a, b) && Shape(p, a, s) && Shape(p, b, s)
    ensures Dispatch(p, a, s, 0) == Dispatch(p, b, s, 0)
    ensures Dispatch(p, a, s, 0).nextCore == s.nextCore
  {
    assert Busiest(p, s, 0, 1).None?;
  }

  lemma RequeueAgrees<S(!new)>(p: Policy<S>, a: Config, b: Config, s: State<S>)
    requires Twins(a, b) && Shape(p, a, s) && Shape(p, b, s) && s.cores[0].running.Some?
    ensures Requeue(p, a, s, 0) == Requeue(p, b, s, 0)
    ensures Requeue(p, a, s, 0).nextCore == s.nextCore
  {
  }

  lemma PreemptAgrees<S(!new)>(p: Policy<S>, a: Config, b: Config, s: State<S>)
    requires Twins(a, b) && Shape(p, a, s) && Shape(p, b, s)
    ensures Preempt(p, a, s, 0) == Preempt(p, b, s, 0)
    ensures Preempt(p, a, s, 0).nextCore == s.nextCore
  {
    hide Requeue;
    if s.cores[0].running.Some? {
      var s1 := Charge(p, a, s, 0);
      assert s1 == Charge(p, b, s, 0);
      RequeueAgrees(p, a, b, s1);
    }
  }

  lemma ArrivalAgrees<S(!new)>(p: Policy<S>, a: Config, b: Config, s: State<S>, id: TaskId)
    requires Twins(a, b) && Shape(p, a, s) && Shape(p, b, s) && id in s.tasks && s.nextCore == 0
    ensures SharedArrival(p, a, s, id) == PerCoreArrival(p, b, s, id)
    ensures SharedArrival(p, a, s, id).nextCore == 0
  {
    hide Dispatch, Preempt;
    assert s.(nextCore := 0) == s;
    assert Target(p, b, s) == 0;
    var s1 := Enqueue(p, a, s, id, 0);
    assert s1 == Enqueue(p, b, s, id, 0);
    if s1.cores[0].running.None? {
      DispatchAgrees(p, a, b, s1);
    } else {
      PreemptAgrees(p, a, b, s1);
      DispatchAgrees(p, a, b, Preempt(p, a, s1, 0));
      assert Preempts(p, s1, id, 0) <==> FirstPreempted(p, s1, id, 1) == 0;
    }
  }

  lemma TimerAgrees<S(!new)>(p: Policy<S>, a: Config, b: Config, s: State<S>, id: TaskId)
    requires Twins(a, b) && Shape(p, a, s) && Shape(p, b, s) && id in s.tasks
    ensures TimerFires(p, a, s, id, 0) == TimerFires(p, b, s, id, 0)
    ensures TimerFires(p, a, s, id, 0).nextCore == s.nextCore
  {
    hide Dispatch, Requeue;
    if s.cores[0].running == Some(id) {
      var s1 := Charge(p, a, s, 0);
      assert s1 == Charge(p, b, s, 0);
      RequeueAgrees(p, a, b, s1);
      DispatchAgrees(p, a, b, Requeue(p, a, s1, 0));
      DispatchAgrees(p, a, b, Complete(p, a, s1, 0));
    }
  }

  lemma StepAgrees<S(!new)>(p: Policy<S>, a: Config, b: Config, s: State<S>, i: nat)
    requires Twins(a, b) && Shape(p, a, s) && Shape(p, b, s) && i < |s.events| && s.nextCore == 0
    ensures Step(p, a, s, i) == Step(p, b, s, i) && Step(p, a, s, i).nextCore == 0
  {
    hide TimerFires, SharedArrival, PerCoreArrival, Lawful;
    var e, u := s.events[i], Pop(p, a, s, i);
    assert e in s.events;
    if e.Arrival? {
      ArrivalAgrees(p, a, b, u, e.id);
    } else {
      TimerAgrees(p, a, b, u, e.id);
    }
  }

  /** The engines agree on one core: the same choices are a run of both, through the same
      states, dispatches and counters. */
  lemma {:induction false} EnginesAgree<S(!new)>(p: Policy<S>, a: Config, b: Config, s: State<S>, choices: seq<nat>, stop: real)
    requires Twins(a, b) && Shape(p, a, s) && Shape(p, b, s) && s.nextCore == 0
    ensures Run(p, a, s, choices, stop) <==> Run(p, b, s, choices, stop)
    ensures Run(p, a, s, choices, stop) ==> After(p, a, s, choices, stop) == After(p, b, s, choices, stop)
    decreases |choices|
  {
    hide Step, Lawful;
    if choices != [] && Earliest(s.events, choices[0]) && s.events[choices[0]].time <= stop {
      StepAgrees(p, a, b, s, choices[0]);
      EnginesAgree(p, a, b, Step(p, a, s, choices[0]), choices[1..], stop);
    }
  }

  /** They start alike, so they agree on every set of jobs. */
  lemma EnginesStartAlike<S(!new)>(a: Config, b: Config, sched: S, jobs: seq<Job>)
    requires Twins(a, b)
    ensures Initial(a, sched, jobs) == Initial(b, sched, jobs) && Initial(a, sched, jobs).nextCore == 0
  {
    if jobs != [] {
      EnginesStartAlike(a, b, sched, jobs[..|jobs| - 1]);
    } else {
      assert Empty(a, sched).scheds == Empty(b, sched).scheds;
      assert Empty(a, sched).cores == Empty(b, sched).cores;
    }
  }
}

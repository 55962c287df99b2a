/** What the burst engine does for its scheduler: it reports all CPU time, and it lets a
    scheduler that ranks processes always run one of the first rank. */
module BurstPolicies {
  import opened Common
  import opened Burst
  import opened BurstInvariant
  import opened BurstRuns
  import opened BurstHistory

  // ------------------------------------------------ ranks

  /** The scheduler chooses a ready process of least rank, and a process preempts exactly those
      of larger rank. */
  ghost predicate Ranks<S(!new)>(p: Policy<S>, rank: Pid -> int) {
    && (forall s, now, x {:trigger p.schedule(s, now), p.ready(s)[x]} ::
          x in p.ready(s) && p.schedule(s, now).Some? ==> rank(p.schedule(s, now).value.pid) <= rank(x))
    && (forall s, a, b, now :: p.preempts(s, a, b, now) <==> rank(a) < rank(b))
  }

  ghost predicate NobodyBefore<S>(p: Policy<S>, s: State<S>, rank: Pid -> int) {
    s.running.Some? ==> forall x :: x in p.ready(s.sched) ==> rank(s.running.value) <= rank(x)
  }

  lemma DispatchRanks<S(!new)>(p: Policy<S>, t: State<S>, rank: Pid -> int)
    requires Shape(p, t) && t.running.None? && Ranks(p, rank)
    ensures NobodyBefore(p, Dispatch(p, t), rank)
  {
    hide Lawful, Dispatch, Ranks;
    if |p.ready(t.sched)| == 0 {
      NoDispatch(p, t);
    } else {
      var d, e := DispatchFields(p, t);
      ChoiceRanks(p, t, rank);
    }
  }

  lemma ChoiceRanks<S(!new)>(p: Policy<S>, t: State<S>, rank: Pid -> int)
    requires Ranks(p, rank) && p.schedule(t.sched, t.now).Some?
    ensures forall x :: x in p.ready(t.sched) ==> rank(p.schedule(t.sched, t.now).value.pid) <= rank(x)
  {
    forall x | x in p.ready(t.sched)
      ensures rank(p.schedule(t.sched, t.now).value.pid) <= rank(x)
    {
      assert p.ready(t.sched)[x] > 0;
    }
  }

  lemma StepRanks<S(!new)>(p: Policy<S>, s: State<S>, pids: seq<Pid>, i: nat, rank: Pid -> int)
    requires Inv(p, s, pids) && Top(s.events, i) && Ranks(p, rank) && NobodyBefore(p, s, rank)
    ensures NobodyBefore(p, Step(p, s, i), rank)
  {
    hide Lawful, Accounted, EventsOk, QueueOk, ClockOk, Step, Dispatch, Touches, Ranks;
    var t, dispatched := StepParts(p, s, pids, i);
    if dispatched {
      DispatchRanks(p, t, rank);
    } else {
      StaysRanked(p, s, t, s.events[i].pid, rank);
    }
  }

  lemma StaysRanked<S(!new)>(p: Policy<S>, s: State<S>, t: State<S>, pid: Pid, rank: Pid -> int)
    requires Ranks(p, rank) && NobodyBefore(p, s, rank) && GoesOn(p, s, t, pid)
    ensures NobodyBefore(p, t, rank)
  {
  }

  lemma {:induction false} RunRanks<S(!new)>(p: Policy<S>, s: State<S>, pids: seq<Pid>, choices: seq<nat>, rank: Pid -> int)
    requires Inv(p, s, pids) && Run(p, s, choices) && Ranks(p, rank) && NobodyBefore(p, s, rank)
    ensures NobodyBefore(p, After(p, s, choices), rank)
    decreases |choices|
  {
    hide Lawful, Accounted, EventsOk, QueueOk, ClockOk, Step, Ranks, NobodyBefore;
    if choices != [] {
      StepKeeps(p, s, pids, choices[0]);
      StepRanks(p, s, pids, choices[0], rank);
      RunRanks(p, Step(p, s, choices[0]), pids, choices[1..], rank);
    }
  }

  /** Preemption and dispatch do what the scheduler asks: under one that ranks processes, in
      every reachable state no ready process comes before the running one. */
  lemma FirstRankRuns<S(!new)>(p: Policy<S>, sched: S, entries: seq<Entry>, choices: seq<nat>, s: State<S>, rank: Pid -> int, x: Pid)
    requires Reached(p, sched, entries, choices, s) && Ranks(p, rank)
    requires s.running.Some? && x in p.ready(s.sched)
    ensures rank(s.running.value) <= rank(x)
  {
    hide Lawful, Inv, Run, After, Initial, Ranks;
    InitialInv(p, sched, entries);
    RunRanks(p, Initial(sched, entries), Pids(entries), choices, rank);
  }

  // ------------------------------------------------ CPU time reported

  /** told says how much CPU time of each process a scheduler has been told about: charge adds to
      it, and nothing else changes it. */
  ghost predicate Records<S(!new)>(p: Policy<S>, told: (S, Pid) -> int) {
    && (forall s, pid, now, x :: told(p.add(s, pid, now), x) == told(s, x))
    && (forall s, pid, x :: told(p.remove(s, pid), x) == told(s, x))
    && (forall s, pid, cpu, now, x :: told(p.charge(s, pid, cpu, now), x) == told(s, x) + if x == pid then cpu else 0)
  }

  ghost predicate Told<S>(s: State<S>, told: (S, Pid) -> int) {
    forall x :: x in s.procs ==> told(s.sched, x) == s.procs[x].cpuTime
  }

  lemma EnqueueTells<S(!new)>(p: Policy<S>, s: State<S>, pid: Pid, told: (S, Pid) -> int)
    requires Shape(p, s) && pid in s.procs && Records(p, told) && Told(s, told)
    ensures Told(Enqueue(p, s, pid), told)
  {
    hide Lawful;
  }

  lemma ChargeTells<S(!new)>(p: Policy<S>, s: State<S>, remaining: int, told: (S, Pid) -> int)
    requires Shape(p, s) && s.running.Some? && Records(p, told) && Told(s, told)
    ensures Told(Charge(p, s, remaining), told)
  {
    hide Lawful;
  }

  lemma DispatchTells<S(!new)>(p: Policy<S>, s: State<S>, told: (S, Pid) -> int)
    requires Shape(p, s) && Records(p, told) && Told(s, told)
    ensures Told(Dispatch(p, s), told)
  {
    hide Lawful;
  }

  lemma PreemptTells<S(!new)>(p: Policy<S>, s: State<S>, told: (S, Pid) -> int)
    requires Shape(p, s) && Records(p, told) && Told(s, told)
    ensures Told(Preempt(p, s), told)
  {
    hide Lawful, Records, Charge, Enqueue, Cancel;
    if s.running.Some? {
      var pid := s.running.value;
      var left := s.procs[pid].remaining - (s.now - s.start);
      ChargeTells(p, s, left, told);
      var s1 := Charge(p, s, left);
      CancelKeepsOthers(s.events, pid, CpuBurstComplete);
      CancelKeepsOthers(Cancel(s.events, pid, CpuBurstComplete), pid, TimeSliceExpire);
      var events := Cancel(Cancel(s.events, pid, CpuBurstComplete), pid, TimeSliceExpire);
      EnqueueTells(p, s1.(events := events, switches := s.switches + 1, running := None), pid, told);
    }
  }

  lemma ContendTells<S(!new)>(p: Policy<S>, s: State<S>, pid: Pid, told: (S, Pid) -> int)
    requires Shape(p, s) && Records(p, told) && Told(s, told)
    ensures Told(Contend(p, s, pid), told)
  {
    hide Lawful, Records, Told, Dispatch, Preempt;
    if s.running.None? {
      DispatchTells(p, s, told);
    } else if p.preempts(s.sched, pid, s.running.value, s.now) {
      PreemptTells(p, s, told);
      DispatchTells(p, Preempt(p, s), told);
    }
  }

  lemma AdvanceTells<S(!new)>(p: Policy<S>, s: State<S>, pid: Pid, told: (S, Pid) -> int)
    requires Shape(p, s) && pid in s.procs && Records(p, told) && Told(s, told)
    ensures Told(Advance(p, s, pid), told)
  {
    hide Lawful, Records, Enqueue;
    var proc := s.procs[pid].(index := s.procs[pid].index + 1);
    if !proc.IsCompleted() {
      EnqueueTells(p, s.(procs := s.procs[pid := proc.(remaining := proc.CpuBurst(proc.index))]), pid, told);
    }
  }

  lemma BurstTells<S(!new)>(p: Policy<S>, s: State<S>, told: (S, Pid) -> int)
    requires Shape(p, s) && s.running.Some? && Records(p, told) && Told(s, told)
    ensures Told(BurstEnds(p, s), told)
  {
    hide Lawful, Records, Charge, Advance;
    ChargeTells(p, s, 0, told);
    AdvanceTells(p, Charge(p, s, 0).(running := None), s.running.value, told);
  }

  lemma SliceTells<S(!new)>(p: Policy<S>, s: State<S>, told: (S, Pid) -> int)
    requires Shape(p, s) && s.running.Some? && Records(p, told) && Told(s, told)
    ensures Told(SliceEnds(p, s), told)
  {
    hide Lawful, Records, Charge, Enqueue;
    var left := s.procs[s.running.value].remaining - (s.now - s.start);
    ChargeTells(p, s, left, told);
    EnqueueTells(p, Charge(p, s, left).(running := None, switches := s.switches + 1), s.running.value, told);
  }

  lemma StepTells<S(!new)>(p: Policy<S>, s: State<S>, i: nat, told: (S, Pid) -> int)
    requires Shape(p, s) && i < |s.events| && Records(p, told) && Told(s, told)
    ensures Told(Step(p, s, i), told)
  {
    hide Lawful, Records, Enqueue, Contend, Dispatch, BurstEnds, SliceEnds, Advance;
    assert s.events[i] in s.events;
    var e, u := s.events[i], Pop(p, s, i);
    match e.kind
    case ProcessArrival =>
      EnqueueTells(p, u, e.pid, told);
      ContendTells(p, Enqueue(p, u, e.pid), e.pid, told);
    case CpuBurstComplete =>
      if u.running == Some(e.pid) {
        BurstTells(p, u, told);
        DispatchTells(p, BurstEnds(p, u), told);
      }
    case TimeSliceExpire =>
      if u.running == Some(e.pid) {
        SliceTells(p, u, told);
        DispatchTells(p, SliceEnds(p, u), told);
      }
    case IoComplete =>
      AdvanceTells(p, u, e.pid, told);
      ContendTells(p, Advance(p, u, e.pid), e.pid, told);
      DispatchTells(p, Advance(p, u, e.pid), told);
  }

  lemma {:induction false} RunTells<S(!new)>(p: Policy<S>, s: State<S>, choices: seq<nat>, told: (S, Pid) -> int)
    requires Shape(p, s) && Run(p, s, choices) && Records(p, told) && Told(s, told)
    ensures Told(After(p, s, choices), told)
    decreases |choices|
  {
    hide Shape, Step, Records, Told;
    if choices != [] {
      StepTells(p, s, choices[0], told);
      RunTells(p, Step(p, s, choices[0]), choices[1..], told);
    }
  }

  lemma {:induction false} NothingTold<S>(sched: S, entries: seq<Entry>, told: (S, Pid) -> int)
    requires forall x :: told(sched, x) == 0
    ensures Told(Initial(sched, entries), told) && Initial(sched, entries).sched == sched
  {
    if entries != [] {
      NothingTold(sched, entries[..|entries| - 1], told);
    }
  }

  /** The scheduler is told about all CPU time: whatever record of it a scheduler keeps, in every
      reachable state it shows each process the CPU time the process has been charged. */
  lemma CpuTimeIsReported<S(!new)>(p: Policy<S>, sched: S, entries: seq<Entry>, choices: seq<nat>, s: State<S>,
                                   told: (S, Pid) -> int, x: Pid)
    requires Reached(p, sched, entries, choices, s) && Records(p, told) && forall y :: told(sched, y) == 0
    requires x in s.procs
    ensures told(s.sched, x) == s.procs[x].cpuTime
  {
    hide Lawful, Shape, Run, After, Initial, Records;
    NothingTold(sched, entries, told);
    RunTells(p, Initial(sched, entries), choices, told);
  }
}

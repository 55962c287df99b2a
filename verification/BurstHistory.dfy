/** Slices and first runs in the burst engine: a running process stops at the end of the slice
    its scheduler granted, or of its burst if that comes first, and what a process waited before
    its first run is its response time. */
module BurstHistory {
  import opened Common
  import opened Burst
  import opened BurstInvariant
  import opened BurstRuns

  // ------------------------------------------------ the parts of a step

  /** What b has been charged since a, and what stays. */
  predicate Touched(a: Process, b: Process, used: int) {
    b.arrival == a.arrival && b.firstRun == a.firstRun && b.cpuTime == a.cpuTime + used
  }

  /** Before the dispatch: if the running process leaves the CPU it has been charged up to now,
      and nobody else is charged. */
  ghost predicate Touches<S>(s: State<S>, t: State<S>) {
    && t.procs.Keys == s.procs.Keys == t.place.Keys == s.place.Keys
    && (t.running.None? || (t.running == s.running && t.start == s.start))
    && (forall x :: x in s.procs && t.running == Some(x) ==> t.place[x] == s.place[x])
    && forall x :: x in s.procs ==>
         Touched(s.procs[x], t.procs[x], if s.running == Some(x) && t.running.None? then t.now - s.start else 0)
  }

  /** Without a dispatch the CPU stays busy, and the process of the event, if it has become
      ready, does not preempt. */
  ghost predicate GoesOn<S>(p: Policy<S>, s: State<S>, t: State<S>, pid: Pid) {
    && t.running.Some? && t.running == s.running
    && (p.ready(t.sched) == p.ready(s.sched)
        || (p.ready(t.sched) == p.ready(s.sched) + multiset{pid} && !p.preempts(t.sched, pid, t.running.value, t.now)))
  }

  lemma ContendParts<S(!new)>(p: Policy<S>, t0: State<S>, pids: seq<Pid>, pid: Pid) returns (t: State<S>, dispatched: bool)
    requires Inv(p, t0, pids)
    ensures Inv(p, t, pids) && t.now == t0.now && Touches(t0, t)
    ensures Contend(p, t0, pid) == if dispatched then Dispatch(p, t) else t
    ensures if dispatched then t.running.None?
            else t == t0 && t.running.Some? && !p.preempts(t.sched, pid, t.running.value, t.now)
  {
    hide Lawful, Accounted, EventsOk, QueueOk, ClockOk, Dispatch, Preempt;
    t, dispatched := t0, false;
    if t0.running.None? {
      dispatched := true;
    } else if p.preempts(t0.sched, pid, t0.running.value, t0.now) {
      PreemptKeeps(p, t0, pids);
      PreemptFields(p, t0);
      t, dispatched := Preempt(p, t0), true;
    }
  }

  /** Only process pid changes, and if the CPU is released it was pid's. */
  lemma OneTouched<S>(s: State<S>, t: State<S>, pid: Pid)
    requires pid in s.procs && pid in t.procs && pid in t.place && s.place.Keys == s.procs.Keys
    requires t.procs == s.procs[pid := t.procs[pid]] && t.place == s.place[pid := t.place[pid]]
    requires if s.running == Some(pid) then t.running.None? else t.running == s.running && t.start == s.start
    requires Touched(s.procs[pid], t.procs[pid], if s.running == Some(pid) then t.now - s.start else 0)
    ensures Touches(s, t)
  {
  }

  lemma TouchesTwice<S>(s: State<S>, u: State<S>, t: State<S>)
    requires Touches(s, u) && Touches(u, t) && u.running == s.running && u.start == s.start
    ensures Touches(s, t)
  {
    forall x | x in s.procs
      ensures Touched(s.procs[x], t.procs[x], if s.running == Some(x) && t.running.None? then t.now - s.start else 0)
    {
      assert Touched(s.procs[x], u.procs[x], 0);
    }
  }

  lemma ArrivalParts<S(!new)>(p: Policy<S>, s: State<S>, pids: seq<Pid>, i: nat) returns (t: State<S>, dispatched: bool)
    requires Inv(p, s, pids) && Top(s.events, i) && s.events[i].kind == ProcessArrival
    ensures Inv(p, t, pids) && t.now == s.events[i].time && Touches(s, t)
    ensures Step(p, s, i) == if dispatched then Dispatch(p, t) else t
    ensures if dispatched then t.running.None? else GoesOn(p, s, t, s.events[i].pid)
  {
    hide Lawful, Accounted, EventsOk, QueueOk, ClockOk, Dispatch, Preempt, Enqueue, Contend, Touches;
    var e, u := s.events[i], Pop(p, s, i);
    NoStaleEvents(p, s, pids, i);
    ArrivalKeeps(p, s, pids, i);
    EnqueueFields(p, u, e.pid);
    var t0 := Enqueue(p, u, e.pid);
    OneTouched(s, t0, e.pid);
    t, dispatched := ContendParts(p, t0, pids, e.pid);
    TouchesTwice(s, t0, t);
  }

  lemma IoParts<S(!new)>(p: Policy<S>, s: State<S>, pids: seq<Pid>, i: nat) returns (t: State<S>, dispatched: bool)
    requires Inv(p, s, pids) && Top(s.events, i) && s.events[i].kind == IoComplete
    ensures Inv(p, t, pids) && t.now == s.events[i].time && Touches(s, t)
    ensures Step(p, s, i) == if dispatched then Dispatch(p, t) else t
    ensures if dispatched then t.running.None? else GoesOn(p, s, t, s.events[i].pid)
  {
    hide Lawful, Accounted, EventsOk, QueueOk, ClockOk, Dispatch, Preempt, Advance, Contend, Touches;
    var e, u := s.events[i], Pop(p, s, i);
    NoStaleEvents(p, s, pids, i);
    IoKeeps(p, s, pids, i);
    AdvanceFields(p, u, e.pid);
    var t0 := Advance(p, u, e.pid);
    OneTouched(s, t0, e.pid);
    if !t0.procs[e.pid].IsCompleted() {
      t, dispatched := ContendParts(p, t0, pids, e.pid);
      TouchesTwice(s, t0, t);
    } else {
      t, dispatched := t0, t0.running.None?;
    }
  }

  lemma ReleaseParts<S(!new)>(p: Policy<S>, s: State<S>, pids: seq<Pid>, i: nat) returns (t: State<S>)
    requires Inv(p, s, pids) && Top(s.events, i) && s.events[i].kind in {CpuBurstComplete, TimeSliceExpire}
    ensures Inv(p, t, pids) && t.now == s.events[i].time && Touches(s, t) && t.running.None?
    ensures Step(p, s, i) == Dispatch(p, t)
  {
    hide Lawful, Accounted, EventsOk, QueueOk, ClockOk, Dispatch, SliceEnds, BurstEnds, Touches;
    var e, u := s.events[i], Pop(p, s, i);
    assert e in s.events;
    if e.kind == TimeSliceExpire {
      SliceKeeps(p, s, pids, i);
      SliceFields(p, u);
      t := SliceEnds(p, u);
    } else {
      BurstKeeps(p, s, pids, i);
      BurstTouches(p, u);
      t := BurstEnds(p, u);
    }
    OneTouched(s, t, e.pid);
  }

  lemma BurstTouches<S(!new)>(p: Policy<S>, u: State<S>)
    requires Shape(p, u) && u.running.Some?
    ensures var t, pid := BurstEnds(p, u), u.running.value;
            && t.now == u.now && t.running.None? && pid in t.procs && pid in t.place
            && t.procs == u.procs[pid := t.procs[pid]] && t.place == u.place[pid := t.place[pid]]
            && Touched(u.procs[pid], t.procs[pid], u.now - u.start)
  {
    hide Lawful, BurstEnds;
    var proc := u.procs[u.running.value];
    if proc.IoBurst(proc.index) > 0 {
      IoFields(p, u, Event(u.now + proc.IoBurst(proc.index), IoComplete, u.running.value));
    } else {
      RoundFields(p, u);
    }
  }

  /** Every step is a preparation and possibly a dispatch on an idle CPU. */
  lemma StepParts<S(!new)>(p: Policy<S>, s: State<S>, pids: seq<Pid>, i: nat) returns (t: State<S>, dispatched: bool)
    requires Inv(p, s, pids) && Top(s.events, i)
    ensures Inv(p, t, pids) && t.now == s.events[i].time && Touches(s, t)
    ensures Step(p, s, i) == if dispatched then Dispatch(p, t) else t
    ensures if dispatched then t.running.None? else GoesOn(p, s, t, s.events[i].pid)
  {
    hide Inv, Step, Dispatch, Touches, GoesOn;
    dispatched := true;
    match s.events[i].kind
    case ProcessArrival => t, dispatched := ArrivalParts(p, s, pids, i);
    case IoComplete => t, dispatched := IoParts(p, s, pids, i);
    case CpuBurstComplete => t := ReleaseParts(p, s, pids, i);
    case TimeSliceExpire => t := ReleaseParts(p, s, pids, i);
  }

  // ------------------------------------------------ one step

  /** Process x runs for the first time right now, after waiting since it arrived, which is its
      response time. */
  ghost predicate RunsFirst<S>(s: State<S>, x: Pid) {
    && x in s.procs && s.running == Some(x) && s.start == s.now
    && s.procs[x].firstRun == s.now
    && s.procs[x].waitTime == s.now - s.procs[x].arrival == s.procs[x].Response()
  }

  /** A ready process that never ran became ready when it arrived. */
  lemma ReadySinceArrival(proc: Process, now: int, start: int)
    requires Accounts(proc, Ready, now, start) && proc.firstRun < 0 && now >= 0
    ensures Started(proc, now).firstRun == now
    ensures Started(proc, now).waitTime == now - proc.arrival == Started(proc, now).Response()
  {
  }

  /** The decision by which the running process was dispatched. */
  ghost predicate ChosenBy<S>(p: Policy<S>, s: State<S>, y: S)
    requires s.running.Some? && s.running.value in s.place && s.place[s.running.value].OnCpu?
  {
    p.schedule(y, s.start) == Some(Decision(s.running.value, s.place[s.running.value].slice))
  }

  lemma DispatchHistory<S(!new)>(p: Policy<S>, t: State<S>, pids: seq<Pid>, x: Pid)
    requires Inv(p, t, pids) && t.running.None? && x in t.procs
    ensures var r := Dispatch(p, t);
            && r.now == t.now && x in r.procs && r.procs[x].arrival == t.procs[x].arrival
            && r.procs[x].cpuTime == t.procs[x].cpuTime
            && (r.procs[x].firstRun != t.procs[x].firstRun ==> t.procs[x].firstRun < 0 && RunsFirst(r, x))
  {
    hide Lawful, Accounted, EventsOk, QueueOk, ClockOk, Dispatch;
    if |p.ready(t.sched)| == 0 {
      NoDispatch(p, t);
    } else {
      var d, e := DispatchFields(p, t);
      IsAccounted(t, d.pid);
      ReadyPlaced(p, t, d.pid);
      if t.procs[d.pid].firstRun < 0 {
        ReadySinceArrival(t.procs[d.pid], t.now, t.start);
      }
    }
  }

  lemma DispatchChooses<S(!new)>(p: Policy<S>, t: State<S>)
    requires Shape(p, t) && t.running.None?
    ensures var r := Dispatch(p, t);
            && r.now == t.now
            && (r.running.Some? ==>
                  && r.start == r.now && r.running.value in r.place && r.place[r.running.value].OnCpu?
                  && ChosenBy(p, r, t.sched) && r.sched == p.remove(t.sched, r.running.value))
  {
    hide Lawful, Dispatch;
    if |p.ready(t.sched)| == 0 {
      NoDispatch(p, t);
    } else {
      var d, e := DispatchFields(p, t);
    }
  }

  /** In every step: only the running process is charged, for the time since its dispatch; and a
      process that runs for the first time does so from the time of the event on, nobody's
      first run changes later. */
  lemma StepHistory<S(!new)>(p: Policy<S>, s: State<S>, pids: seq<Pid>, i: nat, x: Pid)
    requires Inv(p, s, pids) && Top(s.events, i) && x in s.procs
    ensures var r := Step(p, s, i);
            && r.now == s.events[i].time && x in r.procs && r.procs[x].arrival == s.procs[x].arrival
            && (r.procs[x].cpuTime != s.procs[x].cpuTime ==>
                  s.running == Some(x) && r.procs[x].cpuTime == s.procs[x].cpuTime + (r.now - s.start))
            && (r.procs[x].firstRun != s.procs[x].firstRun ==> s.procs[x].firstRun < 0 && RunsFirst(r, x))
  {
    hide Inv, Step, Dispatch, RunsFirst;
    var t, dispatched := StepParts(p, s, pids, i);
    assert Touched(s.procs[x], t.procs[x], if s.running == Some(x) && t.running.None? then t.now - s.start else 0);
    if dispatched {
      DispatchHistory(p, t, pids, x);
    }
  }

  /** After every step the running process either goes on with its slice, or the scheduler has
      just chosen it, with its slice, from the ready ones. */
  lemma StepChooses<S(!new)>(p: Policy<S>, s: State<S>, pids: seq<Pid>, i: nat)
    requires Inv(p, s, pids) && Top(s.events, i)
    ensures var r := Step(p, s, i);
            r.running.Some? ==>
              && r.running.value in r.place && r.place[r.running.value].OnCpu?
              && ((s.running == r.running && r.running.value in s.place && s.place[r.running.value] == r.place[r.running.value]
                   && r.start == s.start)
                  || (r.start == r.now
                      && exists y :: ChosenBy(p, r, y) && r.sched == p.remove(y, r.running.value)))
  {
    hide Lawful, Accounted, EventsOk, ClockOk, Step, Dispatch;
    var t, dispatched := StepParts(p, s, pids, i);
    if dispatched {
      DispatchChooses(p, t);
    } else {
      RunningPlaced(p, t, pids);
    }
  }

  /** The event pending for a running process. */
  lemma RunningEnds<S(!new)>(p: Policy<S>, s: State<S>, pids: seq<Pid>)
    requires Inv(p, s, pids) && s.running.Some?
    ensures var pid := s.running.value;
            && pid in s.procs && pid in s.place && s.place[pid].OnCpu? && s.place[pid].event in s.events
            && s.place[pid].event == if 0 < s.place[pid].slice < s.procs[pid].remaining
                                     then Event(s.start + s.place[pid].slice, TimeSliceExpire, pid)
                                     else Event(s.start + s.procs[pid].remaining, CpuBurstComplete, pid)
  {
    hide Lawful, ClockOk;
    RunningPlaced(p, s, pids);
    var pid := s.running.value;
    IsAccounted(s, pid);
    assert multiset(s.events)[s.place[pid].event] == 1;
    assert s.place[pid].event in multiset(s.events);
  }

  /** No step charges more CPU time than the slice granted, or than the burst has left. */
  lemma SliceLimitsCharge<S(!new)>(p: Policy<S>, s: State<S>, pids: seq<Pid>, i: nat)
    requires Inv(p, s, pids) && Top(s.events, i) && s.running.Some?
    ensures var pid, time := s.running.value, s.events[i].time;
            && pid in s.procs && pid in s.place && s.place[pid].OnCpu?
            && 0 <= time - s.start <= s.procs[pid].remaining
            && (s.place[pid].slice > 0 ==> time - s.start <= s.place[pid].slice)
  {
    hide Lawful, QueueOk, ClockOk;
    RunningEnds(p, s, pids);
    IsAccounted(s, s.running.value);
    var end := s.place[s.running.value].event;
    var k :| 0 <= k < |s.events| && s.events[k] == end;
    assert !Later(s.events[i], s.events[k]);
    assert s.events[i] in s.events;
  }

  // ------------------------------------------------ context switches

  /** The process of the event becomes ready. */
  predicate BecomesReady(e: Event, proc: Process) {
    e.kind == ProcessArrival || (e.kind == IoComplete && proc.index + 1 < |proc.cpuBursts|)
  }

  /** The event interrupts the running process: by the end of its slice, or by a process that
      becomes ready and, once added to the scheduler, preempts it. */
  predicate Interrupts<S>(p: Policy<S>, s: State<S>, e: Event)
    requires e.pid in s.procs
  {
    && s.running.Some?
    && (e.kind == TimeSliceExpire
        || (BecomesReady(e, s.procs[e.pid])
            && p.preempts(p.add(s.sched, e.pid, e.time), e.pid, s.running.value, e.time)))
  }

  lemma DispatchSwitches<S(!new)>(p: Policy<S>, t: State<S>)
    requires Shape(p, t)
    ensures Dispatch(p, t).switches == t.switches
  {
    hide Lawful;
  }

  lemma PreemptSwitches<S(!new)>(p: Policy<S>, t: State<S>)
    requires Shape(p, t) && t.running.Some?
    ensures Preempt(p, t).switches == t.switches + 1
  {
    hide Lawful, Cancel;
  }

  lemma ContendSwitches<S(!new)>(p: Policy<S>, t: State<S>, pid: Pid)
    requires Shape(p, t)
    ensures Contend(p, t, pid).switches
         == t.switches + if t.running.Some? && p.preempts(t.sched, pid, t.running.value, t.now) then 1 else 0
  {
    hide Lawful, Dispatch, Preempt;
    if t.running.None? {
      DispatchSwitches(p, t);
    } else if p.preempts(t.sched, pid, t.running.value, t.now) {
      PreemptSwitches(p, t);
      DispatchSwitches(p, Preempt(p, t));
    }
  }

  lemma AdvanceSwitches<S(!new)>(p: Policy<S>, s: State<S>, pid: Pid)
    requires Shape(p, s) && pid in s.procs
    ensures var r := Advance(p, s, pid);
            && r.switches == s.switches && r.now == s.now && r.running == s.running && pid in r.procs
            && (r.procs[pid].IsCompleted() <==> s.procs[pid].index + 1 >= |s.procs[pid].cpuBursts|)
            && (!r.procs[pid].IsCompleted() ==> r.sched == p.add(s.sched, pid, s.now))
  {
    hide Lawful;
  }

  lemma ReleaseSwitches<S(!new)>(p: Policy<S>, u: State<S>)
    requires Shape(p, u) && u.running.Some?
    ensures BurstEnds(p, u).switches == u.switches && SliceEnds(p, u).switches == u.switches + 1
  {
    hide Lawful, Advance;
    AdvanceSwitches(p, Charge(p, u, 0).(running := None), u.running.value);
  }

  /** In every step a context switch is counted, once, exactly if the event interrupts the
      running process. */
  lemma StepSwitches<S(!new)>(p: Policy<S>, s: State<S>, pids: seq<Pid>, i: nat)
    requires Inv(p, s, pids) && i < |s.events|
    ensures s.events[i].pid in s.procs
    ensures Step(p, s, i).switches == s.switches + if Interrupts(p, s, s.events[i]) then 1 else 0
  {
    hide Lawful, Accounted, EventsOk, QueueOk, ClockOk, Contend, Dispatch, Advance, BurstEnds, SliceEnds;
    NoStaleEvents(p, s, pids, i);
    var e, u := s.events[i], Pop(p, s, i);
    match e.kind
    case ProcessArrival => ContendSwitches(p, Enqueue(p, u, e.pid), e.pid);
    case CpuBurstComplete =>
      ReleaseSwitches(p, u);
      DispatchSwitches(p, BurstEnds(p, u));
    case TimeSliceExpire =>
      ReleaseSwitches(p, u);
      DispatchSwitches(p, SliceEnds(p, u));
    case IoComplete =>
      AdvanceSwitches(p, u, e.pid);
      ContendSwitches(p, Advance(p, u, e.pid), e.pid);
      DispatchSwitches(p, Advance(p, u, e.pid));
  }

  // ------------------------------------------------ runs

  /** A state of a run of the engine, from the processes submitted. */
  ghost predicate Reached<S(!new)>(p: Policy<S>, sched: S, entries: seq<Entry>, choices: seq<nat>, s: State<S>) {
    && Lawful(p) && p.ready(sched) == multiset{} && ValidEntries(entries)
    && Shape(p, Initial(sched, entries)) && Run(p, Initial(sched, entries), choices)
    && s == After(p, Initial(sched, entries), choices)
  }

  lemma ReachedInv<S(!new)>(p: Policy<S>, sched: S, entries: seq<Entry>, choices: seq<nat>, s: State<S>)
    requires Reached(p, sched, entries, choices, s)
    ensures Inv(p, s, Pids(entries))
  {
    InitialInv(p, sched, entries);
    RunKeeps(p, Initial(sched, entries), Pids(entries), choices);
  }

  /** Some decision put the running process on the CPU. */
  ghost predicate Chosen<S(!new)>(p: Policy<S>, s: State<S>) {
    s.running.Some? ==>
      && s.running.value in s.place && s.place[s.running.value].OnCpu?
      && exists y :: ChosenBy(p, s, y)
  }

  lemma {:induction false} RunKeepsChosen<S(!new)>(p: Policy<S>, s: State<S>, pids: seq<Pid>, choices: seq<nat>)
    requires Inv(p, s, pids) && Chosen(p, s) && Run(p, s, choices)
    ensures Chosen(p, After(p, s, choices))
    decreases |choices|
  {
    hide Accounted, EventsOk, QueueOk, ClockOk, Lawful, Step;
    if choices != [] {
      StepKeeps(p, s, pids, choices[0]);
      StepChooses(p, s, pids, choices[0]);
      var r := Step(p, s, choices[0]);
      if r.running.Some? && r.start == s.start && s.running == r.running && s.place[r.running.value] == r.place[r.running.value] {
        var y :| ChosenBy(p, s, y);
        assert ChosenBy(p, r, y);
      }
      RunKeepsChosen(p, r, pids, choices[1..]);
    }
  }

  /** Slices are kept: in every reachable state the running process was dispatched at start by a
      decision of the scheduler that granted it a slice, and if that is positive and shorter than
      what is left of the burst, a slice event is pending for exactly the end of the slice, and
      else a completion event for the end of the burst; so whatever event comes next, the
      process is charged no more than its slice. */
  lemma SlicesAreKept<S(!new)>(p: Policy<S>, sched: S, entries: seq<Entry>, choices: seq<nat>, s: State<S>) returns (y: S, slice: int)
    requires Reached(p, sched, entries, choices, s) && s.running.Some?
    ensures s.running.value in s.procs && p.schedule(y, s.start) == Some(Decision(s.running.value, slice))
    ensures var pid, left := s.running.value, s.procs[s.running.value].remaining;
            (if 0 < slice < left then Event(s.start + slice, TimeSliceExpire, pid)
             else Event(s.start + left, CpuBurstComplete, pid)) in s.events
    ensures forall i: nat :: Top(s.events, i) ==>
              && 0 <= s.events[i].time - s.start <= s.procs[s.running.value].remaining
              && (slice > 0 ==> s.events[i].time - s.start <= slice)
  {
    hide Lawful, Inv, Run, After, Initial, Chosen, ChosenBy, Later;
    ReachedInv(p, sched, entries, choices, s);
    RunningEnds(p, s, Pids(entries));
    y := ReachedChoice(p, sched, entries, choices, s);
    slice := s.place[s.running.value].slice;
    forall i: nat | Top(s.events, i)
      ensures 0 <= s.events[i].time - s.start <= s.procs[s.running.value].remaining
      ensures slice > 0 ==> s.events[i].time - s.start <= slice
    {
      SliceLimitsCharge(p, s, Pids(entries), i);
    }
  }

  lemma ReachedChoice<S(!new)>(p: Policy<S>, sched: S, entries: seq<Entry>, choices: seq<nat>, s: State<S>) returns (y: S)
    requires Reached(p, sched, entries, choices, s) && s.running.Some?
    ensures s.running.value in s.place && s.place[s.running.value].OnCpu?
    ensures p.schedule(y, s.start) == Some(Decision(s.running.value, s.place[s.running.value].slice))
  {
    hide Lawful, Inv, Run, After, Initial;
    InitialInv(p, sched, entries);
    RunKeepsChosen(p, Initial(sched, entries), Pids(entries), choices);
    y :| ChosenBy(p, s, y);
  }

  lemma {:induction false} RunKeepsFirstRun<S(!new)>(p: Policy<S>, s: State<S>, pids: seq<Pid>, choices: seq<nat>, x: Pid)
    requires Inv(p, s, pids) && Run(p, s, choices) && x in s.procs
    ensures var r := After(p, s, choices);
            && x in r.procs && r.procs[x].arrival == s.procs[x].arrival
            && (s.procs[x].firstRun >= 0 ==> r.procs[x].firstRun == s.procs[x].firstRun)
    decreases |choices|
  {
    hide Accounted, EventsOk, QueueOk, ClockOk, Lawful, Step, RunsFirst;
    if choices != [] {
      StepKeeps(p, s, pids, choices[0]);
      StepHistory(p, s, pids, choices[0], x);
      RunKeepsFirstRun(p, Step(p, s, choices[0]), pids, choices[1..], x);
    }
  }

  /** The choice by which a process first runs. */
  lemma {:induction false} FirstDispatch<S(!new)>(p: Policy<S>, s: State<S>, pids: seq<Pid>, choices: seq<nat>, x: Pid) returns (k: nat)
    requires Inv(p, s, pids) && Run(p, s, choices) && x in s.procs && s.procs[x].firstRun < 0
    requires x in After(p, s, choices).procs && After(p, s, choices).procs[x].firstRun >= 0
    ensures k < |choices| && Run(p, s, choices[..k]) && Run(p, s, choices[..k + 1])
    ensures x in After(p, s, choices[..k]).procs && After(p, s, choices[..k]).procs[x].firstRun < 0
    ensures var u, r := After(p, s, choices[..k + 1]), After(p, s, choices);
            RunsFirst(u, x) && u.procs[x].firstRun == r.procs[x].firstRun && u.procs[x].arrival == r.procs[x].arrival
    decreases |choices|
  {
    hide Accounted, EventsOk, QueueOk, ClockOk, Lawful, Step;
    var u, rest := Step(p, s, choices[0]), choices[1..];
    StepKeeps(p, s, pids, choices[0]);
    StepHistory(p, s, pids, choices[0], x);
    if u.procs[x].firstRun >= 0 {
      k := 0;
      RunKeepsFirstRun(p, u, pids, rest, x);
      assert choices[..1] == [choices[0]] && choices[..1][1..] == [];
    } else {
      var j := FirstDispatch(p, u, pids, rest, x);
      k := j + 1;
      assert choices[..k][1..] == rest[..j] && choices[..k + 1][1..] == rest[..j + 1];
    }
  }

  lemma {:induction false} NobodyRanYet<S>(sched: S, entries: seq<Entry>)
    ensures forall x :: x in Initial(sched, entries).procs ==> Initial(sched, entries).procs[x].firstRun < 0
  {
    if entries != [] {
      NobodyRanYet(sched, entries[..|entries| - 1]);
    }
  }

  lemma {:induction false} RunKeepsKeys<S(!new)>(p: Policy<S>, s: State<S>, choices: seq<nat>)
    requires Shape(p, s) && Run(p, s, choices)
    ensures After(p, s, choices).procs.Keys == s.procs.Keys
    decreases |choices|
  {
    hide Shape, Step;
    if choices != [] {
      RunKeepsKeys(p, Step(p, s, choices[0]), choices[1..]);
    }
  }

  /** The response time of a process that has run is the time it had waited when it first ran:
      the run goes through a state u, entered by its (k + 1)-th event, in which the process has
      just been dispatched, and had never run before. */
  lemma ResponseIsFirstWait<S(!new)>(p: Policy<S>, sched: S, entries: seq<Entry>, choices: seq<nat>, s: State<S>, x: Pid)
    returns (k: nat, before: State<S>, u: State<S>)
    requires Reached(p, sched, entries, choices, s) && x in s.procs && s.procs[x].firstRun >= 0
    ensures k < |choices|
    ensures Reached(p, sched, entries, choices[..k], before) && x in before.procs && before.procs[x].firstRun < 0
    ensures Reached(p, sched, entries, choices[..k + 1], u) && RunsFirst(u, x)
    ensures s.procs[x].Response() == u.procs[x].waitTime == u.now - s.procs[x].arrival
  {
    hide Lawful, Inv, Run, After, Initial;
    var s0 := Initial(sched, entries);
    InitialInv(p, sched, entries);
    NobodyRanYet(sched, entries);
    RunKeepsKeys(p, s0, choices);
    assert x in s0.procs.Keys;
    k := FirstDispatch(p, s0, Pids(entries), choices, x);
    before, u := After(p, s0, choices[..k]), After(p, s0, choices[..k + 1]);
  }
}

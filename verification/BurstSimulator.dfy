/** The burst engine as it runs: an event queue with eager cancellation and a simulator that
    updates its fields in place, method by method the functions of module Burst. */
module BurstSimulation {
  import opened Common
  import opened Burst
  import opened BurstInvariant
  import opened BurstRuns

  /** include/event.h; the order of equal events in the heap is not specified. */
  class EventQueue {
    var heap: seq<Event>

    constructor ()
      ensures heap == []
    {
      heap := [];
    }

    method Push(e: Event)
      modifies this
      ensures heap == old(heap) + [e]
    {
      heap := heap + [e];
    }

    /** Any event that no other precedes. */
    method Pop() returns (e: Event, ghost i: nat)
      requires heap != []
      modifies this
      ensures Top(old(heap), i) && e == old(heap)[i] && heap == Without(old(heap), i)
    {
      var best := 0;
      for k := 1 to |heap|
        invariant 0 <= best < |heap| && heap == old(heap)
        invariant forall j :: 0 <= j < k ==> !Later(heap[best], heap[j])
      {
        if Later(heap[best], heap[k]) {
          best := k;
        }
      }
      e, i := heap[best], best;
      heap := Without(heap, best);
    }

    /** Rebuild the heap without the events of one process and kind. */
    method Cancel(pid: Pid, kind: Kind)
      modifies this
      ensures heap == Burst.Cancel(old(heap), pid, kind)
    {
      var kept: seq<Event> := [];
      for k := 0 to |heap|
        invariant heap == old(heap) && kept == Burst.Cancel(heap[..k], pid, kind)
      {
        assert heap[..k + 1][..k] == heap[..k];
        if !(heap[k].pid == pid && heap[k].kind == kind) {
          kept := kept + [heap[k]];
        }
      }
      assert heap[..|heap|] == heap;
      heap := kept;
    }
  }

  class Simulator<S(!new)> {
    const policy: Policy<S>
    const events: EventQueue
    var procs: map<Pid, Process>
    var now: int
    var running: Option<Pid>
    var start: int
    var sched: S
    var idle: int
    var switches: nat
    ghost var place: map<Pid, Place>

    ghost function State(): State<S>
      reads this, events
    {
      Burst.State(now, procs, events.heap, running, start, sched, idle, switches, place)
    }

    ghost predicate Valid()
      reads this, events
    {
      Shape(policy, State())
    }

    /** The constructor and reset: every process restarted, its arrival scheduled. */
    constructor (policy: Policy<S>, sched: S, entries: seq<Entry>)
      requires Burst.Lawful(policy) && policy.ready(sched) == multiset{} && ValidEntries(entries)
      ensures this.policy == policy && fresh(events) && State() == Initial(sched, entries) && Valid()
    {
      this.policy, this.sched := policy, sched;
      events := new EventQueue();
      now, running, start, idle, switches := 0, None, 0, 0, 0;
      procs, place := map[], map[];
      new;
      for k := 0 to |entries|
        invariant State() == Initial(sched, entries[..k]) && fresh(events)
      {
        assert entries[..k + 1][..k] == entries[..k];
        var entry := entries[k];
        procs := procs[entry.pid := Restarted(entry.process)];
        place := place[entry.pid := Away(Event(entry.process.arrival, ProcessArrival, entry.pid))];
        events.Push(Event(entry.process.arrival, ProcessArrival, entry.pid));
      }
      assert entries[..|entries|] == entries;
      InitialInv(policy, sched, entries);
    }

    /** The loop: until no event is left. */
    method Run(ghost pids: seq<Pid>) returns (ghost choices: seq<nat>)
      requires Valid() && Inv(policy, State(), pids) && Busy(policy, State())
      modifies this, events
      ensures Valid() && events.heap == []
      ensures BurstRuns.Run(policy, old(State()), choices) && State() == After(policy, old(State()), choices)
    {
      hide Lawful, Accounted, EventsOk, QueueOk, Burst.Step, Busy, Burst.Top;
      choices := [];
      ghost var s0 := State();
      while events.heap != []
        invariant Valid() && Inv(policy, State(), pids) && Busy(policy, State())
        invariant BurstRuns.Run(policy, s0, choices) && State() == After(policy, s0, choices)
        decreases WorkLeft(State(), pids)
      {
        ghost var s := State();
        WorkLeftNonnegative(s, pids);
        ghost var i := HandleNext();
        StepKeeps(policy, s, pids, i);
        StepWasBusy(policy, s, pids, i);
        RunExtends(policy, s0, choices, i);
        choices := choices + [i];
      }
    }

    /** Pop an event, move the clock, and handle it. */
    method HandleNext() returns (ghost i: nat)
      requires Valid() && events.heap != []
      modifies this, events
      ensures Valid() && Top(old(events.heap), i) && State() == Step(policy, old(State()), i)
    {
      hide Lawful, Burst.HandleArrival, Burst.HandleBurstComplete, Burst.HandleTimeSlice, Burst.HandleIoComplete;
      var e;
      e, i := events.Pop();
      assert e in old(events.heap);
      var before := now;
      now := e.time;
      if running.None? && now > before {
        idle := idle + (now - before);
      }
      assert State() == Burst.Pop(policy, old(State()), i);
      HandleEvent(e);
    }

    method HandleEvent(e: Event)
      requires Valid() && e.pid in procs
      modifies this, events
      ensures Valid()
      ensures State() == match e.kind
                         case ProcessArrival => Burst.HandleArrival(policy, old(State()), e.pid)
                         case CpuBurstComplete => Burst.HandleBurstComplete(policy, old(State()), e.pid)
                         case TimeSliceExpire => Burst.HandleTimeSlice(policy, old(State()), e.pid)
                         case IoComplete => Burst.HandleIoComplete(policy, old(State()), e.pid)
    {
      match e.kind
      case ProcessArrival => HandleArrival(e.pid);
      case CpuBurstComplete => HandleBurstComplete(e.pid);
      case TimeSliceExpire => HandleTimeSlice(e.pid);
      case IoComplete => HandleIoComplete(e.pid);
    }

    method HandleArrival(pid: Pid)
      requires Valid() && pid in procs
      modifies this, events
      ensures Valid() && State() == Burst.HandleArrival(policy, old(State()), pid)
    {
      hide Lawful, Burst.Enqueue, Burst.Contend;
      Enqueue(pid);
      Contend(pid);
    }

    method HandleBurstComplete(pid: Pid)
      requires Valid() && pid in procs
      modifies this, events
      ensures Valid() && State() == Burst.HandleBurstComplete(policy, old(State()), pid)
    {
      hide Lawful, Burst.BurstEnds, Burst.Dispatch;
      if running != Some(pid) {
        return;
      }
      BurstEnds();
      DispatchNext();
    }

    /** Account the whole burst; then IO, the next burst, or completion. */
    method BurstEnds()
      requires Valid() && running.Some?
      modifies this, events
      ensures Valid() && State() == Burst.BurstEnds(policy, old(State()))
    {
      hide Lawful, Burst.Charge, Burst.Advance;
      var pid := running.value;
      Charge(0);
      ChargeFields(policy, old(State()), 0);
      running := None;
      var io := procs[pid].IoBurst(procs[pid].index);
      if io > 0 {
        var e := Event(now + io, IoComplete, pid);
        place := place[pid := Away(e)];
        events.Push(e);
      } else {
        Advance(pid);
      }
    }

    method HandleTimeSlice(pid: Pid)
      requires Valid() && pid in procs
      modifies this, events
      ensures Valid() && State() == Burst.HandleTimeSlice(policy, old(State()), pid)
    {
      hide Lawful, Burst.SliceEnds, Burst.Dispatch;
      if running != Some(pid) {
        return;
      }
      SliceEnds();
      DispatchNext();
    }

    /** Account the slice and go back to the queue. */
    method SliceEnds()
      requires Valid() && running.Some?
      modifies this
      ensures Valid() && State() == Burst.SliceEnds(policy, old(State()))
    {
      hide Shape, Burst.Charge, Burst.Enqueue;
      var pid := running.value;
      assert pid in procs by { RunningKnown(policy, State()); }
      ChargeFields(policy, State(), procs[pid].remaining - (now - start));
      Charge(procs[pid].remaining - (now - start));
      ghost var charged := State();
      running := None;
      switches := switches + 1;
      StopKeepsShape(policy, charged, State());
      Enqueue(pid);
    }

    method HandleIoComplete(pid: Pid)
      requires Valid() && pid in procs
      modifies this, events
      ensures Valid() && State() == Burst.HandleIoComplete(policy, old(State()), pid)
    {
      hide Lawful, Burst.Advance, Burst.Contend, Burst.Dispatch;
      Advance(pid);
      if procs[pid].IsCompleted() {
        if running.None? {
          DispatchNext();
        }
        return;
      }
      Contend(pid);
    }

    /** The next burst, or completion. */
    method Advance(pid: Pid)
      requires Valid() && pid in procs
      modifies this
      ensures Valid() && State() == Burst.Advance(policy, old(State()), pid)
    {
      hide Lawful, Burst.Enqueue;
      var proc := procs[pid];
      proc := proc.(index := proc.index + 1);
      if proc.IsCompleted() {
        procs := procs[pid := proc.(completion := now)];
        place := place[pid := Done];
      } else {
        procs := procs[pid := proc.(remaining := proc.CpuBurst(proc.index))];
        Enqueue(pid);
      }
    }

    method Contend(pid: Pid)
      requires Valid()
      modifies this, events
      ensures Valid() && State() == Burst.Contend(policy, old(State()), pid)
    {
      hide Lawful, Burst.Dispatch, Burst.Preempt;
      if running.None? {
        DispatchNext();
      } else if policy.preempts(sched, pid, running.value, now) {
        PreemptCurrent();
        DispatchNext();
      }
    }

    method PreemptCurrent()
      requires Valid()
      modifies this, events
      ensures Valid() && State() == Burst.Preempt(policy, old(State()))
    {
      hide Shape, Burst.Charge, Burst.Enqueue, Burst.Cancel;
      if running.None? {
        return;
      }
      var pid := running.value;
      assert pid in procs by { RunningKnown(policy, State()); }
      ChargeFields(policy, State(), procs[pid].remaining - (now - start));
      Charge(procs[pid].remaining - (now - start));
      ghost var charged := State();
      CancelKeepsOthers(events.heap, pid, CpuBurstComplete);
      events.Cancel(pid, CpuBurstComplete);
      CancelKeepsOthers(events.heap, pid, TimeSliceExpire);
      events.Cancel(pid, TimeSliceExpire);
      switches := switches + 1;
      running := None;
      StopKeepsShape(policy, charged, State());
      Enqueue(pid);
    }

    method DispatchNext()
      requires Valid()
      modifies this, events
      ensures Valid() && State() == Burst.Dispatch(policy, old(State()))
      ensures |policy.ready(old(sched))| > 0 && policy.schedule(old(sched), now).Some? ==>
                var d := policy.schedule(old(sched), now).value;
                && running == Some(d.pid) && d.pid in procs && start == now
                && events.heap == old(events.heap)
                     + [if 0 < d.slice < procs[d.pid].remaining then Event(now + d.slice, TimeSliceExpire, d.pid)
                        else Event(now + procs[d.pid].remaining, CpuBurstComplete, d.pid)]
    {
      hide Lawful, Burst.Start;
      if |policy.ready(sched)| == 0 {
        running := None;
        return;
      }
      var d := policy.schedule(sched, now);
      if d.None? {
        running := None;
        return;
      }
      ChoiceKnown(policy, State());
      StartPushes(policy, State(), d.value.pid, d.value.slice);
      Start(d.value.pid, d.value.slice);
    }

    /** Run a ready process until its slice or its burst ends. */
    method Start(pid: Pid, slice: int)
      requires Valid() && pid in procs
      modifies this, events
      ensures Valid() && State() == Burst.Start(policy, old(State()), pid, slice)
    {
      hide Shape;
      sched := policy.remove(sched, pid);
      var proc := procs[pid];
      proc := proc.(waitTime := proc.waitTime + (now - proc.enterReady));
      if proc.firstRun < 0 {
        proc := proc.(firstRun := now);
      }
      procs := procs[pid := proc];
      running, start := Some(pid), now;
      var e := Event(now + proc.remaining, CpuBurstComplete, pid);
      if slice > 0 && slice < proc.remaining {
        e := Event(now + slice, TimeSliceExpire, pid);
      }
      place := place[pid := OnCpu(e, slice)];
      events.Push(e);
      assert State() == Burst.Start(policy, old(State()), pid, slice);
    }

    /** CPU accounting for the running process. */
    method Charge(remaining: int)
      requires Valid() && running.Some?
      modifies this
      ensures Valid() && State() == Burst.Charge(policy, old(State()), remaining)
    {
      var pid, used := running.value, now - start;
      var proc := procs[pid];
      procs := procs[pid := proc.(cpuTime := proc.cpuTime + used, remaining := remaining)];
      sched := policy.charge(sched, pid, used, now);
    }

    method Enqueue(pid: Pid)
      requires Valid() && pid in procs
      modifies this
      ensures Valid() && State() == Burst.Enqueue(policy, old(State()), pid)
    {
      procs := procs[pid := procs[pid].(enterReady := now)];
      sched := policy.add(sched, pid, now);
      place := place[pid := Ready];
    }
  }

  lemma ChoiceKnown<S(!new)>(p: Policy<S>, s: State<S>)
    requires Shape(p, s) && |p.ready(s.sched)| > 0
    ensures p.schedule(s.sched, s.now).Some? && p.schedule(s.sched, s.now).value.pid in s.procs
  {
  }

  lemma StartPushes<S(!new)>(p: Policy<S>, s: State<S>, pid: Pid, slice: int)
    requires Shape(p, s) && pid in s.procs
    ensures var r := Burst.Start(p, s, pid, slice);
            && pid in r.procs && r.running == Some(pid) && r.start == r.now == s.now
            && r.events == s.events + [if 0 < slice < r.procs[pid].remaining then Event(s.now + slice, TimeSliceExpire, pid)
                                       else Event(s.now + r.procs[pid].remaining, CpuBurstComplete, pid)]
  {
    hide Lawful;
  }

  /** Stopping the running process and dropping events keeps the shape. */
  lemma StopKeepsShape<S(!new)>(p: Policy<S>, s: State<S>, r: State<S>)
    requires Shape(p, s) && r == s.(running := None, switches := r.switches, events := r.events)
    requires forall e :: e in r.events ==> e in s.events
    ensures Shape(p, r)
  {
  }

  lemma RunningKnown<S(!new)>(p: Policy<S>, s: State<S>)
    requires Shape(p, s) && s.running.Some?
    ensures s.running.value in s.procs
  {
  }

  lemma StepWasBusy<S(!new)>(p: Policy<S>, s: State<S>, pids: seq<Pid>, i: nat)
    requires Inv(p, s, pids) && Top(s.events, i)
    ensures Busy(p, Step(p, s, i))
  {
    StepIsBusy(p, s, pids, i);
  }

  lemma {:induction false} RunExtends<S(!new)>(p: Policy<S>, s: State<S>, choices: seq<nat>, i: nat)
    requires Shape(p, s) && BurstRuns.Run(p, s, choices) && Top(After(p, s, choices).events, i)
    ensures BurstRuns.Run(p, s, choices + [i])
    ensures After(p, s, choices + [i]) == Step(p, After(p, s, choices), i)
    decreases |choices|
  {
    hide Lawful, Burst.Step;
    if choices == [] {
      assert ([] + [i])[1..] == [];
    } else {
      assert (choices + [i])[1..] == choices[1..] + [i];
      RunExtends(p, Step(p, s, choices[0]), choices[1..], i);
    }
  }

  /** A whole simulation: it ends, and then every process has done exactly its bursts. */
  method Simulate<S(!new)>(policy: Policy<S>, sched: S, entries: seq<Entry>) returns (sim: Simulator<S>)
    requires Lawful(policy) && policy.ready(sched) == multiset{} && ValidEntries(entries)
    ensures fresh(sim) && sim.Valid() && sim.events.heap == []
    ensures forall pid :: pid in sim.procs ==>
              var proc := sim.procs[pid];
              && proc.completion >= 0 && proc.cpuTime == CpuSum(proc, Rounds(proc))
              && proc.Turnaround() == proc.cpuTime + IoSum(proc, Rounds(proc)) + proc.waitTime
    ensures Lists(sim.State(), Pids(entries)) && sim.now == sim.idle + CpuTotal(sim.procs, Pids(entries))
  {
    sim := new Simulator(policy, sched, entries);
    InitialInv(policy, sched, entries);
    var choices := sim.Run(Pids(entries));
    EndOfRunTotals(policy, sched, entries, choices, sim.State());
    forall pid | pid in sim.procs
      ensures var proc := sim.procs[pid];
              && proc.completion >= 0 && proc.cpuTime == CpuSum(proc, Rounds(proc))
              && proc.Turnaround() == proc.cpuTime + IoSum(proc, Rounds(proc)) + proc.waitTime
    {
      EndOfRun(policy, sched, entries, choices, sim.State(), pid);
    }
  }
}

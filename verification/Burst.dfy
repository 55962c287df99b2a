/** The integer-microsecond engine of include/simulator.h: processes alternate CPU and IO
    bursts on one CPU under an abstract scheduler, superseded events are cancelled eagerly,
    and the loop runs until no event is left. */
module Burst {
  import opened Common

  type Pid = nat

  /** include/process.h without the schedulers' own fields. */
  datatype Process = Process(
    arrival: int, cpuBursts: seq<int>, ioBursts: seq<int>, index: nat,
    remaining: int, cpuTime: int, waitTime: int, enterReady: int, firstRun: int, completion: int)
  {
    predicate IsCompleted() {
      index >= |cpuBursts|
    }

    function CpuBurst(k: nat): int {
      if k < |cpuBursts| then cpuBursts[k] else 0
    }

    function IoBurst(k: nat): int {
      if k < |ioBursts| then ioBursts[k] else 0
    }

    function Response(): int {
      if firstRun < 0 then -1 else firstRun - arrival
    }

    function Turnaround(): int {
      if completion < 0 then -1 else completion - arrival
    }
  }

  /** In the order in which equal times are broken. */
  datatype Kind = ProcessArrival | CpuBurstComplete | TimeSliceExpire | IoComplete

  datatype Event = Event(time: int, kind: Kind, pid: Pid)

  function Rank(kind: Kind): nat {
    match kind
    case ProcessArrival => 0
    case CpuBurstComplete => 1
    case TimeSliceExpire => 2
    case IoComplete => 3
  }

  predicate Later(a: Event, b: Event) {
    if a.time != b.time then a.time > b.time else Rank(a.kind) > Rank(b.kind)
  }

  /** Event i may be popped next: nothing in the heap comes before it. */
  predicate Top(events: seq<Event>, i: nat) {
    i < |events| && forall j :: 0 <= j < |events| ==> !Later(events[i], events[j])
  }

  /** The event popped is one of the earliest; at the same time arrivals come before the ends of
      bursts, these before the ends of slices, and the ends of IO last. */
  lemma TopComesFirst(events: seq<Event>, i: nat, j: nat)
    requires Top(events, i) && j < |events|
    ensures events[i].time <= events[j].time
    ensures events[i].time == events[j].time && events[j].kind == ProcessArrival ==> events[i].kind == ProcessArrival
    ensures events[i].time == events[j].time && events[j].kind == CpuBurstComplete ==>
              events[i].kind == ProcessArrival || events[i].kind == CpuBurstComplete
    ensures events[i].time == events[j].time && events[j].kind == TimeSliceExpire ==> events[i].kind != IoComplete
  {
    assert !Later(events[i], events[j]);
  }

  /** EventQueue::cancel: the events but those of one process and kind. */
  function Cancel(events: seq<Event>, pid: Pid, kind: Kind): seq<Event> {
    if events == [] then []
    else
      var n := |events| - 1;
      Cancel(events[..n], pid, kind)
      + if events[n].pid == pid && events[n].kind == kind then [] else [events[n]]
  }

  lemma {:induction false} CancelCounts(events: seq<Event>, pid: Pid, kind: Kind, e: Event)
    ensures multiset(Cancel(events, pid, kind))[e]
         == if e.pid == pid && e.kind == kind then 0 else multiset(events)[e]
  {
    if events != [] {
      var n := |events| - 1;
      assert events == events[..n] + [events[n]];
      CancelCounts(events[..n], pid, kind, e);
    }
  }

  lemma {:induction false} CancelKeepsOthers(events: seq<Event>, pid: Pid, kind: Kind)
    ensures forall e :: e in Cancel(events, pid, kind) ==> e in events
  {
    if events != [] {
      CancelKeepsOthers(events[..|events| - 1], pid, kind);
    }
  }

  datatype Decision = Decision(pid: Pid, slice: int)

  /** include/scheduler.h over a state S of the scheduler's own. */
  datatype Policy<!S> = Policy(
    ready: S -> multiset<Pid>,
    add: (S, Pid, int) -> S,
    remove: (S, Pid) -> S,
    schedule: (S, int) -> Option<Decision>,
    charge: (S, Pid, int, int) -> S,
    preempts: (S, Pid, Pid, int) -> bool)

  ghost predicate Lawful<S(!new)>(p: Policy<S>) {
    && (forall s, pid, now :: p.ready(p.add(s, pid, now)) == p.ready(s) + multiset{pid})
    && (forall s, pid :: p.ready(p.remove(s, pid)) == p.ready(s)[pid := 0])
    && (forall s, pid, cpu, now :: p.ready(p.charge(s, pid, cpu, now)) == p.ready(s))
    && (forall s, now :: |p.ready(s)| > 0 ==>
          p.schedule(s, now).Some? && p.schedule(s, now).value.pid in p.ready(s))
  }

  /** Where a process is, with the event it has pending and, on the CPU, the slice of the
      decision that put it there; history that no handler reads. */
  datatype Place = Away(event: Event) | Ready | OnCpu(event: Event, slice: int) | Done

  datatype State<S> = State(
    now: int, procs: map<Pid, Process>, events: seq<Event>, running: Option<Pid>, start: int,
    sched: S, idle: int, switches: nat, place: map<Pid, Place>)

  ghost predicate Shape<S(!new)>(p: Policy<S>, s: State<S>) {
    && Lawful(p)
    && (s.running.Some? ==> s.running.value in s.procs)
    && (forall pid :: pid in p.ready(s.sched) ==> pid in s.procs)
    && (forall e :: e in s.events ==> e.pid in s.procs)
    && s.place.Keys == s.procs.Keys
  }

  // ------------------------------------------------ steps shared by the handlers

  /** enter_ready_time and add_process. */
  function Enqueue<S(!new)>(p: Policy<S>, s: State<S>, pid: Pid): (r: State<S>)
    requires Shape(p, s) && pid in s.procs
    ensures Shape(p, r) && r.procs.Keys == s.procs.Keys
  {
    s.(procs := s.procs[pid := s.procs[pid].(enterReady := s.now)],
       sched := p.add(s.sched, pid, s.now), place := s.place[pid := Ready])
  }

  function Push<S(!new)>(p: Policy<S>, s: State<S>, e: Event): (r: State<S>)
    requires Shape(p, s) && e.pid in s.procs
    ensures Shape(p, r) && r.procs.Keys == s.procs.Keys
  {
    s.(events := s.events + [e])
  }

  /** Run a ready process until its slice or its burst ends. */
  function Start<S(!new)>(p: Policy<S>, s: State<S>, pid: Pid, slice: int): (r: State<S>)
    requires Shape(p, s) && pid in s.procs
    ensures Shape(p, r) && r.procs.Keys == s.procs.Keys
  {
    var proc := s.procs[pid];
    var e := if 0 < slice < proc.remaining then Event(s.now + slice, TimeSliceExpire, pid)
             else Event(s.now + proc.remaining, CpuBurstComplete, pid);
    var proc1 := proc.(waitTime := proc.waitTime + (s.now - proc.enterReady),
                       firstRun := if proc.firstRun < 0 then s.now else proc.firstRun);
    Push(p, s.(sched := p.remove(s.sched, pid), procs := s.procs[pid := proc1],
               running := Some(pid), start := s.now, place := s.place[pid := OnCpu(e, slice)]), e)
  }

  /** dispatch_next. */
  function Dispatch<S(!new)>(p: Policy<S>, s: State<S>): (r: State<S>)
    requires Shape(p, s)
    ensures Shape(p, r) && r.procs.Keys == s.procs.Keys
  {
    var d := p.schedule(s.sched, s.now);
    if |p.ready(s.sched)| == 0 || d.None? then s.(running := None)
    else Start(p, s, d.value.pid, d.value.slice)
  }

  /** Account the CPU time of the running process, leaving it remaining to run. */
  function Charge<S(!new)>(p: Policy<S>, s: State<S>, remaining: int): (r: State<S>)
    requires Shape(p, s) && s.running.Some?
    ensures Shape(p, r) && r.procs.Keys == s.procs.Keys && r.running == s.running
  {
    var pid, used := s.running.value, s.now - s.start;
    var proc := s.procs[pid];
    s.(procs := s.procs[pid := proc.(cpuTime := proc.cpuTime + used, remaining := remaining)],
       sched := p.charge(s.sched, pid, used, s.now))
  }

  /** preempt_current. */
  function Preempt<S(!new)>(p: Policy<S>, s: State<S>): (r: State<S>)
    requires Shape(p, s)
    ensures Shape(p, r) && r.procs.Keys == s.procs.Keys
  {
    if s.running.None? then s
    else
      var pid := s.running.value;
      var s1 := Charge(p, s, s.procs[pid].remaining - (s.now - s.start));
      CancelKeepsOthers(s.events, pid, CpuBurstComplete);
      CancelKeepsOthers(Cancel(s.events, pid, CpuBurstComplete), pid, TimeSliceExpire);
      var events := Cancel(Cancel(s.events, pid, CpuBurstComplete), pid, TimeSliceExpire);
      Enqueue(p, s1.(events := events, switches := s.switches + 1, running := None), pid)
  }

  /** A process that just became ready may preempt or, if the CPU is idle, start. */
  function Contend<S(!new)>(p: Policy<S>, s: State<S>, pid: Pid): (r: State<S>)
    requires Shape(p, s)
    ensures Shape(p, r) && r.procs.Keys == s.procs.Keys
  {
    if s.running.None? then Dispatch(p, s)
    else if p.preempts(s.sched, pid, s.running.value, s.now) then Dispatch(p, Preempt(p, s))
    else s
  }

  // ------------------------------------------------ the handlers

  function HandleArrival<S(!new)>(p: Policy<S>, s: State<S>, pid: Pid): (r: State<S>)
    requires Shape(p, s) && pid in s.procs
    ensures Shape(p, r) && r.procs.Keys == s.procs.Keys
  {
    Contend(p, Enqueue(p, s, pid), pid)
  }

  /** Go to the next CPU burst, or complete. */
  function Advance<S(!new)>(p: Policy<S>, s: State<S>, pid: Pid): (r: State<S>)
    requires Shape(p, s) && pid in s.procs
    ensures Shape(p, r) && r.procs.Keys == s.procs.Keys
  {
    var proc := s.procs[pid].(index := s.procs[pid].index + 1);
    if proc.IsCompleted() then
      s.(procs := s.procs[pid := proc.(completion := s.now)], place := s.place[pid := Done])
    else
      Enqueue(p, s.(procs := s.procs[pid := proc.(remaining := proc.CpuBurst(proc.index))]), pid)
  }

  /** The running process, at the end of its CPU burst, starts IO or goes on. */
  function BurstEnds<S(!new)>(p: Policy<S>, s: State<S>): (r: State<S>)
    requires Shape(p, s) && s.running.Some?
    ensures Shape(p, r) && r.procs.Keys == s.procs.Keys
  {
    var pid := s.running.value;
    var s1 := Charge(p, s, 0).(running := None);
    var io := s1.procs[pid].IoBurst(s1.procs[pid].index);
    if io > 0 then
      var e := Event(s.now + io, IoComplete, pid);
      Push(p, s1.(place := s1.place[pid := Away(e)]), e)
    else Advance(p, s1, pid)
  }

  function HandleBurstComplete<S(!new)>(p: Policy<S>, s: State<S>, pid: Pid): (r: State<S>)
    requires Shape(p, s) && pid in s.procs
    ensures Shape(p, r) && r.procs.Keys == s.procs.Keys
  {
    if s.running != Some(pid) then s else Dispatch(p, BurstEnds(p, s))
  }

  /** The running process, at the end of its slice, goes back to the queue. */
  function SliceEnds<S(!new)>(p: Policy<S>, s: State<S>): (r: State<S>)
    requires Shape(p, s) && s.running.Some?
    ensures Shape(p, r) && r.procs.Keys == s.procs.Keys
  {
    var pid := s.running.value;
    var s1 := Charge(p, s, s.procs[pid].remaining - (s.now - s.start));
    Enqueue(p, s1.(running := None, switches := s.switches + 1), pid)
  }

  function HandleTimeSlice<S(!new)>(p: Policy<S>, s: State<S>, pid: Pid): (r: State<S>)
    requires Shape(p, s) && pid in s.procs
    ensures Shape(p, r) && r.procs.Keys == s.procs.Keys
  {
    if s.running != Some(pid) then s else Dispatch(p, SliceEnds(p, s))
  }

  function HandleIoComplete<S(!new)>(p: Policy<S>, s: State<S>, pid: Pid): (r: State<S>)
    requires Shape(p, s) && pid in s.procs
    ensures Shape(p, r) && r.procs.Keys == s.procs.Keys
  {
    var s1 := Advance(p, s, pid);
    if !s1.procs[pid].IsCompleted() then Contend(p, s1, pid)
    else if s1.running.None? then Dispatch(p, s1)
    else s1
  }

  /** The clock moves to the event; time with nobody running is idle. */
  function Pop<S(!new)>(p: Policy<S>, s: State<S>, i: nat): (r: State<S>)
    requires Shape(p, s) && i < |s.events|
    ensures Shape(p, r) && r.procs.Keys == s.procs.Keys
  {
    var time := s.events[i].time;
    s.(now := time, events := Without(s.events, i),
       idle := if s.running.None? && time > s.now then s.idle + (time - s.now) else s.idle)
  }

  function Step<S(!new)>(p: Policy<S>, s: State<S>, i: nat): (r: State<S>)
    requires Shape(p, s) && i < |s.events|
    ensures Shape(p, r) && r.procs.Keys == s.procs.Keys
  {
    assert s.events[i] in s.events;
    var e, u := s.events[i], Pop(p, s, i);
    match e.kind
    case ProcessArrival => HandleArrival(p, u, e.pid)
    case CpuBurstComplete => HandleBurstComplete(p, u, e.pid)
    case TimeSliceExpire => HandleTimeSlice(p, u, e.pid)
    case IoComplete => HandleIoComplete(p, u, e.pid)
  }

  // ------------------------------------------------ what a process has to do

  /** CPU time of the first k bursts. */
  function CpuSum(proc: Process, k: nat): int {
    if k == 0 then 0 else CpuSum(proc, k - 1) + proc.CpuBurst(k - 1)
  }

  /** IO time of the first k bursts; only positive ones are waited for. */
  function IoSum(proc: Process, k: nat): int {
    if k == 0 then 0 else IoSum(proc, k - 1) + if proc.IoBurst(k - 1) > 0 then proc.IoBurst(k - 1) else 0
  }

  /** A process without CPU bursts still goes once through the CPU. */
  function Rounds(proc: Process): (n: nat)
    ensures n >= 1
  {
    if proc.cpuBursts == [] then 1 else |proc.cpuBursts|
  }

  predicate ValidProcess(proc: Process) {
    proc.arrival >= 0 && forall k :: 0 <= k < |proc.cpuBursts| ==> proc.cpuBursts[k] >= 0
  }

  /** reset. */
  function Restarted(proc: Process): Process {
    proc.(index := 0, remaining := proc.CpuBurst(0), cpuTime := 0, waitTime := 0, enterReady := 0,
          firstRun := -1, completion := -1)
  }
}

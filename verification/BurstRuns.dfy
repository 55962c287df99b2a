/** Every operation of the burst engine keeps the invariant, stale events never occur, the
    loop terminates, and when it ends every process has done exactly its bursts. */
module BurstRuns {
  import opened Common
  import opened Burst
  import opened BurstInvariant

  // ------------------------------------------------ events

  /** Every pending event is the one its process' place calls for: the guards against stale
      events are never taken. */
  lemma NoStaleEvents<S(!new)>(p: Policy<S>, s: State<S>, pids: seq<Pid>, i: nat)
    requires Inv(p, s, pids) && i < |s.events|
    ensures var e := s.events[i];
            && e.pid in s.place && e.pid in s.procs && Calls(s.place[e.pid], e) && e.time >= s.now
            && (e.kind in {CpuBurstComplete, TimeSliceExpire} <==> s.running == Some(e.pid))
            && (if s.running == Some(e.pid) then s.place[e.pid].OnCpu? else s.place[e.pid] == Away(e))
  {
    var e := s.events[i];
    assert e in multiset(s.events);
    assert e in s.events;
    assert ProcessOk(s, e.pid);
  }

  lemma WithoutCounts(events: seq<Event>, i: nat, e: Event)
    requires i < |events|
    ensures multiset(Without(events, i))[e] == multiset(events)[e] - if e == events[i] then 1 else 0
    ensures e in Without(events, i) ==> e in events
  {
    assert events == events[..i] + [events[i]] + events[i + 1..];
  }

  /** After popping event i, nothing is pending for its process and nothing is in the past. */
  lemma PopEvents<S(!new)>(p: Policy<S>, s: State<S>, pids: seq<Pid>, i: nat)
    requires Inv(p, s, pids) && Top(s.events, i)
    ensures forall e :: multiset(Without(s.events, i))[e]
                     == if e.pid == s.events[i].pid then 0 else multiset(s.events)[e]
    ensures forall e :: e in Without(s.events, i) ==> e.time >= s.events[i].time
    ensures s.events[i].time >= s.now
  {
    hide Lawful, Accounted, QueueOk, ClockOk;
    NoStaleEvents(p, s, pids, i);
    forall e: Event
      ensures multiset(Without(s.events, i))[e] == if e.pid == s.events[i].pid then 0 else multiset(s.events)[e]
      ensures e in Without(s.events, i) ==> e.time >= s.events[i].time
    {
      WithoutCounts(s.events, i, e);
    }
  }

  // ------------------------------------------------ what the operations do to one process

  /** The sums depend on the bursts only. */
  lemma {:induction false} SameSums(a: Process, b: Process, k: nat)
    requires b.cpuBursts == a.cpuBursts && b.ioBursts == a.ioBursts
    ensures CpuSum(b, k) == CpuSum(a, k) && IoSum(b, k) == IoSum(a, k)
  {
    if k > 0 {
      SameSums(a, b, k - 1);
    }
  }

  lemma SameBursts(a: Process, b: Process)
    requires b.cpuBursts == a.cpuBursts && b.ioBursts == a.ioBursts
    ensures forall k: nat :: CpuSum(b, k) == CpuSum(a, k) && IoSum(b, k) == IoSum(a, k)
    ensures Rounds(b) == Rounds(a)
  {
    forall k: nat
      ensures CpuSum(b, k) == CpuSum(a, k) && IoSum(b, k) == IoSum(a, k)
    {
      SameSums(a, b, k);
    }
  }

  function Arrived(proc: Process, now: int): Process {
    proc.(enterReady := now)
  }

  lemma ArrivedAccounts(proc: Process, e: Event, now: int, start: int)
    requires Accounts(proc, Away(e), now, start) && e.kind == ProcessArrival
    ensures Accounts(Arrived(proc, e.time), Ready, e.time, start)
    ensures Work(Arrived(proc, e.time), Ready) == Work(proc, Away(e)) - 1
  {
    var b := Arrived(proc, e.time);
    SameBursts(proc, b);
    assert CpuSum(b, 1) == CpuSum(b, 0) + b.CpuBurst(0);
  }

  /** Charged up to now, back in the queue. */
  function Released(proc: Process, now: int, start: int): Process {
    proc.(cpuTime := proc.cpuTime + (now - start), remaining := proc.remaining - (now - start), enterReady := now)
  }

  lemma ReleasedAccounts(proc: Process, e: Event, slice: int, now: int, start: int)
    requires Accounts(proc, OnCpu(e, slice), now, start)
    ensures Accounts(Released(proc, now, start), Ready, now, start)
    ensures Work(Released(proc, now, start), Ready) == Work(proc, OnCpu(e, slice)) - (now - start)
  {
    SameBursts(proc, Released(proc, now, start));
  }

  function Started(proc: Process, now: int): Process {
    proc.(waitTime := proc.waitTime + (now - proc.enterReady), firstRun := if proc.firstRun < 0 then now else proc.firstRun)
  }

  lemma StartedAccounts(proc: Process, now: int, start: int, e: Event, slice: int)
    requires Accounts(proc, Ready, now, start) && EndsSlice(e, slice, now, proc.remaining)
    ensures Accounts(Started(proc, now), OnCpu(e, slice), now, now)
    ensures Work(Started(proc, now), OnCpu(e, slice)) == Work(proc, Ready)
  {
    SameBursts(proc, Started(proc, now));
  }

  /** Off the CPU at the end of a burst. */
  function BurstDone(proc: Process, now: int, start: int): Process {
    proc.(cpuTime := proc.cpuTime + (now - start), remaining := 0)
  }

  lemma IoAccounts(proc: Process, e: Event, slice: int, now: int, start: int, io: Event)
    requires Accounts(proc, OnCpu(e, slice), now, start) && e.kind == CpuBurstComplete && now == e.time
    requires io.kind == IoComplete && proc.IoBurst(proc.index) > 0 && io.time == now + proc.IoBurst(proc.index)
    ensures Accounts(BurstDone(proc, now, start), Away(io), now, start)
    ensures Work(BurstDone(proc, now, start), Away(io)) < Work(proc, OnCpu(e, slice))
  {
    SameBursts(proc, BurstDone(proc, now, start));
  }

  /** One burst further: the next one, or completion. */
  function Advanced(proc: Process, now: int): Process {
    var next := proc.(index := proc.index + 1);
    if next.IsCompleted() then next.(completion := now)
    else next.(remaining := next.CpuBurst(next.index), enterReady := now)
  }

  function AdvancedPlace(proc: Process): Place {
    if proc.(index := proc.index + 1).IsCompleted() then Done else Ready
  }

  /** A round is over: its CPU burst is charged and its IO waited for. */
  predicate RoundOver(proc: Process, now: int) {
    && ValidProcess(proc) && 0 <= proc.cpuTime && 0 <= proc.waitTime && 0 <= now
    && proc.completion < 0 && proc.index < Rounds(proc) && proc.cpuTime == CpuSum(proc, proc.index + 1)
    && proc.firstRun >= 0 && RanFirst(proc, now)
    && now - proc.arrival == proc.cpuTime + proc.waitTime + IoSum(proc, proc.index + 1)
  }

  lemma AdvancedAccounts(proc: Process, now: int, start: int)
    requires RoundOver(proc, now)
    ensures Accounts(Advanced(proc, now), AdvancedPlace(proc), now, start)
    ensures Work(Advanced(proc, now), AdvancedPlace(proc)) == CpuSum(proc, Rounds(proc)) - proc.cpuTime + 2 * (Rounds(proc) - proc.index) - 2
  {
    var b := Advanced(proc, now);
    SameBursts(proc, b);
    assert CpuSum(b, b.index + 1) == CpuSum(b, b.index) + b.CpuBurst(b.index);
  }

  lemma BurstIsRound(proc: Process, e: Event, slice: int, now: int, start: int)
    requires Accounts(proc, OnCpu(e, slice), now, start) && e.kind == CpuBurstComplete && now == e.time && now >= 0
    requires proc.IoBurst(proc.index) <= 0
    ensures RoundOver(BurstDone(proc, now, start), now)
    ensures CpuSum(BurstDone(proc, now, start), Rounds(proc)) - BurstDone(proc, now, start).cpuTime
         <= CpuSum(proc, Rounds(proc)) - proc.cpuTime
  {
    SameBursts(proc, BurstDone(proc, now, start));
  }

  lemma IoIsRound(proc: Process, e: Event, now: int, start: int)
    requires Accounts(proc, Away(e), now, start) && e.kind == IoComplete && e.time >= 0
    ensures RoundOver(proc, e.time)
  {
  }

  // ------------------------------------------------ operations

  /** Task pid's new place is Ready or Done, everything pending for it is gone, and it does
      not run; the shape common to arrivals, preemptions and advances. */
  lemma RestMoves<S>(p: Policy<S>, s: State<S>, r: State<S>, pid: Pid)
    requires EventsOk(s) && QueueOk(p, s) && pid in s.procs && pid in s.place && pid in r.procs && pid in r.place
    requires r.procs == s.procs[pid := r.procs[pid]] && r.place == s.place[pid := r.place[pid]]
    requires r.place[pid] in {Ready, Done} && s.place[pid] != Ready && r.now >= s.now && r.start == s.start
    requires p.ready(r.sched) == if r.place[pid] == Ready then p.ready(s.sched) + multiset{pid} else p.ready(s.sched)
    requires forall e: Event :: multiset(r.events)[e] == if e.pid == pid then 0 else multiset(s.events)[e]
    requires forall e :: e in r.events ==> e.time >= r.now
    requires r.running == if s.running == Some(pid) then None else s.running
    ensures Moves(p, s, r, pid)
  {
    assert p.ready(s.sched)[pid] == 0;
  }

  /** An arriving process joins the queue. */
  lemma ArrivalKeeps<S(!new)>(p: Policy<S>, s: State<S>, pids: seq<Pid>, i: nat)
    requires Inv(p, s, pids) && Top(s.events, i) && s.events[i].kind == ProcessArrival
    ensures s.events[i].pid in s.procs
    ensures var r := Enqueue(p, Pop(p, s, i), s.events[i].pid);
            Inv(p, r, pids) && WorkLeft(r, pids) == WorkLeft(s, pids) - 1
  {
    hide Accounted, EventsOk, QueueOk, Accounts, Work, Lawful, Without, Moves;
    NoStaleEvents(p, s, pids, i);
    PopEvents(p, s, pids, i);
    var e, r := s.events[i], Enqueue(p, Pop(p, s, i), s.events[i].pid);
    IsAccounted(s, e.pid);
    ArrivedAccounts(s.procs[e.pid], e, s.now, s.start);
    AddsReady(p, s, e.pid, e.time);
    RestMoves(p, s, r, e.pid);
    MovesKeep(p, s, r, pids, e.pid);
  }

  lemma IsAccounted<S>(s: State<S>, pid: Pid)
    requires Accounted(s) && pid in s.procs
    ensures pid in s.place && Accounts(s.procs[pid], s.place[pid], s.now, s.start) && s.now >= 0
  {
    assert ProcessOk(s, pid);
  }

  lemma AddsReady<S(!new)>(p: Policy<S>, s: State<S>, pid: Pid, now: int)
    requires Lawful(p)
    ensures p.ready(p.add(s.sched, pid, now)) == p.ready(s.sched) + multiset{pid}
  {
  }

  /** The running process is charged, its event cancelled, and it queues again. */
  lemma PreemptKeeps<S(!new)>(p: Policy<S>, s: State<S>, pids: seq<Pid>)
    requires Inv(p, s, pids) && s.running.Some?
    ensures var r := Preempt(p, s);
            && Inv(p, r, pids) && r.running.None? && WorkLeft(r, pids) <= WorkLeft(s, pids)
  {
    hide Accounted, EventsOk, QueueOk, Accounts, Work, Lawful, Cancel, Moves, Preempt;
    var pid, r := s.running.value, Preempt(p, s);
    RunningPlaced(p, s, pids);
    IsAccounted(s, pid);
    OnCpuSince(s, pid);
    ReleasedAccounts(s.procs[pid], s.place[pid].event, s.place[pid].slice, s.now, s.start);
    PreemptEvents(p, s, pids);
    PreemptFields(p, s);
    RestMoves(p, s, r, pid);
    MovesKeep(p, s, r, pids, pid);
  }

  lemma PreemptFields<S(!new)>(p: Policy<S>, s: State<S>)
    requires Shape(p, s) && s.running.Some?
    ensures var pid, r := s.running.value, Preempt(p, s);
            && r.now == s.now && r.start == s.start && r.idle == s.idle && r.running.None?
            && r.procs == s.procs[pid := Released(s.procs[pid], s.now, s.start)]
            && r.place == s.place[pid := Ready]
            && p.ready(r.sched) == p.ready(s.sched) + multiset{pid}
            && r.events == Cancel(Cancel(s.events, pid, CpuBurstComplete), pid, TimeSliceExpire)
  {
    hide Lawful, Cancel;
    ReleaseReady(p, s, s.running.value);
  }

  lemma OnCpuSince<S>(s: State<S>, pid: Pid)
    requires pid in s.procs && pid in s.place && s.place[pid].OnCpu?
    requires Accounts(s.procs[pid], s.place[pid], s.now, s.start)
    ensures s.start <= s.now
  {
  }

  lemma ReleaseReady<S(!new)>(p: Policy<S>, s: State<S>, pid: Pid)
    requires Lawful(p)
    ensures forall cpu, now, later ::
              p.ready(p.add(p.charge(s.sched, pid, cpu, now), pid, later)) == p.ready(s.sched) + multiset{pid}
  {
  }

  lemma RunningPlaced<S(!new)>(p: Policy<S>, s: State<S>, pids: seq<Pid>)
    requires Inv(p, s, pids) && s.running.Some?
    ensures s.running.value in s.place && s.place[s.running.value].OnCpu?
    ensures EventsOk(s) && s.place[s.running.value].event.pid == s.running.value
  {
    hide Lawful, Accounted, ClockOk;
    assert s.running.value in s.place.Keys;
  }

  lemma PreemptEvents<S(!new)>(p: Policy<S>, s: State<S>, pids: seq<Pid>)
    requires Inv(p, s, pids) && s.running.Some?
    ensures var events := Cancel(Cancel(s.events, s.running.value, CpuBurstComplete), s.running.value, TimeSliceExpire);
            && (forall e: Event :: multiset(events)[e] == if e.pid == s.running.value then 0 else multiset(s.events)[e])
            && (forall e :: e in events ==> e in s.events)
            && (forall e :: e in events ==> e.time >= s.now)
  {
    hide Lawful, ClockOk, QueueOk;
    var pid := s.running.value;
    var once := Cancel(s.events, pid, CpuBurstComplete);
    var events := Cancel(once, pid, TimeSliceExpire);
    RunningPlaced(p, s, pids);
    assert ProcessOk(s, pid);
    forall e: Event
      ensures multiset(events)[e] == if e.pid == pid then 0 else multiset(s.events)[e]
    {
      CancelCounts(s.events, pid, CpuBurstComplete, e);
      CancelCounts(once, pid, TimeSliceExpire, e);
    }
    CancelKeepsOthers(s.events, pid, CpuBurstComplete);
    CancelKeepsOthers(once, pid, TimeSliceExpire);
  }

  /** An idle CPU takes the scheduler's choice. */
  lemma DispatchKeeps<S(!new)>(p: Policy<S>, s: State<S>, pids: seq<Pid>)
    requires Inv(p, s, pids) && s.running.None?
    ensures Inv(p, Dispatch(p, s), pids) && WorkLeft(Dispatch(p, s), pids) == WorkLeft(s, pids)
  {
    hide Accounted, EventsOk, QueueOk, Accounts, Work, Moves, Dispatch, Lawful;
    if |p.ready(s.sched)| == 0 {
      NoDispatch(p, s);
    } else {
      var d, e := DispatchFields(p, s);
      var r := Dispatch(p, s);
      ReadyPlaced(p, s, d.pid);
      IsAccounted(s, d.pid);
      ReadyRemaining(s.procs[d.pid], s.now, s.start);
      StartedAccounts(s.procs[d.pid], s.now, s.start, e, d.slice);
      StartMoves(p, s, r, d.pid, e, d.slice);
      MovesKeep(p, s, r, pids, d.pid);
    }
  }

  lemma NoDispatch<S(!new)>(p: Policy<S>, s: State<S>)
    requires Shape(p, s) && s.running.None? && |p.ready(s.sched)| == 0
    ensures Dispatch(p, s) == s
  {
  }

  lemma DispatchFields<S(!new)>(p: Policy<S>, s: State<S>) returns (d: Decision, e: Event)
    requires Shape(p, s) && |p.ready(s.sched)| > 0
    ensures d.pid in p.ready(s.sched) && d.pid in s.procs && e.pid == d.pid
    ensures var r, proc := Dispatch(p, s), s.procs[d.pid];
            && r.now == s.now && r.start == s.now && r.idle == s.idle && r.running == Some(d.pid)
            && r.procs == s.procs[d.pid := Started(proc, s.now)] && r.place == s.place[d.pid := OnCpu(e, d.slice)]
            && p.ready(r.sched) == p.ready(s.sched)[d.pid := 0] && r.events == s.events + [e]
            && EndsSlice(e, d.slice, s.now, proc.remaining)
            && p.schedule(s.sched, s.now) == Some(d) && r.sched == p.remove(s.sched, d.pid)
  {
    d := p.schedule(s.sched, s.now).value;
    e := Dispatch(p, s).place[d.pid].event;
  }

  lemma ReadyPlaced<S>(p: Policy<S>, s: State<S>, pid: Pid)
    requires QueueOk(p, s) && pid in p.ready(s.sched)
    ensures pid in s.place && s.place[pid] == Ready && p.ready(s.sched)[pid] == 1
  {
  }

  lemma ReadyRemaining(proc: Process, now: int, start: int)
    requires Accounts(proc, Ready, now, start)
    ensures proc.remaining >= 0
  {
  }

  /** A ready process starts with event e. */
  lemma StartMoves<S>(p: Policy<S>, s: State<S>, r: State<S>, pid: Pid, e: Event, slice: int)
    requires EventsOk(s) && QueueOk(p, s) && pid in s.procs && pid in s.place && pid in r.procs && pid in r.place
    requires r.procs == s.procs[pid := r.procs[pid]] && r.place == s.place[pid := OnCpu(e, slice)]
    requires s.place[pid] == Ready && r.now == s.now && s.running.None? && r.running == Some(pid)
    requires p.ready(r.sched) == p.ready(s.sched)[pid := 0]
    requires r.events == s.events + [e] && e.pid == pid && e.time >= s.now
    ensures Moves(p, s, r, pid)
  {
    forall x: Event
      ensures multiset(r.events)[x] == if x.pid == pid then (if Calls(r.place[pid], x) then 1 else 0) else multiset(s.events)[x]
    {
      assert multiset(s.events)[x] == if x.pid in s.place && Calls(s.place[x.pid], x) then 1 else 0;
    }
  }

  // ------------------------------------------------ handlers

  lemma ContendKeeps<S(!new)>(p: Policy<S>, s: State<S>, pids: seq<Pid>, pid: Pid)
    requires Inv(p, s, pids)
    ensures Inv(p, Contend(p, s, pid), pids) && WorkLeft(Contend(p, s, pid), pids) <= WorkLeft(s, pids)
  {
    hide Lawful, Accounted, EventsOk, QueueOk, ClockOk, Dispatch, Preempt;
    if s.running.None? {
      DispatchKeeps(p, s, pids);
    } else if p.preempts(s.sched, pid, s.running.value, s.now) {
      PreemptKeeps(p, s, pids);
      DispatchKeeps(p, Preempt(p, s), pids);
    }
  }

  /** The running process used up its slice. */
  lemma SliceKeeps<S(!new)>(p: Policy<S>, s: State<S>, pids: seq<Pid>, i: nat)
    requires Inv(p, s, pids) && Top(s.events, i) && s.events[i].kind == TimeSliceExpire
    ensures s.events[i].pid in s.procs && s.running == Some(s.events[i].pid)
    ensures var t := SliceEnds(p, Pop(p, s, i)); Inv(p, t, pids) && t.running.None?
    ensures var r := HandleTimeSlice(p, Pop(p, s, i), s.events[i].pid);
            Inv(p, r, pids) && WorkLeft(r, pids) < WorkLeft(s, pids)
  {
    hide Accounted, EventsOk, QueueOk, Accounts, Work, Lawful, Without, Moves, Dispatch, SliceEnds;
    NoStaleEvents(p, s, pids, i);
    PopEvents(p, s, pids, i);
    var e := s.events[i];
    IsAccounted(s, e.pid);
    SliceFields(p, Pop(p, s, i));
    var r := SliceEnds(p, Pop(p, s, i));
    RunsUntil(s.procs[e.pid], e, s.place[e.pid].slice, s.now, s.start);
    ReleasedAccounts(s.procs[e.pid], e, s.place[e.pid].slice, e.time, s.start);
    RestMoves(p, s, r, e.pid);
    MovesKeep(p, s, r, pids, e.pid);
    DispatchKeeps(p, r, pids);
  }

  lemma RunsUntil(proc: Process, e: Event, slice: int, now: int, start: int)
    requires Accounts(proc, OnCpu(e, slice), now, start)
    ensures Accounts(proc, OnCpu(e, slice), e.time, start) && start <= now <= e.time
    ensures e.kind == TimeSliceExpire ==> start < e.time
  {
  }

  lemma SliceFields<S(!new)>(p: Policy<S>, u: State<S>)
    requires Shape(p, u) && u.running.Some?
    ensures var r, pid := SliceEnds(p, u), u.running.value;
            && r.now == u.now && r.start == u.start && r.idle == u.idle && r.running.None? && r.events == u.events
            && r.procs == u.procs[pid := Released(u.procs[pid], u.now, u.start)] && r.place == u.place[pid := Ready]
            && p.ready(r.sched) == p.ready(u.sched) + multiset{pid}
  {
    hide Lawful, Charge, Enqueue;
    var pid := u.running.value;
    var s1 := Charge(p, u, u.procs[pid].remaining - (u.now - u.start));
    ChargeFields(p, u, u.procs[pid].remaining - (u.now - u.start));
    EnqueueFields(p, s1.(running := None, switches := u.switches + 1), pid);
    TwiceUpdated(u.procs, s1.procs, pid, Released(u.procs[pid], u.now, u.start));
  }

  lemma TwiceUpdated(a: map<Pid, Process>, b: map<Pid, Process>, pid: Pid, proc: Process)
    requires pid in a && pid in b && b == a[pid := b[pid]]
    ensures b[pid := proc] == a[pid := proc]
  {
  }

  lemma EnqueueFields<S(!new)>(p: Policy<S>, s: State<S>, pid: Pid)
    requires Shape(p, s) && pid in s.procs
    ensures var r := Enqueue(p, s, pid);
            && r.now == s.now && r.start == s.start && r.idle == s.idle && r.events == s.events
            && r.running == s.running && p.ready(r.sched) == p.ready(s.sched) + multiset{pid}
            && r.place == s.place[pid := Ready] && r.procs == s.procs[pid := s.procs[pid].(enterReady := s.now)]
  {
    hide Lawful;
    AddsReady(p, s, pid, s.now);
  }

  lemma ChargeFields<S(!new)>(p: Policy<S>, s: State<S>, remaining: int)
    requires Shape(p, s) && s.running.Some?
    ensures var r, pid := Charge(p, s, remaining), s.running.value;
            && r.now == s.now && r.start == s.start && r.idle == s.idle && r.events == s.events && r.place == s.place
            && r.running == s.running && r.switches == s.switches && p.ready(r.sched) == p.ready(s.sched)
            && r.procs == s.procs[pid := s.procs[pid].(cpuTime := s.procs[pid].cpuTime + (s.now - s.start), remaining := remaining)]
  {
    hide Lawful;
    ChargeReady(p, s, s.running.value);
  }

  /** The running process reached the end of its CPU burst. */
  lemma BurstKeeps<S(!new)>(p: Policy<S>, s: State<S>, pids: seq<Pid>, i: nat)
    requires Inv(p, s, pids) && Top(s.events, i) && s.events[i].kind == CpuBurstComplete
    ensures s.events[i].pid in s.procs && s.running == Some(s.events[i].pid)
    ensures var t := BurstEnds(p, Pop(p, s, i)); Inv(p, t, pids) && t.running.None?
    ensures var r := HandleBurstComplete(p, Pop(p, s, i), s.events[i].pid);
            Inv(p, r, pids) && WorkLeft(r, pids) < WorkLeft(s, pids)
  {
    hide Accounted, EventsOk, QueueOk, Accounts, Work, Lawful, Without, Moves, Dispatch, BurstEnds;
    NoStaleEvents(p, s, pids, i);
    PopEvents(p, s, pids, i);
    var e, u := s.events[i], Pop(p, s, i);
    var proc := s.procs[e.pid];
    IsAccounted(s, e.pid);
    RunsUntil(proc, e, s.place[e.pid].slice, s.now, s.start);
    var r := BurstEnds(p, u);
    if proc.IoBurst(proc.index) > 0 {
      var io := Event(e.time + proc.IoBurst(proc.index), IoComplete, e.pid);
      IoFields(p, u, io);
      IoAccounts(proc, e, s.place[e.pid].slice, e.time, s.start, io);
      AwayMoves(p, s, r, e.pid, io);
      MovesKeep(p, s, r, pids, e.pid);
      DispatchKeeps(p, r, pids);
    } else {
      RoundFields(p, u);
      BurstIsRound(proc, e, s.place[e.pid].slice, e.time, s.start);
      AdvancedAccounts(BurstDone(proc, e.time, s.start), e.time, s.start);
      RoundWork(proc, e, s.place[e.pid].slice, e.time, s.start);
      RestMoves(p, s, r, e.pid);
      MovesKeep(p, s, r, pids, e.pid);
      DispatchKeeps(p, r, pids);
    }
  }

  lemma RoundWork(proc: Process, e: Event, slice: int, now: int, start: int)
    requires Accounts(proc, OnCpu(e, slice), now, start)
    ensures var b := BurstDone(proc, now, start);
            CpuSum(b, Rounds(b)) - b.cpuTime + 2 * (Rounds(b) - b.index) - 2 < Work(proc, OnCpu(e, slice))
  {
    SameBursts(proc, BurstDone(proc, now, start));
  }

  lemma IoFields<S(!new)>(p: Policy<S>, u: State<S>, io: Event)
    requires Shape(p, u) && u.running.Some?
    requires var proc := u.procs[u.running.value];
             && proc.IoBurst(proc.index) > 0
             && io == Event(u.now + proc.IoBurst(proc.index), IoComplete, u.running.value)
    ensures var r, pid := BurstEnds(p, u), u.running.value;
            && r.now == u.now && r.start == u.start && r.idle == u.idle && r.running.None? && r.events == u.events + [io]
            && r.procs == u.procs[pid := BurstDone(u.procs[pid], u.now, u.start)] && r.place == u.place[pid := Away(io)]
            && p.ready(r.sched) == p.ready(u.sched)
  {
    hide Lawful, Charge, Advance, Push;
    ChargeFields(p, u, 0);
    var s1 := Charge(p, u, 0).(running := None);
    PushFields(p, s1.(place := s1.place[io.pid := Away(io)]), io);
  }

  lemma PushFields<S(!new)>(p: Policy<S>, s: State<S>, e: Event)
    requires Shape(p, s) && e.pid in s.procs
    ensures Push(p, s, e) == s.(events := s.events + [e])
  {
  }

  lemma RoundFields<S(!new)>(p: Policy<S>, u: State<S>)
    requires Shape(p, u) && u.running.Some?
    requires u.procs[u.running.value].IoBurst(u.procs[u.running.value].index) <= 0
    ensures var r, pid, b := BurstEnds(p, u), u.running.value, BurstDone(u.procs[u.running.value], u.now, u.start);
            && r.now == u.now && r.start == u.start && r.idle == u.idle && r.running.None? && r.events == u.events
            && r.procs == u.procs[pid := Advanced(b, u.now)] && r.place == u.place[pid := AdvancedPlace(b)]
            && p.ready(r.sched) == if AdvancedPlace(b) == Ready then p.ready(u.sched) + multiset{pid} else p.ready(u.sched)
  {
    hide Lawful, Charge, Advance, Push;
    ChargeFields(p, u, 0);
    AdvanceFields(p, Charge(p, u, 0).(running := None), u.running.value);
  }

  lemma ChargeReady<S(!new)>(p: Policy<S>, u: State<S>, pid: Pid)
    requires Lawful(p)
    ensures forall cpu, now :: p.ready(p.charge(u.sched, pid, cpu, now)) == p.ready(u.sched)
  {
  }

  lemma AdvanceFields<S(!new)>(p: Policy<S>, s: State<S>, pid: Pid)
    requires Shape(p, s) && pid in s.procs
    ensures var r, b := Advance(p, s, pid), s.procs[pid];
            && r.now == s.now && r.start == s.start && r.idle == s.idle && r.running == s.running && r.events == s.events
            && r.procs == s.procs[pid := Advanced(b, s.now)] && r.place == s.place[pid := AdvancedPlace(b)]
            && p.ready(r.sched) == if AdvancedPlace(b) == Ready then p.ready(s.sched) + multiset{pid} else p.ready(s.sched)
  {
    hide Lawful;
    AddsReady(p, s, pid, s.now);
  }

  /** The running process goes to IO. */
  lemma AwayMoves<S>(p: Policy<S>, s: State<S>, r: State<S>, pid: Pid, io: Event)
    requires EventsOk(s) && QueueOk(p, s) && pid in s.procs && pid in s.place && pid in r.procs && pid in r.place
    requires r.procs == s.procs[pid := r.procs[pid]] && r.place == s.place[pid := Away(io)]
    requires s.place[pid].OnCpu? && s.running == Some(pid) && r.running.None? && r.now >= s.now && r.start == s.start
    requires p.ready(r.sched) == p.ready(s.sched) && io.pid == pid && io.time >= r.now
    requires |r.events| > 0 && r.events[|r.events| - 1] == io
    requires var rest := r.events[..|r.events| - 1];
             && (forall e: Event :: multiset(rest)[e] == if e.pid == pid then 0 else multiset(s.events)[e])
             && (forall e :: e in rest ==> e.time >= r.now)
    ensures Moves(p, s, r, pid)
  {
    var rest := r.events[..|r.events| - 1];
    assert r.events == rest + [io];
    assert p.ready(s.sched)[pid] == 0;
  }

  /** IO is over. */
  lemma IoKeeps<S(!new)>(p: Policy<S>, s: State<S>, pids: seq<Pid>, i: nat)
    requires Inv(p, s, pids) && Top(s.events, i) && s.events[i].kind == IoComplete
    ensures s.events[i].pid in s.procs
    ensures var t := Advance(p, Pop(p, s, i), s.events[i].pid); Inv(p, t, pids) && t.running == s.running
    ensures var r := HandleIoComplete(p, Pop(p, s, i), s.events[i].pid);
            Inv(p, r, pids) && WorkLeft(r, pids) < WorkLeft(s, pids)
  {
    hide Accounted, EventsOk, QueueOk, Accounts, Work, Lawful, Without, Moves, Dispatch, Contend, Advance;
    NoStaleEvents(p, s, pids, i);
    PopEvents(p, s, pids, i);
    var e, u := s.events[i], Pop(p, s, i);
    var proc := s.procs[e.pid];
    IsAccounted(s, e.pid);
    IoIsRound(proc, e, s.now, s.start);
    AwayWork(proc, e);
    var r := Advance(p, u, e.pid);
    AdvanceFields(p, u, e.pid);
    AdvancedAccounts(proc, e.time, s.start);
    RestMoves(p, s, r, e.pid);
    MovesKeep(p, s, r, pids, e.pid);
    ContendKeeps(p, r, pids, e.pid);
    if r.running.None? {
      DispatchKeeps(p, r, pids);
    }
  }

  lemma AwayWork(proc: Process, e: Event)
    requires e.kind == IoComplete
    ensures Work(proc, Away(e)) == CpuSum(proc, Rounds(proc)) - proc.cpuTime + 2 * (Rounds(proc) - proc.index) - 1
  {
  }

  /** Every step keeps the invariant and leaves less work, whichever top event is popped. */
  lemma StepKeeps<S(!new)>(p: Policy<S>, s: State<S>, pids: seq<Pid>, i: nat)
    requires Inv(p, s, pids) && Top(s.events, i)
    ensures Inv(p, Step(p, s, i), pids) && WorkLeft(Step(p, s, i), pids) < WorkLeft(s, pids)
  {
    hide Accounted, EventsOk, QueueOk, ClockOk, Lawful, HandleBurstComplete, HandleTimeSlice, HandleIoComplete, Contend, Enqueue, Pop;
    assert s.events[i] in s.events;
    match s.events[i].kind
    case ProcessArrival =>
      ArrivalKeeps(p, s, pids, i);
      ContendKeeps(p, Enqueue(p, Pop(p, s, i), s.events[i].pid), pids, s.events[i].pid);
    case CpuBurstComplete => BurstKeeps(p, s, pids, i);
    case TimeSliceExpire => SliceKeeps(p, s, pids, i);
    case IoComplete => IoKeeps(p, s, pids, i);
  }

  // ------------------------------------------------ runs

  datatype Entry = Entry(pid: Pid, process: Process)

  ghost predicate ValidEntries(entries: seq<Entry>) {
    && (forall i, j :: 0 <= i < j < |entries| ==> entries[i].pid != entries[j].pid)
    && (forall i :: 0 <= i < |entries| ==> ValidProcess(entries[i].process))
  }

  function Pids(entries: seq<Entry>): seq<Pid> {
    if entries == [] then [] else Pids(entries[..|entries| - 1]) + [entries[|entries| - 1].pid]
  }

  /** reset, and one arrival event for each process. */
  function Initial<S>(sched: S, entries: seq<Entry>): State<S> {
    if entries == [] then State(0, map[], [], None, 0, sched, 0, 0, map[])
    else Submit(Initial(sched, entries[..|entries| - 1]), entries[|entries| - 1])
  }

  function Submit<S>(s: State<S>, entry: Entry): State<S> {
    var e := Event(entry.process.arrival, ProcessArrival, entry.pid);
    s.(procs := s.procs[entry.pid := Restarted(entry.process)], events := s.events + [e],
       place := s.place[entry.pid := Away(e)])
  }

  lemma {:induction false} InitialInv<S(!new)>(p: Policy<S>, sched: S, entries: seq<Entry>)
    requires Lawful(p) && p.ready(sched) == multiset{} && ValidEntries(entries)
    ensures Inv(p, Initial(sched, entries), Pids(entries)) && Fresh(Initial(sched, entries), sched)
  {
    hide Lawful, EventsOk, QueueOk, Accounted, Submit, Shape;
    if entries == [] {
      EmptyInv(p, sched);
    } else {
      var n := |entries| - 1;
      var s := Initial(sched, entries[..n]);
      InitialInv(p, sched, entries[..n]);
      OthersFirst(entries, entries[..n], entries[n].pid);
      SubmitInv(p, s, entries[n], Pids(entries[..n]));
    }
  }

  /** The last entry's identifier is new. */
  lemma {:induction false} OthersFirst(entries: seq<Entry>, some: seq<Entry>, pid: Pid)
    requires ValidEntries(entries) && entries != [] && pid == entries[|entries| - 1].pid
    requires |some| < |entries| && some == entries[..|some|]
    ensures pid !in Pids(some)
  {
    if some != [] {
      OthersFirst(entries, some[..|some| - 1], pid);
      assert some[|some| - 1] == entries[|some| - 1];
    }
  }

  ghost predicate Fresh<S>(s: State<S>, sched: S) {
    s.now == 0 && s.running.None? && s.idle == 0 && s.sched == sched
  }

  lemma EmptyInv<S(!new)>(p: Policy<S>, sched: S)
    requires Lawful(p) && p.ready(sched) == multiset{}
    ensures Inv(p, Initial(sched, []), Pids([])) && Fresh(Initial(sched, []), sched)
    ensures Initial(sched, []).procs == map[]
  {
    hide Lawful;
  }

  lemma SubmitInv<S(!new)>(p: Policy<S>, s: State<S>, entry: Entry, pids: seq<Pid>)
    requires Inv(p, s, pids) && entry.pid !in s.procs && ValidProcess(entry.process) && Fresh(s, s.sched)
    ensures Inv(p, Submit(s, entry), pids + [entry.pid]) && Fresh(Submit(s, entry), s.sched)
  {
    hide Lawful, EventsOk, QueueOk, Accounted, ClockOk;
    SubmitEvents(p, s, entry, pids);
    SubmitQueue(p, s, entry);
    SubmitAccounts(s, entry);
    SubmitClock(s, entry, pids);
  }

  lemma SubmitQueue<S>(p: Policy<S>, s: State<S>, entry: Entry)
    requires QueueOk(p, s) && entry.pid !in s.place && s.running.None?
    ensures QueueOk(p, Submit(s, entry))
  {
    var r := Submit(s, entry);
    forall pid
      ensures p.ready(r.sched)[pid] == if pid in r.place && r.place[pid] == Ready then 1 else 0
    {
      assert p.ready(s.sched)[pid] == if pid in s.place && s.place[pid] == Ready then 1 else 0;
    }
  }

  lemma SubmitEvents<S(!new)>(p: Policy<S>, s: State<S>, entry: Entry, pids: seq<Pid>)
    requires Inv(p, s, pids) && entry.pid !in s.procs && ValidProcess(entry.process) && s.now == 0
    ensures EventsOk(Submit(s, entry))
  {
    hide Lawful, Accounted, QueueOk, ClockOk;
    var r := Submit(s, entry);
    forall e: Event
      ensures multiset(r.events)[e] == if e.pid in r.place && Calls(r.place[e.pid], e) then 1 else 0
    {
      assert multiset(s.events)[e] == if e.pid in s.place && Calls(s.place[e.pid], e) then 1 else 0;
    }
  }

  lemma SubmitAccounts<S>(s: State<S>, entry: Entry)
    requires Accounted(s) && entry.pid !in s.procs && ValidProcess(entry.process) && s.now == 0
    ensures Accounted(Submit(s, entry))
  {
    var r := Submit(s, entry);
    forall pid | pid in r.procs
      ensures pid in r.place && ProcessOk(r, pid)
    {
      if pid != entry.pid {
        assert ProcessOk(s, pid);
      }
    }
  }

  lemma SubmitClock<S>(s: State<S>, entry: Entry, pids: seq<Pid>)
    requires ClockOk(s, pids) && entry.pid !in s.procs
    ensures ClockOk(Submit(s, entry), pids + [entry.pid])
  {
    hide Restarted;
    var r, all := Submit(s, entry), pids + [entry.pid];
    assert all[..|pids|] == pids && r.procs[entry.pid].cpuTime == 0 by { NothingCharged(entry.process); }
    forall i, j | 0 <= i < j < |all|
      ensures all[i] != all[j]
    {
      assert all[i] == pids[i] && (j < |pids| ==> all[j] == pids[j]);
    }
    TotalSame(s.procs, r.procs, pids);
  }

  lemma NothingCharged(proc: Process)
    ensures Restarted(proc).cpuTime == 0
  {
  }

  /** choices are the events popped, each a top one. */
  ghost predicate Run<S(!new)>(p: Policy<S>, s: State<S>, choices: seq<nat>)
    requires Shape(p, s)
    decreases |choices|
  {
    choices == [] || (Top(s.events, choices[0]) && Run(p, Step(p, s, choices[0]), choices[1..]))
  }

  ghost function After<S(!new)>(p: Policy<S>, s: State<S>, choices: seq<nat>): (r: State<S>)
    requires Shape(p, s) && Run(p, s, choices)
    ensures Shape(p, r)
    decreases |choices|
  {
    if choices == [] then s else After(p, Step(p, s, choices[0]), choices[1..])
  }

  lemma {:induction false} WorkLeftNonnegative<S>(s: State<S>, pids: seq<Pid>)
    requires Accounted(s) && forall pid :: pid in pids ==> pid in s.procs
    ensures WorkLeft(s, pids) >= 0
  {
    if pids != [] {
      var pid := pids[|pids| - 1];
      WorkLeftNonnegative(s, pids[..|pids| - 1]);
      IsAccounted(s, pid);
      WorkNonnegative(s.procs[pid], s.place[pid], s.now, s.start);
    }
  }

  /** Every state of a run satisfies the invariant, and every event handled takes work off. */
  lemma {:induction false} RunKeeps<S(!new)>(p: Policy<S>, s: State<S>, pids: seq<Pid>, choices: seq<nat>)
    requires Inv(p, s, pids) && Run(p, s, choices)
    ensures Inv(p, After(p, s, choices), pids)
    ensures |choices| + WorkLeft(After(p, s, choices), pids) <= WorkLeft(s, pids)
    decreases |choices|
  {
    hide Accounted, EventsOk, QueueOk, ClockOk, Lawful, Step;
    if choices != [] {
      StepKeeps(p, s, pids, choices[0]);
      RunKeeps(p, Step(p, s, choices[0]), pids, choices[1..]);
    }
  }

  /** All CPU bursts, two units for every burst, and one for the arrival, of each process. */
  function TotalWork(entries: seq<Entry>): int {
    if entries == [] then 0
    else
      var proc := entries[|entries| - 1].process;
      TotalWork(entries[..|entries| - 1]) + CpuSum(proc, Rounds(proc)) + 2 * Rounds(proc) + 1
  }

  lemma {:induction false} InitialWork<S(!new)>(p: Policy<S>, sched: S, entries: seq<Entry>)
    requires Lawful(p) && p.ready(sched) == multiset{} && ValidEntries(entries)
    ensures Keyed(Initial(sched, entries), Pids(entries))
    ensures WorkLeft(Initial(sched, entries), Pids(entries)) == TotalWork(entries)
  {
    hide Lawful, Inv, Work, Submit, Rounds, CpuSum;
    InitialInv(p, sched, entries);
    InvKeyed(p, Initial(sched, entries), Pids(entries));
    if entries != [] {
      var n := |entries| - 1;
      var s := Initial(sched, entries[..n]);
      InitialWork(p, sched, entries[..n]);
      OthersFirst(entries, entries[..n], entries[n].pid);
      SubmitWork(s, entries[n], Pids(entries[..n]));
    }
  }

  ghost predicate Keyed<S>(s: State<S>, pids: seq<Pid>) {
    Lists(s, pids) && s.place.Keys == s.procs.Keys
  }

  lemma InvKeyed<S(!new)>(p: Policy<S>, s: State<S>, pids: seq<Pid>)
    requires Inv(p, s, pids)
    ensures Keyed(s, pids)
  {
  }

  lemma SubmitWork<S>(s: State<S>, entry: Entry, pids: seq<Pid>)
    requires Keyed(s, pids) && entry.pid !in s.procs
    ensures var r := Submit(s, entry);
            && r.place.Keys == r.procs.Keys == s.procs.Keys + {entry.pid}
            && WorkLeft(r, pids + [entry.pid])
               == WorkLeft(s, pids) + CpuSum(entry.process, Rounds(entry.process)) + 2 * Rounds(entry.process) + 1
  {
    var r, all := Submit(s, entry), pids + [entry.pid];
    assert all[..|pids|] == pids;
    WorkSame(s, r, pids);
    SameBursts(entry.process, Restarted(entry.process));
  }

  // ------------------------------------------------ no idling with work

  /** The CPU is not idle while a process is ready. */
  ghost predicate Busy<S>(p: Policy<S>, s: State<S>) {
    s.running.None? ==> |p.ready(s.sched)| == 0
  }

  lemma DispatchIsBusy<S(!new)>(p: Policy<S>, s: State<S>)
    requires Shape(p, s)
    ensures Busy(p, Dispatch(p, s))
  {
  }

  lemma ContendIsBusy<S(!new)>(p: Policy<S>, s: State<S>, pid: Pid)
    requires Shape(p, s)
    ensures Busy(p, Contend(p, s, pid))
  {
    hide Lawful, Dispatch, Preempt;
    if s.running.None? {
      DispatchIsBusy(p, s);
    } else if p.preempts(s.sched, pid, s.running.value, s.now) {
      DispatchIsBusy(p, Preempt(p, s));
    }
  }

  /** After every event the CPU is busy or nobody is ready. */
  lemma StepIsBusy<S(!new)>(p: Policy<S>, s: State<S>, pids: seq<Pid>, i: nat)
    requires Inv(p, s, pids) && i < |s.events|
    ensures Busy(p, Step(p, s, i))
  {
    hide Lawful, Dispatch, Contend, Enqueue, BurstEnds, SliceEnds, Advance, Accounted, EventsOk, QueueOk, ClockOk;
    NoStaleEvents(p, s, pids, i);
    var e, u := s.events[i], Pop(p, s, i);
    match e.kind
    case ProcessArrival => ContendIsBusy(p, Enqueue(p, u, e.pid), e.pid);
    case CpuBurstComplete => DispatchIsBusy(p, BurstEnds(p, u));
    case TimeSliceExpire => DispatchIsBusy(p, SliceEnds(p, u));
    case IoComplete =>
      var s1 := Advance(p, u, e.pid);
      ContendIsBusy(p, s1, e.pid);
      DispatchIsBusy(p, s1);
  }

  lemma {:induction false} RunIsBusy<S(!new)>(p: Policy<S>, s: State<S>, pids: seq<Pid>, choices: seq<nat>)
    requires Inv(p, s, pids) && Busy(p, s) && Run(p, s, choices)
    ensures Busy(p, After(p, s, choices))
    decreases |choices|
  {
    hide Accounted, EventsOk, QueueOk, ClockOk, Lawful, Step;
    if choices != [] {
      StepKeeps(p, s, pids, choices[0]);
      StepIsBusy(p, s, pids, choices[0]);
      RunIsBusy(p, Step(p, s, choices[0]), pids, choices[1..]);
    }
  }

  /** Without events nobody is away, running or ready. */
  lemma NothingPending<S(!new)>(p: Policy<S>, s: State<S>, pids: seq<Pid>, pid: Pid)
    requires Inv(p, s, pids) && Busy(p, s) && s.events == []
    ensures s.running.None? && (pid in s.procs ==> s.place[pid] == Done)
  {
    hide Lawful, Accounted, ClockOk, EventsOk;
    if s.running.Some? {
      RunningPlaced(p, s, pids);
      NoEvent(s, s.place[s.running.value].event);
    }
    if pid in s.procs {
      assert pid in s.place.Keys;
      assert p.ready(s.sched)[pid] == if s.place[pid] == Ready then 1 else 0;
      if s.place[pid].Away? || s.place[pid].OnCpu? {
        OwnEvent(s, pid);
        NoEvent(s, s.place[pid].event);
      }
    }
  }

  lemma OwnEvent<S>(s: State<S>, pid: Pid)
    requires EventsOk(s) && pid in s.place && (s.place[pid].Away? || s.place[pid].OnCpu?)
    ensures s.place[pid].event.pid == pid
  {
  }

  lemma NoEvent<S>(s: State<S>, e: Event)
    requires EventsOk(s) && s.events == []
    ensures e.pid in s.place ==> !Calls(s.place[e.pid], e)
  {
    assert multiset(s.events)[e] == 0;
  }

  // ------------------------------------------------ theorems

  /** Termination without a stop time: no run handles more events than the work submitted. */
  lemma RunsTerminate<S(!new)>(p: Policy<S>, sched: S, entries: seq<Entry>, choices: seq<nat>)
    requires Lawful(p) && p.ready(sched) == multiset{} && ValidEntries(entries)
    requires Shape(p, Initial(sched, entries)) && Run(p, Initial(sched, entries), choices)
    ensures |choices| <= TotalWork(entries)
  {
    hide Lawful, Inv, Run, After, Initial, TotalWork, WorkLeft;
    InitialInv(p, sched, entries);
    InitialWork(p, sched, entries);
    RunKeeps(p, Initial(sched, entries), Pids(entries), choices);
    InvWorkLeft(p, After(p, Initial(sched, entries), choices), Pids(entries));
  }

  lemma InvWorkLeft<S(!new)>(p: Policy<S>, s: State<S>, pids: seq<Pid>)
    requires Inv(p, s, pids)
    ensures Keyed(s, pids) && WorkLeft(s, pids) >= 0
  {
    hide Lawful, EventsOk, QueueOk, Accounted;
    WorkLeftNonnegative(s, pids);
  }

  /** When no event is left, all time was idle or CPU time. */
  lemma EndOfRunTotals<S(!new)>(p: Policy<S>, sched: S, entries: seq<Entry>, choices: seq<nat>, s: State<S>)
    requires Lawful(p) && p.ready(sched) == multiset{} && ValidEntries(entries)
    requires Shape(p, Initial(sched, entries)) && Run(p, Initial(sched, entries), choices)
    requires s == After(p, Initial(sched, entries), choices) && s.events == []
    ensures Lists(s, Pids(entries)) && s.now == s.idle + CpuTotal(s.procs, Pids(entries))
  {
    hide Run, After;
    InitialInv(p, sched, entries);
    RunKeeps(p, Initial(sched, entries), Pids(entries), choices);
    RunIsBusy(p, Initial(sched, entries), Pids(entries), choices);
    NothingPending(p, s, Pids(entries), 0);
  }

  /** When no event is left, every process has completed with its CPU time the sum of its
      CPU bursts and its turnaround CPU, IO and waiting time, of which its response is part. */
  lemma EndOfRun<S(!new)>(p: Policy<S>, sched: S, entries: seq<Entry>, choices: seq<nat>, s: State<S>, pid: Pid)
    requires Lawful(p) && p.ready(sched) == multiset{} && ValidEntries(entries)
    requires Shape(p, Initial(sched, entries)) && Run(p, Initial(sched, entries), choices)
    requires s == After(p, Initial(sched, entries), choices) && s.events == [] && pid in s.procs
    ensures var proc := s.procs[pid];
            && proc.completion >= 0 && proc.IsCompleted()
            && proc.cpuTime == CpuSum(proc, Rounds(proc))
            && proc.Turnaround() == proc.cpuTime + IoSum(proc, Rounds(proc)) + proc.waitTime
            && 0 <= proc.Response() <= proc.waitTime
  {
    hide Run, After;
    InitialInv(p, sched, entries);
    RunKeeps(p, Initial(sched, entries), Pids(entries), choices);
    RunIsBusy(p, Initial(sched, entries), Pids(entries), choices);
    NothingPending(p, s, Pids(entries), pid);
    IsAccounted(s, pid);
  }
}

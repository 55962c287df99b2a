/** What every state of a burst run satisfies: each process has exactly the one event its
    place calls for, so no event is ever stale, and its times add up exactly. */
module BurstInvariant {
  import opened Common
  import opened Burst

  /** The one event a place calls for. */
  predicate Calls(place: Place, e: Event) {
    (place.Away? || place.OnCpu?) && place.event == e
  }

  ghost predicate EventsOk<S>(s: State<S>) {
    && (forall e :: multiset(s.events)[e] == if e.pid in s.place && Calls(s.place[e.pid], e) then 1 else 0)
    && (forall e :: e in s.events ==> e.time >= s.now)
    && (forall pid :: pid in s.place && (s.place[pid].Away? || s.place[pid].OnCpu?) ==> s.place[pid].event.pid == pid)
  }

  ghost predicate QueueOk<S>(p: Policy<S>, s: State<S>) {
    && (forall pid :: p.ready(s.sched)[pid] == if pid in s.place && s.place[pid] == Ready then 1 else 0)
    && (forall pid :: pid in s.place ==> (s.place[pid].OnCpu? <==> s.running == Some(pid)))
  }

  /** The CPU bursts so far are what was charged and what remains of the current one; the
      time since arrival is CPU, IO and waiting time. */
  ghost predicate Accounts(proc: Process, place: Place, now: int, start: int) {
    && ValidProcess(proc) && 0 <= proc.cpuTime && 0 <= proc.waitTime && RanFirst(proc, now)
    && (proc.firstRun < 0 ==> place.Ready? || place.Away?)
    && match place
       case Away(e) =>
         proc.completion < 0 && e.time >= now
         && (if e.kind == ProcessArrival then e.time == proc.arrival && proc == Restarted(proc)
             else
               && e.kind == IoComplete && proc.index < Rounds(proc) && proc.firstRun >= 0
               && proc.cpuTime == CpuSum(proc, proc.index + 1)
               && e.time - proc.arrival == proc.cpuTime + proc.waitTime + IoSum(proc, proc.index + 1))
       case Ready =>
         proc.enterReady <= now && AtBurst(proc, proc.enterReady)
       case OnCpu(e, slice) =>
         && start <= now <= e.time && AtBurst(proc, start) && EndsSlice(e, slice, start, proc.remaining)
       case Done =>
         && proc.index == Rounds(proc) && proc.cpuTime == CpuSum(proc, Rounds(proc))
         && 0 <= proc.completion <= now
         && proc.completion - proc.arrival == proc.cpuTime + proc.waitTime + IoSum(proc, Rounds(proc))
  }

  /** e ends the slice, if there is one shorter than the burst, and else the burst. */
  predicate EndsSlice(e: Event, slice: int, start: int, remaining: int) {
    if 0 < slice < remaining then e.kind == TimeSliceExpire && e.time == start + slice
    else e.kind == CpuBurstComplete && e.time == start + remaining
  }

  /** A process that never ran has not waited before it last became ready; the first run comes
      after the arrival, and the time up to it was spent waiting. */
  predicate RanFirst(proc: Process, now: int) {
    if proc.firstRun < 0 then proc.index == 0 && proc.cpuTime == 0 && proc.waitTime == 0
    else proc.arrival <= proc.firstRun <= now && proc.firstRun - proc.arrival <= proc.waitTime
  }

  /** In the middle of a CPU burst, accounted up to time since. */
  predicate AtBurst(proc: Process, since: int) {
    && proc.completion < 0 && proc.index < Rounds(proc) && 0 <= proc.remaining
    && proc.cpuTime + proc.remaining == CpuSum(proc, proc.index + 1)
    && since - proc.arrival == proc.cpuTime + proc.waitTime + IoSum(proc, proc.index)
  }

  ghost predicate ProcessOk<S>(s: State<S>, pid: Pid)
    requires pid in s.procs && pid in s.place
  {
    Accounts(s.procs[pid], s.place[pid], s.now, s.start)
  }

  ghost predicate Accounted<S>(s: State<S>) {
    s.now >= 0 && forall pid :: pid in s.procs ==> pid in s.place && ProcessOk(s, pid)
  }

  // ------------------------------------------------ totals

  function CpuTotal(procs: map<Pid, Process>, pids: seq<Pid>): int
    requires forall pid :: pid in pids ==> pid in procs
  {
    if pids == [] then 0
    else CpuTotal(procs, pids[..|pids| - 1]) + procs[pids[|pids| - 1]].cpuTime
  }

  ghost predicate Lists<S>(s: State<S>, pids: seq<Pid>) {
    && (forall i, j :: 0 <= i < j < |pids| ==> pids[i] != pids[j])
    && (forall pid :: pid in pids <==> pid in s.procs)
  }

  /** The time that has passed is idle time and CPU time, charged or still to be charged. */
  ghost predicate ClockOk<S>(s: State<S>, pids: seq<Pid>) {
    && Lists(s, pids)
    && s.now == s.idle + CpuTotal(s.procs, pids) + if s.running.Some? then s.now - s.start else 0
  }

  ghost predicate Inv<S(!new)>(p: Policy<S>, s: State<S>, pids: seq<Pid>) {
    Shape(p, s) && EventsOk(s) && QueueOk(p, s) && Accounted(s) && ClockOk(s, pids)
  }

  // ------------------------------------------------ work left

  /** CPU time still to be charged, and two units for every burst still to finish. */
  function Work(proc: Process, place: Place): int {
    CpuSum(proc, Rounds(proc)) - proc.cpuTime + 2 * (Rounds(proc) - proc.index)
    + if place.Away? then (if place.event.kind == ProcessArrival then 1 else -1) else 0
  }

  function WorkLeft<S>(s: State<S>, pids: seq<Pid>): int
    requires forall pid :: pid in pids ==> pid in s.procs && pid in s.place
  {
    if pids == [] then 0
    else
      var pid := pids[|pids| - 1];
      WorkLeft(s, pids[..|pids| - 1]) + Work(s.procs[pid], s.place[pid])
  }

  // ------------------------------------------------ one process moves

  /** Process pid changes, and the rest only as it must. */
  ghost predicate Moves<S>(p: Policy<S>, s: State<S>, r: State<S>, pid: Pid) {
    && pid in s.procs && pid in s.place && pid in r.procs && pid in r.place
    && r.procs == s.procs[pid := r.procs[pid]] && r.place == s.place[pid := r.place[pid]]
    && r.now >= s.now
    && p.ready(r.sched) == p.ready(s.sched)[pid := if r.place[pid] == Ready then 1 else 0]
    && (forall e :: multiset(r.events)[e]
                 == if e.pid == pid then (if Calls(r.place[pid], e) then 1 else 0) else multiset(s.events)[e])
    && (forall e :: e in r.events ==> e.time >= r.now)
    && r.running == (if r.place[pid].OnCpu? then Some(pid) else if s.running == Some(pid) then None else s.running)
    && (r.place[pid].OnCpu? ==> s.running.None? || s.running == Some(pid))
    && (r.start == s.start || r.place[pid].OnCpu?)
    && (r.place[pid].Away? || r.place[pid].OnCpu? ==> r.place[pid].event.pid == pid)
  }

  lemma MovesKeepEvents<S>(p: Policy<S>, s: State<S>, r: State<S>, pid: Pid)
    requires EventsOk(s) && Moves(p, s, r, pid)
    ensures EventsOk(r)
  {
  }

  lemma MovesKeepQueue<S>(p: Policy<S>, s: State<S>, r: State<S>, pid: Pid)
    requires QueueOk(p, s) && Moves(p, s, r, pid)
    ensures QueueOk(p, r)
  {
    forall other
      ensures p.ready(r.sched)[other] == if other in r.place && r.place[other] == Ready then 1 else 0
    {
      assert p.ready(s.sched)[other] == if other in s.place && s.place[other] == Ready then 1 else 0;
    }
  }

  lemma MovesKeepAccounts<S>(p: Policy<S>, s: State<S>, r: State<S>, pid: Pid)
    requires Accounted(s) && EventsOk(s) && QueueOk(p, s) && Moves(p, s, r, pid) && ProcessOk(r, pid)
    ensures Accounted(r)
  {
    forall other | other in r.procs
      ensures other in r.place && ProcessOk(r, other)
    {
      if other != pid {
        assert ProcessOk(s, other);
        if s.place[other].Away? || s.place[other].OnCpu? {
          assert multiset(s.events)[s.place[other].event] == 1;
          assert multiset(r.events)[s.place[other].event] == 1;
          assert s.place[other].event in multiset(r.events);
          assert s.place[other].event in r.events;
        }
      }
    }
  }

  lemma {:induction false} TotalSame(a: map<Pid, Process>, b: map<Pid, Process>, pids: seq<Pid>)
    requires forall pid :: pid in pids ==> pid in a && pid in b && b[pid].cpuTime == a[pid].cpuTime
    ensures CpuTotal(b, pids) == CpuTotal(a, pids)
  {
    if pids != [] {
      TotalSame(a, b, pids[..|pids| - 1]);
    }
  }

  lemma {:induction false} TotalMore(a: map<Pid, Process>, b: map<Pid, Process>, pids: seq<Pid>, pid: Pid)
    requires forall i, j :: 0 <= i < j < |pids| ==> pids[i] != pids[j]
    requires forall x :: x in pids ==> x in a && x in b && (x != pid ==> b[x].cpuTime == a[x].cpuTime)
    requires pid in pids
    ensures CpuTotal(b, pids) == CpuTotal(a, pids) + b[pid].cpuTime - a[pid].cpuTime
  {
    var rest := pids[..|pids| - 1];
    if pids[|pids| - 1] == pid {
      TotalSame(a, b, rest);
    } else {
      TotalMore(a, b, rest, pid);
    }
  }

  lemma {:induction false} WorkSame<S>(s: State<S>, r: State<S>, pids: seq<Pid>)
    requires forall x :: x in pids ==>
               && x in s.procs && x in s.place && x in r.procs && x in r.place
               && Work(r.procs[x], r.place[x]) == Work(s.procs[x], s.place[x])
    ensures WorkLeft(r, pids) == WorkLeft(s, pids)
  {
    if pids != [] {
      WorkSame(s, r, pids[..|pids| - 1]);
    }
  }

  lemma {:induction false} WorkChange<S>(s: State<S>, r: State<S>, pids: seq<Pid>, pid: Pid)
    requires forall i, j :: 0 <= i < j < |pids| ==> pids[i] != pids[j]
    requires forall x :: x in pids ==> x in s.procs && x in s.place && x in r.procs && x in r.place
    requires forall x :: x in pids && x != pid ==> r.procs[x] == s.procs[x] && r.place[x] == s.place[x]
    requires pid in pids
    ensures WorkLeft(r, pids) - WorkLeft(s, pids) == Work(r.procs[pid], r.place[pid]) - Work(s.procs[pid], s.place[pid])
  {
    var rest := pids[..|pids| - 1];
    if pids[|pids| - 1] == pid {
      WorkSame(s, r, rest);
    } else {
      WorkChange(s, r, rest, pid);
    }
  }

  /** The common part of every operation: a move that accounts for its process and the clock
      keeps the invariant, and the work left changes by that of the process. */
  lemma MovesKeep<S(!new)>(p: Policy<S>, s: State<S>, r: State<S>, pids: seq<Pid>, pid: Pid)
    requires Inv(p, s, pids) && Shape(p, r) && Moves(p, s, r, pid) && ProcessOk(r, pid)
    requires r.idle + (r.procs[pid].cpuTime - s.procs[pid].cpuTime) + (if r.running.Some? then r.now - r.start else 0)
          == s.idle + (r.now - s.now) + (if s.running.Some? then s.now - s.start else 0)
    ensures Inv(p, r, pids)
    ensures WorkLeft(r, pids) == WorkLeft(s, pids) + Work(r.procs[pid], r.place[pid]) - Work(s.procs[pid], s.place[pid])
  {
    hide Shape, Accounted, ProcessOk, QueueOk, EventsOk, Work, WorkLeft, Moves, CpuTotal;
    MovesKeepEvents(p, s, r, pid);
    MovesKeepQueue(p, s, r, pid);
    MovesKeepAccounts(p, s, r, pid);
    MovesKeepClock(p, s, r, pids, pid);
  }

  lemma MovesKeepClock<S>(p: Policy<S>, s: State<S>, r: State<S>, pids: seq<Pid>, pid: Pid)
    requires Accounted(s) && ClockOk(s, pids) && Moves(p, s, r, pid)
    requires r.idle + (r.procs[pid].cpuTime - s.procs[pid].cpuTime) + (if r.running.Some? then r.now - r.start else 0)
          == s.idle + (r.now - s.now) + (if s.running.Some? then s.now - s.start else 0)
    ensures ClockOk(r, pids)
    ensures forall x :: x in pids ==> x in s.procs && x in s.place && x in r.procs && x in r.place
    ensures WorkLeft(r, pids) == WorkLeft(s, pids) + Work(r.procs[pid], r.place[pid]) - Work(s.procs[pid], s.place[pid])
  {
    hide ProcessOk, Work, WorkLeft, CpuTotal;
    TotalMore(s.procs, r.procs, pids, pid);
    WorkChange(s, r, pids, pid);
  }

  /** Whoever works has work left. */
  lemma {:induction false} SumsGrow(proc: Process, a: nat, b: nat)
    requires ValidProcess(proc) && a <= b
    ensures 0 <= CpuSum(proc, a) <= CpuSum(proc, b) && 0 <= IoSum(proc, a) <= IoSum(proc, b)
    decreases a + b
  {
    if a < b {
      SumsGrow(proc, a, b - 1);
    } else if a > 0 {
      SumsGrow(proc, a - 1, a - 1);
    }
  }

  lemma WorkNonnegative(proc: Process, place: Place, now: int, start: int)
    requires Accounts(proc, place, now, start)
    ensures Work(proc, place) >= 0 && (place == Done <==> Work(proc, place) == 0)
  {
    if !place.Done? {
      SumsGrow(proc, if proc.index < Rounds(proc) then proc.index + 1 else 0, Rounds(proc));
    }
  }
}

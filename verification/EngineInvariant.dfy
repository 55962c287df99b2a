/** What every state of a run satisfies: each task is in exactly one place, its times add
    up exactly, no event lies in the past, and every busy core has a live timer. */
module EngineInvariant {
  import opened Common
  import opened Tasks
  import opened Policies
  import opened Engine

  /** Each queue holds, once each, the tasks placed in it; each core runs the task placed
      on it; the completed list has every finished task once. */
  ghost predicate Places<S(!new)>(p: Policy<S>, s: State<S>) {
    && (forall q, id {:trigger p.ready(s.scheds[q])[id]} :: 0 <= q < |s.scheds| ==>
          p.ready(s.scheds[q])[id] == if id in s.place && s.place[id] == Queued(q) then 1 else 0)
    && (forall c :: 0 <= c < |s.cores| && s.cores[c].running.Some? ==>
          s.cores[c].running.value in s.place && s.place[s.cores[c].running.value] == OnCore(c))
    && (forall id :: id in s.place ==> Placed(s, id))
    && (forall id :: id in s.completed ==> id in s.place && s.place[id] == Finished)
  }

  ghost predicate Placed<S>(s: State<S>, id: TaskId)
    requires id in s.place
  {
    match s.place[id]
    case Pending => true
    case Queued(q) => q < |s.scheds|
    case OnCore(c) => c < |s.cores| && s.cores[c].running == Some(id)
    case Finished => multiset(s.completed)[id] == 1
  }

  /** No event is in the past; pending tasks, and only they, have an arrival event, once. */
  ghost predicate Clock<S>(s: State<S>) {
    && s.now >= 0.0
    && (forall e :: e in s.events ==> e.time >= s.now && (e.Arrival? ==> Awaits(s, e)))
    && (forall id :: id in s.place && s.place[id] == Pending ==>
          id in s.tasks && multiset(s.events)[Arrival(s.tasks[id].arrival, id)] == 1)
  }

  ghost predicate Awaits<S>(s: State<S>, e: Event) {
    && e.id in s.place && s.place[e.id] == Pending
    && e.id in s.tasks && e.time == s.tasks[e.id].arrival
  }

  /** The times of one task, given where it is.  On a core, since is the core's last
      dispatch time. */
  ghost predicate Accounts(t: Task, place: Place, now: real, since: real) {
    && 0.0 <= t.arrival && 0.0 < t.execution
    && 0.0 <= t.remaining <= t.execution && 0.0 <= t.wait
    && (t.start < 0.0 ==> t.remaining == t.execution && t.wait == 0.0)
    && (t.start >= 0.0 ==> t.arrival <= t.start <= now && t.ResponseTime() <= t.wait)
    && match place
       case Pending => t == NewTask(t.arrival, t.execution)
       case Queued(_) =>
         && t.inReady && t.completion < 0.0 && t.arrival <= t.readySince <= now
         && t.readySince - t.arrival == t.wait + (t.execution - t.remaining)
       case OnCore(_) =>
         && !t.inReady && t.completion < 0.0 && t.start >= 0.0 && since <= now
         && since - t.arrival == t.wait + (t.execution - t.remaining)
       case Finished =>
         && t.start >= 0.0 && t.remaining <= 0.001 && t.completion <= now
         && t.completion - t.arrival == t.wait + (t.execution - t.remaining)
  }

  function Since<S>(s: State<S>, place: Place): real {
    if place.OnCore? && place.core < |s.cores| then s.cores[place.core].since else 0.0
  }

  ghost predicate TaskOk<S>(s: State<S>, id: TaskId)
    requires id in s.tasks && id in s.place
  {
    Accounts(s.tasks[id], s.place[id], s.now, Since(s, s.place[id]))
  }

  ghost predicate Accounted<S>(s: State<S>) {
    forall id :: id in s.tasks ==> id in s.place && TaskOk(s, id)
  }

  /** When the slice granted on a core ends, if its task t is not preempted. */
  function Deadline(core: Core, t: Task): real {
    core.since + Min(core.granted, t.remaining)
  }

  /** Core c, if busy, has a timer for its current task at its deadline. */
  ghost predicate Timed<S>(s: State<S>, c: int)
    requires 0 <= c < |s.cores|
  {
    var core := s.cores[c];
    core.running.Some? ==>
      && core.running.value in s.tasks
      && TimeSlice(Deadline(core, s.tasks[core.running.value]), core.running.value, c) in s.events
  }

  /** Busy cores were granted a slice, in the past, and have timers; the core named open
      (if there is such a core) may lack its timer. */
  ghost predicate Timers<S>(s: State<S>, open: int) {
    forall c :: 0 <= c < |s.cores| ==>
      && (s.cores[c].running.Some? ==> s.cores[c].granted > 0.0 && s.cores[c].since <= s.now)
      && (c != open ==> Timed(s, c))
  }

  ghost predicate InvBut<S(!new)>(p: Policy<S>, cfg: Config, s: State<S>, open: int) {
    Shape(p, cfg, s) && Places(p, s) && Clock(s) && Accounted(s) && Timers(s, open)
  }

  ghost predicate Inv<S(!new)>(p: Policy<S>, cfg: Config, s: State<S>) {
    InvBut(p, cfg, s, -1)
  }

  // ------------------------------------------------ popping an event

  lemma WithoutFacts<T>(xs: seq<T>, i: nat)
    requires i < |xs|
    ensures multiset(Without(xs, i)) == multiset(xs) - multiset{xs[i]}
    ensures forall x :: x in Without(xs, i) ==> x in xs
    ensures forall x :: x in xs && x != xs[i] ==> x in Without(xs, i)
  {
    assert xs == xs[..i] + [xs[i]] + xs[i + 1..];
    forall x | x in Without(xs, i)
      ensures x in xs
    {
      assert x in multiset(Without(xs, i));
    }
    forall x | x in xs && x != xs[i]
      ensures x in Without(xs, i)
    {
      assert x in multiset(xs);
      assert x in multiset(Without(xs, i));
    }
  }

  lemma PopClock<S>(s: State<S>, r: State<S>, i: nat)
    requires Clock(s) && Earliest(s.events, i) && s.events[i].TimeSlice?
    requires r == s.(now := s.events[i].time, events := Without(s.events, i))
    ensures Clock(r)
  {
    WithoutFacts(s.events, i);
    assert s.events[i] in s.events;
  }

  lemma PopTimers<S>(s: State<S>, r: State<S>, i: nat)
    requires Timers(s, -1) && Clock(s) && Earliest(s.events, i) && s.events[i].TimeSlice?
    requires r == s.(now := s.events[i].time, events := Without(s.events, i))
    requires s.events[i].core < |s.cores|
    ensures var e := s.events[i];
            Timers(r, if s.cores[e.core].running == Some(e.id) then e.core else -1)
  {
    var e := s.events[i];
    assert e in s.events;
    forall c | 0 <= c < |r.cores| && !(c == e.core && s.cores[c].running == Some(e.id))
      ensures Timed(r, c)
    {
      assert Timed(s, c);
      WithoutFacts(s.events, i);
    }
  }

  lemma SamePlaces<S(!new)>(p: Policy<S>, s: State<S>, r: State<S>)
    requires Places(p, s) && r.scheds == s.scheds && r.cores == s.cores
    requires r.place == s.place && r.completed == s.completed
    ensures Places(p, r)
  {
  }

  lemma LaterAccounted<S>(s: State<S>, r: State<S>)
    requires Accounted(s) && r.tasks == s.tasks && r.place == s.place && r.cores == s.cores
    requires s.now <= r.now
    ensures Accounted(r)
  {
    forall id | id in r.tasks
      ensures TaskOk(r, id)
    {
      assert TaskOk(s, id);
    }
  }

  /** Popping an earliest timer: only the timer clause of the timer's own core can break,
      and only when the timer is for the task running there. */
  lemma PopTimer<S(!new)>(p: Policy<S>, cfg: Config, s: State<S>, i: nat)
    requires Inv(p, cfg, s) && Earliest(s.events, i) && s.events[i].TimeSlice?
    ensures var e := s.events[i];
            InvBut(p, cfg, Pop(p, cfg, s, i), if s.cores[e.core].running == Some(e.id) then e.core else -1)
  {
    hide Accounted, Timers, Clock, Places, Lawful;
    var r := Pop(p, cfg, s, i);
    SamePlaces(p, s, r);
    assert s.events[i] in s.events;
    assert s.now <= r.now by { PopLater(s, i); }
    PopClock(s, r, i);
    PopTimers(s, r, i);
    LaterAccounted(s, r);
  }

  lemma PopLater<S>(s: State<S>, i: nat)
    requires Clock(s) && i < |s.events|
    ensures s.now <= s.events[i].time
  {
    assert s.events[i] in s.events;
  }

  /** Lazy cancellation is safe: whatever event is popped, a busy core has run its task
      for no longer than its slice and the task's remaining time. */
  lemma ChargeBound<S(!new)>(p: Policy<S>, cfg: Config, s: State<S>, i: nat, c: nat)
    requires Inv(p, cfg, s) && Earliest(s.events, i) && c < cfg.cores && s.cores[c].running.Some?
    ensures s.now <= s.events[i].time <= Deadline(s.cores[c], s.tasks[s.cores[c].running.value])
    ensures var elapsed := s.events[i].time - s.cores[c].since;
            && 0.0 <= elapsed <= s.cores[c].granted
            && elapsed <= s.tasks[s.cores[c].running.value].remaining
  {
    assert Timed(s, c);
    assert s.events[i] in s.events;
  }

  // ------------------------------------------------ one task moves

  /** Task id moves from its place in s to its place in r and nothing else moves. */
  ghost predicate Moves<S(!new)>(p: Policy<S>, s: State<S>, r: State<S>, id: TaskId) {
    && id in s.place && id in r.place && r.place == s.place[id := r.place[id]]
    && |r.scheds| == |s.scheds| && |r.cores| == |s.cores|
    && (forall q {:trigger r.scheds[q]} :: 0 <= q < |s.scheds| ==>
          p.ready(r.scheds[q]) ==
            p.ready(s.scheds[q])[id := if r.place[id] == Queued(q) then 1 else 0])
    && (forall c {:trigger r.cores[c]} :: 0 <= c < |s.cores| ==>
          r.cores[c].running == (if r.place[id] == OnCore(c) then Some(id)
                                 else if s.place[id] == OnCore(c) then None
                                 else s.cores[c].running))
    && r.completed == s.completed + (if r.place[id] == Finished then [id] else [])
    && s.place[id] != Finished
    && match r.place[id]
       case Pending => true
       case Queued(q) => q < |s.scheds|
       case OnCore(c) => c < |s.cores| && s.cores[c].running in {None, Some(id)}
       case Finished => true
  }

  lemma PlacesUpdate<S(!new)>(p: Policy<S>, s: State<S>, r: State<S>, id: TaskId)
    requires Places(p, s) && Moves(p, s, r, id)
    ensures Places(p, r)
  {
    forall q, x {:trigger p.ready(r.scheds[q])[x]} | 0 <= q < |r.scheds|
      ensures p.ready(r.scheds[q])[x] == if x in r.place && r.place[x] == Queued(q) then 1 else 0
    {
      assert p.ready(s.scheds[q])[x] == if x in s.place && s.place[x] == Queued(q) then 1 else 0;
    }
    forall x | x in r.place
      ensures Placed(r, x)
    {
      StaysPlaced(p, s, r, id, x);
    }
  }

  lemma StaysPlaced<S(!new)>(p: Policy<S>, s: State<S>, r: State<S>, id: TaskId, x: TaskId)
    requires Places(p, s) && Moves(p, s, r, id) && x in r.place
    ensures Placed(r, x)
  {
    assert id !in s.completed;
    if x != id {
      assert Placed(s, x);
    }
  }

  /** Task id changes, and only cores that run nothing else change their dispatch time. */
  lemma AccountedUpdate<S(!new)>(p: Policy<S>, s: State<S>, r: State<S>, id: TaskId)
    requires Accounted(s) && Places(p, s) && id in s.tasks && id in r.tasks && id in r.place
    requires r.now == s.now && |r.cores| == |s.cores|
    requires r.tasks == s.tasks[id := r.tasks[id]] && r.place == s.place[id := r.place[id]]
    requires forall c {:trigger r.cores[c]} :: 0 <= c < |s.cores| ==>
               r.cores[c].since == s.cores[c].since || s.cores[c].running in {None, Some(id)}
    requires TaskOk(r, id)
    ensures Accounted(r)
  {
    forall x | x in r.tasks
      ensures x in r.place && TaskOk(r, x)
    {
      if x != id {
        assert TaskOk(s, x) && Placed(s, x);
        assert Since(r, r.place[x]) == Since(s, s.place[x]);
      }
    }
  }

  /** Only core c and task id, which ran on no other core, change. */
  lemma TimersUpdate<S(!new)>(p: Policy<S>, s: State<S>, r: State<S>, id: TaskId, c: int, open: int, open': int)
    requires Timers(s, open) && Places(p, s) && 0 <= c < |s.cores| && id in s.place
    requires open == c || open == -1
    requires r.now == s.now && |r.cores| == |s.cores|
    requires forall x :: x in s.tasks && x != id ==> x in r.tasks && r.tasks[x] == s.tasks[x]
    requires forall k {:trigger r.cores[k]} :: 0 <= k < |s.cores| && k != c ==> r.cores[k] == s.cores[k]
    requires s.place[id].OnCore? ==> s.place[id] == OnCore(c)
    requires forall e :: e in s.events ==> e in r.events
    requires r.cores[c].running.Some? ==> r.cores[c].granted > 0.0 && r.cores[c].since <= r.now
    requires open' == c || (open' == -1 && Timed(r, c))
    ensures Timers(r, open')
  {
    forall k | 0 <= k < |r.cores| && k != c
      ensures (r.cores[k].running.Some? ==> r.cores[k].granted > 0.0 && r.cores[k].since <= r.now)
      ensures Timed(r, k)
    {
      assert Timed(s, k);
    }
  }

  /** A task that is and stays off the pending list; timers may be added. */
  lemma ClockUpdate<S>(s: State<S>, r: State<S>, id: TaskId, timers: seq<Event>)
    requires Clock(s) && id in s.place && id in r.place && id in r.tasks
    requires s.place[id] != Pending && r.place[id] != Pending
    requires r.now == s.now && r.events == s.events + timers
    requires r.tasks == s.tasks[id := r.tasks[id]] && r.place == s.place[id := r.place[id]]
    requires forall e :: e in timers ==> e.TimeSlice? && e.time >= s.now
    ensures Clock(r)
  {
    forall x | x in r.place && r.place[x] == Pending
      ensures x in r.tasks && multiset(r.events)[Arrival(r.tasks[x].arrival, x)] == 1
    {
      var a := Arrival(s.tasks[x].arrival, x);
      assert multiset(s.events)[a] == 1;
      assert a !in timers;
    }
  }

  lemma ArriveClock<S>(s: State<S>, r: State<S>, i: nat)
    requires Clock(s) && Earliest(s.events, i) && s.events[i].Arrival?
    requires r.now == s.events[i].time && r.events == Without(s.events, i)
    requires var id := s.events[i].id;
             && id in r.tasks && r.tasks == s.tasks[id := r.tasks[id]]
             && id in r.place && r.place == s.place[id := r.place[id]] && r.place[id] != Pending
    ensures Clock(r)
  {
    var a := s.events[i];
    assert a in s.events && Awaits(s, a);
    WithoutFacts(s.events, i);
    forall e | e in r.events
      ensures e.time >= r.now && (e.Arrival? ==> Awaits(r, e))
    {
      assert a !in multiset(r.events) by {
        assert multiset(s.events)[a] == 1;
      }
      if e.Arrival? {
        assert Awaits(s, e) && e in multiset(r.events);
      }
    }
    forall x | x in r.place && r.place[x] == Pending
      ensures x in r.tasks && multiset(r.events)[Arrival(r.tasks[x].arrival, x)] == 1
    {
      assert multiset(s.events)[Arrival(s.tasks[x].arrival, x)] == 1;
    }
  }

  lemma ArriveTimers<S(!new)>(p: Policy<S>, s: State<S>, r: State<S>, i: nat)
    requires Timers(s, -1) && Places(p, s) && Clock(s) && i < |s.events| && s.events[i].Arrival?
    requires r.cores == s.cores && r.now >= s.now && r.events == Without(s.events, i)
    requires forall x :: x in s.tasks && x != s.events[i].id ==> x in r.tasks && r.tasks[x] == s.tasks[x]
    ensures Timers(r, -1)
  {
    assert s.events[i] in s.events && Awaits(s, s.events[i]);
    forall c | 0 <= c < |r.cores|
      ensures Timed(r, c)
    {
      assert Timed(s, c);
      WithoutFacts(s.events, i);
    }
  }

  // ------------------------------------------------ what the operations keep

  /** An arriving task enters a queue. */
  lemma ArriveKeeps<S(!new)>(p: Policy<S>, cfg: Config, s: State<S>, i: nat, q: nat)
    requires Inv(p, cfg, s) && Earliest(s.events, i) && s.events[i].Arrival? && q < cfg.Queues()
    ensures s.events[i].id in s.tasks
    ensures Inv(p, cfg, Enqueue(p, cfg, Pop(p, cfg, s, i), s.events[i].id, q))
  {
    hide Accounted, Timers, Places, Lawful;
    var e := s.events[i];
    assert e in s.events && Awaits(s, e);
    var u := Pop(p, cfg, s, i);
    var r := Enqueue(p, cfg, u, e.id, q);
    SamePlaces(p, s, u);
    assert Moves(p, u, r, e.id) by { ArriveMoves(p, cfg, u, e.id, q); }
    PlacesUpdate(p, u, r, e.id);
    PopLater(s, i);
    LaterAccounted(s, u);
    ArriveAccounted(p, u, r, e.id);
    hide Clock;
    ArriveClock(s, r, i);
    ArriveTimers(p, s, r, i);
  }

  lemma ArriveMoves<S(!new)>(p: Policy<S>, cfg: Config, u: State<S>, id: TaskId, q: nat)
    requires Shape(p, cfg, u) && Places(p, u) && id in u.tasks && u.place[id] == Pending && q < cfg.Queues()
    ensures Moves(p, u, Enqueue(p, cfg, u, id, q), id)
  {
    forall k {:trigger u.scheds[k]} | 0 <= k < |u.scheds|
      ensures p.ready(u.scheds[k])[id] == 0
    {
    }
  }

  lemma ArriveAccounted<S(!new)>(p: Policy<S>, u: State<S>, r: State<S>, id: TaskId)
    requires Accounted(u) && Places(p, u) && id in u.tasks && id in u.place && u.place[id] == Pending
    requires u.tasks[id].arrival == u.now && r.now == u.now && r.cores == u.cores
    requires r.tasks == u.tasks[id := u.tasks[id].MarkReady(u.now)]
    requires id in r.place && r.place[id].Queued? && r.place == u.place[id := r.place[id]]
    ensures Accounted(r)
  {
    assert TaskOk(u, id);
    AccountedUpdate(p, u, r, id);
  }

  /** The running task is charged and goes back to its queue. */
  lemma ReleaseKeeps<S(!new)>(p: Policy<S>, cfg: Config, s: State<S>, c: nat)
    requires InvBut(p, cfg, s, c) && Busy(p, cfg, s, c) && ChargeInBounds(s, c)
    ensures Inv(p, cfg, Requeue(p, cfg, Charge(p, cfg, s, c), c))
    ensures Requeue(p, cfg, Charge(p, cfg, s, c), c).cores[c].running.None?
  {
    hide Accounted, Timers, Clock, Places, Lawful;
    var id := s.cores[c].running.value;
    var r := Requeue(p, cfg, Charge(p, cfg, s, c), c);
    assert id in s.place && s.place[id] == OnCore(c) by { RunningIsPlaced(p, s, c); }
    assert Moves(p, s, r, id) by { ReleaseMoves(p, cfg, s, c); }
    PlacesUpdate(p, s, r, id);
    ClockUpdate(s, r, id, []);
    ReleaseAccounted(p, s, r, c);
    TimersUpdate(p, s, r, id, c, c, -1);
  }

  lemma RunningIsPlaced<S(!new)>(p: Policy<S>, s: State<S>, c: nat)
    requires Places(p, s) && c < |s.cores| && s.cores[c].running.Some?
    ensures s.cores[c].running.value in s.place && s.place[s.cores[c].running.value] == OnCore(c)
  {
  }

  /** The time to be charged on core c lies between 0 and what its task still needs. */
  predicate ChargeInBounds<S>(s: State<S>, c: nat) {
    && c < |s.cores| && s.cores[c].running.Some? && s.cores[c].running.value in s.tasks
    && 0.0 <= s.now - s.cores[c].since <= s.tasks[s.cores[c].running.value].remaining
  }

  lemma ReleaseMoves<S(!new)>(p: Policy<S>, cfg: Config, s: State<S>, c: nat)
    requires Busy(p, cfg, s, c) && Places(p, s)
    ensures Moves(p, s, Requeue(p, cfg, Charge(p, cfg, s, c), c), s.cores[c].running.value)
  {
    var id := s.cores[c].running.value;
    forall k {:trigger s.scheds[k]} | 0 <= k < |s.scheds|
      ensures p.ready(s.scheds[k])[id] == 0
    {
    }
  }

  lemma ReleaseAccounted<S(!new)>(p: Policy<S>, s: State<S>, r: State<S>, c: nat)
    requires Accounted(s) && Places(p, s) && ChargeInBounds(s, c)
    requires r.now == s.now && |r.cores| == |s.cores|
    requires forall k {:trigger r.cores[k]} :: 0 <= k < |s.cores| ==> r.cores[k].since == s.cores[k].since
    requires var id, t := s.cores[c].running.value, s.tasks[s.cores[c].running.value];
             && id in r.place && r.place[id].Queued? && r.place == s.place[id := r.place[id]]
             && r.tasks == s.tasks[id := t.Execute(s.now - s.cores[c].since)
                                          .(preemptions := t.preemptions + 1).MarkReady(s.now)]
    ensures Accounted(r)
  {
    var id := s.cores[c].running.value;
    assert TaskOk(s, id);
    AccountedUpdate(p, s, r, id);
  }

  /** The running task is charged and, with at most 0.001 left, completes. */
  lemma FinishKeeps<S(!new)>(p: Policy<S>, cfg: Config, s: State<S>, c: nat)
    requires InvBut(p, cfg, s, c) && Busy(p, cfg, s, c) && ChargeInBounds(s, c)
    requires Charge(p, cfg, s, c).tasks[s.cores[c].running.value].IsCompleted()
    ensures Inv(p, cfg, Complete(p, cfg, Charge(p, cfg, s, c), c))
    ensures Complete(p, cfg, Charge(p, cfg, s, c), c).cores[c].running.None?
  {
    hide Accounted, Timers, Clock, Places, Lawful;
    var id := s.cores[c].running.value;
    var r := Complete(p, cfg, Charge(p, cfg, s, c), c);
    assert id in s.place && s.place[id] == OnCore(c) by { RunningIsPlaced(p, s, c); }
    assert Moves(p, s, r, id) by { FinishMoves(p, cfg, s, c); }
    PlacesUpdate(p, s, r, id);
    ClockUpdate(s, r, id, []);
    FinishAccounted(p, s, r, c);
    TimersUpdate(p, s, r, id, c, c, -1);
  }

  lemma FinishMoves<S(!new)>(p: Policy<S>, cfg: Config, s: State<S>, c: nat)
    requires Busy(p, cfg, s, c) && Places(p, s)
    ensures Moves(p, s, Complete(p, cfg, Charge(p, cfg, s, c), c), s.cores[c].running.value)
  {
    var id := s.cores[c].running.value;
    forall k {:trigger s.scheds[k]} | 0 <= k < |s.scheds|
      ensures p.ready(s.scheds[k])[id] == 0
    {
    }
  }

  lemma FinishAccounted<S(!new)>(p: Policy<S>, s: State<S>, r: State<S>, c: nat)
    requires Accounted(s) && Places(p, s) && ChargeInBounds(s, c)
    requires r.now == s.now && |r.cores| == |s.cores|
    requires forall k {:trigger r.cores[k]} :: 0 <= k < |s.cores| ==> r.cores[k].since == s.cores[k].since
    requires var id, t := s.cores[c].running.value, s.tasks[s.cores[c].running.value];
             && id in r.place && r.place == s.place[id := Finished]
             && r.tasks == s.tasks[id := t.Execute(s.now - s.cores[c].since).Complete(s.now)]
             && t.Execute(s.now - s.cores[c].since).IsCompleted()
    ensures Accounted(r)
  {
    var id := s.cores[c].running.value;
    assert TaskOk(s, id);
    AccountedUpdate(p, s, r, id);
  }

  /** A queued task starts on an idle core with a positive slice. */
  lemma LaunchKeeps<S(!new)>(p: Policy<S>, cfg: Config, s: State<S>, c: nat, q: nat, d: Decision)
    requires Inv(p, cfg, s) && c < cfg.cores && s.cores[c].running.None? && q < cfg.Queues()
    requires d.id in p.ready(s.scheds[q])
    ensures d.id in s.tasks
    ensures Inv(p, cfg, Launch(p, cfg, RemoveFrom(p, cfg, s, d.id, q), c, d))
  {
    hide Accounted, Timers, Clock, Places, Lawful;
    var id := d.id;
    assert id in s.place && s.place[id] == Queued(q) by { ReadyIsPlaced(p, s, q, id); }
    var r := Launch(p, cfg, RemoveFrom(p, cfg, s, id, q), c, d);
    assert Moves(p, s, r, id) by { LaunchMoves(p, cfg, s, c, q, d); }
    PlacesUpdate(p, s, r, id);
    assert s.tasks[id].remaining >= 0.0 && s.now >= 0.0 by { Nonnegative(s, id); }
    LaunchAccounted(p, s, r, c, id);
    ClockUpdate(s, r, id, [TimeSlice(Deadline(r.cores[c], r.tasks[id]), id, c)]);
    TimersUpdate(p, s, r, id, c, -1, -1);
  }

  lemma ReadyIsPlaced<S(!new)>(p: Policy<S>, s: State<S>, q: nat, id: TaskId)
    requires Places(p, s) && q < |s.scheds| && id in p.ready(s.scheds[q])
    ensures id in s.place && s.place[id] == Queued(q) && p.ready(s.scheds[q])[id] == 1
  {
  }

  lemma Nonnegative<S>(s: State<S>, id: TaskId)
    requires Accounted(s) && Clock(s) && id in s.tasks
    ensures s.tasks[id].remaining >= 0.0 && s.now >= 0.0
  {
    assert TaskOk(s, id);
  }

  lemma LaunchMoves<S(!new)>(p: Policy<S>, cfg: Config, s: State<S>, c: nat, q: nat, d: Decision)
    requires Shape(p, cfg, s) && Places(p, s) && c < cfg.cores && s.cores[c].running.None?
    requires q < cfg.Queues() && d.id in s.place && s.place[d.id] == Queued(q)
    ensures Moves(p, s, Launch(p, cfg, RemoveFrom(p, cfg, s, d.id, q), c, d), d.id)
  {
    forall k {:trigger s.scheds[k]} | 0 <= k < |s.scheds| && k != q
      ensures p.ready(s.scheds[k])[d.id] == 0
    {
    }
  }

  lemma LaunchAccounted<S(!new)>(p: Policy<S>, s: State<S>, r: State<S>, c: nat, id: TaskId)
    requires Accounted(s) && Places(p, s) && c < |s.cores| && s.cores[c].running.None?
    requires id in s.tasks && id in s.place && s.place[id].Queued?
    requires r.now == s.now && |r.cores| == |s.cores| && r.cores[c].since == s.now && s.now >= 0.0
    requires forall k {:trigger r.cores[k]} :: 0 <= k < |s.cores| && k != c ==> r.cores[k].since == s.cores[k].since
    requires r.tasks == s.tasks[id := s.tasks[id].MarkDispatched(s.now).Begin(s.now)]
    requires r.place == s.place[id := OnCore(c)]
    ensures Accounted(r)
  {
    assert TaskOk(s, id);
    AccountedUpdate(p, s, r, id);
  }

  /** A queued task changes queues. */
  lemma MigrateKeeps<S(!new)>(p: Policy<S>, cfg: Config, s: State<S>, v: nat, q: nat, id: TaskId)
    requires Inv(p, cfg, s) && v < cfg.Queues() && q < cfg.Queues() && v != q && id in p.ready(s.scheds[v])
    ensures id in s.tasks
    ensures Inv(p, cfg, AddTo(p, cfg, RemoveFrom(p, cfg, s, id, v), id, q))
  {
    hide Accounted, Timers, Clock, Places, Lawful;
    assert id in s.place && s.place[id] == Queued(v) by { ReadyIsPlaced(p, s, v, id); }
    var r := AddTo(p, cfg, RemoveFrom(p, cfg, s, id, v), id, q);
    assert Moves(p, s, r, id) by { MigrateMoves(p, cfg, s, v, q, id); }
    PlacesUpdate(p, s, r, id);
    ClockUpdate(s, r, id, []);
    MigrateAccounted(p, s, r, id);
    SameTimers(s, r);
  }

  lemma MigrateMoves<S(!new)>(p: Policy<S>, cfg: Config, s: State<S>, v: nat, q: nat, id: TaskId)
    requires Shape(p, cfg, s) && Places(p, s) && v < cfg.Queues() && q < cfg.Queues() && v != q
    requires id in s.place && s.place[id] == Queued(v)
    ensures Moves(p, s, AddTo(p, cfg, RemoveFrom(p, cfg, s, id, v), id, q), id)
  {
    forall k {:trigger s.scheds[k]} | 0 <= k < |s.scheds| && k != v
      ensures p.ready(s.scheds[k])[id] == 0
    {
    }
  }

  lemma MigrateAccounted<S(!new)>(p: Policy<S>, s: State<S>, r: State<S>, id: TaskId)
    requires Accounted(s) && Places(p, s) && id in s.tasks && id in s.place && s.place[id].Queued?
    requires r.tasks == s.tasks && r.cores == s.cores && r.now == s.now
    requires id in r.place && r.place[id].Queued? && r.place == s.place[id := r.place[id]]
    ensures Accounted(r)
  {
    assert TaskOk(s, id);
    AccountedUpdate(p, s, r, id);
  }

  lemma SameTimers<S>(s: State<S>, r: State<S>)
    requires Timers(s, -1) && r.cores == s.cores && r.tasks == s.tasks && r.now == s.now && r.events == s.events
    ensures Timers(r, -1)
  {
    forall c | 0 <= c < |r.cores|
      ensures Timed(r, c)
    {
      assert Timed(s, c);
    }
  }

  // ------------------------------------------------ what the handlers keep

  lemma IdleIsSame<S(!new)>(p: Policy<S>, cfg: Config, s: State<S>, c: nat)
    requires Shape(p, cfg, s) && c < cfg.cores && s.cores[c].running.None?
    ensures Idle(p, cfg, s, c) == s
  {
    assert s.cores[c := s.cores[c].(running := None)] == s.cores;
  }

  lemma StealKeeps<S(!new)>(p: Policy<S>, cfg: Config, s: State<S>, c: nat)
    requires Inv(p, cfg, s) && c < cfg.cores && s.cores[c].running.None? && !cfg.shared
    ensures Inv(p, cfg, Steal(p, cfg, s, c))
  {
    hide Accounted, Timers, Clock, Places, Lawful;
    IdleIsSame(p, cfg, s, c);
    var v := Busiest(p, s, c, cfg.cores);
    if v.Some? {
      var s2, d := StealIsLaunch(p, cfg, s, c, v.value);
      LaunchKeeps(p, cfg, s2, c, c, d);
    }
  }

  /** A successful steal is a migration of the victim's next task into core c's queue
      followed by an ordinary launch from that queue. */
  lemma StealIsLaunch<S(!new)>(p: Policy<S>, cfg: Config, s: State<S>, c: nat, v: nat) returns (s2: State<S>, d: Decision)
    requires Inv(p, cfg, s) && c < cfg.cores && s.cores[c].running.None? && !cfg.shared
    requires Busiest(p, s, c, cfg.cores) == Some(v)
    ensures LawfulDecision(p, s.scheds[v], p.schedule(s.scheds[v], s.attrs))
    ensures p.schedule(s.scheds[v], s.attrs).value.id in s.tasks
    ensures s2 == Stolen(p, cfg, s, c, v, p.schedule(s.scheds[v], s.attrs).value.id)
    ensures Inv(p, cfg, s2) && s2.cores == s.cores && s2.now == s.now
    ensures p.schedule(s2.scheds[c], s2.attrs) == Some(d)
    ensures LawfulDecision(p, s2.scheds[c], Some(d)) && d.id in s2.tasks
    ensures Steal(p, cfg, s, c) == Launch(p, cfg, RemoveFrom(p, cfg, s2, d.id, c), c, d)
  {
    hide Accounted, Timers, Clock, Places, Lawful;
    var x := p.schedule(s.scheds[v], s.attrs);
    Decides(p, s.scheds[v], s.attrs);
    MigrateKeeps(p, cfg, s, v, c, x.value.id);
    s2 := Stolen(p, cfg, s, c, v, x.value.id);
    CounterKeeps(p, cfg, AddTo(p, cfg, RemoveFrom(p, cfg, s, x.value.id, v), x.value.id, c), s2);
    StolenIsReady(p, cfg, s, c, v, x.value.id);
    Decides(p, s2.scheds[c], s2.attrs);
    d := p.schedule(s2.scheds[c], s2.attrs).value;
  }

  /** The state after a task moved from the victim's queue to core c's. */
  function Stolen<S(!new)>(p: Policy<S>, cfg: Config, s: State<S>, c: nat, v: nat, id: TaskId): State<S>
    requires Shape(p, cfg, s) && c < cfg.Queues() && v < cfg.Queues() && id in s.tasks
  {
    AddTo(p, cfg, RemoveFrom(p, cfg, s, id, v), id, c).(steals := s.steals + 1)
  }

  lemma StolenIsReady<S(!new)>(p: Policy<S>, cfg: Config, s: State<S>, c: nat, v: nat, id: TaskId)
    requires Shape(p, cfg, s) && c < cfg.Queues() && v < cfg.Queues() && v != c && id in s.tasks
    ensures p.ready(Stolen(p, cfg, s, c, v, id).scheds[c]) == p.ready(s.scheds[c]) + multiset{id}
    ensures |p.ready(Stolen(p, cfg, s, c, v, id).scheds[c])| == |p.ready(s.scheds[c])| + 1
  {
  }

  lemma Decides<S(!new)>(p: Policy<S>, x: S, attrs: Attrs)
    requires Lawful(p) && p.valid(x) && |p.ready(x)| > 0
    ensures LawfulDecision(p, x, p.schedule(x, attrs))
  {
  }

  /** A decision about a non-empty queue names a known task. */
  lemma NextIsKnown<S(!new)>(p: Policy<S>, cfg: Config, s: State<S>, q: nat)
    requires Shape(p, cfg, s) && q < cfg.Queues() && ReadyCount(p, s, q) > 0
    ensures LawfulDecision(p, s.scheds[q], p.schedule(s.scheds[q], s.attrs))
    ensures p.schedule(s.scheds[q], s.attrs).value.id in s.tasks
  {
    Decides(p, s.scheds[q], s.attrs);
  }

  /** Counters and the balancer's position are not part of the invariant. */
  lemma CounterKeeps<S(!new)>(p: Policy<S>, cfg: Config, s: State<S>, r: State<S>)
    requires Inv(p, cfg, s)
    requires r == s.(switches := r.switches, preemptions := r.preemptions, steals := r.steals, nextCore := r.nextCore)
    ensures Inv(p, cfg, r)
  {
    SamePlaces(p, s, r);
    LaterAccounted(s, r);
    SameTimers(s, r);
  }

  lemma DispatchKeeps<S(!new)>(p: Policy<S>, cfg: Config, s: State<S>, c: nat)
    requires Inv(p, cfg, s) && c < cfg.cores && s.cores[c].running.None?
    ensures Inv(p, cfg, Dispatch(p, cfg, s, c))
  {
    hide Accounted, Timers, Clock, Places, Lawful;
    IdleIsSame(p, cfg, s, c);
    var q := cfg.QueueOf(c);
    if ReadyCount(p, s, q) > 0 {
      Decides(p, s.scheds[q], s.attrs);
      LaunchKeeps(p, cfg, s, c, q, p.schedule(s.scheds[q], s.attrs).value);
    } else if cfg.stealing && !cfg.shared {
      StealKeeps(p, cfg, s, c);
    }
  }

  lemma PreemptKeeps<S(!new)>(p: Policy<S>, cfg: Config, s: State<S>, c: nat)
    requires Inv(p, cfg, s) && c < cfg.cores && s.cores[c].running.Some? && ChargeInBounds(s, c)
    ensures Inv(p, cfg, Preempt(p, cfg, s, c)) && Preempt(p, cfg, s, c).cores[c].running.None?
  {
    hide Accounted, Timers, Clock, Places, Lawful;
    var r := Requeue(p, cfg, Charge(p, cfg, s, c), c);
    assert Timers(s, c) by { OpenTimers(s, c); }
    ReleaseKeeps(p, cfg, s, c);
    CounterKeeps(p, cfg, r, Preempt(p, cfg, s, c));
  }

  lemma OpenTimers<S>(s: State<S>, c: nat)
    requires Timers(s, -1)
    ensures Timers(s, c)
  {
  }

  /** Whatever event is popped, every running task can be charged in bounds. */
  lemma BoundsAtPop<S(!new)>(p: Policy<S>, cfg: Config, s: State<S>, i: nat, c: nat)
    requires Inv(p, cfg, s) && Earliest(s.events, i) && c < cfg.cores && s.cores[c].running.Some?
    ensures ChargeInBounds(Pop(p, cfg, s, i), c)
  {
    ChargeBound(p, cfg, s, i, c);
  }

  lemma SharedArrivalKeeps<S(!new)>(p: Policy<S>, cfg: Config, s: State<S>, i: nat)
    requires Inv(p, cfg, s) && Earliest(s.events, i) && s.events[i].Arrival? && cfg.shared
    ensures s.events[i].id in s.tasks
    ensures Inv(p, cfg, SharedArrival(p, cfg, Pop(p, cfg, s, i), s.events[i].id))
  {
    hide Accounted, Timers, Clock, Places, Lawful;
    var u := Pop(p, cfg, s, i);
    var id := s.events[i].id;
    ArriveKeeps(p, cfg, s, i, 0);
    var s1 := Enqueue(p, cfg, u, id, 0);
    var idle := FirstIdle(s1, cfg.cores);
    if idle < cfg.cores {
      DispatchKeeps(p, cfg, s1, idle);
    } else {
      var victim := FirstPreempted(p, s1, id, cfg.cores);
      if victim < cfg.cores {
        ArrivalBounds(p, cfg, s, i, 0, victim);
        PreemptKeeps(p, cfg, s1, victim);
        DispatchKeeps(p, cfg, Preempt(p, cfg, s1, victim), victim);
      }
    }
  }

  lemma EnqueueCores<S(!new)>(p: Policy<S>, cfg: Config, s: State<S>, id: TaskId, q: nat)
    requires Shape(p, cfg, s) && id in s.tasks && q < cfg.Queues()
    ensures Enqueue(p, cfg, s, id, q).cores == s.cores
  {
  }

  /** The arriving task is not the one running. */
  lemma ArrivalBounds<S(!new)>(p: Policy<S>, cfg: Config, s: State<S>, i: nat, q: nat, c: nat)
    requires Inv(p, cfg, s) && Earliest(s.events, i) && s.events[i].Arrival? && q < cfg.Queues()
    requires c < cfg.cores && s.cores[c].running.Some? && s.events[i].id in s.tasks
    ensures ChargeInBounds(Enqueue(p, cfg, Pop(p, cfg, s, i), s.events[i].id, q), c)
  {
    BoundsAtPop(p, cfg, s, i, c);
    assert s.events[i] in s.events && Awaits(s, s.events[i]);
    RunningIsPlaced(p, s, c);
  }

  /** The arriving task on the core it is assigned to, wherever the balancer stands next. */
  lemma AssignedKeeps<S(!new)>(p: Policy<S>, cfg: Config, s: State<S>, i: nat, c: nat, next: nat)
    requires Inv(p, cfg, s) && Earliest(s.events, i) && s.events[i].Arrival? && !cfg.shared && c < cfg.cores
    ensures s.events[i].id in s.tasks
    ensures var s1 := Enqueue(p, cfg, Pop(p, cfg, s, i).(nextCore := next), s.events[i].id, c);
            && Inv(p, cfg, s1)
            && (s1.cores[c].running.Some? ==> ChargeInBounds(s1, c))
  {
    hide Accounted, Timers, Clock, Places, Lawful, Enqueue;
    var s' := s.(nextCore := next);
    CounterKeeps(p, cfg, s, s');
    ArriveKeeps(p, cfg, s', i, c);
    assert Pop(p, cfg, s', i) == Pop(p, cfg, s, i).(nextCore := next);
    EnqueueCores(p, cfg, Pop(p, cfg, s', i), s.events[i].id, c);
    if s.cores[c].running.Some? {
      ArrivalBounds(p, cfg, s', i, c, c);
    }
  }

  lemma PerCoreArrivalKeeps<S(!new)>(p: Policy<S>, cfg: Config, s: State<S>, i: nat)
    requires Inv(p, cfg, s) && Earliest(s.events, i) && s.events[i].Arrival? && !cfg.shared
    ensures s.events[i].id in s.tasks
    ensures Inv(p, cfg, PerCoreArrival(p, cfg, Pop(p, cfg, s, i), s.events[i].id))
  {
    hide Accounted, Timers, Clock, Places, Lawful, Enqueue, Dispatch, Preempt, Target;
    var id := s.events[i].id;
    var u := Pop(p, cfg, s, i);
    var c := Target(p, cfg, u);
    var next := if cfg.balancer.RoundRobin? then (u.nextCore + 1) % cfg.cores else u.nextCore;
    AssignedKeeps(p, cfg, s, i, c, next);
    var s1 := Enqueue(p, cfg, u.(nextCore := next), id, c);
    if s1.cores[c].running.None? {
      DispatchKeeps(p, cfg, s1, c);
    } else if p.preempts(s1.scheds[c], s1.attrs, id, s1.cores[c].running.value) {
      PreemptKeeps(p, cfg, s1, c);
      DispatchKeeps(p, cfg, Preempt(p, cfg, s1, c), c);
    }
  }

  lemma TimerKeeps<S(!new)>(p: Policy<S>, cfg: Config, s: State<S>, i: nat)
    requires Inv(p, cfg, s) && Earliest(s.events, i) && s.events[i].TimeSlice?
    ensures s.events[i].id in s.tasks && s.events[i].core < cfg.cores
    ensures Inv(p, cfg, TimerFires(p, cfg, Pop(p, cfg, s, i), s.events[i].id, s.events[i].core))
  {
    hide Accounted, Timers, Clock, Places, Lawful;
    var e := s.events[i];
    assert e in s.events;
    var u := Pop(p, cfg, s, i);
    PopTimer(p, cfg, s, i);
    if s.cores[e.core].running == Some(e.id) {
      BoundsAtPop(p, cfg, s, i, e.core);
      var s1 := Charge(p, cfg, u, e.core);
      if s1.tasks[e.id].IsCompleted() {
        FinishKeeps(p, cfg, u, e.core);
        DispatchKeeps(p, cfg, Complete(p, cfg, s1, e.core), e.core);
      } else {
        ReleaseKeeps(p, cfg, u, e.core);
        DispatchKeeps(p, cfg, Requeue(p, cfg, s1, e.core), e.core);
      }
    }
  }

  /** Every step keeps the invariant, whichever earliest event is taken. */
  lemma StepKeeps<S(!new)>(p: Policy<S>, cfg: Config, s: State<S>, i: nat)
    requires Inv(p, cfg, s) && Earliest(s.events, i)
    ensures Inv(p, cfg, Step(p, cfg, s, i))
    ensures s.now <= Step(p, cfg, s, i).now == s.events[i].time
  {
    hide Accounted, Timers, Places, Lawful;
    PopLater(s, i);
    hide Clock;
    if s.events[i].TimeSlice? {
      TimerKeeps(p, cfg, s, i);
    } else if cfg.shared {
      SharedArrivalKeeps(p, cfg, s, i);
    } else {
      PerCoreArrivalKeeps(p, cfg, s, i);
    }
  }

  /** Every state of every run satisfies the invariant. */
  lemma {:induction false} RunKeeps<S(!new)>(p: Policy<S>, cfg: Config, s: State<S>, choices: seq<nat>, stop: real)
    requires Inv(p, cfg, s) && Run(p, cfg, s, choices, stop)
    ensures Inv(p, cfg, After(p, cfg, s, choices, stop))
    ensures s.now <= After(p, cfg, s, choices, stop).now
    decreases |choices|
  {
    hide Accounted, Timers, Clock, Places, Lawful;
    if choices != [] {
      StepKeeps(p, cfg, s, choices[0]);
      RunKeeps(p, cfg, Step(p, cfg, s, choices[0]), choices[1..], stop);
    }
  }
}

/** A lane is one core with its own queue.  Whatever a per-core engine does, a lane sees
    one of three moves: a task arrives, its timer fires, or something happens elsewhere. */
module Lanes {
  import opened Common
  import opened Tasks
  import opened Policies

  datatype Lane<S> = Lane(sched: S, attrs: Attrs, running: Option<TaskId>, granted: real)

  /** cpu is the time to charge to the running task.  A timer whose task finished with
      nothing left in the queue may bring in a stolen task, given with its unstarted flag;
      a move elsewhere may steal a task from this lane and change other tasks' fields. */
  datatype Move =
    | Arrive(id: TaskId, cpu: real)
    | Timer(cpu: real, done: bool, stolen: Option<(TaskId, bool)>)
    | Outside(lost: Option<TaskId>, attrs: Attrs)

  function Admit<S>(p: Policy<S>, d: Lane<S>, id: TaskId, unstarted: bool): Lane<S> {
    var x := p.add(d.sched, d.attrs, id, unstarted);
    d.(sched := x.0, attrs := x.1)
  }

  /** The running task is charged and leaves the core. */
  function Release<S>(p: Policy<S>, d: Lane<S>, cpu: real): Lane<S>
    requires d.running.Some?
  {
    var x := p.charge(d.sched, d.attrs, d.running.value, cpu);
    d.(sched := x.0, attrs := x.1, running := None)
  }

  /** The scheduler's choice starts; slice0 is the engine's default slice. */
  function Begin<S>(p: Policy<S>, slice0: real, d: Lane<S>): Lane<S> {
    var x := p.schedule(d.sched, d.attrs);
    if |p.ready(d.sched)| > 0 && x.Some? then
      d.(sched := p.remove(d.sched, x.value.id), running := Some(x.value.id),
         granted := if x.value.slice > 0.0 then x.value.slice else slice0)
    else d.(running := None)
  }

  /** Task id, just queued, displaces the running one. */
  predicate Displaces<S>(p: Policy<S>, d: Lane<S>, id: TaskId) {
    d.running.Some? && p.preempts(d.sched, d.attrs, id, d.running.value)
  }

  predicate Charges<S>(p: Policy<S>, d: Lane<S>, m: Move) {
    match m
    case Arrive(id, _) => Displaces(p, Admit(p, d, id, true), id)
    case Timer(_, _, _) => true
    case Outside(_, _) => false
  }

  /** The time a move charges on the core. */
  function Cpu<S>(p: Policy<S>, d: Lane<S>, m: Move): real {
    if Charges(p, d, m) && !m.Outside? then m.cpu else 0.0
  }

  /** Move m is possible: a charge stays within the slice, and what happens elsewhere leaves
      the fields of this lane's tasks alone. */
  ghost predicate Can<S>(p: Policy<S>, d: Lane<S>, m: Move) {
    match m
    case Arrive(id, cpu) =>
      && id !in p.ready(d.sched) && d.running != Some(id)
      && (Charges(p, d, m) ==> 0.0 <= cpu <= d.granted)
    case Timer(cpu, done, stolen) =>
      && d.running.Some? && 0.0 <= cpu <= d.granted
      && (stolen.Some? ==> done && |p.ready(d.sched)| == 0)
    case Outside(lost, attrs) =>
      && (lost.Some? ==> lost.value in p.ready(d.sched))
      && (forall x :: SameWeight(d.attrs, attrs, x)
            && ((x in p.ready(d.sched) && lost != Some(x)) || d.running == Some(x) ==> SameAttr(d.attrs, attrs, x)))
  }

  ghost function Next<S>(p: Policy<S>, slice0: real, d: Lane<S>, m: Move): Lane<S>
    requires Can(p, d, m)
  {
    match m
    case Arrive(id, cpu) =>
      var d1 := Admit(p, d, id, true);
      if d1.running.None? then Begin(p, slice0, d1)
      else if Charges(p, d, m) then
        Begin(p, slice0, Admit(p, Release(p, d1, cpu), d1.running.value, false))
      else d1
    case Timer(cpu, done, stolen) =>
      var d1 := Release(p, d, cpu);
      var d2 := if !done then Admit(p, d1, d.running.value, false)
                else if stolen.Some? then Admit(p, d1, stolen.value.0, stolen.value.1)
                else d1;
      Begin(p, slice0, d2)
    case Outside(lost, attrs) =>
      d.(sched := if lost.Some? then p.remove(d.sched, lost.value) else d.sched, attrs := attrs)
  }

  /** Ready tasks are ready once and not running. */
  ghost predicate Sound<S(!new)>(p: Policy<S>, d: Lane<S>) {
    && Lawful(p) && p.valid(d.sched)
    && (forall id :: p.ready(d.sched)[id] <= 1)
    && (d.running.Some? ==> d.running.value !in p.ready(d.sched) && d.granted > 0.0)
  }

  lemma AdmitSound<S(!new)>(p: Policy<S>, d: Lane<S>, id: TaskId, unstarted: bool)
    requires Sound(p, d) && id !in p.ready(d.sched) && d.running != Some(id)
    ensures Sound(p, Admit(p, d, id, unstarted))
    ensures p.ready(Admit(p, d, id, unstarted).sched) == p.ready(d.sched) + multiset{id}
  {
  }

  lemma ReleaseSound<S(!new)>(p: Policy<S>, d: Lane<S>, cpu: real)
    requires Sound(p, d) && d.running.Some?
    ensures Sound(p, Release(p, d, cpu))
    ensures p.ready(Release(p, d, cpu).sched) == p.ready(d.sched)
  {
  }

  lemma BeginSound<S(!new)>(p: Policy<S>, slice0: real, d: Lane<S>)
    requires Sound(p, d) && d.running.None? && slice0 > 0.0
    ensures Sound(p, Begin(p, slice0, d))
    ensures |p.ready(d.sched)| > 0 ==>
              && LawfulDecision(p, d.sched, p.schedule(d.sched, d.attrs))
              && var x := p.schedule(d.sched, d.attrs).value;
                 && Begin(p, slice0, d).running == Some(x.id)
                 && p.ready(Begin(p, slice0, d).sched) == p.ready(d.sched)[x.id := 0]
    ensures |p.ready(d.sched)| == 0 ==> Begin(p, slice0, d) == d
  {
    if |p.ready(d.sched)| > 0 {
      assert LawfulDecision(p, d.sched, p.schedule(d.sched, d.attrs));
    }
  }

  lemma OutsideSound<S(!new)>(p: Policy<S>, slice0: real, d: Lane<S>, lost: Option<TaskId>, attrs: Attrs)
    requires Sound(p, d) && Can(p, d, Outside(lost, attrs))
    ensures Sound(p, Next(p, slice0, d, Outside(lost, attrs)))
  {
  }

  // ------------------------------------------------ scheduler calls

  /** The calls a lane's scheduler receives; Charged takes the running task off the core,
      Picked asks for the next one, Apart is what happens outside the lane. */
  datatype Call = Added(id: TaskId, unstarted: bool) | Charged(cpu: real) | Picked | Apart(lost: Option<TaskId>, attrs: Attrs)

  ghost predicate Allowed<S>(p: Policy<S>, d: Lane<S>, call: Call) {
    match call
    case Added(id, _) => id !in p.ready(d.sched) && d.running != Some(id)
    case Charged(cpu) => d.running.Some? && 0.0 <= cpu <= d.granted
    case Picked => d.running.None?
    case Apart(lost, attrs) => Can(p, d, Outside(lost, attrs))
  }

  ghost function Do<S>(p: Policy<S>, slice0: real, d: Lane<S>, call: Call): Lane<S>
    requires Allowed(p, d, call)
  {
    match call
    case Added(id, unstarted) => Admit(p, d, id, unstarted)
    case Charged(cpu) => Release(p, d, cpu)
    case Picked => Begin(p, slice0, d)
    case Apart(lost, attrs) => Next(p, slice0, d, Outside(lost, attrs))
  }

  /** The calls can follow each other from d. */
  ghost predicate Trace<S>(p: Policy<S>, slice0: real, d: Lane<S>, calls: seq<Call>)
    decreases |calls|
  {
    calls == [] || (Allowed(p, d, calls[0]) && Trace(p, slice0, Do(p, slice0, d, calls[0]), calls[1..]))
  }

  ghost function End<S>(p: Policy<S>, slice0: real, d: Lane<S>, calls: seq<Call>): Lane<S>
    requires Trace(p, slice0, d, calls)
    decreases |calls|
  {
    if calls == [] then d else End(p, slice0, Do(p, slice0, d, calls[0]), calls[1..])
  }

  /** Task w is ready in every state of the trace. */
  ghost predicate Waits<S>(p: Policy<S>, slice0: real, d: Lane<S>, calls: seq<Call>, w: TaskId)
    requires Trace(p, slice0, d, calls)
    decreases |calls|
  {
    w in p.ready(d.sched)
    && (calls == [] || Waits(p, slice0, Do(p, slice0, d, calls[0]), calls[1..], w))
  }

  /** CPU time charged by the calls. */
  function Used(calls: seq<Call>): real {
    if calls == [] then 0.0 else (if calls[0].Charged? then calls[0].cpu else 0.0) + Used(calls[1..])
  }

  /** Slices charged by the calls. */
  function Slices(calls: seq<Call>): nat {
    if calls == [] then 0 else (if calls[0].Charged? then 1 else 0) + Slices(calls[1..])
  }

  lemma {:induction false} Joined<S>(p: Policy<S>, slice0: real, d: Lane<S>, a: seq<Call>, b: seq<Call>)
    requires Trace(p, slice0, d, a) && Trace(p, slice0, End(p, slice0, d, a), b)
    ensures Trace(p, slice0, d, a + b) && End(p, slice0, d, a + b) == End(p, slice0, End(p, slice0, d, a), b)
    ensures Used(a + b) == Used(a) + Used(b)
    ensures forall w :: Waits(p, slice0, d, a, w) && Waits(p, slice0, End(p, slice0, d, a), b, w) ==>
              Waits(p, slice0, d, a + b, w)
    decreases |a|
  {
    hide Allowed, Do;
    if a == [] {
      assert a + b == b;
    } else {
      assert (a + b)[1..] == a[1..] + b;
      Joined(p, slice0, Do(p, slice0, d, a[0]), a[1..], b);
    }
  }

  lemma One<S>(p: Policy<S>, slice0: real, d: Lane<S>, call: Call)
    requires Allowed(p, d, call)
    ensures Trace(p, slice0, d, [call]) && End(p, slice0, d, [call]) == Do(p, slice0, d, call)
    ensures Used([call]) == if call.Charged? then call.cpu else 0.0
    ensures forall w :: Waits(p, slice0, d, [call], w) <==>
              w in p.ready(d.sched) && w in p.ready(Do(p, slice0, d, call).sched)
  {
    hide Allowed, Do;
    assert [call][1..] == [];
  }

  /** A move made of the calls: same end, same charge, and a task ready at both ends was
      ready all along. */
  ghost predicate Expands<S>(p: Policy<S>, slice0: real, d: Lane<S>, r: Lane<S>, cpu: real, calls: seq<Call>) {
    && Trace(p, slice0, d, calls) && End(p, slice0, d, calls) == r && Used(calls) == cpu
    && forall w :: w in p.ready(d.sched) && w in p.ready(r.sched) ==> Waits(p, slice0, d, calls, w)
  }

  lemma ExpandsIsTrace<S>(p: Policy<S>, slice0: real, d: Lane<S>, r: Lane<S>, cpu: real, calls: seq<Call>)
    requires Expands(p, slice0, d, r, cpu, calls)
    ensures Trace(p, slice0, d, calls) && End(p, slice0, d, calls) == r && Used(calls) == cpu
  {
  }

  /** One more call after those of an expansion; w may leave only by the last call. */
  lemma Extend<S>(p: Policy<S>, slice0: real, d: Lane<S>, u: Lane<S>, cpu: real, calls: seq<Call>, call: Call)
    requires Expands(p, slice0, d, u, cpu, calls) && Allowed(p, u, call)
    requires forall w :: w in p.ready(d.sched) && w in p.ready(Do(p, slice0, u, call).sched) ==> w in p.ready(u.sched)
    ensures Expands(p, slice0, d, Do(p, slice0, u, call), cpu + (if call.Charged? then call.cpu else 0.0), calls + [call])
  {
    hide Allowed, Do;
    One(p, slice0, u, call);
    Joined(p, slice0, d, calls, [call]);
  }

  lemma Nothing<S>(p: Policy<S>, slice0: real, d: Lane<S>)
    ensures Expands(p, slice0, d, d, 0.0, [])
  {
  }

  /** The calls a move is made of. */
  function MoveCalls<S>(p: Policy<S>, d: Lane<S>, m: Move): seq<Call> {
    match m
    case Arrive(id, cpu) =>
      [Added(id, true)] + (if d.running.None? then [Picked]
                           else if Charges(p, d, m) then [Charged(cpu), Added(d.running.value, false), Picked]
                           else [])
    case Timer(cpu, done, stolen) =>
      [Charged(cpu)] + (if !done && d.running.Some? then [Added(d.running.value, false)]
                        else if stolen.Some? then [Added(stolen.value.0, stolen.value.1)]
                        else []) + [Picked]
    case Outside(lost, attrs) => [Apart(lost, attrs)]
  }

  /** Charge the running task, put it back, dispatch. */
  lemma CycleCalls<S(!new)>(p: Policy<S>, slice0: real, d: Lane<S>, d1: Lane<S>, calls: seq<Call>, cpu: real)
    requires Sound(p, d1) && Expands(p, slice0, d, d1, 0.0, calls) && slice0 > 0.0
    requires d1.running.Some? && 0.0 <= cpu <= d1.granted
    requires d1.running.value !in p.ready(d.sched)
    ensures Expands(p, slice0, d, Begin(p, slice0, Admit(p, Release(p, d1, cpu), d1.running.value, false)), cpu,
                    calls + [Charged(cpu), Added(d1.running.value, false), Picked])
  {
    hide Lawful, Begin, Expands, Next;
    var id := d1.running.value;
    ReleaseSound(p, d1, cpu);
    Extend(p, slice0, d, d1, 0.0, calls, Charged(cpu));
    var d2 := Release(p, d1, cpu);
    AdmitSound(p, d2, id, false);
    Extend(p, slice0, d, d2, cpu, calls + [Charged(cpu)], Added(id, false));
    var d3 := Admit(p, d2, id, false);
    BeginSound(p, slice0, d3);
    Extend(p, slice0, d, d3, cpu, calls + [Charged(cpu)] + [Added(id, false)], Picked);
    assert calls + [Charged(cpu)] + [Added(id, false)] + [Picked]
        == calls + [Charged(cpu), Added(id, false), Picked];
  }

  lemma CompletionCalls<S(!new)>(p: Policy<S>, slice0: real, d: Lane<S>, cpu: real, stolen: Option<(TaskId, bool)>)
    requires Sound(p, d) && Can(p, d, Timer(cpu, true, stolen)) && slice0 > 0.0
    ensures var m := Timer(cpu, true, stolen);
            Expands(p, slice0, d, Next(p, slice0, d, m), cpu, MoveCalls(p, d, m))
  {
    hide Lawful, Begin, Expands;
    Nothing(p, slice0, d);
    var calls := [] + [Charged(cpu)];
    ReleaseSound(p, d, cpu);
    Extend(p, slice0, d, d, 0.0, [], Charged(cpu));
    var d1 := Release(p, d, cpu);
    if stolen.Some? {
      var id, unstarted := stolen.value.0, stolen.value.1;
      AdmitSound(p, d1, id, unstarted);
      Extend(p, slice0, d, d1, cpu, calls, Added(id, unstarted));
      calls := calls + [Added(id, unstarted)];
      d1 := Admit(p, d1, id, unstarted);
    }
    BeginSound(p, slice0, d1);
    Extend(p, slice0, d, d1, cpu, calls, Picked);
    assert calls + [Picked] == MoveCalls(p, d, Timer(cpu, true, stolen));
  }

  lemma OutsideShrinks<S(!new)>(p: Policy<S>, slice0: real, d: Lane<S>, lost: Option<TaskId>, attrs: Attrs)
    requires Sound(p, d) && Can(p, d, Outside(lost, attrs))
    ensures forall w :: w in p.ready(Next(p, slice0, d, Outside(lost, attrs)).sched) ==> w in p.ready(d.sched)
  {
  }

  /** Every move is its short sequence of scheduler calls. */
  lemma MoveIsCalls<S(!new)>(p: Policy<S>, slice0: real, d: Lane<S>, m: Move)
    requires Sound(p, d) && Can(p, d, m) && slice0 > 0.0
    ensures Expands(p, slice0, d, Next(p, slice0, d, m), Cpu(p, d, m), MoveCalls(p, d, m))
  {
    hide Lawful, Begin, Expands;
    Nothing(p, slice0, d);
    match m
    case Arrive(id, cpu) =>
      AdmitSound(p, d, id, true);
      var d1 := Admit(p, d, id, true);
      Extend(p, slice0, d, d, 0.0, [], Added(id, true));
      assert [] + [Added(id, true)] == [Added(id, true)];
      if d1.running.None? {
        BeginSound(p, slice0, d1);
        Extend(p, slice0, d, d1, 0.0, [Added(id, true)], Picked);
        assert MoveCalls(p, d, m) == [Added(id, true)] + [Picked];
      } else if Charges(p, d, m) {
        CycleCalls(p, slice0, d, d1, [Added(id, true)], cpu);
      } else {
        assert MoveCalls(p, d, m) == [Added(id, true)];
      }
    case Timer(cpu, done, stolen) =>
      if done {
        CompletionCalls(p, slice0, d, cpu, stolen);
      } else {
        CycleCalls(p, slice0, d, d, [], cpu);
        assert [] + [Charged(cpu), Added(d.running.value, false), Picked] == MoveCalls(p, d, m);
      }
    case Outside(lost, attrs) =>
      OutsideShrinks(p, slice0, d, lost, attrs);
      Extend(p, slice0, d, d, 0.0, [], Apart(lost, attrs));
      assert [] + [Apart(lost, attrs)] == [Apart(lost, attrs)];
  }

  // ------------------------------------------------ a lane alone

  /** Which tasks are still to arrive, and which one was charged and not yet put back. */
  datatype Roster = Roster(awaited: set<TaskId>, left: Option<TaskId>)

  function Members(ids: seq<TaskId>): set<TaskId> {
    set x | x in ids
  }

  /** Task x has arrived and, as far as the calls tell, not completed. */
  predicate Active<S>(p: Policy<S>, d: Lane<S>, roster: Roster, x: TaskId) {
    x in p.ready(d.sched) || d.running == Some(x) || roster.left == Some(x)
  }

  /** On a core with no other core around, only awaited tasks arrive, only the task just
      charged comes back, and nothing happens apart. */
  ghost predicate Expected<S>(d: Lane<S>, roster: Roster, call: Call) {
    match call
    case Added(id, unstarted) => if unstarted then id in roster.awaited else roster.left == Some(id)
    case Charged(_) => roster.left.None?
    case Picked => true
    case Apart(lost, attrs) => lost.None? && attrs == d.attrs
  }

  function Follow<S>(d: Lane<S>, roster: Roster, call: Call): Roster {
    match call
    case Added(id, unstarted) => if unstarted then roster.(awaited := roster.awaited - {id}) else roster.(left := None)
    case Charged(_) => roster.(left := d.running)
    case Picked => roster.(left := None)
    case Apart(_, _) => roster
  }

  ghost predicate Alone<S>(p: Policy<S>, slice0: real, d: Lane<S>, roster: Roster, calls: seq<Call>)
    requires Trace(p, slice0, d, calls)
    decreases |calls|
  {
    calls == [] || (Expected(d, roster, calls[0])
                    && Alone(p, slice0, Do(p, slice0, d, calls[0]), Follow(d, roster, calls[0]), calls[1..]))
  }

  ghost function LastRoster<S>(p: Policy<S>, slice0: real, d: Lane<S>, roster: Roster, calls: seq<Call>): Roster
    requires Trace(p, slice0, d, calls)
    decreases |calls|
  {
    if calls == [] then roster
    else LastRoster(p, slice0, Do(p, slice0, d, calls[0]), Follow(d, roster, calls[0]), calls[1..])
  }

  lemma {:induction false} JoinedAlone<S>(p: Policy<S>, slice0: real, d: Lane<S>, roster: Roster, a: seq<Call>, b: seq<Call>)
    requires Trace(p, slice0, d, a) && Trace(p, slice0, End(p, slice0, d, a), b)
    requires Alone(p, slice0, d, roster, a)
    requires Alone(p, slice0, End(p, slice0, d, a), LastRoster(p, slice0, d, roster, a), b)
    ensures Trace(p, slice0, d, a + b) && Alone(p, slice0, d, roster, a + b)
    ensures LastRoster(p, slice0, d, roster, a + b)
         == LastRoster(p, slice0, End(p, slice0, d, a), LastRoster(p, slice0, d, roster, a), b)
    decreases |a|
  {
    hide Allowed, Do, Expected, Follow;
    Joined(p, slice0, d, a, b);
    if a == [] {
      assert a + b == b;
    } else {
      assert (a + b)[1..] == a[1..] + b;
      JoinedAlone(p, slice0, Do(p, slice0, d, a[0]), Follow(d, roster, a[0]), a[1..], b);
    }
  }

  /** A move that involves no other core. */
  ghost predicate AloneMove<S>(d: Lane<S>, awaited: set<TaskId>, m: Move) {
    match m
    case Arrive(id, _) => id in awaited
    case Timer(_, _, stolen) => stolen.None?
    case Outside(lost, attrs) => lost.None? && attrs == d.attrs
  }

  lemma NoCalls<S>(p: Policy<S>, slice0: real, d: Lane<S>, roster: Roster)
    ensures Alone(p, slice0, d, roster, []) && LastRoster(p, slice0, d, roster, []) == roster
  {
  }

  /** The first call of a trace. */
  lemma First<S>(p: Policy<S>, slice0: real, d: Lane<S>, roster: Roster, call: Call, rest: seq<Call>)
    requires Trace(p, slice0, d, [call] + rest)
    ensures Allowed(p, d, call) && Trace(p, slice0, Do(p, slice0, d, call), rest)
    ensures var d', roster' := Do(p, slice0, d, call), Follow(d, roster, call);
            && (Alone(p, slice0, d, roster, [call] + rest) <==> Expected(d, roster, call) && Alone(p, slice0, d', roster', rest))
            && LastRoster(p, slice0, d, roster, [call] + rest) == LastRoster(p, slice0, d', roster', rest)
  {
    hide Allowed, Do, Expected, Follow;
    assert ([call] + rest)[1..] == rest;
  }

  lemma CycleIsAlone<S>(p: Policy<S>, slice0: real, d: Lane<S>, awaited: set<TaskId>, cpu: real)
    requires d.running.Some? && Trace(p, slice0, d, [Charged(cpu), Added(d.running.value, false), Picked])
    ensures var calls := [Charged(cpu), Added(d.running.value, false), Picked];
            && Alone(p, slice0, d, Roster(awaited, None), calls)
            && LastRoster(p, slice0, d, Roster(awaited, None), calls) == Roster(awaited, None)
  {
    hide Allowed, Begin;
    var id := d.running.value;
    assert [Charged(cpu), Added(id, false), Picked] == [Charged(cpu)] + [Added(id, false), Picked];
    assert [Added(id, false), Picked] == [Added(id, false)] + [Picked] && [Picked] == [Picked] + [];
    First(p, slice0, d, Roster(awaited, None), Charged(cpu), [Added(id, false), Picked]);
    var d1 := Do(p, slice0, d, Charged(cpu));
    First(p, slice0, d1, Roster(awaited, Some(id)), Added(id, false), [Picked]);
    First(p, slice0, Do(p, slice0, d1, Added(id, false)), Roster(awaited, None), Picked, []);
  }

  lemma MoveIsAlone<S(!new)>(p: Policy<S>, slice0: real, d: Lane<S>, awaited: set<TaskId>, m: Move)
    requires AloneMove(d, awaited, m) && Can(p, d, m)
    requires Trace(p, slice0, d, MoveCalls(p, d, m))
    ensures Alone(p, slice0, d, Roster(awaited, None), MoveCalls(p, d, m))
    ensures LastRoster(p, slice0, d, Roster(awaited, None), MoveCalls(p, d, m))
         == Roster(if m.Arrive? then awaited - {m.id} else awaited, None)
  {
    hide Begin, Charges, Allowed;
    var roster := Roster(awaited, None);
    match m
    case Arrive(id, cpu) =>
      var rest := if d.running.None? then [Picked]
                  else if Charges(p, d, m) then [Charged(cpu), Added(d.running.value, false), Picked]
                  else [];
      First(p, slice0, d, roster, Added(id, true), rest);
      var d1 := Do(p, slice0, d, Added(id, true));
      if rest == [Picked] {
        assert [Picked] == [Picked] + [];
        First(p, slice0, d1, Roster(awaited - {id}, None), Picked, []);
      } else if rest != [] {
        CycleIsAlone(p, slice0, d1, awaited - {id}, cpu);
      }
    case Timer(cpu, done, stolen) =>
      if done {
        assert MoveCalls(p, d, m) == [Charged(cpu)] + [Picked] && [Picked] == [Picked] + [];
        First(p, slice0, d, roster, Charged(cpu), [Picked]);
        First(p, slice0, Do(p, slice0, d, Charged(cpu)), Roster(awaited, d.running), Picked, []);
      } else {
        assert MoveCalls(p, d, m) == [Charged(cpu), Added(d.running.value, false), Picked];
        CycleIsAlone(p, slice0, d, awaited, cpu);
      }
    case Outside(lost, attrs) =>
      assert [Apart(lost, attrs)] == [Apart(lost, attrs)] + [];
      First(p, slice0, d, roster, Apart(lost, attrs), []);
  }

  lemma DoSound<S(!new)>(p: Policy<S>, slice0: real, d: Lane<S>, call: Call)
    requires Sound(p, d) && Allowed(p, d, call) && slice0 > 0.0
    ensures Sound(p, Do(p, slice0, d, call))
  {
    hide Lawful, Begin;
    match call
    case Added(id, unstarted) => AdmitSound(p, d, id, unstarted);
    case Charged(cpu) => ReleaseSound(p, d, cpu);
    case Picked => BeginSound(p, slice0, d);
    case Apart(lost, attrs) => OutsideSound(p, slice0, d, lost, attrs);
  }

  /** The awaited and the active tasks are among ids, and no task is in two places. */
  ghost predicate Tidy<S(!new)>(p: Policy<S>, d: Lane<S>, roster: Roster, ids: set<TaskId>) {
    && Sound(p, d) && roster.awaited <= ids
    && (forall x :: Active(p, d, roster, x) ==> x in ids && x !in roster.awaited)
    && (roster.left.Some? ==> d.running.None? && roster.left.value !in p.ready(d.sched))
  }

  lemma {:induction false} TraceKeepsTidy<S(!new)>(p: Policy<S>, slice0: real, d: Lane<S>, roster: Roster, calls: seq<Call>, ids: set<TaskId>)
    requires Tidy(p, d, roster, ids) && slice0 > 0.0 && Trace(p, slice0, d, calls) && Alone(p, slice0, d, roster, calls)
    ensures Tidy(p, End(p, slice0, d, calls), LastRoster(p, slice0, d, roster, calls), ids)
    decreases |calls|
  {
    hide Tidy, Allowed, Do, Expected, Follow;
    if calls != [] {
      DoTidy(p, slice0, d, roster, calls[0], ids);
      TraceKeepsTidy(p, slice0, Do(p, slice0, d, calls[0]), Follow(d, roster, calls[0]), calls[1..], ids);
    }
  }

  lemma AddedActive<S(!new)>(p: Policy<S>, d: Lane<S>, roster: Roster, id: TaskId, unstarted: bool)
    requires p.ready(Admit(p, d, id, unstarted).sched) == p.ready(d.sched) + multiset{id}
    ensures forall x :: Active(p, Admit(p, d, id, unstarted), roster, x) <==> x == id || Active(p, d, roster, x)
  {
  }

  lemma PickedActive<S(!new)>(p: Policy<S>, slice0: real, d: Lane<S>, roster: Roster)
    requires Sound(p, d) && d.running.None? && slice0 > 0.0
    ensures forall x :: Active(p, Begin(p, slice0, d), roster.(left := None), x) ==> Active(p, d, roster, x)
  {
    hide Lawful, Begin;
    BeginSound(p, slice0, d);
    forall x
      ensures Active(p, Begin(p, slice0, d), roster.(left := None), x) ==> Active(p, d, roster, x)
    {
    }
  }

  lemma ChargedActive<S(!new)>(p: Policy<S>, d: Lane<S>, roster: Roster, cpu: real)
    requires Sound(p, d) && d.running.Some? && roster.left.None?
    ensures forall x :: Active(p, Release(p, d, cpu), roster.(left := d.running), x) <==> Active(p, d, roster, x)
  {
    ReleaseSound(p, d, cpu);
  }

  lemma DoTidy<S(!new)>(p: Policy<S>, slice0: real, d: Lane<S>, roster: Roster, call: Call, ids: set<TaskId>)
    requires Tidy(p, d, roster, ids) && Allowed(p, d, call) && Expected(d, roster, call) && slice0 > 0.0
    ensures Tidy(p, Do(p, slice0, d, call), Follow(d, roster, call), ids)
  {
    hide Lawful, Begin;
    DoSound(p, slice0, d, call);
    match call
    case Added(id, unstarted) =>
      AdmitSound(p, d, id, unstarted);
      assert roster.left.Some? ==> Active(p, d, roster, roster.left.value);
      AddedActive(p, d, roster, id, unstarted);
      forall x | Active(p, Do(p, slice0, d, call), Follow(d, roster, call), x)
        ensures x in ids && x !in Follow(d, roster, call).awaited
      {
        assert x == id || Active(p, d, roster, x);
        assert !unstarted ==> Active(p, d, roster, id);
      }
    case Charged(cpu) => ReleaseSound(p, d, cpu);
    case Picked => BeginSound(p, slice0, d);
    case Apart(lost, attrs) =>
  }

  predicate NoArrivals(calls: seq<Call>) {
    forall call :: call in calls ==> !(call.Added? && call.unstarted)
  }

  /** No task arrives after the first charge. */
  predicate Punctual(calls: seq<Call>) {
    calls == [] || if calls[0].Charged? then NoArrivals(calls[1..]) else Punctual(calls[1..])
  }

  /** Without stealing, only an arrival makes another task active, and a task that completes
      no longer is. */
  lemma NextActive<S(!new)>(p: Policy<S>, slice0: real, d: Lane<S>, m: Move, roster: Roster)
    requires Sound(p, d) && Can(p, d, m) && slice0 > 0.0 && roster.left.None? && (m.Timer? ==> m.stolen.None?)
    ensures forall x :: Active(p, Next(p, slice0, d, m), roster, x) ==>
              Active(p, d, roster, x) || (m.Arrive? && x == m.id)
    ensures m.Timer? && m.done ==> !Active(p, Next(p, slice0, d, m), roster, d.running.value)
  {
    hide Lawful, Begin, Charges;
    match m
    case Arrive(id, cpu) =>
      AdmitSound(p, d, id, true);
      var d1 := Admit(p, d, id, true);
      if d1.running.None? {
        BeginSound(p, slice0, d1);
      } else if Charges(p, d, m) {
        ReleaseSound(p, d1, cpu);
        AdmitSound(p, Release(p, d1, cpu), d1.running.value, false);
        BeginSound(p, slice0, Admit(p, Release(p, d1, cpu), d1.running.value, false));
      }
    case Timer(cpu, done, stolen) =>
      ReleaseSound(p, d, cpu);
      var d1 := Release(p, d, cpu);
      if !done {
        AdmitSound(p, d1, d.running.value, false);
        BeginSound(p, slice0, Admit(p, d1, d.running.value, false));
      } else {
        BeginSound(p, slice0, d1);
      }
    case Outside(lost, attrs) =>
      OutsideShrinks(p, slice0, d, lost, attrs);
  }
}

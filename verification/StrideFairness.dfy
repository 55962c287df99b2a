/** How evenly stride scheduling shares one core among tasks that are all there from the
    start. */
module StrideFairness {
  import opened Common
  import opened Tasks
  import opened Policies
  import opened Lanes
  import opened Stride

  function StrideOf(params: Params, attrs: Attrs, id: TaskId): nat {
    StrideFor(params, AttrOf(attrs, id).weight)
  }

  /** Task x is ahead of y by at most its own stride. */
  predicate Near(params: Params, attrs: Attrs, x: TaskId, y: TaskId) {
    Pass(attrs, x) <= Pass(attrs, y) + StrideOf(params, attrs, x)
  }

  /** No unfinished task is ahead of another by more than its own stride, and the running
      one is behind all that are ready. */
  ghost predicate Spread(params: Params, d: Lane<Sched>, roster: Roster)
    requires params.Valid()
  {
    && (forall x :: Active(Table(params), d, roster, x) ==> AttrOf(d.attrs, x).stride == StrideOf(params, d.attrs, x))
    && (forall x, y :: Active(Table(params), d, roster, x) && Active(Table(params), d, roster, y) ==>
          Near(params, d.attrs, x, y))
    && (forall x :: x in d.sched.queue ==> d.sched.globalPass <= Pass(d.attrs, x))
    && (d.running.Some? ==>
          && d.granted == params.quantum
          && d.sched.globalPass <= Pass(d.attrs, d.running.value)
          && forall x :: x in d.sched.queue ==> Pass(d.attrs, d.running.value) <= Pass(d.attrs, x))
  }

  lemma CallKeepsSpread(params: Params, slice0: real, d: Lane<Sched>, roster: Roster, call: Call, ids: set<TaskId>)
    requires params.Valid() && slice0 > 0.0 && Tidy(Table(params), d, roster, ids) && Spread(params, d, roster)
    requires Allowed(Table(params), d, call) && Expected(d, roster, call)
    requires !(call.Added? && call.unstarted)
    ensures Spread(params, Do(Table(params), slice0, d, call), Follow(d, roster, call))
  {
    hide Lawful;
    match call
    case Added(id, _) => ReaddKeepsSpread(params, d, roster, id);
    case Charged(cpu) => ChargeKeepsSpread(params, slice0, d, roster, cpu);
    case Picked => PickKeepsSpread(params, slice0, d, roster);
    case Apart(_, _) =>
  }

  lemma ReaddKeepsSpread(params: Params, d: Lane<Sched>, roster: Roster, id: TaskId)
    requires params.Valid() && Sound(Table(params), d) && Spread(params, d, roster)
    requires roster.left == Some(id) && d.running.None?
    ensures Spread(params, Admit(Table(params), d, id, false), roster.(left := None))
  {
    hide Lawful, Add, StrideFor;
    AddFacts(params, d.sched, d.attrs, id, false);
    var p, d', roster' := Table(params), Admit(Table(params), d, id, false), roster.(left := None);
    forall x
      ensures Active(p, d', roster', x) ==> Active(p, d, roster, x)
    {
    }
    forall x, y | Active(p, d', roster', x) && Active(p, d', roster', y)
      ensures Near(params, d'.attrs, x, y)
    {
      assert Near(params, d.attrs, x, y);
    }
  }

  lemma ChargeKeepsSpread(params: Params, slice0: real, d: Lane<Sched>, roster: Roster, cpu: real)
    requires params.Valid() && Sound(Table(params), d) && Spread(params, d, roster)
    requires d.running.Some? && 0.0 <= cpu <= d.granted && roster.left.None?
    ensures Spread(params, Release(Table(params), d, cpu), roster.(left := d.running))
  {
    hide Lawful, Charge, Advance, MinPass, StrideFor;
    var r := d.running.value;
    ChargeFacts(params, d.sched, d.attrs, r, cpu);
    var p, d', roster' := Table(params), Release(Table(params), d, cpu), roster.(left := d.running);
    if d.sched.queue != [] {
      MinPassLeast(d'.attrs, d.sched.queue);
    }
    ChargedActive(p, d, roster, cpu);
    forall x, y | Active(p, d', roster', x) && Active(p, d', roster', y)
      ensures Near(params, d'.attrs, x, y)
    {
      assert Near(params, d.attrs, x, y) && Active(p, d, roster, r);
    }
  }

  lemma PickKeepsSpread(params: Params, slice0: real, d: Lane<Sched>, roster: Roster)
    requires params.Valid() && slice0 > 0.0 && Sound(Table(params), d) && Spread(params, d, roster) && d.running.None?
    ensures Spread(params, Begin(Table(params), slice0, d), roster.(left := None))
  {
    hide Lawful, StrideFor, Near;
    var p := Table(params);
    if d.sched.queue != [] {
      var r := Choice(params, d.sched, d.attrs).value.id;
      ChoosesLeastPass(params, d.sched, d.attrs, d.sched.queue[0]);
      forall x | x in d.sched.queue
        ensures Pass(d.attrs, r) <= Pass(d.attrs, x)
      {
        ChoosesLeastPass(params, d.sched, d.attrs, x);
      }
      PickedActive(p, slice0, d, roster);
    }
  }

  // ------------------------------------------------ all arrivals first

  /** Nobody was charged yet. */
  ghost predicate Level(params: Params, d: Lane<Sched>, roster: Roster)
    requires params.Valid()
  {
    && roster.left.None? && d.sched.globalPass == 0
    && (d.running.Some? ==> d.granted == params.quantum)
    && forall x :: Active(Table(params), d, roster, x) ==>
         Pass(d.attrs, x) == 0 && AttrOf(d.attrs, x).stride == StrideOf(params, d.attrs, x)
  }

  lemma LevelIsSpread(params: Params, d: Lane<Sched>, roster: Roster)
    requires params.Valid() && Level(params, d, roster)
    ensures Spread(params, d, roster)
  {
    hide StrideFor;
    forall x, y | Active(Table(params), d, roster, x) && Active(Table(params), d, roster, y)
      ensures Near(params, d.attrs, x, y)
    {
    }
    forall x | x in d.sched.queue
      ensures Pass(d.attrs, x) == 0
    {
      assert Active(Table(params), d, roster, x);
    }
    assert d.running.Some? ==> Active(Table(params), d, roster, d.running.value);
  }

  lemma CallKeepsLevel(params: Params, slice0: real, d: Lane<Sched>, roster: Roster, call: Call)
    requires params.Valid() && slice0 > 0.0 && Sound(Table(params), d) && Level(params, d, roster)
    requires Allowed(Table(params), d, call) && Expected(d, roster, call) && !call.Charged?
    ensures Level(params, Do(Table(params), slice0, d, call), Follow(d, roster, call))
  {
    hide Lawful, Add, StrideFor;
    match call
    case Added(id, unstarted) =>
      AddFacts(params, d.sched, d.attrs, id, unstarted);
      AddedActive(Table(params), d, roster, id, unstarted);
    case Picked =>
      if d.sched.queue != [] {
        PickedActive(Table(params), slice0, d, roster);
      }
    case Apart(_, _) =>
  }

  /** Where a trace may go on from: no more arrivals, or nobody charged yet. */
  ghost predicate Phase(params: Params, d: Lane<Sched>, roster: Roster, calls: seq<Call>)
    requires params.Valid()
  {
    NoArrivals(calls) || (Level(params, d, roster) && Punctual(calls))
  }

  /** A charge is the end of the arrivals. */
  lemma NothingArrivesAfter(params: Params, d: Lane<Sched>, roster: Roster, calls: seq<Call>)
    requires params.Valid() && Phase(params, d, roster, calls) && calls != [] && calls[0].Charged?
    ensures NoArrivals(calls[1..])
  {
  }

  lemma PhaseStep(params: Params, slice0: real, d: Lane<Sched>, roster: Roster, calls: seq<Call>, ids: set<TaskId>)
    requires params.Valid() && slice0 > 0.0 && Tidy(Table(params), d, roster, ids) && Spread(params, d, roster)
    requires calls != [] && Phase(params, d, roster, calls)
    requires Allowed(Table(params), d, calls[0]) && Expected(d, roster, calls[0])
    ensures var d', roster' := Do(Table(params), slice0, d, calls[0]), Follow(d, roster, calls[0]);
            && Spread(params, d', roster') && Phase(params, d', roster', calls[1..])
            && (calls[0].Added? && calls[0].unstarted ==> Level(params, d, roster) && Level(params, d', roster'))
  {
    hide Sound, Level, Spread, Expected, Follow, Do, Allowed;
    assert calls[0] in calls;
    if NoArrivals(calls) || calls[0].Charged? {
      CallKeepsSpread(params, slice0, d, roster, calls[0], ids);
    } else {
      CallKeepsLevel(params, slice0, d, roster, calls[0]);
      LevelIsSpread(params, Do(Table(params), slice0, d, calls[0]), Follow(d, roster, calls[0]));
    }
  }

  /** If all tasks arrive before the first charge then no unfinished task is ever ahead of
      another by more than its own stride, whatever the weights and however slices are cut. */
  lemma {:induction false} PassesStayNear(params: Params, slice0: real, d: Lane<Sched>, roster: Roster,
                                          calls: seq<Call>, ids: set<TaskId>)
    requires params.Valid() && slice0 > 0.0 && Tidy(Table(params), d, roster, ids) && Spread(params, d, roster)
    requires Trace(Table(params), slice0, d, calls) && Alone(Table(params), slice0, d, roster, calls)
    requires Phase(params, d, roster, calls)
    ensures Spread(params, End(Table(params), slice0, d, calls), LastRoster(Table(params), slice0, d, roster, calls))
    decreases |calls|
  {
    hide Sound, Level, Spread, Expected, Follow, Do, Allowed, Phase, Tidy;
    if calls != [] {
      DoTidy(Table(params), slice0, d, roster, calls[0], ids);
      PhaseStep(params, slice0, d, roster, calls, ids);
      PassesStayNear(params, slice0, Do(Table(params), slice0, d, calls[0]), Follow(d, roster, calls[0]), calls[1..], ids);
    }
  }

  // ------------------------------------------------ whole quanta

  type Turns = map<TaskId, nat>

  function Whole(stride: nat, turns: nat): int {
    stride * turns
  }

  function TurnsOf(turns: Turns, id: TaskId): nat {
    if id in turns then turns[id] else 0
  }

  /** Nobody has been charged. */
  ghost predicate Blank(turns: Turns) {
    forall x: TaskId :: TurnsOf(turns, x) == 0
  }

  /** How often each task was charged. */
  ghost function Counts(params: Params, slice0: real, d: Lane<Sched>, calls: seq<Call>, turns: Turns): Turns
    requires params.Valid() && Trace(Table(params), slice0, d, calls)
    decreases |calls|
  {
    if calls == [] then turns
    else Counts(params, slice0, Do(Table(params), slice0, d, calls[0]), calls[1..], Counted(d, calls[0], turns))
  }

  function Counted(d: Lane<Sched>, call: Call, turns: Turns): Turns {
    if call.Charged? && d.running.Some? then
      turns[d.running.value := TurnsOf(turns, d.running.value) + 1]
    else turns
  }

  /** Only a task that completes is charged less than a quantum. */
  predicate WholeQuanta(params: Params, calls: seq<Call>) {
    forall i :: 0 <= i < |calls| && calls[i].Charged? && calls[i].cpu != params.quantum ==>
      i + 1 == |calls| || calls[i + 1].Picked?
  }

  ghost predicate SameWeights(d: Lane<Sched>, ids: set<TaskId>, weight: Weight) {
    forall x: TaskId :: x in ids ==> AttrOf(d.attrs, x).weight == weight
  }

  /** After a whole quantum the running task is not behind the global pass, so the clamp on
      returning tasks will not move it. */
  predicate KeepsUp(params: Params, d: Lane<Sched>, call: Call)
    requires params.Valid()
  {
    call.Charged? && d.running.Some? && call.cpu == params.quantum ==>
      var d' := Release(Table(params), d, call.cpu);
      d'.sched.globalPass <= Pass(d'.attrs, d.running.value)
  }

  ghost predicate AllKeepUp(params: Params, slice0: real, d: Lane<Sched>, calls: seq<Call>)
    requires params.Valid() && Trace(Table(params), slice0, d, calls)
    decreases |calls|
  {
    calls == [] || (KeepsUp(params, d, calls[0])
                    && AllKeepUp(params, slice0, Do(Table(params), slice0, d, calls[0]), calls[1..]))
  }

  /** Every unfinished task's pass is its number of quanta times its stride; a task that just
      completed may be short. */
  ghost predicate Tallied(params: Params, d: Lane<Sched>, roster: Roster, turns: Turns, short: bool)
    requires params.Valid()
  {
    && (forall x: TaskId :: Active(Table(params), d, roster, x) && !(short && roster.left == Some(x)) ==>
          InTally(params, d.attrs, turns, x))
    && (roster.left.Some? && !short ==> d.sched.globalPass <= Pass(d.attrs, roster.left.value))
  }

  predicate InTally(params: Params, attrs: Attrs, turns: Turns, x: TaskId) {
    Pass(attrs, x) == Whole(StrideOf(params, attrs, x), TurnsOf(turns, x))
  }

  lemma CallKeepsTally(params: Params, slice0: real, d: Lane<Sched>, roster: Roster, call: Call,
                       ids: set<TaskId>, turns: Turns, short: bool)
    requires params.Valid() && slice0 > 0.0 && Tidy(Table(params), d, roster, ids) && Spread(params, d, roster)
    requires Allowed(Table(params), d, call) && Expected(d, roster, call) && KeepsUp(params, d, call)
    requires Tallied(params, d, roster, turns, short)
    requires call.Added? && call.unstarted ==> Level(params, d, roster) && Blank(turns)
    requires short ==> call.Picked?
    ensures Tallied(params, Do(Table(params), slice0, d, call), Follow(d, roster, call), Counted(d, call, turns),
                    call.Charged? && call.cpu != params.quantum)
  {
    hide Lawful, StrideFor, Add, Charge, Advance, Spread, Whole, Level, KeepsUp;
    match call
    case Added(id, unstarted) => AddKeepsTally(params, d, roster, id, unstarted, ids, turns);
    case Charged(cpu) => ChargeKeepsTally(params, d, roster, cpu, ids, turns);
    case Picked => PickKeepsTally(params, slice0, d, roster, ids, turns, short);
    case Apart(_, _) =>
  }

  lemma PickKeepsTally(params: Params, slice0: real, d: Lane<Sched>, roster: Roster,
                       ids: set<TaskId>, turns: Turns, short: bool)
    requires params.Valid() && slice0 > 0.0 && Tidy(Table(params), d, roster, ids) && d.running.None?
    requires Tallied(params, d, roster, turns, short)
    ensures Tallied(params, Begin(Table(params), slice0, d), roster.(left := None), turns, false)
  {
    hide Lawful, StrideFor, Whole;
    var d', roster' := Begin(Table(params), slice0, d), roster.(left := None);
    PickedActive(Table(params), slice0, d, roster);
    BeginSound(Table(params), slice0, d);
    forall x: TaskId | Active(Table(params), d', roster', x)
      ensures InTally(params, d'.attrs, turns, x)
    {
      assert Active(Table(params), d, roster, x) && roster.left != Some(x);
      assert InTally(params, d.attrs, turns, x);
    }
  }

  lemma AddKeepsTally(params: Params, d: Lane<Sched>, roster: Roster, id: TaskId, unstarted: bool,
                      ids: set<TaskId>, turns: Turns)
    requires params.Valid() && Tidy(Table(params), d, roster, ids)
    requires Expected(d, roster, Added(id, unstarted)) && Tallied(params, d, roster, turns, false)
    requires unstarted ==> Level(params, d, roster) && Blank(turns)
    ensures Tallied(params, Admit(Table(params), d, id, unstarted), Follow(d, roster, Added(id, unstarted)), turns, false)
  {
    hide Lawful, StrideFor, Add, Sound;
    AddFacts(params, d.sched, d.attrs, id, unstarted);
    assert Table(params).ready(Admit(Table(params), d, id, unstarted).sched) == Table(params).ready(d.sched) + multiset{id};
    AddedActive(Table(params), d, roster, id, unstarted);
    assert !unstarted ==> Active(Table(params), d, roster, id);
    var d', roster' := Admit(Table(params), d, id, unstarted), Follow(d, roster, Added(id, unstarted));
    forall x: TaskId | Active(Table(params), d', roster', x)
      ensures InTally(params, d'.attrs, turns, x)
    {
      assert x == id || Active(Table(params), d, roster, x);
      assert Active(Table(params), d, roster, x) ==> InTally(params, d.attrs, turns, x);
    }
  }

  /** Exactly when a returning task stays in the tally: the global pass has not passed it. */
  lemma ReaddInTally(params: Params, d: Lane<Sched>, id: TaskId, turns: Turns)
    requires params.Valid() && InTally(params, d.attrs, turns, id)
    ensures InTally(params, Admit(Table(params), d, id, false).attrs, turns, id) <==> d.sched.globalPass <= Pass(d.attrs, id)
  {
    hide StrideFor, Whole, Add;
    AddFacts(params, d.sched, d.attrs, id, false);
  }

  lemma NearMeans(params: Params, attrs: Attrs, x: TaskId, y: TaskId)
    requires Near(params, attrs, x, y)
    ensures Pass(attrs, x) <= Pass(attrs, y) + StrideOf(params, attrs, x)
  {
  }

  /** A full quantum takes the running task past every ready one. */
  lemma FullQuantumLeads(params: Params, d: Lane<Sched>, roster: Roster, ids: set<TaskId>, weight: Weight)
    requires params.Valid() && Tidy(Table(params), d, roster, ids) && Spread(params, d, roster)
    requires d.running.Some? && d.granted == params.quantum && roster.left.None? && SameWeights(d, ids, weight)
    ensures var d' := Release(Table(params), d, params.quantum);
            d'.sched.globalPass <= Pass(d'.attrs, d.running.value)
  {
    hide Lawful, Charge, Advance, MinPass, StrideFor, Near, Sound;
    var r := d.running.value;
    var d' := Release(Table(params), d, params.quantum);
    ChargeFacts(params, d.sched, d.attrs, r, params.quantum);
    assert Active(Table(params), d, roster, r);
    if d.sched.queue != [] {
      MinPassLeast(d'.attrs, d.sched.queue);
      var y :| y in d.sched.queue && MinPass(d'.attrs, d.sched.queue) == Pass(d'.attrs, y);
      assert Active(Table(params), d, roster, y);
      NearMeans(params, d.attrs, y, r);
    }
  }

  lemma ChargeKeepsTally(params: Params, d: Lane<Sched>, roster: Roster, cpu: real, ids: set<TaskId>, turns: Turns)
    requires params.Valid() && Tidy(Table(params), d, roster, ids) && Spread(params, d, roster)
    requires d.running.Some? && 0.0 <= cpu <= d.granted && roster.left.None? && KeepsUp(params, d, Charged(cpu))
    requires Tallied(params, d, roster, turns, false)
    ensures Tallied(params, Release(Table(params), d, cpu), roster.(left := d.running), Counted(d, Charged(cpu), turns),
                    cpu != params.quantum)
  {
    hide Lawful, Charge, Advance, MinPass, StrideFor, Near, Updated, Whole;
    var r := d.running.value;
    ChargeFacts(params, d.sched, d.attrs, r, cpu);
    ChargedActive(Table(params), d, roster, cpu);
    assert Active(Table(params), d, roster, r);
    OneTurnMore(StrideOf(params, d.attrs, r), TurnsOf(turns, r));
    var d', turns' := Release(Table(params), d, cpu), Counted(d, Charged(cpu), turns);
    forall x: TaskId | Active(Table(params), d', roster.(left := d.running), x) && !(cpu != params.quantum && x == r)
      ensures InTally(params, d'.attrs, turns', x)
    {
      assert InTally(params, d.attrs, turns, x);
    }
  }

  lemma OneTurnMore(stride: nat, turns: nat)
    ensures Whole(stride, turns + 1) == Whole(stride, turns) + stride
  {
  }

  /** If all tasks arrive before the first charge, slices are whole and the clamp never moves
      anybody, every unfinished task's pass is its number of quanta times its own stride. */
  lemma {:induction false} TraceKeepsTally(params: Params, slice0: real, d: Lane<Sched>, roster: Roster, calls: seq<Call>,
                                           ids: set<TaskId>, turns: Turns, short: bool)
    returns (short': bool)
    requires params.Valid() && slice0 > 0.0 && Tidy(Table(params), d, roster, ids) && Spread(params, d, roster)
    requires Trace(Table(params), slice0, d, calls) && Alone(Table(params), slice0, d, roster, calls)
    requires Phase(params, d, roster, calls) && WholeQuanta(params, calls) && AllKeepUp(params, slice0, d, calls)
    requires NoArrivals(calls) || Blank(turns)
    requires short && calls != [] ==> calls[0].Picked?
    requires Tallied(params, d, roster, turns, short)
    ensures var d', roster' := End(Table(params), slice0, d, calls), LastRoster(Table(params), slice0, d, roster, calls);
            && Spread(params, d', roster')
            && Tallied(params, d', roster', Counts(params, slice0, d, calls, turns), short')
    decreases |calls|
  {
    hide Sound, Level, Spread, Expected, Follow, Do, Allowed, Phase, Tidy, Tallied, KeepsUp;
    if calls == [] {
      short' := short;
    } else {
      assert calls[0] in calls;
      var p, call := Table(params), calls[0];
      DoTidy(p, slice0, d, roster, call, ids);
      PhaseStep(params, slice0, d, roster, calls, ids);
      CallKeepsTally(params, slice0, d, roster, call, ids, turns, short);
      assert WholeQuanta(params, calls[1..]) by { RestWhole(params, calls); }
      assert NoArrivals(calls) ==> NoArrivals(calls[1..]);
      if call.Charged? {
        NothingArrivesAfter(params, d, roster, calls);
      }
      short' := TraceKeepsTally(params, slice0, Do(p, slice0, d, call), Follow(d, roster, call), calls[1..], ids,
                      Counted(d, call, turns), call.Charged? && call.cpu != params.quantum);
    }
  }

  lemma RestWhole(params: Params, calls: seq<Call>)
    requires WholeQuanta(params, calls) && calls != []
    ensures WholeQuanta(params, calls[1..])
    ensures calls[0].Charged? && calls[0].cpu != params.quantum && |calls| > 1 ==> calls[1].Picked?
  {
    forall i | 0 <= i < |calls[1..]| && calls[1..][i].Charged? && calls[1..][i].cpu != params.quantum
      ensures i + 1 == |calls[1..]| || calls[1..][i + 1].Picked?
    {
      assert calls[i + 1].Charged?;
    }
  }

  lemma WholeGrows(stride: nat, a: nat, b: nat)
    requires stride >= 1 && a < b
    ensures Whole(stride, a) < Whole(stride, b)
  {
    assert stride * (b - a) >= 1;
    assert stride * b == stride * a + stride * (b - a);
  }
}

/** Fairness of the completely fair scheduler on one core when all tasks are there from the
    start: virtual runtimes stay close, and unless the credit clamp can fire they are CPU
    time over weight. */
module CfsFairness {
  import opened Common
  import opened Tasks
  import opened Policies
  import opened Lanes
  import opened SingleQueue
  import opened Cfs

  /** The most by which the scan over n tasks can miss the least virtual runtime. */
  function Slack(n: nat): (r: real)
    ensures r >= 0.0
  {
    if n == 0 then 0.0 else (n - 1) as real * TOLERANCE
  }

  lemma SlackGrows(a: nat, b: nat)
    requires a <= b
    ensures Slack(a) <= Slack(b)
  {
  }

  /** Unfinished virtual runtimes, and the minimum kept by the scheduler, are within bound
      of each other; the running task is within slack of the least when dispatched. */
  ghost predicate Spread(params: Params, d: Lane<Sched>, roster: Roster, bound: real, slack: real)
    requires params.Valid()
  {
    && (forall x, y :: Active(Table(params), d, roster, x) && Active(Table(params), d, roster, y) ==>
          Near(d.attrs, x, y, bound))
    && (forall y :: Active(Table(params), d, roster, y) ==> d.sched.minVruntime <= Vruntime(d.attrs, y) + bound)
    && (d.running.Some? ==>
          forall y :: y in d.sched.queue ==> Vruntime(d.attrs, d.running.value) <= Vruntime(d.attrs, y) + slack)
  }

  predicate Near(attrs: Attrs, x: TaskId, y: TaskId, bound: real) {
    Vruntime(attrs, x) <= Vruntime(attrs, y) + bound
  }

  /** No charge adds more than delta to a virtual runtime. */
  predicate ChargeWithin(d: Lane<Sched>, call: Call, delta: real) {
    call.Charged? && d.running.Some? ==> Scaled(call.cpu, AttrOf(d.attrs, d.running.value).weight as real) <= delta
  }

  ghost predicate ChargesWithin(params: Params, slice0: real, d: Lane<Sched>, calls: seq<Call>, delta: real)
    requires params.Valid() && Trace(Table(params), slice0, d, calls)
    decreases |calls|
  {
    calls == [] || (ChargeWithin(d, calls[0], delta)
                    && ChargesWithin(params, slice0, Do(Table(params), slice0, d, calls[0]), calls[1..], delta))
  }

  lemma CallKeepsSpread(params: Params, slice0: real, d: Lane<Sched>, roster: Roster, call: Call, ids: set<TaskId>, delta: real)
    requires params.Valid() && slice0 > 0.0 && Tidy(Table(params), d, roster, ids) && delta >= 0.0
    requires Spread(params, d, roster, delta + Slack(|ids|), Slack(|ids|))
    requires Allowed(Table(params), d, call) && Expected(d, roster, call) && ChargeWithin(d, call, delta)
    requires !(call.Added? && call.unstarted)
    ensures Spread(params, Do(Table(params), slice0, d, call), Follow(d, roster, call), delta + Slack(|ids|), Slack(|ids|))
  {
    hide Lawful, Slack, Spread, ChargeWithin;
    match call
    case Added(id, _) => ReaddKeepsSpread(params, d, roster, id, delta + Slack(|ids|), Slack(|ids|));
    case Charged(cpu) => ChargeKeepsSpread(params, d, roster, cpu, delta, Slack(|ids|));
    case Picked => PickKeepsSpread(params, slice0, d, roster, delta + Slack(|ids|), ids);
    case Apart(_, _) => assert Do(Table(params), slice0, d, call) == d;
  }

  lemma ReaddKeepsSpread(params: Params, d: Lane<Sched>, roster: Roster, id: TaskId, bound: real, slack: real)
    requires params.Valid() && Sound(Table(params), d) && Spread(params, d, roster, bound, slack) && bound >= 0.0
    requires roster.left == Some(id) && d.running.None?
    ensures Spread(params, Admit(Table(params), d, id, false), roster.(left := None), bound, slack)
  {
    hide Lawful, Add, Credit;
    AddFacts(params, d.sched, d.attrs, id, false);
    var p, d', roster' := Table(params), Admit(Table(params), d, id, false), roster.(left := None);
    forall x
      ensures Active(p, d', roster', x) ==> Active(p, d, roster, x)
    {
    }
    forall x, y | Active(p, d', roster', x) && Active(p, d', roster', y)
      ensures Near(d'.attrs, x, y, bound)
    {
      assert Near(d.attrs, x, y, bound);
    }
  }

  lemma ChargeKeepsSpread(params: Params, d: Lane<Sched>, roster: Roster, cpu: real, delta: real, slack: real)
    requires params.Valid() && Sound(Table(params), d) && delta >= 0.0 && slack >= 0.0
    requires Spread(params, d, roster, delta + slack, slack)
    requires d.running.Some? && 0.0 <= cpu <= d.granted && roster.left.None? && ChargeWithin(d, Charged(cpu), delta)
    ensures Spread(params, Release(Table(params), d, cpu), roster.(left := d.running), delta + slack, slack)
  {
    hide Lawful, Charge, Scaled, MinVruntime;
    var r := d.running.value;
    ChargeFacts(params, d.sched, d.attrs, r, cpu);
    var p, d', roster' := Table(params), Release(Table(params), d, cpu), roster.(left := d.running);
    ChargedActive(p, d, roster, cpu);
    assert Active(p, d, roster, r);
    forall x, y | Active(p, d', roster', x) && Active(p, d', roster', y)
      ensures Near(d'.attrs, x, y, delta + slack)
    {
      assert Near(d.attrs, x, y, delta + slack);
    }
    if d.sched.queue != [] {
      MinVruntimeLeast(d'.attrs, d.sched.queue);
      var z :| z in d.sched.queue && MinVruntime(d'.attrs, d.sched.queue) == Vruntime(d'.attrs, z);
      assert Active(p, d, roster, z);
      forall y | Active(p, d', roster', y)
        ensures d'.sched.minVruntime <= Vruntime(d'.attrs, y) + (delta + slack)
      {
        assert Near(d'.attrs, z, y, delta + slack);
      }
    }
  }

  lemma PickKeepsSpread(params: Params, slice0: real, d: Lane<Sched>, roster: Roster, bound: real, ids: set<TaskId>)
    requires params.Valid() && slice0 > 0.0 && Tidy(Table(params), d, roster, ids)
    requires Spread(params, d, roster, bound, Slack(|ids|)) && d.running.None?
    ensures Spread(params, Begin(Table(params), slice0, d), roster.(left := None), bound, Slack(|ids|))
  {
    hide Lawful, Near, Slack;
    if d.sched.queue != [] {
      PickNearLeast(params, d, roster, ids);
      PickedActive(Table(params), slice0, d, roster);
    }
  }

  lemma PickNearLeast(params: Params, d: Lane<Sched>, roster: Roster, ids: set<TaskId>)
    requires params.Valid() && Tidy(Table(params), d, roster, ids) && d.sched.queue != []
    ensures forall y :: y in d.sched.queue ==>
              Vruntime(d.attrs, MinElement(Less(d.attrs), d.sched.queue)) <= Vruntime(d.attrs, y) + Slack(|ids|)
  {
    hide Lawful;
    forall x
      ensures x in d.sched.queue ==> x in ids
      ensures multiset(d.sched.queue)[x] <= 1
    {
      assert Table(params).ready(d.sched)[x] <= 1;
      assert x in d.sched.queue ==> Active(Table(params), d, roster, x);
    }
    DistinctFit(d.sched.queue, ids);
    SlackGrows(|d.sched.queue|, |ids|);
    forall y | y in d.sched.queue
      ensures Vruntime(d.attrs, MinElement(Less(d.attrs), d.sched.queue)) <= Vruntime(d.attrs, y) + Slack(|ids|)
    {
      ChoiceNearLeast(d.attrs, d.sched.queue, y);
    }
  }

  // ------------------------------------------------ all arrivals first

  /** Nobody was charged yet. */
  ghost predicate Level(params: Params, d: Lane<Sched>, roster: Roster)
    requires params.Valid()
  {
    && roster.left.None? && d.sched.minVruntime == 0.0
    && forall x :: Active(Table(params), d, roster, x) ==> Vruntime(d.attrs, x) == 0.0
  }

  lemma LevelIsSpread(params: Params, d: Lane<Sched>, roster: Roster, bound: real, slack: real)
    requires params.Valid() && Level(params, d, roster) && bound >= 0.0 && slack >= 0.0
    ensures Spread(params, d, roster, bound, slack)
  {
    forall x, y | Active(Table(params), d, roster, x) && Active(Table(params), d, roster, y)
      ensures Near(d.attrs, x, y, bound)
    {
    }
    forall x | x in d.sched.queue
      ensures Vruntime(d.attrs, x) == 0.0
    {
      assert Active(Table(params), d, roster, x);
    }
    assert d.running.Some? ==> Active(Table(params), d, roster, d.running.value);
  }

  lemma CallKeepsLevel(params: Params, slice0: real, d: Lane<Sched>, roster: Roster, call: Call)
    requires params.Valid() && slice0 > 0.0 && Sound(Table(params), d) && Level(params, d, roster)
    requires Allowed(Table(params), d, call) && Expected(d, roster, call) && !call.Charged?
    ensures Level(params, Do(Table(params), slice0, d, call), Follow(d, roster, call))
  {
    hide Lawful, Add, Begin;
    match call
    case Added(id, unstarted) =>
      AddFacts(params, d.sched, d.attrs, id, unstarted);
      AddedActive(Table(params), d, roster, id, unstarted);
      var d' := Admit(Table(params), d, id, unstarted);
      forall x | Active(Table(params), d', Follow(d, roster, call), x)
        ensures Vruntime(d'.attrs, x) == 0.0
      {
        assert x == id || Active(Table(params), d, roster, x);
      }
    case Picked =>
      BeginSound(Table(params), slice0, d);
      PickedActive(Table(params), slice0, d, roster);
      PickedSame(params, slice0, d);
    case Apart(_, _) =>
  }

  lemma PickedSame(params: Params, slice0: real, d: Lane<Sched>)
    requires params.Valid()
    ensures Begin(Table(params), slice0, d).attrs == d.attrs
    ensures Begin(Table(params), slice0, d).sched.minVruntime == d.sched.minVruntime
  {
  }

  /** Where a trace may go on from: no more arrivals, or nobody charged yet. */
  ghost predicate Phase(params: Params, d: Lane<Sched>, roster: Roster, calls: seq<Call>)
    requires params.Valid()
  {
    NoArrivals(calls) || (Level(params, d, roster) && Punctual(calls))
  }

  /** A charge is the end of the arrivals. */
  lemma NothingArrivesAfter(params: Params, d: Lane<Sched>, roster: Roster, calls: seq<Call>)
    requires params.Valid() && Phase(params, d, roster, calls) && calls != [] && calls[0].Charged?
    ensures NoArrivals(calls[1..])
  {
  }

  lemma PhaseStep(params: Params, slice0: real, d: Lane<Sched>, roster: Roster, calls: seq<Call>, ids: set<TaskId>, delta: real)
    requires params.Valid() && slice0 > 0.0 && Tidy(Table(params), d, roster, ids) && delta >= 0.0
    requires Spread(params, d, roster, delta + Slack(|ids|), Slack(|ids|))
    requires calls != [] && Phase(params, d, roster, calls) && ChargeWithin(d, calls[0], delta)
    requires Allowed(Table(params), d, calls[0]) && Expected(d, roster, calls[0])
    ensures var d', roster' := Do(Table(params), slice0, d, calls[0]), Follow(d, roster, calls[0]);
            && Spread(params, d', roster', delta + Slack(|ids|), Slack(|ids|))
            && Phase(params, d', roster', calls[1..])
            && (calls[0].Added? && calls[0].unstarted ==> Level(params, d, roster) && Level(params, d', roster'))
  {
    hide Sound, Level, Spread, Expected, Follow, Do, Allowed, Slack;
    assert calls[0] in calls;
    if NoArrivals(calls) || calls[0].Charged? {
      CallKeepsSpread(params, slice0, d, roster, calls[0], ids, delta);
    } else {
      CallKeepsLevel(params, slice0, d, roster, calls[0]);
      LevelIsSpread(params, Do(Table(params), slice0, d, calls[0]), Follow(d, roster, calls[0]),
                    delta + Slack(|ids|), Slack(|ids|));
    }
  }

  /** Fairness: if all tasks arrive before the first charge, the virtual runtimes of
      unfinished tasks always differ by at most the largest charge of one slice plus the
      tolerance for each task but one. */
  lemma {:induction false} VruntimesStayNear(params: Params, slice0: real, d: Lane<Sched>, roster: Roster,
                                             calls: seq<Call>, ids: set<TaskId>, delta: real)
    requires params.Valid() && slice0 > 0.0 && Tidy(Table(params), d, roster, ids) && delta >= 0.0
    requires Spread(params, d, roster, delta + Slack(|ids|), Slack(|ids|))
    requires Trace(Table(params), slice0, d, calls) && Alone(Table(params), slice0, d, roster, calls)
    requires Phase(params, d, roster, calls) && ChargesWithin(params, slice0, d, calls, delta)
    ensures Spread(params, End(Table(params), slice0, d, calls), LastRoster(Table(params), slice0, d, roster, calls),
                   delta + Slack(|ids|), Slack(|ids|))
    decreases |calls|
  {
    hide Sound, Level, Spread, Expected, Follow, Do, Allowed, Phase, Tidy, ChargeWithin, Slack;
    if calls != [] {
      DoTidy(Table(params), slice0, d, roster, calls[0], ids);
      PhaseStep(params, slice0, d, roster, calls, ids, delta);
      VruntimesStayNear(params, slice0, Do(Table(params), slice0, d, calls[0]), Follow(d, roster, calls[0]), calls[1..],
                        ids, delta);
    }
  }

  // ------------------------------------------------ virtual runtime is service over weight

  type Service = map<TaskId, real>

  function ServiceOf(service: Service, id: TaskId): real {
    if id in service then service[id] else 0.0
  }

  /** Nobody has been charged. */
  ghost predicate Blank(service: Service) {
    forall x: TaskId :: ServiceOf(service, x) == 0.0
  }

  function Served(d: Lane<Sched>, call: Call, service: Service): Service {
    if call.Charged? && d.running.Some? then
      service[d.running.value := ServiceOf(service, d.running.value) + call.cpu]
    else service
  }

  /** CPU time charged to each task. */
  ghost function Totals(params: Params, slice0: real, d: Lane<Sched>, calls: seq<Call>, service: Service): Service
    requires params.Valid() && Trace(Table(params), slice0, d, calls)
    decreases |calls|
  {
    if calls == [] then service
    else Totals(params, slice0, Do(Table(params), slice0, d, calls[0]), calls[1..], Served(d, calls[0], service))
  }

  /** Every task's credit covers the bound, so the clamp on returning tasks cannot fire. */
  ghost predicate CreditCovers(params: Params, d: Lane<Sched>, ids: set<TaskId>, bound: real)
    requires params.Valid()
  {
    forall x: TaskId :: x in ids ==> bound <= Credit(params, AttrOf(d.attrs, x).weight)
  }

  ghost predicate Proportional(params: Params, d: Lane<Sched>, roster: Roster, service: Service)
    requires params.Valid()
  {
    forall x: TaskId :: Active(Table(params), d, roster, x) ==>
      Vruntime(d.attrs, x) == Scaled(ServiceOf(service, x), AttrOf(d.attrs, x).weight as real)
  }

  lemma ScaledAdds(a: real, b: real, weight: real)
    requires weight > 0.0
    ensures Scaled(a + b, weight) == Scaled(a, weight) + Scaled(b, weight)
    ensures Scaled(0.0, weight) == 0.0
  {
    var x, y := a * NICE_0_LOAD / weight, b * NICE_0_LOAD / weight;
    assert x * weight == a * NICE_0_LOAD && y * weight == b * NICE_0_LOAD;
    assert (x + y) * weight == (a + b) * NICE_0_LOAD;
  }

  lemma CallKeepsService(params: Params, slice0: real, d: Lane<Sched>, roster: Roster, call: Call, ids: set<TaskId>,
                         bound: real, slack: real, service: Service)
    requires params.Valid() && slice0 > 0.0 && Tidy(Table(params), d, roster, ids)
    requires Spread(params, d, roster, bound, slack) && CreditCovers(params, d, ids, bound)
    requires Allowed(Table(params), d, call) && Expected(d, roster, call)
    requires call.Added? && call.unstarted ==> Level(params, d, roster) && Blank(service)
    requires Proportional(params, d, roster, service)
    ensures var d', roster' := Do(Table(params), slice0, d, call), Follow(d, roster, call);
            CreditCovers(params, d', ids, bound) && Proportional(params, d', roster', Served(d, call, service))
  {
    hide Lawful, Scaled, Credit, Level;
    match call
    case Added(id, unstarted) => AddKeepsService(params, d, roster, id, unstarted, ids, bound, slack, service);
    case Charged(cpu) => ChargeKeepsService(params, d, roster, cpu, ids, bound, service);
    case Picked =>
      PickedActive(Table(params), slice0, d, roster);
      PickedSame(params, slice0, d);
    case Apart(_, _) =>
  }

  lemma AddKeepsService(params: Params, d: Lane<Sched>, roster: Roster, id: TaskId, unstarted: bool, ids: set<TaskId>,
                        bound: real, slack: real, service: Service)
    requires params.Valid() && Tidy(Table(params), d, roster, ids) && Expected(d, roster, Added(id, unstarted))
    requires Spread(params, d, roster, bound, slack) && CreditCovers(params, d, ids, bound)
    requires Proportional(params, d, roster, service)
    requires unstarted ==> Level(params, d, roster) && Blank(service)
    ensures var d', roster' := Admit(Table(params), d, id, unstarted), Follow(d, roster, Added(id, unstarted));
            CreditCovers(params, d', ids, bound) && Proportional(params, d', roster', service)
  {
    hide Lawful, Add, Scaled, Credit, Sound;
    AddFacts(params, d.sched, d.attrs, id, unstarted);
    assert Table(params).ready(Admit(Table(params), d, id, unstarted).sched) == Table(params).ready(d.sched) + multiset{id};
    AddedActive(Table(params), d, roster, id, unstarted);
    assert !unstarted ==> Active(Table(params), d, roster, id);
    ScaledAdds(0.0, 0.0, AttrOf(d.attrs, id).weight as real);
    var d', roster' := Admit(Table(params), d, id, unstarted), Follow(d, roster, Added(id, unstarted));
    forall x: TaskId | Active(Table(params), d', roster', x)
      ensures Vruntime(d'.attrs, x) == Scaled(ServiceOf(service, x), AttrOf(d'.attrs, x).weight as real)
    {
      assert x == id || Active(Table(params), d, roster, x);
    }
  }

  lemma ChargeKeepsService(params: Params, d: Lane<Sched>, roster: Roster, cpu: real, ids: set<TaskId>,
                           bound: real, service: Service)
    requires params.Valid() && Sound(Table(params), d) && CreditCovers(params, d, ids, bound)
    requires d.running.Some? && roster.left.None? && Proportional(params, d, roster, service)
    ensures var d' := Release(Table(params), d, cpu);
            && CreditCovers(params, d', ids, bound)
            && Proportional(params, d', roster.(left := d.running), Served(d, Charged(cpu), service))
  {
    hide Lawful, Charge, Scaled, Credit, Updated;
    var r := d.running.value;
    ChargeFacts(params, d.sched, d.attrs, r, cpu);
    ChargedActive(Table(params), d, roster, cpu);
    assert Active(Table(params), d, roster, r);
    ScaledAdds(ServiceOf(service, r), cpu, AttrOf(d.attrs, r).weight as real);
  }

  lemma {:induction false} TraceKeepsService(params: Params, slice0: real, d: Lane<Sched>, roster: Roster, calls: seq<Call>,
                                             ids: set<TaskId>, delta: real, service: Service)
    requires params.Valid() && slice0 > 0.0 && Tidy(Table(params), d, roster, ids) && delta >= 0.0
    requires Spread(params, d, roster, delta + Slack(|ids|), Slack(|ids|))
    requires Trace(Table(params), slice0, d, calls) && Alone(Table(params), slice0, d, roster, calls)
    requires Phase(params, d, roster, calls) && ChargesWithin(params, slice0, d, calls, delta)
    requires NoArrivals(calls) || Blank(service)
    requires CreditCovers(params, d, ids, delta + Slack(|ids|)) && Proportional(params, d, roster, service)
    ensures var d', roster' := End(Table(params), slice0, d, calls), LastRoster(Table(params), slice0, d, roster, calls);
            && CreditCovers(params, d', ids, delta + Slack(|ids|))
            && Proportional(params, d', roster', Totals(params, slice0, d, calls, service))
    decreases |calls|
  {
    hide Sound, Level, Spread, Expected, Follow, Do, Allowed, Phase, Tidy, ChargeWithin, Slack, CreditCovers, Proportional;
    if calls != [] {
      assert calls[0] in calls;
      var p, call, bound := Table(params), calls[0], delta + Slack(|ids|);
      DoTidy(p, slice0, d, roster, call, ids);
      PhaseStep(params, slice0, d, roster, calls, ids, delta);
      CallKeepsService(params, slice0, d, roster, call, ids, bound, Slack(|ids|), service);
      if call.Charged? {
        NothingArrivesAfter(params, d, roster, calls);
      }
      assert NoArrivals(calls) ==> NoArrivals(calls[1..]);
      TraceKeepsService(params, slice0, Do(p, slice0, d, call), Follow(d, roster, call), calls[1..], ids, delta,
                        Served(d, call, service));
    }
  }
}

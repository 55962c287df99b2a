/** No overtaking after the deadline: once virtual time has reached a waiting task's
    deadline, only tasks that are ready by then can still run before it. */
module EevdfDeadlines {
  import opened Common
  import opened Tasks
  import opened Policies
  import opened Lanes
  import opened SingleQueue
  import opened Eevdf

  function Deadline(attrs: Attrs, id: TaskId): real {
    AttrOf(attrs, id).deadline
  }

  /** w is ready, past its deadline, and was enqueued by the rules. */
  ghost predicate Due(d: Lane<Sched>, w: TaskId) {
    && w in d.sched.queue
    && AttrOf(d.attrs, w).eligible <= Deadline(d.attrs, w) <= d.sched.virtualTime
  }

  /** The tasks of q that may still run before w. */
  function Rivals(attrs: Attrs, q: seq<TaskId>, w: TaskId): seq<TaskId> {
    if q == [] then []
    else
      var n := |q| - 1;
      Rivals(attrs, q[..n], w) + if q[n] != w && Deadline(attrs, q[n]) <= Deadline(attrs, w) then [q[n]] else []
  }

  /** The slices the listed tasks would be granted. */
  function SliceSum(params: Params, attrs: Attrs, ids: seq<TaskId>): (t: real)
    requires params.Valid()
    ensures t >= 0.0
  {
    if ids == [] then 0.0
    else SliceSum(params, attrs, ids[..|ids| - 1]) + SliceFor(params, AttrOf(attrs, ids[|ids| - 1]).weight)
  }

  /** CPU time, and slices, that can still be charged before w runs. */
  function Time(params: Params, d: Lane<Sched>, w: TaskId): real
    requires params.Valid()
  {
    SliceSum(params, d.attrs, Rivals(d.attrs, d.sched.queue, w)) + if d.running.Some? then d.granted else 0.0
  }

  function Count(d: Lane<Sched>, w: TaskId): nat {
    |Rivals(d.attrs, d.sched.queue, w)| + if d.running.Some? then 1 else 0
  }

  // ------------------------------------------------ rivals under the queue's operations

  lemma {:induction false} RivalsSame(params: Params, before: Attrs, after: Attrs, q: seq<TaskId>, w: TaskId)
    requires params.Valid()
    requires forall x :: x in q || x == w ==> AttrOf(after, x) == AttrOf(before, x)
    ensures Rivals(after, q, w) == Rivals(before, q, w)
    ensures SliceSum(params, after, Rivals(after, q, w)) == SliceSum(params, before, Rivals(before, q, w))
  {
    if q != [] {
      var n := |q| - 1;
      assert q == q[..n] + [q[n]];
      RivalsSame(params, before, after, q[..n], w);
      var r := Rivals(before, q[..n], w);
      if q[n] != w && Deadline(before, q[n]) <= Deadline(before, w) {
        assert (r + [q[n]])[..|r|] == r;
      } else {
        assert r + [] == r;
      }
    }
  }

  /** A task without a deadline as early as w's adds no rival. */
  lemma RivalsAppend(attrs: Attrs, q: seq<TaskId>, x: TaskId, w: TaskId)
    requires Deadline(attrs, x) > Deadline(attrs, w)
    ensures Rivals(attrs, q + [x], w) == Rivals(attrs, q, w)
  {
    assert (q + [x])[..|q|] == q;
  }

  lemma {:induction false} RivalsDrop(params: Params, attrs: Attrs, q: seq<TaskId>, x: TaskId, w: TaskId)
    requires params.Valid() && x != w
    ensures SliceSum(params, attrs, Rivals(attrs, Drop(q, x), w)) <= SliceSum(params, attrs, Rivals(attrs, q, w))
    ensures |Rivals(attrs, Drop(q, x), w)| <= |Rivals(attrs, q, w)|
    ensures x in q && Deadline(attrs, x) <= Deadline(attrs, w) ==>
              && SliceSum(params, attrs, Rivals(attrs, Drop(q, x), w)) + SliceFor(params, AttrOf(attrs, x).weight)
                 <= SliceSum(params, attrs, Rivals(attrs, q, w))
              && |Rivals(attrs, Drop(q, x), w)| < |Rivals(attrs, q, w)|
  {
    hide SliceFor;
    if q != [] {
      var n := |q| - 1;
      assert q == q[..n] + [q[n]];
      RivalsDrop(params, attrs, q[..n], x, w);
      LastRival(params, attrs, q[..n], q[n], w);
      if q[n] != x {
        LastRival(params, attrs, Drop(q[..n], x), q[n], w);
      }
    }
  }

  lemma LastRival(params: Params, attrs: Attrs, q: seq<TaskId>, x: TaskId, w: TaskId)
    requires params.Valid()
    ensures var rival := x != w && Deadline(attrs, x) <= Deadline(attrs, w);
            && SliceSum(params, attrs, Rivals(attrs, q + [x], w))
               == SliceSum(params, attrs, Rivals(attrs, q, w)) + (if rival then SliceFor(params, AttrOf(attrs, x).weight) else 0.0)
            && |Rivals(attrs, q + [x], w)| == |Rivals(attrs, q, w)| + (if rival then 1 else 0)
  {
    hide SliceFor;
    assert (q + [x])[..|q|] == q;
    var r := Rivals(attrs, q, w);
    assert (r + [x])[..|r|] == r && r + [] == r;
  }

  // ------------------------------------------------ calls

  /** While a due task waits no later arrival becomes its rival, only rivals are dispatched,
      and every charge spends a slice of theirs or the running one. */
  lemma CallSpendsTime(params: Params, slice0: real, d: Lane<Sched>, call: Call, w: TaskId)
    requires params.Valid() && slice0 > 0.0 && Sound(Table(params), d) && Due(d, w)
    requires Allowed(Table(params), d, call) && w in Do(Table(params), slice0, d, call).sched.queue
    ensures var d' := Do(Table(params), slice0, d, call);
            && Due(d', w)
            && Time(params, d', w) + (if call.Charged? then call.cpu else 0.0) <= Time(params, d, w)
            && Count(d', w) + (if call.Charged? then 1 else 0) <= Count(d, w)
            && (call.Picked? && d'.running.Some? ==> d'.running.value in Rivals(d.attrs, d.sched.queue, w))
  {
    hide Lawful, Add, Charge, Choice, Rivals, SliceSum, SliceFor;
    match call
    case Added(id, unstarted) => AddSpendsNothing(params, d, id, unstarted, w);
    case Charged(cpu) =>
      ChargeFacts(params, d.sched, d.attrs, d.running.value, cpu);
      RivalsSame(params, d.attrs, Charge(params, d.sched, d.attrs, d.running.value, cpu).1, d.sched.queue, w);
    case Picked => PickSpendsRival(params, slice0, d, w);
    case Apart(lost, attrs) => ApartSpendsNothing(params, slice0, d, lost, attrs, w);
  }

  lemma AddSpendsNothing(params: Params, d: Lane<Sched>, id: TaskId, unstarted: bool, w: TaskId)
    requires params.Valid() && Due(d, w) && id !in d.sched.queue && d.running != Some(id)
    ensures var d' := Admit(Table(params), d, id, unstarted);
            Due(d', w) && Time(params, d', w) == Time(params, d, w) && Count(d', w) == Count(d, w)
  {
    hide Add, SliceFor, Request, Rivals, SliceSum;
    AddFacts(params, d.sched, d.attrs, id, unstarted);
    var d' := Admit(Table(params), d, id, unstarted);
    RivalsSame(params, d.attrs, d'.attrs, d.sched.queue, w);
    RivalsAppend(d'.attrs, d.sched.queue, id, w);
  }

  lemma PickSpendsRival(params: Params, slice0: real, d: Lane<Sched>, w: TaskId)
    requires params.Valid() && slice0 > 0.0 && Sound(Table(params), d) && Due(d, w) && d.running.None?
    requires w in Begin(Table(params), slice0, d).sched.queue
    ensures var d' := Begin(Table(params), slice0, d);
            && Due(d', w) && Time(params, d', w) <= Time(params, d, w) && Count(d', w) <= Count(d, w)
            && d'.running.Some? && d'.running.value in Rivals(d.attrs, d.sched.queue, w)
  {
    hide Lawful, Choice, SliceFor, Rivals, SliceSum, Drop;
    ChoiceFacts(params, d.sched, d.attrs);
    assert Eligible(d.sched, AttrOf(d.attrs, w));
    var x := Choice(params, d.sched, d.attrs).value.id;
    RivalsDrop(params, d.attrs, d.sched.queue, x, w);
    RivalIsListed(d.attrs, d.sched.queue, x, w);
  }

  lemma {:induction false} RivalIsListed(attrs: Attrs, q: seq<TaskId>, x: TaskId, w: TaskId)
    ensures x in Rivals(attrs, q, w) <==> x in q && x != w && Deadline(attrs, x) <= Deadline(attrs, w)
  {
    if q != [] {
      assert q == q[..|q| - 1] + [q[|q| - 1]];
      RivalIsListed(attrs, q[..|q| - 1], x, w);
    }
  }

  lemma ApartSpendsNothing(params: Params, slice0: real, d: Lane<Sched>, lost: Option<TaskId>, attrs: Attrs, w: TaskId)
    requires params.Valid() && slice0 > 0.0 && Sound(Table(params), d) && Due(d, w)
    requires Can(Table(params), d, Outside(lost, attrs)) && w in Next(Table(params), slice0, d, Outside(lost, attrs)).sched.queue
    ensures var d' := Next(Table(params), slice0, d, Outside(lost, attrs));
            Due(d', w) && Time(params, d', w) <= Time(params, d, w) && Count(d', w) <= Count(d, w)
  {
    hide Lawful, SliceFor, Rivals, SliceSum, Drop;
    var q := if lost.Some? then Drop(d.sched.queue, lost.value) else d.sched.queue;
    if lost.Some? {
      RivalsDrop(params, d.attrs, d.sched.queue, lost.value, w);
    }
    forall x | x in q || x == w
      ensures AttrOf(attrs, x) == AttrOf(d.attrs, x)
    {
      assert x in Table(params).ready(d.sched) && lost != Some(x);
      assert SameAttr(d.attrs, attrs, x);
    }
    RivalsSame(params, d.attrs, attrs, q, w);
  }

  /** No overtaking: while a due task waits, whatever arrives, the CPU time charged is at
      most the rest of the running slice and one slice of each rival that was ready when it
      became due, and so is the number of slices. */
  lemma {:induction false} NoOvertaking(params: Params, slice0: real, d: Lane<Sched>, calls: seq<Call>, w: TaskId)
    requires params.Valid() && slice0 > 0.0 && Sound(Table(params), d) && Due(d, w)
    requires Trace(Table(params), slice0, d, calls) && Waits(Table(params), slice0, d, calls, w)
    ensures Used(calls) <= Time(params, d, w) && Slices(calls) <= Count(d, w)
    decreases |calls|
  {
    hide Sound, Due, Allowed, Do, Time, Count;
    if calls == [] {
      TimeNonnegative(params, d, w);
    } else {
      var d' := Do(Table(params), slice0, d, calls[0]);
      assert w in Table(params).ready(d'.sched);
      CallSpendsTime(params, slice0, d, calls[0], w);
      DoSound(Table(params), slice0, d, calls[0]);
      NoOvertaking(params, slice0, d', calls[1..], w);
    }
  }

  lemma TimeNonnegative(params: Params, d: Lane<Sched>, w: TaskId)
    requires params.Valid() && Sound(Table(params), d)
    ensures Time(params, d, w) >= 0.0
  {
    hide Lawful;
  }

  // ------------------------------------------------ until the deadline

  /** The ready tasks weigh at most total in every state of the trace. */
  ghost predicate WeighsAtMost(params: Params, slice0: real, d: Lane<Sched>, calls: seq<Call>, total: nat)
    requires params.Valid() && Trace(Table(params), slice0, d, calls)
    decreases |calls|
  {
    TotalWeight(d.attrs, d.sched.queue) <= total
    && (calls == [] || WeighsAtMost(params, slice0, Do(Table(params), slice0, d, calls[0]), calls[1..], total))
  }

  /** Time when w first is due, or 0. */
  ghost function TimeWhenDue(params: Params, slice0: real, d: Lane<Sched>, calls: seq<Call>, w: TaskId): real
    requires params.Valid() && Trace(Table(params), slice0, d, calls)
    decreases |calls|
  {
    if Deadline(d.attrs, w) <= d.sched.virtualTime then Time(params, d, w)
    else if calls == [] then 0.0
    else TimeWhenDue(params, slice0, Do(Table(params), slice0, d, calls[0]), calls[1..], w)
  }

  /** CPU time after which virtual time has covered the given distance. */
  function CpuFor(distance: real, total: nat): real {
    if distance <= 0.0 then 0.0 else distance * total as real / NICE_0_LOAD
  }

  lemma {:induction false} HasWeight(attrs: Attrs, q: seq<TaskId>, x: TaskId)
    requires x in q
    ensures TotalWeight(attrs, q) >= 1
  {
  }

  /** Each charge moves virtual time by at least its share of the total weight. */
  lemma AdvanceCovers(cpu: real, weight: nat, total: nat, distance: real)
    requires cpu >= 0.0 && 1 <= weight <= total && distance > Scaled(cpu, weight as real)
    ensures cpu + CpuFor(distance - Scaled(cpu, weight as real), total) <= CpuFor(distance, total)
  {
    var step := Scaled(cpu, weight as real);
    assert step * weight as real == cpu * NICE_0_LOAD;
    assert step * total as real >= step * weight as real;
    assert (distance - step) * total as real == distance * total as real - step * total as real;
  }

  lemma CallMovesTime(params: Params, slice0: real, d: Lane<Sched>, call: Call, w: TaskId)
    requires params.Valid() && slice0 > 0.0 && Sound(Table(params), d) && Allowed(Table(params), d, call)
    requires w in d.sched.queue && w in Do(Table(params), slice0, d, call).sched.queue
    ensures var d' := Do(Table(params), slice0, d, call);
            && AttrOf(d'.attrs, w) == AttrOf(d.attrs, w)
            && (call.Charged? ==>
                  d'.sched.virtualTime == d.sched.virtualTime
                    + Scaled(call.cpu, TotalWeight(d.attrs, d.sched.queue) as real))
            && (!call.Charged? ==> d'.sched.virtualTime == d.sched.virtualTime)
  {
    hide Lawful, Add, Charge, Choice, Scaled, TotalWeight;
    HasWeight(d.attrs, d.sched.queue, w);
    match call
    case Added(id, unstarted) => AddFacts(params, d.sched, d.attrs, id, unstarted);
    case Charged(cpu) => ChargeFacts(params, d.sched, d.attrs, d.running.value, cpu);
    case Picked =>
    case Apart(lost, attrs) => assert w in Table(params).ready(d.sched) && SameAttr(d.attrs, attrs, w);
  }

  /** Bounded waiting: while a task waits, the CPU time charged is at most what moves virtual
      time to its deadline at the heaviest load, one slice, and a slice of each rival there
      is by then. */
  lemma {:induction false} WaitIsBounded(params: Params, slice0: real, d: Lane<Sched>, calls: seq<Call>,
                                         w: TaskId, total: nat, longest: real)
    requires params.Valid() && slice0 > 0.0 && Sound(Table(params), d)
    requires AttrOf(d.attrs, w).eligible <= Deadline(d.attrs, w) && longest >= 0.0
    requires Trace(Table(params), slice0, d, calls) && Waits(Table(params), slice0, d, calls, w)
    requires WeighsAtMost(params, slice0, d, calls, total)
    requires forall call :: call in calls && call.Charged? ==> call.cpu <= longest
    ensures Used(calls) <= CpuFor(Deadline(d.attrs, w) - d.sched.virtualTime, total) + longest
                           + TimeWhenDue(params, slice0, d, calls, w)
    decreases |calls|
  {
    hide Sound, Allowed, Do, Time, CpuFor, Scaled, TotalWeight, Rivals, Lawful;
    assert w in d.sched.queue;
    var distance := Deadline(d.attrs, w) - d.sched.virtualTime;
    CpuForNonnegative(distance, total);
    if distance <= 0.0 {
      NoOvertaking(params, slice0, d, calls, w);
    } else if calls != [] {
      var call, d' := calls[0], Do(Table(params), slice0, d, calls[0]);
      assert w in Table(params).ready(d'.sched) && call in calls;
      CallMovesTime(params, slice0, d, call, w);
      DoSound(Table(params), slice0, d, call);
      assert forall other :: other in calls[1..] ==> other in calls;
      if Deadline(d'.attrs, w) <= d'.sched.virtualTime {
        NoOvertaking(params, slice0, d', calls[1..], w);
      } else {
        WaitIsBounded(params, slice0, d', calls[1..], w, total, longest);
        if call.Charged? {
          HasWeight(d.attrs, d.sched.queue, w);
          ChargedCpu(params, d, call);
          AdvanceCovers(call.cpu, TotalWeight(d.attrs, d.sched.queue), total, distance);
        }
      }
    }
  }

  lemma CpuForNonnegative(distance: real, total: nat)
    ensures CpuFor(distance, total) >= 0.0
  {
  }

  lemma ChargedCpu(params: Params, d: Lane<Sched>, call: Call)
    requires params.Valid() && Allowed(Table(params), d, call) && call.Charged?
    ensures call.cpu >= 0.0
  {
  }

  // ------------------------------------------------ bounds from the tasks there are

  /** Taking a listed task off the list takes at least its weight and its slice off the sums. */
  lemma {:induction false} DropSums(params: Params, attrs: Attrs, ids: seq<TaskId>, x: TaskId)
    requires params.Valid() && x in ids
    ensures TotalWeight(attrs, Drop(ids, x)) + AttrOf(attrs, x).weight <= TotalWeight(attrs, ids)
    ensures SliceSum(params, attrs, Drop(ids, x)) + SliceFor(params, AttrOf(attrs, x).weight) <= SliceSum(params, attrs, ids)
  {
    hide SliceFor;
    var n := |ids| - 1;
    assert ids == ids[..n] + [ids[n]];
    if x in ids[..n] {
      DropSums(params, attrs, ids[..n], x);
      var rest := Drop(ids[..n], x);
      assert (rest + [ids[n]])[..|rest|] == rest;
    } else {
      DropOther(ids[..n], x);
    }
  }

  /** A list without repetition of some of the tasks weighs no more than all of them. */
  lemma {:induction false} SumsWithin(params: Params, attrs: Attrs, q: seq<TaskId>, ids: seq<TaskId>)
    requires params.Valid() && (forall x :: x in q ==> x in ids) && forall x :: multiset(q)[x] <= 1
    ensures TotalWeight(attrs, q) <= TotalWeight(attrs, ids)
    ensures SliceSum(params, attrs, q) <= SliceSum(params, attrs, ids)
  {
    hide SliceFor, Drop;
    if q != [] {
      var n := |q| - 1;
      assert q == q[..n] + [q[n]];
      assert multiset(q) == multiset(q[..n]) + multiset{q[n]} && multiset(q)[q[n]] <= 1;
      forall x
        ensures multiset(q[..n])[x] <= 1
        ensures x in q[..n] ==> x in Drop(ids, q[n])
      {
        assert multiset(q)[x] <= 1;
        assert x in q[..n] ==> x in multiset(q[..n]);
      }
      SumsWithin(params, attrs, q[..n], Drop(ids, q[n]));
      DropSums(params, attrs, ids, q[n]);
    }
  }

  ghost predicate SameWeights(a: Attrs, b: Attrs) {
    forall x: TaskId :: AttrOf(b, x).weight == AttrOf(a, x).weight
  }

  lemma {:induction false} SameSums(params: Params, a: Attrs, b: Attrs, q: seq<TaskId>)
    requires params.Valid() && SameWeights(a, b)
    ensures TotalWeight(b, q) == TotalWeight(a, q) && SliceSum(params, b, q) == SliceSum(params, a, q)
  {
    if q != [] {
      SameSums(params, a, b, q[..|q| - 1]);
    }
  }

  lemma {:induction false} RivalsCount(attrs: Attrs, q: seq<TaskId>, w: TaskId, x: TaskId)
    ensures multiset(Rivals(attrs, q, w))[x] <= multiset(q)[x]
  {
    if q != [] {
      assert q == q[..|q| - 1] + [q[|q| - 1]];
      RivalsCount(attrs, q[..|q| - 1], w, x);
    }
  }

  /** The running slice is the one its task's weight gives. */
  predicate Granted(params: Params, d: Lane<Sched>)
    requires params.Valid()
  {
    d.running.Some? ==> d.granted == SliceFor(params, AttrOf(d.attrs, d.running.value).weight)
  }

  lemma CallKeepsWeights(params: Params, slice0: real, d: Lane<Sched>, call: Call)
    requires params.Valid() && slice0 > 0.0 && Granted(params, d) && Allowed(Table(params), d, call)
    ensures var d' := Do(Table(params), slice0, d, call); Granted(params, d') && SameWeights(d.attrs, d'.attrs)
  {
    hide SliceFor, Add, Charge, EarliestDeadline, EarliestEligible;
    match call
    case Added(id, unstarted) => AddFacts(params, d.sched, d.attrs, id, unstarted);
    case Charged(cpu) => ChargeFacts(params, d.sched, d.attrs, d.running.value, cpu);
    case Picked =>
    case Apart(_, attrs) =>
      forall x: TaskId
        ensures AttrOf(attrs, x).weight == AttrOf(d.attrs, x).weight
      {
        assert SameWeight(d.attrs, attrs, x);
      }
  }

  lemma {:induction false} TraceKeepsWeights(params: Params, slice0: real, d: Lane<Sched>, calls: seq<Call>)
    requires params.Valid() && slice0 > 0.0 && Granted(params, d) && Trace(Table(params), slice0, d, calls)
    ensures Granted(params, End(Table(params), slice0, d, calls))
    decreases |calls|
  {
    hide Granted, Allowed, Do;
    if calls != [] {
      CallKeepsWeights(params, slice0, d, calls[0]);
      TraceKeepsWeights(params, slice0, Do(Table(params), slice0, d, calls[0]), calls[1..]);
    }
  }

  /** On a core alone the sums over all tasks bound those over the ready and running ones. */
  lemma LaneWithin(params: Params, d: Lane<Sched>, roster: Roster, ids: seq<TaskId>, attrs: Attrs, w: TaskId)
    requires params.Valid() && Tidy(Table(params), d, roster, Members(ids)) && Granted(params, d) && SameWeights(attrs, d.attrs)
    ensures TotalWeight(d.attrs, d.sched.queue) <= TotalWeight(attrs, ids)
    ensures Time(params, d, w) <= SliceSum(params, attrs, ids)
    ensures d.running.Some? ==> d.running.value in ids
  {
    hide Lawful, SliceFor, Rivals, TotalWeight, SliceSum;
    var p, q, rivals := Table(params), d.sched.queue, Rivals(d.attrs, d.sched.queue, w);
    var all := if d.running.Some? then rivals + [d.running.value] else rivals;
    forall x
      ensures multiset(q)[x] <= 1 && (x in q ==> x in ids)
      ensures multiset(all)[x] <= 1 && (x in all ==> x in ids)
    {
      assert p.ready(d.sched)[x] <= 1;
      RivalsCount(d.attrs, q, w, x);
      RivalIsListed(d.attrs, q, x, w);
      assert x in q ==> Active(p, d, roster, x);
      assert d.running == Some(x) ==> Active(p, d, roster, x) && x !in q;
      assert x !in q ==> multiset(q)[x] == 0;
    }
    SameSums(params, attrs, d.attrs, ids);
    SumsWithin(params, d.attrs, q, ids);
    SumsWithin(params, d.attrs, all, ids);
    if d.running.Some? {
      OneMoreSlice(params, d.attrs, rivals, d.running.value);
    }
  }

  lemma OneMoreSlice(params: Params, attrs: Attrs, q: seq<TaskId>, x: TaskId)
    requires params.Valid()
    ensures SliceSum(params, attrs, q + [x]) == SliceSum(params, attrs, q) + SliceFor(params, AttrOf(attrs, x).weight)
  {
    assert (q + [x])[..|q|] == q;
  }

  predicate NoSliceLonger(params: Params, attrs: Attrs, ids: seq<TaskId>, longest: real)
    requires params.Valid()
  {
    forall x :: x in ids ==> SliceFor(params, AttrOf(attrs, x).weight) <= longest
  }

  lemma CallWithin(params: Params, d: Lane<Sched>, roster: Roster, call: Call, ids: seq<TaskId>, attrs: Attrs, w: TaskId, longest: real)
    requires params.Valid() && Tidy(Table(params), d, roster, Members(ids)) && Granted(params, d) && SameWeights(attrs, d.attrs)
    requires Allowed(Table(params), d, call) && NoSliceLonger(params, attrs, ids, longest)
    ensures call.Charged? ==> call.cpu <= longest
  {
    hide Lawful, SliceFor;
    LaneWithin(params, d, roster, ids, attrs, w);
  }

  lemma {:induction false} TraceWithin(params: Params, slice0: real, d: Lane<Sched>, roster: Roster, calls: seq<Call>,
                                       ids: seq<TaskId>, attrs: Attrs, w: TaskId, longest: real)
    requires params.Valid() && slice0 > 0.0 && Tidy(Table(params), d, roster, Members(ids))
    requires Granted(params, d) && SameWeights(attrs, d.attrs) && NoSliceLonger(params, attrs, ids, longest)
    requires Trace(Table(params), slice0, d, calls) && Alone(Table(params), slice0, d, roster, calls)
    ensures WeighsAtMost(params, slice0, d, calls, TotalWeight(attrs, ids))
    ensures forall call :: call in calls && call.Charged? ==> call.cpu <= longest
    ensures TimeWhenDue(params, slice0, d, calls, w) <= SliceSum(params, attrs, ids)
    decreases |calls|
  {
    hide Tidy, Allowed, Do, Expected, Follow, Granted, NoSliceLonger, TotalWeight, SliceSum, Time;
    LaneWithin(params, d, roster, ids, attrs, w);
    if calls != [] {
      var d' := Do(Table(params), slice0, d, calls[0]);
      CallWithin(params, d, roster, calls[0], ids, attrs, w, longest);
      CallKeepsWeights(params, slice0, d, calls[0]);
      DoTidy(Table(params), slice0, d, roster, calls[0], Members(ids));
      TraceWithin(params, slice0, d', Follow(d, roster, calls[0]), calls[1..], ids, attrs, w, longest);
      assert calls == [calls[0]] + calls[1..];
    } else {
      NoSum(params, attrs, ids);
    }
  }

  lemma NoSum(params: Params, attrs: Attrs, ids: seq<TaskId>)
    requires params.Valid()
    ensures SliceSum(params, attrs, ids) >= 0.0
  {
  }
}

/** Earliest eligible virtual deadline first inside the engines. */
module EevdfRuns {
  import opened Common
  import opened Tasks
  import opened Policies
  import opened Lanes
  import opened SingleQueue
  import opened Eevdf
  import opened EevdfDeadlines
  import opened Engine
  import opened EngineInvariant
  import opened EngineRuns
  import opened EngineLanes
  import opened EngineFields
  import opened EngineSteps
  import opened EngineGrants
  import opened EngineCounters

  /** A task becomes eligible at its virtual runtime and is due one request later. */
  predicate Regular(params: Params, a: Attr)
    requires params.Valid()
  {
    a.eligible == a.vruntime && a.deadline == a.eligible + Request(params, a.weight)
  }

  function FieldsClaim(params: Params): Claim<Sched>
    requires params.Valid()
  {
    Claim((a: Attr) => Regular(params, a), (_: Sched, _: TaskId, a: Attr) => true)
  }

  lemma TableKeepsClaim(params: Params)
    requires params.Valid()
    ensures Preserves(Table(params), FieldsClaim(params))
  {
    hide Add, Eevdf.Charge, Request;
    var p, k := Table(params), FieldsClaim(params);
    forall s: Sched, attrs, id, unstarted
      ensures AddPreserves(p, k, s, attrs, id, unstarted)
    {
      AddFacts(params, s, attrs, id, unstarted);
    }
    forall s: Sched, attrs, id, cpu
      ensures ChargePreserves(p, k, s, attrs, id, cpu)
    {
      ChargeFacts(params, s, attrs, id, cpu);
    }
  }

  lemma AlwaysRegular(params: Params, cfg: Config, jobs: seq<Job>, choices: seq<nat>, stop: real, s: State<Sched>, id: TaskId)
    requires params.Valid() && Reached(Table(params), cfg, Sched([], 0.0), jobs, choices, stop, s)
    requires id in s.place && s.place[id] != Pending
    ensures Regular(params, AttrOf(s.attrs, id))
  {
    hide Lawful, Local, Preserves, Request;
    TableIsLocal(params);
    TableKeepsClaim(params);
    FieldsAlwaysFit(Table(params), cfg, Sched([], 0.0), jobs, choices, stop, s, FieldsClaim(params));
    assert FieldsClaim(params).fit(AttrOf(s.attrs, id));
  }

  /** In every reachable state of either engine every arrived task is eligible at its virtual
      runtime, with its deadline one request, the base slice over its weight, later. */
  lemma DeadlinesAlwaysRegular(params: Params, cfg: Config, jobs: seq<Job>, choices: seq<nat>, stop: real,
                               s: State<Sched>, id: TaskId)
    requires params.Valid() && Reached(Table(params), cfg, Sched([], 0.0), jobs, choices, stop, s)
    requires id in s.place && s.place[id] != Pending
    ensures var a := AttrOf(s.attrs, id);
            a.eligible == a.vruntime && (a.deadline - a.eligible) * a.weight as real == params.baseSlice * 1024.0
  {
    hide Reached, Scaled;
    AlwaysRegular(params, cfg, jobs, choices, stop, s, id);
    ScaledMeans(params.baseSlice, AttrOf(s.attrs, id).weight as real);
  }

  /** In every reachable state of either engine a busy core was granted the base slice at its
      task's weight, or the minimum if that is more. */
  lemma SlicesInRuns(params: Params, cfg: Config, jobs: seq<Job>, choices: seq<nat>, stop: real, s: State<Sched>, c: nat)
    requires params.Valid() && Reached(Table(params), cfg, Sched([], 0.0), jobs, choices, stop, s)
    requires c < cfg.cores && c < |s.cores| && s.cores[c].running.Some?
    ensures IsSlice(params, AttrOf(s.attrs, s.cores[c].running.value).weight, s.cores[c].granted)
  {
    hide Lawful, Local, Reached, SliceFor, IsSlice, EarliestDeadline, EarliestEligible;
    TableIsLocal(params);
    SliceMeans(params, AttrOf(s.attrs, s.cores[c].running.value).weight);
    var x, attrs := SlicesAreGranted(Table(params), cfg, Sched([], 0.0), jobs, choices, stop, s, c);
  }

  /** In every step of a run of either engine: an arrival displaces a task exactly if all cores
      of the queue it is sent to are busy and one of them runs a task whose deadline is later
      than virtual time and one request of the newcomer. */
  lemma ArrivalsDisplaceInRuns(params: Params, cfg: Config, jobs: seq<Job>, before: seq<nat>, stop: real, s: State<Sched>, i: nat)
    returns (q: nat)
    requires params.Valid() && Reached(Table(params), cfg, Sched([], 0.0), jobs, before, stop, s)
    requires Shape(Table(params), cfg, s) && Earliest(s.events, i) && s.events[i].Arrival?
    ensures q < cfg.Queues()
    ensures Step(Table(params), cfg, s, i).preemptions > s.preemptions <==>
              && AllBusy(Table(params), cfg, s, q)
              && exists k: nat :: Serves(cfg, k, q) && Overtaken(params, s, k, q, AttrOf(s.attrs, s.events[i].id).weight)
  {
    hide Lawful, Local, Places, Clock, Accounted, Timers, Step, Reached, Add, Overtaken;
    ReachedInv(Table(params), cfg, Sched([], 0.0), jobs, before, stop, s);
    var queue, next := ArrivalPreempts(Table(params), cfg, s, i);
    q := queue;
    ArrivesNowhere(Table(params), cfg, s, i);
    var id := s.events[i].id;
    forall k: nat | Serves(cfg, k, q) && s.cores[k].running.Some?
      ensures var x := Add(params, s.scheds[q], s.attrs, id, true);
              Eevdf.Preempts(x.0, x.1, id, s.cores[k].running.value) <==> Overtaken(params, s, k, q, AttrOf(s.attrs, id).weight)
    {
      NewcomerPreempts(params, s, k, q, id);
    }
  }

  /** The deadline of core k's task is more than one request at the given weight ahead of
      virtual time. */
  predicate Overtaken(params: Params, s: State<Sched>, k: nat, q: nat, weight: nat)
    requires k < |s.cores| && q < |s.scheds|
  {
    && s.cores[k].running.Some?
    && (AttrOf(s.attrs, s.cores[k].running.value).deadline - s.scheds[q].virtualTime) * weight as real > params.baseSlice * 1024.0
  }

  lemma NewcomerPreempts(params: Params, s: State<Sched>, k: nat, q: nat, id: TaskId)
    requires params.Valid() && k < |s.cores| && q < |s.scheds| && s.cores[k].running.Some? && s.cores[k].running != Some(id)
    ensures var x := Add(params, s.scheds[q], s.attrs, id, true);
            Eevdf.Preempts(x.0, x.1, id, s.cores[k].running.value) <==> Overtaken(params, s, k, q, AttrOf(s.attrs, id).weight)
  {
    hide Add, Eevdf.Preempts;
    var x, y := Add(params, s.scheds[q], s.attrs, id, true), s.cores[k].running.value;
    AddFacts(params, s.scheds[q], s.attrs, id, true);
    EnqueuesOnTime(params, s.scheds[q], s.attrs, id, true);
    PreemptsLater(x.0, x.1, id, y);
    DueBefore(AttrOf(x.1, id).deadline, AttrOf(s.attrs, y).deadline, s.scheds[q].virtualTime, AttrOf(s.attrs, id).weight as real,
              params.baseSlice * 1024.0);
  }

  /** A deadline one request from now, and another one. */
  lemma DueBefore(a: real, b: real, now: real, w: real, request: real)
    requires w > 0.0 && (a - now) * w == request
    ensures a < b <==> (b - now) * w > request
  {
    Compare(a - now, b - now, w);
  }

  /** On every core of every run: once virtual time has reached the deadline of a waiting
      task, that core is charged at most the running slice and one slice of each task then
      ready with no later deadline, until the task runs or is stolen. */
  lemma NoOvertakingInRuns(params: Params, cfg: Config, jobs: seq<Job>, before: seq<nat>, stop: real, s: State<Sched>,
                           choices: seq<nat>, c: nat, w: TaskId)
    requires params.Valid() && !cfg.shared && c < cfg.cores
    requires Reached(Table(params), cfg, Sched([], 0.0), jobs, before, stop, s)
    requires Run(Table(params), cfg, s, choices, stop) && WaitsOn(Table(params), cfg, s, choices, stop, c, w)
    requires AttrOf(s.attrs, w).deadline <= s.scheds[c].virtualTime
    ensures After(Table(params), cfg, s, choices, stop).cores[c].busy - s.cores[c].busy
         <= SliceSum(params, s.attrs, Rivals(s.attrs, s.scheds[c].queue, w))
            + if s.cores[c].running.Some? then s.cores[c].granted else 0.0
  {
    hide Lawful, Local, Inv, InvBut, Trace, Waits, Rivals, SliceSum, Request, Run, After;
    ReachedInv(Table(params), cfg, Sched([], 0.0), jobs, before, stop, s);
    TableIsLocal(params);
    var calls := RunIsTrace(Table(params), cfg, s, choices, stop, c);
    LaneSound(Table(params), cfg, s, c);
    WaitingHasArrived(Table(params), cfg, s, c, w);
    AlwaysRegular(params, cfg, jobs, before, stop, s, w);
    NoOvertaking(params, cfg.defaultSlice, View(s, c), calls, w);
  }

  lemma WaitingHasArrived(p: Policy<Sched>, cfg: Config, s: State<Sched>, c: nat, w: TaskId)
    requires Inv(p, cfg, s) && !cfg.shared && c < cfg.cores && w in p.ready(s.scheds[c])
    ensures w in s.place && s.place[w] != Pending
  {
    ReadyIsPlaced(p, s, c, w);
  }

  /** Bounded waiting on one core: while a task waits, whatever arrives, the CPU time charged
      is at most what moves virtual time to its deadline with all unfinished jobs ready, their
      longest slice, and one slice of each. */
  lemma WaitIsBoundedInRuns(params: Params, cfg: Config, jobs: seq<Job>, before: seq<nat>, stop: real, s: State<Sched>,
                            choices: seq<nat>, w: TaskId, longest: real)
    requires params.Valid() && !cfg.shared && cfg.cores == 1
    requires Reached(Table(params), cfg, Sched([], 0.0), jobs, before, stop, s)
    requires Run(Table(params), cfg, s, choices, stop) && WaitsOn(Table(params), cfg, s, choices, stop, 0, w)
    requires NoSliceLonger(params, s.attrs, Unfinished(s, Ids(jobs)), longest) && longest >= 0.0
    ensures After(Table(params), cfg, s, choices, stop).cores[0].busy - s.cores[0].busy
         <= CpuFor(AttrOf(s.attrs, w).deadline - s.scheds[0].virtualTime, TotalWeight(s.attrs, Unfinished(s, Ids(jobs))))
            + longest + SliceSum(params, s.attrs, Unfinished(s, Ids(jobs)))
  {
    hide Lawful, Local, Places, Clock, Accounted, Timers, Trace, Waits, WaitsOn, Rivals, SliceSum, Request, Run, After, Table, Alone,
      Tidy, Reached, EevdfDeadlines.Granted, Sound, End, LastRoster, WeighsAtMost, TimeWhenDue, CpuFor, NoSliceLonger;
    var p, ids := Table(params), Unfinished(s, Ids(jobs));
    ReachedInv(p, cfg, Sched([], 0.0), jobs, before, stop, s);
    TableIsLocal(params);
    var calls := RunIsTrace(p, cfg, s, choices, stop, 0);
    LaneSound(p, cfg, s, 0);
    UnfinishedTidy(p, cfg, Sched([], 0.0), jobs, before, stop, s);
    ReachedGranted(params, cfg, jobs, before, stop, s);
    WaitsNow(p, cfg, s, choices, stop, w);
    WaitingHasArrived(p, cfg, s, 0, w);
    AlwaysRegular(params, cfg, jobs, before, stop, s, w);
    TraceWithin(params, cfg.defaultSlice, View(s, 0), Roster(Awaited(s), None), calls, ids, s.attrs, w, longest);
    WaitIsBounded(params, cfg.defaultSlice, View(s, 0), calls, w, TotalWeight(s.attrs, ids), longest);
  }

  lemma WaitsNow(p: Policy<Sched>, cfg: Config, s: State<Sched>, choices: seq<nat>, stop: real, w: TaskId)
    requires Shape(p, cfg, s) && Run(p, cfg, s, choices, stop) && 0 < cfg.Queues() && WaitsOn(p, cfg, s, choices, stop, 0, w)
    ensures w in p.ready(s.scheds[0])
  {
  }

  lemma ReachedGranted(params: Params, cfg: Config, jobs: seq<Job>, before: seq<nat>, stop: real, s: State<Sched>)
    requires params.Valid() && !cfg.shared && cfg.cores == 1
    requires Reached(Table(params), cfg, Sched([], 0.0), jobs, before, stop, s)
    ensures 0 < |s.cores| && 0 < |s.scheds| && EevdfDeadlines.Granted(params, View(s, 0))
  {
    hide Lawful, Local, SliceFor;
    TableIsLocal(params);
    var d, past := ReachedLane(Table(params), cfg, Sched([], 0.0), jobs, before, stop, s, 0);
    TraceKeepsWeights(params, cfg.defaultSlice, d, past);
  }
}

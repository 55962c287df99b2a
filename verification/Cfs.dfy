/** Completely fair scheduling (include/schedulers/cfs_scheduler.hpp): the task with the
    smallest virtual runtime runs, up to a tolerance and ties by identifier; virtual runtime
    advances by CPU time over weight. */
module Cfs {
  import opened Common
  import opened Tasks
  import opened Policies
  import opened SingleQueue

  datatype Params = Params(latency: real, minGranularity: real, wakeupGranularity: real) {
    predicate Valid() {
      latency >= 0.0 && minGranularity > 0.0 && wakeupGranularity >= 0.0
    }
  }

  datatype Sched = Sched(queue: seq<TaskId>, minVruntime: real)

  function Vruntime(attrs: Attrs, id: TaskId): real {
    AttrOf(attrs, id).vruntime
  }

  /** How far a returning task may lag behind the minimum. */
  function Credit(params: Params, weight: Weight): (r: real)
    requires params.Valid()
    ensures r >= 0.0
  {
    Scaled(params.latency, weight as real)
  }

  function Add(params: Params, s: Sched, attrs: Attrs, id: TaskId, unstarted: bool): (Sched, Attrs)
    requires params.Valid()
  {
    var a := AttrOf(attrs, id);
    var v := if unstarted then s.minVruntime else Max(a.vruntime, s.minVruntime - Credit(params, a.weight));
    (s.(queue := s.queue + [id]), attrs[id := a.(vruntime := v)])
  }

  function Distance(a: real, b: real): real {
    if a < b then b - a else a - b
  }

  predicate Before(attrs: Attrs, a: TaskId, b: TaskId) {
    if Distance(Vruntime(attrs, a), Vruntime(attrs, b)) > TOLERANCE then Vruntime(attrs, a) < Vruntime(attrs, b)
    else a < b
  }

  function Less(attrs: Attrs): Comparator {
    (a: TaskId, b: TaskId) => Before(attrs, a, b)
  }

  /** A period that gives n tasks the granularity each. */
  function Stretched(params: Params, n: nat): (r: real)
    requires params.Valid()
    ensures r >= 0.0
  {
    n as real * params.minGranularity
  }

  /** The period grows once the granularity would no longer fit. */
  function Period(params: Params, ready: nat): (r: real)
    requires params.Valid()
    ensures r >= 0.0
  {
    var n := if ready == 0 then 1 else ready;
    if n > (params.latency / params.minGranularity).Floor then Stretched(params, n) else params.latency
  }

  function Share(period: real, weight: nat, total: nat): real
    requires total > 0
  {
    period * weight as real / total as real
  }

  /** The total counts the chosen task twice, since it is still in the queue. */
  function SliceFor(params: Params, s: Sched, attrs: Attrs, id: TaskId): (r: real)
    requires params.Valid()
    ensures r >= params.minGranularity
  {
    var weight := AttrOf(attrs, id).weight;
    var total := weight + TotalWeight(attrs, s.queue);
    Max(Share(Period(params, |s.queue|), weight, total), params.minGranularity)
  }

  /** slice is the part of the period that weight has of total, unless least is more. */
  predicate IsPart(period: real, weight: nat, total: nat, least: real, slice: real) {
    && slice >= least
    && (slice * total as real == period * weight as real
        || (slice == least && slice * total as real > period * weight as real))
  }

  /** The period is the latency, or with more tasks than it has room for, a granularity each. */
  predicate IsShare(params: Params, n: nat, weight: nat, total: nat, slice: real)
    requires params.Valid()
  {
    var g := params.minGranularity;
    IsPart(if n > (params.latency / g).Floor then n as real * g else params.latency, weight, total, g, slice)
  }

  function Choice(params: Params, s: Sched, attrs: Attrs): Option<Decision>
    requires params.Valid()
  {
    if s.queue == [] then None
    else
      var best := MinElement(Less(attrs), s.queue);
      Some(Decision(best, SliceFor(params, s, attrs, best)))
  }

  function MinVruntime(attrs: Attrs, q: seq<TaskId>): real
    requires q != []
  {
    var n := |q| - 1;
    if n == 0 then Vruntime(attrs, q[0]) else Min(MinVruntime(attrs, q[..n]), Vruntime(attrs, q[n]))
  }

  /** update_min_vruntime. */
  function Updated(attrs: Attrs, s: Sched): Sched {
    if s.queue == [] then s else s.(minVruntime := Max(s.minVruntime, MinVruntime(attrs, s.queue)))
  }

  function Charge(params: Params, s: Sched, attrs: Attrs, id: TaskId, cpu: real): (Sched, Attrs) {
    var a := AttrOf(attrs, id);
    var attrs1 := attrs[id := a.(vruntime := a.vruntime + Scaled(cpu, a.weight as real))];
    (Updated(attrs1, s), attrs1)
  }

  predicate Preempts(params: Params, attrs: Attrs, id: TaskId, running: TaskId) {
    Vruntime(attrs, id) + Scaled(params.wakeupGranularity, AttrOf(attrs, running).weight as real)
      < Vruntime(attrs, running)
  }

  function Table(params: Params): Policy<Sched>
    requires params.Valid()
  {
    Policy(
      params.minGranularity,
      (_: Sched) => true,
      (s: Sched) => multiset(s.queue),
      (s: Sched, attrs: Attrs, id: TaskId, unstarted: bool) => Add(params, s, attrs, id, unstarted),
      (s: Sched, id: TaskId) => s.(queue := Drop(s.queue, id)),
      (s: Sched, attrs: Attrs) => Choice(params, s, attrs),
      (s: Sched, attrs: Attrs, id: TaskId, cpu: real) => Charge(params, s, attrs, id, cpu),
      (_: Sched, attrs: Attrs, id: TaskId, running: TaskId) => Preempts(params, attrs, id, running))
  }

  // ------------------------------------------------ the comparator

  /** The comparator is not transitive, so the scan need not find the least virtual runtime;
      but each step of the scan goes up by at most the tolerance. */
  lemma {:induction false} ChoiceNearLeast(attrs: Attrs, q: seq<TaskId>, x: TaskId)
    requires x in q
    ensures Vruntime(attrs, MinElement(Less(attrs), q)) <= Vruntime(attrs, x) + (|q| - 1) as real * TOLERANCE
  {
    var n := |q| - 1;
    assert q == q[..n] + [q[n]];
    if n > 0 && x in q[..n] {
      ChoiceNearLeast(attrs, q[..n], x);
    }
  }

  /** No queued task is put before best. */
  predicate Unbeaten(attrs: Attrs, q: seq<TaskId>, best: TaskId) {
    forall x :: x in q ==> !Before(attrs, x, best)
  }

  /** b is put before every other queued task: it has less virtual runtime by more than the
      tolerance, or is within it and has the smaller identifier. */
  predicate PutFirst(attrs: Attrs, q: seq<TaskId>, b: TaskId) {
    b in q && forall x :: x in q && x != b ==> Before(attrs, b, x)
  }

  /** The scan ends on a leading task if there is one. */
  lemma {:induction false} ScanFindsLeader(attrs: Attrs, q: seq<TaskId>, b: TaskId)
    requires PutFirst(attrs, q, b)
    ensures MinElement(Less(attrs), q) == b
  {
    var n := |q| - 1;
    assert q == q[..n] + [q[n]];
    if b in q[..n] {
      ScanFindsLeader(attrs, q[..n], b);
    } else if n > 0 {
      assert MinElement(Less(attrs), q[..n]) in q;
    }
  }

  /** Exactly when the scan is right: the task chosen is beaten by no queued task if and only
      if some queued task is put before all others. */
  lemma UnbeatenIffLeader(attrs: Attrs, q: seq<TaskId>)
    requires q != []
    ensures Unbeaten(attrs, q, MinElement(Less(attrs), q)) <==> exists b :: PutFirst(attrs, q, b)
    ensures Unbeaten(attrs, q, MinElement(Less(attrs), q)) ==>
              forall x :: x in q ==> Vruntime(attrs, MinElement(Less(attrs), q)) <= Vruntime(attrs, x) + TOLERANCE
  {
    var best := MinElement(Less(attrs), q);
    if Unbeaten(attrs, q, best) {
      assert PutFirst(attrs, q, best);
    }
    if b :| PutFirst(attrs, q, b) {
      ScanFindsLeader(attrs, q, b);
    }
  }

  predicate Close(attrs: Attrs, a: TaskId, b: TaskId) {
    Distance(Vruntime(attrs, a), Vruntime(attrs, b)) <= TOLERANCE
  }

  /** Where being within tolerance is transitive the comparator is a strict weak order and
      the scan is right. */
  lemma UnbeatenWhenTransitive(attrs: Attrs, q: seq<TaskId>)
    requires q != []
    requires forall a, b, c :: a in q && b in q && c in q && Close(attrs, a, b) && Close(attrs, b, c) ==> Close(attrs, a, c)
    ensures Unbeaten(attrs, q, MinElement(Less(attrs), q))
  {
    forall a, b, c | a in q && b in q && c in q && !Before(attrs, b, a) && !Before(attrs, c, b)
      ensures !Before(attrs, c, a)
    {
      assert Close(attrs, a, b) && Close(attrs, b, c) ==> Close(attrs, a, c);
      assert Close(attrs, b, a) && Close(attrs, a, c) ==> Close(attrs, b, c);
      assert Close(attrs, c, b) && Close(attrs, a, c) ==> Close(attrs, a, b);
    }
    forall x | x in q
      ensures !Before(attrs, x, MinElement(Less(attrs), q))
    {
      MinElementLeast(Less(attrs), q, x);
    }
  }

  /** Descending identifiers from top, each with one step more virtual runtime. */
  function Stairs(top: nat, step: real): Attrs {
    map k: nat | k <= top :: Stair(top, k, step)
  }

  function Stair(top: nat, k: nat, step: real): Attr
    requires k <= top
  {
    NewAttr(1024).(vruntime := Height(top - k, step))
  }

  function Height(k: nat, step: real): real {
    k as real * step
  }

  function Descending(top: nat, n: nat): (q: seq<TaskId>)
    requires n <= top + 1
    ensures |q| == n && forall i :: 0 <= i < n ==> q[i] == top - i
  {
    if n == 0 then [] else Descending(top, n - 1) + [top - (n - 1)]
  }

  lemma OneStepUp(k: nat, step: real)
    ensures Height(k + 1, step) == Height(k, step) + step
  {
  }

  lemma HeightsNonnegative(k: nat, step: real)
    requires step >= 0.0
    ensures Height(k, step) >= 0.0
  {
  }

  lemma NextStairIsBefore(top: nat, x: nat, step: real)
    requires x < top && 0.0 < step <= TOLERANCE
    ensures Before(Stairs(top, step), x, x + 1)
  {
    hide Height;
    OneStepUp(top - x - 1, step);
  }

  lemma ScanOneMore(attrs: Attrs, q: seq<TaskId>, x: TaskId)
    requires q != []
    ensures MinElement(Less(attrs), q + [x])
         == if Before(attrs, x, MinElement(Less(attrs), q)) then x else MinElement(Less(attrs), q)
  {
    assert (q + [x])[..|q|] == q;
  }

  /** The scan climbs the stairs to the end: each task is within tolerance of the one before
      and has the smaller identifier. */
  lemma {:induction false} ScanClimbs(top: nat, n: nat, step: real)
    requires 0 < n <= top + 1 && 0.0 < step <= TOLERANCE
    ensures MinElement(Less(Stairs(top, step)), Descending(top, n)) == top - (n - 1)
  {
    hide Height, Stairs, Before, MinElement, Less;
    if n > 1 {
      ScanClimbs(top, n - 1, step);
      NextStairIsBefore(top, top - (n - 1), step);
      ScanOneMore(Stairs(top, step), Descending(top, n - 1), top - (n - 1));
    }
  }

  /** The bound of ChoiceNearLeast is reached: for every number of tasks and every step within
      the tolerance there is a queue of that many different tasks whose choice has one step
      more virtual runtime than the least for each task but one. */
  lemma ChoiceBoundIsSharp(n: nat, step: real) returns (attrs: Attrs, q: seq<TaskId>, least: TaskId)
    requires n > 0 && 0.0 < step <= TOLERANCE
    ensures |q| == n && (forall i, j :: 0 <= i < j < n ==> q[i] != q[j])
    ensures least in q && forall x :: x in q ==> Vruntime(attrs, least) <= Vruntime(attrs, x)
    ensures Vruntime(attrs, MinElement(Less(attrs), q)) == Vruntime(attrs, least) + (n - 1) as real * step
  {
    hide MinElement, Descending, Stairs, Height, Less;
    attrs, q, least := Stairs(n - 1, step), Descending(n - 1, n), n - 1;
    ScanClimbs(n - 1, n, step);
    Ends(n - 1, step);
    assert q[0] == least;
    forall x | x in q
      ensures Vruntime(attrs, least) <= Vruntime(attrs, x)
    {
      NoStairNegative(n - 1, x, step);
    }
  }

  lemma NoStairNegative(top: nat, x: nat, step: real)
    requires x <= top && step >= 0.0
    ensures Vruntime(Stairs(top, step), x) >= 0.0
  {
    HeightsNonnegative(top - x, step);
  }

  lemma Ends(top: nat, step: real)
    ensures Vruntime(Stairs(top, step), top) == 0.0
    ensures Vruntime(Stairs(top, step), 0) == top as real * step
  {
    assert Stairs(top, step)[top] == Stair(top, top, step) && Stairs(top, step)[0] == Stair(top, 0, step);
  }

  lemma {:induction false} MinVruntimeLeast(attrs: Attrs, q: seq<TaskId>)
    requires q != []
    ensures forall x :: x in q ==> MinVruntime(attrs, q) <= Vruntime(attrs, x)
    ensures exists x :: x in q && MinVruntime(attrs, q) == Vruntime(attrs, x)
  {
    var n := |q| - 1;
    assert q == q[..n] + [q[n]];
    if n > 0 {
      MinVruntimeLeast(attrs, q[..n]);
      var x :| x in q[..n] && MinVruntime(attrs, q[..n]) == Vruntime(attrs, x);
      assert x in q && q[n] in q;
    } else {
      assert q[0] in q;
    }
  }

  // ------------------------------------------------ slices

  lemma ShareMeans(period: real, weight: nat, total: nat)
    requires total > 0
    ensures Share(period, weight, total) * total as real == period * weight as real
  {
  }

  lemma MoreIsMore(a: real, b: real, total: real)
    requires a < b && total > 0.0
    ensures a * total < b * total
  {
    assert (b - a) * total > 0.0;
  }

  lemma PeriodMeans(params: Params, n: nat)
    requires params.Valid() && n > 0
    ensures Period(params, n)
         == if n > (params.latency / params.minGranularity).Floor then n as real * params.minGranularity else params.latency
  {
  }

  lemma LongerOfTwo(period: real, weight: nat, total: nat, g: real)
    requires total > 0
    ensures IsPart(period, weight, total, g, Max(Share(period, weight, total), g))
  {
    hide Share;
    ShareMeans(period, weight, total);
    if Share(period, weight, total) < g {
      MoreIsMore(Share(period, weight, total), g, total as real);
    }
  }

  lemma SliceIsShare(params: Params, s: Sched, attrs: Attrs, id: TaskId)
    requires params.Valid() && s.queue != []
    ensures var w := AttrOf(attrs, id).weight;
            IsShare(params, |s.queue|, w, w + TotalWeight(attrs, s.queue), SliceFor(params, s, attrs, id))
  {
    hide Share, Period, Max, Stretched, IsPart;
    var w := AttrOf(attrs, id).weight;
    var total := w + TotalWeight(attrs, s.queue);
    LongerOfTwo(Period(params, |s.queue|), w, total, params.minGranularity);
    PartIsShare(params, |s.queue|, w, total, SliceFor(params, s, attrs, id));
  }

  lemma PartIsShare(params: Params, n: nat, weight: nat, total: nat, slice: real)
    requires params.Valid() && n > 0 && IsPart(Period(params, n), weight, total, params.minGranularity, slice)
    ensures IsShare(params, n, weight, total, slice)
  {
    hide IsPart, Period;
    PeriodMeans(params, n);
  }

  /** The task chosen gets the part of the period that its weight has of all queued weights and
      its own once more, or the granularity if that is more. */
  lemma ChoiceIsShare(params: Params, s: Sched, attrs: Attrs)
    requires params.Valid() && s.queue != []
    ensures Choice(params, s, attrs).Some?
    ensures var d := Choice(params, s, attrs).value;
            var w := AttrOf(attrs, d.id).weight;
            d.id in s.queue && IsShare(params, |s.queue|, w, w + TotalWeight(attrs, s.queue), d.slice)
  {
    hide SliceFor, IsShare;
    SliceIsShare(params, s, attrs, MinElement(Less(attrs), s.queue));
  }

  /** The part grows with the weight. */
  lemma ShareGrows(period: real, rest: nat, a: nat, b: nat)
    requires period > 0.0 && rest > 0 && a < b
    ensures Share(period, a, a + rest) < Share(period, b, b + rest)
  {
    var x, y := Share(period, a, a + rest), Share(period, b, b + rest);
    var p, q := (a + rest) as real, (b + rest) as real;
    ShareMeans(period, a, a + rest);
    ShareMeans(period, b, b + rest);
    Complement(period, x, a as real, rest as real);
    Complement(period, y, b as real, rest as real);
    Shrinks(period - x, period - y, p, q);
  }

  lemma Complement(period: real, x: real, a: real, rest: real)
    requires period > 0.0 && rest > 0.0 && a >= 0.0 && x * (a + rest) == period * a
    ensures (period - x) * (a + rest) == period * rest && period * rest > 0.0
  {
    assert (period - x) * (a + rest) == period * (a + rest) - x * (a + rest);
  }

  lemma Shrinks(u: real, v: real, p: real, q: real)
    requires 0.0 < p < q && u * p == v * q && u * p > 0.0
    ensures v < u
  {
    assert u > 0.0;
    MoreIsMore(p, q, u);
    if v > u {
      MoreIsMore(u, v, q);
    }
  }

  lemma PeriodPositive(params: Params, n: nat)
    requires params.Valid() && n > 0
    ensures Period(params, n) > 0.0
  {
    var l, g := params.latency, params.minGranularity;
    if n > (l / g).Floor {
      assert n as real * g > 0.0;
    } else {
      assert l / g >= 1.0;
      assert l / g * g == l;
    }
  }

  /** Of two tasks the heavier is granted no shorter a slice from the same queue, and a longer
      one if it is above the granularity. */
  lemma HeavierGetsMore(params: Params, s: Sched, attrs: Attrs, x: TaskId, y: TaskId)
    requires params.Valid() && s.queue != [] && AttrOf(attrs, x).weight < AttrOf(attrs, y).weight
    ensures SliceFor(params, s, attrs, x) <= SliceFor(params, s, attrs, y)
    ensures SliceFor(params, s, attrs, y) > params.minGranularity ==>
              SliceFor(params, s, attrs, x) < SliceFor(params, s, attrs, y)
  {
    hide Share, Period;
    PeriodPositive(params, |s.queue|);
    ShareGrows(Period(params, |s.queue|), TotalWeight(attrs, s.queue), AttrOf(attrs, x).weight, AttrOf(attrs, y).weight);
  }

  // ------------------------------------------------ lagging behind

  /** A charge leaves the minimum where it was or raises it to the least virtual runtime of the
      ready tasks, and then none is behind it; some ready task is not ahead of it. */
  lemma MinimumFollows(params: Params, s: Sched, attrs: Attrs, id: TaskId, cpu: real)
    requires s.queue != []
    ensures var (s', attrs') := Charge(params, s, attrs, id, cpu);
            && s'.minVruntime >= s.minVruntime
            && (exists x :: x in s.queue && Vruntime(attrs', x) <= s'.minVruntime)
            && (s'.minVruntime == s.minVruntime || forall x :: x in s.queue ==> s'.minVruntime <= Vruntime(attrs', x))
  {
    hide MinVruntime, Scaled;
    MinVruntimeLeast(Charge(params, s, attrs, id, cpu).1, s.queue);
  }

  /** A returning task keeps its virtual runtime unless that is behind the minimum by more than
      the latency at the task's weight, which then is how far it stays behind. */
  lemma ReturnIsClamped(params: Params, s: Sched, attrs: Attrs, id: TaskId)
    requires params.Valid()
    ensures var before, after := Vruntime(attrs, id), Vruntime(Add(params, s, attrs, id, false).1, id);
            var w := AttrOf(attrs, id).weight as real;
            && ((s.minVruntime - before) * w <= params.latency * 1024.0 ==> after == before)
            && ((s.minVruntime - before) * w > params.latency * 1024.0 ==>
                  after > before && (s.minVruntime - after) * w == params.latency * 1024.0)
  {
    hide Scaled;
    var w, lag := AttrOf(attrs, id).weight as real, s.minVruntime - Vruntime(attrs, id);
    var credit := Credit(params, AttrOf(attrs, id).weight);
    ScaledMeans(params.latency, w);
    Compare(lag, credit, w);
  }

  /** A task gives way exactly to one that is behind it by more than the wakeup granularity at
      its own weight. */
  lemma PreemptsLaggards(params: Params, attrs: Attrs, id: TaskId, running: TaskId)
    requires params.Valid()
    ensures Preempts(params, attrs, id, running) <==>
              (Vruntime(attrs, running) - Vruntime(attrs, id)) * AttrOf(attrs, running).weight as real
                > params.wakeupGranularity * 1024.0
  {
    hide Scaled;
    var w := AttrOf(attrs, running).weight as real;
    ScaledMeans(params.wakeupGranularity, w);
    Compare(Scaled(params.wakeupGranularity, w), Vruntime(attrs, running) - Vruntime(attrs, id), w);
  }

  // ------------------------------------------------ what the engines ask

  lemma AddFacts(params: Params, s: Sched, attrs: Attrs, id: TaskId, unstarted: bool)
    requires params.Valid()
    ensures var (s', attrs') := Add(params, s, attrs, id, unstarted);
            var a := AttrOf(attrs', id);
            && s'.queue == s.queue + [id] && s'.minVruntime == s.minVruntime
            && a.weight == AttrOf(attrs, id).weight
            && (unstarted ==> a.vruntime == s.minVruntime)
            && (!unstarted ==> a.vruntime == Max(Vruntime(attrs, id), s.minVruntime - Credit(params, a.weight)))
            && (forall x :: x != id ==> AttrOf(attrs', x) == AttrOf(attrs, x))
  {
    hide Credit;
  }

  lemma ChargeFacts(params: Params, s: Sched, attrs: Attrs, id: TaskId, cpu: real)
    ensures var (s', attrs') := Charge(params, s, attrs, id, cpu);
            var a := AttrOf(attrs, id);
            && s' == Updated(attrs', s) && s'.queue == s.queue
            && AttrOf(attrs', id) == a.(vruntime := a.vruntime + Scaled(cpu, a.weight as real))
            && (forall x :: x != id ==> AttrOf(attrs', x) == AttrOf(attrs, x))
  {
    hide Scaled;
  }

  lemma TableIsLawful(params: Params)
    requires params.Valid()
    ensures Lawful(Table(params)) && Fresh(Table(params), Sched([], 0.0))
  {
    hide Add, Charge, SliceFor;
    var p := Table(params);
    forall s: Sched, attrs, id, unstarted
      ensures Yields(p, p.add(s, attrs, id, unstarted).0, p.ready(s) + multiset{id})
    {
      AddFacts(params, s, attrs, id, unstarted);
    }
    forall s: Sched, attrs, id, cpu
      ensures Yields(p, p.charge(s, attrs, id, cpu).0, p.ready(s))
    {
      ChargeFacts(params, s, attrs, id, cpu);
    }
    forall s: Sched, id
      ensures Yields(p, p.remove(s, id), p.ready(s)[id := 0])
    {
      DropCounts(s.queue, id);
    }
  }

  lemma TableIsLocal(params: Params)
    requires params.Valid()
    ensures Local(Table(params))
  {
    hide Add, Charge;
    var p := Table(params);
    forall s: Sched, attrs, id, unstarted
      ensures Touches(p, s, id, attrs, p.add(s, attrs, id, unstarted).1)
    {
      AddFacts(params, s, attrs, id, unstarted);
    }
    forall s: Sched, attrs, id, cpu
      ensures Touches(p, s, id, attrs, p.charge(s, attrs, id, cpu).1)
    {
      ChargeFacts(params, s, attrs, id, cpu);
    }
  }

  // ------------------------------------------------ the scheduler object

  class CfsScheduler {
    const params: Params
    const ready: ReadyQueue
    var minVruntime: real

    ghost predicate Valid()
      reads this, ready
    {
      params.Valid()
    }

    ghost function State(): Sched
      reads this, ready
    {
      Sched(ready.tasks, minVruntime)
    }

    constructor (params: Params)
      requires params.Valid()
      ensures Valid() && this.params == params && fresh(ready) && State() == Sched([], 0.0)
    {
      this.params := params;
      ready := new ReadyQueue();
      minVruntime := 0.0;
    }

    method AddTask(tasks: TaskFields, id: TaskId, unstarted: bool)
      requires Valid()
      modifies ready, tasks
      ensures (State(), tasks.attrs) == old(Add(params, State(), tasks.attrs, id, unstarted))
    {
      var a := AttrOf(tasks.attrs, id);
      if unstarted {
        a := a.(vruntime := minVruntime);
      } else {
        var maxCredit := Credit(params, a.weight);
        a := a.(vruntime := Max(a.vruntime, minVruntime - maxCredit));
      }
      tasks.attrs := tasks.attrs[id := a];
      ready.AddTask(id);
    }

    method RemoveTask(id: TaskId)
      modifies ready
      ensures State() == old(State()).(queue := Drop(old(ready.tasks), id))
    {
      ready.RemoveTask(id);
    }

    method Schedule(tasks: TaskFields) returns (d: Option<Decision>)
      requires Valid()
      ensures d == Choice(params, State(), tasks.attrs)
    {
      var best := ready.FindBest(Less(tasks.attrs));
      if best.None? {
        return None;
      }
      var slice := CalcTimeSlice(tasks, best.value, |ready.tasks|);
      d := Some(Decision(best.value, slice));
    }

    method CalcTimeSlice(tasks: TaskFields, id: TaskId, running: nat) returns (slice: real)
      requires Valid() && running == |ready.tasks|
      ensures slice == SliceFor(params, State(), tasks.attrs, id)
      ensures var w := AttrOf(tasks.attrs, id).weight;
              running > 0 ==> IsShare(params, running, w, w + TotalWeight(tasks.attrs, ready.tasks), slice)
    {
      hide Share, IsShare;
      var n := if running == 0 then 1 else running;
      var period := params.latency;
      if n > (params.latency / params.minGranularity).Floor {
        period := Stretched(params, n);
      }
      var own := AttrOf(tasks.attrs, id).weight;
      var total: nat := own;
      for i := 0 to |ready.tasks|
        invariant total == own + TotalWeight(tasks.attrs, ready.tasks[..i])
      {
        assert ready.tasks[..i + 1][..i] == ready.tasks[..i];
        total := total + AttrOf(tasks.attrs, ready.tasks[i]).weight;
      }
      assert ready.tasks[..|ready.tasks|] == ready.tasks;
      slice := Max(Share(period, own, total), params.minGranularity);
      if running > 0 {
        SliceIsShare(params, State(), tasks.attrs, id);
      }
    }

    method OnCpuUsed(tasks: TaskFields, id: TaskId, cpu: real)
      requires Valid()
      modifies this`minVruntime, tasks
      ensures (State(), tasks.attrs) == old(Charge(params, State(), tasks.attrs, id, cpu))
    {
      var a := AttrOf(tasks.attrs, id);
      tasks.attrs := tasks.attrs[id := a.(vruntime := a.vruntime + Scaled(cpu, a.weight as real))];
      UpdateMinVruntime(tasks);
    }

    method UpdateMinVruntime(tasks: TaskFields)
      modifies this`minVruntime
      ensures State() == old(Updated(tasks.attrs, State()))
    {
      var least: Option<real> := None;
      for i := 0 to |ready.tasks|
        invariant if i == 0 then least.None? else least == Some(MinVruntime(tasks.attrs, ready.tasks[..i]))
      {
        assert ready.tasks[..i + 1][..i] == ready.tasks[..i];
        var v := Vruntime(tasks.attrs, ready.tasks[i]);
        least := Some(if least.None? then v else Min(least.value, v));
      }
      assert ready.tasks[..|ready.tasks|] == ready.tasks;
      if least.Some? {
        minVruntime := Max(minVruntime, least.value);
      }
    }

    method ShouldPreempt(tasks: TaskFields, id: TaskId, running: Option<TaskId>) returns (yes: bool)
      requires Valid()
      ensures yes <==> running.None? || Preempts(params, tasks.attrs, id, running.value)
      ensures running.Some? ==>
                (yes <==> (Vruntime(tasks.attrs, running.value) - Vruntime(tasks.attrs, id))
                            * AttrOf(tasks.attrs, running.value).weight as real > params.wakeupGranularity * 1024.0)
    {
      hide Scaled;
      if running.None? {
        return true;
      }
      var a := AttrOf(tasks.attrs, running.value);
      var gran := Scaled(params.wakeupGranularity, a.weight as real);
      PreemptsLaggards(params, tasks.attrs, id, running.value);
      yes := Vruntime(tasks.attrs, id) + gran < a.vruntime;
    }
  }
}

/** The rules of the feedback queue on one lane: a queued task's level is its queue, no
    ready task outranks the running one, and no task waits longer than a boost interval,
    one slice, and its turn in the top queue. */
module MlfqRules {
  import opened Common
  import opened Tasks
  import opened Policies
  import opened Lanes
  import opened SingleQueue
  import opened MultiQueue
  import opened Mlfq

  /** Every queued task's level is the queue that holds it. */
  ghost predicate Filed(params: Params, d: Lane<Sched>) {
    Shaped(params, d.sched) && QueuedByLevel(d.sched.queues, d.attrs)
  }

  lemma FiledIsShaped(params: Params, d: Lane<Sched>)
    requires Filed(params, d)
    ensures Shaped(params, d.sched)
  {
  }

  lemma CallKeepsFiled(params: Params, slice0: real, d: Lane<Sched>, call: Call)
    requires params.Valid() && slice0 > 0.0 && Sound(Table(params), d) && Filed(params, d) && Allowed(Table(params), d, call)
    ensures Filed(params, Do(Table(params), slice0, d, call))
  {
    hide Lawful, Add, Charge;
    match call
    case Added(id, unstarted) => AddKeepsFiled(params, d, id, unstarted);
    case Charged(cpu) => ChargeKeepsFiled(params, d, cpu);
    case Picked =>
    case Apart(lost, attrs) => ApartKeepsFiled(params, slice0, d, lost, attrs);
  }

  lemma AddKeepsFiled(params: Params, d: Lane<Sched>, id: TaskId, unstarted: bool)
    requires params.Valid() && Filed(params, d) && id !in AllQueued(d.sched.queues)
    ensures Filed(params, Admit(Table(params), d, id, unstarted))
  {
    hide Add;
    AddFacts(params, d.sched, d.attrs, id, unstarted);
    var d' := Admit(Table(params), d, id, unstarted);
    forall level, x | 0 <= level < |d'.sched.queues| && x in d'.sched.queues[level]
      ensures AttrOf(d'.attrs, x).level == level
    {
      if x == id {
        QueuedIn(d.sched.queues, id);
      } else {
        assert x in d.sched.queues[level];
      }
    }
  }

  lemma ChargeKeepsFiled(params: Params, d: Lane<Sched>, cpu: real)
    requires params.Valid() && Filed(params, d) && d.running.Some? && d.running.value !in AllQueued(d.sched.queues)
    ensures Filed(params, Release(Table(params), d, cpu))
  {
    hide Charge;
    var r, queues := d.running.value, d.sched.queues;
    ChargeFacts(params, d.sched, d.attrs, r, cpu);
    var d' := Release(Table(params), d, cpu);
    forall level, x | 0 <= level < |d'.sched.queues| && x in d'.sched.queues[level]
      ensures AttrOf(d'.attrs, x).level == level
    {
      QueuedIn(d'.sched.queues, x);
      assert ChargedAttr(params, d.sched, d.attrs, r, cpu, x, AttrOf(d'.attrs, x));
      if BoostDue(params, d.sched, cpu) {
        assert x in queues[0] + Lower(queues, |queues|);
      }
    }
  }

  lemma ApartKeepsFiled(params: Params, slice0: real, d: Lane<Sched>, lost: Option<TaskId>, attrs: Attrs)
    requires params.Valid() && Filed(params, d) && Can(Table(params), d, Outside(lost, attrs))
    ensures Filed(params, Next(Table(params), slice0, d, Outside(lost, attrs)))
  {
    var d' := Next(Table(params), slice0, d, Outside(lost, attrs));
    forall level, x | 0 <= level < |d'.sched.queues| && x in d'.sched.queues[level]
      ensures AttrOf(d'.attrs, x).level == level
    {
      assert x in d.sched.queues[level];
      QueuedIn(d.sched.queues, x);
      assert x in Table(params).ready(d.sched) && lost != Some(x);
      assert SameAttr(d.attrs, attrs, x);
    }
  }

  // ------------------------------------------------ rule 1

  /** No ready task has a higher priority (a smaller level) than the running one. */
  ghost predicate NobodyOutranks(d: Lane<Sched>) {
    d.running.Some? ==>
      && AttrOf(d.attrs, d.running.value).level >= 0
      && forall x :: x in AllQueued(d.sched.queues) ==> AttrOf(d.attrs, d.running.value).level <= AttrOf(d.attrs, x).level
  }

  /** No queued task has a smaller level than the first non-empty queue. */
  lemma NobodyAbove(params: Params, d: Lane<Sched>, x: TaskId)
    requires params.Valid() && Filed(params, d) && x in AllQueued(d.sched.queues)
    ensures FirstLevel(d.sched.queues, |d.sched.queues|) <= AttrOf(d.attrs, x).level
  {
    hide AllQueued;
    QueuedIn(d.sched.queues, x);
  }

  lemma BeginPicksTop(params: Params, slice0: real, d: Lane<Sched>)
    requires params.Valid() && Sound(Table(params), d) && Filed(params, d)
    ensures NobodyOutranks(Begin(Table(params), slice0, d))
  {
    hide Lawful, Choice, FirstLevel, AllQueued, DropAll, QueuedByLevel;
    if |AllQueued(d.sched.queues)| > 0 {
      ChoosesTopFront(params, d.sched, d.attrs);
      var top := FirstLevel(d.sched.queues, |d.sched.queues|);
      var front := d.sched.queues[top][0];
      FrontLevel(params, d, top);
      QueuedDrop(d.sched.queues, front);
      forall x | x in AllQueued(Begin(Table(params), slice0, d).sched.queues)
        ensures top <= AttrOf(d.attrs, x).level
      {
        NobodyAbove(params, d, x);
      }
    }
  }

  lemma FrontLevel(params: Params, d: Lane<Sched>, level: nat)
    requires Filed(params, d) && level < |d.sched.queues| && d.sched.queues[level] != []
    ensures AttrOf(d.attrs, d.sched.queues[level][0]).level == level
  {
    assert d.sched.queues[level][0] in d.sched.queues[level];
  }

  /** Rule 1 after every move, right after a boost too. */
  lemma MoveKeepsRule1(params: Params, slice0: real, d: Lane<Sched>, m: Move)
    requires params.Valid() && slice0 > 0.0 && Sound(Table(params), d) && Filed(params, d) && NobodyOutranks(d)
    requires Can(Table(params), d, m)
    ensures Filed(params, Next(Table(params), slice0, d, m)) && NobodyOutranks(Next(Table(params), slice0, d, m))
  {
    hide Lawful, Begin, Filed, NobodyOutranks, Table;
    var p := Table(params);
    match m
    case Arrive(id, cpu) =>
      AdmitSound(p, d, id, true);
      AddFiled(params, slice0, d, id, true);
      var d1 := Admit(p, d, id, true);
      SameCore(params, d, id, true);
      if d1.running.None? {
        BeginFiled(params, slice0, d1);
      } else if Charges(p, d, m) {
        CycleFiled(params, slice0, d1, cpu);
      } else {
        ArrivalBelow(params, d, id);
      }
    case Timer(cpu, done, stolen) =>
      if !done {
        CycleFiled(params, slice0, d, cpu);
      } else {
        ReleaseSound(p, d, cpu);
        ReleaseFiled(params, slice0, d, cpu);
        var d1 := Release(p, d, cpu);
        if stolen.Some? {
          AdmitSound(p, d1, stolen.value.0, stolen.value.1);
          AddFiled(params, slice0, d1, stolen.value.0, stolen.value.1);
          d1 := Admit(p, d1, stolen.value.0, stolen.value.1);
        }
        BeginFiled(params, slice0, d1);
      }
    case Outside(lost, attrs) =>
      ApartKeepsFiled(params, slice0, d, lost, attrs);
      ApartKeepsRule1(params, slice0, d, lost, attrs);
  }

  lemma AddFiled(params: Params, slice0: real, d: Lane<Sched>, id: TaskId, unstarted: bool)
    requires params.Valid() && Filed(params, d) && id !in Table(params).ready(d.sched)
    ensures Filed(params, Admit(Table(params), d, id, unstarted))
  {
    AddKeepsFiled(params, d, id, unstarted);
  }

  lemma ReleaseFiled(params: Params, slice0: real, d: Lane<Sched>, cpu: real)
    requires params.Valid() && Sound(Table(params), d) && Filed(params, d) && d.running.Some?
    ensures Filed(params, Release(Table(params), d, cpu))
  {
    hide Lawful;
    ChargeKeepsFiled(params, d, cpu);
  }

  lemma SameCore(params: Params, d: Lane<Sched>, id: TaskId, unstarted: bool)
    requires params.Valid()
    ensures Admit(Table(params), d, id, unstarted).running == d.running
    ensures Admit(Table(params), d, id, unstarted).granted == d.granted
  {
  }

  lemma BeginFiled(params: Params, slice0: real, d: Lane<Sched>)
    requires params.Valid() && slice0 > 0.0 && Sound(Table(params), d) && Filed(params, d) && d.running.None?
    ensures Filed(params, Begin(Table(params), slice0, d)) && NobodyOutranks(Begin(Table(params), slice0, d))
  {
    hide Lawful, Filed, NobodyOutranks;
    CallKeepsFiled(params, slice0, d, Picked);
    BeginPicksTop(params, slice0, d);
  }

  lemma CycleFiled(params: Params, slice0: real, d: Lane<Sched>, cpu: real)
    requires params.Valid() && slice0 > 0.0 && Sound(Table(params), d) && Filed(params, d) && d.running.Some?
    ensures var d' := Begin(Table(params), slice0,
                            Admit(Table(params), Release(Table(params), d, cpu), d.running.value, false));
            Filed(params, d') && NobodyOutranks(d')
  {
    hide Lawful, Filed, NobodyOutranks, Begin, Table;
    var p, id := Table(params), d.running.value;
    ReleaseSound(p, d, cpu);
    ReleaseFiled(params, slice0, d, cpu);
    AdmitSound(p, Release(p, d, cpu), id, false);
    AddFiled(params, slice0, Release(p, d, cpu), id, false);
    BeginFiled(params, slice0, Admit(p, Release(p, d, cpu), id, false));
  }

  /** An arrival that preempts nobody finds a top-level task running. */
  lemma ArrivalBelow(params: Params, d: Lane<Sched>, id: TaskId)
    requires params.Valid() && Sound(Table(params), d) && Filed(params, d) && NobodyOutranks(d)
    requires id !in Table(params).ready(d.sched) && d.running.Some? && d.running != Some(id)
    requires !Displaces(Table(params), Admit(Table(params), d, id, true), id)
    ensures NobodyOutranks(Admit(Table(params), d, id, true))
  {
    hide Lawful, Add;
    AddFacts(params, d.sched, d.attrs, id, true);
  }

  lemma ApartKeepsRule1(params: Params, slice0: real, d: Lane<Sched>, lost: Option<TaskId>, attrs: Attrs)
    requires params.Valid() && Sound(Table(params), d) && NobodyOutranks(d) && Filed(params, d)
    requires Can(Table(params), d, Outside(lost, attrs))
    ensures NobodyOutranks(Next(Table(params), slice0, d, Outside(lost, attrs)))
  {
    hide Lawful;
    var d' := Next(Table(params), slice0, d, Outside(lost, attrs));
    if d.running.Some? {
      assert SameAttr(d.attrs, attrs, d.running.value);
    }
    forall x | x in AllQueued(d'.sched.queues)
      ensures x in AllQueued(d.sched.queues) && AttrOf(attrs, x).level == AttrOf(d.attrs, x).level
    {
      if lost.Some? {
        QueuedDrop(d.sched.queues, lost.value);
      }
      assert x in Table(params).ready(d.sched) && lost != Some(x);
      assert SameAttr(d.attrs, attrs, x);
    }
  }

  // ------------------------------------------------ bounded waiting

  /** n quanta of the top level. */
  function TurnsAtTop(params: Params, n: nat): real
    requires params.Valid()
  {
    n as real * Quantum(params, 0)
  }

  /** What can still be charged while w waits in the top queue. */
  function TopBudget(params: Params, d: Lane<Sched>, w: TaskId): real
    requires params.Valid() && Shaped(params, d.sched)
  {
    TurnsAtTop(params, Ahead(d.sched.queues[0], w)) + if d.running.Some? then d.granted else 0.0
  }

  predicate AtTop(params: Params, d: Lane<Sched>, w: TaskId)
    requires params.Valid() && Shaped(params, d.sched)
  {
    w in d.sched.queues[0]
  }

  lemma CallSpendsTop(params: Params, slice0: real, d: Lane<Sched>, call: Call, w: TaskId)
    requires params.Valid() && slice0 > 0.0 && Sound(Table(params), d) && Filed(params, d)
    requires Allowed(Table(params), d, call) && AtTop(params, d, w)
    requires w in Table(params).ready(Do(Table(params), slice0, d, call).sched)
    ensures var d' := Do(Table(params), slice0, d, call);
            && Shaped(params, d'.sched) && AtTop(params, d', w)
            && TopBudget(params, d', w) + (if call.Charged? then call.cpu else 0.0) <= TopBudget(params, d, w)
  {
    hide Lawful, TurnsAtTop, Ahead, Begin, Add, Charge, AllQueued, Drop;
    TopIsQueued(params, d, w);
    match call
    case Added(id, unstarted) =>
      AddFacts(params, d.sched, d.attrs, id, unstarted);
      AheadAppend(d.sched.queues[0], [id], w);
    case Charged(cpu) =>
      ChargeFacts(params, d.sched, d.attrs, d.running.value, cpu);
      AheadAppend(d.sched.queues[0], Lower(d.sched.queues, |d.sched.queues|), w);
    case Picked => PickSpendsTop(params, slice0, d, w);
    case Apart(lost, attrs) =>
      if lost.Some? {
        DropAtTop(params, d.sched.queues, lost.value, w);
      }
  }

  lemma TopIsQueued(params: Params, d: Lane<Sched>, w: TaskId)
    requires params.Valid() && Shaped(params, d.sched) && AtTop(params, d, w)
    ensures w in AllQueued(d.sched.queues) && |AllQueued(d.sched.queues)| > 0
  {
    QueuedIn(d.sched.queues, w);
  }

  /** Removing x keeps w, if it stays queued, in the top queue and no further back. */
  lemma DropAtTop(params: Params, queues: Queues, x: TaskId, w: TaskId)
    requires params.Valid() && queues != [] && w in queues[0] && w in AllQueued(DropAll(queues, x))
    ensures w in DropAll(queues, x)[0]
    ensures TurnsAtTop(params, Ahead(DropAll(queues, x)[0], w)) <= TurnsAtTop(params, Ahead(queues[0], w))
    ensures queues[0][0] == x ==>
              TurnsAtTop(params, Ahead(DropAll(queues, x)[0], w)) + Quantum(params, 0) <= TurnsAtTop(params, Ahead(queues[0], w))
  {
    hide TurnsAtTop, Quantum, AllQueued, Ahead, Drop;
    QueuedDrop(queues, x);
    AheadDrop(queues[0], x, w);
    var a, b := Ahead(DropAll(queues, x)[0], w), Ahead(queues[0], w);
    FewerTurns(params, a, b);
    if a < b {
      FewerTurns(params, a + 1, b);
    }
  }

  lemma NoTurns(params: Params)
    requires params.Valid()
    ensures TurnsAtTop(params, 0) == 0.0
  {
  }

  lemma FewerTurns(params: Params, a: nat, b: nat)
    requires params.Valid() && a <= b
    ensures TurnsAtTop(params, a) <= TurnsAtTop(params, b)
    ensures a > 0 ==> TurnsAtTop(params, a - 1) + Quantum(params, 0) == TurnsAtTop(params, a)
  {
  }

  lemma PickSpendsTop(params: Params, slice0: real, d: Lane<Sched>, w: TaskId)
    requires params.Valid() && slice0 > 0.0 && Sound(Table(params), d) && Filed(params, d) && d.running.None?
    requires AtTop(params, d, w) && w in Table(params).ready(Begin(Table(params), slice0, d).sched)
    ensures var d' := Begin(Table(params), slice0, d);
            && Shaped(params, d'.sched) && AtTop(params, d', w)
            && TopBudget(params, d', w) <= TopBudget(params, d, w)
  {
    hide Lawful, Quantum, Choice, TurnsAtTop, Ahead, Drop, AllQueued, LeastQuantum;
    TopIsQueued(params, d, w);
    ChoosesTopFront(params, d.sched, d.attrs);
    var x := d.sched.queues[0][0];
    assert x in d.sched.queues[0];
    assert Begin(Table(params), slice0, d).sched.queues == DropAll(d.sched.queues, x);
    DropAtTop(params, d.sched.queues, x, w);
  }

  lemma BudgetNonnegative(params: Params, d: Lane<Sched>, w: TaskId)
    requires params.Valid() && Shaped(params, d.sched) && Sound(Table(params), d)
    ensures TopBudget(params, d, w) >= 0.0
  {
    hide Lawful;
  }

  /** In the top queue a task waits for its turn, whatever arrives. */
  lemma {:induction false} TopWait(params: Params, slice0: real, d: Lane<Sched>, calls: seq<Call>, w: TaskId)
    requires params.Valid() && slice0 > 0.0 && Sound(Table(params), d) && Filed(params, d) && AtTop(params, d, w)
    requires Trace(Table(params), slice0, d, calls) && Waits(Table(params), slice0, d, calls, w)
    ensures Used(calls) <= TopBudget(params, d, w)
    decreases |calls|
  {
    hide Sound, Filed, AtTop, TopBudget, Allowed, Do;
    FiledIsShaped(params, d);
    if calls == [] {
      BudgetNonnegative(params, d, w);
    } else {
      var d' := Do(Table(params), slice0, d, calls[0]);
      assert w in Table(params).ready(d'.sched);
      CallSpendsTop(params, slice0, d, calls[0], w);
      DoSound(Table(params), slice0, d, calls[0]);
      CallKeepsFiled(params, slice0, d, calls[0]);
      TopWait(params, slice0, d', calls[1..], w);
    }
  }

  /** The longest quantum of the first n levels. */
  function MostQuantum(params: Params, n: nat): (q: real)
    requires params.Valid() && 0 < n <= |params.levels|
    ensures q > 0.0 && forall k :: 0 <= k < n ==> params.levels[k].quantum <= q
  {
    if n == 1 then params.levels[0].quantum
    else Max(params.levels[n - 1].quantum, MostQuantum(params, n - 1))
  }

  function LongestSlice(params: Params): (q: real)
    requires params.Valid()
    ensures q > 0.0 && forall level :: Quantum(params, level) <= q
  {
    MostQuantum(params, |params.levels|)
  }

  /** The running slice is the quantum of its task's level, and a boost is never overdue. */
  predicate Paced(params: Params, d: Lane<Sched>)
    requires params.Valid()
  {
    && (d.running.Some? ==> d.granted == Quantum(params, AttrOf(d.attrs, d.running.value).level))
    && 0.0 <= d.sched.sinceBoost < params.boostInterval
  }

  lemma CallKeepsPace(params: Params, slice0: real, d: Lane<Sched>, call: Call)
    requires params.Valid() && slice0 > 0.0 && params.boostInterval > 0.0
    requires Sound(Table(params), d) && Shaped(params, d.sched) && Paced(params, d)
    requires Allowed(Table(params), d, call)
    ensures Paced(params, Do(Table(params), slice0, d, call))
    ensures var d' := Do(Table(params), slice0, d, call);
            params.enableBoost ==>
              if call.Charged? then
                if d.sched.sinceBoost + call.cpu < params.boostInterval then
                  d'.sched.sinceBoost == d.sched.sinceBoost + call.cpu
                else d'.sched.queues == Boosted(d.sched.queues)
              else d'.sched.sinceBoost == d.sched.sinceBoost
  {
    hide Lawful, Boosted, AllQueued, MostQuantum, Quantum, Add;
    match call
    case Added(id, unstarted) => AddFacts(params, d.sched, d.attrs, id, unstarted);
    case Charged(cpu) =>
    case Picked => PickPace(params, slice0, d);
    case Apart(_, attrs) =>
      if d.running.Some? {
        assert SameAttr(d.attrs, attrs, d.running.value);
      }
  }

  lemma PickPace(params: Params, slice0: real, d: Lane<Sched>)
    requires params.Valid() && Sound(Table(params), d) && d.running.None?
    ensures var d' := Begin(Table(params), slice0, d);
            && (d'.running.Some? ==> d'.granted == Quantum(params, AttrOf(d'.attrs, d'.running.value).level))
            && d'.sched.sinceBoost == d.sched.sinceBoost
  {
    hide Lawful, AllQueued;
  }

  /** How many tasks are ahead of w when it first is in the top queue. */
  ghost function AheadAtTop(params: Params, slice0: real, d: Lane<Sched>, calls: seq<Call>, w: TaskId): nat
    requires params.Valid() && Trace(Table(params), slice0, d, calls)
    decreases |calls|
  {
    if d.sched.queues != [] && w in d.sched.queues[0] then Ahead(d.sched.queues[0], w)
    else if calls == [] then 0
    else AheadAtTop(params, slice0, Do(Table(params), slice0, d, calls[0]), calls[1..], w)
  }

  /** A boost brings a waiting task to the top; nothing else moves it. */
  lemma WaitingMoves(params: Params, slice0: real, d: Lane<Sched>, call: Call, w: TaskId)
    requires params.Valid() && slice0 > 0.0 && Sound(Table(params), d) && Shaped(params, d.sched)
    requires Allowed(Table(params), d, call) && w in Table(params).ready(d.sched)
    requires w in Table(params).ready(Do(Table(params), slice0, d, call).sched)
    ensures var d' := Do(Table(params), slice0, d, call);
            && Shaped(params, d'.sched)
            && (call.Charged? && d'.sched.queues == Boosted(d.sched.queues) ==> AtTop(params, d', w))
  {
    hide Lawful, Add, Charge, Boosted, AllQueued, Choice, ChargedAttr, BoostDue;
    match call
    case Added(id, unstarted) => AddFacts(params, d.sched, d.attrs, id, unstarted);
    case Charged(cpu) =>
      ChargeFacts(params, d.sched, d.attrs, d.running.value, cpu);
      BoostedToTop(d.sched.queues, w);
    case Picked =>
    case Apart(_, _) =>
  }

  lemma BoostedToTop(queues: Queues, w: TaskId)
    requires queues != [] && w in AllQueued(queues)
    ensures w in Boosted(queues)[0]
  {
    hide AllQueued, Lower;
    LowerCounts(queues, |queues|);
    assert queues[..|queues|] == queues;
    assert w in queues[0] + Lower(queues, |queues|);
  }

  /** Bounded waiting: with boosts on, the CPU time charged while a task stays ready is less
      than a boost interval, one slice, and a top-level quantum for each task ahead of it
      when it is first in the top queue, whatever arrives meanwhile. */
  lemma {:induction false} WaitIsBounded(params: Params, slice0: real, d: Lane<Sched>, calls: seq<Call>, w: TaskId)
    requires params.Valid() && slice0 > 0.0 && params.boostInterval > 0.0 && params.enableBoost
    requires Sound(Table(params), d) && Filed(params, d) && Paced(params, d)
    requires Trace(Table(params), slice0, d, calls) && Waits(Table(params), slice0, d, calls, w)
    ensures Used(calls) + (if AtTopOf(d, w) then 0.0 else d.sched.sinceBoost)
          < params.boostInterval + LongestSlice(params) + TurnsAtTop(params, AheadAtTop(params, slice0, d, calls, w))
    decreases |calls|
  {
    hide Sound, Filed, Allowed, Do, TurnsAtTop, LongestSlice;
    FiledIsShaped(params, d);
    if AtTopOf(d, w) {
      TopWait(params, slice0, d, calls, w);
    } else if calls == [] {
      NoTurns(params);
    } else {
      var p, d' := Table(params), Do(Table(params), slice0, d, calls[0]);
      assert w in p.ready(d'.sched);
      WaitingMoves(params, slice0, d, calls[0], w);
      CallKeepsPace(params, slice0, d, calls[0]);
      DoSound(p, slice0, d, calls[0]);
      CallKeepsFiled(params, slice0, d, calls[0]);
      if AtTopOf(d', w) {
        TopWait(params, slice0, d', calls[1..], w);
        if calls[0].Charged? {
          ChargeInSlice(params, slice0, d, calls[0]);
        }
      } else {
        WaitIsBounded(params, slice0, d', calls[1..], w);
      }
    }
  }

  predicate AtTopOf(d: Lane<Sched>, w: TaskId) {
    d.sched.queues != [] && w in d.sched.queues[0]
  }

  lemma ChargeInSlice(params: Params, slice0: real, d: Lane<Sched>, call: Call)
    requires params.Valid() && Paced(params, d) && Allowed(Table(params), d, call) && call.Charged?
    ensures 0.0 <= call.cpu <= LongestSlice(params) && Do(Table(params), slice0, d, call).running.None?
  {
    hide Quantum, LongestSlice;
  }

  /** Until a boost the time since the last one adds up. */
  lemma {:induction false} NoBoostYet(params: Params, slice0: real, d: Lane<Sched>, calls: seq<Call>, w: TaskId)
    requires params.Valid() && slice0 > 0.0 && params.boostInterval > 0.0 && params.enableBoost
    requires Sound(Table(params), d) && Filed(params, d) && Paced(params, d)
    requires Trace(Table(params), slice0, d, calls) && Waits(Table(params), slice0, d, calls, w)
    ensures var d' := End(Table(params), slice0, d, calls);
            && Filed(params, d') && Paced(params, d')
            && (!AtTopOf(d', w) ==> d'.sched.sinceBoost == d.sched.sinceBoost + Used(calls))
            && (AtTopOf(d, w) ==> AtTopOf(d', w))
    decreases |calls|
  {
    hide Sound, Filed, Allowed, Do, LongestSlice;
    FiledIsShaped(params, d);
    if calls != [] {
      var p, d' := Table(params), Do(Table(params), slice0, d, calls[0]);
      assert w in p.ready(d'.sched);
      WaitingMoves(params, slice0, d, calls[0], w);
      if AtTopOf(d, w) {
        CallSpendsTop(params, slice0, d, calls[0], w);
      }
      CallKeepsPace(params, slice0, d, calls[0]);
      DoSound(p, slice0, d, calls[0]);
      CallKeepsFiled(params, slice0, d, calls[0]);
      NoBoostYet(params, slice0, d', calls[1..], w);
    }
  }

  lemma {:induction false} TraceKeepsPace(params: Params, slice0: real, d: Lane<Sched>, calls: seq<Call>)
    requires params.Valid() && slice0 > 0.0 && params.boostInterval > 0.0
    requires Sound(Table(params), d) && Filed(params, d) && Paced(params, d)
    requires Trace(Table(params), slice0, d, calls)
    ensures Filed(params, End(Table(params), slice0, d, calls)) && Paced(params, End(Table(params), slice0, d, calls))
    decreases |calls|
  {
    hide Sound, Filed, Allowed, Do;
    FiledIsShaped(params, d);
    if calls != [] {
      DoSound(Table(params), slice0, d, calls[0]);
      CallKeepsPace(params, slice0, d, calls[0]);
      CallKeepsFiled(params, slice0, d, calls[0]);
      TraceKeepsPace(params, slice0, Do(Table(params), slice0, d, calls[0]), calls[1..]);
    }
  }

  // ------------------------------------------------ boosts

  /** What a level allots: its own allotment, or one quantum. */
  function WholeAllotment(level: Level): real {
    if level.allotment > 0.0 then level.allotment else level.quantum
  }

  /** Rule 5: the charge that brings the time since the last boost to the interval puts every
      queued task at the top, behind those there in the order of their levels, each with the
      whole allotment of the top level, and starts the interval anew. */
  lemma BoostRestores(params: Params, d: Lane<Sched>, cpu: real, x: TaskId)
    requires params.Valid() && params.enableBoost && Sound(Table(params), d) && Filed(params, d) && d.running.Some?
    requires d.sched.sinceBoost + cpu >= params.boostInterval && x in AllQueued(d.sched.queues)
    ensures var d' := Release(Table(params), d, cpu);
            && d'.sched.queues != [] && x in d'.sched.queues[0] && d'.sched.queues[0] == MultiQueue.Joined(d.sched.queues, |d.sched.queues|)
            && (forall k :: 0 < k < |d'.sched.queues| ==> d'.sched.queues[k] == [])
            && AttrOf(d'.attrs, x).level == 0 && AttrOf(d'.attrs, x).allotment == WholeAllotment(params.levels[0])
            && d'.sched.sinceBoost == 0.0
  {
    hide Lawful, AllQueued, MultiQueue.Joined, Lower;
    var r := d.running.value;
    RunningNotQueued(params, d, r);
    ChargeFacts(params, d.sched, d.attrs, r, cpu);
    assert ChargedAttr(params, d.sched, d.attrs, r, cpu, x, AttrOf(Release(Table(params), d, cpu).attrs, x));
    BoostedToTop(d.sched.queues, x);
    InTopOrLower(params, d, x);
    JoinedIsLower(d.sched.queues, |d.sched.queues|);
  }

  lemma InTopOrLower(params: Params, d: Lane<Sched>, x: TaskId)
    requires params.Valid() && Filed(params, d) && x in AllQueued(d.sched.queues)
    ensures x !in Lower(d.sched.queues, |d.sched.queues|) ==> AttrOf(d.attrs, x).level == 0
  {
    hide AllQueued, Lower;
    LowerCounts(d.sched.queues, |d.sched.queues|);
    assert d.sched.queues[..|d.sched.queues|] == d.sched.queues;
    assert x in d.sched.queues[0] + Lower(d.sched.queues, |d.sched.queues|);
  }

  // ------------------------------------------------ demotion

  /** A level of the table, and some of its allotment left but no more than all of it. */
  predicate Budgeted(params: Params, a: Attr)
    requires params.Valid()
  {
    0 <= a.level < |params.levels| && 0.0 < a.allotment <= Allotment(params, a.level)
  }

  /** What w's fields say after a call, if nothing but its own charges touched them. */
  predicate OnlySpends(a: Attr, b: Attr, spent: real) {
    b.level == a.level && b.allotment == a.allotment - spent
  }

  function SpentBy(d: Lane<Sched>, call: Call, w: TaskId): real {
    if call.Charged? && d.running == Some(w) then call.cpu else 0.0
  }

  /** Along the trace w is neither demoted nor boosted, only charged. */
  ghost predicate StaysAtLevel(params: Params, slice0: real, d: Lane<Sched>, calls: seq<Call>, w: TaskId)
    requires params.Valid() && Trace(Table(params), slice0, d, calls)
    decreases |calls|
  {
    calls == [] ||
    var d' := Do(Table(params), slice0, d, calls[0]);
    && OnlySpends(AttrOf(d.attrs, w), AttrOf(d'.attrs, w), SpentBy(d, calls[0], w))
    && StaysAtLevel(params, slice0, d', calls[1..], w)
  }

  /** CPU time charged to w along the trace. */
  ghost function TimeOf(params: Params, slice0: real, d: Lane<Sched>, calls: seq<Call>, w: TaskId): real
    requires params.Valid() && Trace(Table(params), slice0, d, calls)
    decreases |calls|
  {
    if calls == [] then 0.0
    else SpentBy(d, calls[0], w) + TimeOf(params, slice0, Do(Table(params), slice0, d, calls[0]), calls[1..], w)
  }

  lemma {:induction false} TimeIsSpent(params: Params, slice0: real, d: Lane<Sched>, calls: seq<Call>, w: TaskId)
    requires params.Valid() && Trace(Table(params), slice0, d, calls) && StaysAtLevel(params, slice0, d, calls, w)
    ensures OnlySpends(AttrOf(d.attrs, w), AttrOf(End(Table(params), slice0, d, calls).attrs, w),
                       TimeOf(params, slice0, d, calls, w))
    decreases |calls|
  {
    hide Allowed, Do, SpentBy;
    if calls != [] {
      TimeIsSpent(params, slice0, Do(Table(params), slice0, d, calls[0]), calls[1..], w);
    }
  }

  /** A charge that leaves the level as it is leaves some allotment. */
  lemma StayKeepsBudget(params: Params, slice0: real, d: Lane<Sched>, call: Call, w: TaskId)
    requires params.Valid() && slice0 > 0.0 && Sound(Table(params), d) && Filed(params, d)
    requires Allowed(Table(params), d, call) && Budgeted(params, AttrOf(d.attrs, w))
    requires AttrOf(d.attrs, w).level < params.Bottom()
    requires OnlySpends(AttrOf(d.attrs, w), AttrOf(Do(Table(params), slice0, d, call).attrs, w), SpentBy(d, call, w))
    ensures Budgeted(params, AttrOf(Do(Table(params), slice0, d, call).attrs, w))
  {
    hide Lawful, Charge, Allotment, Add, Choice, AllQueued, BoostDue, QueuedAtTop;
    FiledIsShaped(params, d);
    if call.Charged? && d.running == Some(w) {
      RunningNotQueued(params, d, w);
      ChargeFacts(params, d.sched, d.attrs, w, call.cpu);
      assert ChargedAttr(params, d.sched, d.attrs, w, call.cpu, w, AttrOf(Do(Table(params), slice0, d, call).attrs, w));
    }
  }

  lemma RunningNotQueued(params: Params, d: Lane<Sched>, w: TaskId)
    requires params.Valid() && Sound(Table(params), d) && d.running == Some(w)
    ensures w !in AllQueued(d.sched.queues)
  {
    hide Lawful;
    assert w !in Table(params).ready(d.sched);
  }

  lemma {:induction false} StaysBudgeted(params: Params, slice0: real, d: Lane<Sched>, calls: seq<Call>, w: TaskId)
    requires params.Valid() && slice0 > 0.0 && Sound(Table(params), d) && Filed(params, d)
    requires Trace(Table(params), slice0, d, calls) && StaysAtLevel(params, slice0, d, calls, w)
    requires Budgeted(params, AttrOf(d.attrs, w)) && AttrOf(d.attrs, w).level < params.Bottom()
    ensures Budgeted(params, AttrOf(End(Table(params), slice0, d, calls).attrs, w))
    ensures Sound(Table(params), End(Table(params), slice0, d, calls))
    decreases |calls|
  {
    hide Sound, Filed, Allowed, Do, Budgeted, SpentBy;
    if calls != [] {
      DoSound(Table(params), slice0, d, calls[0]);
      CallKeepsFiled(params, slice0, d, calls[0]);
      StayKeepsBudget(params, slice0, d, calls[0], w);
      StaysBudgeted(params, slice0, Do(Table(params), slice0, d, calls[0]), calls[1..], w);
    }
  }

  /** However slices are cut up, a task that came to a level with its whole allotment leaves
      it, unless it is the bottom one, with the charge that brings its time there to the
      allotment, and that is within one quantum of it. */
  lemma DemotedByAllotment(params: Params, slice0: real, d: Lane<Sched>, calls: seq<Call>, w: TaskId, cpu: real)
    requires params.Valid() && slice0 > 0.0 && params.boostInterval > 0.0
    requires Sound(Table(params), d) && Filed(params, d) && Paced(params, d)
    requires Trace(Table(params), slice0, d, calls) && StaysAtLevel(params, slice0, d, calls, w)
    requires var a := AttrOf(d.attrs, w);
             a.allotment == Allotment(params, a.level) && 0 <= a.level < params.Bottom()
    requires var d' := End(Table(params), slice0, d, calls);
             d'.running == Some(w) && Allowed(Table(params), d', Charged(cpu))
    ensures var level := AttrOf(d.attrs, w).level;
            var after := AttrOf(Release(Table(params), End(Table(params), slice0, d, calls), cpu).attrs, w);
            var time := TimeOf(params, slice0, d, calls, w) + cpu;
            && time < Allotment(params, level) + Quantum(params, level)
            && (time >= Allotment(params, level) <==> after.level == level + 1)
            && (time < Allotment(params, level) <==> after.level == level)
            && (time >= Allotment(params, level) ==> after.allotment == Allotment(params, level + 1))
  {
    hide Lawful, Charge, Allotment, Quantum, Trace, End, StaysAtLevel, TimeOf, AllQueued;
    var d' := End(Table(params), slice0, d, calls);
    TimeIsSpent(params, slice0, d, calls, w);
    StaysBudgeted(params, slice0, d, calls, w);
    TraceKeepsPace(params, slice0, d, calls);
    RunningNotQueued(params, d', w);
    ChargeFacts(params, d'.sched, d'.attrs, w, cpu);
    assert ChargedAttr(params, d'.sched, d'.attrs, w, cpu, w, AttrOf(Release(Table(params), d', cpu).attrs, w));
  }
}

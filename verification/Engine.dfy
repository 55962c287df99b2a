/** Both event engines as functions on states.  A shared engine (src/core/simulator.cpp)
    has one scheduler for all cores; a per-core engine (src/core/multi_core_simulator.cpp)
    has one each, a load balancer, and optional stealing.  What the two files share is
    written once over QueueOf(core). */
module Engine {
  import opened Common
  import opened Tasks
  import opened Policies

  datatype Balancer = RoundRobin | LeastLoaded

  datatype Config = Config(
    cores: nat, shared: bool, balancer: Balancer, stealing: bool, defaultSlice: real)
  {
    predicate Valid() {
      cores > 0 && defaultSlice > 0.0
    }

    function Queues(): nat {
      if shared then 1 else cores
    }

    function QueueOf(core: nat): nat {
      if shared then 0 else core
    }
  }

  /** since is last_event_time_.  granted and busy are history: the slice of the last
      dispatch and all time charged on the core; no handler reads them. */
  datatype Core = Core(running: Option<TaskId>, since: real, granted: real, busy: real)

  /** Where a task is; history that no handler reads. */
  datatype Place = Pending | Queued(queue: nat) | OnCore(core: nat) | Finished

  datatype State<S> = State(
    now: real, tasks: map<TaskId, Task>, attrs: Attrs, scheds: seq<S>, cores: seq<Core>,
    events: seq<Event>, completed: seq<TaskId>, nextCore: nat,
    switches: nat, preemptions: nat, steals: nat, place: map<TaskId, Place>)

  /** What the handlers need to be defined: a lawful policy, indices in range and
      identifiers known. */
  ghost predicate Shape<S(!new)>(p: Policy<S>, cfg: Config, s: State<S>) {
    && Lawful(p) && cfg.Valid()
    && |s.cores| == cfg.cores && |s.scheds| == cfg.Queues()
    && (forall q :: 0 <= q < |s.scheds| ==> p.valid(s.scheds[q]))
    && s.place.Keys == s.tasks.Keys
    && (forall c :: 0 <= c < |s.cores| && s.cores[c].running.Some? ==> s.cores[c].running.value in s.tasks)
    && (forall q, id {:trigger p.ready(s.scheds[q])[id]} :: 0 <= q < |s.scheds| && id in p.ready(s.scheds[q]) ==> id in s.tasks)
    && (forall e :: e in s.events ==> e.id in s.tasks && (e.TimeSlice? ==> e.core < |s.cores|))
  }

  function ReadyCount<S>(p: Policy<S>, s: State<S>, q: nat): nat
    requires q < |s.scheds|
  {
    |p.ready(s.scheds[q])|
  }

  // ------------------------------------------------ steps shared by the handlers

  function AddTo<S(!new)>(p: Policy<S>, cfg: Config, s: State<S>, id: TaskId, q: nat): (r: State<S>)
    requires Shape(p, cfg, s) && id in s.tasks && q < cfg.Queues()
    ensures Shape(p, cfg, r) && r.now == s.now
  {
    var x := p.add(s.scheds[q], s.attrs, id, s.tasks[id].start < 0.0);
    s.(scheds := s.scheds[q := x.0], attrs := x.1, place := s.place[id := Queued(q)])
  }

  /** mark_ready and add_task. */
  function Enqueue<S(!new)>(p: Policy<S>, cfg: Config, s: State<S>, id: TaskId, q: nat): (r: State<S>)
    requires Shape(p, cfg, s) && id in s.tasks && q < cfg.Queues()
    ensures Shape(p, cfg, r) && r.now == s.now
  {
    AddTo(p, cfg, s.(tasks := s.tasks[id := s.tasks[id].MarkReady(s.now)]), id, q)
  }

  function RemoveFrom<S(!new)>(p: Policy<S>, cfg: Config, s: State<S>, id: TaskId, q: nat): (r: State<S>)
    requires Shape(p, cfg, s) && q < cfg.Queues()
    ensures Shape(p, cfg, r) && r.now == s.now
  {
    s.(scheds := s.scheds[q := p.remove(s.scheds[q], id)])
  }

  function Idle<S(!new)>(p: Policy<S>, cfg: Config, s: State<S>, c: nat): (r: State<S>)
    requires Shape(p, cfg, s) && c < cfg.cores
    ensures Shape(p, cfg, r) && r.now == s.now
  {
    s.(cores := s.cores[c := s.cores[c].(running := None)])
  }

  ghost predicate Busy<S(!new)>(p: Policy<S>, cfg: Config, s: State<S>, c: nat) {
    Shape(p, cfg, s) && c < cfg.cores && s.cores[c].running.Some?
  }

  /** execute and on_cpu_used for the task running on core c. */
  function Charge<S(!new)>(p: Policy<S>, cfg: Config, s: State<S>, c: nat): (r: State<S>)
    requires Busy(p, cfg, s, c)
    ensures Busy(p, cfg, r, c) && r.cores[c].running == s.cores[c].running && r.now == s.now
  {
    var core := s.cores[c];
    var id, elapsed, q := core.running.value, s.now - core.since, cfg.QueueOf(c);
    var x := p.charge(s.scheds[q], s.attrs, id, elapsed);
    s.(tasks := s.tasks[id := s.tasks[id].Execute(elapsed)],
       scheds := s.scheds[q := x.0], attrs := x.1,
       cores := s.cores[c := core.(busy := core.busy + elapsed)])
  }

  /** The running task of core c goes back to the core's queue. */
  function Requeue<S(!new)>(p: Policy<S>, cfg: Config, s: State<S>, c: nat): (r: State<S>)
    requires Busy(p, cfg, s, c)
    ensures Shape(p, cfg, r) && r.now == s.now
  {
    var id := s.cores[c].running.value;
    var t := s.tasks[id];
    var s1 := Idle(p, cfg, s, c).(tasks := s.tasks[id := t.(preemptions := t.preemptions + 1)],
                                  preemptions := s.preemptions + 1);
    Enqueue(p, cfg, s1, id, cfg.QueueOf(c))
  }

  function Complete<S(!new)>(p: Policy<S>, cfg: Config, s: State<S>, c: nat): (r: State<S>)
    requires Busy(p, cfg, s, c)
    ensures Shape(p, cfg, r) && r.now == s.now
  {
    var id := s.cores[c].running.value;
    Idle(p, cfg, s, c).(tasks := s.tasks[id := s.tasks[id].Complete(s.now)],
                        completed := s.completed + [id], place := s.place[id := Finished])
  }

  /** Put task d.id, already removed from its queue, on core c and set its timer. */
  function Launch<S(!new)>(p: Policy<S>, cfg: Config, s: State<S>, c: nat, d: Decision): (r: State<S>)
    requires Shape(p, cfg, s) && c < cfg.cores && d.id in s.tasks
    ensures Shape(p, cfg, r) && r.now == s.now
  {
    var slice := if d.slice > 0.0 then d.slice else cfg.defaultSlice;
    var t := s.tasks[d.id].MarkDispatched(s.now).Begin(s.now);
    s.(cores := s.cores[c := s.cores[c].(running := Some(d.id), since := s.now, granted := slice)],
       tasks := s.tasks[d.id := t], switches := s.switches + 1,
       events := s.events + [TimeSlice(s.now + Min(slice, t.remaining), d.id, c)],
       place := s.place[d.id := OnCore(c)])
  }

  // ------------------------------------------------ dispatch and stealing

  /** The core below i other than c with most ready tasks, at least two; the first such. */
  function Busiest<S>(p: Policy<S>, s: State<S>, c: nat, i: nat): (v: Option<nat>)
    requires i <= |s.scheds|
    ensures v.Some? ==> v.value < i && v.value != c && ReadyCount(p, s, v.value) > 1
    ensures forall j: nat :: j < i && j != c ==>
              ReadyCount(p, s, j) <= if v.Some? then ReadyCount(p, s, v.value) else 1
    ensures v.Some? ==> forall j: nat :: j < v.value && j != c ==>
              ReadyCount(p, s, j) < ReadyCount(p, s, v.value)
  {
    if i == 0 then None
    else
      var best := Busiest(p, s, c, i - 1);
      var most := if best.Some? then ReadyCount(p, s, best.value) else 1;
      if i - 1 != c && ReadyCount(p, s, i - 1) > most then Some(i - 1) else best
  }

  /** Take the task the victim would run next into core c's queue, then run what core
      c's own scheduler chooses; the core stays idle when there is nobody to steal from. */
  function Steal<S(!new)>(p: Policy<S>, cfg: Config, s: State<S>, c: nat): (r: State<S>)
    requires Shape(p, cfg, s) && c < cfg.cores && !cfg.shared
    ensures Shape(p, cfg, r) && r.now == s.now
  {
    var v := Busiest(p, s, c, cfg.cores);
    var asleep := Idle(p, cfg, s, c);
    if v.None? then asleep
    else
      var d := p.schedule(s.scheds[v.value], s.attrs);
      if d.None? then asleep
      else
        assert LawfulDecision(p, s.scheds[v.value], d);
        var s1 := RemoveFrom(p, cfg, s, d.value.id, v.value);
        var s2 := AddTo(p, cfg, s1, d.value.id, c).(steals := s.steals + 1);
        var local := p.schedule(s2.scheds[c], s2.attrs);
        var asleep2 := Idle(p, cfg, s2, c);
        if local.None? then asleep2
        else
          assert LawfulDecision(p, s2.scheds[c], local);
          Launch(p, cfg, RemoveFrom(p, cfg, s2, local.value.id, c), c, local.value)
  }

  function Dispatch<S(!new)>(p: Policy<S>, cfg: Config, s: State<S>, c: nat): (r: State<S>)
    requires Shape(p, cfg, s) && c < cfg.cores
    ensures Shape(p, cfg, r) && r.now == s.now
  {
    var q := cfg.QueueOf(c);
    var d := p.schedule(s.scheds[q], s.attrs);
    if ReadyCount(p, s, q) > 0 && d.Some? then
      assert LawfulDecision(p, s.scheds[q], d);
      Launch(p, cfg, RemoveFrom(p, cfg, s, d.value.id, q), c, d.value)
    else if cfg.stealing && !cfg.shared then Steal(p, cfg, s, c)
    else Idle(p, cfg, s, c)
  }

  function Preempt<S(!new)>(p: Policy<S>, cfg: Config, s: State<S>, c: nat): (r: State<S>)
    requires Shape(p, cfg, s) && c < cfg.cores
    ensures Shape(p, cfg, r) && r.now == s.now
  {
    if s.cores[c].running.None? then s
    else
      var s1 := Requeue(p, cfg, Charge(p, cfg, s, c), c);
      s1.(switches := s1.switches + 1)
  }

  // ------------------------------------------------ load balancing

  function Load<S>(p: Policy<S>, s: State<S>, c: nat): nat
    requires c < |s.scheds| && c < |s.cores|
  {
    ReadyCount(p, s, c) + if s.cores[c].running.Some? then 1 else 0
  }

  /** The first core below i with the fewest queued and running tasks. */
  function LeastLoadedBelow<S>(p: Policy<S>, s: State<S>, i: nat): (c: nat)
    requires 0 < i <= |s.scheds| && i <= |s.cores|
    ensures c < i
    ensures forall j: nat :: j < i ==> Load(p, s, c) <= Load(p, s, j)
    ensures forall j: nat :: j < c ==> Load(p, s, c) < Load(p, s, j)
  {
    if i == 1 then 0
    else
      var best := LeastLoadedBelow(p, s, i - 1);
      if Load(p, s, i - 1) < Load(p, s, best) then i - 1 else best
  }

  function Target<S(!new)>(p: Policy<S>, cfg: Config, s: State<S>): (c: nat)
    requires Shape(p, cfg, s) && !cfg.shared
    ensures c < cfg.cores
  {
    match cfg.balancer
    case RoundRobin => s.nextCore % cfg.cores
    case LeastLoaded => LeastLoadedBelow(p, s, cfg.cores)
  }

  // ------------------------------------------------ the handlers

  /** The first idle core below n, or n. */
  function FirstIdle<S>(s: State<S>, n: nat): (c: nat)
    requires n <= |s.cores|
    ensures c <= n && (c < n ==> s.cores[c].running.None?)
    ensures forall j :: 0 <= j < c ==> s.cores[j].running.Some?
  {
    if n == 0 then 0
    else
      var c := FirstIdle(s, n - 1);
      if c < n - 1 || s.cores[n - 1].running.None? then c else n
  }

  /** The first core below n whose task the new task id preempts, or n. */
  function FirstPreempted<S>(p: Policy<S>, s: State<S>, id: TaskId, n: nat): (c: nat)
    requires n <= |s.cores| && |s.scheds| > 0
    ensures c <= n && (c < n ==> Preempts(p, s, id, c))
    ensures forall j :: 0 <= j < c ==> !Preempts(p, s, id, j)
  {
    if n == 0 then 0
    else
      var c := FirstPreempted(p, s, id, n - 1);
      if c < n - 1 || Preempts(p, s, id, n - 1) then c else n
  }

  predicate Preempts<S>(p: Policy<S>, s: State<S>, id: TaskId, c: int)
    requires 0 <= c < |s.cores| && |s.scheds| > 0
  {
    s.cores[c].running.Some? && p.preempts(s.scheds[0], s.attrs, id, s.cores[c].running.value)
  }

  /** Simulator::handle_arrival. */
  function SharedArrival<S(!new)>(p: Policy<S>, cfg: Config, s: State<S>, id: TaskId): (r: State<S>)
    requires Shape(p, cfg, s) && id in s.tasks && cfg.shared
    ensures Shape(p, cfg, r) && r.now == s.now
  {
    var s1 := Enqueue(p, cfg, s, id, 0);
    var idle := FirstIdle(s1, cfg.cores);
    if idle < cfg.cores then Dispatch(p, cfg, s1, idle)
    else
      var victim := FirstPreempted(p, s1, id, cfg.cores);
      if victim < cfg.cores then Dispatch(p, cfg, Preempt(p, cfg, s1, victim), victim) else s1
  }

  /** MultiCoreSimulator::handle_arrival. */
  function PerCoreArrival<S(!new)>(p: Policy<S>, cfg: Config, s: State<S>, id: TaskId): (r: State<S>)
    requires Shape(p, cfg, s) && id in s.tasks && !cfg.shared
    ensures Shape(p, cfg, r) && r.now == s.now
  {
    var c := Target(p, cfg, s);
    var next := if cfg.balancer.RoundRobin? then (s.nextCore + 1) % cfg.cores else s.nextCore;
    var s1 := Enqueue(p, cfg, s.(nextCore := next), id, c);
    if s1.cores[c].running.None? then Dispatch(p, cfg, s1, c)
    else if p.preempts(s1.scheds[c], s1.attrs, id, s1.cores[c].running.value) then
      Dispatch(p, cfg, Preempt(p, cfg, s1, c), c)
    else s1
  }

  /** handle_time_slice: a timer whose task no longer runs on its core is ignored. */
  function TimerFires<S(!new)>(p: Policy<S>, cfg: Config, s: State<S>, id: TaskId, c: nat): (r: State<S>)
    requires Shape(p, cfg, s) && id in s.tasks && c < cfg.cores
    ensures Shape(p, cfg, r) && r.now == s.now
  {
    if s.cores[c].running != Some(id) then s
    else
      var s1 := Charge(p, cfg, s, c);
      var s2 := if s1.tasks[id].IsCompleted() then Complete(p, cfg, s1, c) else Requeue(p, cfg, s1, c);
      Dispatch(p, cfg, s2, c)
  }

  function Handle<S(!new)>(p: Policy<S>, cfg: Config, s: State<S>, e: Event): (r: State<S>)
    requires Shape(p, cfg, s) && e.id in s.tasks && (e.TimeSlice? ==> e.core < cfg.cores)
    ensures Shape(p, cfg, r) && r.now == s.now
  {
    match e
    case Arrival(_, id) => if cfg.shared then SharedArrival(p, cfg, s, id) else PerCoreArrival(p, cfg, s, id)
    case TimeSlice(_, id, c) => TimerFires(p, cfg, s, id, c)
  }

  // ------------------------------------------------ runs

  /** Event i may be the next one popped: events compare by time only. */
  predicate Earliest(events: seq<Event>, i: nat) {
    i < |events| && forall j :: 0 <= j < |events| ==> events[i].time <= events[j].time
  }

  function Pop<S(!new)>(p: Policy<S>, cfg: Config, s: State<S>, i: nat): (r: State<S>)
    requires Shape(p, cfg, s) && i < |s.events|
    ensures Shape(p, cfg, r)
  {
    s.(now := s.events[i].time, events := Without(s.events, i))
  }

  function Step<S(!new)>(p: Policy<S>, cfg: Config, s: State<S>, i: nat): (r: State<S>)
    requires Shape(p, cfg, s) && i < |s.events|
    ensures Shape(p, cfg, r) && r.now == s.events[i].time
  {
    assert s.events[i] in s.events;
    Handle(p, cfg, Pop(p, cfg, s, i), s.events[i])
  }

  /** choices are tie-breaks of a run that reaches no event after stop. */
  ghost predicate Run<S(!new)>(p: Policy<S>, cfg: Config, s: State<S>, choices: seq<nat>, stop: real)
    requires Shape(p, cfg, s)
    decreases |choices|
  {
    choices == [] ||
    (Earliest(s.events, choices[0]) && s.events[choices[0]].time <= stop
     && Run(p, cfg, Step(p, cfg, s, choices[0]), choices[1..], stop))
  }

  ghost function After<S(!new)>(p: Policy<S>, cfg: Config, s: State<S>, choices: seq<nat>, stop: real): (r: State<S>)
    requires Shape(p, cfg, s) && Run(p, cfg, s, choices, stop)
    ensures Shape(p, cfg, r)
    decreases |choices|
  {
    if choices == [] then s else After(p, cfg, Step(p, cfg, s, choices[0]), choices[1..], stop)
  }
}

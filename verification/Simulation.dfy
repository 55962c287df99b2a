/** The engines in the source's own form: tasks, cores, queues and counters are objects and
    arrays updated in place by the handlers.  Every method is tied to the functions of
    module Engine, whose runs the other modules reason about. */
module Simulation {
  import opened Common
  import opened Tasks
  import opened Policies
  import opened Engine
  import opened EngineInvariant
  import opened EngineTermination
  import EngineRuns
  import EngineUsage

  /** Task of src/core/task.cpp; View is its current value. */
  class TaskObject {
    const arrival: real
    const execution: real
    var remaining: real
    var start: real
    var completion: real
    var wait: real
    var preemptions: nat
    var inReady: bool
    var readySince: real

    function View(): Task
      reads this
    {
      Task(arrival, execution, remaining, start, completion, wait, preemptions, inReady, readySince)
    }

    constructor (arrival: real, execution: real)
      ensures View() == NewTask(arrival, execution)
    {
      this.arrival := arrival;
      this.execution := execution;
      remaining := execution;
      start := -1.0;
      completion := -1.0;
      wait := 0.0;
      preemptions := 0;
      inReady := false;
      readySince := 0.0;
    }

    method Begin(time: real)
      modifies this
      ensures View() == old(View()).Begin(time)
      ensures start == if old(start) < 0.0 then time else old(start)
    {
      if start < 0.0 {
        start := time;
      }
    }

    method Complete(time: real)
      modifies this
      ensures View() == old(View()).Complete(time)
    {
      completion := time;
    }

    method Execute(duration: real)
      modifies this
      ensures View() == old(View()).Execute(duration)
    {
      remaining := remaining - duration;
      if remaining < 0.0 {
        remaining := 0.0;
      }
    }

    method IncrementPreemptions()
      modifies this
      ensures View() == old(View()).(preemptions := old(preemptions) + 1)
    {
      preemptions := preemptions + 1;
    }

    method MarkReady(time: real)
      modifies this
      ensures View() == old(View()).MarkReady(time)
    {
      inReady := true;
      readySince := time;
    }

    method MarkDispatched(time: real)
      modifies this
      ensures View() == old(View()).MarkDispatched(time)
    {
      if !inReady {
        return;
      }
      wait := wait + Max(0.0, time - readySince);
      inReady := false;
    }
  }

  function Cores(running: seq<Option<TaskId>>, since: seq<real>, granted: seq<real>, busy: seq<real>): (cores: seq<Core>)
    requires |granted| == |busy| == |running| == |since|
    ensures |cores| == |running|
  {
    seq(|running|, c requires 0 <= c < |running| => Core(running[c], since[c], granted[c], busy[c]))
  }

  lemma CoreAt(running: seq<Option<TaskId>>, since: seq<real>, granted: seq<real>, busy: seq<real>, c: nat)
    requires |granted| == |busy| == |running| == |since| && c < |running|
    ensures |Cores(running, since, granted, busy)| == |running|
    ensures Cores(running, since, granted, busy)[c] == Core(running[c], since[c], granted[c], busy[c])
  {
  }

  lemma CoresChange(running: seq<Option<TaskId>>, since: seq<real>, granted: seq<real>, busy: seq<real>, c: nat,
                    r: Option<TaskId>, s: real, g: real, b: real)
    requires |granted| == |busy| == |running| == |since| && c < |running|
    ensures |Cores(running, since, granted, busy)| == |running|
    ensures Cores(running[c := r], since[c := s], granted[c := g], busy[c := b])
         == Cores(running, since, granted, busy)[c := Core(r, s, g, b)]
    ensures running[c := running[c]] == running && since[c := since[c]] == since
    ensures granted[c := granted[c]] == granted && busy[c := busy[c]] == busy
  {
  }

  lemma SameShape<S(!new)>(p: Policy<S>, cfg: Config, s: State<S>, r: State<S>)
    requires Shape(p, cfg, s) && r.tasks.Keys == s.tasks.Keys && r.place == s.place && r.cores == s.cores
    requires r.scheds == s.scheds && r.events == s.events
    ensures Shape(p, cfg, r)
  {
  }

  lemma {:induction false} FirstIdleStops<S>(s: State<S>, c: nat, n: nat)
    requires c < n <= |s.cores| && FirstIdle(s, c) == c && s.cores[c].running.None?
    ensures FirstIdle(s, n) == c
  {
    if c < n - 1 {
      FirstIdleStops(s, c, n - 1);
    }
  }

  lemma {:induction false} FirstPreemptedStops<S>(p: Policy<S>, s: State<S>, id: TaskId, c: nat, n: nat)
    requires c < n <= |s.cores| && |s.scheds| > 0 && FirstPreempted(p, s, id, c) == c && Preempts(p, s, id, c)
    ensures FirstPreempted(p, s, id, n) == c
  {
    if c < n - 1 {
      FirstPreemptedStops(p, s, id, c, n - 1);
    }
  }

  /** The measure of module EngineTermination. */
  ghost function Left<S>(p: Policy<S>, cfg: Config, s: State<S>, stop: real): nat {
    if Quantum(p, cfg) > 0.0 then Measure(s, stop, Quantum(p, cfg)) else 0
  }

  lemma {:induction false} SomeEarliest(events: seq<Event>)
    requires events != []
    ensures exists i: nat :: Earliest(events, i)
  {
    if |events| == 1 {
      assert Earliest(events, 0);
    } else {
      var rest := events[..|events| - 1];
      SomeEarliest(rest);
      var i: nat :| Earliest(rest, i);
      if events[|rest|].time < rest[i].time {
        assert Earliest(events, |rest|);
      } else {
        assert Earliest(events, i);
      }
    }
  }

  lemma EventIsKnown<S(!new)>(p: Policy<S>, cfg: Config, s: State<S>, i: nat)
    requires Shape(p, cfg, s) && i < |s.events|
    ensures s.events[i].id in s.tasks && (s.events[i].TimeSlice? ==> s.events[i].core < cfg.cores)
  {
    assert s.events[i] in s.events;
  }

  lemma RunningIsKnown<S(!new)>(p: Policy<S>, cfg: Config, s: State<S>)
    requires Shape(p, cfg, s)
    ensures |s.cores| == cfg.cores
    ensures forall c :: 0 <= c < |s.cores| && s.cores[c].running.Some? ==> s.cores[c].running.value in s.tasks
  {
  }

  lemma SubmitShape<S(!new)>(p: Policy<S>, cfg: Config, s: State<S>, job: EngineRuns.Job)
    requires Shape(p, cfg, s)
    ensures Shape(p, cfg, EngineRuns.Submit(s, job))
  {
  }

  class Simulator<S(!new)> {
    const p: Policy<S>
    const cfg: Config
    var scheds: seq<S>
    var running: seq<Option<TaskId>>
    var since: seq<real>
    var now: real
    var tasks: map<TaskId, TaskObject>
    var attrs: Attrs
    var events: seq<Event>
    var completed: seq<TaskId>
    var nextCore: nat
    var switches: nat
    var preemptions: nat
    var steals: nat
    ghost var granted: seq<real>
    ghost var busy: seq<real>
    ghost var place: map<TaskId, Place>

    /** No two tasks share an object, and the per-core vectors are equally long. */
    ghost predicate Separate()
      reads this
    {
      && (forall i, j :: i in tasks && j in tasks && i != j ==> tasks[i] != tasks[j])
      && |granted| == |busy| == |running| == |since|
    }

    ghost function TaskViews(): (views: map<TaskId, Task>)
      reads this, tasks.Values
      ensures views.Keys == tasks.Keys
    {
      map id | id in tasks :: tasks[id].View()
    }

    ghost function View(): State<S>
      requires Separate()
      reads this, tasks.Values
    {
      State(now, TaskViews(), attrs, scheds, Cores(running, since, granted, busy), events, completed,
            nextCore, switches, preemptions, steals, place)
    }

    ghost predicate Valid()
      reads this, tasks.Values
    {
      && Separate() && |scheds| == cfg.Queues() && |running| == cfg.cores
      && Shape(p, cfg, View())
    }

    constructor (p: Policy<S>, cfg: Config, sched: S)
      requires Lawful(p) && cfg.Valid() && Fresh(p, sched)
      ensures this.p == p && this.cfg == cfg
      ensures Valid() && View() == EngineRuns.Empty(cfg, sched) && tasks == map[]
    {
      this.p := p;
      this.cfg := cfg;
      scheds := seq(cfg.Queues(), _ => sched);
      running := seq(cfg.cores, _ => None);
      since := seq(cfg.cores, _ => 0.0);
      now := 0.0;
      tasks := map[];
      attrs := map[];
      events := [];
      completed := [];
      nextCore := 0;
      switches := 0;
      preemptions := 0;
      steals := 0;
      granted := seq(cfg.cores, _ => 0.0);
      busy := seq(cfg.cores, _ => 0.0);
      place := map[];
      new;
      assert Cores(running, since, granted, busy) == EngineRuns.Empty(cfg, sched).cores;
      assert TaskViews() == map[];
    }

    /** Only task id's object changed. */
    twostate lemma OneTaskChanged(id: TaskId)
      requires old(Separate()) && tasks == old(tasks) && id in tasks
      requires forall x :: x in tasks && x != id ==> unchanged(tasks[x])
      ensures TaskViews() == old(TaskViews())[id := tasks[id].View()]
    {
    }

    lemma TaskAt(id: TaskId)
      requires id in tasks
      ensures TaskViews()[id] == tasks[id].View()
    {
    }

    method MarkReady(id: TaskId)
      requires Separate() && id in tasks
      modifies tasks[id]
      ensures View() == old(View()).(tasks := old(View()).tasks[id := old(View()).tasks[id].MarkReady(now)])
    {
      tasks[id].MarkReady(now);
      OneTaskChanged(id);
    }

    /** add_task of queue q's scheduler. */
    method AddTo(id: TaskId, q: nat)
      requires Valid() && id in tasks && q < cfg.Queues()
      modifies this
      ensures tasks == old(tasks) && Valid()
      ensures View() == Engine.AddTo(p, cfg, old(View()), id, q)
    {
      hide Shape, Lawful;
      ghost var was := View();
      var x := p.add(scheds[q], attrs, id, tasks[id].start < 0.0);
      scheds := scheds[q := x.0];
      attrs := x.1;
      place := place[id := Queued(q)];
      assert TaskViews() == was.tasks;
      assert View() == Engine.AddTo(p, cfg, was, id, q);
    }

    /** mark_ready and add_task. */
    method Enqueue(id: TaskId, q: nat)
      requires Valid() && id in tasks && q < cfg.Queues()
      modifies this, tasks[id]
      ensures tasks == old(tasks) && Valid()
      ensures View() == Engine.Enqueue(p, cfg, old(View()), id, q)
    {
      MarkReady(id);
      AddTo(id, q);
    }

    method RemoveFrom(id: TaskId, q: nat)
      requires Valid() && q < cfg.Queues()
      modifies this
      ensures tasks == old(tasks) && Valid()
      ensures View() == Engine.RemoveFrom(p, cfg, old(View()), id, q)
    {
      hide Shape, Lawful;
      ghost var was := View();
      scheds := scheds[q := p.remove(scheds[q], id)];
      assert TaskViews() == was.tasks;
      assert View() == Engine.RemoveFrom(p, cfg, was, id, q);
    }

    method Execute(id: TaskId, duration: real)
      requires Separate() && id in tasks
      modifies tasks[id]
      ensures View() == old(View()).(tasks := old(View()).tasks[id := old(View()).tasks[id].Execute(duration)])
    {
      tasks[id].Execute(duration);
      OneTaskChanged(id);
    }

    method OnCpuUsed(id: TaskId, elapsed: real, q: nat)
      requires Separate() && q < |scheds|
      modifies this
      ensures tasks == old(tasks) && Separate()
      ensures running == old(running) && since == old(since) && granted == old(granted) && busy == old(busy)
      ensures var x := p.charge(old(scheds[q]), old(attrs), id, elapsed);
              View() == old(View()).(scheds := old(scheds)[q := x.0], attrs := x.1)
    {
      var x := p.charge(scheds[q], attrs, id, elapsed);
      scheds := scheds[q := x.0];
      attrs := x.1;
      assert TaskViews() == old(TaskViews());
    }

    method AddBusy(c: nat, elapsed: real)
      requires Separate() && c < |running|
      modifies this
      ensures tasks == old(tasks) && Separate()
      ensures var was := old(View());
              View() == was.(cores := was.cores[c := was.cores[c].(busy := was.cores[c].busy + elapsed)])
    {
      hide Cores;
      CoreAt(running, since, granted, busy, c);
      CoresChange(running, since, granted, busy, c, running[c], since[c], granted[c], busy[c] + elapsed);
      busy := busy[c := busy[c] + elapsed];
      assert TaskViews() == old(TaskViews());
    }

    /** execute and on_cpu_used for the task on core c. */
    method Charge(c: nat)
      requires Valid() && c < cfg.cores && running[c].Some? && running[c].value in tasks
      modifies this, tasks[running[c].value]
      ensures tasks == old(tasks) && Valid()
      ensures Busy(p, cfg, old(View()), c) && View() == Engine.Charge(p, cfg, old(View()), c)
    {
      hide Shape, Lawful, Cores, TaskViews;
      CoreAt(running, since, granted, busy, c);
      var id := running[c].value;
      var elapsed := now - since[c];
      Execute(id, elapsed);
      OnCpuUsed(id, elapsed, cfg.QueueOf(c));
      AddBusy(c, elapsed);
      assert View() == Engine.Charge(p, cfg, old(View()), c);
    }

    method SetIdle(c: nat)
      requires Valid() && c < cfg.cores
      modifies this
      ensures tasks == old(tasks) && Valid()
      ensures View() == Engine.Idle(p, cfg, old(View()), c)
    {
      hide Shape, Lawful;
      ghost var was := View();
      running := running[c := None];
      assert TaskViews() == was.tasks;
      assert Cores(running, since, granted, busy) == was.cores[c := was.cores[c].(running := None)];
      assert View() == Engine.Idle(p, cfg, was, c);
    }

    method IncrementPreemptions(id: TaskId)
      requires Separate() && id in tasks
      modifies this, tasks[id]
      ensures tasks == old(tasks) && Separate()
      ensures var was, t := old(View()), old(View()).tasks[id];
              View() == was.(tasks := was.tasks[id := t.(preemptions := t.preemptions + 1)],
                             preemptions := was.preemptions + 1)
    {
      hide Cores;
      tasks[id].IncrementPreemptions();
      OneTaskChanged(id);
      ghost var views := TaskViews();
      preemptions := preemptions + 1;
      assert TaskViews() == views;
    }

    /** The running task of core c goes back to the core's queue. */
    method Requeue(c: nat)
      requires Valid() && c < cfg.cores && running[c].Some? && running[c].value in tasks
      modifies this, tasks[running[c].value]
      ensures tasks == old(tasks) && Valid()
      ensures Busy(p, cfg, old(View()), c) && View() == Engine.Requeue(p, cfg, old(View()), c)
    {
      hide Lawful, Shape, Cores, TaskViews, Engine.Enqueue;
      RunningIsKnown(p, cfg, View());
      CoreAt(running, since, granted, busy, c);
      var id := running[c].value;
      SetIdle(c);
      ghost var s := View();
      IncrementPreemptions(id);
      SameShape(p, cfg, s, View());
      Enqueue(id, cfg.QueueOf(c));
    }

    method RecordCompletion(id: TaskId)
      requires Separate() && id in tasks
      modifies this, tasks[id]
      ensures tasks == old(tasks) && Separate()
      ensures var was := old(View());
              View() == was.(tasks := was.tasks[id := was.tasks[id].Complete(was.now)],
                             completed := was.completed + [id], place := was.place[id := Finished])
    {
      hide Cores;
      tasks[id].Complete(now);
      OneTaskChanged(id);
      ghost var views := TaskViews();
      completed := completed + [id];
      place := place[id := Finished];
      assert TaskViews() == views;
    }

    /** The running task of core c is done. */
    method Complete(c: nat)
      requires Valid() && c < cfg.cores && running[c].Some? && running[c].value in tasks
      modifies this, tasks[running[c].value]
      ensures tasks == old(tasks) && Valid()
      ensures Busy(p, cfg, old(View()), c) && View() == Engine.Complete(p, cfg, old(View()), c)
    {
      hide Shape, Lawful, Cores, TaskViews;
      CoreAt(running, since, granted, busy, c);
      var id := running[c].value;
      SetIdle(c);
      RecordCompletion(id);
      assert View() == Engine.Complete(p, cfg, old(View()), c);
    }

    method Started(id: TaskId)
      requires Separate() && id in tasks
      modifies tasks[id]
      ensures View() == old(View()).(tasks := old(View()).tasks[id := old(View()).tasks[id].MarkDispatched(now).Begin(now)])
    {
      tasks[id].MarkDispatched(now);
      tasks[id].Begin(now);
      OneTaskChanged(id);
    }

    method Occupy(c: nat, id: TaskId, slice: real)
      requires Separate() && c < |running|
      modifies this
      ensures tasks == old(tasks) && Separate()
      ensures var was := old(View());
              View() == was.(cores := was.cores[c := was.cores[c].(running := Some(id), since := was.now, granted := slice)])
    {
      hide Cores;
      CoreAt(running, since, granted, busy, c);
      CoresChange(running, since, granted, busy, c, Some(id), now, slice, busy[c]);
      running := running[c := Some(id)];
      since := since[c := now];
      granted := granted[c := slice];
      assert TaskViews() == old(TaskViews());
    }

    method SetTimer(c: nat, id: TaskId, time: real)
      requires Separate()
      modifies this
      ensures tasks == old(tasks) && Separate()
      ensures var was := old(View());
              View() == was.(switches := was.switches + 1, events := was.events + [TimeSlice(time, id, c)],
                             place := was.place[id := OnCore(c)])
    {
      hide Cores;
      switches := switches + 1;
      events := events + [TimeSlice(time, id, c)];
      place := place[id := OnCore(c)];
      assert TaskViews() == old(TaskViews());
    }

    /** Run task d.id, already removed from its queue, on core c. */
    method Launch(c: nat, d: Decision)
      requires Valid() && c < cfg.cores && d.id in tasks
      modifies this, tasks[d.id]
      ensures tasks == old(tasks) && Valid()
      ensures View() == Engine.Launch(p, cfg, old(View()), c, d)
    {
      hide Shape, Lawful, Cores;
      Occupy(c, d.id, if d.slice > 0.0 then d.slice else cfg.defaultSlice);
      Started(d.id);
      var slice := if d.slice > 0.0 then d.slice else cfg.defaultSlice;
      var remaining := tasks[d.id].remaining;
      SetTimer(c, d.id, now + Min(slice, remaining));
      assert View() == Engine.Launch(p, cfg, old(View()), c, d);
    }

    /** Find the core other than c with most ready tasks, at least two. */
    method FindBusiest(c: nat) returns (busiest: int)
      requires Valid() && !cfg.shared
      ensures Busiest(p, View(), c, cfg.cores) == if busiest < 0 then None else Some(busiest)
    {
      hide Shape, Lawful, Cores;
      busiest := -1;
      var most := 1;
      for i := 0 to cfg.cores
        invariant Busiest(p, View(), c, i) == if busiest < 0 then None else Some(busiest)
        invariant most == if busiest < 0 then 1 else |p.ready(scheds[busiest])|
      {
        if i != c {
          var ready := |p.ready(scheds[i])|;
          if ready > most {
            most := ready;
            busiest := i;
          }
        }
      }
    }

    method TryWorkSteal(c: nat) returns (ok: bool)
      requires Valid() && c < cfg.cores && !cfg.shared
      modifies this, tasks.Values
      ensures tasks == old(tasks) && Valid()
      ensures Engine.Steal(p, cfg, old(View()), c) == if ok then View() else Engine.Idle(p, cfg, View(), c)
    {
      hide Shape, Lawful, Cores, TaskViews, Engine.Launch, Busiest;
      ghost var s := View();
      var victim := FindBusiest(c);
      if victim < 0 {
        return false;
      }
      var d := p.schedule(scheds[victim], attrs);
      if d.None? {
        return false;
      }
      NextIsKnown(p, cfg, s, victim);
      var stolen := d.value.id;
      RemoveFrom(stolen, victim);
      AddTo(stolen, c);
      CountSteal();
      ghost var s2 := Engine.AddTo(p, cfg, Engine.RemoveFrom(p, cfg, s, stolen, victim), stolen, c).(steals := s.steals + 1);
      assert View() == s2;
      var local := p.schedule(scheds[c], attrs);
      if local.None? {
        return false;
      }
      StolenIsReady(p, cfg, s, c, victim, stolen);
      NextIsKnown(p, cfg, s2, c);
      RemoveFrom(local.value.id, c);
      Launch(c, local.value);
      return true;
    }

    method CountSteal()
      requires Valid()
      modifies this
      ensures tasks == old(tasks) && Valid()
      ensures View() == old(View()).(steals := old(steals) + 1)
    {
      steals := steals + 1;
      assert TaskViews() == old(TaskViews());
    }

    method DispatchNext(c: nat)
      requires Valid() && c < cfg.cores
      modifies this, tasks.Values
      ensures tasks == old(tasks) && Valid()
      ensures View() == Engine.Dispatch(p, cfg, old(View()), c)
    {
      hide Shape, Lawful, Cores, TaskViews, Engine.Steal, Engine.RemoveFrom, Engine.Launch;
      var q := cfg.QueueOf(c);
      if |p.ready(scheds[q])| > 0 {
        var d := p.schedule(scheds[q], attrs);
        if d.Some? {
          NextIsKnown(p, cfg, View(), q);
          RemoveFrom(d.value.id, q);
          Launch(c, d.value);
          return;
        }
      }
      if cfg.stealing && !cfg.shared {
        var ok := TryWorkSteal(c);
        if ok {
          return;
        }
      }
      SetIdle(c);
    }

    method PreemptCore(c: nat)
      requires Valid() && c < cfg.cores
      modifies this, tasks.Values
      ensures tasks == old(tasks) && Valid()
      ensures View() == Engine.Preempt(p, cfg, old(View()), c)
    {
      hide Shape, Lawful, Cores, TaskViews, Engine.Charge, Engine.Requeue;
      CoreAt(running, since, granted, busy, c);
      RunningIsKnown(p, cfg, View());
      if running[c].None? {
        return;
      }
      Charge(c);
      CoreAt(running, since, granted, busy, c);
      Requeue(c);
      CountSwitch();
    }

    method CountSwitch()
      requires Valid()
      modifies this
      ensures tasks == old(tasks) && Valid()
      ensures View() == old(View()).(switches := old(switches) + 1)
    {
      switches := switches + 1;
      assert TaskViews() == old(TaskViews());
    }

    // ------------------------------------------------ load balancing

    /** LoadBalancer::assign. */
    method Assign() returns (core: nat)
      requires Valid() && !cfg.shared
      modifies this
      ensures tasks == old(tasks) && Valid() && core == Target(p, cfg, old(View()))
      ensures View() == old(View()).(nextCore :=
                if cfg.balancer.RoundRobin? then (old(nextCore) + 1) % cfg.cores else old(nextCore))
      ensures cfg.balancer.RoundRobin? ==> core == old(nextCore) % cfg.cores
      ensures cfg.balancer.LeastLoaded? ==> forall k: nat :: k < cfg.cores ==> Load(p, old(View()), core) <= Load(p, old(View()), k)
    {
      if cfg.balancer.RoundRobin? {
        core := nextCore % cfg.cores;
        ghost var views := TaskViews();
        nextCore := (nextCore + 1) % cfg.cores;
        assert TaskViews() == views;
      } else {
        core := LeastLoadedCore();
      }
    }

    method LeastLoadedCore() returns (best: nat)
      requires Valid() && !cfg.shared
      ensures best == LeastLoadedBelow(p, View(), cfg.cores)
    {
      hide Shape, Lawful, Cores, TaskViews;
      best := 0;
      var bestLoad := None;
      for i := 0 to cfg.cores
        invariant bestLoad.None? <==> i == 0
        invariant i > 0 ==> best == LeastLoadedBelow(p, View(), i) && bestLoad == Some(Load(p, View(), best))
      {
        CoreAt(running, since, granted, busy, i);
        var load := |p.ready(scheds[i])| + if running[i].Some? then 1 else 0;
        if bestLoad.None? || load < bestLoad.value {
          bestLoad := Some(load);
          best := i;
        }
      }
    }

    // ------------------------------------------------ the handlers

    method HandleSharedArrival(id: TaskId)
      requires Valid() && id in tasks && cfg.shared
      modifies this, tasks.Values
      ensures tasks == old(tasks) && Valid()
      ensures View() == SharedArrival(p, cfg, old(View()), id)
    {
      hide Shape, Lawful, Cores, TaskViews, Engine.Enqueue, Engine.Preempt, Engine.Dispatch;
      Enqueue(id, 0);
      ghost var s1 := View();
      var c := 0;
      while c < cfg.cores
        invariant c <= cfg.cores && Valid() && View() == s1 && tasks == old(tasks)
        invariant FirstIdle(s1, c) == c
      {
        CoreAt(running, since, granted, busy, c);
        if running[c].None? {
          FirstIdleStops(s1, c, cfg.cores);
          DispatchNext(c);
          return;
        }
        c := c + 1;
      }
      c := 0;
      while c < cfg.cores
        invariant c <= cfg.cores && Valid() && View() == s1 && tasks == old(tasks)
        invariant FirstPreempted(p, s1, id, c) == c
      {
        CoreAt(running, since, granted, busy, c);
        if running[c].Some? && p.preempts(scheds[0], attrs, id, running[c].value) {
          FirstPreemptedStops(p, s1, id, c, cfg.cores);
          PreemptCore(c);
          DispatchNext(c);
          return;
        }
        c := c + 1;
      }
    }

    method HandlePerCoreArrival(id: TaskId)
      requires Valid() && id in tasks && !cfg.shared
      modifies this, tasks.Values
      ensures tasks == old(tasks) && Valid()
      ensures View() == PerCoreArrival(p, cfg, old(View()), id)
    {
      hide Shape, Lawful, Cores, TaskViews, Engine.Enqueue, Engine.Preempt, Engine.Dispatch, Target;
      var c := Assign();
      Enqueue(id, c);
      CoreAt(running, since, granted, busy, c);
      if running[c].None? {
        DispatchNext(c);
        return;
      }
      if p.preempts(scheds[c], attrs, id, running[c].value) {
        PreemptCore(c);
        DispatchNext(c);
      }
    }

    method HandleTimeSlice(id: TaskId, c: nat)
      requires Valid() && id in tasks && c < cfg.cores
      modifies this, tasks.Values
      ensures tasks == old(tasks) && Valid()
      ensures View() == TimerFires(p, cfg, old(View()), id, c)
    {
      hide Shape, Lawful, Cores, TaskViews, Engine.Charge, Engine.Requeue, Engine.Complete, Engine.Dispatch;
      CoreAt(running, since, granted, busy, c);
      if running[c] != Some(id) {
        return;
      }
      Charge(c);
      CoreAt(running, since, granted, busy, c);
      TaskAt(id);
      var done := tasks[id].remaining <= 0.001;
      if done {
        Complete(c);
      } else {
        Requeue(c);
      }
      DispatchNext(c);
    }

    // ------------------------------------------------ submitting and running

    method AddTask(job: EngineRuns.Job)
      requires Valid() && job.id !in tasks
      modifies this
      ensures Valid() && tasks.Keys == old(tasks.Keys) + {job.id}
      ensures fresh(tasks.Values - old(tasks.Values))
      ensures View() == EngineRuns.Submit(old(View()), job)
    {
      hide Shape, Lawful, Cores, TaskViews;
      SubmitShape(p, cfg, View(), job);
      InsertTask(job.id, job.arrival, job.execution);
      Announce(job);
      assert View() == EngineRuns.Submit(old(View()), job);
    }

    method Announce(job: EngineRuns.Job)
      requires Separate()
      modifies this
      ensures tasks == old(tasks) && Separate()
      ensures var was := old(View());
              View() == was.(attrs := was.attrs[job.id := NewAttr(job.weight)],
                             events := was.events + [Arrival(job.arrival, job.id)],
                             place := was.place[job.id := Pending])
    {
      hide Cores;
      attrs := attrs[job.id := NewAttr(job.weight)];
      events := events + [Arrival(job.arrival, job.id)];
      place := place[job.id := Pending];
      assert TaskViews() == old(TaskViews());
    }

    method InsertTask(id: TaskId, arrival: real, execution: real)
      requires Separate() && id !in tasks
      modifies this`tasks
      ensures Separate() && tasks.Keys == old(tasks.Keys) + {id}
      ensures fresh(tasks.Values - old(tasks.Values))
      ensures TaskViews() == old(TaskViews())[id := NewTask(arrival, execution)]
    {
      var t := new TaskObject(arrival, execution);
      tasks := tasks[id := t];
    }

    /** std::priority_queue compares times only: any earliest event may come first. */
    method NextEvent() returns (i: nat)
      requires events != []
      ensures Earliest(events, i)
    {
      SomeEarliest(events);
      i :| i < |events| && Earliest(events, i);
    }

    method TakeEvent(i: nat)
      requires Valid() && i < |events|
      modifies this
      ensures tasks == old(tasks) && Valid()
      ensures View() == Pop(p, cfg, old(View()), i)
    {
      hide Shape, Lawful, Cores;
      ghost var was := View();
      now := events[i].time;
      events := Without(events, i);
      assert TaskViews() == was.tasks;
      assert View() == Pop(p, cfg, was, i);
    }

    method Cut(i: nat, stop: real)
      requires Separate() && i < |events|
      modifies this
      ensures tasks == old(tasks) && Separate()
      ensures View() == old(View()).(now := stop, events := Without(old(events), i))
    {
      now := stop;
      events := Without(events, i);
      assert TaskViews() == old(TaskViews());
    }

    /** The event loop.  It takes a run's worth of events, and ends with none left or with
        the clock at stop, the first event past stop dropped. */
    method Run(stop: real) returns (ghost choices: seq<nat>)
      requires Valid() && Inv(p, cfg, View())
      modifies this, tasks.Values
      ensures Separate() && tasks == old(tasks)
      ensures Engine.Run(p, cfg, old(View()), choices, stop)
      ensures EngineRuns.Stopped(After(p, cfg, old(View()), choices, stop), View(), stop)
    {
      hide InvBut, Lawful, Shape, Cores, TaskViews, Engine.Run, After, Step, Measure, Quantum;
      ghost var start := View();
      choices := [];
      EngineRuns.NoChoices(p, cfg, start, stop);
      while events != []
        invariant tasks == old(tasks) && Valid() && Inv(p, cfg, View())
        invariant Engine.Run(p, cfg, start, choices, stop) && View() == After(p, cfg, start, choices, stop)
        decreases Left(p, cfg, View(), stop)
      {
        var i := NextEvent();
        var e := events[i];
        ghost var s := View();
        if e.time > stop {
          Cut(i, stop);
          return;
        }
        StepKeeps(p, cfg, s, i);
        StepCost(p, cfg, s, i, stop);
        EngineRuns.OneMoreChoice(p, cfg, start, choices, i, stop);
        choices := choices + [i];
        HandleNext(i);
      }
    }

    /** Pop event i and handle it. */
    method HandleNext(i: nat)
      requires Valid() && i < |events|
      modifies this, tasks.Values
      ensures tasks == old(tasks) && Valid()
      ensures View() == Step(p, cfg, old(View()), i)
    {
      hide Shape, Lawful, Cores, TaskViews, SharedArrival, PerCoreArrival, TimerFires;
      var e := events[i];
      EventIsKnown(p, cfg, View(), i);
      TakeEvent(i);
      match e {
        case Arrival(_, id) =>
          if cfg.shared {
            HandleSharedArrival(id);
          } else {
            HandlePerCoreArrival(id);
          }
        case TimeSlice(_, id, c) =>
          HandleTimeSlice(id, c);
      }
    }
  }
  /** What a whole simulation of the jobs may report: each completed task once, with its
      times adding up, and all of them when the events were drained. */
  ghost predicate Reports<S>(jobs: seq<EngineRuns.Job>, last: State<S>, r: State<S>) {
    && (forall id :: id in r.completed ==>
          && id in r.tasks && multiset(r.completed)[id] == 1
          && var t := r.tasks[id];
             t.TurnaroundTime() == t.wait + t.execution - t.remaining && 0.0 <= t.remaining <= 0.001)
    && (last.events == [] ==> forall i :: 0 <= i < |jobs| ==> jobs[i].id in r.completed)
  }

  lemma RunReports<S(!new)>(p: Policy<S>, cfg: Config, sched: S, jobs: seq<EngineRuns.Job>,
                            choices: seq<nat>, stop: real, s: State<S>)
    requires EngineRuns.Reached(p, cfg, sched, jobs, choices, stop, s)
    ensures Reports(jobs, s, s)
  {
    hide EngineRuns.Reached;
    KnownJobs(p, cfg, sched, jobs, choices, stop, s);
    forall id | id in s.completed
      ensures id in s.tasks && multiset(s.completed)[id] == 1
      ensures s.tasks[id].TurnaroundTime() == s.tasks[id].wait + s.tasks[id].execution - s.tasks[id].remaining
      ensures 0.0 <= s.tasks[id].remaining <= 0.001
    {
      CompletedOnce(p, cfg, sched, jobs, choices, stop, s, id);
      EngineRuns.TimesAddUp(p, cfg, sched, jobs, choices, stop, s, id);
    }
    if s.events == [] {
      forall i | 0 <= i < |jobs|
        ensures jobs[i].id in s.completed
      {
        DrainedRunCompletes(p, cfg, sched, jobs, choices, stop, s, jobs[i].id);
        assert jobs[i].id in multiset(s.completed);
      }
    }
  }

  lemma KnownJobs<S(!new)>(p: Policy<S>, cfg: Config, sched: S, jobs: seq<EngineRuns.Job>,
                           choices: seq<nat>, stop: real, s: State<S>)
    requires EngineRuns.Reached(p, cfg, sched, jobs, choices, stop, s)
    ensures forall i :: 0 <= i < |jobs| ==> jobs[i].id in s.tasks
  {
    EngineUsage.CpuTimeIsConserved(p, cfg, sched, jobs, choices, stop, s);
    forall i | 0 <= i < |jobs|
      ensures jobs[i].id in s.tasks
    {
      assert EngineRuns.Ids(jobs)[i] in EngineRuns.Ids(jobs);
    }
  }

  lemma CompletedOnce<S(!new)>(p: Policy<S>, cfg: Config, sched: S, jobs: seq<EngineRuns.Job>,
                               choices: seq<nat>, stop: real, s: State<S>, id: TaskId)
    requires EngineRuns.Reached(p, cfg, sched, jobs, choices, stop, s) && id in s.completed
    ensures id in s.tasks && multiset(s.completed)[id] == 1
  {
    hide Clock, Accounted, Timers, Lawful;
    EngineRuns.ReachedInv(p, cfg, sched, jobs, choices, stop, s);
    assert id in multiset(s.completed);
  }

  /** A whole simulation: submit the jobs in order and run until stop. */
  method Simulate<S(!new)>(p: Policy<S>, cfg: Config, sched: S, jobs: seq<EngineRuns.Job>, stop: real)
    returns (sim: Simulator<S>, ghost choices: seq<nat>, ghost last: State<S>)
    requires Lawful(p) && cfg.Valid() && Fresh(p, sched) && EngineRuns.ValidJobs(jobs)
    ensures fresh(sim) && sim.Separate()
    ensures EngineRuns.Reached(p, cfg, sched, jobs, choices, stop, last)
    ensures EngineRuns.Stopped(last, sim.View(), stop) && Reports(jobs, last, sim.View())
  {
    hide Lawful, Shape, InvBut, Cores, Engine.Run, After, Reports, EngineRuns.Reached, EngineRuns.Stopped;
    sim := new Simulator(p, cfg, sched);
    for k := 0 to |jobs|
      invariant fresh(sim) && fresh(sim.tasks.Values) && sim.Valid() && sim.p == p && sim.cfg == cfg
      invariant sim.View() == EngineRuns.Initial(cfg, sched, jobs[..k])
    {
      JobIsNew(p, cfg, sched, jobs, k);
      sim.AddTask(jobs[k]);
      assert jobs[..k + 1][..k] == jobs[..k];
    }
    assert jobs[..|jobs|] == jobs;
    EngineRuns.InitialInv(p, cfg, sched, jobs);
    choices := sim.Run(stop);
    last := After(p, cfg, EngineRuns.Initial(cfg, sched, jobs), choices, stop);
    Reaches(p, cfg, sched, jobs, choices, stop);
    RunReports(p, cfg, sched, jobs, choices, stop, last);
    SameReports(jobs, last, sim.View(), stop);
  }

  lemma Reaches<S(!new)>(p: Policy<S>, cfg: Config, sched: S, jobs: seq<EngineRuns.Job>, choices: seq<nat>, stop: real)
    requires Lawful(p) && cfg.Valid() && Fresh(p, sched) && EngineRuns.ValidJobs(jobs)
    requires Shape(p, cfg, EngineRuns.Initial(cfg, sched, jobs))
    requires Engine.Run(p, cfg, EngineRuns.Initial(cfg, sched, jobs), choices, stop)
    ensures EngineRuns.Reached(p, cfg, sched, jobs, choices, stop, After(p, cfg, EngineRuns.Initial(cfg, sched, jobs), choices, stop))
  {
    hide Lawful, Shape, Engine.Run, After;
  }

  lemma JobIsNew<S(!new)>(p: Policy<S>, cfg: Config, sched: S, jobs: seq<EngineRuns.Job>, k: nat)
    requires Lawful(p) && cfg.Valid() && Fresh(p, sched) && EngineRuns.ValidJobs(jobs) && k < |jobs|
    ensures jobs[k].id !in EngineRuns.Initial(cfg, sched, jobs[..k]).tasks
  {
    hide Lawful, InvBut, EngineRuns.Initial;
    EngineRuns.InitialInv(p, cfg, sched, jobs[..k]);
  }

  lemma SameReports<S>(jobs: seq<EngineRuns.Job>, last: State<S>, r: State<S>, stop: real)
    requires Reports(jobs, last, last) && EngineRuns.Stopped(last, r, stop)
    ensures Reports(jobs, last, r)
  {
  }
}

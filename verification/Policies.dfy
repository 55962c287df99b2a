/** The scheduler interface of include/scheduler/scheduler.hpp: a policy is a table of
    functions over its own state S and the scheduling fields of the tasks. */
module Policies {
  import opened Common
  import opened Tasks

  type Weight = w: nat | w > 0 witness 1024

  /** The fields of a task that only schedulers read and write. */
  datatype Attr = Attr(
    weight: Weight, vruntime: real, deadline: real, eligible: real,
    stride: nat, pass: nat, level: int, allotment: real)

  type Attrs = map<TaskId, Attr>

  function NewAttr(weight: Weight): Attr {
    Attr(weight, 0.0, 0.0, 0.0, 0, 0, 0, 0.0)
  }

  function AttrOf(attrs: Attrs, id: TaskId): Attr {
    if id in attrs then attrs[id] else NewAttr(1024)
  }

  /** The weight of nice level 0, and the tolerance of comparisons. */
  const NICE_0_LOAD := 1024.0
  const TOLERANCE := 0.000000001

  /** amount on the scale of nice level 0, for a task or group of the given weight. */
  function Scaled(amount: real, weight: real): (r: real)
    requires weight > 0.0
    ensures amount >= 0.0 ==> r >= 0.0
    ensures amount > 0.0 ==> r > 0.0
  {
    amount * NICE_0_LOAD / weight
  }

  lemma ScaledMeans(amount: real, weight: real)
    requires weight > 0.0
    ensures Scaled(amount, weight) * weight == amount * 1024.0
  {
  }

  /** A comparison times a weight. */
  lemma Compare(a: real, b: real, w: real)
    requires w > 0.0
    ensures a < b <==> a * w < b * w
    ensures a == b <==> a * w == b * w
  {
    assert a < b ==> (b - a) * w > 0.0;
    assert a > b ==> (a - b) * w > 0.0;
  }

  datatype Decision = Decision(id: TaskId, slice: real)

  /** A scheduler class: valid says which states its constructor and methods leave it in,
      minSlice is the smallest positive slice it then grants.  add's last argument says that
      the task has never been started; preempts takes the new task, then the running one. */
  datatype Policy<!S> = Policy(
    minSlice: real,
    valid: S -> bool,
    ready: S -> multiset<TaskId>,
    add: (S, Attrs, TaskId, bool) -> (S, Attrs),
    remove: (S, TaskId) -> S,
    schedule: (S, Attrs) -> Option<Decision>,
    charge: (S, Attrs, TaskId, real) -> (S, Attrs),
    preempts: (S, Attrs, TaskId, TaskId) -> bool)

  /** What the engines rely on: the ready tasks are what was added and not removed,
      charging moves nobody, and a decision names a ready task whenever there is one,
      with no slice (the default is used) or one of at least minSlice. */
  ghost predicate Lawful<S(!new)>(p: Policy<S>) {
    && p.minSlice > 0.0
    && (forall s, attrs, id, unstarted :: p.valid(s) ==>
          Yields(p, p.add(s, attrs, id, unstarted).0, p.ready(s) + multiset{id}))
    && (forall s, id :: p.valid(s) ==> Yields(p, p.remove(s, id), p.ready(s)[id := 0]))
    && (forall s, attrs, id, cpu :: p.valid(s) ==> Yields(p, p.charge(s, attrs, id, cpu).0, p.ready(s)))
    && (forall s, attrs :: p.valid(s) && |p.ready(s)| > 0 ==> LawfulDecision(p, s, p.schedule(s, attrs)))
  }

  predicate Yields<S>(p: Policy<S>, r: S, ready: multiset<TaskId>) {
    p.valid(r) && p.ready(r) == ready
  }

  ghost predicate LawfulDecision<S>(p: Policy<S>, s: S, d: Option<Decision>) {
    d.Some? && d.value.id in p.ready(s) && (d.value.slice <= 0.0 || d.value.slice >= p.minSlice)
  }

  /** Scheduling fields change only for the task named and for ready tasks, weights never. */
  ghost predicate Local<S(!new)>(p: Policy<S>) {
    && (forall s, attrs, id, unstarted :: p.valid(s) ==>
          Touches(p, s, id, attrs, p.add(s, attrs, id, unstarted).1))
    && (forall s, attrs, id, cpu :: p.valid(s) ==> Touches(p, s, id, attrs, p.charge(s, attrs, id, cpu).1))
  }

  ghost predicate Touches<S>(p: Policy<S>, s: S, id: TaskId, before: Attrs, after: Attrs) {
    forall x :: SameWeight(before, after, x) && (x == id || x in p.ready(s) || SameAttr(before, after, x))
  }

  predicate SameWeight(before: Attrs, after: Attrs, x: TaskId) {
    AttrOf(after, x).weight == AttrOf(before, x).weight
  }

  predicate SameAttr(before: Attrs, after: Attrs, x: TaskId) {
    AttrOf(after, x) == AttrOf(before, x)
  }

  /** A fresh scheduler: nothing ready. */
  ghost predicate Fresh<S>(p: Policy<S>, s: S) {
    p.valid(s) && p.ready(s) == multiset{}
  }

  /** The scheduling fields of all tasks, which schedulers update in place. */
  class TaskFields {
    var attrs: Attrs

    constructor (attrs: Attrs)
      ensures this.attrs == attrs
    {
      this.attrs := attrs;
    }
  }
}

/**
 Dots and version vectors (`src/dots.rs`).

 A dot names one mutation: the `counter`-th one (from 0) of replica `pid`.
 A `DotSet` keeps the highest counter seen for each replica; a replica that has
 no entry counts as -1. Pid 0 is reserved for the GC epoch.
 */
module Dots {
  import opened Options

  type Pid = nat
  type Counter = int

  const STABLE_REPLICA_PID: Pid := 0

  datatype Dot = Dot(pid: Pid, counter: Counter)

  type DotSet = map<Pid, Counter>

  function Get(ds: DotSet, p: Pid): Counter {
    if p in ds then ds[p] else -1
  }

  predicate Contains(ds: DotSet, dot: Dot) {
    dot.pid in ds && dot.counter <= ds[dot.pid]
  }

  function Put(ds: DotSet, p: Pid, c: Counter): DotSet {
    ds[p := c]
  }

  /** `DotSet::insert`; `None` is the failed contiguity assertion, a panic in the source. */
  function Insert(ds: DotSet, dot: Dot): Option<DotSet> {
    if dot.pid in ds && ds[dot.pid] + 1 != dot.counter then None else Some(ds[dot.pid := dot.counter])
  }

  /** `DotSet::increment_and_get`: the next dot of `p`; the first one has counter 0. */
  function NextDot(ds: DotSet, p: Pid): Dot {
    Dot(p, if p in ds then ds[p] + 1 else 0)
  }

  /** Pointwise order on the columns of real replicas. The GC epoch column is not a vector entry. */
  ghost predicate Leq(a: DotSet, b: DotSet) {
    forall p: Pid | p != STABLE_REPLICA_PID :: Get(a, p) <= Get(b, p)
  }

  lemma LeqTransitive(a: DotSet, b: DotSet, c: DotSet)
    requires Leq(a, b) && Leq(b, c)
    ensures Leq(a, c)
  {
    forall p: Pid | p != STABLE_REPLICA_PID ensures Get(a, p) <= Get(c, p) {
      assert Get(a, p) <= Get(b, p);
    }
  }

  /** `order` walks through `s`, each element once: one possible iteration order of a hash map. */
  ghost predicate Enumerates<X>(order: seq<X>, s: set<X>) {
    && (forall i, j | 0 <= i < j < |order| :: order[i] != order[j])
    && (forall x <- order :: x in s)
    && (forall x <- s :: x in order)
  }

  method Enumerate<X(==)>(s: set<X>) returns (order: seq<X>)
    ensures Enumerates(order, s)
  {
    order := [];
    var rest := s;
    while rest != {}
      invariant rest <= s && Enumerates(order, s - rest)
      decreases rest
    {
      var x :| x in rest;
      order := order + [x];
      rest := rest - {x};
    }
    assert s - rest == s;
  }

  lemma {:induction false} DistinctCount<K>(order: seq<K>, s: set<K>)
    requires Enumerates(order, s)
    ensures |order| == |s|
  {
    if order == [] {
      assert s == {};
    } else {
      assert order == [order[0]] + order[1..];
      assert order[0] in order;
      DistinctCount(order[1..], s - {order[0]});
    }
  }

  /** `DotSet::pointwise_min`: lowers every column of either vector, a missing entry read as -1. */
  method PointwiseMin(a: DotSet, b: DotSet) returns (r: DotSet)
    ensures r.Keys == a.Keys + b.Keys
    ensures forall p <- r :: r[p] == if Get(a, p) <= Get(b, p) then Get(a, p) else Get(b, p)
  {
    r := a;
    var pids := a.Keys + b.Keys;
    ghost var done := {};
    while pids != {}
      invariant done !! pids && done + pids == a.Keys + b.Keys
      invariant r.Keys == a.Keys + done
      invariant forall p <- r :: p !in done ==> p in a && r[p] == a[p]
      invariant forall p <- done :: r[p] == if Get(a, p) <= Get(b, p) then Get(a, p) else Get(b, p)
      decreases pids
    {
      var p :| p in pids;
      r := r[p := if Get(r, p) <= Get(b, p) then Get(r, p) else Get(b, p)];
      pids, done := pids - {p}, done + {p};
    }
  }
}

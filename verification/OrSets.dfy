/**
 The delta-based OR-Set (`src/orset.rs`).

 `OrSet` is the value of the set and its delta log; the functions say what each
 operation makes of it, and the class carries the operations out in place. A
 merge that trips the contiguity assertion of the version vector is a panic, so
 `Merged` is `None` there.
 */
module OrSets {
  import opened Options
  import opened Dots
  import opened DotMaps
  import opened Orders
  import opened VersionMatrices

  type Element(==, !new)

  datatype Mutation = InsertElement(element: Element) | RemoveElement(element: Element)

  datatype Change = Insertion(element: Element) | Removal(element: Element, removedDots: seq<Dot>)

  datatype Delta = Delta(dot: Dot, change: Change)

  datatype Response = Acknowledged | MissingPid

  datatype OrSet = OrSet(pid: Option<Pid>, entries: map<Element, seq<Dot>>, log: DotMap<Delta>, vv: DotSet)

  const EMPTY: OrSet := OrSet(None, map[], map[], map[])

  function DotInserted(entries: map<Element, seq<Dot>>, e: Element, dot: Dot): map<Element, seq<Dot>> {
    var dots := if e in entries then entries[e] else [];
    entries[e := if dot in dots then dots else dots + [dot]]
  }

  function Without(dots: seq<Dot>, removed: seq<Dot>): (r: seq<Dot>)
    ensures forall d :: d in r <==> d in dots && d !in removed
  {
    if dots == [] then []
    else
      assert dots == [dots[0]] + dots[1..];
      (if dots[0] in removed then [] else [dots[0]]) + Without(dots[1..], removed)
  }

  function DotsRemoved(entries: map<Element, seq<Dot>>, e: Element, removed: seq<Dot>): map<Element, seq<Dot>> {
    if e !in entries then entries
    else if Without(entries[e], removed) == [] then entries - {e}
    else entries[e := Without(entries[e], removed)]
  }

  function Applied(entries: map<Element, seq<Dot>>, delta: Delta): map<Element, seq<Dot>> {
    match delta.change
    case Insertion(e) => DotInserted(entries, e, delta.dot)
    case Removal(e, dots) => DotsRemoved(entries, e, dots)
  }

  /** The delta a mutation produces: a removal names the dots it observes. */
  function Produced(s: OrSet, dot: Dot, m: Mutation): Delta {
    match m
    case InsertElement(e) => Delta(dot, Insertion(e))
    case RemoveElement(e) => Delta(dot, Removal(e, if e in s.entries then s.entries[e] else []))
  }

  function Logged(s: OrSet, delta: Delta): OrSet {
    s.(entries := Applied(s.entries, delta),
       log := Push(s.log, delta.dot, delta),
       vv := s.vv[delta.dot.pid := delta.dot.counter])
  }

  function Mutated(s: OrSet, m: Mutation): OrSet {
    if s.pid.None? then s else Logged(s, Produced(s, NextDot(s.vv, s.pid.value), m))
  }

  function MergedOne(s: OrSet, delta: Delta): Option<OrSet> {
    if Contains(s.vv, delta.dot) then Some(s)
    else if Insert(s.vv, delta.dot).None? then None
    else Some(Logged(s, delta))
  }

  function Merged(s: OrSet, list: seq<Delta>): Option<OrSet>
    decreases |list|
  {
    if list == [] then Some(s)
    else
      var r := MergedOne(s, list[0]);
      if r.None? then None else Merged(r.value, list[1..])
  }

  /** `gc` keeps a delta that neither the frontier covers nor a departed replica owns. */
  function Needed(frontier: DotSet, departed: set<Pid>): Dot -> bool {
    (d: Dot) => !Contains(frontier, d) && d.pid !in departed
  }

  function Collected(s: OrSet, frontier: DotSet, departed: Option<seq<Pid>>): OrSet {
    s.(log := Retain(s.log, Needed(frontier, Announced(departed))), vv := s.vv - Announced(departed))
  }

  /** `get_delta`, for the order in which the hash maps happen to be walked. */
  function DeltasAfter(s: OrSet, vv: DotSet, order: seq<Pid>): seq<Delta> {
    Seconds(AllGreater(s.log, vv, order))
  }

  predicate Has(s: OrSet, e: Element) {
    e in s.entries && s.entries[e] != []
  }

  // ---- The log shape over every run ----

  /** The log shape, plus: what is logged under a dot is the delta of that dot. */
  ghost predicate LogOk(s: OrSet) {
    && Shape(s.log, s.vv)
    && (forall p <- s.log, i | 0 <= i < |s.log[p]| :: s.log[p][i].1.dot == s.log[p][i].0)
  }

  lemma LoggedOk(s: OrSet, delta: Delta)
    requires LogOk(s) && Insert(s.vv, delta.dot).Some?
    ensures LogOk(Logged(s, delta))
    ensures forall p | p != delta.dot.pid || p in s.vv || delta.dot.counter == 0 ::
              Base(Logged(s, delta).log, Logged(s, delta).vv, p) == Base(s.log, s.vv, p)
    ensures delta.dot.pid !in s.vv ==>
              Base(Logged(s, delta).log, Logged(s, delta).vv, delta.dot.pid) == delta.dot.counter - 1
  {
    PushShape(s.log, s.vv, delta.dot, delta);
  }

  lemma MutatedOk(s: OrSet, m: Mutation)
    requires LogOk(s)
    ensures LogOk(Mutated(s, m))
    ensures forall p :: Base(Mutated(s, m).log, Mutated(s, m).vv, p) == Base(s.log, s.vv, p)
  {
    if s.pid.Some? {
      LoggedOk(s, Produced(s, NextDot(s.vv, s.pid.value), m));
    }
  }

  lemma {:induction false} MergedOk(s: OrSet, list: seq<Delta>)
    requires LogOk(s) && Merged(s, list).Some?
    ensures LogOk(Merged(s, list).value)
    decreases |list|
  {
    if list != [] {
      if !Contains(s.vv, list[0].dot) {
        LoggedOk(s, list[0]);
      }
      MergedOk(MergedOne(s, list[0]).value, list[1..]);
    }
  }

  lemma CollectedOk(s: OrSet, frontier: DotSet, departed: Option<seq<Pid>>)
    requires LogOk(s)
    ensures LogOk(Collected(s, frontier, departed))
  {
    var gone := Announced(departed);
    RetainShape(s.log, s.vv, frontier, gone, Needed(frontier, gone));
    var s' := Collected(s, frontier, departed);
    forall p <- s'.log ensures p in s'.vv && s'.vv[p] == s.vv[p] {}
  }

  /** What collection leaves: exactly the items neither inside the frontier nor of a departed replica, in order; no column but theirs goes. */
  lemma CollectedExactly(s: OrSet, frontier: DotSet, departed: Option<seq<Pid>>)
    requires LogOk(s)
    ensures var s' := Collected(s, frontier, departed);
            && s'.entries == s.entries && s'.pid == s.pid
            && (forall p: Pid :: (p in s'.vv <==> p in s.vv && !(departed.Some? && p in departed.value)) && (p in s'.vv ==> s'.vv[p] == s.vv[p]))
            && (forall p <- s'.log :: p in s.log && |s'.log[p]| <= |s.log[p]| && s'.log[p] == s.log[p][|s.log[p]| - |s'.log[p]|..])
            && (forall p <- s.log, item <- s.log[p] ::
                  p in s'.log && item in s'.log[p] <==>
                  !(p in frontier && item.0.counter <= frontier[p]) && !(departed.Some? && p in departed.value))
  {
    hide Retain, Base, Shape;
    var gone := Announced(departed);
    RetainShape(s.log, s.vv, frontier, gone, Needed(frontier, gone));
    forall p <- s.log, item <- s.log[p]
      ensures p in Collected(s, frontier, departed).log && item in Collected(s, frontier, departed).log[p] <==>
              !(p in frontier && item.0.counter <= frontier[p]) && !(departed.Some? && p in departed.value)
    {
      CollectedItem(s, frontier, departed, p, item);
    }
  }

  lemma CollectedItem(s: OrSet, frontier: DotSet, departed: Option<seq<Pid>>, p: Pid, item: (Dot, Delta))
    requires LogOk(s) && p in s.log && item in s.log[p]
    ensures p in Collected(s, frontier, departed).log && item in Collected(s, frontier, departed).log[p] <==>
            !(p in frontier && item.0.counter <= frontier[p]) && !(departed.Some? && p in departed.value)
  {
    hide Retain;
    RetainedItem(s.log, Needed(frontier, Announced(departed)), p, item);
  }

  datatype Op =
    | Mutate(mutation: Mutation)
    | Merge(list: seq<Delta>)
    | Collect(frontier: DotSet, departed: Option<seq<Pid>>)
    | SetPid(pid: Pid)

  function Performed(s: OrSet, op: Op): Option<OrSet> {
    match op
    case Mutate(m) => Some(Mutated(s, m))
    case Merge(list) => Merged(s, list)
    case Collect(frontier, departed) => Some(Collected(s, frontier, departed))
    case SetPid(p) => Some(s.(pid := Some(p)))
  }

  function Run(s: OrSet, ops: seq<Op>): Option<OrSet>
    decreases |ops|
  {
    if ops == [] then Some(s)
    else
      var r := Performed(s, ops[0]);
      if r.None? then None else Run(r.value, ops[1..])
  }

  lemma {:induction false} RunKeepsLog(s: OrSet, ops: seq<Op>)
    requires LogOk(s) && Run(s, ops).Some?
    ensures LogOk(Run(s, ops).value)
    decreases |ops|
  {
    if ops != [] {
      match ops[0]
      case Mutate(m) => MutatedOk(s, m); RunKeepsLog(Mutated(s, m), ops[1..]);
      case Merge(list) => MergedOk(s, list); RunKeepsLog(Merged(s, list).value, ops[1..]);
      case Collect(frontier, departed) =>
        CollectedOk(s, frontier, departed);
        RunKeepsLog(Collected(s, frontier, departed), ops[1..]);
      case SetPid(p) => RunKeepsLog(s.(pid := Some(p)), ops[1..]);
    }
  }

  /** After any non-panicking run from the empty set every log is a consecutive run that ends at the vector. */
  lemma EveryRunKeepsLogShape(ops: seq<Op>)
    requires Run(EMPTY, ops).Some?
    ensures Shape(Run(EMPTY, ops).value.log, Run(EMPTY, ops).value.vv)
  {
    RunKeepsLog(EMPTY, ops);
  }

  /** Every element present has dots, and each of them once. */
  ghost predicate EntriesOk(entries: map<Element, seq<Dot>>) {
    forall e <- entries :: entries[e] != [] && Distinct(entries[e])
  }

  ghost predicate Distinct(dots: seq<Dot>) {
    forall i, j | 0 <= i < j < |dots| :: dots[i] != dots[j]
  }

  lemma {:induction false} WithoutDistinct(dots: seq<Dot>, removed: seq<Dot>)
    requires Distinct(dots)
    ensures Distinct(Without(dots, removed))
  {
    if dots != [] {
      WithoutDistinct(dots[1..], removed);
      var rest := Without(dots[1..], removed);
      assert dots[0] !in dots[1..];
      assert forall i | 0 <= i < |rest| :: rest[i] in rest;
      assert Distinct([dots[0]] + rest);
    }
  }

  lemma AppliedEntriesOk(entries: map<Element, seq<Dot>>, delta: Delta)
    requires EntriesOk(entries)
    ensures EntriesOk(Applied(entries, delta))
  {
    match delta.change
    case Insertion(_) =>
    case Removal(e, removed) =>
      if e in entries {
        WithoutDistinct(entries[e], removed);
      }
  }

  lemma {:induction false} MergedEntriesOk(s: OrSet, list: seq<Delta>)
    requires EntriesOk(s.entries) && Merged(s, list).Some?
    ensures EntriesOk(Merged(s, list).value.entries)
    decreases |list|
  {
    hide EntriesOk, Applied;
    if list != [] {
      AppliedEntriesOk(s.entries, list[0]);
      MergedEntriesOk(MergedOne(s, list[0]).value, list[1..]);
    }
  }

  lemma {:induction false} RunKeepsEntries(s: OrSet, ops: seq<Op>)
    requires EntriesOk(s.entries) && Run(s, ops).Some?
    ensures EntriesOk(Run(s, ops).value.entries)
    decreases |ops|
  {
    hide EntriesOk, Applied, Merged;
    if ops != [] {
      match ops[0]
      case Mutate(m) =>
        if s.pid.Some? {
          AppliedEntriesOk(s.entries, Produced(s, NextDot(s.vv, s.pid.value), m));
        }
        RunKeepsEntries(Mutated(s, m), ops[1..]);
      case Merge(list) => MergedEntriesOk(s, list); RunKeepsEntries(Merged(s, list).value, ops[1..]);
      case Collect(frontier, departed) => RunKeepsEntries(Collected(s, frontier, departed), ops[1..]);
      case SetPid(p) => RunKeepsEntries(s.(pid := Some(p)), ops[1..]);
    }
  }

  /** After any non-panicking run, re-deliveries included, every element present has dots, and none of them twice. */
  lemma EveryRunKeepsEntries(ops: seq<Op>)
    requires Run(EMPTY, ops).Some?
    ensures EntriesOk(Run(EMPTY, ops).value.entries)
  {
    RunKeepsEntries(EMPTY, ops);
  }

  // ---- Truncation is invisible at or past the frontier ----

  /**
   For a requester that has every logged dot inside the frontier, truncation does
   not change the answer (its map walk may skip emptied logs), and it never changes
   what queries see.
   */
  lemma CollectionInvisible(s: OrSet, frontier: DotSet, vv: DotSet, order: seq<Pid>)
    requires LogOk(s)
    requires forall p <- s.log, item <- s.log[p] | Contains(frontier, item.0) :: Contains(vv, item.0)
    ensures DeltasAfter(Collected(s, frontier, None), vv, order) == DeltasAfter(s, vv, order)
    ensures Collected(s, frontier, None).entries == s.entries
    ensures Collected(s, frontier, None).vv == s.vv
  {
    var keep := Needed(frontier, Announced(None));
    CollectedOk(s, frontier, None);
    assert s.vv - Announced(None) == s.vv;
    RetainInvisible(s.log, s.vv, keep, vv, order);
  }

  /** An answer holds exactly the logged deltas that the requester has not seen, whatever order the maps are walked in. */
  lemma AnswerExactly(s: OrSet, vv: DotSet, order: seq<Pid>, delta: Delta)
    requires LogOk(s) && Enumerates(order, s.log.Keys + vv.Keys)
    ensures delta in DeltasAfter(s, vv, order) <==>
            var p := delta.dot.pid;
            p in s.log && (delta.dot, delta) in s.log[p] && !(p in vv && delta.dot.counter <= vv[p])
  {
    var items, p := AllGreater(s.log, vv, order), delta.dot.pid;
    QueryIsFilter(s.log, s.vv, vv, order, p);
    FilterMember(items, IsPid(p), (delta.dot, delta));
    if p in s.log {
      FilterMember(s.log[p], NotIn(vv), (delta.dot, delta));
    }
    if delta in DeltasAfter(s, vv, order) {
      var i :| 0 <= i < |items| && items[i].1 == delta;
      var q := items[i].0.pid;
      QueryIsFilter(s.log, s.vv, vv, order, q);
      FilterMember(items, IsPid(q), items[i]);
      if q in s.log {
        FilterMember(s.log[q], NotIn(vv), items[i]);
      }
    }
  }

  /** A group whose dots are all in the vector changes nothing. */
  lemma {:induction false} MergeOfSeenIsNoOp(s: OrSet, list: seq<Delta>)
    requires forall delta <- list :: Contains(s.vv, delta.dot)
    ensures Merged(s, list) == Some(s)
  {
    if list != [] {
      MergeOfSeenIsNoOp(s, list[1..]);
    }
  }

  lemma {:induction false} MergedContains(s: OrSet, list: seq<Delta>)
    requires Merged(s, list).Some?
    ensures forall delta <- list :: Contains(Merged(s, list).value.vv, delta.dot)
    ensures forall dot: Dot | Contains(s.vv, dot) :: Contains(Merged(s, list).value.vv, dot)
    decreases |list|
  {
    if list != [] {
      var s1 := MergedOne(s, list[0]).value;
      MergedContains(s1, list[1..]);
      assert Contains(s1.vv, list[0].dot);
      assert list == [list[0]] + list[1..];
      forall dot: Dot | Contains(s.vv, dot) ensures Contains(s1.vv, dot) {}
    }
  }

  /** Merging the same group again, at once or after further merges, changes nothing. */
  lemma RemergeIsNoOp(s: OrSet, list: seq<Delta>, later: seq<Delta>)
    requires Merged(s, list).Some? && Merged(Merged(s, list).value, later).Some?
    ensures var s' := Merged(Merged(s, list).value, later).value;
            Merged(s', list) == Some(s')
  {
    MergedContains(s, list);
    MergedContains(Merged(s, list).value, later);
    MergeOfSeenIsNoOp(Merged(Merged(s, list).value, later).value, list);
  }

  // ---- In place ----

  class ORSet {
    var pid: Option<Pid>
    var entries: map<Element, seq<Dot>>
    var deltaLog: DotMap<Delta>
    var versionVector: DotSet

    function Value(): OrSet
      reads this
    {
      OrSet(pid, entries, deltaLog, versionVector)
    }

    constructor ()
      ensures Value() == EMPTY
    {
      pid, entries, deltaLog, versionVector := None, map[], map[], map[];
    }

    /** The set as a snapshot or a replay gives it. */
    constructor Copied(s: OrSet)
      ensures Value() == s
    {
      pid, entries, deltaLog, versionVector := s.pid, s.entries, s.log, s.vv;
    }

    method SetPid(p: Pid)
      modifies this
      ensures Value() == old(Value()).(pid := Some(p))
    {
      pid := Some(p);
    }

    method InsertDot(e: Element, dot: Dot)
      modifies this`entries
      ensures entries == DotInserted(old(entries), e, dot)
    {
      var dots := if e in entries then entries[e] else [];
      if dot !in dots {
        dots := dots + [dot];
      }
      entries := entries[e := dots];
    }

    method RemoveDots(e: Element, removed: seq<Dot>)
      modifies this`entries
      ensures entries == DotsRemoved(old(entries), e, removed)
    {
      if e in entries {
        var kept := Without(entries[e], removed);
        if kept == [] {
          entries := entries - {e};
        } else {
          entries := entries[e := kept];
        }
      }
    }

    method Mutate(m: Mutation) returns (r: Response)
      modifies this
      ensures Value() == Mutated(old(Value()), m)
      ensures r == MissingPid <==> old(pid) == None
    {
      if pid == None {
        return MissingPid;
      }
      var dot := NextDot(versionVector, pid.value);
      versionVector := versionVector[dot.pid := dot.counter];
      var delta;
      match m {
        case InsertElement(e) =>
          InsertDot(e, dot);
          delta := Delta(dot, Insertion(e));
        case RemoveElement(e) =>
          var removed := if e in entries then entries[e] else [];
          RemoveDots(e, removed);
          delta := Delta(dot, Removal(e, removed));
      }
      deltaLog := Push(deltaLog, dot, delta);
      return Acknowledged;
    }

    /** `ok` is false when the contiguity assertion panics in the middle of the list. */
    method MergeDeltaGroup(list: seq<Delta>) returns (ok: bool)
      modifies this
      ensures ok <==> Merged(old(Value()), list).Some?
      ensures ok ==> Merged(old(Value()), list) == Some(Value())
    {
      var i := 0;
      while i < |list|
        invariant 0 <= i <= |list|
        invariant Merged(old(Value()), list) == Merged(Value(), list[i..])
      {
        var delta := list[i];
        assert list[i..][0] == delta && list[i..][1..] == list[i + 1..];
        i := i + 1;
        if Contains(versionVector, delta.dot) {
          continue;
        }
        var next := Insert(versionVector, delta.dot);
        if next == None {
          return false;
        }
        versionVector := next.value;
        match delta.change {
          case Insertion(e) => InsertDot(e, delta.dot);
          case Removal(e, removed) => RemoveDots(e, removed);
        }
        deltaLog := Push(deltaLog, delta.dot, delta);
      }
      return true;
    }

    method Gc(frontier: DotSet, departed: Option<seq<Pid>>)
      modifies this
      ensures Value() == Collected(old(Value()), frontier, departed)
    {
      var gone := Announced(departed);
      deltaLog := Retain(deltaLog, Needed(frontier, gone));
      if gone == {} {
        assert versionVector - gone == versionVector;
        return;
      }
      var rest := gone;
      while rest != {}
        invariant rest <= gone && deltaLog == Retain(old(deltaLog), Needed(frontier, gone))
        invariant pid == old(pid) && entries == old(entries)
        invariant versionVector == old(versionVector) - (gone - rest)
        decreases rest
      {
        var p :| p in rest;
        versionVector := versionVector - {p};
        rest := rest - {p};
        assert versionVector == old(versionVector) - (gone - rest);
      }
      assert gone - rest == gone;
    }

    method GetDelta(vv: DotSet) returns (list: seq<Delta>, ghost order: seq<Pid>)
      ensures Enumerates(order, deltaLog.Keys + vv.Keys)
      ensures list == DeltasAfter(Value(), vv, order)
    {
      var pids := Enumerate(deltaLog.Keys + vv.Keys);
      order := pids;
      list := Seconds(AllGreater(deltaLog, vv, pids));
    }

    method Elements(le: (Element, Element) -> bool) returns (sorted: seq<Element>)
      requires TotalOrder(le)
      ensures Lists(le, sorted, entries.Keys)
    {
      sorted := Sort(le, entries.Keys);
    }
  }
}

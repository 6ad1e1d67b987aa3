/**
 Three runs that go wrong.

 Each lemma builds a run of the network, step by step, into a state that the
 documentation rules out: replicas that disagree with equal vectors, an element that
 comes back after its removal, and the contiguity assertion firing.
 */
module Scenarios {
  import opened Options
  import opened Dots
  import opened DotMaps
  import opened Orders
  import opened VersionMatrices
  import opened GcWrappers
  import opened OrSets
  import opened Replicas
  import opened Networks
  import opened ProtocolTheorems
  import opened Exchanges
  import opened Moves

  // ---- Small computations ----

  function D(p: Pid, c: Counter, x: Element): Delta {
    Delta(Dot(p, c), Insertion(x))
  }

  function L(p: Pid, c: Counter, x: Element): (Dot, Delta) {
    (Dot(p, c), D(p, c, x))
  }

  function V1(a: Counter): DotSet {
    map[1 := a]
  }

  function V2(b: Counter): DotSet {
    map[2 := b]
  }

  function V12(a: Counter, b: Counter): DotSet {
    map[1 := a, 2 := b]
  }

  function E(vv: DotSet, epoch: Counter): DotSet {
    vv[STABLE_REPLICA_PID := epoch]
  }

  function Log1(a: seq<(Dot, Delta)>): DotMap<Delta> {
    map[1 := a]
  }

  function Log12(a: seq<(Dot, Delta)>, b: seq<(Dot, Delta)>): DotMap<Delta> {
    map[1 := a, 2 := b]
  }

  lemma Answer1<T>(log: DotMap<T>, vv: DotSet, p: Pid)
    ensures AllGreater(log, vv, [p]) == Greater(log, vv, p)
  {
    assert [p][1..] == [];
    assert AllGreater(log, vv, []) == [];
  }

  lemma Answer2<T>(log: DotMap<T>, vv: DotSet, p: Pid, q: Pid)
    ensures AllGreater(log, vv, [p, q]) == Greater(log, vv, p) + Greater(log, vv, q)
  {
    assert [p, q][1..] == [q];
    Answer1(log, vv, q);
  }

  lemma Answer3<T>(log: DotMap<T>, vv: DotSet, p: Pid, q: Pid, r: Pid)
    ensures AllGreater(log, vv, [p, q, r]) == Greater(log, vv, p) + (Greater(log, vv, q) + Greater(log, vv, r))
  {
    assert [p, q, r][1..] == [q, r];
    Answer2(log, vv, q, r);
  }

  /** A delta that opens a log, and an insertion that opens an entry. */
  lemma LoggedNew(s: OrSet, d: Delta)
    ensures d.dot.pid !in s.log ==> Logged(s, d).log == s.log[d.dot.pid := [(d.dot, d)]]
    ensures d.change.Insertion? && d.change.element !in s.entries ==> Logged(s, d).entries == s.entries[d.change.element := [d.dot]]
  {
    assert [] + [(d.dot, d)] == [(d.dot, d)];
    assert [] + [d.dot] == [d.dot];
  }

  lemma Merge0(s: OrSet)
    ensures Merged(s, []) == Some(s)
  {
  }

  lemma Merge1(s: OrSet, d: Delta)
    ensures Merged(s, [d]) == MergedOne(s, d)
  {
    if MergedOne(s, d).Some? {
      assert [d][1..] == [];
      Merge0(MergedOne(s, d).value);
    }
  }

  lemma Merge2(s: OrSet, d: Delta, e: Delta)
    ensures Merged(s, [d, e]) == if MergedOne(s, d).None? then None else MergedOne(MergedOne(s, d).value, e)
  {
    if MergedOne(s, d).Some? {
      assert [d, e][1..] == [e];
      Merge1(MergedOne(s, d).value, e);
    }
  }

  // ---- An insertion and its removal ----

  function R(x: Element): Delta {
    Delta(Dot(2, 0), Removal(x, [Dot(1, 0)]))
  }

  lemma StartReachable(members: set<Pid>)
    requires STABLE_REPLICA_PID !in members
    ensures Reachable(members, Start(members))
  {
    assert IsRun(Start(members), []) && EndOf(Start(members), []) == Start(members);
  }

  /** Replica 1 has inserted `x`; replica 2 has seen that and removed it. */
  ghost predicate RemovedByTwo(members: set<Pid>, net: Network, x: Element) {
    && Reachable(members, net) && net.nodes.Keys == members && net.world.live == members && 1 in members && 2 in members
    && (forall r <- members | r != 1 && r != 2 :: net.nodes[r] == FirstNode(r, members))
    && net.nodes[1].phase.Idle? && net.nodes[1].crdt.vv == V1(0) && net.nodes[1].crdt.log == Log1([L(1, 0, x)])
    && net.nodes[2].phase.Idle? && net.nodes[2].crdt.vv == V12(0, 0)
    && net.nodes[2].crdt.log == Log12([L(1, 0, x)], [(Dot(2, 0), R(x))]) && net.nodes[2].crdt.entries == map[]
    && net.nodes[2].wrapper == Wrapper(Matrix(2, FirstWrapper(2, members).matrix.rows[2 := E(V1(0), 0)], map[]), [])
  }

  lemma FirstInsertion(x: Element, members: set<Pid>)
    requires 1 in members
    ensures var s := Mutated(FirstNode(1, members).crdt, InsertElement(x));
            s.vv == V1(0) && s.log == Log1([L(1, 0, x)]) && FirstWrapper(1, members).matrix.ownPid == 1
  {
    LoggedNew(FirstNode(1, members).crdt, D(1, 0, x));
  }

  lemma FirstMerge(x: Element, s: OrSet, t: OrSet, req: DotSet)
    requires s.vv == V1(0) && s.log == Log1([L(1, 0, x)]) && req == E(map[], 0)
    requires t == EMPTY.(pid := Some(2))
    ensures DeltasAfter(s, req, [1, 0]) == [D(1, 0, x)] && Enumerates([1, 0], s.log.Keys + req.Keys)
    ensures var merged := Merged(t, DeltasAfter(s, req, [1, 0]));
            merged.Some? && merged.value == OrSet(Some(2), map[x := [Dot(1, 0)]], Log1([L(1, 0, x)]), V1(0))
  {
    Answer2(s.log, req, 1, 0);
    assert Greater(s.log, req, 1) == [L(1, 0, x)] && Greater(s.log, req, 0) == [];
    assert DeltasAfter(s, req, [1, 0]) == [D(1, 0, x)];
    Merge1(t, D(1, 0, x));
    LoggedNew(t, D(1, 0, x));
  }

  lemma RemovalIs(x: Element, s: OrSet)
    requires s == OrSet(Some(2), map[x := [Dot(1, 0)]], Log1([L(1, 0, x)]), V1(0))
    ensures var t := Mutated(s, RemoveElement(x));
            t.vv == V12(0, 0) && t.log == Log12([L(1, 0, x)], [(Dot(2, 0), R(x))]) && t.entries == map[]
  {
    assert Without([Dot(1, 0)], [Dot(1, 0)]) == [];
    var t := Mutated(s, RemoveElement(x));
    assert t.entries == s.entries - {x};
    LoggedNew(s, R(x));
  }

  lemma FirstBound(members: set<Pid>, n: Node)
    requires n.wrapper.matrix.ownPid in members && n.wrapper == FirstWrapper(n.wrapper.matrix.ownPid, members)
    ensures Bound(n) && n.wrapper.markers == []
  {
  }

  lemma RowBound(members: set<Pid>, n: Node, r: Pid, row: DotSet)
    requires n.wrapper == Wrapper(Matrix(r, FirstWrapper(r, members).matrix.rows[r := row], map[]), [])
    ensures Bound(n) && n.wrapper.markers == []
  {
  }

  lemma FirstRow(members: set<Pid>, r: Pid, s: OrSet)
    requires r in members && r != STABLE_REPLICA_PID && STABLE_REPLICA_PID !in members
    ensures var n := FirstNode(r, members);
            && Bound(n) && Bound(OwnRefreshed(n)) && n.wrapper.markers == [] && Stamped(n.wrapper, n.crdt.vv) == E(map[], 0)
            && OwnRefreshed(OwnRefreshed(n).(crdt := s)).wrapper == Wrapper(Matrix(r, FirstWrapper(r, members).matrix.rows[r := E(s.vv, 0)], map[]), [])
  {
  }

  ghost predicate InsertedByOne(members: set<Pid>, net: Network, x: Element) {
    && Reachable(members, net) && net.nodes.Keys == members && net.world.live == members && 1 in members && 2 in members
    && (forall r <- members | r != 1 :: net.nodes[r] == FirstNode(r, members))
    && net.nodes[1].phase.Idle? && net.nodes[1].crdt.vv == V1(0) && net.nodes[1].crdt.log == Log1([L(1, 0, x)])
    && net.nodes[1].wrapper == FirstWrapper(1, members) && net.nodes[1].wrapper.matrix.ownPid == 1
  }

  lemma InsertOnce(members: set<Pid>, x: Element) returns (net: Network)
    requires 1 in members && 2 in members && STABLE_REPLICA_PID !in members
    ensures InsertedByOne(members, net, x)
  {
    hide Reachable, Mutated, FirstWrapper, IsRun, EndOf, V1, Log1, L;
    StartReachable(members);
    FirstInsertion(x, members);
    net := Mutating(members, Start(members), 1, InsertElement(x));
  }

  lemma SeenByTwo(members: set<Pid>, net: Network, x: Element) returns (net': Network)
    requires InsertedByOne(members, net, x) && STABLE_REPLICA_PID !in members
    ensures Reachable(members, net') && net'.nodes.Keys == members && net'.world.live == members
    ensures forall r <- members | r != 1 && r != 2 :: net'.nodes[r] == FirstNode(r, members)
    ensures Bound(net.nodes[1]) && net'.nodes[1] == VectorHandled(net.nodes[1], 2, E(map[], 0))
    ensures net'.nodes[1].phase.Idle? && net'.nodes[1].crdt == net.nodes[1].crdt
    ensures net'.nodes[2].phase.Idle? && net'.nodes[2].crdt == OrSet(Some(2), map[x := [Dot(1, 0)]], Log1([L(1, 0, x)]), V1(0))
    ensures net'.nodes[2].wrapper == Wrapper(Matrix(2, FirstWrapper(2, members).matrix.rows[2 := E(V1(0), 0)], map[]), [])
  {
    hide Reachable, Merged, DeltasAfter, Enumerates, FirstWrapper, RowReceived, Refreshed, Bound, Stamped, Log1, V1, E, L, IsRun, EndOf;
    var n1, n2 := net.nodes[1], net.nodes[2];
    var merged := OrSet(Some(2), map[x := [Dot(1, 0)]], Log1([L(1, 0, x)]), V1(0));
    FirstRow(members, 2, merged);
    FirstBound(members, n1);
    FirstMerge(x, n1.crdt, n2.crdt, Stamped(n2.wrapper, n2.crdt.vv));
    net' := Exchanging(members, net, 1, 2, [1, 0], merged);
  }

  lemma InsertThenRemove(members: set<Pid>, x: Element) returns (net: Network)
    requires 1 in members && 2 in members && STABLE_REPLICA_PID !in members
    ensures RemovedByTwo(members, net, x)
  {
    hide Reachable, Mutated, FirstWrapper, Log1, Log12, V1, V12, E, L, R, IsRun, EndOf;
    var net1 := InsertOnce(members, x);
    var net2 := SeenByTwo(members, net1, x);
    RemovalIs(x, net2.nodes[2].crdt);
    net := Mutating(members, net2, 2, RemoveElement(x));
  }

  // ---- Equal vectors, different elements ----

  lemma WrongOrder(x: Element, s: OrSet, t: OrSet, req: DotSet)
    requires s.vv == V12(0, 0) && s.log == Log12([L(1, 0, x)], [(Dot(2, 0), R(x))]) && req == E(map[], 0)
    requires t == EMPTY.(pid := Some(3))
    ensures Enumerates([2, 1, 0], s.log.Keys + req.Keys)
    ensures var merged := Merged(t, DeltasAfter(s, req, [2, 1, 0]));
            merged.Some? && merged.value.vv == V12(0, 0) && merged.value.entries == map[x := [Dot(1, 0)]]
  {
    Answer3(s.log, req, 2, 1, 0);
    assert Greater(s.log, req, 2) == [(Dot(2, 0), R(x))] && Greater(s.log, req, 1) == [L(1, 0, x)] && Greater(s.log, req, 0) == [];
    assert DeltasAfter(s, req, [2, 1, 0]) == [R(x), D(1, 0, x)];
    Merge2(t, R(x), D(1, 0, x));
    LoggedNew(Logged(t, R(x)), D(1, 0, x));
  }

  /**
   Replica 1 inserts `x`, replica 2 sees that and removes `x`, and replica 3 asks replica 2
   for everything. The hash map happens to be walked with pid 2 first, so the removal meets
   no insertion to take away and the insertion arrives after it.
   */
  lemma WalkOrderCanDiverge(x: Element) returns (net: Network)
    ensures Reachable({1, 2, 3}, net) && net.nodes.Keys == {1, 2, 3} && net.world.live == {1, 2, 3}
    ensures net.nodes[2].crdt.vv == net.nodes[3].crdt.vv
    ensures !Has(net.nodes[2].crdt, x) && Has(net.nodes[3].crdt, x)
  {
    hide Reachable, Merged, DeltasAfter, Enumerates, FirstWrapper, RowReceived, Refreshed, Bound, Stamped, Log1, Log12, V12, E, L, R, IsRun, EndOf;
    var members := {1, 2, 3};
    var before := InsertThenRemove(members, x);
    var n2, n3 := before.nodes[2], before.nodes[3];
    FirstRow(members, 3, n3.crdt);
    RowBound(members, n2, 2, E(V1(0), 0));
    WrongOrder(x, n2.crdt, n3.crdt, Stamped(n3.wrapper, n3.crdt.vv));
    var s := Merged(n3.crdt, DeltasAfter(n2.crdt, Stamped(n3.wrapper, n3.crdt.vv), [2, 1, 0])).value;
    net := Exchanging(members, before, 2, 3, [2, 1, 0], s);
  }

  // ---- A removed element comes back ----

  /** Replica 2 as it absorbs replica 1, before and after each round of collection. */
  function TwoRows(own: DotSet): map<Pid, DotSet> {
    map[1 := map[1 := -1][STABLE_REPLICA_PID := 0], 2 := own]
  }

  function Final1(): map<Pid, Counter> {
    map[1 := 0]
  }

  lemma TwoMembers()
    ensures FirstWrapper(2, {1, 2}).matrix.rows[2 := E(V1(0), 0)] == TwoRows(E(V1(0), 0))
  {
  }

  /** Absorbing replica 1 brings nothing new but its final dot. */
  lemma AbsorbOne(n: Node, payload: OrSet, x: Element)
    requires payload.vv == V1(0) && payload.log == Log1([L(1, 0, x)]) && n.crdt.vv == V12(0, 0)
    requires n.wrapper == Wrapper(Matrix(2, TwoRows(E(V1(0), 0)), map[]), [])
    ensures Bound(n) && Enumerates([1, 2], payload.log.Keys + n.crdt.vv.Keys)
    ensures Merged(n.crdt, DeltasAfter(payload, n.crdt.vv, [1, 2])) == Some(n.crdt)
    ensures var w := OwnRefreshed(n).wrapper;
            DepartureObserved(w, FinalDot(payload, 1)) == Wrapper(Matrix(2, TwoRows(E(V12(0, 0), 0)), Final1()), [])
  {
    Answer2(payload.log, n.crdt.vv, 1, 2);
    assert Greater(payload.log, n.crdt.vv, 1) == [] && Greater(payload.log, n.crdt.vv, 2) == [];
    assert DeltasAfter(payload, n.crdt.vv, [1, 2]) == [];
    Merge0(n.crdt);
    var rows := TwoRows(E(V1(0), 0));
    assert rows[2 := E(V12(0, 0), 0)] == TwoRows(E(V12(0, 0), 0));
  }

  ghost predicate LogBelow(log: DotMap<Delta>, frontier: DotSet) {
    forall p <- log, item <- log[p] :: item.0.pid == p && Contains(frontier, item.0)
  }

  lemma AllCollected(log: DotMap<Delta>, frontier: DotSet, gone: set<Pid>)
    requires LogBelow(log, frontier)
    ensures Retain(log, Needed(frontier, gone)) == map[]
  {
    forall p <- log ensures Filter(log[p], Needed(frontier, gone)) == [] {
      FilterNone(log[p], Needed(frontier, gone));
    }
  }

  lemma OneObserver(m: Matrix, own: Pid)
    requires own != STABLE_REPLICA_PID && HasOwnRow(m) && m.ownPid == own && own !in m.finals
    requires forall p <- m.rows | p != STABLE_REPLICA_PID && p != own :: p in m.finals && Contains(OwnRow(m), Dot(p, m.finals[p]))
    ensures Observers(m) == {own} && Columns(m, {own}) == OwnRow(m).Keys
    ensures forall q :: IsColumnMin(m, {own}, q, Get(OwnRow(m), q))
  {
    assert Observers(m) == {own};
    forall q ensures q in Columns(m, {own}) <==> q in OwnRow(m) {}
    forall q ensures IsColumnMin(m, {own}, q, Get(OwnRow(m), q)) {
      assert own in {own};
    }
  }

  /** The frontier of a matrix with one observer is its row, given a column of its own, without the retirable ones. */
  lemma LoneFrontier(m: Matrix, own: Pid, departed: Option<seq<Pid>>)
    requires own != STABLE_REPLICA_PID && HasOwnRow(m) && m.ownPid == own && own !in m.finals
    requires forall p <- m.rows | p != STABLE_REPLICA_PID && p != own :: p in m.finals && Contains(OwnRow(m), Dot(p, m.finals[p]))
    requires if Retirable(m) == {} then departed == None else departed.Some? && Lists(PidOrder(), departed.value, Retirable(m))
    ensures IsStable(m, Some(Put(OwnRow(m), own, Get(OwnRow(m), own)) - Retirable(m)), departed)
  {
    OneObserver(m, own);
    var stable := Put(OwnRow(m), own, Get(OwnRow(m), own)) - Retirable(m);
    hide Observers, Columns, Retirable;
    assert stable.Keys == OwnRow(m).Keys + {own} - Retirable(m);
    forall q <- stable ensures IsColumnMin(m, {own}, q, stable[q]) {
      assert stable[q] == Get(OwnRow(m), q);
    }
  }

  /** `r` is alone: it has absorbed everyone it has a row for, and its log lies below its vector. */
  ghost predicate Lone(n: Node, r: Pid, rows: map<Pid, DotSet>, finals: map<Pid, Counter>) {
    && n.phase.Idle? && n.wrapper.matrix.ownPid == r && r in rows && r != STABLE_REPLICA_PID && r !in finals
    && STABLE_REPLICA_PID !in finals && STABLE_REPLICA_PID !in n.crdt.vv
    && (forall p <- rows | p != r && p != STABLE_REPLICA_PID :: p in finals)
    && (forall p <- finals :: Contains(n.crdt.vv, Dot(p, finals[p])))
    && n.wrapper.matrix.rows == rows && n.wrapper.matrix.finals == finals
    && LogBelow(n.crdt.log, n.crdt.vv)
  }

  function LoneStable(vv: DotSet, r: Pid, epoch: Counter): DotSet {
    Put(E(vv, epoch), r, Get(E(vv, epoch), r))
  }

  lemma RefreshedLone(n: Node, r: Pid, rows: map<Pid, DotSet>, finals: map<Pid, Counter>)
    requires Lone(n, r, rows, finals) && Get(rows[r], STABLE_REPLICA_PID) <= Epoch(n.wrapper)
    ensures Bound(n) && OwnRefreshed(n).crdt == n.crdt && OwnRefreshed(n).wrapper.markers == n.wrapper.markers
    ensures OwnRefreshed(n).wrapper.matrix == Matrix(r, rows[r := E(n.crdt.vv, Epoch(n.wrapper))], finals)
  {
  }

  lemma LogBelowMore(log: DotMap<Delta>, vv: DotSet, frontier: DotSet)
    requires LogBelow(log, vv) && forall dot: Dot | Contains(vv, dot) :: Contains(frontier, dot)
    ensures LogBelow(log, frontier)
  {
  }

  function SweptRows(rows: map<Pid, DotSet>, r: Pid, vv: DotSet): map<Pid, DotSet> {
    rows[r := E(vv, 1)][STABLE_REPLICA_PID := LoneStable(vv, r, 1)]
  }

  /** The first round of a lone replica is due, and announces nobody. */
  lemma FirstLoneDue(n: Node, r: Pid, rows: map<Pid, DotSet>, finals: map<Pid, Counter>)
    requires Lone(n, r, rows, finals) && STABLE_REPLICA_PID !in rows && n.wrapper.markers == []
    requires Get(rows[r], STABLE_REPLICA_PID) <= 0
    ensures Bound(n) && GcDue(n, LoneStable(n.crdt.vv, r, 0), None) && NextMarker(n.wrapper) == Dot(STABLE_REPLICA_PID, 1)
    ensures OwnRefreshed(n) == n.(wrapper := Wrapper(Matrix(r, rows[r := E(n.crdt.vv, 0)], finals), []))
  {
    RefreshedLone(n, r, rows, finals);
    var m := OwnRefreshed(n).wrapper.matrix;
    var none: set<Pid> := {};
    var stable := LoneStable(n.crdt.vv, r, 0);
    assert OwnRow(m) == E(n.crdt.vv, 0) && Retirable(m) == none && stable - none == stable;
    hide IsStable;
    LoneFrontier(m, r, None);
  }

  lemma StampedRows(rows: map<Pid, DotSet>, r: Pid, vv: DotSet)
    requires r != STABLE_REPLICA_PID
    ensures Put(E(vv, 0), STABLE_REPLICA_PID, 1) == E(vv, 1)
    ensures Put(LoneStable(vv, r, 0), STABLE_REPLICA_PID, 1) == LoneStable(vv, r, 1)
    ensures rows[r := E(vv, 0)][STABLE_REPLICA_PID := LoneStable(vv, r, 1)][r := E(vv, 1)] == SweptRows(rows, r, vv)
  {
    assert Put(E(vv, 0), STABLE_REPLICA_PID, 1) == E(vv, 1);
    assert Put(LoneStable(vv, r, 0), STABLE_REPLICA_PID, 1) == LoneStable(vv, r, 1);
    hide E, LoneStable;
    assert rows[r := E(vv, 0)][STABLE_REPLICA_PID := LoneStable(vv, r, 1)][r := E(vv, 1)] == SweptRows(rows, r, vv);
  }

  lemma FirstLoneMatrix(rows: map<Pid, DotSet>, r: Pid, vv: DotSet, finals: map<Pid, Counter>)
    requires r != STABLE_REPLICA_PID
    ensures var m := Matrix(r, rows[r := E(vv, 0)], finals);
            OwnRowSurvives(m, None) && MarkerApplied(m, LoneStable(vv, r, 0), None, 1) == Matrix(r, SweptRows(rows, r, vv), finals)
  {
    hide E, LoneStable, SweptRows;
    StampedRows(rows, r, vv);
  }

  /** It empties the log and changes nothing else that the set holds. */
  lemma FirstLoneSweep(n: Node, r: Pid, rows: map<Pid, DotSet>, finals: map<Pid, Counter>, n1: Node)
    requires Lone(n, r, rows, finals) && n1 == n.(wrapper := Wrapper(Matrix(r, rows[r := E(n.crdt.vv, 0)], finals), []))
    ensures var marker := GcMarker(Dot(STABLE_REPLICA_PID, 1), LoneStable(n.crdt.vv, r, 0), None);
            && OwnRowSurvives(n1.wrapper.matrix, None)
            && MarkerCommitted(n1, marker) == n.(crdt := n.crdt.(log := map[]), wrapper := Wrapper(Matrix(r, SweptRows(rows, r, n.crdt.vv), finals), [marker]))
  {
    var stable := LoneStable(n.crdt.vv, r, 0);
    var none: set<Pid> := {};
    FirstLoneMatrix(rows, r, n.crdt.vv, finals);
    LogBelowMore(n.crdt.log, n.crdt.vv, stable);
    hide MarkerApplied, E, LoneStable, SweptRows, LogBelow, OwnRowSurvives, Retain;
    AllCollected(n.crdt.log, stable, none);
    assert n.crdt.vv - none == n.crdt.vv && Announced(None) == none;
  }

  /** The second round announces everyone who has left, and forgets them. */
  lemma SecondLoneDue(n: Node, r: Pid, rows: map<Pid, DotSet>, finals: map<Pid, Counter>, list: seq<Pid>)
    requires Lone(n, r, rows, finals) && finals != map[] && Lists(PidOrder(), list, finals.Keys)
    requires STABLE_REPLICA_PID in rows && rows[STABLE_REPLICA_PID] == LoneStable(n.crdt.vv, r, 1)
    requires |n.wrapper.markers| == 1 && Epoch(n.wrapper) == 1 && Get(rows[r], STABLE_REPLICA_PID) <= 1
    ensures Bound(n) && GcDue(n, LoneStable(n.crdt.vv, r, 1) - finals.Keys, Some(list)) && NextMarker(n.wrapper) == Dot(STABLE_REPLICA_PID, 2)
    ensures OwnRefreshed(n) == n.(wrapper := Wrapper(Matrix(r, rows[r := E(n.crdt.vv, 1)], finals), n.wrapper.markers))
  {
    RefreshedLone(n, r, rows, finals);
    var m := OwnRefreshed(n).wrapper.matrix;
    assert OwnRow(m) == E(n.crdt.vv, 1);
    assert Retirable(m) == finals.Keys;
    hide IsStable;
    LoneFrontier(m, r, Some(list));
  }

  lemma SecondLoneSweep(n: Node, r: Pid, rows: map<Pid, DotSet>, finals: map<Pid, Counter>, list: seq<Pid>, n1: Node)
    requires Lone(n, r, rows, finals) && Lists(PidOrder(), list, finals.Keys) && n.crdt.log == map[]
    requires STABLE_REPLICA_PID in rows && rows[STABLE_REPLICA_PID] == LoneStable(n.crdt.vv, r, 1)
    requires n1 == n.(wrapper := Wrapper(Matrix(r, rows[r := E(n.crdt.vv, 1)], finals), n.wrapper.markers))
    ensures var marker := GcMarker(Dot(STABLE_REPLICA_PID, 2), LoneStable(n.crdt.vv, r, 1) - finals.Keys, Some(list));
            && OwnRowSurvives(n1.wrapper.matrix, Some(list))
            && var n' := MarkerCommitted(n1, marker);
               && n'.phase.Idle? && n'.crdt == n.crdt.(vv := n.crdt.vv - finals.Keys) && n'.wrapper.matrix.finals == map[]
  {
    var m := n1.wrapper.matrix;
    assert Announced(Some(list)) == finals.Keys && Removable(m, list) == finals.Keys;
    hide E, LoneStable, LogBelow;
  }

  lemma SweptLone(n: Node, r: Pid, rows: map<Pid, DotSet>, finals: map<Pid, Counter>, marker: GcMarker, n': Node)
    requires Lone(n, r, rows, finals) && marker.marker == Dot(STABLE_REPLICA_PID, 1)
    requires n' == n.(crdt := n.crdt.(log := map[]), wrapper := Wrapper(Matrix(r, SweptRows(rows, r, n.crdt.vv), finals), [marker]))
    ensures Lone(n', r, SweptRows(rows, r, n.crdt.vv), finals) && Epoch(n'.wrapper) == 1 && Get(SweptRows(rows, r, n.crdt.vv)[r], STABLE_REPLICA_PID) <= 1
    ensures var next := SweptRows(rows, r, n.crdt.vv);
            STABLE_REPLICA_PID in next && next[STABLE_REPLICA_PID] == LoneStable(n'.crdt.vv, r, 1)
  {
    hide LoneStable;
  }

  lemma FirstRound(members: set<Pid>, net: Network, r: Pid, rows: map<Pid, DotSet>, finals: map<Pid, Counter>) returns (net': Network)
    requires Reachable(members, net) && Idles(net, r) && Lone(net.nodes[r], r, rows, finals)
    requires STABLE_REPLICA_PID !in rows && net.nodes[r].wrapper.markers == [] && Get(rows[r], STABLE_REPLICA_PID) <= 0
    ensures Reachable(members, net') && net'.world.live == net.world.live && net'.nodes.Keys == net.nodes.Keys
    ensures forall p <- net.nodes | p != r :: net'.nodes[p] == net.nodes[p]
    ensures var marker := GcMarker(Dot(STABLE_REPLICA_PID, 1), LoneStable(net.nodes[r].crdt.vv, r, 0), None);
            net'.nodes[r] == net.nodes[r].(crdt := net.nodes[r].crdt.(log := map[]),
                                           wrapper := Wrapper(Matrix(r, SweptRows(rows, r, net.nodes[r].crdt.vv), finals), [marker]))
  {
    hide Reachable, Lone, GcDue, Bound, OwnRefreshed, MarkerCommitted, NextMarker, OwnRowSurvives, LoneStable, SweptRows, E, Get;
    var n := net.nodes[r];
    FirstLoneDue(n, r, rows, finals);
    FirstLoneSweep(n, r, rows, finals, OwnRefreshed(n));
    net' := Sweeping(members, net, r, LoneStable(n.crdt.vv, r, 0), None);
  }

  lemma SecondRound(members: set<Pid>, net: Network, r: Pid, rows: map<Pid, DotSet>, finals: map<Pid, Counter>, list: seq<Pid>) returns (net': Network)
    requires Reachable(members, net) && Idles(net, r) && Lone(net.nodes[r], r, rows, finals)
    requires finals != map[] && Lists(PidOrder(), list, finals.Keys) && net.nodes[r].crdt.log == map[]
    requires STABLE_REPLICA_PID in rows && rows[STABLE_REPLICA_PID] == LoneStable(net.nodes[r].crdt.vv, r, 1)
    requires |net.nodes[r].wrapper.markers| == 1 && Epoch(net.nodes[r].wrapper) == 1 && Get(rows[r], STABLE_REPLICA_PID) <= 1
    ensures Reachable(members, net') && net'.world.live == net.world.live && net'.nodes.Keys == net.nodes.Keys
    ensures forall p <- net.nodes | p != r :: net'.nodes[p] == net.nodes[p]
    ensures net'.nodes[r].phase.Idle? && net'.nodes[r].wrapper.matrix.finals == map[]
    ensures net'.nodes[r].crdt == net.nodes[r].crdt.(vv := net.nodes[r].crdt.vv - finals.Keys)
  {
    hide Reachable, Lone, GcDue, Bound, OwnRefreshed, MarkerCommitted, NextMarker, OwnRowSurvives, LoneStable, SweptRows, E, Get, Lists, Epoch;
    var n := net.nodes[r];
    SecondLoneDue(n, r, rows, finals, list);
    SecondLoneSweep(n, r, rows, finals, list, OwnRefreshed(n));
    net' := Sweeping(members, net, r, LoneStable(n.crdt.vv, r, 1) - finals.Keys, Some(list));
  }

  /** Two rounds of a lone replica: everyone who has left is forgotten, and so is the log. */
  lemma RetireAll(members: set<Pid>, net: Network, r: Pid, rows: map<Pid, DotSet>, finals: map<Pid, Counter>, list: seq<Pid>)
    returns (net': Network)
    requires Reachable(members, net) && Idles(net, r) && Lone(net.nodes[r], r, rows, finals)
    requires STABLE_REPLICA_PID !in rows && net.nodes[r].wrapper.markers == [] && Get(rows[r], STABLE_REPLICA_PID) <= 0
    requires finals != map[] && Lists(PidOrder(), list, finals.Keys)
    ensures Reachable(members, net') && net'.world.live == net.world.live && net'.nodes.Keys == net.nodes.Keys
    ensures forall p <- net.nodes | p != r :: net'.nodes[p] == net.nodes[p]
    ensures net'.nodes[r].phase.Idle? && net'.nodes[r].wrapper.matrix.finals == map[]
    ensures net'.nodes[r].crdt == net.nodes[r].crdt.(log := map[], vv := net.nodes[r].crdt.vv - finals.Keys)
  {
    hide Reachable, Lone, LoneStable, SweptRows, Lists, Epoch, Get;
    var n := net.nodes[r];
    var net1 := FirstRound(members, net, r, rows, finals);
    LoneIdle(n, r, rows, finals);
    SweptLone(n, r, rows, finals, GcMarker(Dot(STABLE_REPLICA_PID, 1), LoneStable(n.crdt.vv, r, 0), None), net1.nodes[r]);
    net' := SecondRound(members, net1, r, SweptRows(rows, r, n.crdt.vv), finals, list);
  }

  lemma LoneIdle(n: Node, r: Pid, rows: map<Pid, DotSet>, finals: map<Pid, Counter>)
    requires Lone(n, r, rows, finals)
    ensures n.phase.Idle?
  {
  }

  lemma AbsorbedLone(n: Node, n': Node, x: Element)
    requires n.crdt.vv == V12(0, 0) && n.crdt.log == Log12([L(1, 0, x)], [(Dot(2, 0), R(x))])
    requires n'.phase.Idle? && n'.crdt == n.crdt && n'.wrapper == Wrapper(Matrix(2, TwoRows(E(V12(0, 0), 0)), Final1()), [])
    ensures Lone(n', 2, TwoRows(E(V12(0, 0), 0)), Final1()) && Get(TwoRows(E(V12(0, 0), 0))[2], STABLE_REPLICA_PID) <= 0
    ensures STABLE_REPLICA_PID !in TwoRows(E(V12(0, 0), 0)) && Final1() != map[] && Lists(PidOrder(), [1], Final1().Keys)
    ensures V12(0, 0) - Final1().Keys == V2(0)
  {
    assert 1 in Final1();
  }

  /** The state in which replica 2 has removed `x` and retired replica 1. */
  lemma RemovedAndRetired(x: Element) returns (net: Network)
    ensures Reachable({1, 2}, net) && net.nodes.Keys == {1, 2} && net.world.live == {2}
    ensures net.nodes[1].crdt.vv == V1(0) && net.nodes[1].crdt.log == Log1([L(1, 0, x)])
    ensures net.nodes[2].phase.Idle? && net.nodes[2].wrapper.matrix.finals == map[]
    ensures net.nodes[2].crdt.entries == map[] && net.nodes[2].crdt.log == map[] && net.nodes[2].crdt.vv == V2(0)
  {
    hide Reachable, Merged, DeltasAfter, Enumerates, FirstWrapper, Lone, Bound, V1, V2, V12, E, L, R, Log1, Log12, TwoRows, Final1, IsRun, EndOf, Lists, FinalDot, Get;
    var members := {1, 2};
    var net0 := InsertThenRemove(members, x);
    var net1 := Leaving(members, net0, 1);
    TwoMembers();
    var n2, payload := net1.nodes[2], net1.nodes[1].crdt;
    AbsorbOne(n2, payload, x);
    var net2 := Absorbing(members, net1, 2, 1, [1, 2], n2.crdt);
    AbsorbedLone(n2, net2.nodes[2], x);
    net := RetireAll(members, net2, 2, TwoRows(E(V12(0, 0), 0)), Final1(), [1]);
  }

  lemma AbsorbAgain(n: Node, payload: OrSet, x: Element)
    requires payload.vv == V1(0) && payload.log == Log1([L(1, 0, x)])
    requires n.crdt.entries == map[] && n.crdt.log == map[] && n.crdt.vv == V2(0)
    ensures Enumerates([1, 2], payload.log.Keys + n.crdt.vv.Keys) && !Has(n.crdt, x)
    ensures var merged := Merged(n.crdt, DeltasAfter(payload, n.crdt.vv, [1, 2]));
            merged.Some? && Has(merged.value, x)
  {
    Answer2(payload.log, n.crdt.vv, 1, 2);
    assert Greater(payload.log, n.crdt.vv, 1) == [L(1, 0, x)] && Greater(payload.log, n.crdt.vv, 2) == [];
    assert DeltasAfter(payload, n.crdt.vv, [1, 2]) == [D(1, 0, x)];
    Merge1(n.crdt, D(1, 0, x));
    LoggedNew(n.crdt, D(1, 0, x));
  }

  /**
   Forgetting a column makes its deltas new again. Replica 2 has removed the `x` that
   replica 1 inserted, absorbed replica 1 and retired it; its final dots no longer mention
   replica 1, so when the shutdown object is seen once more its payload is absorbed once
   more, and `x` is back without any new mutation.
   */
  lemma RetiredDeltaReturns(x: Element) returns (net: Network)
    ensures Reachable({1, 2}, net) && 2 in net.nodes && !Has(net.nodes[2].crdt, x)
    ensures var steps := [Absorbs(2, 1, [1, 2]), CommitsGroup(2)];
            && IsRun(net, steps) && 2 in EndOf(net, steps).nodes && Has(EndOf(net, steps).nodes[2].crdt, x)
  {
    hide Reachable, Merged, DeltasAfter, Enumerates, Has, IsRun, EndOf, V1, V2, Log1, L, FinalDot;
    net := RemovedAndRetired(x);
    var n2, payload := net.nodes[2], net.nodes[1].crdt;
    AbsorbAgain(n2, payload, x);
    LivePoised({1, 2}, net, 2);
    var s := Merged(n2.crdt, DeltasAfter(payload, n2.crdt.vv, [1, 2])).value;
    var _ := Absorbing({1, 2}, net, 2, 1, [1, 2], s);
  }

  // ---- The contiguity assertion fires ----

  /** What has to be known of a matrix: whose it is, which rows it has, and that no marker has been applied. */
  ghost predicate Plain(n: Node, own: Pid, keys: set<Pid>, finals: map<Pid, Counter>) {
    && n.phase.Idle? && n.wrapper.matrix.ownPid == own && n.wrapper.matrix.rows.Keys == keys && own in keys
    && n.wrapper.matrix.finals == finals && n.wrapper.markers == [] && Get(n.wrapper.matrix.rows[own], STABLE_REPLICA_PID) == 0
  }

  lemma PlainFirst(own: Pid, members: set<Pid>)
    requires own in members
    ensures Plain(FirstNode(own, members), own, members, map[])
  {
  }

  lemma PlainRefreshed(n: Node, own: Pid, keys: set<Pid>, finals: map<Pid, Counter>, s: OrSet)
    requires Plain(n, own, keys, finals)
    ensures Bound(n) && Stamped(n.wrapper, n.crdt.vv) == E(n.crdt.vv, 0) && Epoch(n.wrapper) == 0
    ensures var n' := OwnRefreshed(n.(crdt := s));
            && Plain(n', own, keys, finals) && n'.crdt == s && n'.wrapper.matrix.rows == n.wrapper.matrix.rows[own := E(s.vv, 0)]
  {
  }

  lemma PlainHandled(n: Node, own: Pid, keys: set<Pid>, finals: map<Pid, Counter>, b: Pid, req: DotSet)
    requires Plain(n, own, keys, finals) && b in keys && b != own && Get(req, STABLE_REPLICA_PID) == 0
    ensures Bound(n)
    ensures var n' := VectorHandled(n, b, req);
            Plain(n', own, keys, finals) && n'.crdt == n.crdt && n'.wrapper.matrix.rows[b] == req
  {
  }

  const THREE: set<Pid> := {1, 2, 3}

  /** Replicas 1 and 3 after replica 2 has left with one mutation of each of 1 and 2. */
  ghost predicate TwoLeft(net: Network, x: Element) {
    && Reachable(THREE, net) && net.nodes.Keys == THREE && net.world.live == {1, 3}
    && Plain(net.nodes[1], 1, THREE, map[]) && net.nodes[1].crdt.vv == V1(0) && net.nodes[1].crdt.log == Log1([L(1, 0, x)])
    && net.nodes[2].crdt.vv == V12(0, 0) && net.nodes[2].crdt.log == Log12([L(1, 0, x)], [L(2, 0, x)])
    && net.nodes[3] == FirstNode(3, THREE)
  }

  lemma InsertionByTwo(s: OrSet, x: Element)
    requires s.pid == Some(2) && s.vv == V1(0) && s.log == Log1([L(1, 0, x)])
    ensures var t := Mutated(s, InsertElement(x));
            t.vv == V12(0, 0) && t.log == Log12([L(1, 0, x)], [L(2, 0, x)])
  {
    LoggedNew(s, D(2, 0, x));
  }

  lemma ReachTwoLeft(x: Element) returns (net: Network)
    ensures TwoLeft(net, x)
  {
    hide Reachable, Mutated, FirstWrapper, V1, V12, E, L, Log1, Log12, IsRun, EndOf, Plain, VectorHandled, Bound, Get;
    var net1 := InsertOnce(THREE, x);
    PlainFirst(1, THREE);
    var net2 := SeenByTwo(THREE, net1, x);
    PlainOfWrapper(FirstNode(1, THREE), net1.nodes[1], 1, THREE, map[]);
    EpochOfE(map[], 0);
    PlainHandled(net1.nodes[1], 1, THREE, map[], 2, E(map[], 0));
    InsertionByTwo(net2.nodes[2].crdt, x);
    var net3 := Mutating(THREE, net2, 2, InsertElement(x));
    net := Leaving(THREE, net3, 2);
  }

  lemma PlainOfWrapper(n: Node, n': Node, own: Pid, keys: set<Pid>, finals: map<Pid, Counter>)
    requires Plain(n, own, keys, finals) && n'.wrapper == n.wrapper && n'.phase.Idle?
    ensures Plain(n', own, keys, finals)
  {
  }

  lemma EpochOfE(vv: DotSet, epoch: Counter)
    ensures Get(E(vv, epoch), STABLE_REPLICA_PID) == epoch
  {
  }

  /** Replica 1 has mutated twice, replica 3 has seen that and said so. */
  ghost predicate ThreeAsked(net: Network, x: Element) {
    && Reachable(THREE, net) && net.nodes.Keys == THREE && net.world.live == {1, 3}
    && Plain(net.nodes[1], 1, THREE, map[]) && net.nodes[1].crdt.vv == V1(1) && net.nodes[1].crdt.log == Log1([L(1, 0, x), L(1, 1, x)])
    && net.nodes[1].wrapper.matrix.rows[3] == E(V1(1), 0)
    && net.nodes[2].crdt.vv == V12(0, 0) && net.nodes[2].crdt.log == Log12([L(1, 0, x)], [L(2, 0, x)])
    && Plain(net.nodes[3], 3, THREE, map[]) && net.nodes[3].crdt.vv == V1(1) && net.nodes[3].crdt.log == Log1([L(1, 0, x), L(1, 1, x)])
  }

  lemma SecondInsertion(s: OrSet, x: Element)
    requires s.pid == Some(1) && s.vv == V1(0) && s.log == Log1([L(1, 0, x)])
    ensures var t := Mutated(s, InsertElement(x));
            t.vv == V1(1) && t.log == Log1([L(1, 0, x), L(1, 1, x)])
  {
    assert [L(1, 0, x)] + [L(1, 1, x)] == [L(1, 0, x), L(1, 1, x)];
  }

  lemma TwoToThree(s: OrSet, t: OrSet, x: Element)
    requires s.vv == V1(1) && s.log == Log1([L(1, 0, x), L(1, 1, x)]) && t == EMPTY.(pid := Some(3))
    ensures Enumerates([1, 0], s.log.Keys + E(map[], 0).Keys) && Enumerates([1, 0], s.log.Keys + E(V1(1), 0).Keys)
    ensures var merged := Merged(t, DeltasAfter(s, E(map[], 0), [1, 0]));
            merged.Some? && merged.value.vv == V1(1) && merged.value.log == Log1([L(1, 0, x), L(1, 1, x)])
  {
    Answer2(s.log, E(map[], 0), 1, 0);
    assert Greater(s.log, E(map[], 0), 1) == [L(1, 0, x), L(1, 1, x)] && Greater(s.log, E(map[], 0), 0) == [];
    assert DeltasAfter(s, E(map[], 0), [1, 0]) == [D(1, 0, x), D(1, 1, x)];
    Merge2(t, D(1, 0, x), D(1, 1, x));
    LoggedNew(t, D(1, 0, x));
    assert [L(1, 0, x)] + [L(1, 1, x)] == [L(1, 0, x), L(1, 1, x)];
  }

  lemma ReachThreeAsked(x: Element) returns (net: Network)
    ensures ThreeAsked(net, x)
  {
    hide Reachable, Mutated, Merged, DeltasAfter, Enumerates, FirstWrapper, V1, V12, E, L, Log1, Log12, IsRun, EndOf, Plain, VectorHandled, OwnRefreshed, Stamped, Bound, Get;
    var net1 := ReachTwoLeft(x);
    PlainIdle(net1.nodes[1], 1, THREE, map[]);
    LivePoised(THREE, net1, 1);
    SecondInsertion(net1.nodes[1].crdt, x);
    var net2 := Mutating(THREE, net1, 1, InsertElement(x));
    net := AskedBy(net2, x);
  }

  lemma PlainIdle(n: Node, own: Pid, keys: set<Pid>, finals: map<Pid, Counter>)
    requires Plain(n, own, keys, finals)
    ensures n.phase.Idle? && Bound(n) && n.wrapper.markers == [] && n.wrapper.matrix.finals == finals
    ensures forall s: OrSet :: Plain(n.(crdt := s), own, keys, finals)
  {
  }

  lemma AskedBy(net: Network, x: Element) returns (net': Network)
    requires Reachable(THREE, net) && net.nodes.Keys == THREE && net.world.live == {1, 3}
    requires Plain(net.nodes[1], 1, THREE, map[]) && net.nodes[1].crdt.vv == V1(1) && net.nodes[1].crdt.log == Log1([L(1, 0, x), L(1, 1, x)])
    requires net.nodes[2].crdt.vv == V12(0, 0) && net.nodes[2].crdt.log == Log12([L(1, 0, x)], [L(2, 0, x)])
    requires net.nodes[3] == FirstNode(3, THREE)
    ensures ThreeAsked(net', x)
  {
    hide Reachable, Merged, DeltasAfter, Enumerates, FirstWrapper, V1, V12, E, L, Log1, Log12, IsRun, EndOf, Plain, VectorHandled, OwnRefreshed, Stamped, Bound, Get;
    var n1, n3 := net.nodes[1], net.nodes[3];
    PlainFirst(3, THREE);
    PlainIdle(n1, 1, THREE, map[]);
    PlainIdle(n3, 3, THREE, map[]);
    TwoToThree(n1.crdt, n3.crdt, x);
    var s := Merged(n3.crdt, DeltasAfter(n1.crdt, E(map[], 0), [1, 0])).value;
    PlainRefreshed(n3, 3, THREE, map[], n3.crdt);
    PlainRefreshed(OwnRefreshed(n3), 3, THREE, map[], s);
    EpochOfE(map[], 0);
    PlainHandled(n1, 1, THREE, map[], 3, E(map[], 0));
    var net1 := Exchanging(THREE, net, 1, 3, [1, 0], s);
    net' := AskedTwice(net1, x);
  }

  lemma AskedTwice(net: Network, x: Element) returns (net': Network)
    requires Reachable(THREE, net) && net.nodes.Keys == THREE && net.world.live == {1, 3}
    requires Plain(net.nodes[1], 1, THREE, map[]) && net.nodes[1].crdt.vv == V1(1) && net.nodes[1].crdt.log == Log1([L(1, 0, x), L(1, 1, x)])
    requires net.nodes[2].crdt.vv == V12(0, 0) && net.nodes[2].crdt.log == Log12([L(1, 0, x)], [L(2, 0, x)])
    requires Plain(net.nodes[3], 3, THREE, map[]) && net.nodes[3].crdt.vv == V1(1) && net.nodes[3].crdt.log == Log1([L(1, 0, x), L(1, 1, x)])
    ensures ThreeAsked(net', x)
  {
    hide Reachable, DeltasAfter, Enumerates, FirstWrapper, V1, V12, E, L, Log1, Log12, IsRun, EndOf, Plain, VectorHandled, OwnRefreshed, Stamped, Bound, Get;
    var n1, n3 := net.nodes[1], net.nodes[3];
    PlainIdle(n1, 1, THREE, map[]);
    PlainIdle(n3, 3, THREE, map[]);
    PlainRefreshed(n3, 3, THREE, map[], n3.crdt);
    TwoToThree(n1.crdt, EMPTY.(pid := Some(3)), x);
    EpochOfE(V1(1), 0);
    PlainHandled(n1, 1, THREE, map[], 3, E(V1(1), 0));
    var net1, _ := Asking(THREE, net, 1, 3, [1, 0]);
    net' := net1;
  }

  function Final(p: Pid, c: Counter): map<Pid, Counter> {
    map[p := c]
  }

  /** Replica 1 absorbs replica 2. */
  lemma OneAbsorbsTwo(s: OrSet, payload: OrSet, x: Element)
    requires s.vv == V1(1) && s.log == Log1([L(1, 0, x), L(1, 1, x)])
    requires payload.vv == V12(0, 0) && payload.log == Log12([L(1, 0, x)], [L(2, 0, x)])
    ensures Enumerates([1, 2], payload.log.Keys + s.vv.Keys) && FinalDot(payload, 2) == Dot(2, 0)
    ensures var merged := Merged(s, DeltasAfter(payload, s.vv, [1, 2]));
            && merged.Some? && merged.value.pid == s.pid && merged.value.vv == V12(1, 0)
            && merged.value.log == Log12([L(1, 0, x), L(1, 1, x)], [L(2, 0, x)])
  {
    Answer2(payload.log, s.vv, 1, 2);
    assert Greater(payload.log, s.vv, 1) == [] && Greater(payload.log, s.vv, 2) == [L(2, 0, x)];
    assert DeltasAfter(payload, s.vv, [1, 2]) == [D(2, 0, x)];
    Merge1(s, D(2, 0, x));
    LoggedNew(s, D(2, 0, x));
  }

  function Frontier1(): DotSet {
    map[0 := 0, 1 := 1, 2 := -1, 3 := -1]
  }

  /** The frontier replica 1 computes from its own row and that of replica 3. */
  lemma FrontierOfOne(m: Matrix)
    requires m.ownPid == 1 && m.rows.Keys == THREE && m.finals == Final(2, 0)
    requires m.rows[1] == E(V12(1, 0), 0) && m.rows[3] == E(V1(1), 0)
    ensures HasOwnRow(m) && IsStable(m, Some(Frontier1()), None)
  {
    var observers: set<Pid> := {1, 3};
    assert Observers(m) == observers;
    forall q ensures q in Columns(m, observers) <==> q == 0 || q == 1 || q == 2 {
      assert q in m.rows[1] <==> q == 0 || q == 1 || q == 2;
    }
    forall q <- Frontier1() ensures IsColumnMin(m, observers, q, Frontier1()[q]) {
      assert Get(m.rows[1], q) == Frontier1()[q] || Get(m.rows[3], q) == Frontier1()[q];
      assert 1 in observers && 3 in observers;
    }
    assert Frontier1().Keys == Columns(m, observers) + observers - Retirable(m);
  }

  lemma CollectedByOne(s: OrSet, x: Element)
    requires s.vv == V12(1, 0) && s.log == Log12([L(1, 0, x), L(1, 1, x)], [L(2, 0, x)])
    ensures var t := Collected(s, Frontier1(), None);
            t.pid == s.pid && t.vv == V12(1, 0) && t.log == map[2 := [L(2, 0, x)]]
  {
    var keep := Needed(Frontier1(), Announced(None));
    FilterNone(s.log[1], keep);
    FilterAll(s.log[2], keep);
    assert Retain(s.log, keep) == map[2 := [L(2, 0, x)]];
    var none: set<Pid> := {};
    assert s.vv - none == s.vv;
  }

  lemma ThirdInsertion(s: OrSet, x: Element)
    requires s.pid == Some(1) && s.vv == V12(1, 0) && s.log == map[2 := [L(2, 0, x)]]
    ensures var t := Mutated(s, InsertElement(x));
            t.vv == V12(2, 0) && t.log == Log12([L(1, 2, x)], [L(2, 0, x)])
  {
    LoggedNew(s, D(1, 2, x));
  }

  /** Replica 1 has left with only its last mutation in the log. */
  ghost predicate OneLeft(net: Network, x: Element) {
    && Reachable(THREE, net) && net.nodes.Keys == THREE && net.world.live == {3}
    && net.nodes[1].crdt.vv == V12(2, 0) && net.nodes[1].crdt.log == Log12([L(1, 2, x)], [L(2, 0, x)])
    && net.nodes[2].crdt.vv == V12(0, 0) && net.nodes[2].crdt.log == Log12([L(1, 0, x)], [L(2, 0, x)])
    && Plain(net.nodes[3], 3, THREE, map[]) && net.nodes[3].crdt.vv == V1(1) && net.nodes[3].crdt.log == Log1([L(1, 0, x), L(1, 1, x)])
  }

  /** Replica 1 absorbs replica 2 and runs a round. */
  lemma OneSweeps(n: Node, x: Element)
    requires Plain(n, 1, THREE, Final(2, 0)) && n.crdt.vv == V12(1, 0) && n.wrapper.matrix.rows[3] == E(V1(1), 0)
    ensures Bound(n) && GcDue(n, Frontier1(), None) && OwnRefreshed(n).crdt == n.crdt && OwnRefreshed(n).phase.Idle?
  {
    PlainRefreshed(n, 1, THREE, Final(2, 0), n.crdt);
    hide IsStable;
    FrontierOfOne(OwnRefreshed(n).wrapper.matrix);
  }

  lemma AbsorbedRow(n: Node, s: OrSet, final: Dot, n': Node)
    requires Plain(n, 1, THREE, map[]) && n.wrapper.matrix.rows[3] == E(V1(1), 0) && final == Dot(2, 0)
    requires n' == var refreshed := OwnRefreshed(n.(crdt := s)); refreshed.(wrapper := DepartureObserved(refreshed.wrapper, final))
    ensures Plain(n', 1, THREE, Final(2, 0)) && n'.crdt == s && n'.wrapper.matrix.rows[3] == E(V1(1), 0)
  {
    PlainRefreshed(n, 1, THREE, map[], s);
  }

  lemma OneAbsorbs(net: Network, x: Element) returns (net': Network)
    requires ThreeAsked(net, x)
    ensures Reachable(THREE, net') && net'.nodes.Keys == THREE && net'.world.live == {1, 3}
    ensures net'.nodes[2] == net.nodes[2] && net'.nodes[3] == net.nodes[3]
    ensures Plain(net'.nodes[1], 1, THREE, Final(2, 0)) && net'.nodes[1].wrapper.matrix.rows[3] == E(V1(1), 0)
    ensures net'.nodes[1].crdt.vv == V12(1, 0) && net'.nodes[1].crdt.log == Log12([L(1, 0, x), L(1, 1, x)], [L(2, 0, x)])
  {
    hide Reachable, Merged, DeltasAfter, Enumerates, V1, V12, E, L, Log1, Log12, IsRun, EndOf, Plain, OwnRefreshed, Bound, Get, FinalDot, Final;
    var n1, payload := net.nodes[1], net.nodes[2].crdt;
    PlainIdle(n1, 1, THREE, map[]);
    OneAbsorbsTwo(n1.crdt, payload, x);
    var s := Merged(n1.crdt, DeltasAfter(payload, n1.crdt.vv, [1, 2])).value;
    net' := Absorbing(THREE, net, 1, 2, [1, 2], s);
    AbsorbedRow(n1, s, FinalDot(payload, 2), net'.nodes[1]);
  }

  lemma ReachOneLeft(x: Element) returns (net: Network)
    ensures OneLeft(net, x)
  {
    hide Reachable, Mutated, V1, V12, E, L, Log1, Log12, IsRun, EndOf, Plain, OwnRefreshed, Bound, Get, Final, GcDue, Frontier1, Collected, Pushed, OwnRowSurvives, NextMarker;
    var net0 := ReachThreeAsked(x);
    var net1 := OneAbsorbs(net0, x);
    var n1 := net1.nodes[1];
    PlainIdle(n1, 1, THREE, Final(2, 0));
    OneSweeps(n1, x);
    CollectedByOne(n1.crdt, x);
    LivePoised(THREE, net1, 1);
    var net2 := Sweeping(THREE, net1, 1, Frontier1(), None);
    ThirdInsertion(net2.nodes[1].crdt, x);
    var net3 := Mutating(THREE, net2, 1, InsertElement(x));
    net := Leaving(THREE, net3, 1);
  }

  // ---- Replica 3 absorbs both, retires both, and absorbs both again ----

  function Finals12(): map<Pid, Counter> {
    map[1 := 2, 2 := 0]
  }

  lemma ThreeAbsorbsOne(s: OrSet, payload: OrSet, x: Element)
    requires s.vv == V1(1) && s.log == Log1([L(1, 0, x), L(1, 1, x)])
    requires payload.vv == V12(2, 0) && payload.log == Log12([L(1, 2, x)], [L(2, 0, x)])
    ensures Enumerates([1, 2], payload.log.Keys + s.vv.Keys) && FinalDot(payload, 1) == Dot(1, 2)
    ensures var merged := Merged(s, DeltasAfter(payload, s.vv, [1, 2]));
            && merged.Some? && merged.value.vv == V12(2, 0)
            && merged.value.log == Log12([L(1, 0, x), L(1, 1, x), L(1, 2, x)], [L(2, 0, x)])
  {
    ThirdInPayload(payload, s.vv, x);
    hide AllGreater, DeltasAfter, Greater, Merged, MergedOne, Log1, Log12, V1, V12, L;
    Merge2(s, D(1, 2, x), D(2, 0, x));
    ThirdAndFirst(s, x);
  }

  lemma ThirdInPayload(payload: OrSet, vv: DotSet, x: Element)
    requires vv == V1(1) && payload.vv == V12(2, 0) && payload.log == Log12([L(1, 2, x)], [L(2, 0, x)])
    ensures DeltasAfter(payload, vv, [1, 2]) == [D(1, 2, x), D(2, 0, x)]
    ensures Enumerates([1, 2], payload.log.Keys + vv.Keys) && FinalDot(payload, 1) == Dot(1, 2)
  {
    Answer2(payload.log, vv, 1, 2);
    assert Greater(payload.log, vv, 1) == [L(1, 2, x)] && Greater(payload.log, vv, 2) == [L(2, 0, x)];
    assert DeltasAfter(payload, vv, [1, 2]) == [D(1, 2, x), D(2, 0, x)];
  }

  lemma ThirdAndFirst(s: OrSet, x: Element)
    requires s.vv == V1(1) && s.log == Log1([L(1, 0, x), L(1, 1, x)])
    ensures MergedOne(s, D(1, 2, x)).Some? && MergedOne(MergedOne(s, D(1, 2, x)).value, D(2, 0, x)).Some?
    ensures var t := MergedOne(MergedOne(s, D(1, 2, x)).value, D(2, 0, x)).value;
            t.vv == V12(2, 0) && t.log == Log12([L(1, 0, x), L(1, 1, x), L(1, 2, x)], [L(2, 0, x)])
  {
    var s1 := Logged(s, D(1, 2, x));
    assert [L(1, 0, x), L(1, 1, x)] + [L(1, 2, x)] == [L(1, 0, x), L(1, 1, x), L(1, 2, x)];
    assert s1.vv == V1(2) && s1.log == Log1([L(1, 0, x), L(1, 1, x), L(1, 2, x)]);
    LoggedNew(s1, D(2, 0, x));
  }

  lemma ThreeAbsorbsTwo(s: OrSet, payload: OrSet, x: Element)
    requires s.vv == V12(2, 0) && payload.vv == V12(0, 0) && payload.log == Log12([L(1, 0, x)], [L(2, 0, x)])
    ensures Enumerates([1, 2], payload.log.Keys + s.vv.Keys) && FinalDot(payload, 2) == Dot(2, 0)
    ensures Merged(s, DeltasAfter(payload, s.vv, [1, 2])) == Some(s)
  {
    Answer2(payload.log, s.vv, 1, 2);
    assert Greater(payload.log, s.vv, 1) == [] && Greater(payload.log, s.vv, 2) == [];
    assert DeltasAfter(payload, s.vv, [1, 2]) == [];
    Merge0(s);
  }

  lemma AbsorbedPlain(n: Node, own: Pid, finals: map<Pid, Counter>, s: OrSet, final: Dot, n': Node)
    requires Plain(n, own, THREE, finals)
    requires n' == var refreshed := OwnRefreshed(n.(crdt := s)); refreshed.(wrapper := DepartureObserved(refreshed.wrapper, final))
    ensures Plain(n', own, THREE, finals[final.pid := final.counter]) && n'.crdt == s
  {
    PlainRefreshed(n, own, THREE, finals, s);
  }

  lemma ThreeIsLone(n: Node, x: Element)
    requires Plain(n, 3, THREE, Finals12()) && n.crdt.vv == V12(2, 0)
    requires n.crdt.log == Log12([L(1, 0, x), L(1, 1, x), L(1, 2, x)], [L(2, 0, x)])
    ensures Lone(n, 3, n.wrapper.matrix.rows, Finals12()) && STABLE_REPLICA_PID !in n.wrapper.matrix.rows && n.wrapper.markers == []
    ensures Get(n.wrapper.matrix.rows[3], STABLE_REPLICA_PID) <= 0 && Finals12() != map[] && Lists(PidOrder(), [1, 2], Finals12().Keys)
    ensures V12(2, 0) - Finals12().Keys == map[]
  {
    assert 1 in Finals12();
  }

  /** Replica 3 has absorbed both. */
  lemma ThreeAbsorbsBoth(net: Network, x: Element) returns (net': Network)
    requires OneLeft(net, x)
    ensures Reachable(THREE, net') && net'.nodes.Keys == THREE && net'.world.live == {3}
    ensures net'.nodes[1] == net.nodes[1] && net'.nodes[2] == net.nodes[2]
    ensures Plain(net'.nodes[3], 3, THREE, Finals12()) && net'.nodes[3].crdt.vv == V12(2, 0)
    ensures net'.nodes[3].crdt.log == Log12([L(1, 0, x), L(1, 1, x), L(1, 2, x)], [L(2, 0, x)])
  {
    hide Reachable, Merged, DeltasAfter, Enumerates, V1, V12, L, Log1, Log12, IsRun, EndOf, Plain, OwnRefreshed, Bound, Get, FinalDot;
    var n3, one, two := net.nodes[3], net.nodes[1].crdt, net.nodes[2].crdt;
    PlainIdle(n3, 3, THREE, map[]);
    ThreeAbsorbsOne(n3.crdt, one, x);
    var s := Merged(n3.crdt, DeltasAfter(one, n3.crdt.vv, [1, 2])).value;
    var net1 := Absorbing(THREE, net, 3, 1, [1, 2], s);
    AbsorbedPlain(n3, 3, map[], s, FinalDot(one, 1), net1.nodes[3]);
    PlainIdle(net1.nodes[3], 3, THREE, map[1 := 2]);
    ThreeAbsorbsTwo(s, two, x);
    net' := Absorbing(THREE, net1, 3, 2, [1, 2], s);
    AbsorbedPlain(net1.nodes[3], 3, map[1 := 2], s, FinalDot(two, 2), net'.nodes[3]);
  }

  lemma ThreeForgets(x: Element) returns (net: Network)
    ensures Reachable(THREE, net) && net.nodes.Keys == THREE && net.world.live == {3}
    ensures net.nodes[1].crdt.vv == V12(2, 0) && net.nodes[1].crdt.log == Log12([L(1, 2, x)], [L(2, 0, x)])
    ensures net.nodes[2].crdt.vv == V12(0, 0) && net.nodes[2].crdt.log == Log12([L(1, 0, x)], [L(2, 0, x)])
    ensures net.nodes[3].phase.Idle? && net.nodes[3].wrapper.matrix.finals == map[] && net.nodes[3].crdt.vv == map[] && net.nodes[3].crdt.log == map[]
  {
    hide Reachable, V1, V12, L, Log1, Log12, Plain, Get, Lone, Lists, Finals12;
    var net0 := ReachOneLeft(x);
    var net1 := ThreeAbsorbsBoth(net0, x);
    PlainIdle(net1.nodes[3], 3, THREE, Finals12());
    ThreeIsLone(net1.nodes[3], x);
    net := RetireAll(THREE, net1, 3, net1.nodes[3].wrapper.matrix.rows, Finals12(), [1, 2]);
  }

  lemma TwoAgain(s: OrSet, payload: OrSet, x: Element)
    requires s.vv == map[] && s.log == map[] && payload.vv == V12(0, 0) && payload.log == Log12([L(1, 0, x)], [L(2, 0, x)])
    ensures Enumerates([1, 2], payload.log.Keys + s.vv.Keys)
    ensures var merged := Merged(s, DeltasAfter(payload, s.vv, [1, 2]));
            merged.Some? && merged.value.vv == V12(0, 0)
  {
    Answer2(payload.log, s.vv, 1, 2);
    assert Greater(payload.log, s.vv, 1) == [L(1, 0, x)] && Greater(payload.log, s.vv, 2) == [L(2, 0, x)];
    assert DeltasAfter(payload, s.vv, [1, 2]) == [D(1, 0, x), D(2, 0, x)];
    Merge2(s, D(1, 0, x), D(2, 0, x));
  }

  lemma OneAgain(s: OrSet, payload: OrSet, x: Element)
    requires s.vv == V12(0, 0) && payload.vv == V12(2, 0) && payload.log == Log12([L(1, 2, x)], [L(2, 0, x)])
    ensures Enumerates([1, 2], payload.log.Keys + s.vv.Keys)
    ensures Merged(s, DeltasAfter(payload, s.vv, [1, 2])).None?
  {
    Answer2(payload.log, s.vv, 1, 2);
    assert Greater(payload.log, s.vv, 1) == [L(1, 2, x)] && Greater(payload.log, s.vv, 2) == [];
    assert DeltasAfter(payload, s.vv, [1, 2]) == [D(1, 2, x)];
    Merge1(s, D(1, 2, x));
  }

  /**
   The assertion in `DotSet::insert` fires. Replica 2 leaves with the first mutation of
   replica 1; replica 1 collects its first two and leaves with only the third; replica 3
   absorbs both, retires both and thereby forgets both columns. When it sees the shutdown
   object of replica 2 once more its vector gets counter 0 for replica 1, and the payload
   of replica 1, which starts at counter 2, no longer fits.
   */
  lemma PanicIsReachable(x: Element) returns (net: Network)
    ensures Reachable({1, 2, 3}, net) && Halted(net, 3)
  {
    hide Reachable, Merged, DeltasAfter, Enumerates, IsRun, EndOf, V1, V12, Log12, L, EpochOk, Enabled, After;
    var net0 := ThreeForgets(x);
    var n3 := net0.nodes[3];
    LivePoised(THREE, net0, 3);
    TwoAgain(n3.crdt, net0.nodes[2].crdt, x);
    var s := Merged(n3.crdt, DeltasAfter(net0.nodes[2].crdt, n3.crdt.vv, [1, 2])).value;
    var net1 := Absorbing(THREE, net0, 3, 2, [1, 2], s);
    assert net1.nodes[3].wrapper.matrix.finals.Keys == {2};
    OneAgain(net1.nodes[3].crdt, net1.nodes[1].crdt, x);
    net := Reading(THREE, net1, 3, 1, [1, 2]);
  }
}

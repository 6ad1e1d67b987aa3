/**
 One exchange, from any reachable state.

 The theorems about the protocol say what holds when a step happens. Here the steps
 of a pull are shown to be possible: whatever has happened before, an idle replica
 can ask another idle one, get an answer, accept it and merge it, and has then seen
 everything the other one had.
 */
module Exchanges {
  import opened Options
  import opened Dots
  import opened DotMaps
  import opened Orders
  import opened VersionMatrices
  import opened GcWrappers
  import opened OrSets
  import opened Histories
  import opened Replicas
  import opened Networks
  import opened NetworkInvariants
  import opened NetworkSteps
  import opened ProtocolTheorems

  // ---- What a step may choose exists ----

  lemma EnumerationExists<X>(s: set<X>) returns (order: seq<X>)
    ensures Enumerates(order, s)
    decreases s
  {
    if s == {} {
      order := [];
    } else {
      var x :| x in s;
      var rest := EnumerationExists(s - {x});
      order := rest + [x];
    }
  }

  lemma ListingExists<T(!new)>(le: (T, T) -> bool, s: set<T>) returns (list: seq<T>)
    requires TotalOrder(le)
    ensures Lists(le, list, s)
    decreases s
  {
    if s == {} {
      list := [];
    } else {
      var x :| x in s;
      var rest := ListingExists(le, s - {x});
      list := Placed(le, rest, x);
    }
  }

  lemma {:induction false} ColumnMinExists(m: Matrix, observers: set<Pid>, q: Pid)
    requires observers != {} && observers <= m.rows.Keys
    ensures exists v :: IsColumnMin(m, observers, q, v)
    decreases observers
  {
    var p :| p in observers;
    var rest := observers - {p};
    if rest == {} {
      assert observers == {p};
      assert IsColumnMin(m, observers, q, Get(m.rows[p], q));
    } else {
      ColumnMinExists(m, rest, q);
      var v :| IsColumnMin(m, rest, q, v);
      var lower := if v <= Get(m.rows[p], q) then v else Get(m.rows[p], q);
      assert IsColumnMin(m, observers, q, lower);
    }
  }

  ghost function ColumnMin(m: Matrix, observers: set<Pid>, q: Pid): (v: Counter)
    requires observers != {} && observers <= m.rows.Keys
    ensures IsColumnMin(m, observers, q, v)
  {
    ColumnMinExists(m, observers, q);
    var v :| IsColumnMin(m, observers, q, v);
    v
  }

  lemma StableExists(m: Matrix) returns (stable: Option<DotSet>, departed: Option<seq<Pid>>)
    requires HasOwnRow(m)
    ensures IsStable(m, stable, departed)
  {
    var observers := Observers(m);
    if observers == {} {
      return None, None;
    }
    var frontier: DotSet := map q | q in Columns(m, observers) + observers - Retirable(m) :: ColumnMin(m, observers, q);
    var list := ListingExists(PidOrder(), Retirable(m));
    stable := Some(frontier);
    departed := if Retirable(m) == {} then None else Some(list);
  }

  // ---- Runs extend ----

  lemma {:induction false} RunSnoc(net: Network, steps: seq<Step>, step: Step)
    requires IsRun(net, steps) && Enabled(EndOf(net, steps), step)
    ensures IsRun(net, steps + [step]) && EndOf(net, steps + [step]) == After(EndOf(net, steps), step)
    decreases |steps|
  {
    hide Enabled, After;
    var all := steps + [step];
    if steps == [] {
      assert all[0] == step && all[1..] == [];
      assert IsRun(After(net, step), []);
    } else {
      assert all[0] == steps[0] && all[1..] == steps[1..] + [step];
      RunSnoc(After(net, steps[0]), steps[1..], step);
    }
  }

  lemma ReachableStep(members: set<Pid>, net: Network, step: Step)
    requires Reachable(members, net) && Enabled(net, step)
    ensures Reachable(members, After(net, step))
  {
    hide Enabled, After;
    var steps :| IsRun(Start(members), steps) && EndOf(Start(members), steps) == net;
    RunSnoc(Start(members), steps, step);
  }

  // ---- The four steps of a pull ----

  ghost predicate Idles(net: Network, r: Pid) {
    r in net.nodes && r in net.world.live && net.nodes[r].phase.Idle?
  }

  /** The log of a replica carries nothing of a retired one. */
  ghost predicate LogUnretired(net: Network, r: Pid)
    requires r in net.nodes
  {
    net.nodes[r].crdt.log.Keys !! net.world.erased
  }

  ghost predicate Poised(net: Network, r: Pid) {
    && r in net.nodes && r in net.world.seen && r in net.world.history && r in net.world.live && r != STABLE_REPLICA_PID
    && Bound(net.nodes[r]) && net.nodes[r].crdt.pid == Some(r)
    && net.nodes[r].wrapper.matrix.ownPid == r && EpochOk(net.nodes[r].wrapper)
  }

  lemma LivePoised(members: set<Pid>, net: Network, r: Pid)
    requires Reachable(members, net) && r in net.nodes && r in net.world.live
    ensures Poised(net, r)
  {
    hide Reachable, PhaseOk, SetOk, BasesOk, RowsOk, MarkerOk, Exact;
    ReachableNode(members, net, r);
  }

  lemma PullPossible(net: Network, b: Pid, a: Pid, net': Network)
    requires Poised(net, b) && net.nodes[b].phase.Idle? && a in net.nodes && a != b
    requires net' == Network(net.nodes[b := OwnRefreshed(net.nodes[b])],
                             net.bag + {Envelope(a, VersionVector(b, Stamped(net.nodes[b].wrapper, net.nodes[b].crdt.vv)))}, net.world)
    ensures Enabled(net, Pulls(b, a)) && After(net, Pulls(b, a)) == net'
  {
    hide EpochOk;
  }

  lemma HandledBound(net: Network, a: Pid, b: Pid, vv: DotSet)
    requires Poised(net, a) && a != b && b != STABLE_REPLICA_PID
    ensures Bound(VectorHandled(net.nodes[a], b, vv))
    ensures Epoch(VectorHandled(net.nodes[a], b, vv).wrapper) == Epoch(net.nodes[a].wrapper)
  {
    var wr := net.nodes[a].wrapper;
    RowsKeepEpoch(wr, b, vv);
    RowsKeepEpoch(RowReceived(wr, b, vv), b, net.nodes[a].crdt.vv);
  }

  lemma AnswerPossible(net: Network, a: Pid, b: Pid, vv: DotSet, order: seq<Pid>, stable: Option<DotSet>, departed: Option<seq<Pid>>, net': Network)
    requires Poised(net, a) && net.nodes[a].phase.Idle? && Envelope(a, VersionVector(b, vv)) in net.bag
    requires Enumerates(order, net.nodes[a].crdt.log.Keys + vv.Keys)
    requires Bound(VectorHandled(net.nodes[a], b, vv)) && IsStable(VectorHandled(net.nodes[a], b, vv).wrapper.matrix, stable, departed)
    requires net' == Network(net.nodes[a := VectorHandled(net.nodes[a], b, vv)],
                             net.bag + {Envelope(b, DeltaGroup(Answer(net.nodes[a], vv, order),
                                                               Metadata(VectorHandled(net.nodes[a], b, vv).wrapper, stable)))}, net.world)
    ensures Enabled(net, Answers(a, b, vv, order, stable, departed)) && After(net, Answers(a, b, vv, order, stable, departed)) == net'
  {
    hide EpochOk, IsStable, Enumerates, VectorHandled, Answer, Metadata;
  }

  lemma ReceivePossible(net: Network, b: Pid, group: Group, marker: GcMarker, net': Network)
    requires Poised(net, b) && net.nodes[b].phase.Idle? && Envelope(b, DeltaGroup(group, marker)) in net.bag
    requires OwnRowSurvives(net.nodes[b].wrapper.matrix, marker.departed)
    requires net' == Network(net.nodes[b := DeltaReceived(net.nodes[b], group, marker)], net.bag, net.world)
    ensures Enabled(net, Receives(b, group, marker)) && After(net, Receives(b, group, marker)) == net'
  {
    hide EpochOk, OwnRowSurvives, DeltaReceived;
  }

  lemma CommitPossible(members: set<Pid>, net: Network, b: Pid)
    requires Reachable(members, net) && Poised(net, b) && net.nodes[b].phase.Merging?
    requires !exists p :: Gap(net.nodes[b].crdt.vv, DotsOf(net.nodes[b].phase.group.list), p)
    ensures Enabled(net, CommitsGroup(b))
  {
    hide Reachable, EpochOk, GroupCommitted, FitsOutside, Gap;
    GapFreedom(members, net, b);
  }

  // ---- Their effect ----

  /** The set after the marker that comes with an answer: a newer one is applied first. */
  ghost function TakenFrom(n: Node, marker: GcMarker): OrSet {
    if Epoch(n.wrapper) < marker.marker.counter then Collected(n.crdt, marker.stable, marker.departed) else n.crdt
  }

  /** Receiving an answer that is not refused brings the epoch up to the sender's. */
  lemma ReceivedNode(n: Node, group: Group, marker: GcMarker, epoch: Counter)
    requires !Refused(n, group) && OwnRowSurvives(n.wrapper.matrix, marker.departed)
    requires marker.marker == Dot(STABLE_REPLICA_PID, epoch) && Epoch(n.wrapper) <= epoch
    ensures var n' := DeltaReceived(n, group, marker);
            && n'.phase == Merging(group, None) && Epoch(n'.wrapper) == epoch
            && n'.crdt.log.Keys <= n.crdt.log.Keys && n'.crdt == TakenFrom(n, marker)
            && n'.crdt.vv == n.crdt.vv - if Epoch(n.wrapper) < epoch then Announced(marker.departed) else {}
  {
    hide OwnRowSurvives, MarkerApplied;
    assert n.crdt.vv - {} == n.crdt.vv;
  }

  // ---- When the answer does not fit ----

  ghost function LastDeparted(wr: Wrapper): Option<seq<Pid>> {
    if wr.markers == [] then None else wr.markers[|wr.markers| - 1].departed
  }

  ghost predicate IsLast(wr: Wrapper, marker: GcMarker) {
    wr.markers != [] ==> marker == wr.markers[|wr.markers| - 1]
  }

  /** The columns a requester drops because the answer comes with a newer marker. */
  ghost function Dropped(na: Node, nb: Node): set<Pid> {
    if Epoch(nb.wrapper) < Epoch(na.wrapper) then Announced(LastDeparted(na.wrapper)) else {}
  }

  /** The requester has a column that the log of the other one continues only further on. */
  ghost predicate Misfit(na: Node, nb: Node, p: Pid) {
    p in nb.crdt.vv && p !in Dropped(na, nb) && p in na.crdt.log && nb.crdt.vv[p] < Base(na.crdt.log, na.crdt.vv, p)
  }

  /** The requester's set after the marker it gets with an answer from `na`. */
  ghost function Taken(na: Node, nb: Node): OrSet {
    if na.wrapper.markers == [] then nb.crdt else TakenFrom(nb, na.wrapper.markers[|na.wrapper.markers| - 1])
  }

  /** After `nb` has pulled from `na`, the other way round: `na` has a column that the log of `nb` continues only further on. */
  ghost predicate LaterMisfit(na: Node, nb: Node, p: Pid) {
    p in na.crdt.vv && p in Taken(na, nb).log && na.crdt.vv[p] < Base(Taken(na, nb).log, Taken(na, nb).vv, p)
  }

  /** Merging what lies within `target` neither opens nor closes a gap above `target`. */
  lemma {:induction false} MergedBase(s: OrSet, list: seq<Delta>, target: DotSet, p: Pid)
    requires LogOk(s) && Merged(s, list).Some? && p in target && forall delta <- list :: Contains(target, delta.dot)
    ensures var t := Merged(s, list).value;
            (p in t.log && target[p] < Base(t.log, t.vv, p)) <==> (p in s.log && target[p] < Base(s.log, s.vv, p))
    decreases |list|
  {
    if list != [] {
      var s1 := MergedOne(s, list[0]).value;
      assert list == [list[0]] + list[1..] && list[0] in list;
      if !Contains(s.vv, list[0].dot) {
        LoggedOk(s, list[0]);
      }
      MergedBase(s1, list[1..], target, p);
    }
  }

  lemma OfPidMember<T>(items: seq<(Dot, T)>, d: Dot)
    ensures d in ItemDots(items) <==> d in ItemDots(OfPid(items, d.pid))
  {
    hide Filter;
    var mine := OfPid(items, d.pid);
    if d in ItemDots(items) {
      var i :| 0 <= i < |items| && items[i].0 == d;
      FilterMember(items, IsPid(d.pid), items[i]);
      var k :| 0 <= k < |mine| && mine[k] == items[i];
      assert ItemDots(mine)[k] == d;
    }
    if d in ItemDots(mine) {
      var i :| 0 <= i < |mine| && mine[i].0 == d;
      FilterMember(items, IsPid(d.pid), mine[i]);
      var k :| 0 <= k < |items| && items[k] == mine[i];
      assert ItemDots(items)[k] == d;
    }
  }

  lemma DotsOfPid<T>(m: DotMap<T>, own: DotSet, req: DotSet, order: seq<Pid>, d: Dot)
    requires Shape(m, own) && Enumerates(order, m.Keys + req.Keys)
    ensures d in ItemDots(AllGreater(m, req, order)) <==> d in ItemDots(Greater(m, req, d.pid))
  {
    hide AllGreater, Shape, Greater, OfPid, ItemDots;
    AllGreaterOfPid(m, own, req, order, d.pid);
    if d.pid !in order {
      NotLogged(m, req, d.pid);
    }
    OfPidMember(AllGreater(m, req, order), d);
  }

  lemma NotLogged<T>(m: DotMap<T>, req: DotSet, p: Pid)
    requires p !in m
    ensures Greater(m, req, p) == []
  {
  }

  /** Where an answer has a gap can be told from the log it is taken from. */
  lemma AnswerGap(s: OrSet, req: DotSet, order: seq<Pid>, vv: DotSet, p: Pid)
    requires LogOk(s) && Enumerates(order, s.log.Keys + req.Keys) && (p in vv ==> p in req && req[p] == vv[p])
    ensures Gap(vv, DotsOf(DeltasAfter(s, req, order)), p) <==> p in vv && p in s.log && vv[p] < Base(s.log, s.vv, p)
  {
    AnswerDots(s, req, order);
    var all, mine := ItemDots(AllGreater(s.log, req, order)), ItemDots(Greater(s.log, req, p));
    forall d: Dot | d.pid == p ensures d in all <==> d in mine {
      DotsOfPid(s.log, s.vv, req, order, d);
    }
    if p in vv && p in s.log {
      SearchAfterRun(s.log[p], p, s.vv[p], req[p], 0, |s.log[p]|);
      GreaterIsRun(s.log, s.vv, req, p);
      OwnGap(vv, p, s.vv[p], |s.log[p]|, mine);
    } else if p in vv {
      NotLogged(s.log, req, p);
    }
  }

  /** A run ending at `last` that starts past both `vv[p]` and the base has a gap iff the base is past `vv[p]`. */
  lemma OwnGap(vv: DotSet, p: Pid, last: Counter, length: nat, mine: seq<Dot>)
    requires p in vv && length > 0 && |mine| == length - Clamp(vv[p] - last + length, length)
    requires forall i | 0 <= i < |mine| :: mine[i] == Dot(p, last - |mine| + 1 + i)
    ensures (exists d <- mine :: vv[p] < d.counter) && Dot(p, vv[p] + 1) !in mine <==> vv[p] < last - length
  {
    if vv[p] < last {
      assert mine[|mine| - 1] in mine && mine[|mine| - 1] == Dot(p, last);
      if last - length <= vv[p] {
        assert mine[0] == Dot(p, vv[p] + 1);
      }
    }
  }

  lemma {:induction false} MergedBounds(s: OrSet, list: seq<Delta>, target: DotSet)
    requires Merged(s, list).Some? && forall delta <- list :: Contains(target, delta.dot)
    ensures forall q: Pid :: Get(Merged(s, list).value.vv, q) <= Max(Get(s.vv, q), Get(target, q))
    ensures forall p <- Merged(s, list).value.log :: p in s.log || exists delta <- list :: delta.dot.pid == p
    decreases |list|
  {
    if list != [] {
      var s1 := MergedOne(s, list[0]).value;
      assert list == [list[0]] + list[1..] && list[0] in list;
      MergedBounds(s1, list[1..], target);
    }
  }

  function Max(a: int, b: int): int {
    if a <= b then b else a
  }

  lemma TwoSteps(net: Network, first: Step, second: Step)
    requires Enabled(net, first) && Enabled(After(net, first), second)
    ensures IsRun(net, [first, second]) && EndOf(net, [first, second]) == After(After(net, first), second)
  {
    hide Enabled, After;
    RunSnoc(net, [], first);
    assert [] + [first] == [first] && [first] + [second] == [first, second];
    RunSnoc(net, [first], second);
  }

  lemma {:induction false} RunConcat(net: Network, xs: seq<Step>, ys: seq<Step>)
    requires IsRun(net, xs) && IsRun(EndOf(net, xs), ys)
    ensures IsRun(net, xs + ys) && EndOf(net, xs + ys) == EndOf(EndOf(net, xs), ys)
    decreases |xs|
  {
    hide Enabled, After;
    if xs == [] {
      assert xs + ys == ys;
    } else {
      assert (xs + ys)[0] == xs[0] && (xs + ys)[1..] == xs[1..] + ys;
      RunConcat(After(net, xs[0]), xs[1..], ys);
    }
  }

  lemma AnswerPids(s: OrSet, vv: DotSet, order: seq<Pid>)
    requires LogOk(s)
    ensures forall delta <- DeltasAfter(s, vv, order) :: delta.dot.pid in s.log
  {
    var list := DeltasAfter(s, vv, order);
    forall delta <- list ensures delta.dot.pid in s.log {
      var i :| 0 <= i < |list| && list[i] == delta;
      AnswerItems(s, vv, order, i);
    }
  }

  lemma MetadataMarker(w: World, r: Pid, wr: Wrapper, wr': Wrapper, stable: Option<DotSet>)
    requires WrapperOk(w, r, wr) && wr'.markers == wr.markers
    ensures Metadata(wr', stable).marker == Dot(STABLE_REPLICA_PID, Epoch(wr))
  {
    if wr.markers != [] {
      assert MarkerOk(w, wr.markers[|wr.markers| - 1]);
    }
  }

  /** What an exchange leaves alone. */
  ghost predicate Undisturbed(net: Network, net': Network) {
    && net'.nodes.Keys == net.nodes.Keys && net'.world.history == net.world.history
    && net'.world.live == net.world.live && net'.world.erased == net.world.erased
  }

  lemma PullAndAnswer(members: set<Pid>, net: Network, a: Pid, b: Pid)
    returns (steps: seq<Step>, group: Group, marker: GcMarker, order: seq<Pid>)
    requires Reachable(members, net) && Idles(net, a) && Idles(net, b) && a != b
    ensures IsRun(net, steps) && Reachable(members, EndOf(net, steps)) && Undisturbed(net, EndOf(net, steps))
    ensures Envelope(b, DeltaGroup(group, marker)) in EndOf(net, steps).bag
    ensures Idles(EndOf(net, steps), a) && EndOf(net, steps).nodes[a].crdt == net.nodes[a].crdt
    ensures Idles(EndOf(net, steps), b) && EndOf(net, steps).nodes[b].crdt == net.nodes[b].crdt
    ensures Epoch(EndOf(net, steps).nodes[a].wrapper) == Epoch(net.nodes[a].wrapper)
    ensures Epoch(EndOf(net, steps).nodes[b].wrapper) == Epoch(net.nodes[b].wrapper)
    ensures group.vv == Stamped(net.nodes[a].wrapper, net.nodes[a].crdt.vv)
    ensures var req := Stamped(net.nodes[b].wrapper, net.nodes[b].crdt.vv);
            Enumerates(order, net.nodes[a].crdt.log.Keys + req.Keys) && group.list == DeltasAfter(net.nodes[a].crdt, req, order)
    ensures marker.marker == Dot(STABLE_REPLICA_PID, Epoch(net.nodes[a].wrapper)) && marker.departed == LastDeparted(net.nodes[a].wrapper)
    ensures IsLast(net.nodes[a].wrapper, marker)
  {
    hide Reachable, Enabled, After, EpochOk, IsStable, Enumerates, NodeOk, Tidy, Causal, LogOk, DeltasAfter;
    var na, nb := net.nodes[a], net.nodes[b];
    LivePoised(members, net, b);
    var vv := Stamped(nb.wrapper, nb.crdt.vv);
    var net1 := Network(net.nodes[b := OwnRefreshed(nb)], net.bag + {Envelope(a, VersionVector(b, vv))}, net.world);
    PullPossible(net, b, a, net1);
    ReachableStep(members, net, Pulls(b, a));
    LivePoised(members, net1, a);
    HandledBound(net1, a, b, vv);
    order := EnumerationExists(na.crdt.log.Keys + vv.Keys);
    var stable, departed := StableExists(VectorHandled(na, b, vv).wrapper.matrix);
    group, marker := Answer(na, vv, order), Metadata(VectorHandled(na, b, vv).wrapper, stable);
    var net2 := Network(net1.nodes[a := VectorHandled(na, b, vv)], net1.bag + {Envelope(b, DeltaGroup(group, marker))}, net1.world);
    AnswerPossible(net1, a, b, vv, order, stable, departed, net2);
    ReachableStep(members, net1, Answers(a, b, vv, order, stable, departed));
    steps := [Pulls(b, a), Answers(a, b, vv, order, stable, departed)];
    TwoSteps(net, Pulls(b, a), Answers(a, b, vv, order, stable, departed));
    AnswerMarker(members, net, a, b, vv, stable);
  }

  lemma AnswerMarker(members: set<Pid>, net: Network, a: Pid, b: Pid, vv: DotSet, stable: Option<DotSet>)
    requires Reachable(members, net) && Poised(net, a) && Bound(VectorHandled(net.nodes[a], b, vv))
    ensures var marker := Metadata(VectorHandled(net.nodes[a], b, vv).wrapper, stable);
            && marker.marker == Dot(STABLE_REPLICA_PID, Epoch(net.nodes[a].wrapper)) && marker.departed == LastDeparted(net.nodes[a].wrapper)
            && IsLast(net.nodes[a].wrapper, marker)
  {
    hide Reachable, EpochOk, Tidy, Causal, CrdtOk, PhaseOk, RowsOk, MarkerOk;
    ReachableNode(members, net, a);
    MetadataMarker(net.world, a, net.nodes[a].wrapper, VectorHandled(net.nodes[a], b, vv).wrapper, stable);
  }

  lemma MarkerAnnounced(members: set<Pid>, net: Network, b: Pid, group: Group, marker: GcMarker)
    requires Reachable(members, net) && Envelope(b, DeltaGroup(group, marker)) in net.bag
    ensures Announced(marker.departed) <= net.world.erased
  {
    hide Reachable;
    ReachableEnvelope(members, net, Envelope(b, DeltaGroup(group, marker)));
  }

  /** A commit in a reachable state joins the vector with the group's, column by column. */
  lemma CommitJoins(members: set<Pid>, net: Network, b: Pid, n': Node)
    requires Reachable(members, net) && Poised(net, b) && net.nodes[b].phase.Merging?
    requires GroupCommitted(net.nodes[b]) == Some(n')
    ensures forall q: Pid | q != STABLE_REPLICA_PID && q !in net.world.erased ::
              Get(n'.crdt.vv, q) == Max(Get(net.nodes[b].crdt.vv, q), Get(net.nodes[b].phase.group.vv, q))
    ensures forall p <- n'.crdt.log :: p in net.nodes[b].crdt.log || exists delta <- net.nodes[b].phase.group.list :: delta.dot.pid == p
    ensures n'.phase.Idle? && Epoch(n'.wrapper) == Epoch(net.nodes[b].wrapper)
    ensures Merged(net.nodes[b].crdt, net.nodes[b].phase.group.list) == Some(n'.crdt)
  {
    hide Reachable, EpochOk, Get, Merged, Tidy, Causal, CrdtOk, WrapperOk, Contains, FinalOk, HasOwnRow, OwnRow, Leq, Fits, Completes, ContextsCovered, AllRecorded;
    var n := net.nodes[b];
    CatchUp(members, net, b, n');
    ReachableNode(members, net, b);
    CommittedRow(n);
    assert forall delta <- n.phase.group.list :: Contains(n.phase.group.vv, delta.dot);
    MergedBounds(n.crdt, n.phase.group.list, n.phase.group.vv);
    VectorOnlyGrows(members, net, b);
  }

  lemma VectorOnlyGrows(members: set<Pid>, net: Network, b: Pid)
    requires Reachable(members, net) && Poised(net, b) && net.nodes[b].phase.Merging? && GroupCommitted(net.nodes[b]).Some?
    ensures forall q: Pid | q !in net.world.erased :: Get(net.nodes[b].crdt.vv, q) <= Get(GroupCommitted(net.nodes[b]).value.crdt.vv, q)
  {
    hide Reachable, EpochOk, Tidy, Causal, CrdtOk, WrapperOk, PhaseOk, EnvelopeOk, GroupCommitted, Settles, JoinedAll;
    ReachableInv(members, net);
    var step := CommitsGroup(b);
    StepKeepsInv(net, step);
    StepGrows(net, step);
    VectorIsSeen(net.world, b, net.nodes[b].crdt);
    VectorIsSeen(After(net, step).world, b, After(net, step).nodes[b].crdt);
  }

  lemma CommitStepIs(net: Network, b: Pid)
    requires Enabled(net, CommitsGroup(b))
    ensures var net' := After(net, CommitsGroup(b));
            && net'.nodes == net.nodes[b := GroupCommitted(net.nodes[b]).value]
            && Undisturbed(net, net')
  {
    hide GroupCommitted, Settles, JoinedAll;
  }

  /** The replica has stopped at the contiguity assertion. */
  ghost predicate Halted(net: Network, r: Pid) {
    r in net.nodes && r in net.world.live && Bound(net.nodes[r]) && net.nodes[r].phase.Merging? && GroupCommitted(net.nodes[r]).None?
  }

  /** The vector a group is merged into: a newer marker drops columns first. */
  ghost function MergedInto(n: Node, epoch: Counter, departed: Option<seq<Pid>>): DotSet {
    n.crdt.vv - if Epoch(n.wrapper) < epoch then Announced(departed) else {}
  }

  lemma ReceiveOutcome(members: set<Pid>, net: Network, b: Pid, group: Group, marker: GcMarker) returns (steps: seq<Step>)
    requires Reachable(members, net) && Idles(net, b) && Envelope(b, DeltaGroup(group, marker)) in net.bag
    requires marker.marker == Dot(STABLE_REPLICA_PID, Get(group.vv, STABLE_REPLICA_PID))
    ensures IsRun(net, steps) && Reachable(members, EndOf(net, steps)) && Undisturbed(net, EndOf(net, steps))
    ensures forall r <- net.nodes | r != b :: EndOf(net, steps).nodes[r] == net.nodes[r]
    ensures Refused(net.nodes[b], group) ==> EndOf(net, steps).nodes[b] == net.nodes[b]
    ensures !Refused(net.nodes[b], group) ==>
              var into := MergedInto(net.nodes[b], Get(group.vv, STABLE_REPLICA_PID), marker.departed);
              if exists p :: Gap(into, DotsOf(group.list), p) then Halted(EndOf(net, steps), b)
              else
                && JoinedWith(net, EndOf(net, steps), b, group)
                && Merged(TakenFrom(net.nodes[b], marker), group.list) == Some(EndOf(net, steps).nodes[b].crdt)
  {
    hide Reachable, Enabled, After, EpochOk, OwnRowSurvives, GroupCommitted, DeltaReceived, Get, Announced, Epoch, Max, Gap, Refused, TakenFrom, Merged;
    var n := net.nodes[b];
    LivePoised(members, net, b);
    MarkersNeverPanic(members, net, b, group, marker);
    MarkerAnnounced(members, net, b, group, marker);
    var net1 := Network(net.nodes[b := DeltaReceived(n, group, marker)], net.bag, net.world);
    ReceivePossible(net, b, group, marker, net1);
    ReachableStep(members, net, Receives(b, group, marker));
    if Refused(n, group) {
      RefusedNode(n, group, marker);
      assert net1 == net;
      OneStep(net, Receives(b, group, marker));
      return [Receives(b, group, marker)];
    }
    NotRefusedEpoch(n, group);
    ReceivedNode(n, group, marker, Get(group.vv, STABLE_REPLICA_PID));
    LivePoised(members, net1, b);
    var into := MergedInto(n, Get(group.vv, STABLE_REPLICA_PID), marker.departed);
    assert net1.nodes[b].crdt.vv == into && net1.nodes[b].phase.group == group;
    if exists p :: Gap(into, DotsOf(group.list), p) {
      GapFreedom(members, net1, b);
      OneStep(net, Receives(b, group, marker));
      return [Receives(b, group, marker)];
    }
    CommitPossible(members, net1, b);
    ReachableStep(members, net1, CommitsGroup(b));
    CommitJoins(members, net1, b, CommittedNode(net1, b));
    CommitStepIs(net1, b);
    steps := [Receives(b, group, marker), CommitsGroup(b)];
    TwoSteps(net, Receives(b, group, marker), CommitsGroup(b));
    JoinedThrough(net, net1, After(net1, CommitsGroup(b)), b, group, marker);
  }

  /** The replica has merged the group: its vector is the join outside the retired columns. */
  ghost predicate JoinedWith(net: Network, net': Network, b: Pid, group: Group)
    requires b in net.nodes
  {
    && Idles(net', b) && Epoch(net'.nodes[b].wrapper) == Get(group.vv, STABLE_REPLICA_PID)
    && (forall q: Pid | q != STABLE_REPLICA_PID && q !in net.world.erased ::
          Get(net'.nodes[b].crdt.vv, q) == Max(Get(net.nodes[b].crdt.vv, q), Get(group.vv, q)))
    && (forall p <- net'.nodes[b].crdt.log :: p in net.nodes[b].crdt.log || exists delta <- group.list :: delta.dot.pid == p)
  }

  lemma JoinedThrough(net: Network, net1: Network, net2: Network, b: Pid, group: Group, marker: GcMarker)
    requires b in net.nodes && b in net1.nodes && Undisturbed(net, net1) && Announced(marker.departed) <= net.world.erased
    requires net1.nodes[b].crdt.vv == MergedInto(net.nodes[b], Get(group.vv, STABLE_REPLICA_PID), marker.departed)
    requires net1.nodes[b].crdt.log.Keys <= net.nodes[b].crdt.log.Keys
    requires JoinedWith(net1, net2, b, group)
    ensures JoinedWith(net, net2, b, group)
  {
  }

  lemma RefusedNode(n: Node, group: Group, marker: GcMarker)
    requires Refused(n, group) && OwnRowSurvives(n.wrapper.matrix, marker.departed)
    ensures DeltaReceived(n, group, marker) == n
  {
  }

  lemma NotRefusedEpoch(n: Node, group: Group)
    requires !Refused(n, group)
    ensures Epoch(n.wrapper) <= Get(group.vv, STABLE_REPLICA_PID)
  {
  }

  lemma OneStep(net: Network, step: Step)
    requires Enabled(net, step)
    ensures IsRun(net, [step]) && EndOf(net, [step]) == After(net, step)
  {
    hide Enabled, After;
    RunSnoc(net, [], step);
    assert [] + [step] == [step];
  }

  ghost function CommittedNode(net: Network, b: Pid): (n: Node)
    requires Enabled(net, CommitsGroup(b))
    ensures GroupCommitted(net.nodes[b]) == Some(n)
  {
    GroupCommitted(net.nodes[b]).value
  }

  /**
   One exchange, from any reachable state: a pull, its answer and its receipt are possible.
   A requester ahead in epoch refuses the answer. Otherwise the outcome depends on whether
   some column of the requester is continued by the other's log only further on, which only
   a retired column can be: then the requester stops at the contiguity assertion, and if
   there is none it ends with the join of the two vectors and the other's epoch.
   */
  lemma ExchangeJoins(members: set<Pid>, net: Network, a: Pid, b: Pid) returns (steps: seq<Step>)
    requires Reachable(members, net) && Idles(net, a) && Idles(net, b) && a != b
    ensures IsRun(net, steps) && Reachable(members, EndOf(net, steps)) && Undisturbed(net, EndOf(net, steps))
    ensures Idles(EndOf(net, steps), a) && EndOf(net, steps).nodes[a].crdt == net.nodes[a].crdt
    ensures Epoch(EndOf(net, steps).nodes[a].wrapper) == Epoch(net.nodes[a].wrapper)
    ensures Epoch(net.nodes[a].wrapper) < Epoch(net.nodes[b].wrapper) ==>
              Idles(EndOf(net, steps), b) && EndOf(net, steps).nodes[b].crdt == net.nodes[b].crdt
    ensures Epoch(net.nodes[b].wrapper) <= Epoch(net.nodes[a].wrapper) ==>
              if exists p :: Misfit(net.nodes[a], net.nodes[b], p) then Halted(EndOf(net, steps), b)
              else
                && Caught(net, EndOf(net, steps), a, b)
                && forall p :: Misfit(EndOf(net, steps).nodes[b], EndOf(net, steps).nodes[a], p) <==> LaterMisfit(net.nodes[a], net.nodes[b], p)
    ensures forall p | Misfit(net.nodes[a], net.nodes[b], p) :: p in net.world.erased
  {
    hide Reachable, Enabled, After, Epoch, Max, IsRun, EndOf, Gap, Misfit, DotsOf, MergedInto, JoinedWith, Caught, Halted, Enumerates, DeltasAfter,
         TakenFrom, Merged, LaterMisfit, IsLast;
    var first, group, marker, order := PullAndAnswer(members, net, a, b);
    var middle := EndOf(net, first);
    var second := ReceiveOutcome(members, middle, b, group, marker);
    steps := first + second;
    RunConcat(net, first, second);
    AnswerFor(members, net, middle, EndOf(middle, second), a, b, group, marker, order);
    MisfitIsRetired(members, net, a, b);
    if Epoch(net.nodes[b].wrapper) <= Epoch(net.nodes[a].wrapper) && !exists p :: Misfit(net.nodes[a], net.nodes[b], p) {
      CaughtEpoch(net, EndOf(middle, second), a, b);
      LaterMisfits(members, net, middle, EndOf(middle, second), a, b, group, marker, order);
    }
  }

  lemma CaughtEpoch(net: Network, net': Network, a: Pid, b: Pid)
    requires a in net.nodes && b in net.nodes && Caught(net, net', a, b)
    ensures Epoch(net'.nodes[b].wrapper) == Epoch(net.nodes[a].wrapper)
  {
  }

  lemma TakenIs(members: set<Pid>, net: Network, middle: Network, a: Pid, b: Pid, marker: GcMarker)
    requires Reachable(members, net) && Idles(net, a) && Idles(net, b) && b in middle.nodes
    requires middle.nodes[b].crdt == net.nodes[b].crdt && Epoch(middle.nodes[b].wrapper) == Epoch(net.nodes[b].wrapper)
    requires marker.marker == Dot(STABLE_REPLICA_PID, Epoch(net.nodes[a].wrapper)) && IsLast(net.nodes[a].wrapper, marker)
    ensures TakenFrom(middle.nodes[b], marker) == Taken(net.nodes[a], net.nodes[b])
  {
    hide Reachable, CrdtOk, PhaseOk, EpochOk, RowsOk, Tidy, Causal, Collected, FrontierOk;
    ReachableNode(members, net, b);
    var markers := net.nodes[b].wrapper.markers;
    if markers != [] {
      assert MarkerOk(net.world, markers[|markers| - 1]);
    }
  }

  /** Where the second exchange will stop can be told from the two replicas before the first. */
  lemma LaterMisfits(members: set<Pid>, net: Network, middle: Network, end: Network, a: Pid, b: Pid, group: Group, marker: GcMarker, order: seq<Pid>)
    requires Reachable(members, net) && Idles(net, a) && Idles(net, b) && b in middle.nodes && a in end.nodes && b in end.nodes
    requires middle.nodes[b].crdt == net.nodes[b].crdt && Epoch(middle.nodes[b].wrapper) == Epoch(net.nodes[b].wrapper)
    requires marker.marker == Dot(STABLE_REPLICA_PID, Epoch(net.nodes[a].wrapper)) && IsLast(net.nodes[a].wrapper, marker)
    requires group.list == DeltasAfter(net.nodes[a].crdt, Stamped(net.nodes[b].wrapper, net.nodes[b].crdt.vv), order)
    requires Merged(TakenFrom(middle.nodes[b], marker), group.list) == Some(end.nodes[b].crdt) && end.nodes[a].crdt == net.nodes[a].crdt
    requires Epoch(end.nodes[a].wrapper) == Epoch(end.nodes[b].wrapper)
    ensures forall p :: Misfit(end.nodes[b], end.nodes[a], p) <==> LaterMisfit(net.nodes[a], net.nodes[b], p)
  {
    hide Reachable, TakenFrom, Taken, Merged, DeltasAfter, IsLast, Epoch, LogOk, Base;
    TakenIs(members, net, middle, a, b, marker);
    TakenLogOk(members, net, a, b);
    AnswerBelow(members, net, a, Stamped(net.nodes[b].wrapper, net.nodes[b].crdt.vv), order);
    var na := net.nodes[a];
    forall p ensures Misfit(end.nodes[b], end.nodes[a], p) <==> LaterMisfit(na, net.nodes[b], p) {
      if p in na.crdt.vv {
        MergedBase(Taken(na, net.nodes[b]), group.list, na.crdt.vv, p);
      }
    }
  }

  lemma TakenLogOk(members: set<Pid>, net: Network, a: Pid, b: Pid)
    requires Reachable(members, net) && Idles(net, a) && Idles(net, b)
    ensures LogOk(Taken(net.nodes[a], net.nodes[b]))
  {
    hide Reachable, LogOk, WrapperOk, PhaseOk, Tidy, Causal, Collected, Epoch;
    ReachableNode(members, net, b);
    var markers := net.nodes[a].wrapper.markers;
    if markers != [] {
      CollectedOk(net.nodes[b].crdt, markers[|markers| - 1].stable, markers[|markers| - 1].departed);
    }
  }

  lemma AnswerBelow(members: set<Pid>, net: Network, a: Pid, req: DotSet, order: seq<Pid>)
    requires Reachable(members, net) && Idles(net, a)
    ensures forall delta <- DeltasAfter(net.nodes[a].crdt, req, order) :: Contains(net.nodes[a].crdt.vv, delta.dot)
  {
    hide Reachable, LogOk, WrapperOk, PhaseOk, Tidy, Causal;
    ReachableNode(members, net, a);
    var list := DeltasAfter(net.nodes[a].crdt, req, order);
    forall delta <- list ensures Contains(net.nodes[a].crdt.vv, delta.dot) {
      var i :| 0 <= i < |list| && list[i] == delta;
      AnswerItems(net.nodes[a].crdt, req, order, i);
    }
  }

  /** The requester has the join of both vectors and the other's epoch. */
  ghost predicate Caught(net: Network, net': Network, a: Pid, b: Pid)
    requires a in net.nodes && b in net.nodes
  {
    && Idles(net', b) && Epoch(net'.nodes[b].wrapper) == Epoch(net.nodes[a].wrapper)
    && (forall q: Pid | q != STABLE_REPLICA_PID && q !in net.world.erased ::
          Get(net'.nodes[b].crdt.vv, q) == Max(Get(net.nodes[b].crdt.vv, q), Get(net.nodes[a].crdt.vv, q)))
    && net'.nodes[b].crdt.log.Keys <= net.nodes[b].crdt.log.Keys + net.nodes[a].crdt.log.Keys
  }

  lemma MisfitIsRetired(members: set<Pid>, net: Network, a: Pid, b: Pid)
    requires Reachable(members, net) && Idles(net, a) && Idles(net, b)
    ensures forall p | Misfit(net.nodes[a], net.nodes[b], p) :: p in net.world.erased
  {
    hide Reachable, Tidy, Causal, WrapperOk, PhaseOk, SetOk, Exact, Base, Dropped;
    ReachableNode(members, net, a);
    ReachableNode(members, net, b);
    VectorIsSeen(net.world, b, net.nodes[b].crdt);
    forall p | Misfit(net.nodes[a], net.nodes[b], p) ensures p in net.world.erased {
      assert BaseBelow(net.nodes[a].crdt, net.world.seen[b]);
      assert Base(net.nodes[a].crdt.log, net.nodes[a].crdt.vv, p) <= Get(net.world.seen[b], p);
    }
  }

  /** What the outcome of the receipt says about the two replicas before the exchange. */
  lemma AnswerFor(members: set<Pid>, net: Network, middle: Network, end: Network, a: Pid, b: Pid, group: Group, marker: GcMarker, order: seq<Pid>)
    requires Reachable(members, net) && Idles(net, a) && Idles(net, b) && b in middle.nodes && Undisturbed(net, middle)
    requires middle.nodes[b].crdt == net.nodes[b].crdt && Epoch(middle.nodes[b].wrapper) == Epoch(net.nodes[b].wrapper)
    requires group.vv == Stamped(net.nodes[a].wrapper, net.nodes[a].crdt.vv) && marker.departed == LastDeparted(net.nodes[a].wrapper)
    requires var req := Stamped(net.nodes[b].wrapper, net.nodes[b].crdt.vv);
             Enumerates(order, net.nodes[a].crdt.log.Keys + req.Keys) && group.list == DeltasAfter(net.nodes[a].crdt, req, order)
    ensures Refused(middle.nodes[b], group) <==> Epoch(net.nodes[a].wrapper) < Epoch(net.nodes[b].wrapper)
    ensures (exists p :: Gap(MergedInto(middle.nodes[b], Get(group.vv, STABLE_REPLICA_PID), marker.departed), DotsOf(group.list), p))
            <==> exists p :: Misfit(net.nodes[a], net.nodes[b], p)
    ensures JoinedWith(middle, end, b, group) ==> Caught(net, end, a, b)
  {
    hide Reachable, Tidy, Causal, WrapperOk, PhaseOk, LogOk, LogRecorded, Sound, EntriesSeen, Tracks, BasesOk, Exact, Epoch, Gap, DotsOf, DeltasAfter, Enumerates, LastDeparted, Announced, Base;
    ReachableNode(members, net, a);
    ReachableNode(members, net, b);
    NoEpochColumn(net.world, b, net.nodes[b].crdt);
    var na, nb := net.nodes[a], net.nodes[b];
    var req := Stamped(nb.wrapper, nb.crdt.vv);
    var into := MergedInto(middle.nodes[b], Get(group.vv, STABLE_REPLICA_PID), marker.departed);
    assert Get(group.vv, STABLE_REPLICA_PID) == Epoch(na.wrapper);
    forall p ensures Gap(into, DotsOf(group.list), p) <==> Misfit(na, nb, p) {
      AnswerGap(na.crdt, req, order, into, p);
    }
    AnswerPids(na.crdt, req, order);
  }

  /** The replica whose epoch is not the newer one pulls first. */
  ghost predicate PullsFirst(net: Network, a: Pid, b: Pid)
    requires a in net.nodes && b in net.nodes
  {
    Epoch(net.nodes[b].wrapper) <= Epoch(net.nodes[a].wrapper)
  }

  /** How `b` pulling from `a` and then `a` from `b` ends, told from the two replicas before anything is sent. */
  ghost predicate Concludes(net: Network, end: Network, a: Pid, b: Pid)
    requires a in net.nodes && b in net.nodes
  {
    if exists p :: Misfit(net.nodes[a], net.nodes[b], p) then Halted(end, b)
    else if exists p :: LaterMisfit(net.nodes[a], net.nodes[b], p) then Halted(end, a)
    else Agreed(net, end, a, b)
  }

  /**
   Agreement: from any reachable state two exchanges bring two idle replicas to the same
   vector outside the retired columns, unless a column that can be told from their vectors
   and logs beforehand makes one of them stop at the contiguity assertion. That cannot
   happen while neither log carries anything of a retired replica. Replicas that agree
   hold the same elements if all merges of the run settled.
   */
  lemma AgreementWithinReach(members: set<Pid>, net: Network, a: Pid, b: Pid) returns (steps: seq<Step>)
    requires Reachable(members, net) && Idles(net, a) && Idles(net, b) && a != b
    ensures IsRun(net, steps) && Reachable(members, EndOf(net, steps)) && Undisturbed(net, EndOf(net, steps))
    ensures if PullsFirst(net, a, b) then Concludes(net, EndOf(net, steps), a, b) else Concludes(net, EndOf(net, steps), b, a)
    ensures LogUnretired(net, a) && LogUnretired(net, b) ==> Agreed(net, EndOf(net, steps), a, b)
    ensures Agreed(net, EndOf(net, steps), a, b) && EndOf(net, steps).world.settled ==>
              forall e :: Has(EndOf(net, steps).nodes[a].crdt, e) <==> Has(EndOf(net, steps).nodes[b].crdt, e)
  {
    hide Reachable, Enabled, After, Epoch, IsRun, EndOf, Has, Agreed, Halted, LogUnretired, Concludes;
    if Epoch(net.nodes[b].wrapper) <= Epoch(net.nodes[a].wrapper) {
      steps := AgreeFrom(members, net, a, b);
    } else {
      steps := AgreeFrom(members, net, b, a);
      AgreedSymmetric(net, EndOf(net, steps), a, b);
    }
    if Agreed(net, EndOf(net, steps), a, b) {
      AgreedAnswers(members, net, EndOf(net, steps), a, b);
    }
  }

  ghost predicate Agreed(net: Network, net': Network, a: Pid, b: Pid)
    requires a in net.nodes && b in net.nodes
  {
    && Idles(net', a) && Idles(net', b)
    && forall q: Pid | q != STABLE_REPLICA_PID && q !in net.world.erased ::
         Get(net'.nodes[a].crdt.vv, q) == Get(net'.nodes[b].crdt.vv, q) == Max(Get(net.nodes[a].crdt.vv, q), Get(net.nodes[b].crdt.vv, q))
  }

  lemma AgreedSymmetric(net: Network, net': Network, a: Pid, b: Pid)
    requires a in net.nodes && b in net.nodes
    ensures Agreed(net, net', a, b) <==> Agreed(net, net', b, a)
  {
  }

  lemma NoMisfit(members: set<Pid>, net: Network, a: Pid, b: Pid)
    requires Reachable(members, net) && Idles(net, a) && Idles(net, b) && LogUnretired(net, a)
    ensures !exists p :: Misfit(net.nodes[a], net.nodes[b], p)
  {
    MisfitIsRetired(members, net, a, b);
  }

  lemma AgreeFrom(members: set<Pid>, net: Network, a: Pid, b: Pid) returns (steps: seq<Step>)
    requires Reachable(members, net) && Idles(net, a) && Idles(net, b) && a != b
    requires Epoch(net.nodes[b].wrapper) <= Epoch(net.nodes[a].wrapper)
    ensures IsRun(net, steps) && Reachable(members, EndOf(net, steps)) && Undisturbed(net, EndOf(net, steps))
    ensures Concludes(net, EndOf(net, steps), a, b)
    ensures LogUnretired(net, a) && LogUnretired(net, b) ==> Agreed(net, EndOf(net, steps), a, b)
  {
    hide Reachable, Enabled, After, Epoch, IsRun, EndOf, Misfit, LaterMisfit, Halted, Max, Get;
    var first := ExchangeJoins(members, net, a, b);
    var middle := EndOf(net, first);
    if LogUnretired(net, a) {
      NoMisfit(members, net, a, b);
    }
    if exists p :: Misfit(net.nodes[a], net.nodes[b], p) {
      return first;
    }
    var second := ExchangeJoins(members, middle, b, a);
    if LogUnretired(net, a) && LogUnretired(net, b) {
      NoMisfit(members, middle, b, a);
    }
    steps := first + second;
    RunConcat(net, first, second);
    if !exists p :: Misfit(middle.nodes[b], middle.nodes[a], p) {
      BothCaught(net, middle, EndOf(middle, second), a, b);
    }
  }

  lemma BothCaught(net: Network, middle: Network, end: Network, a: Pid, b: Pid)
    requires a in net.nodes && b in net.nodes && Undisturbed(net, middle) && Idles(middle, a) && middle.nodes[a].crdt == net.nodes[a].crdt
    requires Caught(net, middle, a, b) && Caught(middle, end, b, a)
    requires Idles(end, b) && end.nodes[b].crdt == middle.nodes[b].crdt
    ensures Agreed(net, end, a, b)
  {
    hide Get;
  }

  lemma AgreedAnswers(members: set<Pid>, before: Network, net: Network, a: Pid, b: Pid)
    requires Reachable(members, net) && a in before.nodes && b in before.nodes && Undisturbed(before, net) && Agreed(before, net, a, b)
    ensures net.world.settled ==> forall e :: Has(net.nodes[a].crdt, e) <==> Has(net.nodes[b].crdt, e)
  {
    hide Reachable, CrdtOk, WrapperOk, PhaseOk, Tidy, Causal, Exact, NoEmptyEntry, Closed, NamesSeen, RemovalsComplete, Has, Happened, Contains;
    if net.world.settled {
      var w, s, t := net.world, net.nodes[a].crdt, net.nodes[b].crdt;
      ReachableNode(members, net, a);
      ReachableNode(members, net, b);
      SettledNode(members, net, a);
      SettledNode(members, net, b);
      NoEpochColumn(w, a, s);
      NoEpochColumn(w, b, t);
      SameSeen(w, a, s, b, t);
      SameAnswers(w.history, w.seen[a], s, w.seen[b], t);
    }
  }
}

/**
 Building runs of the network.

 Each lemma extends a reachable state by one or a few steps and says what they do to
 the nodes, so that a run can be put together from what the replicas do.
 */
module Moves {
  import opened Options
  import opened Dots
  import opened DotMaps
  import opened Orders
  import opened VersionMatrices
  import opened GcWrappers
  import opened OrSets
  import opened Replicas
  import opened Networks
  import opened ProtocolTheorems
  import opened Exchanges

  lemma Mutating(members: set<Pid>, net: Network, r: Pid, m: Mutation) returns (net': Network)
    requires Reachable(members, net) && r in net.nodes && r in net.world.live
    ensures Reachable(members, net') && net'.world.live == net.world.live
    ensures net'.nodes == net.nodes[r := net.nodes[r].(crdt := Mutated(net.nodes[r].crdt, m))]
  {
    hide Reachable, EpochOk, Mutated;
    LivePoised(members, net, r);
    ReachableStep(members, net, Mutates(r, m));
    net' := After(net, Mutates(r, m));
  }

  lemma Leaving(members: set<Pid>, net: Network, r: Pid) returns (net': Network)
    requires Reachable(members, net) && Idles(net, r)
    ensures Reachable(members, net') && net'.world.live == net.world.live - {r} && net'.nodes == net.nodes
  {
    hide Reachable, EpochOk;
    LivePoised(members, net, r);
    ReachableStep(members, net, ShutsDown(r));
    net' := After(net, ShutsDown(r));
    assert net.nodes[r := net.nodes[r]] == net.nodes;
  }

  /** `b` asks `a`, and the answer is on its way. */
  lemma Asking(members: set<Pid>, net: Network, a: Pid, b: Pid, order: seq<Pid>) returns (net': Network, marker: GcMarker)
    requires Reachable(members, net) && Idles(net, a) && Idles(net, b) && a != b && Bound(net.nodes[a]) && Bound(net.nodes[b])
    requires Enumerates(order, net.nodes[a].crdt.log.Keys + Stamped(net.nodes[b].wrapper, net.nodes[b].crdt.vv).Keys)
    ensures Reachable(members, net') && net'.world.live == net.world.live
    ensures var req := Stamped(net.nodes[b].wrapper, net.nodes[b].crdt.vv);
            && net'.nodes == net.nodes[b := OwnRefreshed(net.nodes[b])][a := VectorHandled(net.nodes[a], b, req)]
            && Envelope(b, DeltaGroup(Answer(net.nodes[a], req, order), marker)) in net'.bag
    ensures marker.marker == Dot(STABLE_REPLICA_PID, Epoch(net.nodes[a].wrapper))
  {
    hide Reachable, Enabled, After, EpochOk, IsStable, Enumerates, DeltasAfter;
    var na, nb := net.nodes[a], net.nodes[b];
    var req := Stamped(nb.wrapper, nb.crdt.vv);
    LivePoised(members, net, b);
    LivePoised(members, net, a);
    var net1 := Network(net.nodes[b := OwnRefreshed(nb)], net.bag + {Envelope(a, VersionVector(b, req))}, net.world);
    PullPossible(net, b, a, net1);
    ReachableStep(members, net, Pulls(b, a));
    LivePoised(members, net1, a);
    HandledBound(net1, a, b, req);
    var stable, departed := StableExists(VectorHandled(na, b, req).wrapper.matrix);
    marker := Metadata(VectorHandled(na, b, req).wrapper, stable);
    net' := Network(net1.nodes[a := VectorHandled(na, b, req)], net1.bag + {Envelope(b, DeltaGroup(Answer(na, req, order), marker))}, net1.world);
    AnswerPossible(net1, a, b, req, order, stable, departed, net');
    ReachableStep(members, net1, Answers(a, b, req, order, stable, departed));
    AnswerMarker(members, net, a, b, req, stable);
  }

  /** `b` takes an answer that comes with no newer marker, and merges it into `s`. */
  lemma Taking(members: set<Pid>, net: Network, b: Pid, group: Group, marker: GcMarker, s: OrSet) returns (net': Network)
    requires Reachable(members, net) && Idles(net, b) && Bound(net.nodes[b]) && Envelope(b, DeltaGroup(group, marker)) in net.bag
    requires !Refused(net.nodes[b], group) && !IsNewMarker(net.nodes[b], marker) && Merged(net.nodes[b].crdt, group.list) == Some(s)
    ensures Reachable(members, net') && net'.world.live == net.world.live
    ensures net'.nodes == net.nodes[b := OwnRefreshed(net.nodes[b].(crdt := s))]
  {
    hide Reachable, EpochOk, Merged, OwnRowSurvives, OwnRefreshed, Refused, IsNewMarker;
    LivePoised(members, net, b);
    MarkersNeverPanic(members, net, b, group, marker);
    var step := Receives(b, group, marker);
    ReachableStep(members, net, step);
    var net1 := After(net, step);
    assert net1.nodes[b] == net.nodes[b].(phase := Merging(group, None));
    LivePoised(members, net1, b);
    net' := Committing(members, net1, b, s);
  }

  lemma Committing(members: set<Pid>, net: Network, b: Pid, s: OrSet) returns (net': Network)
    requires Reachable(members, net) && Poised(net, b) && net.nodes[b].phase.Merging?
    requires Merged(net.nodes[b].crdt, net.nodes[b].phase.group.list) == Some(s)
    ensures Reachable(members, net') && net'.world.live == net.world.live
    ensures Enabled(net, CommitsGroup(b)) && net' == After(net, CommitsGroup(b))
    ensures var refreshed := OwnRefreshed(net.nodes[b].(crdt := s, phase := Idle));
            net'.nodes == net.nodes[b := if net.nodes[b].phase.final.None? then refreshed
                                         else refreshed.(wrapper := DepartureObserved(refreshed.wrapper, net.nodes[b].phase.final.value))]
  {
    hide Reachable, EpochOk, Merged;
    CommitStepIs(net, b);
    ReachableStep(members, net, CommitsGroup(b));
    net' := After(net, CommitsGroup(b));
  }

  /** `r` reads the payload of a replica that has left. */
  lemma Reading(members: set<Pid>, net: Network, r: Pid, leaver: Pid, order: seq<Pid>) returns (net': Network)
    requires Reachable(members, net) && Idles(net, r) && leaver in net.nodes && leaver !in net.world.live
    requires !(leaver in net.nodes[r].wrapper.matrix.finals
               && net.nodes[r].wrapper.matrix.finals[leaver] == FinalDot(net.nodes[leaver].crdt, leaver).counter)
    requires Enumerates(order, net.nodes[leaver].crdt.log.Keys + net.nodes[r].crdt.vv.Keys)
    ensures Reachable(members, net') && net'.world.live == net.world.live && Poised(net', r)
    ensures Enabled(net, Absorbs(r, leaver, order)) && net' == After(net, Absorbs(r, leaver, order))
    ensures net'.nodes == net.nodes[r := PayloadRead(net.nodes[r], net.nodes[leaver].crdt, FinalDot(net.nodes[leaver].crdt, leaver), order)]
  {
    hide Reachable, EpochOk, Enumerates, DeltasAfter;
    LivePoised(members, net, r);
    ReachableStep(members, net, Absorbs(r, leaver, order));
    net' := After(net, Absorbs(r, leaver, order));
    LivePoised(members, net', r);
  }

  /** `r` absorbs the payload of a replica that has left, and merges it into `s`. */
  lemma Absorbing(members: set<Pid>, net: Network, r: Pid, leaver: Pid, order: seq<Pid>, s: OrSet) returns (net': Network)
    requires Reachable(members, net) && Idles(net, r) && leaver in net.nodes && leaver !in net.world.live && Bound(net.nodes[r])
    requires !(leaver in net.nodes[r].wrapper.matrix.finals
               && net.nodes[r].wrapper.matrix.finals[leaver] == FinalDot(net.nodes[leaver].crdt, leaver).counter)
    requires Enumerates(order, net.nodes[leaver].crdt.log.Keys + net.nodes[r].crdt.vv.Keys)
    requires Merged(net.nodes[r].crdt, DeltasAfter(net.nodes[leaver].crdt, net.nodes[r].crdt.vv, order)) == Some(s)
    ensures Reachable(members, net') && net'.world.live == net.world.live
    ensures IsRun(net, [Absorbs(r, leaver, order), CommitsGroup(r)]) && EndOf(net, [Absorbs(r, leaver, order), CommitsGroup(r)]) == net'
    ensures var refreshed := OwnRefreshed(net.nodes[r].(crdt := s));
            net'.nodes == net.nodes[r := refreshed.(wrapper := DepartureObserved(refreshed.wrapper, FinalDot(net.nodes[leaver].crdt, leaver)))]
  {
    hide Reachable, EpochOk, Enumerates, DeltasAfter, Merged, Enabled, After;
    var net1 := Reading(members, net, r, leaver, order);
    net' := Committing(members, net1, r, s);
    TwoSteps(net, Absorbs(r, leaver, order), CommitsGroup(r));
  }

  /** `r` runs a whole round of garbage collection. */
  lemma Sweeping(members: set<Pid>, net: Network, r: Pid, stable: DotSet, departed: Option<seq<Pid>>) returns (net': Network)
    requires Reachable(members, net) && Idles(net, r) && Bound(net.nodes[r]) && GcDue(net.nodes[r], stable, departed)
    ensures Reachable(members, net') && net'.world.live == net.world.live
    ensures OwnRowSurvives(OwnRefreshed(net.nodes[r]).wrapper.matrix, departed)
    ensures net'.nodes == net.nodes[r := MarkerCommitted(OwnRefreshed(net.nodes[r]), GcMarker(NextMarker(net.nodes[r].wrapper), stable, departed))]
  {
    hide Reachable, EpochOk, GcDue, OwnRowSurvives, Refreshed, Collected, Pushed, NextMarker;
    LivePoised(members, net, r);
    var step := BeginsGc(r, stable, departed);
    ReachableStep(members, net, step);
    var net1 := After(net, step);
    LivePoised(members, net1, r);
    MarkersNeverPanic(members, net1, r, Group([], map[]), GcMarker(Dot(0, 0), map[], None));
    ReachableStep(members, net1, CommitsGc(r));
    net' := After(net1, CommitsGc(r));
  }

  /** `b` pulls from `a`, neither having applied a marker yet, and merges the answer into `s`. */
  lemma Exchanging(members: set<Pid>, net: Network, a: Pid, b: Pid, order: seq<Pid>, s: OrSet) returns (net': Network)
    requires Reachable(members, net) && Idles(net, a) && Idles(net, b) && a != b && Bound(net.nodes[a]) && Bound(net.nodes[b])
    requires Enumerates(order, net.nodes[a].crdt.log.Keys + Stamped(net.nodes[b].wrapper, net.nodes[b].crdt.vv).Keys)
    requires net.nodes[a].wrapper.markers == [] && net.nodes[b].wrapper.markers == []
    requires Merged(net.nodes[b].crdt, DeltasAfter(net.nodes[a].crdt, Stamped(net.nodes[b].wrapper, net.nodes[b].crdt.vv), order)) == Some(s)
    ensures Reachable(members, net') && net'.world.live == net.world.live && Bound(OwnRefreshed(net.nodes[b]))
    ensures net'.nodes == net.nodes[a := VectorHandled(net.nodes[a], b, Stamped(net.nodes[b].wrapper, net.nodes[b].crdt.vv))]
                                   [b := OwnRefreshed(OwnRefreshed(net.nodes[b]).(crdt := s))]
  {
    hide Reachable, Enumerates, DeltasAfter, Merged, EpochOk;
    var net1, marker := Asking(members, net, a, b, order);
    var group := Answer(net.nodes[a], Stamped(net.nodes[b].wrapper, net.nodes[b].crdt.vv), order);
    LivePoised(members, net1, b);
    net' := Taking(members, net1, b, group, marker, s);
  }
}

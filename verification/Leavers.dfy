/**
 Replicas that leave without ever having mutated.

 Such a replica publishes final counter -1, a dot that no row has to contain. To follow
 it through the rounds one more fact about every run is needed: no vector anywhere has a
 counter below -1.
 */
module Leavers {
  import opened Options
  import opened Dots
  import opened VersionMatrices
  import opened GcWrappers
  import opened OrSets
  import opened Histories
  import opened Replicas
  import opened Networks
  import opened NetworkInvariants
  import opened NetworkSteps
  import opened ProtocolTheorems

  ghost predicate FlooredNode(n: Node) {
    && Floored(n.crdt.vv)
    && (forall p <- n.wrapper.matrix.rows :: Floored(n.wrapper.matrix.rows[p]))
    && (forall i | 0 <= i < |n.wrapper.markers| :: Floored(n.wrapper.markers[i].stable))
    && (n.phase.Collecting? ==> Floored(n.phase.marker.stable))
  }

  ghost predicate FlooredMessage(message: Message) {
    match message
    case VersionVector(_, vv) => Floored(vv)
    case DeltaGroup(_, marker) => Floored(marker.stable)
  }

  ghost predicate FlooredNet(net: Network) {
    (forall r <- net.nodes :: FlooredNode(net.nodes[r])) && (forall env <- net.bag :: FlooredMessage(env.message))
  }

  // ---- No vector goes below -1 ----

  lemma FrontierFloored(m: Matrix, stable: DotSet, departed: Option<seq<Pid>>)
    requires HasOwnRow(m) && IsStable(m, Some(stable), departed) && forall p <- m.rows :: Floored(m.rows[p])
    ensures Floored(stable)
  {
    forall q <- stable | q != STABLE_REPLICA_PID ensures -1 <= stable[q] {
      assert IsColumnMin(m, Observers(m), q, stable[q]);
      var p :| p in Observers(m) && stable[q] == Get(m.rows[p], q);
      assert Floored(m.rows[p]);
    }
  }

  lemma {:induction false} MergedFloored(h: History, s: OrSet, list: seq<Delta>)
    requires Floored(s.vv) && AllRecorded(h, list) && Merged(s, list).Some?
    ensures Floored(Merged(s, list).value.vv)
    decreases |list|
  {
    if list != [] {
      assert Records(h, list[0]);
      forall i | 0 <= i < |list[1..]| ensures Records(h, list[1..][i]) {
        assert list[1..][i] == list[i + 1];
      }
      MergedFloored(h, MergedOne(s, list[0]).value, list[1..]);
    }
  }

  lemma RefreshedFloored(n: Node)
    requires FlooredNode(n) && Bound(n)
    ensures FlooredNode(OwnRefreshed(n)) && Floored(Stamped(n.wrapper, n.crdt.vv))
  {
  }

  lemma HandledFloored(n: Node, from: Pid, vv: DotSet)
    requires FlooredNode(n) && Bound(n) && Floored(vv)
    ensures FlooredNode(VectorHandled(n, from, vv))
  {
  }

  lemma MarkerFloored(n: Node, marker: GcMarker)
    requires FlooredNode(n) && Floored(marker.stable) && OwnRowSurvives(n.wrapper.matrix, marker.departed)
    requires n.wrapper.matrix.ownPid != STABLE_REPLICA_PID
    ensures FlooredNode(MarkerCommitted(n, marker))
  {
    var m1 := PidsRemoved(n.wrapper.matrix, marker.departed);
    forall p <- m1.rows ensures Floored(m1.rows[p]) {
      assert Floored(n.wrapper.matrix.rows[p]);
    }
  }

  lemma CommitFloored(h: History, n: Node)
    requires n.phase.Merging? && AllRecorded(h, n.phase.group.list) && Bound(n) && FlooredNode(n) && GroupCommitted(n).Some?
    ensures FlooredNode(GroupCommitted(n).value)
  {
    MergedFloored(h, n.crdt, n.phase.group.list);
    hide Merged;
    RefreshedFloored(n.(crdt := Merged(n.crdt, n.phase.group.list).value, phase := Idle));
  }

  lemma MutatedFloored(n: Node, m: Mutation)
    requires FlooredNode(n)
    ensures FlooredNode(n.(crdt := Mutated(n.crdt, m)))
  {
  }

  lemma DiscoveredFloored(n: Node, p: Pid, c: Counter)
    requires FlooredNode(n)
    ensures FlooredNode(n.(wrapper := ActiveObserved(n.wrapper, p, c)))
  {
  }

  lemma PhaseFloored(n: Node, phase: Phase)
    requires FlooredNode(n) && (phase.Collecting? ==> Floored(phase.marker.stable))
    ensures FlooredNode(n.(phase := phase))
  {
  }

  lemma DueFloored(n: Node, stable: DotSet, departed: Option<seq<Pid>>)
    requires FlooredNode(n) && Bound(n) && GcDue(n, stable, departed)
    ensures Floored(stable)
  {
    RefreshedFloored(n);
    FrontierFloored(OwnRefreshed(n).wrapper.matrix, stable, departed);
  }

  lemma CollectingFloored(n: Node)
    requires FlooredNode(n) && n.phase.Collecting?
    ensures Floored(n.phase.marker.stable)
  {
  }

  lemma MetadataFloored(n: Node, stable: Option<DotSet>, departed: Option<seq<Pid>>)
    requires FlooredNode(n) && Bound(n) && IsStable(n.wrapper.matrix, stable, departed)
    ensures Floored(Metadata(n.wrapper, stable).stable)
  {
    if stable.Some? {
      FrontierFloored(n.wrapper.matrix, stable.value, departed);
    }
  }

  lemma RestoredFloored(n: Node, r: Pid, members: map<Pid, Counter>)
    requires FlooredNode(n) && r != STABLE_REPLICA_PID && KeepsAll(r, n.wrapper.markers)
    ensures FlooredNode(Restored(r, n.crdt, n.wrapper.markers, members))
  {
    hide RestoredWrapper, KeepsAll;
    RestoredIs(r, n.crdt.vv, n.wrapper.markers, members);
    var w := RestoredWrapper(r, n.crdt.vv, n.wrapper.markers, members);
    forall p <- w.matrix.rows ensures Floored(w.matrix.rows[p]) {
      if p == STABLE_REPLICA_PID {
        assert Floored(n.wrapper.markers[|n.wrapper.markers| - 1].stable);
      }
    }
  }

  /** What the invariant of the protocol says of the replica that moves. */
  lemma MoverOk(net: Network, step: Step)
    requires Inv(net) && Enabled(net, step)
    ensures var n := net.nodes[step.r];
            && n.wrapper.matrix.ownPid != STABLE_REPLICA_PID
            && (n.phase.Merging? ==> AllRecorded(net.world.history, n.phase.group.list))
  {
    assert NodeOk(net.world, step.r, net.nodes[step.r]);
    hide Tidy, CrdtOk, RowsOk, MarkerOk, FinalOk, IsStable, Enumerates, GcDue, Causal, Fits, AllRecorded;
  }

  lemma LocalFloored(net: Network, step: Step)
    requires Inv(net) && FlooredNet(net) && Enabled(net, step)
    requires step.Mutates? || step.Refreshes? || step.Discovers? || step.Pulls? || step.AbortsGc? || step.ShutsDown? || step.Absorbs? || step.Restarts?
    ensures FlooredNode(NodeAfter(net, step)) && forall env <- Sent(net, step) :: FlooredMessage(env.message)
  {
    hide Inv, FlooredNode, IsStable, Enumerates, OwnRefreshed, Floored, Mutated, ActiveObserved, DeltasAfter, Stamped, Restored, KeepsAll;
    var n := net.nodes[step.r];
    assert FlooredNode(n);
    match step
    case Mutates(r, m) => MutatedFloored(n, m);
    case Discovers(r, p, c) => DiscoveredFloored(n, p, c);
    case AbortsGc(r) => PhaseFloored(n, Idle);
    case Absorbs(r, leaver, order) =>
      PhaseFloored(n, PayloadRead(n, net.nodes[leaver].crdt, FinalDot(net.nodes[leaver].crdt, leaver), order).phase);
    case Restarts(r, members) => RestoredFloored(n, r, members);
    case _ => RefreshedFloored(n);
  }

  lemma MessageFloored(net: Network, step: Step)
    requires Inv(net) && FlooredNet(net) && Enabled(net, step) && (step.Answers? || step.Receives? || step.CommitsGroup?)
    ensures FlooredNode(NodeAfter(net, step)) && forall env <- Sent(net, step) :: FlooredMessage(env.message)
  {
    hide Inv, FlooredNode, AllRecorded, OwnRowSurvives, IsStable, Enumerates, VectorHandled, MarkerCommitted, GroupCommitted, Floored, Answer, Metadata, Refused, Epoch;
    MoverOk(net, step);
    var n := net.nodes[step.r];
    assert FlooredNode(n);
    match step
    case Answers(r, from, vv, order, stable, departed) =>
      assert FlooredMessage(Envelope(r, VersionVector(from, vv)).message);
      HandledFloored(n, from, vv);
      MetadataFloored(VectorHandled(n, from, vv), stable, departed);
    case Receives(r, group, marker) =>
      assert FlooredMessage(Envelope(r, DeltaGroup(group, marker)).message);
      if IsNewMarker(n, marker) {
        MarkerFloored(n, marker);
      }
      PhaseFloored(MarkerObserved(n, marker), Merging(group, None));
    case CommitsGroup(r) => CommitFloored(net.world.history, n);
  }

  lemma RoundFloored(net: Network, step: Step)
    requires Inv(net) && FlooredNet(net) && Enabled(net, step) && (step.BeginsGc? || step.CommitsGc?)
    ensures FlooredNode(NodeAfter(net, step)) && forall env <- Sent(net, step) :: FlooredMessage(env.message)
  {
    hide Inv, FlooredNode, OwnRowSurvives, IsStable, OwnRefreshed, MarkerCommitted, Floored, NextMarker, GcDue;
    MoverOk(net, step);
    var n := net.nodes[step.r];
    assert FlooredNode(n);
    match step
    case BeginsGc(r, stable, departed) =>
      RefreshedFloored(n);
      DueFloored(n, stable, departed);
      PhaseFloored(OwnRefreshed(n), Collecting(GcMarker(NextMarker(n.wrapper), stable, departed)));
    case CommitsGc(r) =>
      CollectingFloored(n);
      MarkerFloored(n, n.phase.marker);
      PhaseFloored(MarkerCommitted(n, n.phase.marker), Idle);
  }

  lemma StepFloored(net: Network, step: Step)
    requires Inv(net) && FlooredNet(net) && Enabled(net, step)
    ensures FlooredNet(After(net, step))
  {
    hide Inv, Enabled, FlooredNode, FlooredMessage, NodeAfter, Sent;
    if step.Answers? || step.Receives? || step.CommitsGroup? {
      MessageFloored(net, step);
    } else if step.BeginsGc? || step.CommitsGc? {
      RoundFloored(net, step);
    } else {
      LocalFloored(net, step);
    }
  }

  lemma {:induction false} RunFloored(net: Network, steps: seq<Step>)
    requires Inv(net) && FlooredNet(net) && IsRun(net, steps)
    ensures FlooredNet(EndOf(net, steps))
    decreases |steps|
  {
    if steps != [] {
      hide Inv, Enabled, After, FlooredNet;
      StepKeepsInv(net, steps[0]);
      StepFloored(net, steps[0]);
      RunFloored(After(net, steps[0]), steps[1..]);
    }
  }

  lemma StartFloored(members: set<Pid>)
    ensures FlooredNet(Start(members))
  {
    hide FlooredNode;
    forall r <- members ensures FlooredNode(FirstNode(r, members)) {
      FirstFloored(r, members);
    }
  }

  lemma FirstFloored(r: Pid, members: set<Pid>)
    ensures FlooredNode(FirstNode(r, members))
  {
    var rows := FirstWrapper(r, members).matrix.rows;
    forall p <- rows ensures Floored(rows[p]) {}
  }

  lemma ReachableFloored(members: set<Pid>, net: Network)
    requires Reachable(members, net)
    ensures FlooredNet(net)
  {
    hide Inv, IsRun, EndOf, Enabled, After, FlooredNet, Start;
    var steps :| IsRun(Start(members), steps) && EndOf(Start(members), steps) == net;
    StartOk(members);
    StartFloored(members);
    RunFloored(Start(members), steps);
  }

  // ---- From departure to removal ----

  /** In every reachable state a silent leaver that still has a row takes part in the next frontier. */
  lemma SilentLeaverObserves(w: World, r: Pid, n: Node, p: Pid)
    requires Tidy(w) && NodeOk(w, r, n) && p in n.wrapper.matrix.rows && p != STABLE_REPLICA_PID && p != r
    requires p in n.wrapper.matrix.finals && n.wrapper.matrix.finals[p] == -1
    ensures Bound(n) && HasOwnRow(OwnRefreshed(n).wrapper.matrix) && p in Observers(OwnRefreshed(n).wrapper.matrix)
    ensures OwnRefreshed(n).wrapper.matrix.ownPid == r && OwnRefreshed(n).wrapper.matrix.finals == n.wrapper.matrix.finals
  {
    NeverSeen(w, r, n, p);
    RefreshedRows(n);
    hide Tidy, NodeOk, EpochOk, OwnRefreshed;
  }

  lemma RefreshedRows(n: Node)
    requires EpochOk(n.wrapper)
    ensures Bound(n)
    ensures var m := OwnRefreshed(n).wrapper.matrix;
            && m.ownPid == n.wrapper.matrix.ownPid && m.finals == n.wrapper.matrix.finals && HasOwnRow(m)
            && m.rows.Keys == n.wrapper.matrix.rows.Keys && OwnRow(m) == Stamped(n.wrapper, n.crdt.vv)
  {
    RowsKeepEpoch(n.wrapper, n.wrapper.matrix.ownPid, n.crdt.vv);
  }

  /** What a replica that never mutated has done is in no vector. */
  lemma NeverSeen(w: World, r: Pid, n: Node, p: Pid)
    requires Tidy(w) && NodeOk(w, r, n) && p in n.wrapper.matrix.finals && n.wrapper.matrix.finals[p] == -1
    ensures p !in n.crdt.vv && EpochOk(n.wrapper) && n.wrapper.matrix.ownPid == r
  {
    TidyAt(w, r);
    assert p in w.history && w.history[p] == [];
    hide Tidy, LogOk, LogRecorded, Sound, EntriesSeen, BasesOk, Exact, PhaseOk;
  }

  /**
   A replica that leaves without ever having mutated: in every reachable state its row
   takes part in the next round of a replica that has absorbed it; that round makes it
   retirable, and a round in which it is retirable removes it from rows, columns and final dots.
   */
  lemma SilentLeaverRetires(members: set<Pid>, net: Network, r: Pid, p: Pid, stable: DotSet, departed: Option<seq<Pid>>)
    requires Reachable(members, net) && r in net.nodes && r in net.world.live && Bound(net.nodes[r]) && GcDue(net.nodes[r], stable, departed)
    requires p in net.nodes[r].wrapper.matrix.rows && p != STABLE_REPLICA_PID && p != r
    requires p in net.nodes[r].wrapper.matrix.finals && net.nodes[r].wrapper.matrix.finals[p] == -1
    ensures var w := OwnRefreshed(net.nodes[r]).wrapper;
            && HasOwnRow(w.matrix) && p in Observers(w.matrix) && OwnRowSurvives(w.matrix, departed)
            && var m' := Pushed(w, GcMarker(NextMarker(w), stable, departed)).matrix;
               if p in Retirable(w.matrix) then p !in m'.rows && p !in m'.finals && forall q <- m'.rows :: p !in m'.rows[q]
               else p in m'.rows && p in m'.finals && p in Retirable(m')
  {
    hide Reachable, Tidy, Causal, CrdtOk, RowsOk, IsStable, Observers, Retirable, OwnRowSurvives, MarkerApplied, Floored, OwnRefreshed, EpochOk, HasOwnRow, OwnRow;
    ReachableNode(members, net, r);
    ReachableFloored(members, net);
    var n := net.nodes[r];
    SilentLeaverObserves(net.world, r, n, p);
    RefreshedFloored(n);
    var m := OwnRefreshed(n).wrapper.matrix;
    DueKeeps(net.world, r, n, stable, departed);
    if p in Retirable(m) {
      AppliedMarkerErases(m, stable, departed, NextMarker(OwnRefreshed(n).wrapper).counter);
    } else {
      SilentObserverRetirable(m, stable, departed, NextMarker(OwnRefreshed(n).wrapper).counter, p);
    }
  }

  /** A due round announces neither the replica itself nor pid 0. */
  lemma DueKeeps(w: World, r: Pid, n: Node, stable: DotSet, departed: Option<seq<Pid>>)
    requires Tidy(w) && NodeOk(w, r, n) && r in w.live && Bound(n) && GcDue(n, stable, departed)
    ensures r != STABLE_REPLICA_PID && r !in Announced(departed) && STABLE_REPLICA_PID !in Announced(departed)
  {
    forall p <- Announced(departed) ensures p in n.wrapper.matrix.finals {
      assert p in Retirable(OwnRefreshed(n).wrapper.matrix);
    }
  }
}

/**
 What holds in every reachable state of the protocol, however messages are lost,
 duplicated or reordered and whenever replicas collect or shut down.
 */
module ProtocolTheorems {
  import opened Options
  import opened Dots
  import opened DotMaps
  import opened Orders
  import opened VersionMatrices
  import opened GcWrappers
  import opened OrSets
  import opened Histories
  import opened Replicas
  import opened Networks
  import opened NetworkInvariants
  import opened NetworkSteps

  // ---- The invariant holds in every reachable state ----

  ghost predicate Blank(w: World) {
    && w.seen.Keys == w.history.Keys == w.live && w.erased == {}
    && forall r <- w.seen :: w.seen[r] == map[] && w.history[r] == []
  }

  lemma BlankWorldOk(w: World)
    requires Blank(w) && STABLE_REPLICA_PID !in w.seen
    ensures Tidy(w) && Causal(w)
  {
  }

  lemma BlankCrdtOk(w: World, r: Pid)
    requires Blank(w) && r in w.seen
    ensures CrdtOk(w, r, EMPTY.(pid := Some(r)))
  {
  }

  lemma BlankWrapperOk(w: World, r: Pid, wr: Wrapper)
    requires Blank(w) && STABLE_REPLICA_PID !in w.seen && r in w.seen
    requires wr.markers == [] && wr.matrix.ownPid == r && wr.matrix.finals == map[] && wr.matrix.rows.Keys == w.seen.Keys
    requires forall p <- wr.matrix.rows, q: Pid | q != STABLE_REPLICA_PID :: Get(wr.matrix.rows[p], q) == -1
    requires Get(OwnRow(wr.matrix), STABLE_REPLICA_PID) == INITIAL_GC_COUNTER
    ensures WrapperOk(w, r, wr)
  {
  }

  lemma FirstRows(r: Pid, members: set<Pid>)
    requires STABLE_REPLICA_PID !in members && r in members
    ensures var m := FirstWrapper(r, members).matrix;
            && m.rows.Keys == members && m.ownPid == r && m.finals == map[]
            && (forall p <- m.rows, q: Pid | q != STABLE_REPLICA_PID :: Get(m.rows[p], q) == -1)
            && Get(m.rows[r], STABLE_REPLICA_PID) == INITIAL_GC_COUNTER
  {
  }

  lemma StartOk(members: set<Pid>)
    requires STABLE_REPLICA_PID !in members
    ensures Inv(Start(members))
  {
    hide CrdtOk, WrapperOk, Tidy, Causal, FirstWrapper;
    var net := Start(members);
    assert Blank(net.world);
    BlankWorldOk(net.world);
    forall r <- net.nodes ensures NodeOk(net.world, r, net.nodes[r]) {
      BlankCrdtOk(net.world, r);
      FirstRows(r, members);
      FirstMarkers(r, members);
      BlankWrapperOk(net.world, r, FirstWrapper(r, members));
    }
  }

  lemma FirstMarkers(r: Pid, members: set<Pid>)
    ensures FirstWrapper(r, members).markers == []
  {
  }

  lemma GrowsReflexive(w: World)
    requires w.seen.Keys == w.history.Keys
    ensures Grows(w, w)
  {
  }

  /** Steps that leave the world as it is. */
  lemma QuietStep(net: Network, net': Network, r: Pid)
    requires Inv(net) && r in net.nodes && net'.world == net.world && net'.nodes.Keys == net.nodes.Keys
    requires forall s <- net.nodes | s != r :: net'.nodes[s] == net.nodes[s]
    requires NodeOk(net.world, r, net'.nodes[r])
    requires forall env <- net'.bag :: env in net.bag || EnvelopeOk(net.world, env)
    ensures Inv(net')
  {
    GrowsReflexive(net.world);
    InvFrame(net, net', r);
  }

  lemma RefreshedNodeOk(w: World, r: Pid, n: Node)
    requires Tidy(w) && NodeOk(w, r, n)
    ensures NodeOk(w, r, OwnRefreshed(n)) && Leq(Stamped(n.wrapper, n.crdt.vv), w.seen[r])
  {
    RefreshOk(w, r, n.wrapper, n.crdt);
  }

  lemma RefreshStep(net: Network, r: Pid)
    requires Inv(net) && Enabled(net, Refreshes(r))
    ensures Inv(After(net, Refreshes(r)))
  {
    hide NodeOk, Tidy, Causal, EnvelopeOk;
    RefreshedNodeOk(net.world, r, net.nodes[r]);
    QuietStep(net, After(net, Refreshes(r)), r);
  }

  lemma PullStep(net: Network, r: Pid, dest: Pid)
    requires Inv(net) && Enabled(net, Pulls(r, dest))
    ensures Inv(After(net, Pulls(r, dest)))
  {
    hide CrdtOk, WrapperOk, Tidy, Causal, GroupOk, MarkerOk, FinalOk, FrontierOk, SeenByAll, Leq, IsStable, Enumerates;
    RefreshedNodeOk(net.world, r, net.nodes[r]);
    QuietStep(net, After(net, Pulls(r, dest)), r);
  }

  lemma DiscoverStep(net: Network, r: Pid, p: Pid, gcCounter: Counter)
    requires Inv(net) && Enabled(net, Discovers(r, p, gcCounter))
    ensures Inv(After(net, Discovers(r, p, gcCounter)))
  {
    hide CrdtOk, WrapperOk, Tidy, Causal, GroupOk, MarkerOk, FinalOk, FrontierOk, SeenByAll, Leq, IsStable, Enumerates;
    DiscoveredOk(net.world, r, net.nodes[r].wrapper, p, gcCounter);
    QuietStep(net, After(net, Discovers(r, p, gcCounter)), r);
  }

  lemma MetadataOk(w: World, r: Pid, wr: Wrapper, stable: Option<DotSet>, departed: Option<seq<Pid>>)
    requires Tidy(w) && WrapperOk(w, r, wr) && IsStable(wr.matrix, stable, departed)
    ensures MarkerOk(w, Metadata(wr, stable))
  {
    if wr.markers == [] {
      if stable.Some? {
        StableOk(w, r, wr, stable.value, departed);
      } else {
        forall s <- w.live ensures s in w.seen && Leq(map[], w.seen[s]) {
          TidyAt(w, s);
        }
      }
    }
  }

  lemma VectorHandledOk(w: World, r: Pid, n: Node, from: Pid, vv: DotSet)
    requires Tidy(w) && NodeOk(w, r, n) && from in w.seen && from != r && Leq(vv, w.seen[from])
    ensures NodeOk(w, r, VectorHandled(n, from, vv))
  {
    RowReceivedOk(w, r, n.wrapper, from, vv);
    RefreshOk(w, r, RowReceived(n.wrapper, from, vv), n.crdt);
  }

  lemma AnswerSentOk(w: World, r: Pid, n: Node, from: Pid, vv: DotSet, order: seq<Pid>)
    requires Tidy(w) && Causal(w) && NodeOk(w, r, n) && from in w.seen && Leq(vv, w.seen[from])
    requires Enumerates(order, n.crdt.log.Keys + vv.Keys)
    ensures GroupOk(w, from, Answer(n, vv, order))
  {
    AnswerOk(w, r, n.crdt, from, vv, order, Stamped(n.wrapper, n.crdt.vv));
  }

  lemma AnswerStep(net: Network, r: Pid, from: Pid, vv: DotSet, order: seq<Pid>, stable: Option<DotSet>, departed: Option<seq<Pid>>)
    requires Inv(net) && Enabled(net, Answers(r, from, vv, order, stable, departed))
    ensures Inv(After(net, Answers(r, from, vv, order, stable, departed)))
  {
    hide CrdtOk, WrapperOk, Tidy, Causal, GroupOk, MarkerOk, FinalOk, FrontierOk, SeenByAll, Leq, IsStable, Enumerates;
    var n, w := net.nodes[r], net.world;
    assert EnvelopeOk(w, Envelope(r, VersionVector(from, vv)));
    VectorHandledOk(w, r, n, from, vv);
    MetadataOk(w, r, VectorHandled(n, from, vv).wrapper, stable, departed);
    AnswerSentOk(w, r, n, from, vv, order);
    QuietStep(net, After(net, Answers(r, from, vv, order, stable, departed)), r);
  }

  lemma ErasedSeen(w: World, gone: set<Pid>)
    requires Tidy(w)
    ensures gone <= w.erased ==> forall p <- gone :: SeenByAll(w, p)
  {
  }

  lemma DeltaReceivedOk(w: World, r: Pid, n: Node, group: Group, marker: GcMarker)
    requires Tidy(w) && NodeOk(w, r, n) && r in w.live && GroupOk(w, r, group) && MarkerOk(w, marker)
    ensures IsNewMarker(n, marker) ==> OwnRowSurvives(n.wrapper.matrix, marker.departed)
    ensures n.phase.Idle? ==> NodeOk(w, r, DeltaReceived(n, group, marker))
  {
    hide CrdtOk, WrapperOk, Tidy, GroupOk, FrontierOk, SeenByAll, Collected, Pushed, Announced, OwnRowSurvives, Grows, Epoch, Get;
    if IsNewMarker(n, marker) {
      ErasedSeen(w, Announced(marker.departed));
      assert w == w.(erased := w.erased + Announced(marker.departed));
      MarkerCommittedOk(w, w, r, n, marker);
    }
  }

  lemma ReceiveStep(net: Network, r: Pid, group: Group, marker: GcMarker)
    requires Inv(net) && Enabled(net, Receives(r, group, marker))
    ensures Inv(After(net, Receives(r, group, marker)))
  {
    hide CrdtOk, WrapperOk, Tidy, Causal, GroupOk, MarkerOk, FinalOk, FrontierOk, SeenByAll, Leq, IsStable, Enumerates;
    assert EnvelopeOk(net.world, Envelope(r, DeltaGroup(group, marker)));
    DeltaReceivedOk(net.world, r, net.nodes[r], group, marker);
    QuietStep(net, After(net, Receives(r, group, marker)), r);
  }

  lemma GcBegunOk(w: World, r: Pid, n: Node, frontier: DotSet, departed: Option<seq<Pid>>)
    requires Tidy(w) && NodeOk(w, r, n) && GcDue(n, frontier, departed)
    ensures NodeOk(w, r, GcBegun(n, frontier, departed))
  {
    RefreshOk(w, r, n.wrapper, n.crdt);
    StableOk(w, r, OwnRefreshed(n).wrapper, frontier, departed);
  }

  lemma BeginGcStep(net: Network, r: Pid, frontier: DotSet, departed: Option<seq<Pid>>)
    requires Inv(net) && Enabled(net, BeginsGc(r, frontier, departed))
    ensures Inv(After(net, BeginsGc(r, frontier, departed)))
  {
    hide CrdtOk, WrapperOk, Tidy, Causal, GroupOk, MarkerOk, FinalOk, FrontierOk, SeenByAll, Leq, IsStable, Enumerates;
    GcBegunOk(net.world, r, net.nodes[r], frontier, departed);
    QuietStep(net, After(net, BeginsGc(r, frontier, departed)), r);
  }

  lemma AbortGcStep(net: Network, r: Pid)
    requires Inv(net) && Enabled(net, AbortsGc(r))
    ensures Inv(After(net, AbortsGc(r)))
  {
    hide CrdtOk, WrapperOk, Tidy, Causal, GroupOk, MarkerOk, FinalOk, FrontierOk, SeenByAll, Leq, IsStable, Enumerates;
    QuietStep(net, After(net, AbortsGc(r)), r);
  }

  lemma PayloadFinalOk(w: World, leaver: Pid, payload: OrSet, list: seq<Delta>)
    requires Tidy(w) && CrdtOk(w, leaver, payload) && leaver !in w.live
    ensures FinalOk(w, Group(list, payload.vv), FinalDot(payload, leaver))
  {
    TidyAt(w, leaver);
    TracksLeq(payload.vv, w.seen[leaver], w.erased, w.history);
  }

  lemma PayloadReadOk(w: World, r: Pid, n: Node, leaver: Pid, payload: OrSet, order: seq<Pid>)
    requires Tidy(w) && Causal(w) && NodeOk(w, r, n) && CrdtOk(w, leaver, payload) && leaver !in w.live
    requires Enumerates(order, payload.log.Keys + n.crdt.vv.Keys)
    ensures NodeOk(w, r, PayloadRead(n, payload, FinalDot(payload, leaver), order))
  {
    TidyAt(w, r);
    TracksLeq(n.crdt.vv, w.seen[r], w.erased, w.history);
    AnswerOk(w, leaver, payload, r, n.crdt.vv, order, payload.vv);
    PayloadFinalOk(w, leaver, payload, DeltasAfter(payload, n.crdt.vv, order));
  }

  lemma AbsorbStep(net: Network, r: Pid, leaver: Pid, order: seq<Pid>)
    requires Inv(net) && Enabled(net, Absorbs(r, leaver, order))
    ensures Inv(After(net, Absorbs(r, leaver, order)))
  {
    hide CrdtOk, WrapperOk, Tidy, Causal, GroupOk, MarkerOk, FinalOk, FrontierOk, SeenByAll, Leq, IsStable, Enumerates;
    PayloadReadOk(net.world, r, net.nodes[r], leaver, net.nodes[leaver].crdt, order);
    QuietStep(net, After(net, Absorbs(r, leaver, order)), r);
  }

  // Steps that move the world.

  lemma CommitGcNode(w: World, w': World, r: Pid, n: Node)
    requires Tidy(w) && Causal(w) && NodeOk(w, r, n) && r in w.live && n.phase.Collecting?
    requires w' == w.(erased := w.erased + Announced(n.phase.marker.departed))
    ensures OwnRowSurvives(n.wrapper.matrix, n.phase.marker.departed)
    ensures NodeOk(w', r, GcCommitted(n)) && Tidy(w') && Causal(w') && Grows(w, w')
  {
    MarkerCommittedOk(w, w', r, n, n.phase.marker);
  }

  lemma CommitGcStep(net: Network, r: Pid)
    requires Inv(net) && Enabled(net, CommitsGc(r))
    ensures Inv(After(net, CommitsGc(r)))
  {
    hide CrdtOk, WrapperOk, Tidy, Causal, GroupOk, MarkerOk, FinalOk, FrontierOk, SeenByAll, Leq, IsStable, Enumerates, Grows, PhaseOk;
    CommitGcNode(net.world, WorldAfter(net, CommitsGc(r)), r, net.nodes[r]);
    InvFrame(net, After(net, CommitsGc(r)), r);
  }

  lemma CommitGroupStep(net: Network, r: Pid)
    requires Inv(net) && Enabled(net, CommitsGroup(r))
    ensures Inv(After(net, CommitsGroup(r)))
  {
    hide CrdtOk, WrapperOk, Tidy, Causal, GroupOk, MarkerOk, FinalOk, FrontierOk, SeenByAll, Leq, IsStable, Enumerates, Grows, PhaseOk;
    CommitGroupOk(net.world, WorldAfter(net, CommitsGroup(r)), r, net.nodes[r]);
    InvFrame(net, After(net, CommitsGroup(r)), r);
  }

  lemma MutateStep(net: Network, r: Pid, m: Mutation)
    requires Inv(net) && Enabled(net, Mutates(r, m))
    ensures Inv(After(net, Mutates(r, m)))
  {
    hide CrdtOk, WrapperOk, Tidy, Causal, GroupOk, MarkerOk, FinalOk, FrontierOk, SeenByAll, Leq, IsStable, Enumerates, Grows, PhaseOk;
    MutationDot(net.world, r, net.nodes[r].crdt);
    MutateOk(net.world, WorldAfter(net, Mutates(r, m)), r, net.nodes[r], m);
    InvFrame(net, After(net, Mutates(r, m)), r);
  }

  lemma LeavingGrows(w: World, w': World, r: Pid)
    requires Tidy(w) && Causal(w) && w' == w.(live := w.live - {r})
    ensures Tidy(w') && Causal(w') && Grows(w, w')
  {
    forall p <- w'.erased ensures SeenByAll(w', p) {
      assert SeenByAll(w, p);
    }
  }

  lemma NodeGrows(w: World, w': World, r: Pid, n: Node)
    requires Tidy(w) && Tidy(w') && Grows(w, w') && NodeOk(w, r, n) && w'.seen[r] == w.seen[r]
    ensures NodeOk(w', r, n)
  {
    CrdtGrows(w, w', r, n.crdt);
    WrapperGrows(w, w', r, n.wrapper);
    PhaseGrows(w, w', r, n.phase);
  }

  lemma ShutdownStep(net: Network, r: Pid)
    requires Inv(net) && Enabled(net, ShutsDown(r))
    ensures Inv(After(net, ShutsDown(r)))
  {
    hide CrdtOk, WrapperOk, Tidy, Causal, GroupOk, MarkerOk, FinalOk, FrontierOk, SeenByAll, Leq, IsStable, Enumerates;
    var w' := WorldAfter(net, ShutsDown(r));
    LeavingGrows(net.world, w', r);
    NodeGrows(net.world, w', r, net.nodes[r]);
    InvFrame(net, After(net, ShutsDown(r)), r);
  }

  lemma RestoredRowsOk(w: World, r: Pid, wr: Wrapper, wr': Wrapper, s: OrSet, members: map<Pid, Counter>)
    requires Tidy(w) && r in w.live && CrdtOk(w, r, s) && WrapperOk(w, r, wr)
    requires w.live <= members.Keys <= w.seen.Keys && IsRestored(wr', r, s.vv, wr.markers, members)
    ensures RowsOk(w, wr'.matrix)
  {
    hide CrdtOk, WrapperOk, Leq, RealDots, EpochOk, FrontierOk, SeenByAll, Stamped;
    RefreshedRowLeq(w, r, wr', s);
    forall p <- wr'.matrix.rows | p != STABLE_REPLICA_PID ensures p in w.seen && Leq(wr'.matrix.rows[p], w.seen[p]) {
      if p != r {
        FreshRowLeq(w.history, p, members[p], w.seen[p]);
      }
    }
    NoEpochMember(w);
    if wr.markers != [] {
      LastFrontier(w, r, wr, wr');
    }
  }

  lemma NoEpochMember(w: World)
    requires Tidy(w)
    ensures STABLE_REPLICA_PID !in w.live && STABLE_REPLICA_PID !in w.seen
  {
  }

  lemma RefreshedRowLeq(w: World, r: Pid, wr: Wrapper, s: OrSet)
    requires Tidy(w) && CrdtOk(w, r, s)
    ensures Leq(Stamped(wr, s.vv), w.seen[r])
  {
    TidyAt(w, r);
    TracksLeq(s.vv, w.seen[r], w.erased, w.history);
    StampIrrelevant(s.vv, Epoch(wr), w.seen[r]);
  }

  lemma LastFrontier(w: World, r: Pid, wr: Wrapper, wr': Wrapper)
    requires WrapperOk(w, r, wr) && EpochOk(wr') && wr'.markers == wr.markers != []
    ensures STABLE_REPLICA_PID in wr'.matrix.rows && FrontierOk(w, wr'.matrix.rows[STABLE_REPLICA_PID])
  {
    var last := wr.markers[|wr.markers| - 1];
    assert MarkerOk(w, last);
    forall s <- w.live ensures s in w.seen && Leq(wr'.matrix.rows[STABLE_REPLICA_PID], w.seen[s]) {
      StampIrrelevant(last.stable, last.marker.counter, w.seen[s]);
    }
  }

  lemma RestoredNodeOk(w: World, r: Pid, n: Node, members: map<Pid, Counter>)
    requires Tidy(w) && r in w.live && NodeOk(w, r, n) && KeepsAll(r, n.wrapper.markers) && r != STABLE_REPLICA_PID
    requires w.live <= members.Keys <= w.seen.Keys
    ensures NodeOk(w, r, Restored(r, n.crdt, n.wrapper.markers, members))
  {
    hide RestoredWrapper, SetOk, BasesOk, Exact, EpochOk, RowsOk, MarkerOk, Tidy, KeepsAll;
    RestoredIs(r, n.crdt.vv, n.wrapper.markers, members);
    RestoredRowsOk(w, r, n.wrapper, RestoredWrapper(r, n.crdt.vv, n.wrapper.markers, members), n.crdt, members);
  }

  lemma RestartStep(net: Network, r: Pid, members: map<Pid, Counter>)
    requires Inv(net) && Enabled(net, Restarts(r, members))
    ensures Inv(After(net, Restarts(r, members)))
  {
    hide NodeOk, Tidy, Causal, EnvelopeOk, Restored, KeepsAll, Bound;
    RestoredNodeOk(net.world, r, net.nodes[r], members);
    QuietStep(net, After(net, Restarts(r, members)), r);
  }

  lemma StepKeepsInv(net: Network, step: Step)
    requires Inv(net) && Enabled(net, step)
    ensures Inv(After(net, step))
  {
    match step
    case Mutates(r, m) => MutateStep(net, r, m);
    case Refreshes(r) => RefreshStep(net, r);
    case Discovers(r, p, c) => DiscoverStep(net, r, p, c);
    case Pulls(r, dest) => PullStep(net, r, dest);
    case Answers(r, from, vv, order, stable, departed) => AnswerStep(net, r, from, vv, order, stable, departed);
    case Receives(r, group, marker) => ReceiveStep(net, r, group, marker);
    case CommitsGroup(r) => CommitGroupStep(net, r);
    case BeginsGc(r, frontier, departed) => BeginGcStep(net, r, frontier, departed);
    case AbortsGc(r) => AbortGcStep(net, r);
    case CommitsGc(r) => CommitGcStep(net, r);
    case ShutsDown(r) => ShutdownStep(net, r);
    case Absorbs(r, leaver, order) => AbsorbStep(net, r, leaver, order);
    case Restarts(r, members) => RestartStep(net, r, members);
  }

  lemma {:induction false} RunKeepsInv(net: Network, steps: seq<Step>)
    requires Inv(net) && IsRun(net, steps)
    ensures Inv(EndOf(net, steps))
    decreases |steps|
  {
    if steps != [] {
      StepKeepsInv(net, steps[0]);
      RunKeepsInv(After(net, steps[0]), steps[1..]);
    }
  }

  /** The invariant holds in every reachable state. */
  lemma ReachableInv(members: set<Pid>, net: Network)
    requires Reachable(members, net)
    ensures Inv(net)
  {
    var steps :| IsRun(Start(members), steps) && EndOf(Start(members), steps) == net;
    StartOk(members);
    RunKeepsInv(Start(members), steps);
  }

  // ---- Gap freedom ----

  /** A delta group waiting at a replica extends its vector without a gap, in every column not yet retired. */
  ghost predicate FitsOutside(vv: DotSet, list: seq<Delta>, erased: set<Pid>) {
    forall i | 0 <= i < |list| && list[i].dot.pid !in erased ::
      || list[i].dot.counter - 1 <= Get(vv, list[i].dot.pid)
      || exists j | 0 <= j < i :: list[j].dot == Dot(list[i].dot.pid, list[i].dot.counter - 1)
  }

  lemma WaitingGroupFits(w: World, r: Pid, s: OrSet, g: Group)
    requires Tidy(w) && r in w.live && CrdtOk(w, r, s) && GroupOk(w, r, g)
    ensures FitsOutside(s.vv, g.list, w.erased)
    ensures (forall i | 0 <= i < |g.list| :: g.list[i].dot.pid !in w.erased) ==> Merged(s, g.list).Some?
  {
    TidyAt(w, r);
    TracksLeq(s.vv, w.seen[r], w.erased, w.history);
    if forall i | 0 <= i < |g.list| :: g.list[i].dot.pid !in w.erased {
      MergeNeverPanics(w.history, w.erased, s, w.seen[r], g.list);
    }
  }

  /** What the invariant says of one replica. */
  lemma ReachableNode(members: set<Pid>, net: Network, r: Pid)
    requires Reachable(members, net)
    ensures Tidy(net.world) && Causal(net.world) && net.nodes.Keys == net.world.seen.Keys
    ensures r in net.nodes ==> NodeOk(net.world, r, net.nodes[r])
  {
    ReachableInv(members, net);
    hide NodeOk, Tidy, Causal, EnvelopeOk, Reachable;
  }

  lemma MergeOutcome(w: World, r: Pid, n: Node)
    requires Tidy(w) && r in w.live && NodeOk(w, r, n) && n.phase.Merging?
    ensures Bound(n) && FitsOutside(n.crdt.vv, n.phase.group.list, w.erased)
    ensures GroupCommitted(n).None? <==> exists p :: Gap(n.crdt.vv, DotsOf(n.phase.group.list), p)
    ensures forall p | Gap(n.crdt.vv, DotsOf(n.phase.group.list), p) :: p in w.erased
  {
    WaitingGroupFits(w, r, n.crdt, n.phase.group);
    hide CrdtOk, FinalOk, Tidy, RowsOk, InRuns, Gap, Fits, Completes, ContextsCovered, AllRecorded;
    MergePanicsIff(n.crdt, n.phase.group.list);
    forall p | Gap(n.crdt.vv, DotsOf(n.phase.group.list), p) ensures p in w.erased {
      GapIsRetired(n.crdt.vv, n.phase.group.list, w.erased, p);
    }
  }

  lemma GapIsRetired(vv: DotSet, list: seq<Delta>, erased: set<Pid>, p: Pid)
    requires FitsOutside(vv, list, erased) && Gap(vv, DotsOf(list), p)
    ensures p in erased
  {
    var d :| d in DotsOf(list) && d.pid == p && vv[p] < d.counter;
    var i :| 0 <= i < |list| && list[i].dot == d;
    NoGapOutside(vv, list, erased, p, i);
  }

  /** Outside the retired columns the predecessors go back to the vector. */
  lemma {:induction false} NoGapOutside(vv: DotSet, list: seq<Delta>, erased: set<Pid>, p: Pid, i: nat)
    requires FitsOutside(vv, list, erased) && p in vv && i < |list| && list[i].dot.pid == p && vv[p] < list[i].dot.counter
    ensures p in erased || Dot(p, vv[p] + 1) in DotsOf(list)
    decreases i
  {
    if p !in erased {
      if list[i].dot.counter == vv[p] + 1 {
        assert DotsOf(list)[i] == Dot(p, vv[p] + 1);
      } else {
        var j :| 0 <= j < i && list[j].dot == Dot(p, list[i].dot.counter - 1);
        NoGapOutside(vv, list, erased, p, j);
      }
    }
  }

  /**
   Gap freedom: whatever was lost, duplicated, reordered or collected, a group that a
   replica is about to merge extends its vector contiguously in every column not retired.
   The contiguity assertion fires exactly when the group goes on past the vector in some
   column without the next dot, and only a retired column can be like that.
   */
  lemma GapFreedom(members: set<Pid>, net: Network, r: Pid)
    requires Reachable(members, net) && r in net.nodes && r in net.world.live && net.nodes[r].phase.Merging?
    ensures Bound(net.nodes[r])
    ensures FitsOutside(net.nodes[r].crdt.vv, net.nodes[r].phase.group.list, net.world.erased)
    ensures GroupCommitted(net.nodes[r]).None? <==> exists p :: Gap(net.nodes[r].crdt.vv, DotsOf(net.nodes[r].phase.group.list), p)
    ensures forall p | Gap(net.nodes[r].crdt.vv, DotsOf(net.nodes[r].phase.group.list), p) :: p in net.world.erased
  {
    hide Reachable, NodeOk, Tidy, Causal, FitsOutside, GroupCommitted, Gap;
    ReachableNode(members, net, r);
    MergeOutcome(net.world, r, net.nodes[r]);
  }

  lemma ReachableEnvelope(members: set<Pid>, net: Network, env: Envelope)
    requires Reachable(members, net) && env in net.bag
    ensures EnvelopeOk(net.world, env)
  {
    ReachableInv(members, net);
    hide NodeOk, Tidy, Causal, EnvelopeOk, Reachable;
  }

  /** No marker that a replica may apply erases its own row, so applying one never panics. */
  lemma MarkersNeverPanic(members: set<Pid>, net: Network, r: Pid, group: Group, marker: GcMarker)
    requires Reachable(members, net) && r in net.nodes && r in net.world.live
    ensures Envelope(r, DeltaGroup(group, marker)) in net.bag ==> OwnRowSurvives(net.nodes[r].wrapper.matrix, marker.departed)
    ensures net.nodes[r].phase.Collecting? ==> OwnRowSurvives(net.nodes[r].wrapper.matrix, net.nodes[r].phase.marker.departed)
  {
    hide Reachable, CrdtOk, Tidy, Causal, GroupOk, FrontierOk, Leq, OwnRowSurvives, EpochOk, RowsOk, SeenByAll;
    ReachableNode(members, net, r);
    if Envelope(r, DeltaGroup(group, marker)) in net.bag {
      ReachableEnvelope(members, net, Envelope(r, DeltaGroup(group, marker)));
      SurvivesOthers(net.world, r, net.nodes[r].wrapper, marker.departed);
    }
    if net.nodes[r].phase.Collecting? {
      SurvivesOthers(net.world, r, net.nodes[r].wrapper, net.nodes[r].phase.marker.departed);
    }
  }

  /** A live replica can come up again from its journal at any moment: no journaled marker erases its own row. */
  lemma RestartPossible(members: set<Pid>, net: Network, r: Pid, listed: map<Pid, Counter>)
    requires Reachable(members, net) && r in net.nodes && r in net.world.live && net.world.live <= listed.Keys <= net.nodes.Keys
    ensures Enabled(net, Restarts(r, listed))
  {
    hide Reachable, SetOk, BasesOk, Exact, Causal, RowsOk, PhaseOk, FrontierOk;
    ReachableNode(members, net, r);
    var w, markers := net.world, net.nodes[r].wrapper.markers;
    forall i | 0 <= i < |markers| ensures r !in Announced(markers[i].departed) && STABLE_REPLICA_PID !in Announced(markers[i].departed) {
      assert MarkerOk(w, markers[i]);
      ErasedSeen(w, Announced(markers[i].departed));
      LiveNotErased(w, r);
    }
  }

  lemma SurvivesOthers(w: World, r: Pid, wr: Wrapper, departed: Option<seq<Pid>>)
    requires Tidy(w) && r in w.live && EpochOk(wr) && wr.matrix.ownPid == r
    requires Announced(departed) <= w.erased || forall p <- Announced(departed) :: SeenByAll(w, p)
    ensures OwnRowSurvives(wr.matrix, departed)
  {
    ErasedSeen(w, Announced(departed));
    assert r !in Announced(departed) && STABLE_REPLICA_PID !in Announced(departed);
    KeepsOwnRow(wr, GcMarker(CurrentMarker(wr), map[], departed));
  }

  // ---- Rows, markers and logs stay behind the real vectors ----

  lemma VectorIsSeen(w: World, r: Pid, s: OrSet)
    requires Tidy(w) && CrdtOk(w, r, s)
    ensures forall p: Pid | p !in w.erased :: Get(s.vv, p) == Get(w.seen[r], p)
  {
    TidyAt(w, r);
    TracksLeq(s.vv, w.seen[r], w.erased, w.history);
  }

  /** No row exceeds what its replica has seen, and no frontier exceeds what any live replica has seen. */
  lemma NothingRunsAhead(members: set<Pid>, net: Network, r: Pid)
    requires Reachable(members, net) && r in net.nodes
    ensures forall p <- net.nodes[r].wrapper.matrix.rows | p != STABLE_REPLICA_PID ::
              p in net.world.seen && Leq(net.nodes[r].wrapper.matrix.rows[p], net.world.seen[p])
    ensures forall i | 0 <= i < |net.nodes[r].wrapper.markers| :: FrontierOk(net.world, net.nodes[r].wrapper.markers[i].stable)
    ensures net.nodes[r].phase.Collecting? ==> FrontierOk(net.world, net.nodes[r].phase.marker.stable)
    ensures r in net.world.seen && forall p: Pid | p !in net.world.erased :: Get(net.nodes[r].crdt.vv, p) == Get(net.world.seen[r], p)
    ensures EpochOk(net.nodes[r].wrapper)
  {
    hide Reachable, CrdtOk, Tidy, Causal, GroupOk, FrontierOk, Leq, EpochOk, SeenByAll;
    ReachableNode(members, net, r);
    VectorIsSeen(net.world, r, net.nodes[r].crdt);
    assert forall i | 0 <= i < |net.nodes[r].wrapper.markers| :: MarkerOk(net.world, net.nodes[r].wrapper.markers[i]);
  }

  // ---- GC safety ----

  lemma LoggedItem(h: History, s: OrSet, p: Pid, item: (Dot, Delta))
    requires LogOk(s) && LogRecorded(h, s) && p in s.log && item in s.log[p]
    ensures item.0.pid == p && item.0.counter <= Get(s.vv, p) && item.1.dot == item.0 && Records(h, item.1)
  {
    var k :| 0 <= k < |s.log[p]| && s.log[p][k] == item;
    assert Records(h, s.log[p][k].1);
  }

  lemma DroppedIsBelow(h: History, s: OrSet, p: Pid, item: (Dot, Delta), vv: DotSet)
    requires LogOk(s) && LogRecorded(h, s) && BaseBelow(s, vv)
    requires item.0.pid == p && item.1.dot == item.0 && Records(h, item.1) && item.0.counter <= Get(s.vv, p)
    requires p in s.log ==> item !in s.log[p]
    ensures item.0.counter <= Get(vv, p)
  {
    if Base(s.log, s.vv, p) < item.0.counter {
      StillLogged(h, s, p, item);
    }
    assert Base(s.log, s.vv, p) <= Get(vv, p);
  }

  lemma LoggedItemSeen(w: World, w': World, r: Pid, s: OrSet, p: Pid, item: (Dot, Delta))
    requires Tidy(w) && Grows(w, w') && CrdtOk(w, r, s) && p in s.log && item in s.log[p]
    ensures item.0.pid == p && item.1.dot == item.0 && Records(w'.history, item.1)
    ensures item.0.counter <= Get(w'.seen[r], p)
  {
    hide LogOk, LogRecorded, Sound, EntriesSeen, Exact, BasesOk, Tracks, RealDots, Tidy;
    LoggedItem(w.history, s, p, item);
    TidyAt(w, r);
    TracksLeq(s.vv, w.seen[r], w.erased, w.history);
    assert Get(w.seen[r], p) <= Get(w'.seen[r], p);
  }

  lemma NotLoggedIsSeen(w: World, r: Pid, s: OrSet, p: Pid, item: (Dot, Delta), x: Pid)
    requires Tidy(w) && CrdtOk(w, r, s) && x in w.live && p !in w.erased
    requires item.0.pid == p && item.1.dot == item.0 && Records(w.history, item.1) && item.0.counter <= Get(w.seen[r], p)
    requires p in s.log ==> item !in s.log[p]
    ensures x in w.seen && item.0.counter <= Get(w.seen[x], p)
  {
    VectorIsSeen(w, r, s);
    hide LogOk, LogRecorded, Sound, EntriesSeen, Exact, BaseBelow, Tidy;
    DroppedIsBelow(w.history, s, p, item, w.seen[x]);
  }

  lemma ErasedIsSeen(w: World, p: Pid, x: Pid)
    requires Tidy(w) && p in w.erased && x in w.live
    ensures x in w.seen && p in w.history && Get(w.seen[x], p) == |w.history[p]| - 1
  {
    assert SeenByAll(w, p);
  }

  lemma DroppedIsSeen(w: World, w': World, r: Pid, s: OrSet, s': OrSet, p: Pid, item: (Dot, Delta), x: Pid)
    requires Tidy(w) && Tidy(w') && Grows(w, w') && CrdtOk(w, r, s) && CrdtOk(w', r, s') && x in w'.live
    requires p in s.log && item in s.log[p] && (p in s'.log ==> item !in s'.log[p])
    ensures x in w'.seen && Contains(w'.seen[x], item.0) && item.0.pid == p
  {
    hide Tidy, Grows, CrdtOk, Contains;
    LoggedItemSeen(w, w', r, s, p, item);
    if p in w'.erased {
      ErasedIsSeen(w', p, x);
    } else {
      NotLoggedIsSeen(w', r, s', p, item, x);
    }
    ContainedIfCounted(w'.seen[x], item.0);
  }

  lemma ContainedIfCounted(vv: DotSet, dot: Dot)
    requires 0 <= dot.counter <= Get(vv, dot.pid)
    ensures Contains(vv, dot)
  {
  }

  lemma StillLogged(h: History, s: OrSet, p: Pid, item: (Dot, Delta))
    requires LogOk(s) && LogRecorded(h, s) && item.0.pid == p && item.1.dot == item.0 && Records(h, item.1)
    requires Base(s.log, s.vv, p) < item.0.counter <= Get(s.vv, p)
    ensures p in s.log && item in s.log[p]
  {
    var k := item.0.counter - (s.vv[p] - |s.log[p]| + 1);
    var logged := s.log[p][k];
    assert logged.0 == item.0;
    assert Records(h, logged.1) && logged.1.dot == logged.0;
    assert logged == item;
  }

  lemma StepGrows(net: Network, step: Step)
    requires Inv(net) && Enabled(net, step)
    ensures Grows(net.world, WorldAfter(net, step))
  {
    hide CrdtOk, WrapperOk, Causal, GroupOk, MarkerOk, FinalOk, FrontierOk, Leq, IsStable, Enumerates;
    assert NodeOk(net.world, step.r, net.nodes[step.r]);
    match step
    case Mutates(r, m) =>
      MutationDot(net.world, r, net.nodes[r].crdt);
      MutateOk(net.world, WorldAfter(net, step), r, net.nodes[r], m);
    case CommitsGroup(r) => CommitGroupOk(net.world, WorldAfter(net, step), r, net.nodes[r]);
    case CommitsGc(r) => CommitGcNode(net.world, WorldAfter(net, step), r, net.nodes[r]);
    case ShutsDown(r) => LeavingGrows(net.world, WorldAfter(net, step), r);
    case _ => GrowsReflexive(net.world);
  }

  /**
   GC safety: a delta that disappears from any log in any step has been seen by every
   live replica, and is still in every live replica's vector unless its author has
   been retired.
   */
  lemma GcSafety(members: set<Pid>, net: Network, step: Step, r: Pid, p: Pid, item: (Dot, Delta), x: Pid)
    requires Reachable(members, net) && Enabled(net, step)
    requires r in net.nodes && p in net.nodes[r].crdt.log && item in net.nodes[r].crdt.log[p]
    requires r in After(net, step).nodes && (p in After(net, step).nodes[r].crdt.log ==> item !in After(net, step).nodes[r].crdt.log[p])
    requires x in After(net, step).world.live
    ensures x in After(net, step).world.seen && Contains(After(net, step).world.seen[x], item.0)
    ensures x in After(net, step).nodes
    ensures p !in After(net, step).world.erased ==> Contains(After(net, step).nodes[x].crdt.vv, item.0)
  {
    hide Reachable, CrdtOk, WrapperOk, PhaseOk, Tidy, Causal, EnvelopeOk, Enabled, After, Grows;
    ReachableInv(members, net);
    StepKeepsInv(net, step);
    StepGrows(net, step);
    AfterWorld(net, step);
    var net' := After(net, step);
    DroppedIsSeen(net.world, net'.world, r, net.nodes[r].crdt, net'.nodes[r].crdt, p, item, x);
    SeenIsContained(net'.world, x, net'.nodes[x].crdt, item.0);
  }

  lemma AfterWorld(net: Network, step: Step)
    requires Enabled(net, step)
    ensures After(net, step).world == WorldAfter(net, step)
  {
  }

  lemma SeenIsContained(w: World, x: Pid, s: OrSet, dot: Dot)
    requires Tidy(w) && CrdtOk(w, x, s) && Contains(w.seen[x], dot)
    ensures dot.pid !in w.erased ==> Contains(s.vv, dot)
  {
  }

  // ---- Catching up and absorbing a departed replica ----

  lemma GroupReached(w: World, w': World, r: Pid, s: OrSet, g: Group)
    requires Tidy(w) && Causal(w) && r in w.live && CrdtOk(w, r, s) && GroupOk(w, r, g) && Merged(s, g.list).Some?
    requires w'.settled <==> w.settled && Settles(w.history, s.vv, w.seen[r], g.list)
    requires w' == w.(seen := w.seen[r := JoinedAll(w.seen[r], g.list)], settled := w'.settled)
    ensures forall q: Pid | q != STABLE_REPLICA_PID && q !in w.erased :: Get(g.vv, q) <= Get(Merged(s, g.list).value.vv, q)
  {
    hide CrdtOk, GroupOk, Causal, Settles, JoinedAll;
    CommitWorld(w, w', r, g);
    LiveNotErased(w, r);
    CommitCrdt(w, w', r, s, g);
    VectorIsSeen(w', r, Merged(s, g.list).value);
  }

  lemma CommittedRow(n: Node)
    requires EpochOk(n.wrapper) && n.phase.Merging? && GroupCommitted(n).Some?
    ensures var n' := GroupCommitted(n).value;
            && n'.crdt == Merged(n.crdt, n.phase.group.list).value
            && HasOwnRow(n'.wrapper.matrix) && OwnRow(n'.wrapper.matrix) == Stamped(n.wrapper, n'.crdt.vv)
            && n'.wrapper.matrix.ownPid == n.wrapper.matrix.ownPid
            && (n.phase.final.Some? ==>
                  && n.phase.final.value.pid in n'.wrapper.matrix.finals
                  && n'.wrapper.matrix.finals[n.phase.final.value.pid] == n.phase.final.value.counter)
  {
    RowsKeepEpoch(n.wrapper, n.wrapper.matrix.ownPid, Merged(n.crdt, n.phase.group.list).value.vv);
  }

  lemma CommittedReaches(w: World, w': World, r: Pid, n: Node)
    requires Tidy(w) && Causal(w) && r in w.live && NodeOk(w, r, n) && n.phase.Merging? && GroupCommitted(n).Some?
    requires w'.settled <==> w.settled && Settles(w.history, n.crdt.vv, w.seen[r], n.phase.group.list)
    requires w' == w.(seen := w.seen[r := JoinedAll(w.seen[r], n.phase.group.list)], settled := w'.settled)
    ensures forall q: Pid | q != STABLE_REPLICA_PID && q !in w.erased ::
              Get(n.phase.group.vv, q) <= Get(GroupCommitted(n).value.crdt.vv, q)
  {
    hide CrdtOk, GroupOk, Tidy, Causal, Settles, JoinedAll, RowsOk, MarkerOk, FinalOk;
    GroupReached(w, w', r, n.crdt, n.phase.group);
    CommittedRow(n);
  }

  /** One exchange brings the requester up to the vector the answer was stamped with. */
  lemma CatchUp(members: set<Pid>, net: Network, r: Pid, n': Node)
    requires Reachable(members, net) && r in net.nodes && r in net.world.live && net.nodes[r].phase.Merging?
    requires Bound(net.nodes[r]) && GroupCommitted(net.nodes[r]) == Some(n')
    ensures forall q: Pid | q != STABLE_REPLICA_PID && q !in net.world.erased ::
              Get(net.nodes[r].phase.group.vv, q) <= Get(n'.crdt.vv, q)
  {
    hide Reachable, NodeOk, Tidy, Causal, Settles, JoinedAll, GroupCommitted, Bound;
    ReachableNode(members, net, r);
    CommittedReaches(net.world, WorldOfCommit(net.world, r, net.nodes[r]), r, net.nodes[r]);
  }

  /** The leaver's row is left out of the next frontier exactly when there is a final dot to have seen. */
  lemma LeaverObserves(n: Node, n': Node, r: Pid, final: Dot)
    requires HasOwnRow(n'.wrapper.matrix) && OwnRow(n'.wrapper.matrix) == Stamped(n.wrapper, n'.crdt.vv)
    requires final.pid in n'.wrapper.matrix.finals && n'.wrapper.matrix.finals[final.pid] == final.counter
    requires final.pid != STABLE_REPLICA_PID
    requires Get(n'.crdt.vv, final.pid) == final.counter && (final.pid in n'.crdt.vv ==> 0 <= n'.crdt.vv[final.pid])
    ensures final.pid in Observers(n'.wrapper.matrix) <==> final.pid in n'.wrapper.matrix.rows && final.counter < 0
  {
  }

  lemma LeaverFullySeen(w: World, r: Pid, s: OrSet, final: Dot)
    requires Tidy(w) && CrdtOk(w, r, s) && final.pid in w.history && final.pid !in w.erased
    requires final.counter == |w.history[final.pid]| - 1 <= Get(s.vv, final.pid)
    ensures Get(s.vv, final.pid) == final.counter && (final.pid in s.vv ==> 0 <= s.vv[final.pid])
  {
    TidyAt(w, r);
  }

  lemma FinalIsDominated(w: World, payload: OrSet, g: Group, final: Dot)
    requires Tidy(w) && FinalOk(w, g, final) && CrdtOk(w, final.pid, payload)
    ensures forall q: Pid | q != STABLE_REPLICA_PID && q !in w.erased :: Get(payload.vv, q) <= Get(g.vv, q)
    ensures final.counter == Get(payload.vv, final.pid) && final.pid != STABLE_REPLICA_PID
    ensures STABLE_REPLICA_PID !in payload.vv && final.pid in w.history && final.counter == |w.history[final.pid]| - 1 >= -1
  {
    TidyAt(w, final.pid);
    TracksLeq(payload.vv, w.seen[final.pid], w.erased, w.history);
  }

  /**
   Shutdown absorption: once a shutdown payload is merged, the local vector dominates
   the leaver's, and of the leavers that have a row only one that never mutated anything
   is still an observer: with final counter -1 there is no dot for the own row to contain.
   */
  lemma ShutdownAbsorption(members: set<Pid>, net: Network, r: Pid, final: Dot, n': Node)
    requires Reachable(members, net) && r in net.nodes && r in net.world.live
    requires net.nodes[r].phase.Merging? && net.nodes[r].phase.final == Some(final)
    requires Bound(net.nodes[r]) && GroupCommitted(net.nodes[r]) == Some(n')
    ensures final.pid in net.nodes && HasOwnRow(n'.wrapper.matrix)
    ensures forall q: Pid | q != STABLE_REPLICA_PID && q !in net.world.erased ::
              Get(net.nodes[final.pid].crdt.vv, q) <= Get(n'.crdt.vv, q)
    ensures final.pid !in net.world.erased ==>
              (final.pid in Observers(n'.wrapper.matrix) <==> final.pid in n'.wrapper.matrix.rows && final.counter == -1)
  {
    hide Reachable, CrdtOk, Tidy, Causal, Settles, JoinedAll, GroupOk, GroupCommitted, EpochOk, RowsOk, MarkerOk, Observers, FinalOk, Bound;
    ReachableNode(members, net, r);
    var n, w, w' := net.nodes[r], net.world, WorldOfCommit(net.world, r, net.nodes[r]);
    FinalHere(w, n.phase.group, final);
    ReachableNode(members, net, final.pid);
    FinalIsDominated(w, net.nodes[final.pid].crdt, n.phase.group, final);
    CommittedRow(n);
    MergedSome(n);
    CommitGroupOk(w, w', r, n);
    CommittedReaches(w, w', r, n);
    if final.pid !in w.erased {
      assert final.counter <= Get(n.phase.group.vv, final.pid);
      LeaverFullySeen(w', r, n'.crdt, final);
      LeaverObserves(n, n', r, final);
    }
  }

  lemma MergedSome(n: Node)
    requires Bound(n) && n.phase.Merging? && GroupCommitted(n).Some?
    ensures Merged(n.crdt, n.phase.group.list).Some?
  {
  }

  lemma FinalHere(w: World, g: Group, final: Dot)
    requires FinalOk(w, g, final)
    ensures final.pid in w.seen
  {
  }

  // ---- Convergence ----

  /** Every replica has seen whatever the authors of the mutations it has seen had seen. */
  lemma CausalConsistency(members: set<Pid>, net: Network, r: Pid)
    requires Reachable(members, net) && r in net.nodes
    ensures r in net.world.seen && Closed(net.world.history, net.world.seen[r])
  {
    hide Reachable, Tidy, NodeOk, Closed;
    ReachableNode(members, net, r);
  }

  lemma SettledNode(members: set<Pid>, net: Network, r: Pid)
    requires Reachable(members, net) && r in net.nodes && net.world.settled
    ensures r in net.world.seen && Exact(net.world.history, net.world.seen[r], net.nodes[r].crdt.entries)
    ensures NoEmptyEntry(net.nodes[r].crdt.entries) && Closed(net.world.history, net.world.seen[r])
    ensures NamesSeen(net.world.history) && NoEpochPid(net.world.history) && RemovalsComplete(net.world.history)
  {
    hide Reachable, WrapperOk, PhaseOk, Exact, Closed, LogOk, LogRecorded, BasesOk, NamesSeen, RemovalsComplete, ContextsWithin;
    ReachableNode(members, net, r);
  }

  lemma HasIffLive(h: History, seen: DotSet, s: OrSet, e: Element)
    requires Exact(h, seen, s.entries) && NoEmptyEntry(s.entries)
    ensures Has(s, e) <==> exists dot: Dot :: Live(h, seen, e, dot)
    ensures Has(s, e) <==> e in s.entries
  {
    if Has(s, e) {
      assert InEntries(s.entries, e, s.entries[e][0]);
    }
    if dot: Dot :| Live(h, seen, e, dot) {
      assert InEntries(s.entries, e, dot);
    }
  }

  /** Vectors that agree outside the retired columns stand for the same mutations seen. */
  lemma SameSeen(w: World, a: Pid, s: OrSet, b: Pid, t: OrSet)
    requires Tidy(w) && CrdtOk(w, a, s) && CrdtOk(w, b, t) && ((a in w.live && b in w.live) || w.erased == {})
    requires forall p: Pid | p !in w.erased :: Get(s.vv, p) == Get(t.vv, p)
    ensures forall dot: Dot | Happened(w.history, dot) :: Contains(w.seen[a], dot) <==> Contains(w.seen[b], dot)
  {
    VectorIsSeen(w, a, s);
    VectorIsSeen(w, b, t);
    forall p: Pid ensures Get(w.seen[a], p) == Get(w.seen[b], p) {
      if p in w.erased {
        ErasedIsSeen(w, p, a);
        ErasedIsSeen(w, p, b);
      }
    }
    forall dot: Dot | Happened(w.history, dot) ensures Contains(w.seen[a], dot) <==> Contains(w.seen[b], dot) {
      assert Get(w.seen[a], dot.pid) == Get(w.seen[b], dot.pid);
    }
  }

  lemma SameAnswers(h: History, seenA: DotSet, s: OrSet, seenB: DotSet, t: OrSet)
    requires Exact(h, seenA, s.entries) && NoEmptyEntry(s.entries) && Exact(h, seenB, t.entries) && NoEmptyEntry(t.entries)
    requires forall dot: Dot | Happened(h, dot) :: Contains(seenA, dot) <==> Contains(seenB, dot)
    ensures forall e :: Has(s, e) <==> Has(t, e)
    ensures s.entries.Keys == t.entries.Keys
  {
    forall e ensures (Has(s, e) <==> Has(t, e)) && (e in s.entries <==> e in t.entries) {
      HasIffLive(h, seenA, s, e);
      HasIffLive(h, seenB, t, e);
      forall dot: Dot ensures Live(h, seenA, e, dot) <==> Live(h, seenB, e, dot) {
        LiveSame(h, seenA, seenB, e, dot);
      }
    }
  }

  /**
   Strong convergence: live replicas whose vectors agree outside the retired columns, and
   as long as nobody is retired any replicas at all, answer Contains and Elements identically.
   */
  lemma StrongConvergence(members: set<Pid>, net: Network, a: Pid, b: Pid, le: (Element, Element) -> bool,
                          sortedA: seq<Element>, sortedB: seq<Element>)
    requires Reachable(members, net) && net.world.settled && a in net.nodes && b in net.nodes
    requires (a in net.world.live && b in net.world.live) || net.world.erased == {}
    requires forall p: Pid | p !in net.world.erased :: Get(net.nodes[a].crdt.vv, p) == Get(net.nodes[b].crdt.vv, p)
    requires TotalOrder(le)
    requires Lists(le, sortedA, net.nodes[a].crdt.entries.Keys) && Lists(le, sortedB, net.nodes[b].crdt.entries.Keys)
    ensures forall e :: Has(net.nodes[a].crdt, e) <==> Has(net.nodes[b].crdt, e)
    ensures sortedA == sortedB
  {
    hide Reachable, CrdtOk, WrapperOk, PhaseOk, Tidy, Closed, NamesSeen, RemovalsComplete, Exact, Has, TotalOrder, Lists, NoEmptyEntry, Happened;
    ReachableNode(members, net, a);
    ReachableNode(members, net, b);
    SettledNode(members, net, a);
    SettledNode(members, net, b);
    var s, t, w := net.nodes[a].crdt, net.nodes[b].crdt, net.world;
    SameSeen(w, a, s, b, t);
    SameAnswers(w.history, w.seen[a], s, w.seen[b], t);
    ListingUnique(le, sortedA, sortedB, s.entries.Keys);
  }

  /**
   The OR-Set specification: an element is in the set exactly when the replica has seen
   an insertion of it that no removal of it seen there had observed. In particular an
   insertion survives every removal concurrent with it.
   */
  lemma AddWins(members: set<Pid>, net: Network, r: Pid, e: Element)
    requires Reachable(members, net) && r in net.nodes && net.world.settled
    ensures r in net.world.seen
    ensures var h, seen := net.world.history, net.world.seen[r];
            Has(net.nodes[r].crdt, e) <==>
            exists dot: Dot :: InsertedIn(h, seen, e, dot)
                               && !exists removal: Dot :: Contains(seen, removal) && Observes(h, removal, e, dot)
  {
    hide Reachable, Closed, NamesSeen, RemovalsComplete, Exact, Has, NoEmptyEntry, Live, InsertedIn, Observes, Contains;
    SettledNode(members, net, r);
    var h, seen := net.world.history, net.world.seen[r];
    HasIffLive(h, seen, net.nodes[r].crdt, e);
    forall dot: Dot
      ensures Live(h, seen, e, dot) <==>
              InsertedIn(h, seen, e, dot) && !exists removal: Dot :: Contains(seen, removal) && Observes(h, removal, e, dot)
    {
      LiveIsUnobserved(h, seen, e, dot);
    }
  }

  ghost predicate GroupOrdered(w: World, r: Pid, n: Node)
    requires r in w.seen && n.phase.Merging?
  {
    && AllRecorded(w.history, n.phase.group.list)
    && CausallyOrdered(w.history, n.crdt.vv, w.seen[r], n.phase.group.list)
  }

  /** Every group committed in the run meets the documented contract. */
  ghost predicate EveryGroupOrdered(net: Network, steps: seq<Step>)
    requires IsRun(net, steps)
    decreases |steps|
  {
    steps == [] ||
    (&& (steps[0].CommitsGroup? ==> GroupOrdered(net.world, steps[0].r, net.nodes[steps[0].r]))
     && EveryGroupOrdered(After(net, steps[0]), steps[1..]))
  }

  /** What the invariant says of a group that waits to be merged. */
  lemma WaitingFacts(w: World, r: Pid, n: Node)
    requires Tidy(w) && Causal(w) && r in w.live && NodeOk(w, r, n) && n.phase.Merging?
    ensures r in w.seen && NamesSeen(w.history) && NoEpochPid(w.history) && Closed(w.history, w.seen[r])
    ensures Fits(w.seen[r], n.phase.group.list) && AllRecorded(w.history, n.phase.group.list)
  {
    hide CrdtOk, WrapperOk, FinalOk, NamesSeen, Closed, Fits, AllRecorded, Completes, ContextsCovered, InRuns;
  }

  lemma OrderedStepSettles(net: Network, step: Step)
    requires Inv(net) && net.world.settled && Enabled(net, step)
    requires step.CommitsGroup? ==> GroupOrdered(net.world, step.r, net.nodes[step.r])
    ensures After(net, step).world.settled
  {
    hide NodeOk, EnvelopeOk, Tidy, Causal, Settles, CausallyOrdered, NamesSeen, AllRecorded, IsStable, Enumerates, JoinedAll, Closed, Fits;
    if step.CommitsGroup? {
      var n := net.nodes[step.r];
      WaitingFacts(net.world, step.r, n);
      CausalOrderSettles(net.world.history, n.crdt.vv, net.world.seen[step.r], n.phase.group.list);
    }
  }

  lemma {:induction false} OrderedRunFrom(net: Network, steps: seq<Step>)
    requires Inv(net) && net.world.settled && IsRun(net, steps) && EveryGroupOrdered(net, steps)
    ensures EndOf(net, steps).world.settled
    decreases |steps|
  {
    hide Inv, Enabled, After, GroupOrdered;
    if steps != [] {
      StepKeepsInv(net, steps[0]);
      OrderedStepSettles(net, steps[0]);
      OrderedRunFrom(After(net, steps[0]), steps[1..]);
    }
  }

  /** If every group committed in a run is in causal order, as documented, the run is settled. */
  lemma OrderedRunSettles(members: set<Pid>, steps: seq<Step>)
    requires STABLE_REPLICA_PID !in members && IsRun(Start(members), steps) && EveryGroupOrdered(Start(members), steps)
    ensures EndOf(Start(members), steps).world.settled
  {
    hide EveryGroupOrdered, IsRun, EndOf;
    StartOk(members);
    OrderedRunFrom(Start(members), steps);
  }

  /** In a settled state a commit keeps the entries equal to their meaning exactly when the merge settles. */
  lemma CommitExactIff(members: set<Pid>, net: Network, r: Pid, n': Node)
    requires Reachable(members, net) && net.world.settled && r in net.nodes && r in net.world.live && net.nodes[r].phase.Merging?
    requires Bound(net.nodes[r]) && GroupCommitted(net.nodes[r]) == Some(n')
    ensures r in net.world.seen
    ensures Exact(net.world.history, JoinedAll(net.world.seen[r], net.nodes[r].phase.group.list), n'.crdt.entries)
            <==> Settles(net.world.history, net.nodes[r].crdt.vv, net.world.seen[r], net.nodes[r].phase.group.list)
  {
    hide Reachable, RowsOk, MarkerOk, EpochOk, FinalOk, Exact, LogOk, LogRecorded, Sound, EntriesSeen, BasesOk, Settles, JoinedAll, Fits, AllRecorded,
         Completes, ContextsCovered, Tidy, Causal, OwnRefreshed, DepartureObserved;
    ReachableNode(members, net, r);
    CommittedRow(net.nodes[r]);
    MergeExactIffSettles(net.world.history, net.world.seen[r], net.nodes[r].crdt, net.nodes[r].phase.group.list);
  }

  /** A waiting group records what happened, and in causal order it settles. */
  lemma CausalGroupSettles(members: set<Pid>, net: Network, r: Pid)
    requires Reachable(members, net) && r in net.nodes && r in net.world.live && net.nodes[r].phase.Merging?
    ensures r in net.world.seen && AllRecorded(net.world.history, net.nodes[r].phase.group.list)
    ensures GroupOrdered(net.world, r, net.nodes[r])
            ==> Settles(net.world.history, net.nodes[r].crdt.vv, net.world.seen[r], net.nodes[r].phase.group.list)
  {
    hide Reachable, NodeOk, Tidy, Causal, NamesSeen, Fits, AllRecorded, CausallyOrdered, Settles, Closed;
    ReachableNode(members, net, r);
    WaitingFacts(net.world, r, net.nodes[r]);
    if GroupOrdered(net.world, r, net.nodes[r]) {
      CausalOrderSettles(net.world.history, net.nodes[r].crdt.vv, net.world.seen[r], net.nodes[r].phase.group.list);
    }
  }
}

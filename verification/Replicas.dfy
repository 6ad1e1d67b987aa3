/**
 One replica (`src/replica.rs`).

 The HTTP server mutates the CRDT under the commit gate while the replica loop
 handles messages, so a handler that takes the gate is split where it waits for
 it: `Merging` and `Collecting` are the states in which the loop holds a delta
 group or a GC marker it has not committed yet. Client mutations may come in
 between; other loop events may not.
 */
module Replicas {
  import opened Options
  import opened Dots
  import opened DotMaps
  import opened VersionMatrices
  import opened GcWrappers
  import opened OrSets

  datatype Group = Group(list: seq<Delta>, vv: DotSet)

  datatype Message =
    | VersionVector(from: Pid, vv: DotSet)
    | DeltaGroup(group: Group, marker: GcMarker)

  datatype Phase =
    | Idle
    | Merging(group: Group, final: Option<Dot>)
    | Collecting(marker: GcMarker)

  datatype Node = Node(crdt: OrSet, wrapper: Wrapper, phase: Phase)

  ghost predicate Bound(n: Node) {
    HasOwnRow(n.wrapper.matrix)
  }

  /** `refresh_own_version_vector`. */
  function OwnRefreshed(n: Node): Node
    requires Bound(n)
  {
    n.(wrapper := Refreshed(n.wrapper, n.crdt.vv))
  }

  /** `handle_version_vector`: the requester's row is stored, then the own row refreshed. */
  function VectorHandled(n: Node, from: Pid, vv: DotSet): Node
    requires Bound(n)
  {
    OwnRefreshed(n.(wrapper := RowReceived(n.wrapper, from, vv)))
  }

  /** The requester's row is what it sent unless its epoch is older, the own row is the vector under the current epoch, and no other row changes. */
  ghost predicate HandledRows(n: Node, m: Matrix, from: Pid, vv: DotSet)
    requires Bound(n)
  {
    var m0 := n.wrapper.matrix;
    var stored := Get(OwnRow(m0), STABLE_REPLICA_PID) <= Get(vv, STABLE_REPLICA_PID);
    && m.ownPid == m0.ownPid && m.finals == m0.finals
    && m.rows.Keys == m0.rows.Keys + (if stored then {from} else {})
    && (stored ==> m.rows[from] == vv)
    && (forall q: Pid :: q in m.rows[m0.ownPid] <==> q == STABLE_REPLICA_PID || q in n.crdt.vv)
    && (forall q <- m.rows[m0.ownPid] :: m.rows[m0.ownPid][q] == if q == STABLE_REPLICA_PID then Epoch(n.wrapper) else n.crdt.vv[q])
    && (forall p <- m0.rows | p != m0.ownPid && (p == from ==> !stored) :: m.rows[p] == m0.rows[p])
  }

  lemma VectorHandledRows(n: Node, from: Pid, vv: DotSet)
    requires EpochOk(n.wrapper) && from != STABLE_REPLICA_PID && from != n.wrapper.matrix.ownPid
    ensures HandledRows(n, VectorHandled(n, from, vv).wrapper.matrix, from, vv)
  {
  }

  function Answer(n: Node, vv: DotSet, order: seq<Pid>): Group {
    Group(DeltasAfter(n.crdt, vv, order), Stamped(n.wrapper, n.crdt.vv))
  }

  /** `apply_gc_marker`. */
  function MarkerCommitted(n: Node, marker: GcMarker): Node
    requires OwnRowSurvives(n.wrapper.matrix, marker.departed)
  {
    n.(crdt := Collected(n.crdt, marker.stable, marker.departed), wrapper := Pushed(n.wrapper, marker))
  }

  predicate IsNewMarker(n: Node, marker: GcMarker) {
    marker.marker.pid == STABLE_REPLICA_PID && Epoch(n.wrapper) < marker.marker.counter
  }

  /** `observe_gc`. */
  function MarkerObserved(n: Node, marker: GcMarker): Node
    requires IsNewMarker(n, marker) ==> OwnRowSurvives(n.wrapper.matrix, marker.departed)
  {
    if IsNewMarker(n, marker) then MarkerCommitted(n, marker) else n
  }

  predicate Refused(n: Node, group: Group) {
    Get(group.vv, STABLE_REPLICA_PID) < Epoch(n.wrapper)
  }

  /** `handle_delta` up to the commit of the group. */
  function DeltaReceived(n: Node, group: Group, marker: GcMarker): Node
    requires IsNewMarker(n, marker) ==> OwnRowSurvives(n.wrapper.matrix, marker.departed)
  {
    if Refused(n, group) then n else MarkerObserved(n, marker).(phase := Merging(group, None))
  }

  /** The commit of a delta group; `None` when the merge panics. A shutdown payload also records the final dot. */
  function GroupCommitted(n: Node): Option<Node>
    requires Bound(n) && n.phase.Merging?
  {
    var crdt := Merged(n.crdt, n.phase.group.list);
    if crdt.None? then None
    else
      var refreshed := OwnRefreshed(n.(crdt := crdt.value, phase := Idle));
      Some(if n.phase.final.None? then refreshed
           else refreshed.(wrapper := DepartureObserved(refreshed.wrapper, n.phase.final.value)))
  }

  /** `init_gc` up to the commit, once `get_stable` has returned `stable` and `departed`. */
  function GcBegun(n: Node, stable: DotSet, departed: Option<seq<Pid>>): Node
    requires Bound(n)
  {
    OwnRefreshed(n).(phase := Collecting(GcMarker(NextMarker(n.wrapper), stable, departed)))
  }

  ghost predicate GcDue(n: Node, stable: DotSet, departed: Option<seq<Pid>>)
    requires Bound(n)
  {
    && IsStable(OwnRefreshed(n).wrapper.matrix, Some(stable), departed)
    && NeedsGc(OwnRefreshed(n).wrapper, Some(stable), departed)
  }

  function GcCommitted(n: Node): Node
    requires n.phase.Collecting? && OwnRowSurvives(n.wrapper.matrix, n.phase.marker.departed)
  {
    MarkerCommitted(n, n.phase.marker).(phase := Idle)
  }

  /** `write_shutdown_descriptor`: the final dot a leaving replica publishes. */
  function FinalDot(crdt: OrSet, p: Pid): Dot {
    Dot(p, Get(crdt.vv, p))
  }

  /** `merge_shutdown_payload` up to the commit. */
  function PayloadRead(n: Node, payload: OrSet, final: Dot, order: seq<Pid>): Node {
    n.(phase := Merging(Group(DeltasAfter(payload, n.crdt.vv, order), payload.vv), Some(final)))
  }

  /** `with_config` on a recovered state, up to the start of the loop. */
  function Restored(own: Pid, crdt: OrSet, markers: seq<GcMarker>, members: map<Pid, Counter>): Node
    requires own != STABLE_REPLICA_PID && KeepsAll(own, markers)
  {
    Node(crdt.(pid := Some(own)), RestoredWrapper(own, crdt.vv, markers, members), Idle)
  }

  // ---- In place ----

  class Replica {
    const crdt: ORSet
    const crdtWrapper: CRDTWrapper
    var phase: Phase

    ghost function Value(): Node
      reads this, crdt, crdtWrapper, crdtWrapper.versionMatrix
    {
      Node(crdt.Value(), crdtWrapper.Value(), phase)
    }

    constructor (own: Pid)
      ensures Value() == Node(EMPTY.(pid := Some(own)), PidRebound(Wrapper(Created(own), []), own, map[]), Idle)
      ensures fresh(crdt) && fresh(crdtWrapper) && fresh(crdtWrapper.versionMatrix)
    {
      crdt := new ORSet();
      crdtWrapper := new CRDTWrapper(own);
      phase := Idle;
      new;
      crdt.SetPid(own);
      crdtWrapper.RebindOwnPid(own, crdt.versionVector);
    }

    /** `with_config` with a recovered state, and the listing of members that `run` starts with. */
    constructor Restore(own: Pid, recovered: OrSet, markers: seq<GcMarker>, members: map<Pid, Counter>)
      requires own != STABLE_REPLICA_PID && KeepsAll(own, markers)
      ensures Value() == Restored(own, recovered, markers, members)
      ensures phase == Idle && crdtWrapper.gcMarkers == markers
      ensures crdt.pid == Some(own) && crdt.entries == recovered.entries && crdt.deltaLog == recovered.log && crdt.versionVector == recovered.vv
      ensures fresh(crdt) && fresh(crdtWrapper) && fresh(crdtWrapper.versionMatrix)
    {
      crdt := new ORSet.Copied(recovered.(pid := Some(own)));
      crdtWrapper := new CRDTWrapper.Restore(own, recovered.vv, markers, members);
      phase := Idle;
    }

    method RefreshOwnVersionVector() returns (stamped: DotSet)
      requires Bound(Value())
      modifies crdtWrapper, crdtWrapper.versionMatrix
      ensures Value() == OwnRefreshed(old(Value()))
      ensures stamped == Stamped(old(Value()).wrapper, old(Value()).crdt.vv)
    {
      stamped := crdtWrapper.UpdateOwnVersionVector(crdt.versionVector);
    }

    /** `pull_delta`: refreshes the own row and sends it. */
    method PullDelta() returns (request: Message)
      requires Bound(Value()) && Value().crdt.pid.Some?
      modifies crdtWrapper, crdtWrapper.versionMatrix
      ensures Value() == OwnRefreshed(old(Value()))
      ensures request == VersionVector(Value().crdt.pid.value, Stamped(old(Value()).wrapper, Value().crdt.vv))
      ensures request.vv.Keys == crdt.versionVector.Keys + {STABLE_REPLICA_PID} && request.vv[STABLE_REPLICA_PID] == Epoch(Value().wrapper)
      ensures forall q <- request.vv | q != STABLE_REPLICA_PID :: request.vv[q] == crdt.versionVector[q]
    {
      var stamped := RefreshOwnVersionVector();
      request := VersionVector(crdt.pid.value, stamped);
    }

    method HandleVersionVector(from: Pid, vv: DotSet)
      returns (answer: Message, ghost order: seq<Pid>, ghost stable: Option<DotSet>, ghost departed: Option<seq<Pid>>)
      requires Bound(Value())
      modifies crdtWrapper, crdtWrapper.versionMatrix
      ensures Value() == VectorHandled(old(Value()), from, vv) && Bound(Value())
      ensures Enumerates(order, Value().crdt.log.Keys + vv.Keys)
      ensures IsStable(Value().wrapper.matrix, stable, departed)
      ensures answer == DeltaGroup(Answer(old(Value()), vv, order), Metadata(Value().wrapper, stable))
      ensures EpochOk(old(Value()).wrapper) && from != STABLE_REPLICA_PID && from != old(Value()).wrapper.matrix.ownPid ==>
                HandledRows(old(Value()), Value().wrapper.matrix, from, vv)
    {
      hide HandledRows, EpochOk, IsStable, Enumerates, DeltasAfter;
      ghost var n := Value();
      if EpochOk(n.wrapper) && from != STABLE_REPLICA_PID && from != n.wrapper.matrix.ownPid {
        VectorHandledRows(n, from, vv);
      }
      crdtWrapper.versionMatrix.Update(from, vv);
      var list;
      list, order := crdt.GetDelta(vv);
      var stamped := crdtWrapper.UpdateOwnVersionVector(crdt.versionVector);
      var marker;
      marker, stable, departed := crdtWrapper.GcMetadata();
      answer := DeltaGroup(Group(list, stamped), marker);
    }

    method ApplyGcMarker(marker: GcMarker)
      requires OwnRowSurvives(Value().wrapper.matrix, marker.departed)
      modifies crdt, crdtWrapper, crdtWrapper.versionMatrix
      ensures Value() == MarkerCommitted(old(Value()), marker)
    {
      crdt.Gc(marker.stable, marker.departed);
      crdtWrapper.PushGcMarker(marker);
    }

    method ObserveGc(marker: GcMarker)
      requires IsNewMarker(Value(), marker) ==> OwnRowSurvives(Value().wrapper.matrix, marker.departed)
      modifies crdt, crdtWrapper, crdtWrapper.versionMatrix
      ensures Value() == MarkerObserved(old(Value()), marker)
    {
      if marker.marker.pid != STABLE_REPLICA_PID || marker.marker.counter <= Epoch(crdtWrapper.Value()) {
        return;
      }
      ApplyGcMarker(marker);
    }

    method BeginDelta(group: Group, marker: GcMarker)
      requires IsNewMarker(Value(), marker) ==> OwnRowSurvives(Value().wrapper.matrix, marker.departed)
      modifies this, crdt, crdtWrapper, crdtWrapper.versionMatrix
      ensures Value() == DeltaReceived(old(Value()), group, marker)
      ensures Get(group.vv, STABLE_REPLICA_PID) < old(Epoch(Value().wrapper)) ==> Value() == old(Value())
      ensures old(Epoch(Value().wrapper)) <= Get(group.vv, STABLE_REPLICA_PID) ==>
                && phase == Merging(group, None)
                && crdtWrapper.gcMarkers == old(crdtWrapper.gcMarkers) +
                   if marker.marker.pid == STABLE_REPLICA_PID && old(Epoch(Value().wrapper)) < marker.marker.counter then [marker] else []
    {
      if Get(group.vv, STABLE_REPLICA_PID) < Epoch(crdtWrapper.Value()) {
        return;
      }
      ObserveGc(marker);
      phase := Merging(group, None);
    }

    /** `ok` is false when the merge panics. */
    method FinishDelta() returns (ok: bool)
      requires Bound(Value()) && phase.Merging?
      modifies this, crdt, crdtWrapper, crdtWrapper.versionMatrix
      ensures ok <==> GroupCommitted(old(Value())).Some?
      ensures ok ==> GroupCommitted(old(Value())) == Some(Value())
      ensures ok ==> phase == Idle && (old(phase).final.Some? ==>
                     var final := old(phase).final.value;
                     final.pid in Value().wrapper.matrix.finals && Value().wrapper.matrix.finals[final.pid] == final.counter)
    {
      var merging := phase;
      ok := crdt.MergeDeltaGroup(merging.group.list);
      if !ok {
        return;
      }
      phase := Idle;
      var _ := RefreshOwnVersionVector();
      if merging.final.Some? {
        crdtWrapper.ObserveDepartedReplica(merging.final.value);
      }
    }

    /** `init_gc` up to the commit; `due` tells whether a round was started. */
    method BeginGc() returns (due: bool, ghost stable: Option<DotSet>, ghost departed: Option<seq<Pid>>)
      requires Bound(Value())
      modifies this, crdtWrapper, crdtWrapper.versionMatrix
      ensures Bound(OwnRefreshed(old(Value()))) && IsStable(OwnRefreshed(old(Value())).wrapper.matrix, stable, departed)
      ensures due <==> stable.Some? && (departed.Some? || old(crdtWrapper.gcMarkers) == []
                                        || !SameColumns(stable.value, old(crdtWrapper.gcMarkers[|crdtWrapper.gcMarkers| - 1]).stable))
      ensures due ==> stable.Some? && GcDue(old(Value()), stable.value, departed)
      ensures due ==> Value() == GcBegun(old(Value()), stable.value, departed)
      ensures !due ==> Value() == OwnRefreshed(old(Value()))
    {
      hide SameColumns, IsStable, NothingToCollect, EpochOk, NeedsGc;
      var _ := RefreshOwnVersionVector();
      var needed, s, d := crdtWrapper.NeedsGcNow();
      stable, departed := s, d;
      if s.Some? {
        RoundDueIff(crdtWrapper.Value(), s.value, d);
      }
      if !needed || s == None {
        return false, s, d;
      }
      phase := Collecting(GcMarker(NextMarker(crdtWrapper.Value()), s.value, d));
      due := true;
    }

    method FinishGc()
      requires phase.Collecting? && OwnRowSurvives(Value().wrapper.matrix, phase.marker.departed)
      modifies this, crdt, crdtWrapper, crdtWrapper.versionMatrix
      ensures Value() == GcCommitted(old(Value()))
      ensures phase == Idle && crdtWrapper.gcMarkers == old(crdtWrapper.gcMarkers) + [old(phase).marker]
    {
      ApplyGcMarker(phase.marker);
      phase := Idle;
    }

    method ReadShutdownPayload(payload: ORSet, final: Dot) returns (ghost order: seq<Pid>)
      requires payload != crdt
      modifies this
      ensures Enumerates(order, payload.Value().log.Keys + crdt.Value().vv.Keys)
      ensures Value() == PayloadRead(old(Value()), payload.Value(), final, order)
      ensures phase.Merging? && phase.final == Some(final) && phase.group.vv == payload.versionVector
      ensures phase.group.list == DeltasAfter(payload.Value(), crdt.versionVector, order)
    {
      var list;
      list, order := payload.GetDelta(crdt.versionVector);
      phase := Merging(Group(list, payload.versionVector), Some(final));
    }
  }
}

/**
 What a replica journals (`src/journal.rs`, `src/replica.rs`).

 Replay rebuilds the CRDT and the list of GC markers. It does not rebuild peer
 rows or final dots, which are never journaled, so those are not part of the state
 that the journal refines.
 */
module ReplicaJournals {
  import opened Options
  import opened Dots
  import opened VersionMatrices
  import opened GcWrappers
  import opened OrSets
  import opened Replicas
  import opened Networks
  import opened Journals
  import opened ProtocolTheorems
  import V = JournalHistories
  import D = Durability
  import M = JournalScenarios

  datatype Entry = MutationEntry(mutation: Mutation) | GroupEntry(list: seq<Delta>) | MarkerEntry(marker: GcMarker)

  /** `Panicked` is a replica stopped by the contiguity assertion of a merge. */
  datatype Persisted = Panicked | Persisted(crdt: OrSet, markers: seq<GcMarker>)

  function Replayed(s: Persisted, entry: Entry): Persisted {
    match s
    case Panicked => Panicked
    case Persisted(crdt, markers) =>
      match entry
      case MutationEntry(m) => Persisted(Mutated(crdt, m), markers)
      case GroupEntry(list) =>
        var merged := Merged(crdt, list);
        if merged.None? then Panicked else Persisted(merged.value, markers)
      case MarkerEntry(marker) => Persisted(Collected(crdt, marker.stable, marker.departed), markers + [marker])
  }

  function Kept(n: Node): Persisted {
    Persisted(n.crdt, n.wrapper.markers)
  }

  /** What a step makes replica `r` append to its journal; a shutdown payload with nothing new is not journaled. */
  ghost function JournalOf(net: Network, step: Step, r: Pid): seq<Entry>
    requires Enabled(net, step)
  {
    var n := net.nodes[step.r];
    if step.r != r then []
    else
      match step
      case Mutates(_, m) => [MutationEntry(m)]
      case Receives(_, group, marker) => if !Refused(n, group) && IsNewMarker(n, marker) then [MarkerEntry(marker)] else []
      case CommitsGroup(_) => if n.phase.final.Some? && n.phase.group.list == [] then [] else [GroupEntry(n.phase.group.list)]
      case CommitsGc(_) => [MarkerEntry(n.phase.marker)]
      case _ => []
  }

  ghost function RunJournal(net: Network, steps: seq<Step>, r: Pid): seq<Entry>
    requires IsRun(net, steps)
    decreases |steps|
  {
    if steps == [] then [] else JournalOf(net, steps[0], r) + RunJournal(After(net, steps[0]), steps[1..], r)
  }

  lemma ApplyOne(state: Persisted, entries: seq<Entry>)
    requires |entries| <= 1
    ensures D.ApplyAll(Replayed, state, entries) == if entries == [] then state else Replayed(state, entries[0])
  {
    if entries != [] {
      assert entries[..0] == [];
      assert D.ApplyAll(Replayed, state, []) == state;
    }
  }

  /** A step changes what is kept of a replica exactly as replaying its journal entries does. */
  lemma StepReplays(net: Network, step: Step, r: Pid)
    requires Enabled(net, step) && r in net.nodes
    ensures D.ApplyAll(Replayed, Kept(net.nodes[r]), JournalOf(net, step, r)) == Kept(After(net, step).nodes[r])
  {
    ApplyOne(Kept(net.nodes[r]), JournalOf(net, step, r));
    hide D.ApplyAll, IsStable, Enumerates, OwnRowSurvives, GcDue;
  }

  lemma {:induction false} RunReplays(net: Network, steps: seq<Step>, r: Pid)
    requires IsRun(net, steps) && r in net.nodes
    ensures r in EndOf(net, steps).nodes
    ensures D.ApplyAll(Replayed, Kept(net.nodes[r]), RunJournal(net, steps, r)) == Kept(EndOf(net, steps).nodes[r])
    decreases |steps|
  {
    if steps != [] {
      StepReplays(net, steps[0], r);
      RunReplays(After(net, steps[0]), steps[1..], r);
      D.ApplyAllConcat(Replayed, Kept(net.nodes[r]), JournalOf(net, steps[0], r), RunJournal(After(net, steps[0]), steps[1..], r));
    }
  }

  /** Replay rebuilds the live replica: over every run of the network, what a replica journals replays to what it holds. */
  lemma ReplayIsLive(members: set<Pid>, steps: seq<Step>, r: Pid)
    requires IsRun(Start(members), steps) && r in members
    ensures r in EndOf(Start(members), steps).nodes
    ensures D.ApplyAll(Replayed, Kept(FirstNode(r, members)), RunJournal(Start(members), steps, r))
            == Kept(EndOf(Start(members), steps).nodes[r])
  {
    RunReplays(Start(members), steps, r);
  }

  /** What the replica applied is what it journaled in a run of the network, and nothing was installed. */
  ghost predicate Mirrors(members: set<Pid>, steps: seq<Step>, r: Pid, sys: D.System<Persisted, Entry>)
    requires IsRun(Start(members), steps)
  {
    var live := V.ViewOf(Kept(FirstNode(r, members)), sys.history).live;
    live.base == Kept(FirstNode(r, members)) && D.Records(live.items) == RunJournal(Start(members), steps, r)
  }

  /** Every run of the network has a run of the commit machine that mirrors it, and there recovery gives what the replica holds. */
  lemma EveryRunIsMirrored(members: set<Pid>, steps: seq<Step>, r: Pid) returns (sys: D.System<Persisted, Entry>)
    requires IsRun(Start(members), steps) && r in members
    ensures D.Reached(Replayed, Kept(FirstNode(r, members)), sys) && sys.proc.Up? && sys.proc.gate.None? && Mirrors(members, steps, r, sys)
    ensures V.NothingFailed(sys.history) && D.HasSnapshot(sys.history)
    ensures r in EndOf(Start(members), steps).nodes && Recover(Replayed, sys.disk).Recovered?
    ensures Recover(Replayed, sys.disk).state == Kept(EndOf(Start(members), steps).nodes[r])
  {
    hide IsRun, EndOf, RunJournal, Replayed, Start, Kept, FirstNode, D.Reached, D.ApplyAll, V.ViewOf, V.NothingFailed;
    var init := Kept(FirstNode(r, members));
    var d, h := M.CommittingAll(Replayed, init, RunJournal(Start(members), steps, r));
    sys := M.Quiet(d, 1, D.ApplyAll(Replayed, init, RunJournal(Start(members), steps, r)), h);
    ReplayIsLive(members, steps, r);
    D.CrashSafety(Replayed, init, sys);
    D.LiveIsRefined(Replayed, init, sys);
  }

  /**
   Crash recovery of a networked replica: whatever disk steps, failures, compactions,
   crashes and repairs lie between, the live state of a mirroring run is what the replica
   holds. Recovery gives the same, or that with the one event in flight, if nothing has
   failed since the log was last cleared; otherwise the records it rebuilds are not the
   ones the replica took in.
   */
  lemma RecoversReplica(members: set<Pid>, steps: seq<Step>, r: Pid, sys: D.System<Persisted, Entry>, end: Network)
    requires IsRun(Start(members), steps) && EndOf(Start(members), steps) == end && r in members
    requires D.Reached(Replayed, Kept(FirstNode(r, members)), sys) && sys.proc.Up? && D.HasSnapshot(sys.history)
    requires Mirrors(members, steps, r, sys)
    ensures r in end.nodes && sys.proc.live == Kept(end.nodes[r]) && Recover(Replayed, sys.disk).Recovered?
    ensures var recovered := Recover(Replayed, sys.disk).state;
            V.NothingFailed(D.Finished(sys)) ==>
              if !D.InFlight(sys) then recovered == Kept(end.nodes[r])
              else
                var last := sys.history[|sys.history| - 1];
                if last.Installed? then recovered == last.state
                else recovered == Kept(end.nodes[r]) || (last.Wrote? && recovered == Replayed(Kept(end.nodes[r]), last.record))
    ensures !V.NothingFailed(D.Finished(sys)) ==>
              V.ViewOf(Kept(FirstNode(r, members)), D.Finished(sys)).kept != V.ViewOf(Kept(FirstNode(r, members)), sys.history).live
  {
    hide IsRun, EndOf, RunJournal, Replayed, Start, Kept, FirstNode, D.Reached, D.ApplyAll, V.ViewOf, V.NothingFailed, Recover, D.HasSnapshot;
    var init := Kept(FirstNode(r, members));
    ReplayIsLive(members, steps, r);
    D.CrashSafety(Replayed, init, sys);
    D.LiveIsRefined(Replayed, init, sys);
    if D.InFlight(sys) {
      InFlightEffect(init, sys.history);
    }
  }

  lemma InFlightEffect(init: Persisted, h: V.History<Persisted, Entry>)
    requires h != []
    ensures var n := |h| - 1;
            var before := V.ViewOf(init, h[..n]).kept;
            var after := D.StateOf(Replayed, V.ViewOf(init, h).kept);
            && (h[n].Installed? ==> after == h[n].state)
            && (h[n].Wrote? ==> after == D.StateOf(Replayed, before) || after == Replayed(D.StateOf(Replayed, before), h[n].record))
  {
    var n := |h| - 1;
    var v := V.ViewOf(init, h[..n]);
    hide Replayed;
    if h[n].Installed? {
      D.InstalledState(Replayed, h[n].state);
    }
    if h[n].Wrote? {
      D.StatePlus(Replayed, v.kept, n, h[n].record);
    }
  }

  /** A restart in the network is what recovery and the startup after it make of the files. */
  lemma RestartIsRecovery(net: Network, r: Pid, listed: map<Pid, Counter>, recovered: Persisted)
    requires Enabled(net, Restarts(r, listed)) && recovered == Kept(net.nodes[r])
    ensures KeepsAll(r, recovered.markers) && After(net, Restarts(r, listed)).nodes[r] == Restored(r, recovered.crdt, recovered.markers, listed)
    ensures Kept(After(net, Restarts(r, listed)).nodes[r]) == recovered
  {
    hide RestoredWrapper, Bound, KeepsAll;
    RestoredIs(r, net.nodes[r].crdt.vv, net.nodes[r].wrapper.markers, listed);
  }

  // ---- A failed sync renumbers mutations ----

  function Alone(): Persisted {
    Persisted(EMPTY.(pid := Some(1)), [])
  }

  lemma TwoInsertions(x: Element, y: Element)
    ensures var live := Replayed(Alone(), MutationEntry(InsertElement(y)));
            live.Persisted? && live.crdt.log == map[1 := [(Dot(1, 0), Delta(Dot(1, 0), Insertion(y)))]]
    ensures var rebuilt := Replayed(Replayed(Alone(), MutationEntry(InsertElement(x))), MutationEntry(InsertElement(y)));
            rebuilt.Persisted? && rebuilt.crdt.log ==
              map[1 := [(Dot(1, 0), Delta(Dot(1, 0), Insertion(x))), (Dot(1, 1), Delta(Dot(1, 1), Insertion(y)))]]
  {
    var dx, dy := (Dot(1, 0), Delta(Dot(1, 0), Insertion(x))), (Dot(1, 1), Delta(Dot(1, 1), Insertion(y)));
    assert [dx] + [dy] == [dx, dy];
    var none: seq<(Dot, Delta)> := [];
    assert none + [(Dot(1, 0), Delta(Dot(1, 0), Insertion(y)))] == [(Dot(1, 0), Delta(Dot(1, 0), Insertion(y)))];
    assert none + [dx] == [dx];
  }

  /**
   After a failed sync the recovered replica has another delta under a dot that peers
   may already hold: the insertion of `x`, which no client was told about, takes the dot
   under which the insertion of `y` was acknowledged and sent.
   */
  lemma FailedSyncRenumbers(x: Element, y: Element) returns (sys: D.System<Persisted, Entry>)
    requires x != y
    ensures D.Reached(Replayed, Alone(), sys) && sys.proc.Up? && sys.proc.live.Persisted?
    ensures sys.proc.live.crdt.log == map[1 := [(Dot(1, 0), Delta(Dot(1, 0), Insertion(y)))]]
    ensures Recover(Replayed, sys.disk).Recovered? && Recover(Replayed, sys.disk).state.Persisted?
    ensures Recover(Replayed, sys.disk).state.crdt.log ==
            map[1 := [(Dot(1, 0), Delta(Dot(1, 0), Insertion(x))), (Dot(1, 1), Delta(Dot(1, 1), Insertion(y)))]]
  {
    hide Replayed, D.Reached, Recover;
    sys := M.FailedSyncIsReplayed(Replayed, Alone(), MutationEntry(InsertElement(x)), MutationEntry(InsertElement(y)));
    TwoInsertions(x, y);
  }

  /** The group that trips the contiguity assertion is journaled first, so every recovery trips it again. */
  lemma {:induction false} PanicIsDurable(n: Node, later: seq<Entry>)
    requires Bound(n) && n.phase.Merging? && GroupCommitted(n).None?
    ensures D.ApplyAll(Replayed, Kept(n), [GroupEntry(n.phase.group.list)] + later) == Panicked
  {
    var first := GroupEntry(n.phase.group.list);
    var all := [first] + later;
    if later == [] {
      assert all == [first];
      ApplyOne(Kept(n), [first]);
    } else {
      assert all[..|all| - 1] == [first] + later[..|later| - 1];
      PanicIsDurable(n, later[..|later| - 1]);
    }
  }
}

/**
 The inductive invariant of the protocol.

 Everything is stated against the history variables: no row, frontier or lower
 log bound exceeds what the replicas concerned have really seen. That survives
 growth of the world, so a step has to be checked only for the replica it moves
 and the message it sends.
 */
module NetworkInvariants {
  import opened Options
  import opened Dots
  import opened DotMaps
  import opened VersionMatrices
  import opened GcWrappers
  import opened OrSets
  import opened Histories
  import opened Replicas
  import opened Networks

  // ---- The world ----

  ghost predicate RealDots(h: History, vv: DotSet) {
    Within(h, vv) && forall p <- vv :: 0 <= vv[p]
  }

  /** Every live replica has seen all mutations of `p`, and `p` makes no more of them. */
  ghost predicate SeenByAll(w: World, p: Pid) {
    && p in w.history && p !in w.live
    && forall s <- w.live :: s in w.seen && Get(w.seen[s], p) == |w.history[p]| - 1
  }

  ghost predicate Tidy(w: World) {
    && w.seen.Keys == w.history.Keys && w.live <= w.history.Keys && NoEpochPid(w.history)
    && (forall r <- w.seen :: RealDots(w.history, w.seen[r]) && Get(w.seen[r], r) == |w.history[r]| - 1)
    && (forall p <- w.erased :: SeenByAll(w, p))
  }

  ghost predicate ContextsWithin(h: History) {
    forall dot: Dot | Happened(h, dot) :: RealDots(h, At(h, dot).context)
  }

  ghost predicate Causal(w: World) {
    && NamesSeen(w.history) && ContextsWithin(w.history)
    && (forall r <- w.seen :: Closed(w.history, w.seen[r]))
    && (w.settled ==> RemovalsComplete(w.history))
  }

  // ---- Markers, groups and messages ----

  ghost predicate FrontierOk(w: World, frontier: DotSet) {
    forall s <- w.live :: s in w.seen && Leq(frontier, w.seen[s])
  }

  /** Markers carry dots of pid 0, counted from the initial epoch. */
  ghost predicate EpochDot(dot: Dot) {
    dot.pid == STABLE_REPLICA_PID && INITIAL_GC_COUNTER <= dot.counter
  }

  ghost predicate MarkerOk(w: World, marker: GcMarker) {
    EpochDot(marker.marker) && FrontierOk(w, marker.stable) && Announced(marker.departed) <= w.erased
  }

  /** What is missing up to `target` is in the list. */
  ghost predicate Completes(seen: DotSet, list: seq<Delta>, target: DotSet) {
    forall q: Pid | q != STABLE_REPLICA_PID ::
      Get(target, q) <= Get(seen, q) || exists i | 0 <= i < |list| :: list[i].dot == Dot(q, Get(target, q))
  }

  ghost predicate ContextsCovered(h: History, seen: DotSet, list: seq<Delta>, target: DotSet)
    requires AllRecorded(h, list)
  {
    forall i, q: Pid | 0 <= i < |list| && q != STABLE_REPLICA_PID ::
      Get(At(h, list[i].dot).context, q) <= Get(target, q) || Get(At(h, list[i].dot).context, q) <= Get(seen, q)
  }

  ghost predicate GroupOk(w: World, dest: Pid, g: Group) {
    && dest in w.seen && AllRecorded(w.history, g.list) && InRuns(DotsOf(g.list))
    && (forall i | 0 <= i < |g.list| :: Contains(g.vv, g.list[i].dot))
    && (dest in w.live ==>
          && Fits(w.seen[dest], g.list)
          && Completes(w.seen[dest], g.list, g.vv)
          && ContextsCovered(w.history, w.seen[dest], g.list, g.vv))
  }

  ghost predicate EnvelopeOk(w: World, env: Envelope) {
    match env.message
    case VersionVector(from, vv) => env.dest != from && from in w.seen && Leq(vv, w.seen[from])
    case DeltaGroup(group, marker) => GroupOk(w, env.dest, group) && MarkerOk(w, marker)
  }

  // ---- Replicas ----

  /** The version vector is what the replica has seen, except for forgotten columns. */
  ghost predicate Tracks(vv: DotSet, seen: DotSet, erased: set<Pid>) {
    && (forall p <- vv :: p in seen && vv[p] <= seen[p] && (p !in erased ==> vv[p] == seen[p]))
    && (forall p <- seen :: p in vv || p in erased)
  }

  ghost predicate EntriesSeen(entries: map<Element, seq<Dot>>, seen: DotSet) {
    forall e, dot | InEntries(entries, e, dot) :: Contains(seen, dot)
  }

  ghost predicate LogRecorded(h: History, s: OrSet) {
    forall p <- s.log, i | 0 <= i < |s.log[p]| :: Records(h, s.log[p][i].1)
  }

  ghost predicate SetOk(h: History, seen: DotSet, erased: set<Pid>, s: OrSet) {
    && LogOk(s) && LogRecorded(h, s) && Sound(h, s)
    && EntriesSeen(s.entries, seen) && Tracks(s.vv, seen, erased)
  }

  /** No log starts later than any live replica needs. */
  ghost predicate BasesOk(w: World, s: OrSet) {
    forall r <- w.live :: r in w.seen && BaseBelow(s, w.seen[r])
  }

  ghost predicate BaseBelow(s: OrSet, vv: DotSet) {
    forall q: Pid :: Base(s.log, s.vv, q) <= Get(vv, q)
  }

  ghost predicate CrdtOk(w: World, r: Pid, s: OrSet) {
    && r in w.seen && s.pid == Some(r) && Get(s.vv, r) == Get(w.seen[r], r)
    && SetOk(w.history, w.seen[r], w.erased, s) && BasesOk(w, s)
    && (w.settled ==> Exact(w.history, w.seen[r], s.entries))
  }

  ghost predicate RowsOk(w: World, m: Matrix) {
    && w.live <= m.rows.Keys
    && (forall p <- m.rows | p != STABLE_REPLICA_PID :: p in w.seen && Leq(m.rows[p], w.seen[p]))
    && (STABLE_REPLICA_PID in m.rows ==> FrontierOk(w, m.rows[STABLE_REPLICA_PID]))
    && (forall p <- m.finals :: p in w.history && p !in w.live && m.finals[p] == |w.history[p]| - 1)
  }

  ghost predicate WrapperOk(w: World, r: Pid, wr: Wrapper) {
    && EpochOk(wr) && wr.matrix.ownPid == r && RowsOk(w, wr.matrix)
    && (forall i | 0 <= i < |wr.markers| :: MarkerOk(w, wr.markers[i]))
  }

  /** A group read from a shutdown payload aims at everything the leaver has seen. */
  ghost predicate FinalOk(w: World, g: Group, final: Dot) {
    && final.pid in w.seen && final.pid in w.history && final.pid !in w.live
    && final.counter == |w.history[final.pid]| - 1
    && forall q: Pid | q != STABLE_REPLICA_PID && q !in w.erased :: Get(w.seen[final.pid], q) <= Get(g.vv, q)
  }

  ghost predicate PhaseOk(w: World, r: Pid, phase: Phase) {
    match phase
    case Idle => true
    case Merging(g, final) => GroupOk(w, r, g) && (final.Some? ==> FinalOk(w, g, final.value))
    case Collecting(m) => EpochDot(m.marker) && FrontierOk(w, m.stable) && forall p <- Announced(m.departed) :: SeenByAll(w, p)
  }

  ghost predicate NodeOk(w: World, r: Pid, n: Node) {
    CrdtOk(w, r, n.crdt) && WrapperOk(w, r, n.wrapper) && PhaseOk(w, r, n.phase)
  }

  ghost predicate Inv(net: Network) {
    && Tidy(net.world) && Causal(net.world)
    && net.nodes.Keys == net.world.seen.Keys
    && (forall r <- net.nodes :: NodeOk(net.world, r, net.nodes[r]))
    && (forall env <- net.bag :: EnvelopeOk(net.world, env))
  }

  // ---- Growth ----

  ghost predicate Grows(w: World, w': World) {
    && Extends(w.history, w'.history) && w.seen.Keys == w'.seen.Keys
    && w'.live <= w.live && w.erased <= w'.erased && (w'.settled ==> w.settled)
    && (forall p <- w.history | p !in w.live :: w'.history[p] == w.history[p])
    && (forall r <- w.seen, p: Pid :: Get(w.seen[r], p) <= Get(w'.seen[r], p))
    && (forall r <- w.seen | r !in w.live :: w'.seen[r] == w.seen[r])
  }

  lemma LeqGrows(w: World, w': World, vv: DotSet, r: Pid)
    requires Grows(w, w') && r in w.seen && Leq(vv, w.seen[r])
    ensures Leq(vv, w'.seen[r])
  {
    forall p: Pid | p != STABLE_REPLICA_PID ensures Get(vv, p) <= Get(w'.seen[r], p) {
      assert Get(vv, p) <= Get(w.seen[r], p) <= Get(w'.seen[r], p);
    }
  }

  lemma FrontierGrows(w: World, w': World, frontier: DotSet)
    requires Grows(w, w') && FrontierOk(w, frontier)
    ensures FrontierOk(w', frontier)
  {
    forall s <- w'.live ensures s in w'.seen && Leq(frontier, w'.seen[s]) {
      LeqGrows(w, w', frontier, s);
    }
  }

  lemma SeenByAllGrows(w: World, w': World, p: Pid)
    requires Grows(w, w') && Tidy(w') && SeenByAll(w, p)
    ensures SeenByAll(w', p)
  {
    forall s <- w'.live ensures s in w'.seen && Get(w'.seen[s], p) == |w'.history[p]| - 1 {
      assert s in w.live;
      assert Get(w.seen[s], p) <= Get(w'.seen[s], p);
      assert RealDots(w'.history, w'.seen[s]);
    }
  }

  lemma RecordedGrows(h: History, h': History, list: seq<Delta>)
    requires Extends(h, h') && AllRecorded(h, list)
    ensures AllRecorded(h', list)
    ensures forall i | 0 <= i < |list| :: At(h', list[i].dot) == At(h, list[i].dot)
  {
    forall i | 0 <= i < |list| ensures Records(h', list[i]) && At(h', list[i].dot) == At(h, list[i].dot) {
      assert Records(h, list[i]);
    }
  }

  lemma FitsGrows(seen: DotSet, seen': DotSet, list: seq<Delta>)
    requires Fits(seen, list) && forall p: Pid :: Get(seen, p) <= Get(seen', p)
    ensures Fits(seen', list)
  {
  }

  lemma GroupGrows(w: World, w': World, dest: Pid, g: Group)
    requires Grows(w, w') && GroupOk(w, dest, g)
    ensures GroupOk(w', dest, g)
  {
    RecordedGrows(w.history, w'.history, g.list);
    if dest in w'.live {
      var seen, seen' := w.seen[dest], w'.seen[dest];
      assert forall p: Pid :: Get(seen, p) <= Get(seen', p);
      FitsGrows(seen, seen', g.list);
      forall q: Pid | q != STABLE_REPLICA_PID
        ensures Get(g.vv, q) <= Get(seen', q) || exists i | 0 <= i < |g.list| :: g.list[i].dot == Dot(q, Get(g.vv, q))
      {
        assert Get(seen, q) <= Get(seen', q);
      }
      assert ContextsCovered(w'.history, seen', g.list, g.vv);
    }
  }

  lemma MarkerGrows(w: World, w': World, marker: GcMarker)
    requires Grows(w, w') && MarkerOk(w, marker)
    ensures MarkerOk(w', marker)
  {
    FrontierGrows(w, w', marker.stable);
  }

  lemma EnvelopeGrows(w: World, w': World, env: Envelope)
    requires Grows(w, w') && EnvelopeOk(w, env)
    ensures EnvelopeOk(w', env)
  {
    match env.message
    case VersionVector(from, vv) => LeqGrows(w, w', vv, from);
    case DeltaGroup(group, marker) => GroupGrows(w, w', env.dest, group); MarkerGrows(w, w', marker);
  }

  lemma SetGrows(h: History, h': History, seen: DotSet, erased: set<Pid>, erased': set<Pid>, s: OrSet)
    requires Extends(h, h') && erased <= erased' && SetOk(h, seen, erased, s)
    ensures SetOk(h', seen, erased', s)
  {
    forall p <- s.log, i | 0 <= i < |s.log[p]| ensures Records(h', s.log[p][i].1) {
      assert Records(h, s.log[p][i].1);
    }
    forall e, dot | InEntries(s.entries, e, dot) ensures Happened(h', dot) && At(h', dot).change == Insertion(e) {
      assert Happened(h, dot);
    }
  }

  lemma BasesGrow(w: World, w': World, s: OrSet)
    requires Grows(w, w') && BasesOk(w, s)
    ensures BasesOk(w', s)
  {
    forall r <- w'.live ensures r in w'.seen && BaseBelow(s, w'.seen[r]) {
      forall q: Pid ensures Base(s.log, s.vv, q) <= Get(w'.seen[r], q) {
        assert Get(w.seen[r], q) <= Get(w'.seen[r], q);
      }
    }
  }

  lemma CrdtGrows(w: World, w': World, r: Pid, s: OrSet)
    requires Grows(w, w') && Tidy(w) && CrdtOk(w, r, s) && w'.seen[r] == w.seen[r]
    ensures CrdtOk(w', r, s)
  {
    SetGrows(w.history, w'.history, w.seen[r], w.erased, w'.erased, s);
    BasesGrow(w, w', s);
    if w'.settled {
      assert RealDots(w.history, w.seen[r]);
      ExactExtends(w.history, w'.history, w.seen[r], s.entries);
    }
  }

  lemma WrapperGrows(w: World, w': World, r: Pid, wr: Wrapper)
    requires Grows(w, w') && WrapperOk(w, r, wr)
    ensures WrapperOk(w', r, wr)
  {
    var m := wr.matrix;
    forall p <- m.rows | p != STABLE_REPLICA_PID ensures p in w'.seen && Leq(m.rows[p], w'.seen[p]) {
      LeqGrows(w, w', m.rows[p], p);
    }
    if STABLE_REPLICA_PID in m.rows {
      FrontierGrows(w, w', m.rows[STABLE_REPLICA_PID]);
    }
    forall i | 0 <= i < |wr.markers| ensures MarkerOk(w', wr.markers[i]) {
      MarkerGrows(w, w', wr.markers[i]);
    }
  }

  lemma PhaseGrows(w: World, w': World, r: Pid, phase: Phase)
    requires Grows(w, w') && Tidy(w') && PhaseOk(w, r, phase)
    ensures PhaseOk(w', r, phase)
  {
    match phase
    case Idle =>
    case Merging(g, final) => GroupGrows(w, w', r, g);
    case Collecting(m) =>
      FrontierGrows(w, w', m.stable);
      forall p <- Announced(m.departed) ensures SeenByAll(w', p) {
        SeenByAllGrows(w, w', p);
      }
  }

  /** A step has to be checked only for the replica it moves and the messages it sends. */
  lemma InvFrame(net: Network, net': Network, r: Pid)
    requires Inv(net) && r in net.nodes && net'.nodes.Keys == net.nodes.Keys
    requires Grows(net.world, net'.world) && Tidy(net'.world) && Causal(net'.world)
    requires forall s <- net.nodes | s != r :: net'.nodes[s] == net.nodes[s] && net'.world.seen[s] == net.world.seen[s]
    requires NodeOk(net'.world, r, net'.nodes[r])
    requires forall env <- net'.bag :: env in net.bag || EnvelopeOk(net'.world, env)
    ensures Inv(net')
  {
    var w, w' := net.world, net'.world;
    forall s <- net'.nodes ensures NodeOk(w', s, net'.nodes[s]) {
      if s != r {
        assert NodeOk(w, s, net.nodes[s]);
        CrdtGrows(w, w', s, net.nodes[s].crdt);
        WrapperGrows(w, w', s, net.nodes[s].wrapper);
        PhaseGrows(w, w', s, net.nodes[s].phase);
      }
    }
    forall env <- net'.bag ensures EnvelopeOk(w', env) {
      if env in net.bag {
        EnvelopeGrows(w, w', env);
      }
    }
  }
}

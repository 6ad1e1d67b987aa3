/** Every step of the protocol keeps the invariant. */
module NetworkSteps {
  import opened Options
  import opened Dots
  import opened DotMaps
  import opened VersionMatrices
  import opened GcWrappers
  import opened OrSets
  import opened Histories
  import opened Replicas
  import opened Networks
  import opened NetworkInvariants

  // ---- Own row, peer rows, discovery ----

  lemma TracksLeq(vv: DotSet, seen: DotSet, erased: set<Pid>, h: History)
    requires Tracks(vv, seen, erased) && RealDots(h, seen)
    ensures forall p: Pid :: Get(vv, p) <= Get(seen, p)
    ensures forall p: Pid | p !in erased :: Get(vv, p) == Get(seen, p)
  {
  }

  lemma RowPut(w: World, r: Pid, wr: Wrapper, p: Pid, vv: DotSet)
    requires WrapperOk(w, r, wr) && p in w.seen && p != STABLE_REPLICA_PID && Leq(vv, w.seen[p])
    ensures RowsOk(w, Updated(wr.matrix, p, vv))
  {
  }

  lemma StampedLeq(wr: Wrapper, vv: DotSet, seen: DotSet)
    requires forall p: Pid :: Get(vv, p) <= Get(seen, p)
    ensures Leq(Stamped(wr, vv), seen)
  {
    forall p: Pid | p != STABLE_REPLICA_PID ensures Get(Stamped(wr, vv), p) <= Get(seen, p) {
      assert Get(Stamped(wr, vv), p) == Get(vv, p);
    }
  }

  lemma RefreshOk(w: World, r: Pid, wr: Wrapper, s: OrSet)
    requires Tidy(w) && CrdtOk(w, r, s) && WrapperOk(w, r, wr)
    ensures WrapperOk(w, r, Refreshed(wr, s.vv)) && Leq(Stamped(wr, s.vv), w.seen[r])
    ensures OwnRow(Refreshed(wr, s.vv).matrix) == Stamped(wr, s.vv)
  {
    TracksLeq(s.vv, w.seen[r], w.erased, w.history);
    StampedLeq(wr, s.vv, w.seen[r]);
    RowPut(w, r, wr, r, Stamped(wr, s.vv));
    RowsKeepEpoch(wr, r, s.vv);
  }

  lemma RowReceivedOk(w: World, r: Pid, wr: Wrapper, from: Pid, vv: DotSet)
    requires Tidy(w) && WrapperOk(w, r, wr) && from in w.seen && from != r && Leq(vv, w.seen[from])
    ensures WrapperOk(w, r, RowReceived(wr, from, vv))
  {
    RowPut(w, r, wr, from, vv);
    RowsKeepEpoch(wr, from, vv);
  }

  lemma DiscoveredRowsOk(w: World, m: Matrix, p: Pid, gcCounter: Counter)
    requires Tidy(w) && RowsOk(w, m) && p in w.seen
    ensures RowsOk(w, Discovered(m, p, gcCounter))
  {
    hide Leq, FrontierOk, RealDots, SeenByAll;
    assert RealDots(w.history, w.seen[p]);
    FreshRowLeq(w.history, p, gcCounter, w.seen[p]);
  }

  lemma FreshRowLeq(h: History, p: Pid, gcCounter: Counter, seen: DotSet)
    requires RealDots(h, seen)
    ensures Leq(map[p := -1][STABLE_REPLICA_PID := gcCounter], seen)
  {
    forall q: Pid | q != STABLE_REPLICA_PID ensures Get(map[p := -1][STABLE_REPLICA_PID := gcCounter], q) <= Get(seen, q) {
      assert Get(map[p := -1][STABLE_REPLICA_PID := gcCounter], q) == -1;
    }
  }

  lemma DiscoveredEpochOk(wr: Wrapper, p: Pid, gcCounter: Counter)
    requires EpochOk(wr)
    ensures EpochOk(ActiveObserved(wr, p, gcCounter))
  {
  }

  lemma DiscoveredOk(w: World, r: Pid, wr: Wrapper, p: Pid, gcCounter: Counter)
    requires Tidy(w) && WrapperOk(w, r, wr) && p in w.seen && p != r
    ensures WrapperOk(w, r, ActiveObserved(wr, p, gcCounter))
  {
    DiscoveredRowsOk(w, wr.matrix, p, gcCounter);
    DiscoveredEpochOk(wr, p, gcCounter);
    hide RowsOk, EpochOk, MarkerOk, Tidy;
  }

  // ---- The frontier is behind every live replica ----

  lemma StableOk(w: World, r: Pid, wr: Wrapper, stable: DotSet, departed: Option<seq<Pid>>)
    requires Tidy(w) && WrapperOk(w, r, wr) && IsStable(wr.matrix, Some(stable), departed)
    ensures FrontierOk(w, stable)
    ensures forall p <- Announced(departed) :: SeenByAll(w, p)
  {
    forall s <- w.live ensures s in w.seen && Leq(stable, w.seen[s]) {
      StableBelow(w, r, wr, stable, departed, s);
    }
    forall p <- Announced(departed) ensures SeenByAll(w, p) {
      RetirableSeen(w, wr.matrix, p);
    }
  }

  lemma StableBelow(w: World, r: Pid, wr: Wrapper, stable: DotSet, departed: Option<seq<Pid>>, s: Pid)
    requires Tidy(w) && WrapperOk(w, r, wr) && IsStable(wr.matrix, Some(stable), departed) && s in w.live
    ensures s in w.seen && Leq(stable, w.seen[s])
  {
    var m := wr.matrix;
    assert s in Observers(m);
    assert RealDots(w.history, w.seen[s]);
    forall q: Pid | q != STABLE_REPLICA_PID ensures Get(stable, q) <= Get(w.seen[s], q) {
      if q in stable {
        assert IsColumnMin(m, Observers(m), q, stable[q]);
        assert Get(m.rows[s], q) <= Get(w.seen[s], q);
      }
    }
  }

  lemma RetirableSeen(w: World, m: Matrix, p: Pid)
    requires Tidy(w) && RowsOk(w, m) && p in Retirable(m)
    ensures SeenByAll(w, p)
  {
    forall s <- w.live ensures s in w.seen && Get(w.seen[s], p) == |w.history[p]| - 1 {
      assert RealDots(w.history, w.seen[s]);
      assert Leq(m.rows[STABLE_REPLICA_PID], w.seen[s]);
      assert Get(m.rows[STABLE_REPLICA_PID], p) <= Get(w.seen[s], p);
    }
  }

  // ---- Committing a marker ----

  lemma CollectedLogRecorded(h: History, s: OrSet, frontier: DotSet, departed: Option<seq<Pid>>)
    requires LogOk(s) && LogRecorded(h, s)
    ensures LogRecorded(h, Collected(s, frontier, departed))
  {
    var gone := Announced(departed);
    var log: DotMap<Delta> := Collected(s, frontier, departed).log;
    RetainShape(s.log, s.vv, frontier, gone, Needed(frontier, gone));
    forall p <- log, i | 0 <= i < |log[p]| ensures Records(h, log[p][i].1) {
      var k := |s.log[p]| - |log[p]|;
      assert log[p][i] == s.log[p][k + i];
    }
  }

  lemma CollectedTracks(vv: DotSet, seen: DotSet, erased: set<Pid>, gone: set<Pid>)
    requires Tracks(vv, seen, erased)
    ensures Tracks(vv - gone, seen, erased + gone)
  {
  }

  lemma CollectedSetOk(h: History, seen: DotSet, erased: set<Pid>, s: OrSet, frontier: DotSet, departed: Option<seq<Pid>>)
    requires SetOk(h, seen, erased, s)
    ensures SetOk(h, seen, erased + Announced(departed), Collected(s, frontier, departed))
  {
    CollectedOk(s, frontier, departed);
    CollectedLogRecorded(h, s, frontier, departed);
    CollectedTracks(s.vv, seen, erased, Announced(departed));
  }

  lemma CollectedBase(s: OrSet, frontier: DotSet, departed: Option<seq<Pid>>, vv: DotSet)
    requires LogOk(s) && STABLE_REPLICA_PID !in s.vv
    requires BaseBelow(s, vv) && Leq(frontier, vv) && forall p <- vv :: -1 <= vv[p]
    ensures BaseBelow(Collected(s, frontier, departed), vv)
  {
    var gone := Announced(departed);
    var s' := Collected(s, frontier, departed);
    RetainShape(s.log, s.vv, frontier, gone, Needed(frontier, gone));
    forall q: Pid ensures Base(s'.log, s'.vv, q) <= Get(vv, q) {
      assert Base(s.log, s.vv, q) <= Get(vv, q);
      if q !in gone && q != STABLE_REPLICA_PID {
        assert Base(s'.log, s'.vv, q) == Base(s'.log, s.vv, q);
        assert Get(frontier, q) <= Get(vv, q);
      }
    }
  }

  lemma CollectedBasesOk(w: World, s: OrSet, frontier: DotSet, departed: Option<seq<Pid>>)
    requires Tidy(w) && LogOk(s) && STABLE_REPLICA_PID !in s.vv && BasesOk(w, s) && FrontierOk(w, frontier)
    ensures BasesOk(w, Collected(s, frontier, departed))
  {
    forall r <- w.live ensures r in w.seen && BaseBelow(Collected(s, frontier, departed), w.seen[r]) {
      assert RealDots(w.history, w.seen[r]);
      CollectedBase(s, frontier, departed, w.seen[r]);
    }
  }

  lemma CollectedCrdtOk(w: World, w': World, r: Pid, s: OrSet, marker: GcMarker)
    requires Tidy(w) && CrdtOk(w, r, s) && FrontierOk(w, marker.stable) && r !in Announced(marker.departed)
    requires w' == w.(erased := w.erased + Announced(marker.departed))
    ensures CrdtOk(w', r, Collected(s, marker.stable, marker.departed))
  {
    var s' := Collected(s, marker.stable, marker.departed);
    CollectedSetOk(w.history, w.seen[r], w.erased, s, marker.stable, marker.departed);
    assert STABLE_REPLICA_PID !in s.vv;
    CollectedBasesOk(w, s, marker.stable, marker.departed);
    assert BasesOk(w', s');
  }

  lemma ErasedRowLeq(h: History, vv: DotSet, gone: set<Pid>, seen: DotSet)
    requires RealDots(h, seen) && Leq(vv, seen)
    ensures Leq(vv - gone, seen)
  {
    forall q: Pid | q != STABLE_REPLICA_PID ensures Get(vv - gone, q) <= Get(seen, q) {
      assert Get(vv, q) <= Get(seen, q);
      assert Get(vv - gone, q) == Get(vv, q) || Get(vv - gone, q) == -1;
    }
  }

  lemma ErasedRowsOk(w: World, m: Matrix, gone: set<Pid>)
    requires Tidy(w) && RowsOk(w, m) && gone !! w.live
    ensures RowsOk(w, Erased(m, gone))
  {
    hide Leq, RealDots, SeenByAll;
    var m' := Erased(m, gone);
    forall p <- m'.rows | p != STABLE_REPLICA_PID ensures p in w.seen && Leq(m'.rows[p], w.seen[p]) {
      ErasedRowLeq(w.history, m.rows[p], gone, w.seen[p]);
    }
    if STABLE_REPLICA_PID in m'.rows {
      forall s <- w.live ensures s in w.seen && Leq(m'.rows[STABLE_REPLICA_PID], w.seen[s]) {
        ErasedRowLeq(w.history, m.rows[STABLE_REPLICA_PID], gone, w.seen[s]);
      }
    }
  }

  lemma StampIrrelevant(vv: DotSet, c: Counter, other: DotSet)
    requires Leq(vv, other)
    ensures Leq(vv[STABLE_REPLICA_PID := c], other)
  {
    forall p: Pid | p != STABLE_REPLICA_PID ensures Get(vv[STABLE_REPLICA_PID := c], p) <= Get(other, p) {
      assert Get(vv[STABLE_REPLICA_PID := c], p) == Get(vv, p);
    }
  }

  lemma AppliedRowsOk(w: World, r: Pid, wr: Wrapper, marker: GcMarker)
    requires Tidy(w) && WrapperOk(w, r, wr) && r in w.live
    requires FrontierOk(w, marker.stable) && Announced(marker.departed) !! w.live && Keeps(wr, marker)
    requires OwnRowSurvives(wr.matrix, marker.departed)
    ensures RowsOk(w, MarkerApplied(wr.matrix, marker.stable, marker.departed, marker.marker.counter))
  {
    var m1 := PidsRemoved(wr.matrix, marker.departed);
    if marker.departed.Some? {
      var gone := Removable(wr.matrix, marker.departed.value);
      assert gone <= Announced(marker.departed);
      ErasedRowsOk(w, wr.matrix, gone);
    }
    hide Leq, Get, Tidy, EpochOk, MarkerOk, Announced, Removable, Erased;
    StampedRowsOk(w, r, m1, marker.stable, marker.marker.counter);
  }

  lemma StampedRowsOk(w: World, r: Pid, m: Matrix, stable: DotSet, c: Counter)
    requires RowsOk(w, m) && FrontierOk(w, stable) && r in w.live && r != STABLE_REPLICA_PID && r in m.rows
    ensures var rows := m.rows[STABLE_REPLICA_PID := stable[STABLE_REPLICA_PID := c]];
            RowsOk(w, m.(rows := rows[r := rows[r][STABLE_REPLICA_PID := c]]))
  {
    forall s <- w.live ensures Leq(stable[STABLE_REPLICA_PID := c], w.seen[s]) {
      StampIrrelevant(stable, c, w.seen[s]);
    }
    assert Leq(m.rows[r], w.seen[r]);
    StampIrrelevant(m.rows[r], c, w.seen[r]);
    hide Leq;
  }

  lemma ErasingGrows(w: World, w': World, gone: set<Pid>)
    requires Tidy(w) && (forall p <- gone :: SeenByAll(w, p)) && w' == w.(erased := w.erased + gone)
    ensures Tidy(w') && Grows(w, w')
  {
    forall p <- w'.erased ensures SeenByAll(w', p) {
      assert SeenByAll(w, p);
    }
  }

  lemma PushedMarkersOk(w: World, w': World, markers: seq<GcMarker>, marker: GcMarker)
    requires forall i | 0 <= i < |markers| :: MarkerOk(w, markers[i])
    requires EpochDot(marker.marker) && FrontierOk(w, marker.stable) && w' == w.(erased := w.erased + Announced(marker.departed))
    ensures forall i | 0 <= i < |markers + [marker]| :: MarkerOk(w', (markers + [marker])[i])
  {
    forall i | 0 <= i < |markers + [marker]| ensures MarkerOk(w', (markers + [marker])[i]) {
      if i < |markers| {
        assert MarkerOk(w, markers[i]);
      }
    }
  }

  lemma PushedWrapperOk(w: World, w': World, r: Pid, wr: Wrapper, marker: GcMarker)
    requires Tidy(w) && WrapperOk(w, r, wr) && r in w.live
    requires EpochDot(marker.marker) && FrontierOk(w, marker.stable) && Announced(marker.departed) !! w.live
    requires STABLE_REPLICA_PID !in Announced(marker.departed)
    requires w' == w.(erased := w.erased + Announced(marker.departed))
    ensures OwnRowSurvives(wr.matrix, marker.departed) && WrapperOk(w', r, Pushed(wr, marker))
  {
    PushedOk(wr, marker);
    AppliedRowsOk(w, r, wr, marker);
    PushedMarkersOk(w, w', wr.markers, marker);
  }

  /** A marker whose frontier every live replica has passed and whose departed are fully seen may be committed. */
  lemma MarkerCommittedOk(w: World, w': World, r: Pid, n: Node, marker: GcMarker)
    requires Tidy(w) && CrdtOk(w, r, n.crdt) && WrapperOk(w, r, n.wrapper) && r in w.live
    requires EpochDot(marker.marker) && FrontierOk(w, marker.stable) && forall p <- Announced(marker.departed) :: SeenByAll(w, p)
    requires w' == w.(erased := w.erased + Announced(marker.departed))
    ensures OwnRowSurvives(n.wrapper.matrix, marker.departed)
    ensures CrdtOk(w', r, MarkerCommitted(n, marker).crdt) && WrapperOk(w', r, MarkerCommitted(n, marker).wrapper)
    ensures Tidy(w') && Grows(w, w')
  {
    PushedWrapperOk(w, w', r, n.wrapper, marker);
    CollectedCrdtOk(w, w', r, n.crdt, marker);
    ErasingGrows(w, w', Announced(marker.departed));
  }

  // ---- Answering a request ----

  lemma AnswerItems(s: OrSet, req: DotSet, order: seq<Pid>, i: nat)
    requires LogOk(s) && i < |DeltasAfter(s, req, order)|
    ensures var items, list := AllGreater(s.log, req, order), DeltasAfter(s, req, order);
            && list[i].dot == items[i].0 && Contains(s.vv, list[i].dot)
            && list[i].dot.pid in s.log
            && exists k | 0 <= k < |s.log[list[i].dot.pid]| :: s.log[list[i].dot.pid][k].1 == list[i]
  {
    AllGreaterLinked(s.log, s.vv, req, order);
    var item := AllGreater(s.log, req, order)[i];
    assert LinkedAt(s.log, s.vv, req, AllGreater(s.log, req, order), i);
    var k :| 0 <= k < |s.log[item.0.pid]| && s.log[item.0.pid][k] == item;
  }

  lemma AnswerRecorded(h: History, s: OrSet, req: DotSet, order: seq<Pid>)
    requires LogOk(s) && LogRecorded(h, s)
    ensures AllRecorded(h, DeltasAfter(s, req, order))
    ensures forall i | 0 <= i < |DeltasAfter(s, req, order)| :: Contains(s.vv, DeltasAfter(s, req, order)[i].dot)
  {
    var list := DeltasAfter(s, req, order);
    forall i | 0 <= i < |list| ensures Records(h, list[i]) && Contains(s.vv, list[i].dot) {
      AnswerItems(s, req, order, i);
      var p := list[i].dot.pid;
      var k :| 0 <= k < |s.log[p]| && s.log[p][k].1 == list[i];
      assert Records(h, s.log[p][k].1);
    }
  }

  lemma AnswerFits(s: OrSet, req: DotSet, order: seq<Pid>, seen: DotSet)
    requires LogOk(s) && STABLE_REPLICA_PID !in s.vv && BaseBelow(s, seen) && Leq(req, seen)
    ensures Fits(seen, DeltasAfter(s, req, order))
  {
    var items, list := AllGreater(s.log, req, order), DeltasAfter(s, req, order);
    AllGreaterLinked(s.log, s.vv, req, order);
    forall i | 0 <= i < |list|
      ensures || list[i].dot.counter - 1 <= Get(seen, list[i].dot.pid)
              || exists j | 0 <= j < i :: list[j].dot == Dot(list[i].dot.pid, list[i].dot.counter - 1)
    {
      AnswerItems(s, req, order, i);
      assert LinkedAt(s.log, s.vv, req, items, i);
      var p := list[i].dot.pid;
      assert Base(s.log, s.vv, p) <= Get(seen, p) && Get(req, p) <= Get(seen, p);
      if j :| 0 <= j < i && items[j].0 == Dot(p, list[i].dot.counter - 1) {
        AnswerItems(s, req, order, j);
      }
    }
  }

  lemma AnswerCompletes(s: OrSet, req: DotSet, order: seq<Pid>, seen: DotSet, target: DotSet)
    requires LogOk(s) && BaseBelow(s, seen) && Leq(req, seen) && Enumerates(order, s.log.Keys + req.Keys)
    requires forall q: Pid | q != STABLE_REPLICA_PID :: Get(target, q) == Get(s.vv, q)
    ensures Completes(seen, DeltasAfter(s, req, order), target)
  {
    var items, list := AllGreater(s.log, req, order), DeltasAfter(s, req, order);
    forall q: Pid | q != STABLE_REPLICA_PID
      ensures Get(target, q) <= Get(seen, q) || exists i | 0 <= i < |list| :: list[i].dot == Dot(q, Get(target, q))
    {
      assert Get(req, q) <= Get(seen, q) && Base(s.log, s.vv, q) <= Get(seen, q);
      if q in s.log && Get(req, q) < s.vv[q] {
        AllGreaterReaches(s.log, s.vv, req, order, q);
        var i :| 0 <= i < |items| && items[i].0 == Dot(q, s.vv[q]);
        AnswerItems(s, req, order, i);
      }
    }
  }

  lemma AnswerContexts(w: World, src: Pid, s: OrSet, dest: Pid, list: seq<Delta>, target: DotSet)
    requires Tidy(w) && Causal(w) && src in w.seen && dest in w.live && AllRecorded(w.history, list)
    requires Tracks(s.vv, w.seen[src], w.erased)
    requires forall i | 0 <= i < |list| :: Contains(s.vv, list[i].dot)
    requires forall q: Pid | q != STABLE_REPLICA_PID :: Get(target, q) == Get(s.vv, q)
    ensures ContextsCovered(w.history, w.seen[dest], list, target)
  {
    TracksLeq(s.vv, w.seen[src], w.erased, w.history);
    forall i, q: Pid | 0 <= i < |list| && q != STABLE_REPLICA_PID
      ensures || Get(At(w.history, list[i].dot).context, q) <= Get(target, q)
              || Get(At(w.history, list[i].dot).context, q) <= Get(w.seen[dest], q)
    {
      assert Records(w.history, list[i]);
      var context := At(w.history, list[i].dot).context;
      assert Contains(w.seen[src], list[i].dot);
      assert Leq(context, w.seen[src]);
      assert Get(context, q) <= Get(w.seen[src], q);
      if q in w.erased {
        assert SeenByAll(w, q);
        assert RealDots(w.history, w.seen[src]);
      }
    }
  }

  /** Whatever the requester has seen by now, the answer starts no later than it needs and reaches the sender's vector. */
  lemma AnswerOk(w: World, src: Pid, s: OrSet, dest: Pid, req: DotSet, order: seq<Pid>, target: DotSet)
    requires Tidy(w) && Causal(w) && CrdtOk(w, src, s) && dest in w.seen && Leq(req, w.seen[dest])
    requires Enumerates(order, s.log.Keys + req.Keys)
    requires forall q: Pid | q != STABLE_REPLICA_PID :: Get(target, q) == Get(s.vv, q) && (q in target <==> q in s.vv)
    ensures GroupOk(w, dest, Group(DeltasAfter(s, req, order), target))
  {
    AnswerRecorded(w.history, s, req, order);
    AnswerInRuns(s, req, order);
    NoEpochColumn(w, src, s);
    AnswerWithin(s, DeltasAfter(s, req, order), target);
    if dest in w.live {
      AnswerFits(s, req, order, w.seen[dest]);
      AnswerCompletes(s, req, order, w.seen[dest], target);
      AnswerContexts(w, src, s, dest, DeltasAfter(s, req, order), target);
    }
  }

  lemma AnswerInRuns(s: OrSet, req: DotSet, order: seq<Pid>)
    requires LogOk(s) && forall i, j | 0 <= i < j < |order| :: order[i] != order[j]
    ensures InRuns(DotsOf(DeltasAfter(s, req, order)))
  {
    hide Shape, InRuns;
    AllGreaterInRuns(s.log, s.vv, req, order);
    AnswerDots(s, req, order);
  }

  lemma AnswerDots(s: OrSet, req: DotSet, order: seq<Pid>)
    requires LogOk(s)
    ensures DotsOf(DeltasAfter(s, req, order)) == ItemDots(AllGreater(s.log, req, order))
  {
    var items, list := AllGreater(s.log, req, order), DeltasAfter(s, req, order);
    forall i | 0 <= i < |list| ensures list[i].dot == items[i].0 {
      AnswerItems(s, req, order, i);
    }
    assert DotsOf(list) == ItemDots(items);
  }

  lemma NoEpochColumn(w: World, r: Pid, s: OrSet)
    requires Tidy(w) && CrdtOk(w, r, s)
    ensures STABLE_REPLICA_PID !in s.vv
  {
    assert RealDots(w.history, w.seen[r]);
  }

  lemma AnswerWithin(s: OrSet, list: seq<Delta>, target: DotSet)
    requires STABLE_REPLICA_PID !in s.vv && forall i | 0 <= i < |list| :: Contains(s.vv, list[i].dot)
    requires forall q: Pid | q != STABLE_REPLICA_PID :: Get(target, q) == Get(s.vv, q) && (q in target <==> q in s.vv)
    ensures forall i | 0 <= i < |list| :: Contains(target, list[i].dot)
  {
    forall i | 0 <= i < |list| ensures Contains(target, list[i].dot) {
      assert Contains(s.vv, list[i].dot);
      assert Get(target, list[i].dot.pid) == Get(s.vv, list[i].dot.pid);
    }
  }

  // ---- Committing a group ----

  lemma TracksStep(h: History, erased: set<Pid>, s: OrSet, seen: DotSet, list: seq<Delta>)
    requires list != [] && Tracks(s.vv, seen, erased) && RealDots(h, seen) && Fits(seen, list) && AllRecorded(h, list)
    ensures list[0].dot.pid !in erased ==> MergedOne(s, list[0]).Some?
    ensures MergedOne(s, list[0]).Some? ==>
              Tracks(MergedOne(s, list[0]).value.vv, Joined(seen, list[0]), erased)
    ensures RealDots(h, Joined(seen, list[0])) && Fits(Joined(seen, list[0]), list[1..]) && AllRecorded(h, list[1..])
    ensures !Contains(seen, list[0].dot) ==> Next(seen, list[0].dot)
  {
    FitsStep(h, seen, list);
    assert Records(h, list[0]);
  }

  /** A merge can panic only on a dot of a replica that was announced as departed. */
  lemma {:induction false} MergeNeverPanics(h: History, erased: set<Pid>, s: OrSet, seen: DotSet, list: seq<Delta>)
    requires Tracks(s.vv, seen, erased) && RealDots(h, seen) && Fits(seen, list) && AllRecorded(h, list)
    requires forall i | 0 <= i < |list| :: list[i].dot.pid !in erased
    ensures Merged(s, list).Some?
    decreases |list|
  {
    if list != [] {
      TracksStep(h, erased, s, seen, list);
      MergeNeverPanics(h, erased, MergedOne(s, list[0]).value, Joined(seen, list[0]), list[1..]);
    }
  }

  /** How far a merge moves the lower bound of a log: not at all, except in forgotten columns. */
  ghost predicate BasesMoved(h: History, erased: set<Pid>, s: OrSet, s': OrSet) {
    forall q: Pid ::
      || Base(s'.log, s'.vv, q) == Base(s.log, s.vv, q)
      || (q in erased && q in h && Base(s'.log, s'.vv, q) <= |h[q]| - 1)
  }

  lemma LoggedRecorded(h: History, s: OrSet, delta: Delta)
    requires LogRecorded(h, s) && Records(h, delta)
    ensures LogRecorded(h, Logged(s, delta))
  {
  }

  lemma LoggedBases(h: History, erased: set<Pid>, s: OrSet, seen: DotSet, delta: Delta)
    requires LogOk(s) && Insert(s.vv, delta.dot).Some? && Records(h, delta)
    requires Tracks(s.vv, seen, erased) && RealDots(h, seen) && (!Contains(seen, delta.dot) ==> Next(seen, delta.dot))
    ensures LogOk(Logged(s, delta)) && BasesMoved(h, erased, s, Logged(s, delta))
  {
    LoggedOk(s, delta);
    if delta.dot.pid !in s.vv && delta.dot.pid !in erased {
      assert delta.dot.counter == 0;
    }
  }

  lemma MergedOneSetOk(h: History, erased: set<Pid>, s: OrSet, seen: DotSet, delta: Delta)
    requires SetOk(h, seen, erased, s) && RealDots(h, seen) && Records(h, delta)
    requires !Contains(seen, delta.dot) ==> Next(seen, delta.dot)
    requires MergedOne(s, delta).Some? && Tracks(MergedOne(s, delta).value.vv, Joined(seen, delta), erased)
    ensures SetOk(h, Joined(seen, delta), erased, MergedOne(s, delta).value)
    ensures BasesMoved(h, erased, s, MergedOne(s, delta).value)
  {
    if !Contains(s.vv, delta.dot) {
      hide LogOk, LogRecorded, Sound, EntriesSeen, Tracks, RealDots, BasesMoved, Records;
      LoggedBases(h, erased, s, seen, delta);
      LoggedSound(h, s, delta);
      LoggedEntriesSeen(s, seen, delta);
      LoggedRecorded(h, s, delta);
    }
  }

  lemma LoggedEntriesSeen(s: OrSet, seen: DotSet, delta: Delta)
    requires EntriesSeen(s.entries, seen)
    ensures EntriesSeen(Logged(s, delta).entries, Joined(seen, delta))
  {
    forall e, dot | InEntries(Applied(s.entries, delta), e, dot) ensures Contains(Joined(seen, delta), dot) {
      AppliedEntries(s.entries, delta, e, dot);
    }
  }

  lemma {:induction false} MergedSetOk(h: History, erased: set<Pid>, s: OrSet, seen: DotSet, list: seq<Delta>)
    requires SetOk(h, seen, erased, s) && RealDots(h, seen) && Fits(seen, list) && AllRecorded(h, list)
    requires Merged(s, list).Some?
    ensures SetOk(h, JoinedAll(seen, list), erased, Merged(s, list).value)
    ensures BasesMoved(h, erased, s, Merged(s, list).value)
    decreases |list|
  {
    if list != [] {
      TracksStep(h, erased, s, seen, list);
      var s1 := MergedOne(s, list[0]).value;
      assert Records(h, list[0]);
      MergedOneSetOk(h, erased, s, seen, list[0]);
      MergedSetOk(h, erased, s1, Joined(seen, list[0]), list[1..]);
      BasesMovedTransitive(h, erased, s, s1, Merged(s, list).value);
    }
  }

  lemma BasesMovedTransitive(h: History, erased: set<Pid>, a: OrSet, b: OrSet, c: OrSet)
    requires BasesMoved(h, erased, a, b) && BasesMoved(h, erased, b, c)
    ensures BasesMoved(h, erased, a, c)
  {
    forall q: Pid
      ensures || Base(c.log, c.vv, q) == Base(a.log, a.vv, q)
              || (q in erased && q in h && Base(c.log, c.vv, q) <= |h[q]| - 1)
    {
      assert Base(b.log, b.vv, q) == Base(a.log, a.vv, q) || (q in erased && q in h && Base(b.log, b.vv, q) <= |h[q]| - 1);
    }
  }

  /** Exactly the dots of the list are added to what has been seen. */
  lemma {:induction false} JoinedAllIs(h: History, seen: DotSet, list: seq<Delta>)
    requires RealDots(h, seen) && Fits(seen, list) && AllRecorded(h, list)
    ensures RealDots(h, JoinedAll(seen, list))
    ensures forall p: Pid :: Get(seen, p) <= Get(JoinedAll(seen, list), p)
    ensures forall i | 0 <= i < |list| :: Contains(JoinedAll(seen, list), list[i].dot)
    ensures forall dot: Dot | 0 <= dot.counter && Contains(JoinedAll(seen, list), dot) ::
              Contains(seen, dot) || exists i | 0 <= i < |list| :: list[i].dot == dot
    decreases |list|
  {
    if list != [] {
      FitsStep(h, seen, list);
      var seen1, rest := Joined(seen, list[0]), list[1..];
      assert Records(h, list[0]);
      JoinedAllIs(h, seen1, rest);
      forall i | 0 <= i < |list| ensures Contains(JoinedAll(seen, list), list[i].dot) {
        if i > 0 {
          assert list[i] == rest[i - 1];
        } else {
          assert Get(seen1, list[0].dot.pid) <= Get(JoinedAll(seen1, rest), list[0].dot.pid);
        }
      }
      forall dot: Dot | 0 <= dot.counter && Contains(JoinedAll(seen, list), dot)
        ensures Contains(seen, dot) || exists i | 0 <= i < |list| :: list[i].dot == dot
      {
        if Contains(seen1, dot) {
          assert Contains(seen, dot) || list[0].dot == dot;
        } else {
          var i :| 0 <= i < |rest| && rest[i].dot == dot;
          assert list[i + 1].dot == dot;
        }
      }
    }
  }

  lemma JoinedReaches(h: History, seen: DotSet, list: seq<Delta>, target: DotSet)
    requires RealDots(h, seen) && Fits(seen, list) && AllRecorded(h, list) && Completes(seen, list, target)
    ensures Leq(target, JoinedAll(seen, list))
  {
    JoinedAllIs(h, seen, list);
    var seen' := JoinedAll(seen, list);
    forall q: Pid | q != STABLE_REPLICA_PID ensures Get(target, q) <= Get(seen', q) {
      assert Get(seen, q) <= Get(seen', q);
      if i :| 0 <= i < |list| && list[i].dot == Dot(q, Get(target, q)) {
        assert Contains(seen', list[i].dot);
      }
    }
  }

  lemma JoinedClosed(h: History, seen: DotSet, list: seq<Delta>, target: DotSet)
    requires RealDots(h, seen) && Closed(h, seen) && Fits(seen, list) && AllRecorded(h, list)
    requires Completes(seen, list, target) && ContextsCovered(h, seen, list, target)
    ensures Closed(h, JoinedAll(seen, list))
  {
    var seen' := JoinedAll(seen, list);
    JoinedAllIs(h, seen, list);
    JoinedReaches(h, seen, list, target);
    forall dot: Dot | Happened(h, dot) && Contains(seen', dot) ensures Leq(At(h, dot).context, seen') {
      forall q: Pid | q != STABLE_REPLICA_PID ensures Get(At(h, dot).context, q) <= Get(seen', q) {
        assert Get(target, q) <= Get(seen', q) && Get(seen, q) <= Get(seen', q);
        if Contains(seen, dot) {
          assert Leq(At(h, dot).context, seen);
          assert Get(At(h, dot).context, q) <= Get(seen, q);
        } else {
          var i :| 0 <= i < |list| && list[i].dot == dot;
        }
      }
    }
  }

  /** The world after one live replica has seen more, with its own history possibly extended. */
  ghost predicate Raised(w: World, w': World, r: Pid) {
    && r in w.live && r in w.seen && r in w.history && Extends(w.history, w'.history)
    && w'.live == w.live && w'.erased == w.erased && (w'.settled ==> w.settled)
    && (forall p <- w.history | p != r :: w'.history[p] == w.history[p])
    && w'.seen.Keys == w.seen.Keys
    && (forall x <- w.seen | x != r :: w'.seen[x] == w.seen[x])
    && (forall p: Pid :: Get(w.seen[r], p) <= Get(w'.seen[r], p))
  }

  lemma RaisedGrows(w: World, w': World, r: Pid)
    requires Raised(w, w', r)
    ensures Grows(w, w')
  {
  }

  lemma RaisedTidy(w: World, w': World, r: Pid)
    requires Tidy(w) && Raised(w, w', r)
    requires RealDots(w'.history, w'.seen[r]) && Get(w'.seen[r], r) == |w'.history[r]| - 1
    ensures Tidy(w')
  {
    hide RealDots, SeenByAll, Get;
    forall x <- w'.seen ensures RealDots(w'.history, w'.seen[x]) && Get(w'.seen[x], x) == |w'.history[x]| - 1 {
      if x != r {
        RaisedRow(w, w', r, x);
      }
    }
    forall p <- w'.erased ensures SeenByAll(w', p) {
      RaisedErased(w, w', r, p);
    }
  }

  lemma RaisedRow(w: World, w': World, r: Pid, x: Pid)
    requires Tidy(w) && Raised(w, w', r) && x in w.seen && x != r
    ensures x in w'.history && RealDots(w'.history, w'.seen[x]) && Get(w'.seen[x], x) == |w'.history[x]| - 1
  {
    assert RealDots(w.history, w.seen[x]) && Get(w.seen[x], x) == |w.history[x]| - 1;
  }

  lemma RaisedErased(w: World, w': World, r: Pid, p: Pid)
    requires Tidy(w) && Raised(w, w', r) && RealDots(w'.history, w'.seen[r]) && p in w.erased
    ensures SeenByAll(w', p)
  {
    assert SeenByAll(w, p);
    forall x <- w'.live ensures x in w'.seen && Get(w'.seen[x], p) == |w'.history[p]| - 1 {
      assert Get(w.seen[x], p) == |w.history[p]| - 1;
    }
  }

  lemma TidyAt(w: World, r: Pid)
    requires Tidy(w) && r in w.seen
    ensures r in w.history && RealDots(w.history, w.seen[r]) && Get(w.seen[r], r) == |w.history[r]| - 1
  {
  }

  ghost predicate Located(w: World, r: Pid) {
    && r in w.live && r in w.seen && r in w.history
    && RealDots(w.history, w.seen[r]) && Get(w.seen[r], r) == |w.history[r]| - 1
  }

  lemma CommitRaises(w: World, w': World, r: Pid, list: seq<Delta>)
    requires Located(w, r) && Fits(w.seen[r], list) && AllRecorded(w.history, list)
    requires w'.settled ==> w.settled
    requires w' == w.(seen := w.seen[r := JoinedAll(w.seen[r], list)], settled := w'.settled)
    ensures Raised(w, w', r) && RealDots(w'.history, w'.seen[r]) && Get(w'.seen[r], r) == |w'.history[r]| - 1
  {
    JoinedAllIs(w.history, w.seen[r], list);
    assert Get(w.seen[r], r) <= Get(w'.seen[r], r);
  }

  lemma CommitWorld(w: World, w': World, r: Pid, g: Group)
    requires Tidy(w) && Causal(w) && r in w.live && GroupOk(w, r, g)
    requires w'.settled ==> w.settled
    requires w' == w.(seen := w.seen[r := JoinedAll(w.seen[r], g.list)], settled := w'.settled)
    ensures Tidy(w') && Causal(w') && Grows(w, w') && Leq(g.vv, w'.seen[r])
  {
    TidyAt(w, r);
    CommitRaises(w, w', r, g.list);
    RaisedGrows(w, w', r);
    RaisedTidy(w, w', r);
    hide Tidy, RealDots, Closed, Grows, Raised, Leq;
    JoinedClosed(w.history, w.seen[r], g.list, g.vv);
    JoinedReaches(w.history, w.seen[r], g.list, g.vv);
    assert forall x <- w'.seen :: Closed(w'.history, w'.seen[x]);
  }

  lemma LiveNotErased(w: World, r: Pid)
    requires Tidy(w) && r in w.live
    ensures r !in w.erased
  {
    assert r in w.erased ==> SeenByAll(w, r);
  }

  lemma CommitBases(w: World, w': World, s: OrSet, s': OrSet)
    requires Tidy(w) && Grows(w, w') && BasesOk(w, s) && BasesMoved(w.history, w.erased, s, s')
    ensures BasesOk(w', s')
  {
    forall x <- w'.live ensures x in w'.seen && BaseBelow(s', w'.seen[x]) {
      forall q: Pid ensures Base(s'.log, s'.vv, q) <= Get(w'.seen[x], q) {
        assert Get(w.seen[x], q) <= Get(w'.seen[x], q);
        assert Base(s.log, s.vv, q) <= Get(w.seen[x], q);
        if q in w.erased {
          assert SeenByAll(w, q);
        }
      }
    }
  }

  lemma MergedPid(s: OrSet, list: seq<Delta>)
    requires Merged(s, list).Some?
    ensures Merged(s, list).value.pid == s.pid
    decreases |list|
  {
    if list != [] {
      MergedPid(MergedOne(s, list[0]).value, list[1..]);
    }
  }

  lemma CommitCrdt(w: World, w': World, r: Pid, s: OrSet, g: Group)
    requires Tidy(w) && Grows(w, w') && r in w.live && r !in w.erased
    requires CrdtOk(w, r, s) && GroupOk(w, r, g) && Merged(s, g.list).Some?
    requires w'.settled <==> w.settled && Settles(w.history, s.vv, w.seen[r], g.list)
    requires w' == w.(seen := w.seen[r := JoinedAll(w.seen[r], g.list)], settled := w'.settled)
    ensures CrdtOk(w', r, Merged(s, g.list).value)
  {
    var s' := Merged(s, g.list).value;
    assert RealDots(w.history, w.seen[r]);
    MergedSetOk(w.history, w.erased, s, w.seen[r], g.list);
    MergedPid(s, g.list);
    CommitBases(w, w', s, s');
    if w'.settled {
      assert Covered(s.vv, w.seen[r]);
      MergeExactIffSettles(w.history, w.seen[r], s, g.list);
    }
  }

  lemma DepartureOk(w: World, r: Pid, wr: Wrapper, final: Dot)
    requires WrapperOk(w, r, wr) && final.pid in w.history && final.pid !in w.live
    requires final.counter == |w.history[final.pid]| - 1
    ensures WrapperOk(w, r, DepartureObserved(wr, final))
  {
  }

  lemma CommitNode(w: World, r: Pid, n: Node, s: OrSet)
    requires Tidy(w) && CrdtOk(w, r, s) && WrapperOk(w, r, n.wrapper) && n.phase.Merging?
    requires Merged(n.crdt, n.phase.group.list) == Some(s)
    requires n.phase.final.Some? ==>
               var final := n.phase.final.value;
               final.pid in w.history && final.pid !in w.live && final.counter == |w.history[final.pid]| - 1
    ensures NodeOk(w, r, GroupCommitted(n).value)
  {
    RefreshOk(w, r, n.wrapper, s);
    if n.phase.final.Some? {
      DepartureOk(w, r, Refreshed(n.wrapper, s.vv), n.phase.final.value);
    }
  }

  lemma CommitGroupOk(w: World, w': World, r: Pid, n: Node)
    requires Tidy(w) && Causal(w) && r in w.live && NodeOk(w, r, n) && n.phase.Merging? && Merged(n.crdt, n.phase.group.list).Some?
    requires w'.settled <==> w.settled && Settles(w.history, n.crdt.vv, w.seen[r], n.phase.group.list)
    requires w' == w.(seen := w.seen[r := JoinedAll(w.seen[r], n.phase.group.list)], settled := w'.settled)
    ensures Tidy(w') && Causal(w') && Grows(w, w')
    ensures NodeOk(w', r, GroupCommitted(n).value)
  {
    CommitWorld(w, w', r, n.phase.group);
    LiveNotErased(w, r);
    CommitCrdt(w, w', r, n.crdt, n.phase.group);
    WrapperGrows(w, w', r, n.wrapper);
    CommitNode(w', r, n, Merged(n.crdt, n.phase.group.list).value);
  }

  // ---- A client mutation ----

  ghost predicate HistoryGrown(h: History, h': History, r: Pid, event: Event) {
    r in h && h' == h[r := h[r] + [event]]
  }

  lemma GrownFacts(h: History, h': History, r: Pid, event: Event)
    requires HistoryGrown(h, h', r, event)
    ensures Extends(h, h') && Happened(h', Dot(r, |h[r]|)) && At(h', Dot(r, |h[r]|)) == event
    ensures forall dot: Dot :: Happened(h', dot) <==> Happened(h, dot) || dot == Dot(r, |h[r]|)
    ensures forall dot: Dot | Happened(h, dot) :: At(h', dot) == At(h, dot)
  {
  }

  lemma GrownNames(h: History, h': History, r: Pid, event: Event)
    requires HistoryGrown(h, h', r, event) && NamesSeen(h) && ContextsWithin(h) && RealDots(h, event.context)
    requires event.change.Removal? ==>
               forall dot <- event.change.removedDots :: Happened(h, dot) && Contains(event.context, dot)
    ensures NamesSeen(h') && ContextsWithin(h')
  {
    GrownFacts(h, h', r, event);
    forall removal: Dot, e, dot | Names(h', removal, e, dot)
      ensures Happened(h', dot) && Contains(At(h', removal).context, dot)
    {
      if Happened(h, removal) {
        assert Names(h, removal, e, dot);
      }
    }
    forall dot: Dot | Happened(h', dot) ensures RealDots(h', At(h', dot).context) {
      if Happened(h, dot) {
        assert RealDots(h, At(h, dot).context);
      }
    }
  }

  lemma GrownClosed(h: History, h': History, r: Pid, event: Event, vv: DotSet)
    requires HistoryGrown(h, h', r, event) && Closed(h, vv) && RealDots(h, vv)
    ensures Closed(h', vv)
    ensures event.context == vv && Get(vv, r) == |h[r]| - 1 ==> Closed(h', vv[r := |h[r]|])
  {
    GrownFacts(h, h', r, event);
    forall dot: Dot | Happened(h', dot) && Contains(vv, dot) ensures Leq(At(h', dot).context, vv) {
      assert Happened(h, dot);
    }
    if event.context == vv && Get(vv, r) == |h[r]| - 1 {
      var vv' := vv[r := |h[r]|];
      assert Leq(vv, vv');
      forall dot: Dot | Happened(h', dot) && Contains(vv', dot) ensures Leq(At(h', dot).context, vv') {
        if dot != Dot(r, |h[r]|) {
          assert Contains(vv, dot);
          LeqTransitive(At(h', dot).context, vv, vv');
        }
      }
    }
  }

  /** A removal made on exact entries names every insertion it observes that is still live. */
  lemma GrownComplete(h: History, h': History, r: Pid, s: OrSet, m: Mutation, event: Event)
    requires HistoryGrown(h, h', r, event) && RemovalsComplete(h) && ContextsWithin(h)
    requires event.change == Produced(s, NextDot(s.vv, r), m).change && RealDots(h, event.context) && Exact(h, event.context, s.entries)
    ensures RemovalsComplete(h')
  {
    GrownFacts(h, h', r, event);
    forall removal: Dot, e, dot | Observes(h', removal, e, dot) && InsertedIn(h', At(h', removal).context, e, dot)
      ensures Names(h', removal, e, dot) || RemovedIn(h', At(h', removal).context, e, dot)
    {
      var context := At(h', removal).context;
      if Happened(h, removal) {
        assert RealDots(h, context);
        MeaningExtends(h, h', context, e, dot);
        assert Observes(h, removal, e, dot);
        assert Names(h, removal, e, dot) || RemovedIn(h, context, e, dot);
      } else {
        MeaningExtends(h, h', context, e, dot);
        assert InEntries(s.entries, e, dot) <==> Live(h, context, e, dot);
      }
    }
  }

  lemma MutationIsNext(h: History, r: Pid, vv: DotSet)
    requires r in h && Get(vv, r) == |h[r]| - 1 && (r in vv ==> 0 <= vv[r])
    ensures NextDot(vv, r) == Dot(r, |h[r]|) && Next(vv, NextDot(vv, r))
  {
  }

  lemma MutateRaises(w: World, w': World, r: Pid, event: Event)
    requires Located(w, r) && HistoryGrown(w.history, w'.history, r, event)
    requires w' == w.(history := w'.history, seen := w.seen[r := Put(w.seen[r], r, |w.history[r]|)])
    ensures Raised(w, w', r) && RealDots(w'.history, w'.seen[r]) && Get(w'.seen[r], r) == |w'.history[r]| - 1
  {
  }

  lemma MutateNames(w: World, h': History, r: Pid, s: OrSet, m: Mutation, event: Event)
    requires Tidy(w) && NamesSeen(w.history) && ContextsWithin(w.history) && CrdtOk(w, r, s)
    requires event == Event(Produced(s, NextDot(s.vv, r), m).change, w.seen[r]) && HistoryGrown(w.history, h', r, event)
    ensures NamesSeen(h') && ContextsWithin(h')
  {
    assert RealDots(w.history, w.seen[r]);
    if event.change.Removal? {
      forall dot <- event.change.removedDots ensures Happened(w.history, dot) && Contains(event.context, dot) {
        assert InEntries(s.entries, m.element, dot);
      }
    }
    GrownNames(w.history, h', r, event);
  }

  lemma MutateCloses(w: World, w': World, r: Pid, event: Event)
    requires Tidy(w) && r in w.seen && (forall x <- w.seen :: Closed(w.history, w.seen[x]))
    requires event.context == w.seen[r] && HistoryGrown(w.history, w'.history, r, event)
    requires w'.seen == w.seen[r := Put(w.seen[r], r, |w.history[r]|)]
    ensures forall x <- w'.seen :: Closed(w'.history, w'.seen[x])
  {
    forall x <- w'.seen ensures Closed(w'.history, w'.seen[x]) {
      assert RealDots(w.history, w.seen[x]) && Closed(w.history, w.seen[x]);
      GrownClosed(w.history, w'.history, r, event, w.seen[x]);
    }
  }

  lemma MutateCausal(w: World, w': World, r: Pid, s: OrSet, m: Mutation, event: Event)
    requires Tidy(w) && Causal(w) && r in w.live && CrdtOk(w, r, s)
    requires event == Event(Produced(s, NextDot(s.vv, r), m).change, w.seen[r]) && HistoryGrown(w.history, w'.history, r, event)
    requires w' == w.(history := w'.history, seen := w.seen[r := Put(w.seen[r], r, |w.history[r]|)])
    ensures Causal(w')
  {
    MutateNames(w, w'.history, r, s, m, event);
    MutateCloses(w, w', r, event);
    if w'.settled {
      assert RealDots(w.history, w.seen[r]);
      GrownComplete(w.history, w'.history, r, s, m, event);
    }
  }

  lemma MutateExact(h: History, h': History, r: Pid, seen: DotSet, entries: map<Element, seq<Dot>>, delta: Delta)
    requires HistoryGrown(h, h', r, Event(delta.change, seen)) && NamesSeen(h) && RealDots(h, seen) && Exact(h, seen, entries)
    requires delta.dot == Dot(r, |h[r]|) && Next(seen, delta.dot)
    ensures Exact(h', Put(seen, r, |h[r]|), Applied(entries, delta))
  {
    GrownFacts(h, h', r, Event(delta.change, seen));
    ExactExtends(h, h', seen, entries);
    assert ExactBut(h', seen, entries, {});
    AppliedExactBut(h', seen, entries, delta, {});
    if delta.change.Insertion? {
      MeaningExtends(h, h', seen, delta.change.element, delta.dot);
      assert forall removal: Dot :: !Names(h, removal, delta.change.element, delta.dot);
    }
    assert ZombiesAfter(h', seen, {}, delta) == {};
  }

  lemma MutateSetOk(h: History, h': History, r: Pid, seen: DotSet, erased: set<Pid>, s: OrSet, delta: Delta)
    requires SetOk(h, seen, erased, s) && HistoryGrown(h, h', r, Event(delta.change, seen)) && RealDots(h, seen)
    requires r !in erased && Get(seen, r) == |h[r]| - 1 && delta.dot == Dot(r, |h[r]|)
    ensures SetOk(h', seen[r := |h[r]|], erased, Logged(s, delta))
    ensures BasesMoved(h, erased, s, Logged(s, delta))
  {
    GrownFacts(h, h', r, Event(delta.change, seen));
    SetGrows(h, h', seen, erased, erased, s);
    TracksLeq(s.vv, seen, erased, h);
    assert Joined(seen, delta) == seen[r := |h[r]|];
    assert RealDots(h', seen);
    MergedOneSetOk(h', erased, s, seen, delta);
  }

  lemma MutateCrdt(w: World, w': World, r: Pid, s: OrSet, delta: Delta)
    requires Tidy(w) && NamesSeen(w.history) && Grows(w, w') && r in w.live && r !in w.erased && CrdtOk(w, r, s)
    requires HistoryGrown(w.history, w'.history, r, Event(delta.change, w.seen[r]))
    requires delta.dot == Dot(r, |w.history[r]|)
    requires w' == w.(history := w'.history, seen := w.seen[r := Put(w.seen[r], r, |w.history[r]|)])
    ensures CrdtOk(w', r, Logged(s, delta))
  {
    assert RealDots(w.history, w.seen[r]) && Get(w.seen[r], r) == |w.history[r]| - 1;
    MutateSetOk(w.history, w'.history, r, w.seen[r], w.erased, s, delta);
    CommitBases(w, w', s, Logged(s, delta));
    if w'.settled {
      MutateExact(w.history, w'.history, r, w.seen[r], s.entries, delta);
    }
  }

  lemma MutationDot(w: World, r: Pid, s: OrSet)
    requires Tidy(w) && r in w.live && CrdtOk(w, r, s)
    ensures r !in w.erased && NextDot(s.vv, r) == Dot(r, |w.history[r]|)
  {
    assert r in w.erased ==> SeenByAll(w, r);
    assert RealDots(w.history, w.seen[r]) && Get(w.seen[r], r) == |w.history[r]| - 1;
    TracksLeq(s.vv, w.seen[r], w.erased, w.history);
    MutationIsNext(w.history, r, s.vv);
  }

  lemma MutateWorld(w: World, w': World, r: Pid, s: OrSet, m: Mutation, event: Event)
    requires Tidy(w) && Causal(w) && r in w.live && CrdtOk(w, r, s)
    requires event == Event(Produced(s, NextDot(s.vv, r), m).change, w.seen[r]) && HistoryGrown(w.history, w'.history, r, event)
    requires w' == w.(history := w'.history, seen := w.seen[r := Put(w.seen[r], r, |w.history[r]|)])
    ensures Tidy(w') && Causal(w') && Grows(w, w')
  {
    TidyAt(w, r);
    MutateRaises(w, w', r, event);
    RaisedGrows(w, w', r);
    RaisedTidy(w, w', r);
    MutateCausal(w, w', r, s, m, event);
  }

  lemma CrdtReplaced(w: World, w': World, r: Pid, n: Node, s: OrSet)
    requires Grows(w, w') && Tidy(w') && WrapperOk(w, r, n.wrapper) && PhaseOk(w, r, n.phase) && CrdtOk(w', r, s)
    ensures NodeOk(w', r, n.(crdt := s))
  {
    WrapperGrows(w, w', r, n.wrapper);
    PhaseGrows(w, w', r, n.phase);
  }

  lemma MutationDelta(w: World, s: OrSet, r: Pid, m: Mutation)
    requires Causal(w) && s.pid == Some(r)
    ensures NamesSeen(w.history) && Produced(s, NextDot(s.vv, r), m).dot == NextDot(s.vv, r)
    ensures Mutated(s, m) == Logged(s, Produced(s, NextDot(s.vv, r), m))
  {
  }

  lemma MutateOk(w: World, w': World, r: Pid, n: Node, m: Mutation)
    requires Tidy(w) && Causal(w) && r in w.live && r in w.history && NodeOk(w, r, n)
    requires HistoryGrown(w.history, w'.history, r, Event(Produced(n.crdt, NextDot(n.crdt.vv, r), m).change, w.seen[r]))
    requires w' == w.(history := w'.history, seen := w.seen[r := Put(w.seen[r], r, |w.history[r]|)])
    requires NextDot(n.crdt.vv, r) == Dot(r, |w.history[r]|) && r !in w.erased
    ensures Tidy(w') && Causal(w') && Grows(w, w')
    ensures NodeOk(w', r, n.(crdt := Mutated(n.crdt, m)))
  {
    var delta := Produced(n.crdt, NextDot(n.crdt.vv, r), m);
    MutationDelta(w, n.crdt, r, m);
    hide CrdtOk, WrapperOk, PhaseOk, Tidy, Causal, Grows, NamesSeen, HistoryGrown, Produced, NextDot, Logged, Mutated;
    MutateWorld(w, w', r, n.crdt, m, Event(delta.change, w.seen[r]));
    MutateCrdt(w, w', r, n.crdt, delta);
    CrdtReplaced(w, w', r, n, Mutated(n.crdt, m));
  }
}

/**
 GC markers and epochs (`CRDTWrapper` in `src/crdt.rs`).

 A wrapper is a version matrix together with the GC markers applied so far. The
 counter of the last marker is the epoch; outgoing vectors carry it in the
 column of pid 0, and rows of an older epoch than the own row's are rejected.
 */
module GcWrappers {
  import opened Options
  import opened Dots
  import opened VersionMatrices

  const INITIAL_GC_COUNTER: Counter := 0
  const I64_MAX: Counter := 0x7FFF_FFFF_FFFF_FFFF

  datatype GcMarker = GcMarker(marker: Dot, stable: DotSet, departed: Option<seq<Pid>>)

  datatype Wrapper = Wrapper(matrix: Matrix, markers: seq<GcMarker>)

  function CurrentMarker(w: Wrapper): Dot {
    if w.markers == [] then Dot(STABLE_REPLICA_PID, INITIAL_GC_COUNTER) else w.markers[|w.markers| - 1].marker
  }

  function Epoch(w: Wrapper): Counter {
    CurrentMarker(w).counter
  }

  function SaturatingSucc(c: Counter): Counter {
    if c >= I64_MAX then I64_MAX else c + 1
  }

  function NextMarker(w: Wrapper): Dot {
    Dot(STABLE_REPLICA_PID, SaturatingSucc(Epoch(w)))
  }

  function LastStable(w: Wrapper): Option<DotSet> {
    if w.markers == [] then None else Some(w.markers[|w.markers| - 1].stable)
  }

  function Stamped(w: Wrapper, vv: DotSet): DotSet {
    vv[STABLE_REPLICA_PID := Epoch(w)]
  }

  function Refreshed(w: Wrapper, vv: DotSet): Wrapper
    requires HasOwnRow(w.matrix)
  {
    w.(matrix := Updated(w.matrix, w.matrix.ownPid, Stamped(w, vv)))
  }

  function RowReceived(w: Wrapper, p: Pid, vv: DotSet): Wrapper
    requires HasOwnRow(w.matrix)
  {
    w.(matrix := Updated(w.matrix, p, vv))
  }

  function PidRebound(w: Wrapper, p: Pid, vv: DotSet): Wrapper {
    w.(matrix := Rebound(w.matrix, p, Stamped(w, vv)))
  }

  function ActiveObserved(w: Wrapper, p: Pid, gcCounter: Counter): Wrapper {
    if p == w.matrix.ownPid then w else w.(matrix := Discovered(w.matrix, p, gcCounter))
  }

  function DepartureObserved(w: Wrapper, final: Dot): Wrapper {
    w.(matrix := w.matrix.(finals := w.matrix.finals[final.pid := final.counter]))
  }

  function Pushed(w: Wrapper, marker: GcMarker): Wrapper
    requires OwnRowSurvives(w.matrix, marker.departed)
  {
    Wrapper(MarkerApplied(w.matrix, marker.stable, marker.departed, marker.marker.counter), w.markers + [marker])
  }

  /** `needs_gc`, given what `get_stable` returns. */
  predicate NeedsGc(w: Wrapper, stable: Option<DotSet>, departed: Option<seq<Pid>>) {
    (stable.Some? && LastStable(w) != stable) || departed.Some?
  }

  /** The two vectors have the same columns with the same counters. */
  ghost predicate SameColumns(a: DotSet, b: DotSet) {
    forall q: Pid :: (q in a <==> q in b) && (q in a ==> a[q] == b[q])
  }

  /** `gc_metadata`, given the frontier that `get_stable` returns. */
  function Metadata(w: Wrapper, stable: Option<DotSet>): GcMarker {
    if w.markers != [] then w.markers[|w.markers| - 1]
    else GcMarker(CurrentMarker(w), if stable.Some? then stable.value else map[], None)
  }

  // ---- Epochs over every run ----

  ghost predicate EpochOk(w: Wrapper) {
    && HasOwnRow(w.matrix) && w.matrix.ownPid != STABLE_REPLICA_PID
    && Get(OwnRow(w.matrix), STABLE_REPLICA_PID) <= Epoch(w)
    && (STABLE_REPLICA_PID in w.matrix.rows <==> w.markers != [])
    && (w.markers != [] ==>
          var last := w.markers[|w.markers| - 1];
          w.matrix.rows[STABLE_REPLICA_PID] == last.stable[STABLE_REPLICA_PID := last.marker.counter])
  }

  /** Counters of successive markers strictly increase, except that they stay at the largest i64. */
  ghost predicate Increasing(markers: seq<GcMarker>) {
    && (forall i | 0 <= i < |markers| :: INITIAL_GC_COUNTER < markers[i].marker.counter <= I64_MAX)
    && (forall i, j | 0 <= i < j < |markers| ::
          || markers[i].marker.counter < markers[j].marker.counter
          || markers[i].marker.counter == markers[j].marker.counter == I64_MAX)
  }

  datatype WrapperOp =
    | RefreshOwn(vv: DotSet)
    | ReceiveRow(p: Pid, vv: DotSet)
    | StartMarker(marker: GcMarker)
    | ObserveMarker(marker: GcMarker)
    | ObserveActive(p: Pid, gcCounter: Counter)
    | ObserveDeparted(final: Dot)
    | Rebind(p: Pid, vv: DotSet)

  /** What the callers guarantee: rows come from other real replicas, no marker retires the replica itself. */
  ghost predicate Allowed(w: Wrapper, op: WrapperOp) {
    match op
    case ReceiveRow(p, _) => p != STABLE_REPLICA_PID && p != w.matrix.ownPid
    case StartMarker(m) => m.marker == NextMarker(w) && Keeps(w, m)
    case ObserveMarker(m) =>
      m.marker.pid == STABLE_REPLICA_PID && Epoch(w) < m.marker.counter <= I64_MAX && Keeps(w, m)
    case Rebind(p, _) => p != STABLE_REPLICA_PID
    case _ => true
  }

  ghost predicate Keeps(w: Wrapper, m: GcMarker) {
    w.matrix.ownPid !in Announced(m.departed) && STABLE_REPLICA_PID !in Announced(m.departed)
  }

  lemma KeepsOwnRow(w: Wrapper, m: GcMarker)
    requires HasOwnRow(w.matrix) && Keeps(w, m)
    ensures OwnRowSurvives(w.matrix, m.departed)
  {
  }

  ghost function Done(w: Wrapper, op: WrapperOp): Wrapper
    requires HasOwnRow(w.matrix) && Allowed(w, op)
  {
    match op
    case RefreshOwn(vv) => Refreshed(w, vv)
    case ReceiveRow(p, vv) => RowReceived(w, p, vv)
    case StartMarker(m) => KeepsOwnRow(w, m); Pushed(w, m)
    case ObserveMarker(m) => KeepsOwnRow(w, m); Pushed(w, m)
    case ObserveActive(p, c) => ActiveObserved(w, p, c)
    case ObserveDeparted(final) => DepartureObserved(w, final)
    case Rebind(p, vv) => PidRebound(w, p, vv)
  }

  lemma PushedOk(w: Wrapper, m: GcMarker)
    requires EpochOk(w) && Keeps(w, m)
    ensures OwnRowSurvives(w.matrix, m.departed) && EpochOk(Pushed(w, m))
    ensures Get(OwnRow(Pushed(w, m).matrix), STABLE_REPLICA_PID) == m.marker.counter == Epoch(Pushed(w, m))
  {
    KeepsOwnRow(w, m);
  }

  lemma RowsKeepEpoch(w: Wrapper, p: Pid, vv: DotSet)
    requires EpochOk(w)
    ensures EpochOk(Refreshed(w, vv)) && OwnRow(Refreshed(w, vv).matrix) == Stamped(w, vv)
    ensures p != STABLE_REPLICA_PID && p != w.matrix.ownPid ==> EpochOk(RowReceived(w, p, vv))
  {
  }

  lemma IncreasingPush(markers: seq<GcMarker>, m: GcMarker)
    requires Increasing(markers) && INITIAL_GC_COUNTER < m.marker.counter <= I64_MAX
    requires markers != [] ==>
               var last := markers[|markers| - 1].marker.counter;
               last < m.marker.counter || last == m.marker.counter == I64_MAX
    ensures Increasing(markers + [m])
  {
  }

  lemma OpKeepsEpoch(w: Wrapper, op: WrapperOp)
    requires EpochOk(w) && Increasing(w.markers) && Allowed(w, op)
    ensures EpochOk(Done(w, op)) && Increasing(Done(w, op).markers)
    ensures Epoch(w) <= Epoch(Done(w, op))
  {
    hide MarkerApplied, OwnRowSurvives;
    match op
    case RefreshOwn(vv) => RowsKeepEpoch(w, 0, vv);
    case ReceiveRow(p, vv) => RowsKeepEpoch(w, p, vv);
    case StartMarker(m) => MarkerKeepsEpoch(w, m);
    case ObserveMarker(m) => MarkerKeepsEpoch(w, m);
    case _ => MembershipKeepsEpoch(w, op);
  }

  lemma MarkerKeepsEpoch(w: Wrapper, m: GcMarker)
    requires EpochOk(w) && Increasing(w.markers) && (Allowed(w, StartMarker(m)) || Allowed(w, ObserveMarker(m)))
    ensures OwnRowSurvives(w.matrix, m.departed) && EpochOk(Pushed(w, m)) && Increasing(Pushed(w, m).markers) && Epoch(w) <= Epoch(Pushed(w, m))
  {
    PushedOk(w, m);
    hide MarkerApplied, EpochOk;
    IncreasingPush(w.markers, m);
  }

  lemma MembershipKeepsEpoch(w: Wrapper, op: WrapperOp)
    requires EpochOk(w) && Allowed(w, op) && (op.ObserveActive? || op.ObserveDeparted? || op.Rebind?)
    ensures EpochOk(Done(w, op)) && Done(w, op).markers == w.markers
  {
  }

  ghost predicate AllowedRun(w: Wrapper, ops: seq<WrapperOp>)
    decreases |ops|
  {
    ops == [] || (HasOwnRow(w.matrix) && Allowed(w, ops[0]) && AllowedRun(Done(w, ops[0]), ops[1..]))
  }

  ghost function RunOf(w: Wrapper, ops: seq<WrapperOp>): Wrapper
    requires AllowedRun(w, ops)
    decreases |ops|
  {
    if ops == [] then w else RunOf(Done(w, ops[0]), ops[1..])
  }

  lemma {:induction false} RunKeepsEpoch(w: Wrapper, ops: seq<WrapperOp>)
    requires EpochOk(w) && Increasing(w.markers) && AllowedRun(w, ops)
    ensures EpochOk(RunOf(w, ops)) && Increasing(RunOf(w, ops).markers)
    decreases |ops|
  {
    if ops != [] {
      OpKeepsEpoch(w, ops[0]);
      RunKeepsEpoch(Done(w, ops[0]), ops[1..]);
    }
  }

  /**
   Over every run of a fresh wrapper: markers carry increasing counters, row 0 is the
   last marker's frontier stamped with its counter, and a refresh of the own row is
   always accepted.
   */
  lemma EpochsOverRuns(own: Pid, ops: seq<WrapperOp>, vv: DotSet)
    requires own != STABLE_REPLICA_PID && AllowedRun(Wrapper(Created(own), []), ops)
    ensures var w := RunOf(Wrapper(Created(own), []), ops);
            && EpochOk(w) && Increasing(w.markers)
            && OwnRow(Refreshed(w, vv).matrix) == Stamped(w, vv)
  {
    RunKeepsEpoch(Wrapper(Created(own), []), ops);
  }

  /** A replica is announced as departed only when the last applied frontier covers its final dot. */
  lemma AnnouncedIsCovered(w: Wrapper, stable: Option<DotSet>, departed: Option<seq<Pid>>, p: Pid)
    requires EpochOk(w) && IsStable(w.matrix, stable, departed)
    requires p in Announced(departed) && p != STABLE_REPLICA_PID
    ensures p in w.matrix.finals && w.markers != []
    ensures Contains(w.markers[|w.markers| - 1].stable, Dot(p, w.matrix.finals[p]))
  {
    assert p in Retirable(w.matrix);
  }

  /** Only an observed departure makes a replica retirable. */
  lemma {:induction false} FinalsOverRuns(w: Wrapper, ops: seq<WrapperOp>, p: Pid)
    requires AllowedRun(w, ops) && p !in w.matrix.finals
    requires forall op <- ops :: op.ObserveDeparted? ==> op.final.pid != p
    ensures p !in RunOf(w, ops).matrix.finals
    decreases |ops|
  {
    if ops != [] {
      assert ops[0] in ops;
      FinalsOverRuns(Done(w, ops[0]), ops[1..], p);
    }
  }

  /**
   Once its announcement is applied a replica is in no row, column or final dot, and no
   run of later operations gets it announced again unless its departure is observed anew.
   */
  lemma AnnouncedOnce(w: Wrapper, stable: DotSet, departed: Option<seq<Pid>>, p: Pid, ops: seq<WrapperOp>,
                      stable': Option<DotSet>, departed': Option<seq<Pid>>)
    requires EpochOk(w) && Increasing(w.markers) && IsStable(w.matrix, Some(stable), departed) && p in Announced(departed)
    requires Keeps(w, GcMarker(NextMarker(w), stable, departed))
    ensures OwnRowSurvives(w.matrix, departed)
    ensures var w' := Pushed(w, GcMarker(NextMarker(w), stable, departed));
            && EpochOk(w') && Increasing(w'.markers)
            && p !in w'.matrix.rows && p !in w'.matrix.finals && (forall q <- w'.matrix.rows :: p !in w'.matrix.rows[q])
            && (AllowedRun(w', ops) && (forall op <- ops :: op.ObserveDeparted? ==> op.final.pid != p) ==>
                  && EpochOk(RunOf(w', ops))
                  && (IsStable(RunOf(w', ops).matrix, stable', departed') ==> p !in Announced(departed')))
  {
    var marker := GcMarker(NextMarker(w), stable, departed);
    PushedOk(w, marker);
    AppliedMarkerErases(w.matrix, stable, departed, marker.marker.counter);
    assert p in Retirable(w.matrix);
    hide AllowedRun, RunOf, IsStable;
    MarkersIncrease(w, marker);
    var w' := Pushed(w, marker);
    if AllowedRun(w', ops) && forall op <- ops :: op.ObserveDeparted? ==> op.final.pid != p {
      RunKeepsEpoch(w', ops);
      FinalsOverRuns(w', ops, p);
      NotFinalNotAnnounced(RunOf(w', ops).matrix, stable', departed', p);
    }
  }

  lemma MarkersIncrease(w: Wrapper, marker: GcMarker)
    requires EpochOk(w) && Increasing(w.markers) && marker.marker == NextMarker(w) && OwnRowSurvives(w.matrix, marker.departed)
    ensures Increasing(Pushed(w, marker).markers)
  {
    IncreasingPush(w.markers, marker);
  }

  lemma NotFinalNotAnnounced(m: Matrix, stable: Option<DotSet>, departed: Option<seq<Pid>>, p: Pid)
    requires HasOwnRow(m) && p !in m.finals
    ensures IsStable(m, stable, departed) ==> p !in Announced(departed)
  {
  }

  // ---- When a round is due ----

  lemma SameColumnsEqual(a: DotSet, b: DotSet)
    ensures SameColumns(a, b) <==> a == b
  {
  }

  /** With a frontier at hand a round is due if a departure can be announced, if it is the first, or if some column has changed. */
  lemma RoundDueIff(w: Wrapper, stable: DotSet, departed: Option<seq<Pid>>)
    ensures NeedsGc(w, Some(stable), departed) <==>
            departed.Some? || w.markers == [] || !SameColumns(stable, w.markers[|w.markers| - 1].stable)
  {
    hide SameColumns;
    if w.markers != [] {
      SameColumnsEqual(stable, w.markers[|w.markers| - 1].stable);
    }
  }

  /** `t` has a column for every observer and every column of an observer's row, each at its minimum over those rows. */
  ghost predicate IsFrontier(m: Matrix, t: DotSet)
    requires HasOwnRow(m)
  {
    && (forall q: Pid :: q in t <==> q in Observers(m) || exists p <- Observers(m) :: q in m.rows[p])
    && (forall q <- t :: IsColumnMin(m, Observers(m), q, t[q]))
  }

  /** Nothing is left to collect: no departure can be announced, and the last marker's frontier still is the frontier. */
  ghost predicate NothingToCollect(w: Wrapper)
    requires HasOwnRow(w.matrix)
  {
    && w.markers != [] && IsFrontier(w.matrix, w.markers[|w.markers| - 1].stable)
    && (forall p <- w.matrix.finals ::
          !(STABLE_REPLICA_PID in w.matrix.rows && p in w.matrix.rows[STABLE_REPLICA_PID]
            && w.matrix.finals[p] <= w.matrix.rows[STABLE_REPLICA_PID][p]))
  }

  /** No round is due if and only if nothing is left to collect, which the rows, final dots and last marker alone decide. */
  lemma NoRoundDueIff(w: Wrapper, stable: Option<DotSet>, departed: Option<seq<Pid>>)
    requires EpochOk(w) && IsStable(w.matrix, stable, departed)
    ensures !NeedsGc(w, stable, departed) <==> Observers(w.matrix) == {} || NothingToCollect(w)
  {
    hide IsFrontier, IsColumnMin, Observers;
    var m := w.matrix;
    NoneRetirable(m);
    if Observers(m) != {} && w.markers != [] && Retirable(m) == {} {
      FrontierIs(m, stable.value, w.markers[|w.markers| - 1].stable);
    }
  }

  lemma NoneRetirable(m: Matrix)
    ensures Retirable(m) == {} <==>
            forall p <- m.finals ::
              !(STABLE_REPLICA_PID in m.rows && p in m.rows[STABLE_REPLICA_PID] && m.finals[p] <= m.rows[STABLE_REPLICA_PID][p])
  {
    if p :| p in Retirable(m) {
      assert p in m.finals;
    }
    if p :| p in m.finals && STABLE_REPLICA_PID in m.rows && p in m.rows[STABLE_REPLICA_PID] && m.finals[p] <= m.rows[STABLE_REPLICA_PID][p] {
      assert p in Retirable(m);
    }
  }

  lemma FrontierColumns(m: Matrix, q: Pid)
    requires HasOwnRow(m)
    ensures q in Columns(m, Observers(m)) <==> exists p <- Observers(m) :: q in m.rows[p]
  {
    hide Observers;
  }

  lemma OneColumnMin(m: Matrix, observers: set<Pid>, q: Pid, v: Counter, v': Counter)
    requires observers <= m.rows.Keys && IsColumnMin(m, observers, q, v) && IsColumnMin(m, observers, q, v')
    ensures v == v'
  {
  }

  lemma FrontierIs(m: Matrix, s: DotSet, t: DotSet)
    requires HasOwnRow(m)
    requires s.Keys == Columns(m, Observers(m)) + Observers(m) && forall q <- s :: IsColumnMin(m, Observers(m), q, s[q])
    ensures s == t <==> IsFrontier(m, t)
  {
    hide IsColumnMin, Columns;
    forall q: Pid ensures q in s <==> q in Observers(m) || exists p <- Observers(m) :: q in m.rows[p] {
      FrontierColumns(m, q);
    }
    if IsFrontier(m, t) {
      assert forall q: Pid :: q in s <==> q in t;
      forall q <- s ensures s[q] == t[q] {
        OneColumnMin(m, Observers(m), q, s[q], t[q]);
      }
      assert s == t;
    }
  }

  /**
   Rounds do not come to rest: the frontier of a round has the epoch before it, so once
   every observer has reported under the epoch of that round another one is due, even if
   no replica has mutated anything.
   */
  lemma RoundsGoOn(w: Wrapper, stable: DotSet, departed: Option<seq<Pid>>, w': Wrapper, stable': Option<DotSet>, departed': Option<seq<Pid>>)
    requires EpochOk(w) && 0 <= Epoch(w) < I64_MAX && IsStable(w.matrix, Some(stable), departed) && w.matrix.ownPid in Observers(w.matrix)
    requires EpochOk(w') && w'.markers == w.markers + [GcMarker(NextMarker(w), stable, departed)]
    requires IsStable(w'.matrix, stable', departed') && Observers(w'.matrix) != {}
    requires forall p <- Observers(w'.matrix) :: Epoch(w') <= Get(w'.matrix.rows[p], STABLE_REPLICA_PID)
    ensures NeedsGc(w', stable', departed')
  {
    var p :| p in Observers(w'.matrix);
    assert STABLE_REPLICA_PID in w'.matrix.rows[p];
    assert STABLE_REPLICA_PID in Columns(w'.matrix, Observers(w'.matrix));
    if departed'.None? {
      assert IsColumnMin(w'.matrix, Observers(w'.matrix), STABLE_REPLICA_PID, stable'.value[STABLE_REPLICA_PID]);
      assert STABLE_REPLICA_PID in stable ==> IsColumnMin(w.matrix, Observers(w.matrix), STABLE_REPLICA_PID, stable[STABLE_REPLICA_PID]);
    }
  }

  // ---- Rows of older epochs ----

  ghost predicate PartOf(row: DotSet, whole: DotSet) {
    forall q <- row :: q in whole && row[q] == whole[q]
  }

  /** Every row was there before, was reported under at least this epoch, or comes from the listing of members. */
  ghost predicate Sourced(before: Matrix, ops: seq<WrapperOp>, epoch: Counter, m: Matrix) {
    forall p <- m.rows | p != STABLE_REPLICA_PID ::
      || (p in before.rows && PartOf(m.rows[p], before.rows[p]))
      || epoch <= Get(m.rows[p], STABLE_REPLICA_PID)
      || exists c: Counter :: ObserveActive(p, c) in ops && PartOf(m.rows[p], NewRow(p, c))
  }

  lemma PushedSourced(before: Matrix, ops: seq<WrapperOp>, epoch: Counter, w: Wrapper, m: GcMarker)
    requires EpochOk(w) && Keeps(w, m) && Sourced(before, ops, epoch, w.matrix) && epoch <= m.marker.counter
    ensures OwnRowSurvives(w.matrix, m.departed) && Sourced(before, ops, epoch, Pushed(w, m).matrix)
  {
    PushedOk(w, m);
    MarkerEffect(w.matrix, m.stable, m.departed, m.marker.counter);
    var m0, m1 := w.matrix, Pushed(w, m).matrix;
    hide MarkerApplied, EpochOk, OwnRowSurvives;
    forall p <- m1.rows | p != STABLE_REPLICA_PID
      ensures || (p in before.rows && PartOf(m1.rows[p], before.rows[p]))
              || epoch <= Get(m1.rows[p], STABLE_REPLICA_PID)
              || exists c: Counter :: ObserveActive(p, c) in ops && PartOf(m1.rows[p], NewRow(p, c))
    {
      if p != m0.ownPid {
        assert IsStripped(m0, m.departed, m0.rows[p], m1.rows[p]);
        assert PartOf(m1.rows[p], m0.rows[p]);
        assert STABLE_REPLICA_PID in m0.rows[p] ==> STABLE_REPLICA_PID in m1.rows[p];
      }
    }
  }

  lemma OpSourced(before: Matrix, ops: seq<WrapperOp>, epoch: Counter, w: Wrapper, op: WrapperOp)
    requires EpochOk(w) && Allowed(w, op) && Sourced(before, ops, epoch, w.matrix)
    requires epoch <= Get(OwnRow(w.matrix), STABLE_REPLICA_PID) && (op.StartMarker? ==> epoch <= op.marker.marker.counter)
    ensures Sourced(before, ops + [op], epoch, Done(w, op).matrix)
    ensures HasOwnRow(Done(w, op).matrix) && epoch <= Get(OwnRow(Done(w, op).matrix), STABLE_REPLICA_PID)
  {
    var ops' := ops + [op];
    assert op in ops' && Sourced(before, ops', epoch, w.matrix) by {
      assert forall o <- ops :: o in ops';
    }
    if op.StartMarker? || op.ObserveMarker? {
      PushedOk(w, op.marker);
      PushedSourced(before, ops', epoch, w, op.marker);
    } else if op.ObserveActive? {
      assert ObserveActive(op.p, op.gcCounter) in ops' && PartOf(NewRow(op.p, op.gcCounter), NewRow(op.p, op.gcCounter));
    }
  }

  lemma {:induction false} RunSourced(before: Matrix, done: seq<WrapperOp>, epoch: Counter, w: Wrapper, ops: seq<WrapperOp>)
    requires EpochOk(w) && Increasing(w.markers) && AllowedRun(w, ops) && Sourced(before, done, epoch, w.matrix)
    requires epoch <= Get(OwnRow(w.matrix), STABLE_REPLICA_PID)
    ensures Sourced(before, done + ops, epoch, RunOf(w, ops).matrix)
    decreases |ops|
  {
    hide Sourced, EpochOk, Increasing, Allowed, Done;
    if ops == [] {
      assert done + ops == done;
    } else {
      EpochOfOwn(w, ops[0]);
      OpKeepsEpoch(w, ops[0]);
      OpSourced(before, done, epoch, w, ops[0]);
      RunSourced(before, done + [ops[0]], epoch, Done(w, ops[0]), ops[1..]);
      assert done + [ops[0]] + ops[1..] == done + ops;
    }
  }

  lemma EpochOfOwn(w: Wrapper, op: WrapperOp)
    requires EpochOk(w) && Allowed(w, op) && Increasing(w.markers)
    ensures op.StartMarker? ==> Get(OwnRow(w.matrix), STABLE_REPLICA_PID) <= op.marker.marker.counter
  {
  }

  /**
   Rows of older epochs are rejected: over every run after a marker, a row that was not
   there before carries at least the epoch of that marker, or is the conservative row of
   a listed member. So no late request brings back a column that the marker erased.
   */
  lemma RowsOverRuns(w: Wrapper, marker: GcMarker, ops: seq<WrapperOp>)
    requires EpochOk(w) && Increasing(w.markers) && (Allowed(w, StartMarker(marker)) || Allowed(w, ObserveMarker(marker)))
    requires OwnRowSurvives(w.matrix, marker.departed) && AllowedRun(Pushed(w, marker), ops)
    ensures Sourced(Pushed(w, marker).matrix, ops, marker.marker.counter, RunOf(Pushed(w, marker), ops).matrix)
  {
    PushedOk(w, marker);
    MarkerKeepsEpoch(w, marker);
    var w' := Pushed(w, marker);
    assert forall p <- w'.matrix.rows :: PartOf(w'.matrix.rows[p], w'.matrix.rows[p]);
    RunSourced(w'.matrix, [], marker.marker.counter, w', ops);
    assert [] + ops == ops;
  }

  // ---- Recovery ----

  ghost predicate KeepsAll(own: Pid, markers: seq<GcMarker>) {
    forall i | 0 <= i < |markers| :: own !in Announced(markers[i].departed) && STABLE_REPLICA_PID !in Announced(markers[i].departed)
  }

  /** Replay of the journaled markers. */
  function MarkersPushed(w: Wrapper, markers: seq<GcMarker>): (w': Wrapper)
    requires HasOwnRow(w.matrix) && w.matrix.ownPid != STABLE_REPLICA_PID && KeepsAll(w.matrix.ownPid, markers)
    ensures HasOwnRow(w'.matrix) && w'.matrix.ownPid == w.matrix.ownPid && w'.markers == w.markers + markers
    decreases |markers|
  {
    if markers == [] then w
    else
      KeepsOwnRow(w, markers[0]);
      var w1 := Pushed(w, markers[0]);
      assert markers == [markers[0]] + markers[1..];
      MarkersPushed(w1, markers[1..])
  }

  function NewRow(p: Pid, c: Counter): DotSet {
    map[p := -1][STABLE_REPLICA_PID := c]
  }

  function NewRows(m: Matrix, members: map<Pid, Counter>): map<Pid, DotSet> {
    map p | p in members && p != STABLE_REPLICA_PID && p != m.ownPid && p !in m.rows :: NewRow(p, members[p])
  }

  /** `enqueue_members`: every listed replica that has no row yet gets a conservative one. */
  function Found(w: Wrapper, members: map<Pid, Counter>): Wrapper {
    w.(matrix := w.matrix.(rows := NewRows(w.matrix, members) + w.matrix.rows))
  }

  lemma PushKeepsOwn(w: Wrapper, m: GcMarker)
    requires HasOwnRow(w.matrix) && w.matrix.ownPid != STABLE_REPLICA_PID && Keeps(w, m)
    ensures OwnRowSurvives(w.matrix, m.departed) && HasOwnRow(Pushed(w, m).matrix) && Pushed(w, m).matrix.ownPid == w.matrix.ownPid
  {
    KeepsOwnRow(w, m);
  }

  lemma RebindKeepsOwn(w: Wrapper, own: Pid, vv: DotSet)
    ensures HasOwnRow(PidRebound(w, own, vv).matrix) && PidRebound(w, own, vv).matrix.ownPid == own
  {
  }

  lemma FoundNone(w: Wrapper)
    ensures Found(w, map[]) == w
  {
    assert Found(w, map[]).matrix.rows == w.matrix.rows;
  }

  lemma NewRowIs(p: Pid, c: Counter)
    ensures NewRow(p, c) == map[p := -1][STABLE_REPLICA_PID := c]
  {
  }

  lemma FoundOne(w: Wrapper, done: map<Pid, Counter>, p: Pid, c: Counter)
    requires p !in done
    ensures Found(w, done[p := c]) == ActiveObserved(Found(w, done), p, c)
  {
    var m := w.matrix;
    var before, after := NewRows(m, done), NewRows(m, done[p := c]);
    hide NewRow;
    if p == STABLE_REPLICA_PID || p == m.ownPid || p in m.rows {
      assert after == before;
    } else {
      assert after == before[p := NewRow(p, c)];
      hide NewRows;
      assert after + m.rows == (before + m.rows)[p := NewRow(p, c)];
      NewRowIs(p, c);
    }
  }

  /** The wrapper of a replica that comes up from its journal: first snapshot, markers, own row, members. */
  function RestoredWrapper(own: Pid, vv: DotSet, markers: seq<GcMarker>, members: map<Pid, Counter>): Wrapper
    requires own != STABLE_REPLICA_PID && KeepsAll(own, markers)
  {
    Found(PidRebound(MarkersPushed(PidRebound(Wrapper(Created(own), []), own, map[]), markers), own, vv), members)
  }

  /** Only the own row and row 0 outlive a restart; row 0 is the last marker's frontier. */
  ghost predicate Bare(w: Wrapper, own: Pid) {
    && w.matrix.ownPid == own && own in w.matrix.rows && w.matrix.rows.Keys <= {own, STABLE_REPLICA_PID} && w.matrix.finals == map[]
    && (STABLE_REPLICA_PID in w.matrix.rows <==> w.markers != [])
    && (w.markers != [] ==>
          var last := w.markers[|w.markers| - 1];
          w.matrix.rows[STABLE_REPLICA_PID] == last.stable[STABLE_REPLICA_PID := last.marker.counter])
  }

  lemma BarePush(w: Wrapper, own: Pid, m: GcMarker)
    requires own != STABLE_REPLICA_PID && Bare(w, own) && own !in Announced(m.departed) && STABLE_REPLICA_PID !in Announced(m.departed)
    ensures OwnRowSurvives(w.matrix, m.departed) && Bare(Pushed(w, m), own)
  {
    KeepsOwnRow(w, m);
  }

  lemma {:induction false} BareMarkers(w: Wrapper, own: Pid, markers: seq<GcMarker>)
    requires own != STABLE_REPLICA_PID && Bare(w, own) && KeepsAll(own, markers)
    ensures Bare(MarkersPushed(w, markers), own)
    decreases |markers|
  {
    if markers != [] {
      BarePush(w, own, markers[0]);
      hide Bare, Pushed;
      BareMarkers(Pushed(w, markers[0]), own, markers[1..]);
    }
  }

  /** What a restart leaves: a stamped own row, row 0, and conservative rows of the listed members. */
  ghost predicate IsRestored(w: Wrapper, own: Pid, vv: DotSet, markers: seq<GcMarker>, members: map<Pid, Counter>) {
    && EpochOk(w) && w.matrix.ownPid == own && w.markers == markers && w.matrix.finals == map[]
    && OwnRow(w.matrix) == Stamped(w, vv)
    && (forall p :: p in w.matrix.rows <==> p == own || (p in members && p != STABLE_REPLICA_PID) || (p == STABLE_REPLICA_PID && markers != []))
    && (forall p <- members | p != STABLE_REPLICA_PID && p != own :: w.matrix.rows[p] == map[p := -1][STABLE_REPLICA_PID := members[p]])
  }

  lemma FoundIs(w: Wrapper, own: Pid, vv: DotSet, members: map<Pid, Counter>)
    requires own != STABLE_REPLICA_PID && Bare(w, own) && OwnRow(w.matrix) == Stamped(w, vv)
    ensures IsRestored(Found(w, members), own, vv, w.markers, members)
  {
  }

  lemma ReboundBare(w: Wrapper, own: Pid, vv: DotSet)
    requires own != STABLE_REPLICA_PID && Bare(w, own)
    ensures Bare(PidRebound(w, own, vv), own) && OwnRow(PidRebound(w, own, vv).matrix) == Stamped(w, vv)
  {
  }

  lemma FirstBare(own: Pid)
    requires own != STABLE_REPLICA_PID
    ensures Bare(PidRebound(Wrapper(Created(own), []), own, map[]), own)
  {
  }

  lemma RestoredIs(own: Pid, vv: DotSet, markers: seq<GcMarker>, members: map<Pid, Counter>)
    requires own != STABLE_REPLICA_PID && KeepsAll(own, markers)
    ensures IsRestored(RestoredWrapper(own, vv, markers, members), own, vv, markers, members)
  {
    hide Bare, MarkersPushed, Found, IsRestored, KeepsAll;
    var w0 := PidRebound(Wrapper(Created(own), []), own, map[]);
    FirstBare(own);
    BareMarkers(w0, own, markers);
    assert [] + markers == markers;
    var w1 := MarkersPushed(w0, markers);
    ReboundBare(w1, own, vv);
    FoundIs(PidRebound(w1, own, vv), own, vv, members);
  }

  // ---- In place ----

  class CRDTWrapper {
    const versionMatrix: VersionMatrix
    var gcMarkers: seq<GcMarker>

    function Value(): Wrapper
      reads this, versionMatrix
    {
      Wrapper(versionMatrix.Value(), gcMarkers)
    }

    constructor (own: Pid)
      ensures Value() == Wrapper(Created(own), []) && fresh(versionMatrix)
    {
      versionMatrix := new VersionMatrix(own);
      gcMarkers := [];
    }

    /** Recovery: the first snapshot, the journaled markers, the own row rebound, the members listed. */
    constructor Restore(own: Pid, vv: DotSet, markers: seq<GcMarker>, members: map<Pid, Counter>)
      requires own != STABLE_REPLICA_PID && KeepsAll(own, markers)
      ensures Value() == RestoredWrapper(own, vv, markers, members) && fresh(versionMatrix)
    {
      versionMatrix := new VersionMatrix(own);
      gcMarkers := [];
      new;
      hide MarkersPushed, Found, PidRebound, KeepsAll;
      RebindKeepsOwn(Wrapper(Created(own), []), own, map[]);
      RebindOwnPid(own, map[]);
      ReplayMarkers(markers);
      RebindOwnPid(own, vv);
      EnqueueMembers(members);
    }

    method UpdateOwnVersionVector(vv: DotSet) returns (stamped: DotSet)
      requires HasOwnRow(Value().matrix)
      modifies this, versionMatrix
      ensures Value() == Refreshed(old(Value()), vv) && stamped == Stamped(old(Value()), vv)
    {
      stamped := vv[STABLE_REPLICA_PID := CurrentMarker(Value()).counter];
      versionMatrix.Update(versionMatrix.ownPid, stamped);
    }

    method RebindOwnPid(p: Pid, vv: DotSet)
      modifies this, versionMatrix
      ensures Value() == PidRebound(old(Value()), p, vv)
    {
      versionMatrix.RebindOwnPid(p, vv[STABLE_REPLICA_PID := CurrentMarker(Value()).counter]);
    }

    method ObserveActiveReplica(p: Pid, gcCounter: Counter)
      modifies this, versionMatrix
      ensures Value() == ActiveObserved(old(Value()), p, gcCounter)
    {
      if p != versionMatrix.ownPid {
        versionMatrix.InsertPid(p, gcCounter);
      }
    }

    method ObserveDepartedReplica(final: Dot)
      modifies this, versionMatrix
      ensures Value() == DepartureObserved(old(Value()), final)
    {
      versionMatrix.InsertFinalDot(final);
    }

    method PushGcMarker(marker: GcMarker)
      requires OwnRowSurvives(Value().matrix, marker.departed)
      modifies this, versionMatrix
      ensures Value() == Pushed(old(Value()), marker)
    {
      versionMatrix.ApplyGcMarker(marker.stable, marker.departed, marker.marker.counter);
      gcMarkers := gcMarkers + [marker];
    }

    method ReplayMarkers(markers: seq<GcMarker>)
      requires HasOwnRow(Value().matrix) && Value().matrix.ownPid != STABLE_REPLICA_PID && KeepsAll(Value().matrix.ownPid, markers)
      modifies this, versionMatrix
      ensures Value() == MarkersPushed(old(Value()), markers)
    {
      hide MarkerApplied;
      var i := 0;
      while i < |markers|
        invariant 0 <= i <= |markers|
        invariant HasOwnRow(Value().matrix) && Value().matrix.ownPid == old(Value().matrix.ownPid)
        invariant KeepsAll(Value().matrix.ownPid, markers[i..])
        invariant MarkersPushed(old(Value()), markers) == MarkersPushed(Value(), markers[i..])
      {
        assert markers[i..][0] == markers[i] && markers[i..][1..] == markers[i + 1..];
        KeepsOwnRow(Value(), markers[i]);
        PushKeepsOwn(Value(), markers[i]);
        PushGcMarker(markers[i]);
        i := i + 1;
      }
    }

    method EnqueueMembers(members: map<Pid, Counter>)
      modifies this, versionMatrix
      ensures Value() == Found(old(Value()), members)
    {
      hide Found;
      ghost var w := Value();
      FoundNone(w);
      var rest := members.Keys;
      ghost var done: map<Pid, Counter> := map[];
      while rest != {}
        invariant rest <= members.Keys && Value() == Found(w, done)
        invariant done == map p | p in members && p !in rest :: members[p]
        decreases rest
      {
        var p :| p in rest;
        FoundOne(w, done, p, members[p]);
        ObserveActiveReplica(p, members[p]);
        rest, done := rest - {p}, done[p := members[p]];
      }
      assert done == members;
    }

    method NeedsGcNow() returns (needed: bool, stable: Option<DotSet>, departed: Option<seq<Pid>>)
      requires HasOwnRow(Value().matrix)
      ensures IsStable(Value().matrix, stable, departed)
      ensures needed == NeedsGc(Value(), stable, departed)
      ensures EpochOk(Value()) ==> (needed <==> Observers(Value().matrix) != {} && !NothingToCollect(Value()))
    {
      stable, departed := versionMatrix.GetStable();
      needed := NeedsGc(Value(), stable, departed);
      if EpochOk(Value()) {
        NoRoundDueIff(Value(), stable, departed);
      }
    }

    method GcMetadata() returns (marker: GcMarker, ghost stable: Option<DotSet>, ghost departed: Option<seq<Pid>>)
      requires HasOwnRow(Value().matrix)
      ensures IsStable(Value().matrix, stable, departed)
      ensures marker == Metadata(Value(), stable)
      ensures gcMarkers != [] ==> marker == gcMarkers[|gcMarkers| - 1]
      ensures gcMarkers == [] ==> marker.marker == Dot(STABLE_REPLICA_PID, INITIAL_GC_COUNTER) && marker.departed == None
      ensures gcMarkers == [] && Observers(Value().matrix) != {} ==> IsStable(Value().matrix, Some(marker.stable), departed)
    {
      var s, d := versionMatrix.GetStable();
      stable, departed := s, d;
      marker := Metadata(Value(), s);
    }
  }
}

/**
 The version matrix (`VersionMatrix` in `src/dots.rs`).

 A replica keeps one row per replica it knows, its own row among them, and in
 row 0 the frontier of the last GC marker it applied. `Matrix` is the value of
 that table and the functions say what each operation makes of it; the class
 below carries the operations out in place.
 */
module VersionMatrices {
  import opened Options
  import opened Dots
  import opened Orders

  datatype Matrix = Matrix(ownPid: Pid, rows: map<Pid, DotSet>, finals: map<Pid, Counter>)

  ghost predicate HasOwnRow(m: Matrix) {
    m.ownPid in m.rows
  }

  function OwnRow(m: Matrix): DotSet
    requires HasOwnRow(m)
  {
    m.rows[m.ownPid]
  }

  function Created(own: Pid): Matrix {
    Matrix(own, map[own := map[own := -1][STABLE_REPLICA_PID := -1]], map[])
  }

  /** A row of an older GC epoch than the own row's is rejected. */
  function Updated(m: Matrix, p: Pid, vv: DotSet): Matrix
    requires HasOwnRow(m)
  {
    if Get(OwnRow(m), STABLE_REPLICA_PID) <= Get(vv, STABLE_REPLICA_PID) then m.(rows := m.rows[p := vv]) else m
  }

  function Discovered(m: Matrix, p: Pid, gcCounter: Counter): Matrix {
    if p == STABLE_REPLICA_PID || p in m.rows then m
    else m.(rows := m.rows[p := map[p := -1][STABLE_REPLICA_PID := gcCounter]])
  }

  function Rebound(m: Matrix, p: Pid, vv: DotSet): Matrix {
    m.(ownPid := p, rows := m.rows[p := vv])
  }

  /** Takes the rows, columns and final dots of `gone` out of the matrix. */
  function Erased(m: Matrix, gone: set<Pid>): Matrix {
    m.(rows := map p | p in m.rows && p !in gone :: m.rows[p] - gone, finals := m.finals - gone)
  }

  /** A pid whose final dot is known is erased only once row 0 covers that dot. */
  function Removable(m: Matrix, pids: seq<Pid>): set<Pid> {
    if STABLE_REPLICA_PID !in m.rows then {}
    else set p | p in pids && (p in m.finals ==> Contains(m.rows[STABLE_REPLICA_PID], Dot(p, m.finals[p])))
  }

  function Announced(departed: Option<seq<Pid>>): set<Pid> {
    if departed.Some? then set p | p in departed.value else {}
  }

  function PidsRemoved(m: Matrix, departed: Option<seq<Pid>>): Matrix {
    if departed.Some? then Erased(m, Removable(m, departed.value)) else m
  }

  /** False exactly when `apply_gc_marker` would panic because it erased its own row. */
  ghost predicate OwnRowSurvives(m: Matrix, departed: Option<seq<Pid>>) {
    m.ownPid == STABLE_REPLICA_PID || m.ownPid in PidsRemoved(m, departed).rows
  }

  function MarkerApplied(m: Matrix, stable: DotSet, departed: Option<seq<Pid>>, gcCounter: Counter): Matrix
    requires OwnRowSurvives(m, departed)
  {
    var m1 := PidsRemoved(m, departed);
    var rows := m1.rows[STABLE_REPLICA_PID := stable[STABLE_REPLICA_PID := gcCounter]];
    m1.(rows := rows[m.ownPid := rows[m.ownPid][STABLE_REPLICA_PID := gcCounter]])
  }

  /** A marker takes `p` out: it announces it, and the frontier it replaces covers the final dot of `p`, if that is known. */
  ghost predicate TakenOut(m: Matrix, departed: Option<seq<Pid>>, p: Pid) {
    && departed.Some? && p in departed.value && STABLE_REPLICA_PID in m.rows
    && (p in m.finals ==> p in m.rows[STABLE_REPLICA_PID] && m.finals[p] <= m.rows[STABLE_REPLICA_PID][p])
  }

  /** `row'` is `row` without the columns of the replicas that are taken out. */
  ghost predicate IsStripped(m: Matrix, departed: Option<seq<Pid>>, row: DotSet, row': DotSet) {
    forall q: Pid :: (q in row' <==> q in row && !TakenOut(m, departed, q)) && (q in row' ==> row'[q] == row[q])
  }

  /**
   What a marker does to every entry: replicas that are taken out lose row, columns and
   final dot; an announced replica whose final dot is known and not covered keeps all of
   them, as does everyone else; row 0 and the epoch of the own row are the marker's.
   */
  lemma MarkerEffect(m: Matrix, stable: DotSet, departed: Option<seq<Pid>>, gcCounter: Counter)
    requires OwnRowSurvives(m, departed) && m.ownPid != STABLE_REPLICA_PID && STABLE_REPLICA_PID !in Announced(departed)
    ensures var m' := MarkerApplied(m, stable, departed, gcCounter);
            && m'.ownPid == m.ownPid
            && (forall p: Pid | p != STABLE_REPLICA_PID :: p in m'.rows <==> p in m.rows && !TakenOut(m, departed, p))
            && (forall p <- m'.rows | p != STABLE_REPLICA_PID && p != m.ownPid :: IsStripped(m, departed, m.rows[p], m'.rows[p]))
            && IsStripped(m, departed, m.rows[m.ownPid][STABLE_REPLICA_PID := gcCounter], m'.rows[m.ownPid])
            && STABLE_REPLICA_PID in m'.rows && m'.rows[STABLE_REPLICA_PID] == stable[STABLE_REPLICA_PID := gcCounter]
            && IsStripped(m, departed, m.finals, m'.finals)
  {
    hide TakenOut, IsStripped, Erased, Removable;
    var m1 := PidsRemoved(m, departed);
    RemovalEffect(m, departed);
    var own := m.rows[m.ownPid];
    assert !TakenOut(m, departed, STABLE_REPLICA_PID) by {
      NotTakenOut(m, departed);
    }
    StrippedStamp(m, departed, own, m1.rows[m.ownPid], gcCounter);
  }

  lemma StrippedStamp(m: Matrix, departed: Option<seq<Pid>>, row: DotSet, row': DotSet, gcCounter: Counter)
    requires IsStripped(m, departed, row, row') && !TakenOut(m, departed, STABLE_REPLICA_PID)
    ensures IsStripped(m, departed, row[STABLE_REPLICA_PID := gcCounter], row'[STABLE_REPLICA_PID := gcCounter])
  {
    hide TakenOut;
  }

  lemma NotTakenOut(m: Matrix, departed: Option<seq<Pid>>)
    requires STABLE_REPLICA_PID !in Announced(departed)
    ensures !TakenOut(m, departed, STABLE_REPLICA_PID)
  {
  }

  lemma RemovalEffect(m: Matrix, departed: Option<seq<Pid>>)
    ensures var m1 := PidsRemoved(m, departed);
            && m1.ownPid == m.ownPid && IsStripped(m, departed, m.finals, m1.finals)
            && (forall p: Pid :: p in m1.rows <==> p in m.rows && !TakenOut(m, departed, p))
            && (forall p <- m1.rows :: IsStripped(m, departed, m.rows[p], m1.rows[p]))
  {
    assert forall p: Pid :: TakenOut(m, departed, p) <==> departed.Some? && p in Removable(m, departed.value);
    hide Removable, TakenOut;
  }

  // ---- The stable frontier ----

  /** The rows that still take part: not row 0, and not a departed replica whose final dot the own row has. */
  function Observers(m: Matrix): set<Pid>
    requires HasOwnRow(m)
  {
    set p | p in m.rows && p != STABLE_REPLICA_PID
            && !(p in m.finals && Contains(OwnRow(m), Dot(p, m.finals[p])))
  }

  /** The departed replicas whose final dot the last applied frontier covers. */
  function Retirable(m: Matrix): set<Pid> {
    if STABLE_REPLICA_PID !in m.rows then {}
    else set p | p in m.finals && Contains(m.rows[STABLE_REPLICA_PID], Dot(p, m.finals[p]))
  }

  ghost function Columns(m: Matrix, observers: set<Pid>): set<Pid>
    requires observers <= m.rows.Keys
  {
    set p, q | p in observers && q in m.rows[p] :: q
  }

  /** `v` is the minimum of column `q` over the given rows, a missing entry read as -1. */
  ghost predicate IsColumnMin(m: Matrix, observers: set<Pid>, q: Pid, v: Counter)
    requires observers <= m.rows.Keys
  {
    && (forall p <- observers :: v <= Get(m.rows[p], q))
    && (exists p <- observers :: v == Get(m.rows[p], q))
  }

  function PidOrder(): (Pid, Pid) -> bool {
    (a: Pid, b: Pid) => a <= b
  }

  /**
   What `get_stable` returns, said without any iteration: no frontier without an
   observer; otherwise the column minima over the observer rows, on the union of
   their columns and the observers themselves, without the retirable replicas.
   */
  ghost predicate IsStable(m: Matrix, stable: Option<DotSet>, departed: Option<seq<Pid>>)
    requires HasOwnRow(m)
  {
    if Observers(m) == {} then stable == None && departed == None
    else
      && stable.Some?
      && stable.value.Keys == Columns(m, Observers(m)) + Observers(m) - Retirable(m)
      && (forall q <- stable.value :: IsColumnMin(m, Observers(m), q, stable.value[q]))
      && (departed.None? <==> Retirable(m) == {})
      && (departed.Some? ==> Lists(PidOrder(), departed.value, Retirable(m)))
  }

  /** The result does not depend on the order in which rows and final dots are walked. */
  lemma StableUnique(m: Matrix, s1: Option<DotSet>, d1: Option<seq<Pid>>, s2: Option<DotSet>, d2: Option<seq<Pid>>)
    requires HasOwnRow(m) && IsStable(m, s1, d1) && IsStable(m, s2, d2)
    ensures s1 == s2 && d1 == d2
  {
    if Observers(m) != {} {
      forall q <- s1.value ensures s1.value[q] == s2.value[q] {
        assert IsColumnMin(m, Observers(m), q, s1.value[q]) && IsColumnMin(m, Observers(m), q, s2.value[q]);
      }
      assert s1.value == s2.value;
      if d1.Some? {
        ListingUnique(PidOrder(), d1.value, d2.value, Retirable(m));
      }
    }
  }

  /** A real dot inside the frontier is inside every observer's row. */
  lemma StableSeenByObservers(m: Matrix, stable: DotSet, departed: Option<seq<Pid>>, dot: Dot, p: Pid)
    requires HasOwnRow(m) && IsStable(m, Some(stable), departed)
    requires Contains(stable, dot) && 0 <= dot.counter && p in Observers(m)
    ensures Contains(m.rows[p], dot)
  {
    assert IsColumnMin(m, Observers(m), dot.pid, stable[dot.pid]);
  }

  // ---- Two-phase departure ----

  lemma AppliedMarkerErases(m: Matrix, stable: DotSet, departed: Option<seq<Pid>>, gcCounter: Counter)
    requires HasOwnRow(m) && m.ownPid != STABLE_REPLICA_PID
    requires m.ownPid !in Announced(departed) && STABLE_REPLICA_PID !in Announced(departed)
    requires IsStable(m, Some(stable), departed)
    ensures OwnRowSurvives(m, departed)
    ensures var m' := MarkerApplied(m, stable, departed, gcCounter);
            && HasOwnRow(m')
            && Retirable(m) !! m'.rows.Keys + m'.finals.Keys
            && (forall p <- m'.rows :: Retirable(m) !! m'.rows[p].Keys)
            && Retirable(m) !! Retirable(m')
  {
    if departed.Some? {
      assert Removable(m, departed.value) == Retirable(m);
    }
    var m' := MarkerApplied(m, stable, departed, gcCounter);
    forall p <- m'.rows ensures Retirable(m) !! m'.rows[p].Keys {
      if p != STABLE_REPLICA_PID && p != m.ownPid {
        assert m'.rows[p] == PidsRemoved(m, departed).rows[p];
      }
    }
  }

  /** No counter is below -1; column 0 holds epochs, not counters. */
  ghost predicate Floored(vv: DotSet) {
    forall q <- vv | q != STABLE_REPLICA_PID :: -1 <= vv[q]
  }

  /**
   A replica that left without a mutation has final counter -1, which no row needs to
   contain. While it is an observer the frontier has a column for it, so applying that
   frontier makes it retirable.
   */
  lemma SilentObserverRetirable(m: Matrix, stable: DotSet, departed: Option<seq<Pid>>, gcCounter: Counter, p: Pid)
    requires HasOwnRow(m) && m.ownPid != STABLE_REPLICA_PID && p in Observers(m)
    requires p in m.finals && m.finals[p] == -1 && p !in Retirable(m) && forall q <- m.rows :: Floored(m.rows[q])
    requires IsStable(m, Some(stable), departed) && m.ownPid !in Announced(departed) && STABLE_REPLICA_PID !in Announced(departed)
    ensures OwnRowSurvives(m, departed)
    ensures var m' := MarkerApplied(m, stable, departed, gcCounter);
            p in m'.rows && p in m'.finals && p in Retirable(m')
  {
    AppliedMarkerErases(m, stable, departed, gcCounter);
    assert IsColumnMin(m, Observers(m), p, stable[p]);
    assert Contains(stable, Dot(p, -1));
    assert p !in Announced(departed);
  }

  // ---- In place ----

  lemma ErasingNothing(m: Matrix)
    ensures Erased(m, {}) == m
  {
    var none: set<Pid> := {};
    forall p <- m.rows ensures m.rows[p] - none == m.rows[p] {}
    assert Erased(m, none).rows == m.rows;
  }

  /** One more row lowers the running minimum; a column no earlier row had starts at -1. */
  lemma MinStep(m: Matrix, done: set<Pid>, s: DotSet, p: Pid, s': DotSet)
    requires done != {} && done + {p} <= m.rows.Keys
    requires s.Keys == Columns(m, done) && forall q <- s :: IsColumnMin(m, done, q, s[q])
    requires s'.Keys == s.Keys + m.rows[p].Keys
    requires forall q <- s' :: s'[q] == if Get(s, q) <= Get(m.rows[p], q) then Get(s, q) else Get(m.rows[p], q)
    ensures s'.Keys == Columns(m, done + {p})
    ensures forall q <- s' :: IsColumnMin(m, done + {p}, q, s'[q])
  {
    forall q <- s' ensures IsColumnMin(m, done + {p}, q, s'[q]) {
      if q in s {
        assert IsColumnMin(m, done, q, s[q]);
        var x :| x in done && s[q] == Get(m.rows[x], q);
        assert s'[q] == Get(m.rows[x], q) || s'[q] == Get(m.rows[p], q);
      } else {
        assert forall x <- done :: q !in m.rows[x];
        var x :| x in done;
        assert Get(m.rows[x], q) == -1;
      }
    }
  }

  /** The first observer row, lowered by every other one, in whatever order they come. */
  method ObserverMinimum(m: Matrix, observers: set<Pid>) returns (s: DotSet)
    requires observers != {} && observers <= m.rows.Keys
    ensures s.Keys == Columns(m, observers)
    ensures forall q <- s :: IsColumnMin(m, observers, q, s[q])
  {
    var first :| first in observers;
    s := m.rows[first];
    var rest := observers - {first};
    ghost var done := {first};
    while rest != {}
      invariant done != {} && done + rest == observers
      invariant s.Keys == Columns(m, done)
      invariant forall q <- s :: IsColumnMin(m, done, q, s[q])
      decreases rest
    {
      var p :| p in rest;
      ghost var before := s;
      s := PointwiseMin(s, m.rows[p]);
      MinStep(m, done, before, p, s);
      rest, done := rest - {p}, done + {p};
    }
    assert done == observers;
  }

  /** Gives every observer that no row has a column for a column at -1. */
  method WithObserverColumns(minimum: DotSet, observers: set<Pid>) returns (s: DotSet)
    ensures s.Keys == minimum.Keys + observers
    ensures forall q <- s :: s[q] == Get(minimum, q)
  {
    s := minimum;
    var rest := observers;
    while rest != {}
      invariant rest <= observers && s.Keys == minimum.Keys + (observers - rest)
      invariant forall q <- s :: s[q] == Get(minimum, q)
      decreases rest
    {
      var p :| p in rest;
      if p !in s {
        s := s[p := -1];
      }
      rest := rest - {p};
    }
  }

  lemma ObserverColumnsAreMinima(m: Matrix, minimum: DotSet, q: Pid)
    requires HasOwnRow(m) && Observers(m) != {} && minimum.Keys == Columns(m, Observers(m))
    requires forall q <- minimum :: IsColumnMin(m, Observers(m), q, minimum[q])
    ensures IsColumnMin(m, Observers(m), q, Get(minimum, q))
  {
    if q !in minimum {
      assert forall p <- Observers(m) :: q !in m.rows[p];
      var p :| p in Observers(m);
      assert Get(m.rows[p], q) == -1;
    }
  }

  lemma StableAssembled(m: Matrix, minimum: DotSet, s: DotSet, pids: seq<Pid>)
    requires HasOwnRow(m) && Observers(m) != {} && minimum.Keys == Columns(m, Observers(m))
    requires forall q <- minimum :: IsColumnMin(m, Observers(m), q, minimum[q])
    requires s.Keys == minimum.Keys + Observers(m) && forall q <- s :: s[q] == Get(minimum, q)
    requires Lists(PidOrder(), pids, Retirable(m))
    ensures IsStable(m, Some(s - Retirable(m)), if Retirable(m) == {} then None else Some(pids))
  {
    var r := s - Retirable(m);
    forall q <- r ensures IsColumnMin(m, Observers(m), q, r[q]) {
      ObserverColumnsAreMinima(m, minimum, q);
    }
  }

  /** Erasing earlier pids does not change whether the next one may go. */
  lemma RemovableStep(m: Matrix, pids: seq<Pid>, i: nat)
    requires i < |pids| && STABLE_REPLICA_PID in m.rows
    ensures var finals := Erased(m, Removable(m, pids[..i])).finals;
            var stays := pids[i] in finals && !Contains(m.rows[STABLE_REPLICA_PID], Dot(pids[i], finals[pids[i]]));
            Removable(m, pids[..i + 1]) == if stays then Removable(m, pids[..i]) else Removable(m, pids[..i]) + {pids[i]}
  {
    assert pids[..i + 1] == pids[..i] + [pids[i]];
  }

  lemma EraseOneMore(m: Matrix, gone: set<Pid>, p: Pid, m': Matrix)
    requires m' == Erased(m, gone)
    ensures Erased(m, gone + {p}) == m'.(rows := map q | q in m'.rows - {p} :: m'.rows[q] - {p}, finals := m'.finals - {p})
  {
    var r := map q | q in m'.rows - {p} :: m'.rows[q] - {p};
    var e := Erased(m, gone + {p});
    assert e.rows.Keys == r.Keys;
    forall q <- r ensures e.rows[q] == r[q] {
      assert m.rows[q] - gone - {p} == m.rows[q] - (gone + {p});
    }
    assert e.finals == m'.finals - {p};
  }

  class VersionMatrix {
    var ownPid: Pid
    var rows: map<Pid, DotSet>
    var finals: map<Pid, Counter>

    function Value(): Matrix
      reads this
    {
      Matrix(ownPid, rows, finals)
    }

    constructor (own: Pid)
      ensures Value() == Created(own)
      ensures ownPid == own && rows.Keys == {own} && rows[own].Keys == {own, STABLE_REPLICA_PID} && finals == map[]
      ensures forall q <- rows[own] :: rows[own][q] == -1
    {
      ownPid := own;
      rows := map[own := map[own := -1][STABLE_REPLICA_PID := -1]];
      finals := map[];
    }

    method Update(p: Pid, vv: DotSet)
      requires HasOwnRow(Value())
      modifies this
      ensures Value() == Updated(old(Value()), p, vv)
      ensures Get(vv, STABLE_REPLICA_PID) < Get(old(rows[ownPid]), STABLE_REPLICA_PID) ==> rows == old(rows)
      ensures Get(old(rows[ownPid]), STABLE_REPLICA_PID) <= Get(vv, STABLE_REPLICA_PID) ==>
                p in rows && rows[p] == vv && rows.Keys == old(rows).Keys + {p} && forall q <- old(rows) | q != p :: rows[q] == old(rows)[q]
    {
      if Get(rows[ownPid], STABLE_REPLICA_PID) <= Get(vv, STABLE_REPLICA_PID) {
        rows := rows[p := vv];
      }
    }

    method InsertPid(p: Pid, gcCounter: Counter)
      modifies this
      ensures Value() == Discovered(old(Value()), p, gcCounter)
      ensures forall q <- old(rows) :: q in rows && rows[q] == old(rows)[q]
      ensures p != STABLE_REPLICA_PID && p !in old(rows) ==>
                p in rows && rows[p].Keys == {p, STABLE_REPLICA_PID} && rows[p][p] == -1 && rows[p][STABLE_REPLICA_PID] == gcCounter
      ensures rows.Keys == old(rows).Keys + if p == STABLE_REPLICA_PID then {} else {p}
    {
      if p == STABLE_REPLICA_PID {
        return;
      }
      if p !in rows {
        var vv: DotSet := map[];
        vv := vv[p := -1];
        vv := vv[STABLE_REPLICA_PID := gcCounter];
        rows := rows[p := vv];
      }
    }

    method RebindOwnPid(p: Pid, vv: DotSet)
      modifies this
      ensures Value() == Rebound(old(Value()), p, vv)
      ensures ownPid == p && finals == old(finals) && rows.Keys == old(rows).Keys + {p} && rows[p] == vv
      ensures forall q <- old(rows) | q != p :: rows[q] == old(rows)[q]
    {
      ownPid := p;
      rows := rows[p := vv];
    }

    method InsertFinalDot(dot: Dot)
      modifies this
      ensures Value() == old(Value()).(finals := old(finals)[dot.pid := dot.counter])
    {
      finals := finals[dot.pid := dot.counter];
    }

    /** Removes one column from every row. */
    method RemoveColumn(p: Pid)
      modifies this`rows
      ensures rows == map q | q in old(rows) :: old(rows)[q] - {p}
    {
      var todo := rows.Keys;
      while todo != {}
        invariant todo <= old(rows).Keys && rows.Keys == old(rows).Keys
        invariant forall q <- rows :: rows[q] == if q in todo then old(rows)[q] else old(rows)[q] - {p}
        decreases todo
      {
        var q :| q in todo;
        rows := rows[q := rows[q] - {p}];
        todo := todo - {q};
      }
    }

    method ErasePid(p: Pid)
      modifies this
      ensures Value() == old(Value()).(rows := map q | q in old(rows) - {p} :: old(rows)[q] - {p}, finals := old(finals) - {p})
    {
      rows := rows - {p};
      finals := finals - {p};
      RemoveColumn(p);
    }

    method RemovePids(pids: seq<Pid>)
      modifies this
      ensures Value() == Erased(old(Value()), Removable(old(Value()), pids))
    {
      if STABLE_REPLICA_PID !in rows {
        ErasingNothing(Value());
        return;
      }
      var stable := rows[STABLE_REPLICA_PID];
      ghost var m := Value();
      ErasingNothing(m);
      assert Removable(m, pids[..0]) == {};
      hide Erased, Removable, Contains;
      var i := 0;
      while i < |pids|
        invariant 0 <= i <= |pids|
        invariant Value() == Erased(m, Removable(m, pids[..i]))
      {
        var p := pids[i];
        ghost var gone := Removable(m, pids[..i]);
        RemovableStep(m, pids, i);
        if !(p in finals && !Contains(stable, Dot(p, finals[p]))) {
          EraseOneMore(m, gone, p, Value());
          ErasePid(p);
        }
        i := i + 1;
      }
      assert pids[..i] == pids;
    }

    method ApplyGcMarker(stable: DotSet, departed: Option<seq<Pid>>, gcCounter: Counter)
      requires OwnRowSurvives(Value(), departed)
      modifies this
      ensures Value() == MarkerApplied(old(Value()), stable, departed, gcCounter)
    {
      if departed.Some? {
        RemovePids(departed.value);
      }
      rows := rows[STABLE_REPLICA_PID := stable[STABLE_REPLICA_PID := gcCounter]];
      var own: DotSet := rows[ownPid];
      rows := rows[ownPid := own[STABLE_REPLICA_PID := gcCounter]];
    }

    method GetObserverRows() returns (observers: set<Pid>)
      requires HasOwnRow(Value())
      ensures observers == Observers(Value())
    {
      var own := rows[ownPid];
      observers := set p | p in rows && p != STABLE_REPLICA_PID && !(p in finals && Contains(own, Dot(p, finals[p])));
    }

    method GetStable() returns (stable: Option<DotSet>, departed: Option<seq<Pid>>)
      requires HasOwnRow(Value())
      ensures IsStable(Value(), stable, departed)
    {
      var observers := GetObserverRows();
      if observers == {} {
        return None, None;
      }
      var minimum := ObserverMinimum(Value(), observers);
      var s := WithObserverColumns(minimum, observers);
      var gone := {};
      if STABLE_REPLICA_PID in rows {
        gone := set p | p in finals && Contains(rows[STABLE_REPLICA_PID], Dot(p, finals[p]));
      }
      var pids := Sort(PidOrder(), gone);
      stable := Some(s - gone);
      departed := if gone == {} then None else Some(pids);
      StableAssembled(Value(), minimum, s, pids);
    }
  }
}

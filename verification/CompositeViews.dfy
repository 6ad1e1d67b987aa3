/**
 A view over composite keys with three secondary indexes (`src/db/composite_view.rs`).

 Two indexes look an entry up by either half of its key; the third keeps, for each
 first half, the (value, second half) pairs in ascending order.
 */
module CompositeViews {
  import opened Options
  import opened Dots
  import opened Orders
  import opened Indexes

  ghost function ByS<K(!new), V>(m: map<(K, K), V>): set<(K, K)> {
    m.Keys
  }

  ghost function ByU<K(!new), V>(m: map<(K, K), V>): set<(K, K)> {
    set k | k in m :: (k.1, k.0)
  }

  ghost function ByValue<K(!new), V(!new)>(m: map<(K, K), V>): set<(K, (V, K))> {
    set k | k in m :: (k.0, (m[k], k.1))
  }

  /** Pairs are compared by value first and by key second. */
  predicate PairLe<K(==), V(==)>(leV: (V, V) -> bool, leK: (K, K) -> bool, a: (V, K), b: (V, K)) {
    if a.0 == b.0 then leK(a.1, b.1) else leV(a.0, b.0)
  }

  function PairOrder<K(==), V(==)>(leV: (V, V) -> bool, leK: (K, K) -> bool): ((V, K), (V, K)) -> bool {
    (a, b) => PairLe(leV, leK, a, b)
  }

  /** Values decide; equal values leave it to the keys. */
  lemma PairOrderIs<K(!new), V(!new)>(leV: (V, V) -> bool, leK: (K, K) -> bool, a: (V, K), b: (V, K))
    requires TotalOrder(leV)
    ensures PairOrder(leV, leK)(a, b) <==> leV(a.0, b.0) && (a.0 == b.0 ==> leK(a.1, b.1))
  {
  }

  lemma PairOrderTotal<K(!new), V(!new)>(leV: (V, V) -> bool, leK: (K, K) -> bool)
    requires TotalOrder(leV) && TotalOrder(leK)
    ensures TotalOrder(PairOrder(leV, leK))
  {
  }

  lemma InsertedIndexes<K(!new), V(!new)>(m: map<(K, K), V>, s: K, u: K, value: V)
    requires (s, u) !in m
    ensures IndexOf(ByS(m[(s, u) := value])) == Add(IndexOf(ByS(m)), s, u)
    ensures IndexOf(ByU(m[(s, u) := value])) == Add(IndexOf(ByU(m)), u, s)
    ensures IndexOf(ByValue(m[(s, u) := value])) == Add(IndexOf(ByValue(m)), s, (value, u))
  {
    var m' := m[(s, u) := value];
    assert ByS(m') == ByS(m) + {(s, u)};
    assert ByU(m') == ByU(m) + {(u, s)};
    assert ByValue(m') == ByValue(m) + {(s, (value, u))};
    AddIsIndex(ByS(m), s, u);
    AddIsIndex(ByU(m), u, s);
    AddIsIndex(ByValue(m), s, (value, u));
  }

  lemma RemovedIndexes<K(!new), V(!new)>(m: map<(K, K), V>, s: K, u: K)
    requires (s, u) in m
    ensures IndexOf(ByS(m - {(s, u)})) == Drop(IndexOf(ByS(m)), s, u)
    ensures IndexOf(ByU(m - {(s, u)})) == Drop(IndexOf(ByU(m)), u, s)
    ensures IndexOf(ByValue(m - {(s, u)})) == Drop(IndexOf(ByValue(m)), s, (m[(s, u)], u))
  {
    var m' := m - {(s, u)};
    assert ByS(m') == ByS(m) - {(s, u)};
    assert ByU(m') == ByU(m) - {(u, s)};
    assert ByValue(m') == ByValue(m) - {(s, (m[(s, u)], u))};
    DropIsIndex(ByS(m), s, u);
    DropIsIndex(ByU(m), u, s);
    DropIsIndex(ByValue(m), s, (m[(s, u)], u));
  }

  /** The entries under a first key half, as the value index orders them. */
  ghost function EntriesOf<K(!new), V(!new)>(m: map<(K, K), V>, s: K): set<(V, K)> {
    set k | k in m && k.0 == s :: (m[k], k.1)
  }

  lemma ValueBucket<K(!new), V(!new)>(m: map<(K, K), V>, s: K)
    ensures s in IndexOf(ByValue(m)) <==> EntriesOf(m, s) != {}
    ensures s in IndexOf(ByValue(m)) ==> IndexOf(ByValue(m))[s] == EntriesOf(m, s)
  {
    forall e ensures e in BucketOf(ByValue(m), s) <==> e in EntriesOf(m, s) {
      BucketMember(ByValue(m), s, e);
    }
    assert BucketOf(ByValue(m), s) == EntriesOf(m, s);
    FirstsMember(ByValue(m), s);
  }

  /** Both halves' indexes answer exactly which keys are present. */
  lemma KeyBuckets<K(!new), V(!new)>(m: map<(K, K), V>, x: K)
    ensures forall y :: (x, y) in m <==> x in IndexOf(ByS(m)) && y in IndexOf(ByS(m))[x]
    ensures forall y :: (y, x) in m <==> x in IndexOf(ByU(m)) && y in IndexOf(ByU(m))[x]
    ensures x in IndexOf(ByU(m)) ==> IndexOf(ByU(m))[x] != {}
  {
    forall y ensures (x, y) in m <==> x in IndexOf(ByS(m)) && y in IndexOf(ByS(m))[x] {
      BucketMember(ByS(m), x, y);
    }
    forall y ensures (y, x) in m <==> x in IndexOf(ByU(m)) && y in IndexOf(ByU(m))[x] {
      BucketMember(ByU(m), x, y);
      assert (x, y) in ByU(m) <==> (y, x) in m;
    }
    FirstsMember(ByU(m), x);
  }

  /** What is left of `m` while `rest` of `keys` is still to be removed. */
  ghost function Remaining<X, Y>(m: map<X, Y>, keys: set<X>, rest: set<X>): map<X, Y> {
    m - (keys - rest)
  }

  lemma NothingRemoved<X, Y>(m: map<X, Y>, keys: set<X>)
    ensures Remaining(m, keys, keys) == m
  {
  }

  lemma AllRemoved<X, Y>(m: map<X, Y>, keys: set<X>)
    ensures Remaining(m, keys, {}) == m - keys
  {
    assert keys - {} == keys;
  }

  lemma RemainingStep<X, Y>(m: map<X, Y>, keys: set<X>, rest: set<X>, k: X)
    requires k in rest && rest <= keys
    ensures Remaining(m, keys, rest - {k}) == Remaining(m, keys, rest) - {k}
  {
    assert keys - (rest - {k}) == keys - rest + {k};
  }

  lemma OneLess<A, B, Y>(m: map<(A, B), Y>, keys: set<(A, B)>, rest: set<(A, B)>, k: (A, B))
    requires k in rest && rest <= keys
    ensures Remaining(m, keys, rest - {k}) == Remaining(m, keys, rest) - {(k.0, k.1)}
    ensures |Remaining(m, keys, rest - {k})| == |Remaining(m, keys, rest)| - if (k.0, k.1) in Remaining(m, keys, rest) then 1 else 0
  {
    hide Remaining;
    RemainingStep(m, keys, rest, k);
    var before := Remaining(m, keys, rest);
    assert k == (k.0, k.1) && (before - {k}).Keys == before.Keys - {k};
  }

  class CompositeView<K(==, !new), V(==, !new)> {
    const leK: (K, K) -> bool
    const leV: (V, V) -> bool
    var keyToValue: map<(K, K), V>
    var keySIndex: map<K, set<K>>
    var keyUIndex: map<K, set<K>>
    var valueIndex: map<K, set<(V, K)>>

    ghost predicate Valid()
      reads this
    {
      && TotalOrder(leK) && TotalOrder(leV)
      && keySIndex == IndexOf(ByS(keyToValue))
      && keyUIndex == IndexOf(ByU(keyToValue))
      && valueIndex == IndexOf(ByValue(keyToValue))
    }

    constructor (leK: (K, K) -> bool, leV: (V, V) -> bool)
      requires TotalOrder(leK) && TotalOrder(leV)
      ensures Valid() && keyToValue == map[] && this.leK == leK && this.leV == leV
    {
      this.leK, this.leV := leK, leV;
      keyToValue, keySIndex, keyUIndex, valueIndex := map[], map[], map[], map[];
    }

    /** A key that is present keeps its value. */
    method Insert(s: K, u: K, value: V)
      requires Valid()
      modifies this
      ensures Valid()
      ensures keyToValue == if (s, u) in old(keyToValue) then old(keyToValue) else old(keyToValue)[(s, u) := value]
    {
      if (s, u) in keyToValue {
        return;
      }
      InsertedIndexes(keyToValue, s, u, value);
      hide TotalOrder, IndexOf, ByU, ByS, ByValue;
      keyToValue := keyToValue[(s, u) := value];
      keySIndex := Add(keySIndex, s, u);
      keyUIndex := Add(keyUIndex, u, s);
      valueIndex := Add(valueIndex, s, (value, u));
    }

    method Remove(s: K, u: K) returns (removed: bool)
      requires Valid()
      modifies this
      ensures Valid() && keyToValue == old(keyToValue) - {(s, u)} && removed == ((s, u) in old(keyToValue))
    {
      if (s, u) !in keyToValue {
        assert keyToValue - {(s, u)} == keyToValue;
        return false;
      }
      RemovedIndexes(keyToValue, s, u);
      hide TotalOrder, IndexOf, ByU, ByS, ByValue;
      var value := keyToValue[(s, u)];
      keyToValue := keyToValue - {(s, u)};
      keySIndex := Drop(keySIndex, s, u);
      keyUIndex := Drop(keyUIndex, u, s);
      valueIndex := Drop(valueIndex, s, (value, u));
      return true;
    }

    /** The loop of both bulk removals. */
    method RemoveEach(keys: set<(K, K)>) returns (count: nat)
      requires Valid()
      modifies this
      ensures Valid() && keyToValue == old(keyToValue) - keys && count == |old(keyToValue)| - |keyToValue|
    {
      hide *;
      ghost var m := keyToValue;
      var rest := keys;
      NothingRemoved(m, keys);
      count := 0;
      while rest != {}
        invariant rest <= keys && Valid() && keyToValue == Remaining(m, keys, rest) && count == |m| - |keyToValue|
        decreases rest
      {
        var k :| k in rest;
        OneLess(m, keys, rest, k);
        var removed := Remove(k.0, k.1);
        rest := rest - {k};
        if removed {
          count := count + 1;
        }
      }
      AllRemoved(m, keys);
    }

    method RemoveByKeyS(s: K) returns (count: nat)
      requires Valid()
      modifies this
      ensures Valid() && keyToValue == map k | k in old(keyToValue) && k.0 != s :: old(keyToValue)[k]
      ensures count == |old(keyToValue)| - |keyToValue|
    {
      KeyBuckets(keyToValue, s);
      hide TotalOrder, IndexOf, ByU, ByS, ByValue;
      if s !in keySIndex {
        return 0;
      }
      count := RemoveEach(set u | u in keySIndex[s] :: (s, u));
    }

    method RemoveByKeyU(u: K) returns (count: nat)
      requires Valid()
      modifies this
      ensures Valid() && keyToValue == map k | k in old(keyToValue) && k.1 != u :: old(keyToValue)[k]
      ensures count == |old(keyToValue)| - |keyToValue|
    {
      KeyBuckets(keyToValue, u);
      hide TotalOrder, IndexOf, ByU, ByS, ByValue;
      if u !in keyUIndex {
        return 0;
      }
      count := RemoveEach(set s | s in keyUIndex[u] :: (s, u));
    }

    method GetByKeyS(s: K) returns (rows: Option<seq<((K, K), V)>>)
      requires Valid()
      ensures rows.None? <==> EntriesOf(keyToValue, s) == {}
      ensures rows.Some? ==>
                && (forall i | 0 <= i < |rows.value| :: rows.value[i].0.0 == s)
                && Lists(PairOrder(leV, leK), seq(|rows.value|, i requires 0 <= i < |rows.value| => (rows.value[i].1, rows.value[i].0.1)),
                         EntriesOf(keyToValue, s))
                && (forall i, j | 0 <= i < j < |rows.value| ::
                      leV(rows.value[i].1, rows.value[j].1) && (rows.value[i].1 == rows.value[j].1 ==> leK(rows.value[i].0.1, rows.value[j].0.1)))
    {
      ValueBucket(keyToValue, s);
      if s !in valueIndex {
        return None;
      }
      PairOrderTotal(leV, leK);
      var pairs := Sort(PairOrder(leV, leK), valueIndex[s]);
      forall i, j | 0 <= i < j < |pairs|
        ensures leV(pairs[i].0, pairs[j].0) && (pairs[i].0 == pairs[j].0 ==> leK(pairs[i].1, pairs[j].1))
      {
        PairOrderIs(leV, leK, pairs[i], pairs[j]);
      }
      var r := seq(|pairs|, i requires 0 <= i < |pairs| => ((s, pairs[i].1), pairs[i].0));
      assert pairs == seq(|r|, i requires 0 <= i < |r| => (r[i].1, r[i].0.1));
      return Some(r);
    }

    /** The lookup of each value succeeds, because the index names present keys only. */
    method GetByKeyU(u: K) returns (rows: Option<seq<((K, K), V)>>)
      requires Valid()
      ensures rows.None? <==> forall k <- keyToValue :: k.1 != u
      ensures rows.Some? ==> Enumerates(rows.value, set k | k in keyToValue && k.1 == u :: (k, keyToValue[k]))
    {
      KeyBuckets(keyToValue, u);
      hide TotalOrder, IndexOf, ByU, ByS, ByValue;
      if u !in keyUIndex {
        forall k <- keyToValue ensures k.1 != u {
          assert (k.0, u) !in keyToValue;
        }
        return None;
      }
      assert exists s :: s in keyUIndex[u] && (s, u) in keyToValue;
      var ss := Enumerate(keyUIndex[u]);
      assert forall i | 0 <= i < |ss| :: ss[i] in ss && (ss[i], u) in keyToValue;
      var r := seq(|ss|, i requires 0 <= i < |ss| && (ss[i], u) in keyToValue reads this => ((ss[i], u), keyToValue[(ss[i], u)]));
      forall k | k in keyToValue && k.1 == u ensures (k, keyToValue[k]) in r {
        assert (k.0, u) in keyToValue;
        var i :| 0 <= i < |ss| && ss[i] == k.0;
        assert r[i] == (k, keyToValue[k]);
      }
      return Some(r);
    }

    method MinK(s: K, n: nat) returns (rows: Option<seq<(V, K)>>)
      requires Valid()
      ensures rows.None? <==> EntriesOf(keyToValue, s) == {}
      ensures rows.Some? ==>
                && |rows.value| == Min(n, |EntriesOf(keyToValue, s)|)
                && Ascending(PairOrder(leV, leK), rows.value)
                && (forall r <- rows.value :: r in EntriesOf(keyToValue, s))
                && (forall e <- EntriesOf(keyToValue, s), r <- rows.value :: e in rows.value || PairLe(leV, leK, r, e))
                && (forall e <- EntriesOf(keyToValue, s), r <- rows.value :: e in rows.value || (leV(r.0, e.0) && (r.0 == e.0 ==> leK(r.1, e.1))))
                && (forall i, j | 0 <= i < j < |rows.value| ::
                      leV(rows.value[i].0, rows.value[j].0) && (rows.value[i].0 == rows.value[j].0 ==> leK(rows.value[i].1, rows.value[j].1)))
    {
      hide TotalOrder, IndexOf, ByS, ByU, ByValue, EntriesOf, PairLe;
      ValueBucket(keyToValue, s);
      if s !in valueIndex {
        return None;
      }
      PairOrderTotal(leV, leK);
      var all := Sort(PairOrder(leV, leK), valueIndex[s]);
      DistinctCount(all, valueIndex[s]);
      LowestPrefix(leV, leK, all, valueIndex[s], n);
      ByValueThenKey(leV, leK, all[..Min(n, |all|)], valueIndex[s]);
      return Some(all[..Min(n, |all|)]);
    }
  }

  lemma ByValueThenKey<K(!new), V(!new)>(leV: (V, V) -> bool, leK: (K, K) -> bool, rows: seq<(V, K)>, entries: set<(V, K)>)
    requires TotalOrder(leV) && Ascending(PairOrder(leV, leK), rows)
    requires forall e <- entries, r <- rows :: e in rows || PairLe(leV, leK, r, e)
    ensures forall e <- entries, r <- rows :: e in rows || (leV(r.0, e.0) && (r.0 == e.0 ==> leK(r.1, e.1)))
    ensures forall i, j | 0 <= i < j < |rows| :: leV(rows[i].0, rows[j].0) && (rows[i].0 == rows[j].0 ==> leK(rows[i].1, rows[j].1))
  {
    hide TotalOrder;
    forall e <- entries, r <- rows ensures e in rows || (leV(r.0, e.0) && (r.0 == e.0 ==> leK(r.1, e.1))) {
      PairOrderIs(leV, leK, r, e);
    }
    forall i, j | 0 <= i < j < |rows| ensures leV(rows[i].0, rows[j].0) && (rows[i].0 == rows[j].0 ==> leK(rows[i].1, rows[j].1)) {
      PairOrderIs(leV, leK, rows[i], rows[j]);
    }
  }

  lemma LowestPrefix<K(!new), V(!new)>(leV: (V, V) -> bool, leK: (K, K) -> bool, all: seq<(V, K)>, entries: set<(V, K)>, n: nat)
    requires Lists(PairOrder(leV, leK), all, entries)
    ensures var rows := all[..Min(n, |all|)];
            && Ascending(PairOrder(leV, leK), rows)
            && (forall r <- rows :: r in entries)
            && (forall e <- entries, r <- rows :: e in rows || PairLe(leV, leK, r, e))
  {
    var rows := all[..Min(n, |all|)];
    forall r <- rows ensures r in entries {
      assert r in all;
    }
    forall e <- entries, r <- rows ensures e in rows || PairLe(leV, leK, r, e) {
      var i :| 0 <= i < |all| && all[i] == e;
      var j :| 0 <= j < |rows| && rows[j] == r;
      assert i < |rows| ==> rows[i] == e;
      assert j < i ==> PairOrder(leV, leK)(all[j], all[i]);
    }
  }
}

/**
 A key-value view with an inverse index (`src/db/view.rs`).

 The inverse index maps every value to the keys that have it; the source keeps it
 in a tree map, so walking it goes through the values in ascending order.
 */
module Views {
  import opened Options
  import opened Dots
  import opened Orders
  import opened Indexes

  ghost function Swapped<K(!new), V>(m: map<K, V>): set<(V, K)> {
    set k | k in m :: (m[k], k)
  }

  ghost function Inverse<K(!new), V(!new)>(m: map<K, V>): map<V, set<K>> {
    IndexOf(Swapped(m))
  }

  lemma SwappedMember<K(!new), V>(m: map<K, V>, v: V, k: K)
    ensures (v, k) in Swapped(m) <==> k in m && m[k] == v
  {
  }

  lemma InverseIs<K(!new), V(!new)>(m: map<K, V>)
    ensures Inverse(m).Keys == m.Values
    ensures forall v <- Inverse(m) :: Inverse(m)[v] == set k | k in m && m[k] == v
  {
    forall v ensures v in Inverse(m) <==> v in m.Values {
      if v in Inverse(m) {
        var p :| p in Swapped(m) && p.0 == v;
        assert m[p.1] in m.Values;
      }
      if v in m.Values {
        var k :| k in m && m[k] == v;
        assert (v, k) in Swapped(m);
      }
    }
    forall v <- Inverse(m) ensures Inverse(m)[v] == set k | k in m && m[k] == v {
      forall k ensures k in Inverse(m)[v] <==> k in m && m[k] == v {
        BucketMember(Swapped(m), v, k);
      }
    }
  }

  /** `rows` are pairs of the view in ascending value order, no key twice, and what is left out is not smaller. */
  ghost predicate IsLowest<K, V>(le: (V, V) -> bool, m: map<K, V>, rows: seq<(V, K)>) {
    && (forall i | 0 <= i < |rows| :: rows[i].1 in m && m[rows[i].1] == rows[i].0)
    && (forall i, j | 0 <= i < j < |rows| :: le(rows[i].0, rows[j].0) && rows[i].1 != rows[j].1)
    && (forall k <- m, i | 0 <= i < |rows| :: (exists j | 0 <= j < |rows| :: rows[j].1 == k) || le(rows[i].0, m[k]))
  }

  /** `rows` are the values from `start` to before `end` that some key has, ascending, each with all its keys. */
  ghost predicate IsRange<K(!new), V(!new)>(le: (V, V) -> bool, m: map<K, V>, start: V, end: V, rows: seq<(V, set<K>)>) {
    && (forall i, j | 0 <= i < j < |rows| :: le(rows[i].0, rows[j].0) && rows[i].0 != rows[j].0)
    && (forall i | 0 <= i < |rows| :: rows[i].1 == set k | k in m && m[k] == rows[i].0)
    && (forall v :: (exists i | 0 <= i < |rows| :: rows[i].0 == v) <==> v in m.Values && le(start, v) && le(v, end) && v != end)
  }

  lemma RangeRows<K(!new), V(!new)>(le: (V, V) -> bool, m: map<K, V>, start: V, end: V, values: seq<V>, rows: seq<(V, set<K>)>)
    requires Lists(le, values, set v | v in Inverse(m) && le(start, v) && le(v, end) && v != end)
    requires |rows| == |values|
    requires forall i | 0 <= i < |rows| :: values[i] in Inverse(m) && rows[i] == (values[i], Inverse(m)[values[i]])
    ensures IsRange(le, m, start, end, rows)
  {
    InverseIs(m);
    hide Inverse;
    forall v ensures (exists i | 0 <= i < |rows| :: rows[i].0 == v) <==> v in values {
      if v in values {
        var i :| 0 <= i < |values| && values[i] == v;
        assert rows[i].0 == v;
      }
    }
    forall v ensures v in values <==> v in m.Values && le(start, v) && le(v, end) && v != end {
      assert v in m.Values <==> v in Inverse(m);
    }
  }

  lemma RowsCount<K, V>(le: (V, V) -> bool, m: map<K, V>, all: seq<(V, K)>)
    requires IsLowest(le, m, all) && (forall k <- m :: (m[k], k) in all)
    ensures |all| == |m|
  {
    var keys := Seconds(all);
    forall k <- m ensures k in keys {
      var j :| 0 <= j < |all| && all[j] == (m[k], k);
      assert keys[j] == k;
    }
    forall k <- keys ensures k in m.Keys {
      var j :| 0 <= j < |keys| && keys[j] == k;
      assert all[j].1 == k;
    }
    DistinctCount(keys, m.Keys);
  }

  lemma LowestPrefix<K, V>(le: (V, V) -> bool, m: map<K, V>, all: seq<(V, K)>, n: nat)
    requires n <= |all| && IsLowest(le, m, all) && (forall k <- m :: (m[k], k) in all)
    ensures IsLowest(le, m, all[..n])
  {
    var rows := all[..n];
    forall k <- m, i | 0 <= i < |rows| ensures (exists j | 0 <= j < |rows| :: rows[j].1 == k) || le(rows[i].0, m[k]) {
      var j :| 0 <= j < |all| && all[j] == (m[k], k);
      if j < |rows| {
        assert rows[j].1 == k;
      } else {
        assert le(all[i].0, all[j].0);
      }
    }
  }

  class View<K(==, !new), V(==, !new)> {
    const le: (V, V) -> bool
    var keyToValue: map<K, V>
    var valueToKeys: map<V, set<K>>

    ghost predicate Valid()
      reads this
    {
      TotalOrder(le) && valueToKeys == Inverse(keyToValue)
    }

    constructor (le: (V, V) -> bool)
      requires TotalOrder(le)
      ensures Valid() && keyToValue == map[] && this.le == le
    {
      this.le := le;
      keyToValue, valueToKeys := map[], map[];
    }

    method Insert(key: K, value: V)
      requires Valid()
      modifies this
      ensures Valid() && keyToValue == old(keyToValue)[key := value]
    {
      InverseInserted(keyToValue, key, value);
      if key in keyToValue {
        valueToKeys := Drop(valueToKeys, keyToValue[key], key);
      }
      keyToValue := keyToValue[key := value];
      valueToKeys := Add(valueToKeys, value, key);
    }

    method RemoveByKey(key: K) returns (removed: bool)
      requires Valid()
      modifies this
      ensures Valid() && keyToValue == old(keyToValue) - {key} && removed == (key in old(keyToValue))
    {
      if key !in keyToValue {
        assert keyToValue - {key} == keyToValue;
        return false;
      }
      InverseDropped(keyToValue, key);
      valueToKeys := Drop(valueToKeys, keyToValue[key], key);
      keyToValue := keyToValue - {key};
      return true;
    }

    method RemoveByValue(value: V)
      requires Valid()
      modifies this
      ensures Valid() && keyToValue == map k | k in old(keyToValue) && old(keyToValue)[k] != value :: old(keyToValue)[k]
    {
      ghost var m := keyToValue;
      InverseIs(m);
      if value !in valueToKeys {
        assert forall k <- m :: m[k] in m.Values;
        return;
      }
      var keys := valueToKeys[value];
      valueToKeys := valueToKeys - {value};
      while keys != {}
        invariant forall k :: k in keyToValue <==> k in m && (m[k] != value || k in keys)
        invariant forall k <- keyToValue :: keyToValue[k] == m[k]
        invariant valueToKeys == Inverse(m) - {value}
        decreases keys
      {
        var k :| k in keys;
        keyToValue := keyToValue - {k};
        keys := keys - {k};
      }
      InverseWithout(m, keyToValue, value);
    }

    /** `None` is the panic of the tree map on a range that runs backwards. */
    method RangeQuery(start: V, end: V) returns (rows: Option<seq<(V, set<K>)>>)
      requires Valid()
      ensures rows.None? <==> !le(start, end)
      ensures rows.Some? ==> IsRange(le, keyToValue, start, end, rows.value)
    {
      if !le(start, end) {
        return None;
      }
      var values := Sort(le, set v | v in valueToKeys && le(start, v) && le(v, end) && v != end);
      hide TotalOrder, Inverse;
      assert forall i | 0 <= i < |values| :: values[i] in values;
      var r := seq(|values|, i requires 0 <= i < |values| && values[i] in valueToKeys reads this => (values[i], valueToKeys[values[i]]));
      RangeRows(le, keyToValue, start, end, values, r);
      return Some(r);
    }

    method MinK(k: nat) returns (rows: seq<(V, K)>)
      requires Valid()
      ensures |rows| == Min(k, |keyToValue|) && IsLowest(le, keyToValue, rows)
    {
      var all := AscendingPairs();
      RowsCount(le, keyToValue, all);
      LowestPrefix(le, keyToValue, all, Min(k, |all|));
      rows := all[..Min(k, |all|)];
    }

    /** The index walked in order, each bucket in whatever order its hash set has. */
    method AscendingPairs() returns (all: seq<(V, K)>)
      requires Valid()
      ensures IsLowest(le, keyToValue, all) && forall k <- keyToValue :: (keyToValue[k], k) in all
    {
      var values := Sort(le, valueToKeys.Keys);
      all := [];
      WalkedNone(le, keyToValue);
      hide Walked, IsLowest, TotalOrder, Lists, Inverse, Enumerates;
      var i := 0;
      while i < |values|
        invariant 0 <= i <= |values| && Walked(le, keyToValue, values[..i], all)
      {
        all := WithBucket(le, keyToValue, valueToKeys, all, values, i);
        i := i + 1;
      }
      assert values[..i] == values;
      ValuesListed(le, keyToValue, values);
      WalkedAll(le, keyToValue, values, all);
    }
  }

  lemma WalkedNone<K, V>(le: (V, V) -> bool, m: map<K, V>)
    ensures Walked(le, m, [], [])
  {
  }

  lemma ValuesListed<K(!new), V(!new)>(le: (V, V) -> bool, m: map<K, V>, values: seq<V>)
    requires Lists(le, values, Inverse(m).Keys)
    ensures forall v <- m.Values :: v in values
  {
    InverseIs(m);
  }

  lemma BucketAt<K(!new), V(!new)>(le: (V, V) -> bool, m: map<K, V>, values: seq<V>, i: nat)
    requires TotalOrder(le) && Lists(le, values, Inverse(m).Keys) && i < |values|
    ensures values[i] in Inverse(m) && Inverse(m)[values[i]] == set k | k in m && m[k] == values[i]
    ensures le(values[i], values[i]) && forall x <- values[..i] :: le(x, values[i]) && x != values[i]
  {
    InverseIs(m);
    assert values[i] in values;
  }

  /** `all` is the buckets of `values`, in ascending order. */
  ghost predicate Walked<K, V>(le: (V, V) -> bool, m: map<K, V>, values: seq<V>, all: seq<(V, K)>) {
    && (forall x <- all :: x.1 in m && m[x.1] == x.0 && x.0 in values)
    && (forall a, b | 0 <= a < b < |all| :: le(all[a].0, all[b].0) && all[a].1 != all[b].1)
    && (forall k <- m | m[k] in values :: (m[k], k) in all)
  }

  lemma WalkedAll<K, V>(le: (V, V) -> bool, m: map<K, V>, values: seq<V>, all: seq<(V, K)>)
    requires Walked(le, m, values, all) && forall v <- m.Values :: v in values
    ensures IsLowest(le, m, all) && forall k <- m :: (m[k], k) in all
  {
    forall k <- m ensures (m[k], k) in all && exists j | 0 <= j < |all| :: all[j].1 == k {
      assert m[k] in m.Values;
      var j :| 0 <= j < |all| && all[j] == (m[k], k);
    }
    assert forall a | 0 <= a < |all| :: all[a] in all;
  }

  /** Appends the bucket of the next value; its keys come in whatever order its hash set has. */
  method WithBucket<K(==, !new), V(==, !new)>(le: (V, V) -> bool, ghost m: map<K, V>, index: map<V, set<K>>, before: seq<(V, K)>, values: seq<V>, i: nat)
    returns (all: seq<(V, K)>)
    requires TotalOrder(le) && index == Inverse(m) && Lists(le, values, index.Keys) && i < |values|
    requires Walked(le, m, values[..i], before)
    ensures Walked(le, m, values[..i + 1], all)
  {
    BucketAt(le, m, values, i);
    var keys := Enumerate(index[values[i]]);
    all := before + seq(|keys|, j requires 0 <= j < |keys| => (values[i], keys[j]));
    assert values[..i + 1] == values[..i] + [values[i]];
    BucketWalked(le, m, before, values[..i], values[i], keys, all);
  }

  lemma BucketWalked<K(!new), V>(le: (V, V) -> bool, m: map<K, V>, before: seq<(V, K)>, values: seq<V>, v: V, keys: seq<K>, all: seq<(V, K)>)
    requires Enumerates(keys, set k | k in m && m[k] == v) && Walked(le, m, values, before)
    requires le(v, v) && forall x <- values :: le(x, v) && x != v
    requires all == before + seq(|keys|, j requires 0 <= j < |keys| => (v, keys[j]))
    ensures Walked(le, m, values + [v], all)
  {
    assert forall j | |before| <= j < |all| :: all[j] == (v, keys[j - |before|]) && keys[j - |before|] in keys;
    assert forall j | 0 <= j < |before| :: all[j] == before[j] && before[j] in before;
    forall k <- m | m[k] in values + [v] ensures (m[k], k) in all {
      if m[k] == v {
        assert k in keys;
        var j :| 0 <= j < |keys| && keys[j] == k;
        assert all[|before| + j] == (v, k);
      } else {
        var j :| 0 <= j < |before| && before[j] == (m[k], k);
        assert all[j] == (m[k], k);
      }
    }
    forall a, b | 0 <= a < b < |all| ensures le(all[a].0, all[b].0) && all[a].1 != all[b].1 {
      if a < |before| <= b {
        assert m[all[a].1] != v;
      }
    }
  }

  lemma InverseDropped<K(!new), V(!new)>(m: map<K, V>, key: K)
    requires key in m
    ensures Inverse(m - {key}) == Drop(Inverse(m), m[key], key)
  {
    assert Swapped(m - {key}) == Swapped(m) - {(m[key], key)} by {
      forall v, k ensures (v, k) in Swapped(m - {key}) <==> (v, k) in Swapped(m) - {(m[key], key)} {
        SwappedMember(m, v, k);
        SwappedMember(m - {key}, v, k);
      }
    }
    DropIsIndex(Swapped(m), m[key], key);
  }

  lemma InverseInserted<K(!new), V(!new)>(m: map<K, V>, key: K, value: V)
    ensures Inverse(m[key := value]) == Add(if key in m then Drop(Inverse(m), m[key], key) else Inverse(m), value, key)
  {
    var rest := m - {key};
    if key in m {
      InverseDropped(m, key);
    } else {
      assert rest == m;
    }
    assert Swapped(m[key := value]) == Swapped(rest) + {(value, key)} by {
      forall v, k ensures (v, k) in Swapped(m[key := value]) <==> (v, k) in Swapped(rest) + {(value, key)} {
        SwappedMember(m[key := value], v, k);
        SwappedMember(rest, v, k);
      }
    }
    AddIsIndex(Swapped(rest), value, key);
  }

  lemma InverseWithout<K(!new), V(!new)>(m: map<K, V>, m': map<K, V>, value: V)
    requires m' == map k | k in m && m[k] != value :: m[k]
    ensures Inverse(m') == Inverse(m) - {value}
  {
    var less := set p | p in Swapped(m) && p.0 != value;
    forall v, k ensures (v, k) in Swapped(m') <==> (v, k) in less {
      SwappedMember(m, v, k);
      SwappedMember(m', v, k);
    }
    assert Swapped(m') == less;
    WithoutBucket(Swapped(m), Swapped(m'), value);
  }
}

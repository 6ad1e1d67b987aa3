/**
 A sharded table of weighted keys (`src/db/ztable.rs`).

 A key's weight goes up with every insertion and down with every removal, and may
 be negative. What a reader sees is stated from the history of operations alone, so
 it depends neither on the number of shards nor on the hash.
 */
module ZTables {
  import opened Options
  import opened Dots

  datatype Change<K, V> = Inserting(key: K, value: V) | Removing(key: K)

  ghost function Weight<K, V>(ops: seq<Change<K, V>>, key: K): int {
    if ops == [] then 0
    else
      var last := ops[|ops| - 1];
      Weight(ops[..|ops| - 1], key) + if last.key != key then 0 else if last.Inserting? then 1 else -1
  }

  /** The value of the last insertion of a key. */
  ghost function Latest<K, V>(ops: seq<Change<K, V>>, key: K): Option<V> {
    if ops == [] then None
    else
      var last := ops[|ops| - 1];
      if last.Inserting? && last.key == key then Some(last.value) else Latest(ops[..|ops| - 1], key)
  }

  type Shard<K, V> = map<K, (int, V)>

  /** A shard holds what a key's history says; an entry whose weight came back to 0 from below stays. */
  ghost predicate Follows<K, V>(shard: Shard<K, V>, ops: seq<Change<K, V>>, key: K) {
    if key !in shard then Weight(ops, key) == 0
    else shard[key].0 == Weight(ops, key) && (shard[key].0 >= 1 ==> Latest(ops, key) == Some(shard[key].1))
  }

  function Inserted<K(==), V>(shard: Shard<K, V>, key: K, value: V): Shard<K, V> {
    shard[key := ((if key in shard then shard[key].0 else 0) + 1, value)]
  }

  function Removed<K(==), V>(shard: Shard<K, V>, key: K, fallback: V): Shard<K, V> {
    if key !in shard then shard[key := (-1, fallback)]
    else if shard[key].0 == 1 then shard - {key}
    else shard[key := (shard[key].0 - 1, shard[key].1)]
  }

  lemma InsertedFollows<K, V>(shard: Shard<K, V>, ops: seq<Change<K, V>>, key: K, value: V, k: K)
    requires Follows(shard, ops, k)
    ensures Follows(Inserted(shard, key, value), ops + [Inserting(key, value)], k)
    ensures k != key ==> Follows(shard, ops + [Inserting(key, value)], k)
  {
    assert (ops + [Inserting(key, value)])[..|ops|] == ops;
  }

  lemma RemovedFollows<K, V>(shard: Shard<K, V>, ops: seq<Change<K, V>>, key: K, fallback: V, k: K)
    requires Follows(shard, ops, k)
    ensures Follows(Removed(shard, key, fallback), ops + [Removing(key)], k)
    ensures k != key ==> Follows(shard, ops + [Removing(key)], k)
  {
    assert (ops + [Removing(key)])[..|ops|] == ops;
  }

  class ZTable<K(==, !new), V(!new)> {
    const hash: K -> nat
    const fallback: V
    var shards: seq<Shard<K, V>>
    ghost var ops: seq<Change<K, V>>

    ghost predicate Placed()
      reads this
    {
      && |shards| >= 1
      && (forall i, k | 0 <= i < |shards| && k in shards[i] :: i == hash(k) % |shards|)
    }

    ghost predicate Valid()
      reads this
    {
      && Placed()
      && (forall k :: Follows(shards[ShardIndex(k)], ops, k))
    }

    function ShardIndex(key: K): nat
      requires |shards| >= 1
      reads this
      ensures ShardIndex(key) < |shards|
    {
      hash(key) % |shards|
    }

    constructor (shardCount: nat, hash: K -> nat, fallback: V)
      ensures Valid() && ops == [] && |shards| == if shardCount == 0 then 1 else shardCount
      ensures this.hash == hash && this.fallback == fallback
    {
      this.hash, this.fallback := hash, fallback;
      shards := seq(if shardCount == 0 then 1 else shardCount, i => map[]);
      ops := [];
    }

    method Insert(key: K, value: V) returns (weight: int)
      requires Valid()
      modifies this
      ensures Valid() && ops == old(ops) + [Inserting(key, value)] && |shards| == |old(shards)|
      ensures weight == Weight(ops, key)
    {
      var i := ShardIndex(key);
      shards := shards[i := Inserted(shards[i], key, value)];
      ops := ops + [Inserting(key, value)];
      forall k ensures Follows(shards[ShardIndex(k)], ops, k) {
        assert Follows(old(shards)[ShardIndex(k)], old(ops), k) by {
          assert old(Follows(shards[ShardIndex(k)], ops, k));
        }
        InsertedFollows(old(shards)[ShardIndex(k)], old(ops), key, value, k);
      }
      weight := shards[i][key].0;
    }

    method Remove(key: K) returns (weight: int)
      requires Valid()
      modifies this
      ensures Valid() && ops == old(ops) + [Removing(key)] && |shards| == |old(shards)|
      ensures weight == Weight(ops, key)
      ensures weight == 0 ==> forall i | 0 <= i < |shards| :: key !in shards[i]
    {
      var i := ShardIndex(key);
      shards := shards[i := Removed(shards[i], key, fallback)];
      ops := ops + [Removing(key)];
      forall k ensures Follows(shards[ShardIndex(k)], ops, k) {
        assert Follows(old(shards)[ShardIndex(k)], old(ops), k) by {
          assert old(Follows(shards[ShardIndex(k)], ops, k));
        }
        RemovedFollows(old(shards)[ShardIndex(k)], old(ops), key, fallback, k);
      }
      weight := if key in shards[i] then shards[i][key].0 else 0;
    }

    method GetWeight(key: K) returns (weight: int)
      requires Valid()
      ensures weight == Weight(ops, key)
    {
      var shard := shards[ShardIndex(key)];
      weight := if key in shard then shard[key].0 else 0;
    }

    method Get(key: K) returns (value: Option<V>)
      requires Valid()
      ensures value == if Weight(ops, key) > 0 then Latest(ops, key) else None
      ensures value.Some? <==> Weight(ops, key) > 0
    {
      var shard := shards[ShardIndex(key)];
      value := if key in shard && shard[key].0 >= 1 then Some(shard[key].1) else None;
    }

    /** All active entries, shard by shard, each shard in whatever order its map has. */
    method IterAll() returns (rows: seq<(K, V)>)
      requires Valid()
      ensures forall i, j | 0 <= i < j < |rows| :: rows[i].0 != rows[j].0
      ensures forall k, v :: (k, v) in rows <==> Weight(ops, k) > 0 && Latest(ops, k) == Some(v)
    {
      rows := [];
      var i := 0;
      while i < |shards|
        invariant 0 <= i <= |shards|
        invariant forall a, b | 0 <= a < b < |rows| :: rows[a].0 != rows[b].0
        invariant forall k, v :: (k, v) in rows <==> ShardIndex(k) < i && Weight(ops, k) > 0 && Latest(ops, k) == Some(v)
      {
        var more := ActiveOf(shards[i]);
        rows, i := rows + more, i + 1;
      }
    }
  }

  method ActiveOf<K(==, !new), V(!new)>(shard: Shard<K, V>) returns (rows: seq<(K, V)>)
    ensures forall i, j | 0 <= i < j < |rows| :: rows[i].0 != rows[j].0
    ensures forall k, v :: (k, v) in rows <==> k in shard && shard[k].0 > 0 && shard[k].1 == v
  {
    var keys := Enumerate(set k | k in shard && shard[k].0 > 0);
    assert forall i | 0 <= i < |keys| :: keys[i] in keys;
    rows := seq(|keys|, i requires 0 <= i < |keys| && keys[i] in shard => (keys[i], shard[keys[i]].1));
    forall k | k in shard && shard[k].0 > 0 ensures (k, shard[k].1) in rows {
      assert k in keys;
      var i :| 0 <= i < |keys| && keys[i] == k;
      assert rows[i] == (k, shard[k].1);
    }
  }
}

/** Bucket indexes: a map from keys to non-empty sets, kept next to the pairs it indexes. */
module Indexes {
  ghost function Firsts<A, B>(pairs: set<(A, B)>): set<A> {
    set p | p in pairs :: p.0
  }

  ghost function BucketOf<A, B>(pairs: set<(A, B)>, a: A): set<B> {
    set p | p in pairs && p.0 == a :: p.1
  }

  /** The index that belongs to a set of pairs; it has no empty bucket. */
  ghost function IndexOf<A(!new), B(!new)>(pairs: set<(A, B)>): map<A, set<B>> {
    map a | a in Firsts(pairs) :: BucketOf(pairs, a)
  }

  /** Adds to a bucket, creating it when it is missing. */
  function Add<A(==), B(==)>(index: map<A, set<B>>, a: A, b: B): map<A, set<B>> {
    index[a := (if a in index then index[a] else {}) + {b}]
  }

  /** Takes out of a bucket, and takes the bucket out when that empties it. */
  function Drop<A(==), B(==)>(index: map<A, set<B>>, a: A, b: B): map<A, set<B>> {
    if a !in index then index
    else if index[a] - {b} == {} then index - {a}
    else index[a := index[a] - {b}]
  }

  lemma BucketMember<A, B>(pairs: set<(A, B)>, a: A, b: B)
    ensures b in BucketOf(pairs, a) <==> (a, b) in pairs
    ensures (a, b) in pairs ==> a in Firsts(pairs)
  {
  }

  lemma FirstsMember<A, B>(pairs: set<(A, B)>, a: A)
    ensures a in Firsts(pairs) <==> BucketOf(pairs, a) != {}
  {
    if a in Firsts(pairs) {
      var p :| p in pairs && p.0 == a;
      assert p.1 in BucketOf(pairs, a);
    }
    if b :| b in BucketOf(pairs, a) {
      assert (a, b) in pairs;
    }
  }

  /** An index is determined by its buckets, a missing bucket counting as empty. */
  lemma IsIndex<A(!new), B(!new)>(pairs: set<(A, B)>, index: map<A, set<B>>)
    requires forall a <- index :: index[a] != {}
    requires forall a :: BucketOf(pairs, a) == if a in index then index[a] else {}
    ensures IndexOf(pairs) == index
  {
    forall a ensures a in IndexOf(pairs) <==> a in index {
      FirstsMember(pairs, a);
    }
    assert IndexOf(pairs).Keys == index.Keys;
  }

  lemma Buckets<A(!new), B(!new)>(pairs: set<(A, B)>)
    ensures forall a <- IndexOf(pairs) :: IndexOf(pairs)[a] != {}
    ensures forall a :: BucketOf(pairs, a) == if a in IndexOf(pairs) then IndexOf(pairs)[a] else {}
  {
    forall a ensures a in IndexOf(pairs) <==> BucketOf(pairs, a) != {} {
      FirstsMember(pairs, a);
    }
  }

  lemma AddIsIndex<A(!new), B(!new)>(pairs: set<(A, B)>, a: A, b: B)
    ensures IndexOf(pairs + {(a, b)}) == Add(IndexOf(pairs), a, b)
  {
    var more := pairs + {(a, b)};
    forall x ensures BucketOf(more, x) == BucketOf(pairs, x) + (if x == a then {b} else {}) {
      forall y ensures y in BucketOf(more, x) <==> y in BucketOf(pairs, x) || (x == a && y == b) {
        BucketMember(more, x, y);
        BucketMember(pairs, x, y);
      }
    }
    Buckets(pairs);
    IsIndex(more, Add(IndexOf(pairs), a, b));
  }

  lemma DropIsIndex<A(!new), B(!new)>(pairs: set<(A, B)>, a: A, b: B)
    ensures IndexOf(pairs - {(a, b)}) == Drop(IndexOf(pairs), a, b)
  {
    var less := pairs - {(a, b)};
    forall x ensures BucketOf(less, x) == BucketOf(pairs, x) - (if x == a then {b} else {}) {
      forall y ensures y in BucketOf(less, x) <==> y in BucketOf(pairs, x) && !(x == a && y == b) {
        BucketMember(less, x, y);
        BucketMember(pairs, x, y);
      }
    }
    Buckets(pairs);
    IsIndex(less, Drop(IndexOf(pairs), a, b));
  }

  /** Dropping a whole bucket removes exactly its pairs. */
  lemma WithoutBucket<A(!new), B(!new)>(pairs: set<(A, B)>, less: set<(A, B)>, a: A)
    requires less == set p | p in pairs && p.0 != a
    ensures IndexOf(less) == IndexOf(pairs) - {a}
  {
    forall x ensures BucketOf(less, x) == if x == a then {} else BucketOf(pairs, x) {
      forall y ensures y in BucketOf(less, x) <==> x != a && y in BucketOf(pairs, x) {
        BucketMember(less, x, y);
        BucketMember(pairs, x, y);
      }
    }
    Buckets(pairs);
    IsIndex(less, IndexOf(pairs) - {a});
  }
}

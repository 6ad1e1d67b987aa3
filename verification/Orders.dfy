/** Total orders, and the one ascending listing that a finite set has under such an order. */
module Orders {
  ghost predicate TotalOrder<T(!new)>(le: (T, T) -> bool) {
    && (forall x, y :: le(x, y) || le(y, x))
    && (forall x, y :: le(x, y) && le(y, x) ==> x == y)
    && (forall x, y, z :: le(x, y) && le(y, z) ==> le(x, z))
  }

  function Min(a: nat, b: nat): nat {
    if a <= b then a else b
  }

  function Seconds<A, B>(pairs: seq<(A, B)>): (r: seq<B>)
    ensures |r| == |pairs| && forall i | 0 <= i < |r| :: r[i] == pairs[i].1
  {
    seq(|pairs|, i requires 0 <= i < |pairs| => pairs[i].1)
  }

  ghost predicate Ascending<T>(le: (T, T) -> bool, s: seq<T>) {
    forall i, j | 0 <= i < j < |s| :: le(s[i], s[j]) && s[i] != s[j]
  }

  /** `s` is `elements` in ascending order, each element once. */
  ghost predicate Lists<T(!new)>(le: (T, T) -> bool, s: seq<T>, elements: set<T>) {
    Ascending(le, s) && forall x :: x in s <==> x in elements
  }

  lemma {:induction false} ListingUnique<T(!new)>(le: (T, T) -> bool, a: seq<T>, b: seq<T>, elements: set<T>)
    requires TotalOrder(le) && Lists(le, a, elements) && Lists(le, b, elements)
    ensures a == b
  {
    assert a == [] || a[0] in b;
    assert b == [] || b[0] in a;
    if a != [] {
      assert a[0] == b[0];
      assert a == [a[0]] + a[1..] && b == [b[0]] + b[1..];
      assert a[0] !in a[1..] && b[0] !in b[1..];
      ListingUnique(le, a[1..], b[1..], elements - {a[0]});
    }
  }

  function Placed<T(!new)>(le: (T, T) -> bool, s: seq<T>, x: T): (r: seq<T>)
    requires TotalOrder(le) && Ascending(le, s) && x !in s
    ensures Ascending(le, r) && forall y :: y in r <==> y == x || y in s
  {
    if s == [] then [x]
    else if le(x, s[0]) then
      var r := [x] + s;
      assert forall y :: y in r <==> y == x || y in s;
      assert forall i | 0 < i < |r| :: r[i] == s[i - 1] && le(s[0], r[i]);
      r
    else
      var tail := Placed(le, s[1..], x);
      var r := [s[0]] + tail;
      assert s == [s[0]] + s[1..];
      assert forall i | 0 < i < |r| :: r[i] == tail[i - 1] && r[i] in tail;
      r
  }

  method Sort<T(==, !new)>(le: (T, T) -> bool, elements: set<T>) returns (s: seq<T>)
    requires TotalOrder(le)
    ensures Lists(le, s, elements)
  {
    s := [];
    var rest := elements;
    while rest != {}
      invariant rest <= elements && Lists(le, s, elements - rest)
      decreases rest
    {
      var x :| x in rest;
      s := Placed(le, s, x);
      rest := rest - {x};
    }
  }
}

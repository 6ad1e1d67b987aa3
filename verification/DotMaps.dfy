/**
 The per-replica delta log (`DotMap` in `src/dots.rs`).

 The log keeps, for each replica, the items it has logged in order. The shape
 that every non-panicking run keeps is a run of consecutive counters that ends
 at the version vector; under it the binary-search query is the naive filter.
 */
module DotMaps {
  import opened Dots

  type DotMap<T> = map<Pid, seq<(Dot, T)>>

  function Push<T>(m: DotMap<T>, dot: Dot, value: T): DotMap<T> {
    m[dot.pid := (if dot.pid in m then m[dot.pid] else []) + [(dot, value)]]
  }

  function NotIn(vv: DotSet): Dot -> bool {
    (d: Dot) => !Contains(vv, d)
  }

  function IsPid(p: Pid): Dot -> bool {
    (d: Dot) => d.pid == p
  }

  function Filter<T>(items: seq<(Dot, T)>, keep: Dot -> bool): seq<(Dot, T)> {
    if items == [] then []
    else (if keep(items[0].0) then [items[0]] else []) + Filter(items[1..], keep)
  }

  /** `DotMap::retain`: filters every log and drops the ones left empty. */
  function Retain<T>(m: DotMap<T>, keep: Dot -> bool): DotMap<T> {
    map p | p in m && Filter(m[p], keep) != [] :: Filter(m[p], keep)
  }

  ghost predicate RunEndingAt<T>(items: seq<(Dot, T)>, p: Pid, last: Counter) {
    forall i | 0 <= i < |items| :: items[i].0 == Dot(p, last - |items| + 1 + i)
  }

  /** Every log is non-empty, consecutive, and ends exactly at the vector entry of its replica. */
  ghost predicate Shape<T>(m: DotMap<T>, vv: DotSet) {
    forall p <- m :: m[p] != [] && p in vv && RunEndingAt(m[p], p, vv[p])
  }

  /** The log of `p` covers the counters in (Base, vv[p]]. */
  function Base<T>(m: DotMap<T>, vv: DotSet, p: Pid): Counter {
    Get(vv, p) - if p in m then |m[p]| else 0
  }

  lemma PushShape<T>(m: DotMap<T>, vv: DotSet, dot: Dot, value: T)
    requires Shape(m, vv) && (dot.pid in vv ==> dot.counter == vv[dot.pid] + 1)
    ensures Shape(Push(m, dot, value), vv[dot.pid := dot.counter])
    ensures forall p | p != dot.pid || p in vv || dot.counter == 0 ::
              Base(Push(m, dot, value), vv[dot.pid := dot.counter], p) == Base(m, vv, p)
    ensures dot.pid !in vv ==> Base(Push(m, dot, value), vv[dot.pid := dot.counter], dot.pid) == dot.counter - 1
  {
  }

  // ---- Filtering a run ----

  function Clamp(x: int, hi: nat): (r: nat)
    ensures r <= hi
  {
    if x < 0 then 0 else if x > hi then hi else x
  }

  /** A filter that keeps the counters above a threshold keeps a suffix of a run. */
  lemma {:induction false} FilterRun<T>(items: seq<(Dot, T)>, p: Pid, last: Counter, above: Counter, keep: Dot -> bool)
    requires RunEndingAt(items, p, last)
    requires forall d: Dot | d.pid == p && last - |items| < d.counter <= last :: keep(d) <==> above < d.counter
    ensures Filter(items, keep) == items[Clamp(above - last + |items|, |items|)..]
  {
    if items != [] {
      FilterRun(items[1..], p, last, above, keep);
      assert items[0].0 == Dot(p, last - |items| + 1);
      assert items == [items[0]] + items[1..];
    }
  }

  lemma {:induction false} FilterNone<T>(items: seq<(Dot, T)>, keep: Dot -> bool)
    requires forall item <- items :: !keep(item.0)
    ensures Filter(items, keep) == []
  {
    if items != [] {
      FilterNone(items[1..], keep);
    }
  }

  lemma {:induction false} FilterAll<T>(items: seq<(Dot, T)>, keep: Dot -> bool)
    requires forall item <- items :: keep(item.0)
    ensures Filter(items, keep) == items
  {
    if items != [] {
      FilterAll(items[1..], keep);
    }
  }

  lemma FilterCons<T>(item: (Dot, T), rest: seq<(Dot, T)>, keep: Dot -> bool)
    ensures Filter([item] + rest, keep) == (if keep(item.0) then [item] else []) + Filter(rest, keep)
  {
    assert ([item] + rest)[1..] == rest;
  }

  lemma {:induction false} FilterConcat<T>(a: seq<(Dot, T)>, b: seq<(Dot, T)>, keep: Dot -> bool)
    ensures Filter(a + b, keep) == Filter(a, keep) + Filter(b, keep)
  {
    if a == [] {
      assert a + b == b;
    } else {
      hide Filter;
      var x, rest := a[0], a[1..];
      FilterConcat(rest, b, keep);
      FilterCons(x, rest, keep);
      FilterCons(x, rest + b, keep);
      assert a == [x] + rest && a + b == [x] + (rest + b);
    }
  }

  lemma {:induction false} FilterMember<T>(items: seq<(Dot, T)>, keep: Dot -> bool, item: (Dot, T))
    ensures item in Filter(items, keep) <==> item in items && keep(item.0)
  {
    if items != [] {
      assert items == [items[0]] + items[1..];
      FilterMember(items[1..], keep, item);
    }
  }

  // ---- The delta query ----

  /** Binary search: the index just past `counter` when it is found, its insertion point otherwise. */
  function SearchAfter<T>(items: seq<(Dot, T)>, counter: Counter, lo: nat, hi: nat): (idx: nat)
    requires lo <= hi <= |items|
    ensures lo <= idx <= hi
    decreases hi - lo
  {
    if lo == hi then lo
    else
      var mid := (lo + hi) / 2;
      if items[mid].0.counter == counter then mid + 1
      else if items[mid].0.counter < counter then SearchAfter(items, counter, mid + 1, hi)
      else SearchAfter(items, counter, lo, mid)
  }

  lemma {:induction false} SearchAfterRun<T>(items: seq<(Dot, T)>, p: Pid, last: Counter, counter: Counter, lo: nat, hi: nat)
    requires lo <= hi <= |items| && RunEndingAt(items, p, last)
    requires lo <= Clamp(counter - last + |items|, |items|) <= hi
    ensures SearchAfter(items, counter, lo, hi) == Clamp(counter - last + |items|, |items|)
    decreases hi - lo
  {
    if lo < hi {
      var mid := (lo + hi) / 2;
      assert items[mid].0.counter == last - |items| + 1 + mid;
      if items[mid].0.counter < counter {
        SearchAfterRun(items, p, last, counter, mid + 1, hi);
      } else if counter < items[mid].0.counter {
        SearchAfterRun(items, p, last, counter, lo, mid);
      }
    }
  }

  /** The items of one replica that the vector has not seen: `get_greater_iter`, or all when the vector has no entry. */
  function Greater<T>(m: DotMap<T>, vv: DotSet, p: Pid): seq<(Dot, T)> {
    if p !in m then []
    else if p in vv then m[p][SearchAfter(m[p], vv[p], 0, |m[p]|)..]
    else m[p]
  }

  /** `get_all_greater_iter`, for the order in which the hash maps happen to be walked. */
  function AllGreater<T>(m: DotMap<T>, vv: DotSet, order: seq<Pid>): seq<(Dot, T)> {
    if order == [] then [] else Greater(m, vv, order[0]) + AllGreater(m, vv, order[1..])
  }

  /** What the query is for: the logged items of `p` whose dot the vector does not contain. */
  function Unseen<T>(m: DotMap<T>, vv: DotSet, p: Pid): seq<(Dot, T)> {
    if p in m then Filter(m[p], NotIn(vv)) else []
  }

  function OfPid<T>(items: seq<(Dot, T)>, p: Pid): seq<(Dot, T)> {
    Filter(items, IsPid(p))
  }

  lemma GreaterIsUnseen<T>(m: DotMap<T>, own: DotSet, vv: DotSet, p: Pid)
    requires Shape(m, own)
    ensures Greater(m, vv, p) == Unseen(m, vv, p)
  {
    if p in m && p in vv {
      SearchAfterRun(m[p], p, own[p], vv[p], 0, |m[p]|);
      FilterRun(m[p], p, own[p], vv[p], NotIn(vv));
    } else if p in m {
      FilterAll(m[p], NotIn(vv));
    }
  }

  lemma GreaterOfPid<T>(m: DotMap<T>, own: DotSet, vv: DotSet, p: Pid, q: Pid)
    requires Shape(m, own)
    ensures OfPid(Greater(m, vv, p), q) == if p == q then Greater(m, vv, p) else []
  {
    if p == q {
      FilterAll(Greater(m, vv, p), IsPid(q));
    } else {
      FilterNone(Greater(m, vv, p), IsPid(q));
    }
  }

  lemma {:induction false} AllGreaterOfPid<T>(m: DotMap<T>, own: DotSet, vv: DotSet, order: seq<Pid>, p: Pid)
    requires Shape(m, own)
    requires forall i, j | 0 <= i < j < |order| :: order[i] != order[j]
    ensures OfPid(AllGreater(m, vv, order), p) == if p in order then Greater(m, vv, p) else []
  {
    hide Filter, Greater, Shape;
    if order == [] {
      FilterNone<T>([], IsPid(p));
    } else {
      GreaterOfPid(m, own, vv, order[0], p);
      AllGreaterOfPid(m, own, vv, order[1..], p);
      FilterConcat(Greater(m, vv, order[0]), AllGreater(m, vv, order[1..]), IsPid(p));
      assert order == [order[0]] + order[1..];
    }
  }

  /**
   The binary-search query is the naive filter: whatever the iteration order, the
   part of the answer that belongs to a replica is its unseen items, each once and
   in counter order.
   */
  lemma QueryIsFilter<T>(m: DotMap<T>, own: DotSet, vv: DotSet, order: seq<Pid>, p: Pid)
    requires Shape(m, own) && Enumerates(order, m.Keys + vv.Keys)
    ensures OfPid(AllGreater(m, vv, order), p) == Unseen(m, vv, p)
  {
    AllGreaterOfPid(m, own, vv, order, p);
    GreaterIsUnseen(m, own, vv, p);
  }

  // ---- What a receiver can rely on ----

  /** The item comes from the log, and its predecessor is either not wanted or earlier in the answer. */
  ghost predicate LinkedAt<T>(m: DotMap<T>, own: DotSet, vv: DotSet, list: seq<(Dot, T)>, i: nat)
    requires i < |list|
  {
    && list[i].0.pid in m
    && list[i] in m[list[i].0.pid]
    && (|| list[i].0.counter - 1 <= Base(m, own, list[i].0.pid)
        || list[i].0.counter - 1 <= Get(vv, list[i].0.pid)
        || exists j | 0 <= j < i :: list[j].0 == Dot(list[i].0.pid, list[i].0.counter - 1))
  }

  ghost predicate Linked<T>(m: DotMap<T>, own: DotSet, vv: DotSet, list: seq<(Dot, T)>) {
    forall i | 0 <= i < |list| :: LinkedAt(m, own, vv, list, i)
  }

  lemma RunLinked<T>(m: DotMap<T>, own: DotSet, vv: DotSet, p: Pid, start: nat, i: nat)
    requires Shape(m, own) && p in m && start + i < |m[p]|
    requires start == 0 || own[p] - |m[p]| + start <= Get(vv, p)
    ensures LinkedAt(m, own, vv, m[p][start..], i)
  {
    var items, list := m[p], m[p][start..];
    assert list[i] == items[start + i] && items[start + i].0 == Dot(p, own[p] - |items| + 1 + start + i);
    if i > 0 {
      assert list[i - 1] == items[start + i - 1] && items[start + i - 1].0 == Dot(p, list[i].0.counter - 1);
    }
  }

  lemma GreaterLinked<T>(m: DotMap<T>, own: DotSet, vv: DotSet, p: Pid)
    requires Shape(m, own)
    ensures Linked(m, own, vv, Greater(m, vv, p))
  {
    var list := Greater(m, vv, p);
    if p in m {
      var start := |m[p]| - |list|;
      if p in vv {
        SearchAfterRun(m[p], p, own[p], vv[p], 0, |m[p]|);
      }
      assert list == m[p][start..] && (start == 0 || own[p] - |m[p]| + start <= Get(vv, p));
      hide Greater, Shape, LinkedAt;
      forall i | 0 <= i < |list| ensures LinkedAt(m, own, vv, list, i) {
        RunLinked(m, own, vv, p, start, i);
      }
    }
  }

  lemma LinkedInHead<T>(m: DotMap<T>, own: DotSet, vv: DotSet, head: seq<(Dot, T)>, tail: seq<(Dot, T)>, i: nat)
    requires i < |head| && LinkedAt(m, own, vv, head, i)
    ensures LinkedAt(m, own, vv, head + tail, i)
  {
    var list := head + tail;
    assert list[i] == head[i];
    if j :| 0 <= j < i && head[j].0 == Dot(head[i].0.pid, head[i].0.counter - 1) {
      assert list[j] == head[j];
    }
  }

  lemma LinkedInTail<T>(m: DotMap<T>, own: DotSet, vv: DotSet, head: seq<(Dot, T)>, tail: seq<(Dot, T)>, k: nat)
    requires k < |tail| && LinkedAt(m, own, vv, tail, k)
    ensures LinkedAt(m, own, vv, head + tail, |head| + k)
  {
    var list := head + tail;
    assert list[|head| + k] == tail[k];
    if j :| 0 <= j < k && tail[j].0 == Dot(tail[k].0.pid, tail[k].0.counter - 1) {
      assert list[|head| + j] == tail[j];
    }
  }

  lemma LinkedConcat<T>(m: DotMap<T>, own: DotSet, vv: DotSet, head: seq<(Dot, T)>, tail: seq<(Dot, T)>)
    requires Linked(m, own, vv, head) && Linked(m, own, vv, tail)
    ensures Linked(m, own, vv, head + tail)
  {
    hide LinkedAt;
    forall i | 0 <= i < |head + tail| ensures LinkedAt(m, own, vv, head + tail, i) {
      if i < |head| {
        LinkedInHead(m, own, vv, head, tail, i);
      } else {
        LinkedInTail(m, own, vv, head, tail, i - |head|);
      }
    }
  }

  lemma {:induction false} AllGreaterLinked<T>(m: DotMap<T>, own: DotSet, vv: DotSet, order: seq<Pid>)
    requires Shape(m, own)
    ensures Linked(m, own, vv, AllGreater(m, vv, order))
  {
    hide Shape, Greater, LinkedAt;
    if order != [] {
      GreaterLinked(m, own, vv, order[0]);
      AllGreaterLinked(m, own, vv, order[1..]);
      LinkedConcat(m, own, vv, Greater(m, vv, order[0]), AllGreater(m, vv, order[1..]));
    }
  }

  /** Earlier dots of the same replica are smaller, and if there are any the predecessor is one of them. */
  ghost predicate RunAt(dots: seq<Dot>, i: nat)
    requires i < |dots|
  {
    && (forall j | 0 <= j < i && dots[j].pid == dots[i].pid :: dots[j].counter < dots[i].counter)
    && (|| (forall j | 0 <= j < i :: dots[j].pid != dots[i].pid)
        || (exists j | 0 <= j < i :: dots[j] == Dot(dots[i].pid, dots[i].counter - 1)))
  }

  /** The dots of each replica come in consecutive ascending order. */
  ghost predicate InRuns(dots: seq<Dot>) {
    forall i | 0 <= i < |dots| :: RunAt(dots, i)
  }

  function ItemDots<T>(items: seq<(Dot, T)>): (dots: seq<Dot>)
    ensures |dots| == |items| && forall i | 0 <= i < |dots| :: dots[i] == items[i].0
  {
    seq(|items|, i requires 0 <= i < |items| => items[i].0)
  }

  lemma GreaterIsRun<T>(m: DotMap<T>, own: DotSet, vv: DotSet, p: Pid)
    requires Shape(m, own) && p in m
    ensures var items := Greater(m, vv, p);
            forall i | 0 <= i < |items| :: items[i].0 == Dot(p, own[p] - |items| + 1 + i)
  {
    if p in vv {
      SearchAfterRun(m[p], p, own[p], vv[p], 0, |m[p]|);
    }
  }

  lemma RunAtHead(head: seq<Dot>, tail: seq<Dot>, p: Pid, last: Counter, i: nat)
    requires i < |head| && forall i | 0 <= i < |head| :: head[i] == Dot(p, last - |head| + 1 + i)
    ensures RunAt(head + tail, i)
  {
    var dots := head + tail;
    assert forall j | 0 <= j <= i :: dots[j] == head[j];
    if i > 0 {
      assert dots[i - 1] == Dot(dots[i].pid, dots[i].counter - 1);
    }
  }

  lemma RunAtTail(head: seq<Dot>, tail: seq<Dot>, k: nat)
    requires k < |tail| && RunAt(tail, k) && forall i | 0 <= i < |head| :: head[i].pid != tail[k].pid
    ensures RunAt(head + tail, |head| + k)
  {
    var dots := head + tail;
    assert forall j | 0 <= j < |head| :: dots[j] == head[j];
    assert forall j | |head| <= j < |dots| :: dots[j] == tail[j - |head|];
    if j :| 0 <= j < k && tail[j] == Dot(tail[k].pid, tail[k].counter - 1) {
      assert dots[|head| + j] == tail[j];
    }
  }

  lemma RunsConcat(head: seq<Dot>, tail: seq<Dot>, p: Pid, last: Counter)
    requires forall i | 0 <= i < |head| :: head[i] == Dot(p, last - |head| + 1 + i)
    requires InRuns(tail) && forall i | 0 <= i < |tail| :: tail[i].pid != p
    ensures InRuns(head + tail)
  {
    hide RunAt;
    forall i | 0 <= i < |head + tail| ensures RunAt(head + tail, i) {
      if i < |head| {
        RunAtHead(head, tail, p, last, i);
      } else {
        RunAtTail(head, tail, i - |head|);
      }
    }
  }

  lemma {:induction false} AllGreaterInRuns<T>(m: DotMap<T>, own: DotSet, vv: DotSet, order: seq<Pid>)
    requires Shape(m, own) && forall i, j | 0 <= i < j < |order| :: order[i] != order[j]
    ensures InRuns(ItemDots(AllGreater(m, vv, order)))
    ensures forall item <- AllGreater(m, vv, order) :: item.0.pid in order
  {
    if order != [] {
      hide Shape, Greater, InRuns;
      var p, head, tail := order[0], Greater(m, vv, order[0]), AllGreater(m, vv, order[1..]);
      AllGreaterInRuns(m, own, vv, order[1..]);
      assert order == [p] + order[1..];
      HeadIsRun(m, own, vv, p);
      RunsConcat(ItemDots(head), ItemDots(tail), p, Get(own, p));
      assert ItemDots(head + tail) == ItemDots(head) + ItemDots(tail);
    }
  }

  lemma HeadIsRun<T>(m: DotMap<T>, own: DotSet, vv: DotSet, p: Pid)
    requires Shape(m, own)
    ensures var dots := ItemDots(Greater(m, vv, p));
            forall i | 0 <= i < |dots| :: dots[i] == Dot(p, Get(own, p) - |dots| + 1 + i)
    ensures forall item <- Greater(m, vv, p) :: item.0.pid == p
  {
    if p in m {
      GreaterIsRun(m, own, vv, p);
    }
  }

  lemma {:induction false} AllGreaterHasHead<T>(m: DotMap<T>, vv: DotSet, order: seq<Pid>, p: Pid, item: (Dot, T))
    requires p in order && item in Greater(m, vv, p)
    ensures item in AllGreater(m, vv, order)
  {
    if p != order[0] {
      AllGreaterHasHead(m, vv, order[1..], p, item);
    }
  }

  lemma GreaterReaches<T>(m: DotMap<T>, own: DotSet, vv: DotSet, p: Pid)
    requires Shape(m, own) && p in m && Get(vv, p) < own[p]
    ensures p in own && exists item <- Greater(m, vv, p) :: item.0 == Dot(p, own[p])
  {
    if p in vv {
      SearchAfterRun(m[p], p, own[p], vv[p], 0, |m[p]|);
    }
    var list := Greater(m, vv, p);
    assert list[|list| - 1] == m[p][|m[p]| - 1] && list[|list| - 1] in list;
  }

  /** The answer reaches the end of every log that extends past the requested vector. */
  lemma AllGreaterReaches<T>(m: DotMap<T>, own: DotSet, vv: DotSet, order: seq<Pid>, p: Pid)
    requires Shape(m, own) && Enumerates(order, m.Keys + vv.Keys)
    requires p in m && Get(vv, p) < own[p]
    ensures exists i | 0 <= i < |AllGreater(m, vv, order)| :: AllGreater(m, vv, order)[i].0 == Dot(p, own[p])
  {
    hide Shape, Greater, AllGreater;
    GreaterReaches(m, own, vv, p);
    var item :| item in Greater(m, vv, p) && item.0 == Dot(p, own[p]);
    AllGreaterHasHead(m, vv, order, p, item);
  }

  // ---- Truncation ----

  /** How many items truncation takes from the front of a log. */
  ghost function Cut<T>(m: DotMap<T>, vv: DotSet, frontier: DotSet, departed: set<Pid>, p: Pid): (k: nat)
    requires p in m
    ensures k <= |m[p]|
  {
    if p in departed then |m[p]|
    else if p in frontier then Clamp(frontier[p] - Get(vv, p) + |m[p]|, |m[p]|)
    else 0
  }

  lemma RetainOne<T>(m: DotMap<T>, vv: DotSet, frontier: DotSet, departed: set<Pid>, keep: Dot -> bool, p: Pid)
    requires Shape(m, vv) && p in m
    requires forall d: Dot :: keep(d) <==> !Contains(frontier, d) && d.pid !in departed
    ensures Filter(m[p], keep) == m[p][Cut(m, vv, frontier, departed, p)..]
  {
    if p in departed {
      FilterNone(m[p], keep);
    } else if p !in frontier {
      FilterAll(m[p], keep);
    } else {
      FilterRun(m[p], p, vv[p], frontier[p], keep);
    }
  }

  /** Truncation at a frontier keeps the shape and moves no lower bound past the frontier. */
  lemma RetainShape<T>(m: DotMap<T>, vv: DotSet, frontier: DotSet, departed: set<Pid>, keep: Dot -> bool)
    requires Shape(m, vv)
    requires forall d: Dot :: keep(d) <==> !Contains(frontier, d) && d.pid !in departed
    ensures Shape(Retain(m, keep), vv)
    ensures forall p <- departed :: p !in Retain(m, keep)
    ensures forall p: Pid | p !in departed ::
              Base(m, vv, p) <= Base(Retain(m, keep), vv, p)
              && (Base(Retain(m, keep), vv, p) <= Base(m, vv, p) || Base(Retain(m, keep), vv, p) <= Get(frontier, p))
    ensures forall p <- Retain(m, keep) :: p in m && |Retain(m, keep)[p]| <= |m[p]| && Retain(m, keep)[p] == m[p][|m[p]| - |Retain(m, keep)[p]|..]
  {
    forall p <- m ensures Filter(m[p], keep) == m[p][Cut(m, vv, frontier, departed, p)..] {
      RetainOne(m, vv, frontier, departed, keep, p);
    }
    hide Filter, Contains;
    forall p <- m
      ensures p in Retain(m, keep) <==> Cut(m, vv, frontier, departed, p) < |m[p]|
      ensures p in Retain(m, keep) ==> Retain(m, keep)[p] == m[p][Cut(m, vv, frontier, departed, p)..]
    {
    }
  }

  lemma RetainedItem<T>(m: DotMap<T>, keep: Dot -> bool, p: Pid, item: (Dot, T))
    requires p in m && item in m[p]
    ensures p in Retain(m, keep) && item in Retain(m, keep)[p] <==> keep(item.0)
  {
    FilterMember(m[p], keep, item);
  }

  lemma {:induction false} FilterTwice<T>(items: seq<(Dot, T)>, first: Dot -> bool, second: Dot -> bool)
    requires forall item <- items :: second(item.0) ==> first(item.0)
    ensures Filter(Filter(items, first), second) == Filter(items, second)
  {
    if items != [] {
      FilterTwice(items[1..], first, second);
      if first(items[0].0) {
        assert Filter(items, first)[1..] == Filter(items[1..], first);
      } else {
        assert Filter(items, first) == Filter(items[1..], first);
      }
    }
  }

  /** Items that the requester has may be dropped without changing any answer to it. */
  lemma {:induction false} RetainInvisible<T>(m: DotMap<T>, own: DotSet, keep: Dot -> bool, vv: DotSet, order: seq<Pid>)
    requires Shape(m, own) && Shape(Retain(m, keep), own)
    requires forall p <- m, item <- m[p] :: keep(item.0) || Contains(vv, item.0)
    ensures AllGreater(Retain(m, keep), vv, order) == AllGreater(m, vv, order)
  {
    if order != [] {
      var p := order[0];
      GreaterIsUnseen(m, own, vv, p);
      GreaterIsUnseen(Retain(m, keep), own, vv, p);
      if p in m {
        FilterTwice(m[p], keep, NotIn(vv));
      }
      RetainInvisible(m, own, keep, vv, order[1..]);
    }
  }
}

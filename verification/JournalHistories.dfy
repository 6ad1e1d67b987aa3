/**
 What a journal keeps, told from what happened to it.

 A history lists what the committers did in order: complete lines and fragments that
 reached the log, records the live state took in, snapshots, and restarts. Two contents
 are read off it without looking at files: what recovery would rebuild, and what the
 live state holds. They part ways when an append fails while the process goes on.
 */
module JournalHistories {
  import opened Options

  datatype Event<S, R> =
    | Wrote(record: R)
    | Applied(record: R)
    | Tore
    | Rewritten
    | Installed(state: S)
    | Adopted(state: S)
    | Restarted

  type History<S, R> = seq<Event<S, R>>

  /** A record, told apart from equal ones by when it was written. */
  datatype Item<R> = Item(at: nat, record: R)

  datatype Content<S, R> = Content(base: S, items: seq<Item<R>>)

  /** The end of the log: whole lines only, a fragment, or somewhere a line that a fragment has spoilt. */
  datatype Tail = Clean | Ragged | Broken

  datatype View<S, R> = View(kept: Content<S, R>, live: Content<S, R>, tail: Tail)

  function Plus<S, R>(c: Content<S, R>, at: nat, r: R): Content<S, R> {
    c.(items := c.items + [Item(at, r)])
  }

  function Next<S, R>(v: View<S, R>, at: nat, e: Event<S, R>): View<S, R> {
    if e.Wrote? then (if v.tail.Clean? then v.(kept := Plus(v.kept, at, e.record)) else v.(tail := Broken))
    else if e.Applied? then (if at == 0 then v else v.(live := Plus(v.live, at - 1, e.record)))
    else if e.Tore? then (if v.tail.Clean? then v.(tail := Ragged) else v)
    else if e.Rewritten? then View(v.live, v.live, Clean)
    else if e.Installed? then v.(kept := Content(e.state, []), tail := Clean)
    else if e.Adopted? then v.(live := Content(e.state, []))
    else View(v.kept, v.kept, Clean)
  }

  function ViewOf<S, R>(init: S, h: History<S, R>): View<S, R>
    decreases |h|
  {
    if h == [] then View(Content(init, []), Content(init, []), Clean)
    else Next(ViewOf(init, h[..|h| - 1]), |h| - 1, h[|h| - 1])
  }

  /** A record is taken in, and an installed state adopted, by whoever wrote it and before anything else happens. */
  ghost predicate Ordered<S, R>(h: History<S, R>) {
    && (forall j | 0 <= j < |h| && h[j].Applied? :: 0 < j && h[j - 1] == Wrote(h[j].record))
    && (forall j | 0 <= j < |h| && h[j].Adopted? :: 0 < j && h[j - 1] == Installed(h[j].state))
    && (forall j | 0 <= j < |h| - 1 && h[j].Installed? :: h[j + 1] == Adopted(h[j].state) || h[j + 1].Restarted?)
  }

  ghost predicate Pending<S, R>(h: History<S, R>) {
    h != [] && h[|h| - 1].Installed?
  }

  // ---- The fate of a record, told from positions alone ----

  predicate IsReset<S, R>(e: Event<S, R>) {
    e.Rewritten? || e.Installed? || e.Restarted?
  }

  ghost predicate ResetIn<S, R>(h: History<S, R>, from: nat, to: nat)
    requires to <= |h|
  {
    exists k | from <= k < to :: IsReset(h[k])
  }

  /** Every fragment before position `i` was cleared away before it. */
  ghost predicate CleanAt<S, R>(h: History<S, R>, i: nat)
    requires i <= |h|
  {
    forall t | 0 <= t < i && h[t].Tore? :: ResetIn(h, t, i)
  }

  /** The record written at `i` was taken in by the live state. */
  predicate AppliedAt<S, R>(h: History<S, R>, i: nat) {
    i + 1 < |h| && h[i + 1].Applied?
  }

  ghost predicate Wiped<S, R>(h: History<S, R>, i: nat) {
    exists k | i < k < |h| :: h[k].Installed?
  }

  /** The first thing to clear the log after `i` is a compaction. */
  ghost predicate CompactedFirst<S, R>(h: History<S, R>, i: nat) {
    exists c | i < c < |h| :: h[c].Rewritten? && !ResetIn(h, i + 1, c)
  }

  /**
   A record is kept unless an install wipes it out, if it was taken in by the time of the
   compaction that comes first after it, or, when none does, if no fragment lay before it.
   */
  ghost predicate KeptFate<S, R>(h: History<S, R>, i: nat)
    requires i < |h|
  {
    !Wiped(h, i) && if CompactedFirst(h, i) then AppliedAt(h, i) else CleanAt(h, i)
  }

  ghost predicate LiveFate<S, R>(h: History<S, R>, i: nat)
    requires i < |h|
  {
    !Wiped(h, i) && if CompactedFirst(h, i) || !ResetIn(h, i + 1, |h|) then AppliedAt(h, i) else CleanAt(h, i)
  }

  lemma {:induction false} TailClean<S, R>(init: S, h: History<S, R>)
    ensures ViewOf(init, h).tail.Clean? <==> CleanAt(h, |h|)
    decreases |h|
  {
    hide ViewOf, CleanAt;
    if h == [] {
      ViewNone<S, R>(init);
      CleanNone(h);
    } else {
      var n := |h| - 1;
      TailClean(init, h[..n]);
      assert h == h[..n] + [h[n]];
      ViewSnoc(init, h[..n], h[n]);
      CleanPrefix(h, n);
      CleanStep(h);
    }
  }

  lemma CleanNone<S, R>(h: History<S, R>)
    requires h == []
    ensures CleanAt(h, 0)
  {
  }

  lemma CleanStep<S, R>(h: History<S, R>)
    requires h != []
    ensures var n := |h| - 1; CleanAt(h, |h|) <==> IsReset(h[n]) || (!h[n].Tore? && CleanAt(h, n))
  {
    var n := |h| - 1;
    if IsReset(h[n]) {
      forall t | 0 <= t < |h| && h[t].Tore? ensures ResetIn(h, t, |h|) {
        assert IsReset(h[n]);
      }
    } else {
      ResetsBefore(h, n);
      assert h[n].Tore? ==> !ResetIn(h, n, |h|);
    }
  }

  lemma CleanPrefix<S, R>(h: History<S, R>, n: nat)
    requires n <= |h|
    ensures forall i: nat | i <= n :: CleanAt(h[..n], i) <==> CleanAt(h, i)
    ensures forall t: nat, i: nat | i <= n :: ResetIn(h[..n], t, i) <==> ResetIn(h, t, i)
  {
    forall t: nat, i: nat | i <= n ensures ResetIn(h[..n], t, i) <==> ResetIn(h, t, i) {
      if k :| t <= k < i && IsReset(h[..n][k]) {
        assert IsReset(h[k]);
      }
      if k :| t <= k < i && IsReset(h[k]) {
        assert IsReset(h[..n][k]);
      }
    }
    forall i: nat | i <= n ensures CleanAt(h[..n], i) <==> CleanAt(h, i) {
      assert forall t | 0 <= t < i :: h[..n][t] == h[t];
    }
  }

  lemma ResetsBefore<S, R>(h: History<S, R>, n: nat)
    requires n < |h| && !IsReset(h[n])
    ensures forall t: nat | t <= n :: ResetIn(h, t, n + 1) <==> ResetIn(h, t, n)
  {
    forall t: nat | t <= n ensures ResetIn(h, t, n + 1) <==> ResetIn(h, t, n) {
      if k :| t <= k < n + 1 && IsReset(h[k]) {
        assert k < n;
      }
    }
  }

  // ---- The two contents list exactly the records with that fate ----

  ghost predicate Real<S, R>(h: History<S, R>, items: seq<Item<R>>) {
    && (forall x <- items :: x.at < |h| && h[x.at] == Wrote(x.record))
    && (forall i, j | 0 <= i < j < |items| :: items[i].at < items[j].at)
  }

  lemma RealPlus<S, R>(h: History<S, R>, e: Event<S, R>, items: seq<Item<R>>, at: nat, r: R)
    requires Real(h, items) && at <= |h| && (h + [e])[at] == Wrote(r) && forall x <- items :: x.at < at
    ensures Real(h + [e], items + [Item(at, r)])
  {
    assert forall i | 0 <= i < |items| :: items[i] in items;
  }

  lemma RealMore<S, R>(h: History<S, R>, e: Event<S, R>, items: seq<Item<R>>)
    requires Real(h, items)
    ensures Real(h + [e], items)
  {
  }

  /** Both contents list real records in the order in which they were written. */
  lemma {:induction false} ItemsReal<S, R>(init: S, h: History<S, R>)
    requires Ordered(h)
    ensures Real(h, ViewOf(init, h).kept.items) && Real(h, ViewOf(init, h).live.items)
    ensures h != [] && h[|h| - 1].Wrote? ==> forall x <- ViewOf(init, h).live.items :: x.at < |h| - 1
    decreases |h|
  {
    hide Real, ViewOf, Ordered;
    if h == [] {
      ViewNone<S, R>(init);
      RealNone<S, R>(h);
    } else {
      var n := |h| - 1;
      var h0, e := h[..n], h[n];
      OrderedPrefix(h, n);
      ItemsReal(init, h0);
      assert h == h0 + [e];
      var v := ViewOf(init, h0);
      RealMore(h0, e, v.kept.items);
      RealMore(h0, e, v.live.items);
      RealBelow(h0, v.kept.items);
      RealBelow(h0, v.live.items);
      RealNone(h);
      ViewSnoc(init, h0, e);
      if e.Wrote? {
        RealPlus(h0, e, v.kept.items, n, e.record);
      } else if e.Applied? {
        AppliedBefore(h, n);
        assert h0[n - 1] == h[n - 1];
        RealPlus(h0, e, v.live.items, n - 1, e.record);
      }
    }
  }

  lemma RealBelow<S, R>(h: History<S, R>, items: seq<Item<R>>)
    requires Real(h, items)
    ensures forall x <- items :: x.at < |h|
  {
  }

  lemma RealNone<S, R>(h: History<S, R>)
    ensures Real(h, [])
  {
  }

  lemma AppliedBefore<S, R>(h: History<S, R>, n: nat)
    requires Ordered(h) && n < |h| && h[n].Applied?
    ensures 0 < n && h[n - 1] == Wrote(h[n].record)
  {
  }

  lemma ViewNone<S, R>(init: S)
    ensures ViewOf<S, R>(init, []) == View(Content(init, []), Content(init, []), Clean)
  {
  }

  lemma ViewSnoc<S, R>(init: S, h: History<S, R>, e: Event<S, R>)
    ensures ViewOf(init, h + [e]) == Next(ViewOf(init, h), |h|, e)
  {
    assert (h + [e])[..|h|] == h;
  }

  lemma OrderedPrefix<S, R>(h: History<S, R>, n: nat)
    requires Ordered(h) && n <= |h|
    ensures Ordered(h[..n])
  {
  }

  /** What one more event does to the conditions of a fate. */
  lemma FateStep<S, R>(h: History<S, R>, e: Event<S, R>, i: nat)
    requires i < |h|
    ensures CleanAt(h + [e], i) <==> CleanAt(h, i)
    ensures AppliedAt(h + [e], i) <==> AppliedAt(h, i) || (i + 1 == |h| && e.Applied?)
    ensures Wiped(h + [e], i) <==> Wiped(h, i) || e.Installed?
    ensures ResetIn(h + [e], i + 1, |h| + 1) <==> ResetIn(h, i + 1, |h|) || IsReset(e)
    ensures CompactedFirst(h + [e], i) <==> CompactedFirst(h, i) || (e.Rewritten? && !ResetIn(h, i + 1, |h|))
  {
    var h' := h + [e];
    assert h'[..|h|] == h;
    CleanPrefix(h', |h|);
    assert h'[|h|] == e;
    if k :| i < k < |h| && h[k].Installed? {
      assert h'[k].Installed?;
    }
    if k :| i + 1 <= k < |h| && IsReset(h[k]) {
      assert IsReset(h'[k]);
    }
    if k :| i + 1 <= k < |h'| && IsReset(h'[k]) {
      assert k == |h| || IsReset(h[k]);
    }
    if c :| i < c < |h| && h[c].Rewritten? && !ResetIn(h, i + 1, c) {
      assert h'[c].Rewritten?;
    }
    if c :| i < c < |h'| && h'[c].Rewritten? && !ResetIn(h', i + 1, c) {
      assert c == |h| || h[c].Rewritten?;
    }
  }

  ghost predicate FatesAre<S, R>(init: S, h: History<S, R>, i: nat)
    requires i < |h| && h[i].Wrote?
  {
    var v, x := ViewOf(init, h), Item(i, h[i].record);
    && (x in v.kept.items <==> KeptFate(h, i))
    && (!Pending(h) ==> (x in v.live.items <==> LiveFate(h, i)))
  }

  lemma FateOfLast<S, R>(init: S, h: History<S, R>, r: R)
    requires Ordered(h + [Wrote(r)])
    ensures FatesAre(init, h + [Wrote(r)], |h|)
  {
    var h', n := h + [Wrote(r)], |h|;
    OrderedPrefix(h', n);
    assert h'[..n] == h;
    ViewSnoc(init, h, Wrote(r));
    TailClean(init, h);
    CleanPrefix(h', n);
    ItemsReal(init, h);
    RealBelow(h, ViewOf(init, h).kept.items);
    RealBelow(h, ViewOf(init, h).live.items);
  }

  /** An install that is pending is followed by its adoption or a restart, and nothing survives it. */
  lemma AfterPending<S, R>(h: History<S, R>, e: Event<S, R>, i: nat)
    requires Ordered(h + [e]) && Pending(h) && i < |h| && h[i].Wrote?
    ensures (e.Adopted? || e.Restarted?) && Wiped(h, i)
  {
    var h' := h + [e];
    assert h'[|h| - 1] == h[|h| - 1] && h'[|h|] == e;
    assert h[|h| - 1].Installed?;
  }

  lemma FateSnoc<S, R>(init: S, h: History<S, R>, e: Event<S, R>, i: nat)
    requires Ordered(h + [e]) && i < |h| && h[i].Wrote? && FatesAre(init, h, i)
    ensures FatesAre(init, h + [e], i)
  {
    var h', n := h + [e], |h|;
    var v, x := ViewOf(init, h), Item(i, h[i].record);
    FateStep(h, e, i);
    ViewSnoc(init, h, e);
    assert h'[i] == h[i] && h'[n] == e;
    if Pending(h) {
      AfterPending(h, e, i);
    }
    if e.Applied? {
      AppliedBefore(h', n);
      assert h[n - 1] == h'[n - 1];
    }
    NoResetNoCompaction(h, i);
    hide Ordered, CleanAt, Wiped, ResetIn, CompactedFirst, AppliedAt, ViewOf;
  }

  lemma NoResetNoCompaction<S, R>(h: History<S, R>, i: nat)
    requires i < |h|
    ensures !ResetIn(h, i + 1, |h|) ==> !CompactedFirst(h, i)
  {
    if c :| i < c < |h| && h[c].Rewritten? && !ResetIn(h, i + 1, c) {
      assert IsReset(h[c]);
    }
  }

  /** Exactly which records recovery rebuilds and which the live state holds, for every record ever written. */
  lemma {:induction false} Fates<S, R>(init: S, h: History<S, R>, i: nat)
    requires Ordered(h) && i < |h| && h[i].Wrote?
    ensures FatesAre(init, h, i)
    decreases |h|
  {
    var n := |h| - 1;
    var h0, e := h[..n], h[n];
    assert h == h0 + [e];
    if i == n {
      FateOfLast(init, h0, e.record);
    } else {
      OrderedPrefix(h, n);
      Fates(init, h0, i);
      FateSnoc(init, h0, e, i);
    }
  }

  // ---- When recovery and the live state agree ----

  /** Since the log was last cleared, the records taken in are exactly those no fragment lies before. */
  ghost predicate NothingFailed<S, R>(h: History<S, R>) {
    forall i: nat | i < |h| && h[i].Wrote? && !ResetIn(h, i + 1, |h|) :: AppliedAt(h, i) <==> CleanAt(h, i)
  }

  lemma {:induction false} SameBase<S, R>(init: S, h: History<S, R>)
    requires Ordered(h)
    ensures !Pending(h) ==> ViewOf(init, h).kept.base == ViewOf(init, h).live.base
    decreases |h|
  {
    if h != [] {
      var n := |h| - 1;
      OrderedPrefix(h, n);
      SameBase(init, h[..n]);
      if Pending(h[..n]) {
        assert h[n - 1].Installed?;
        assert h[..n][..n - 1] == h[..n - 1] && h[..n][n - 1] == h[n - 1];
      }
    }
  }

  lemma {:induction false} AscendingUnique<R>(a: seq<Item<R>>, b: seq<Item<R>>)
    requires forall i, j | 0 <= i < j < |a| :: a[i].at < a[j].at
    requires forall i, j | 0 <= i < j < |b| :: b[i].at < b[j].at
    requires forall x :: x in a <==> x in b
    ensures a == b
    decreases |a|
  {
    assert forall i | 0 <= i < |b| :: b[i] in a;
    if b != [] {
      assert b[0] in a;
    }
    if a != [] {
      assert a[0] in b;
      assert a[0] == b[0];
      assert a == [a[0]] + a[1..] && b == [b[0]] + b[1..];
      assert a[0] !in a[1..] && b[0] !in b[1..];
      forall x ensures x in a[1..] <==> x in b[1..] {
        assert x in a <==> x in b;
      }
      AscendingUnique(a[1..], b[1..]);
    }
  }

  /** Recovery rebuilds exactly what the live state holds if and only if nothing has failed since the log was last cleared. */
  lemma AgreeIff<S, R>(init: S, h: History<S, R>)
    requires Ordered(h) && !Pending(h)
    ensures ViewOf(init, h).kept == ViewOf(init, h).live <==> NothingFailed(h)
  {
    var v := ViewOf(init, h);
    SameBase(init, h);
    ItemsReal(init, h);
    if NothingFailed(h) {
      forall x ensures x in v.kept.items <==> x in v.live.items {
        if x in v.kept.items || x in v.live.items {
          Fates(init, h, x.at);
          NoResetNoCompaction(h, x.at);
        }
      }
      AscendingUnique(v.kept.items, v.live.items);
    } else {
      var i: nat :| i < |h| && h[i].Wrote? && !ResetIn(h, i + 1, |h|) && !(AppliedAt(h, i) <==> CleanAt(h, i));
      Fates(init, h, i);
      NoResetNoCompaction(h, i);
      NoResetNotWiped(h, i);
    }
  }

  lemma NoResetNotWiped<S, R>(h: History<S, R>, i: nat)
    requires i < |h| && !ResetIn(h, i + 1, |h|)
    ensures !Wiped(h, i)
  {
    if k :| i < k < |h| && h[k].Installed? {
      assert IsReset(h[k]);
    }
  }
}

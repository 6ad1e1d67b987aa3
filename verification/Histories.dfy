/**
 What the OR-Set entries mean.

 A history records every mutation of every replica, with the vector its author
 had seen. Against it `entries` has a meaning that mentions neither logs nor
 merges: the insertions seen whose dot no removal seen names. The code keeps
 `entries` equal to that meaning exactly when no merged list leaves behind an
 insertion that some removal had already named.
 */
module Histories {
  import opened Options
  import opened Dots
  import opened DotMaps
  import opened OrSets

  datatype Event = Event(change: Change, context: DotSet)

  type History = map<Pid, seq<Event>>

  ghost predicate Happened(h: History, dot: Dot) {
    dot.pid in h && 0 <= dot.counter < |h[dot.pid]|
  }

  ghost function At(h: History, dot: Dot): Event
    requires Happened(h, dot)
  {
    h[dot.pid][dot.counter]
  }

  ghost predicate Records(h: History, delta: Delta) {
    Happened(h, delta.dot) && At(h, delta.dot).change == delta.change
  }

  ghost predicate Within(h: History, vv: DotSet) {
    forall p <- vv :: p in h && vv[p] < |h[p]|
  }

  ghost predicate NamedIn(change: Change, e: Element, dot: Dot) {
    change.Removal? && change.element == e && dot in change.removedDots
  }

  ghost predicate Names(h: History, removal: Dot, e: Element, dot: Dot) {
    Happened(h, removal) && NamedIn(At(h, removal).change, e, dot)
  }

  ghost predicate RemovedIn(h: History, vv: DotSet, e: Element, dot: Dot) {
    exists removal: Dot :: Contains(vv, removal) && Names(h, removal, e, dot)
  }

  ghost predicate InsertedIn(h: History, vv: DotSet, e: Element, dot: Dot) {
    Happened(h, dot) && Contains(vv, dot) && At(h, dot).change == Insertion(e)
  }

  /** An insertion seen that no removal seen names. */
  ghost predicate Live(h: History, vv: DotSet, e: Element, dot: Dot) {
    InsertedIn(h, vv, e, dot) && !RemovedIn(h, vv, e, dot)
  }

  ghost predicate InEntries(entries: map<Element, seq<Dot>>, e: Element, dot: Dot) {
    e in entries && dot in entries[e]
  }

  ghost predicate NoEmptyEntry(entries: map<Element, seq<Dot>>) {
    forall e <- entries :: entries[e] != []
  }

  /** `entries` lists exactly the insertions that are live for a replica that has seen `seen`. */
  ghost predicate Exact(h: History, seen: DotSet, entries: map<Element, seq<Dot>>) {
    forall e, dot :: InEntries(entries, e, dot) <==> Live(h, seen, e, dot)
  }

  /** `entries` lists nothing but insertions that happened. */
  ghost predicate Sound(h: History, s: OrSet) {
    && NoEmptyEntry(s.entries)
    && (forall e, dot | InEntries(s.entries, e, dot) :: Happened(h, dot) && At(h, dot).change == Insertion(e))
  }

  lemma AppliedEntries(entries: map<Element, seq<Dot>>, delta: Delta, e: Element, dot: Dot)
    ensures InEntries(Applied(entries, delta), e, dot) <==>
            || (InEntries(entries, e, dot) && !NamedIn(delta.change, e, dot))
            || (delta.change == Insertion(e) && dot == delta.dot)
    ensures NoEmptyEntry(entries) ==> NoEmptyEntry(Applied(entries, delta))
  {
  }

  lemma LoggedSound(h: History, s: OrSet, delta: Delta)
    requires Sound(h, s) && Records(h, delta)
    ensures Sound(h, Logged(s, delta))
  {
    forall e, dot | InEntries(Applied(s.entries, delta), e, dot)
      ensures Happened(h, dot) && At(h, dot).change == Insertion(e)
    {
      AppliedEntries(s.entries, delta, e, dot);
    }
    if e :| e in s.entries {
      AppliedEntries(s.entries, delta, e, delta.dot);
    }
  }

  // ---- Merging one delta ----

  ghost predicate Next(vv: DotSet, dot: Dot) {
    dot.counter == Get(vv, dot.pid) + 1
  }

  lemma RemovedStep(h: History, vv: DotSet, delta: Delta, e: Element, dot: Dot)
    requires Records(h, delta) && Next(vv, delta.dot)
    ensures RemovedIn(h, vv[delta.dot.pid := delta.dot.counter], e, dot) <==>
            RemovedIn(h, vv, e, dot) || NamedIn(delta.change, e, dot)
  {
    var vv' := vv[delta.dot.pid := delta.dot.counter];
    if removal: Dot :| Contains(vv', removal) && Names(h, removal, e, dot) {
      assert Contains(vv, removal) || removal == delta.dot;
    }
    if removal: Dot :| Contains(vv, removal) && Names(h, removal, e, dot) {
      assert Contains(vv', removal);
    }
    if NamedIn(delta.change, e, dot) {
      assert Contains(vv', delta.dot) && Names(h, delta.dot, e, dot);
    }
  }

  lemma InsertedStep(h: History, vv: DotSet, delta: Delta, e: Element, dot: Dot)
    requires Records(h, delta) && Next(vv, delta.dot)
    ensures InsertedIn(h, vv[delta.dot.pid := delta.dot.counter], e, dot) <==>
            InsertedIn(h, vv, e, dot) || (delta.change == Insertion(e) && dot == delta.dot)
  {
  }

  /** Entries that are live, or zombies: insertions that arrived after a removal had named them. */
  ghost predicate ExactBut(h: History, seen: DotSet, entries: map<Element, seq<Dot>>, zombies: set<(Element, Dot)>) {
    && (forall e, dot :: InEntries(entries, e, dot) <==> Live(h, seen, e, dot) || (e, dot) in zombies)
    && (forall z <- zombies :: RemovedIn(h, seen, z.0, z.1) && InsertedIn(h, seen, z.0, z.1))
  }

  ghost function ZombiesAfter(h: History, seen: DotSet, zombies: set<(Element, Dot)>, delta: Delta): set<(Element, Dot)> {
    match delta.change
    case Insertion(e) => if RemovedIn(h, seen, e, delta.dot) then zombies + {(e, delta.dot)} else zombies
    case Removal(_, _) => set z | z in zombies && !NamedIn(delta.change, z.0, z.1)
  }

  lemma AppliedExactBut(h: History, seen: DotSet, entries: map<Element, seq<Dot>>, delta: Delta, zombies: set<(Element, Dot)>)
    requires ExactBut(h, seen, entries, zombies) && Records(h, delta) && Next(seen, delta.dot)
    ensures ExactBut(h, seen[delta.dot.pid := delta.dot.counter], Applied(entries, delta), ZombiesAfter(h, seen, zombies, delta))
  {
    var seen' := seen[delta.dot.pid := delta.dot.counter];
    var zombies' := ZombiesAfter(h, seen, zombies, delta);
    forall e, dot
      ensures InEntries(Applied(entries, delta), e, dot) <==> Live(h, seen', e, dot) || (e, dot) in zombies'
      ensures (e, dot) in zombies' ==> RemovedIn(h, seen', e, dot) && InsertedIn(h, seen', e, dot)
    {
      AppliedEntries(entries, delta, e, dot);
      RemovedStep(h, seen, delta, e, dot);
      InsertedStep(h, seen, delta, e, dot);
    }
  }

  /** A delta that was seen but whose column has been forgotten is applied again, with the same effect on the zombies. */
  lemma ReappliedExactBut(h: History, seen: DotSet, entries: map<Element, seq<Dot>>, delta: Delta, zombies: set<(Element, Dot)>)
    requires ExactBut(h, seen, entries, zombies) && Records(h, delta) && Contains(seen, delta.dot)
    ensures ExactBut(h, seen, Applied(entries, delta), ZombiesAfter(h, seen, zombies, delta))
  {
    var zombies' := ZombiesAfter(h, seen, zombies, delta);
    forall e, dot
      ensures InEntries(Applied(entries, delta), e, dot) <==> Live(h, seen, e, dot) || (e, dot) in zombies'
    {
      AppliedEntries(entries, delta, e, dot);
      if NamedIn(delta.change, e, dot) {
        assert Names(h, delta.dot, e, dot);
        assert RemovedIn(h, seen, e, dot);
      }
    }
  }

  // ---- When a merge panics ----

  function DotsOf(list: seq<Delta>): (dots: seq<Dot>)
    ensures |dots| == |list| && forall i | 0 <= i < |dots| :: dots[i] == list[i].dot
  {
    seq(|list|, i requires 0 <= i < |list| => list[i].dot)
  }

  /** The list goes on past the vector's counter of `p`, but not with the next one. */
  ghost predicate Gap(vv: DotSet, dots: seq<Dot>, p: Pid) {
    p in vv && (exists d <- dots :: d.pid == p && vv[p] < d.counter) && Dot(p, vv[p] + 1) !in dots
  }

  lemma {:induction false} SuccessorInRuns(dots: seq<Dot>, i: nat)
    requires InRuns(dots) && 0 < i < |dots| && dots[i].pid == dots[0].pid
    ensures Dot(dots[0].pid, dots[0].counter + 1) in dots[1..]
    decreases i
  {
    assert RunAt(dots, i);
    assert dots[0].pid == dots[i].pid && dots[0].counter < dots[i].counter;
    var j :| 0 <= j < i && dots[j] == Dot(dots[i].pid, dots[i].counter - 1);
    if j > 0 {
      SuccessorInRuns(dots, j);
    } else {
      assert dots[1..][i - 1] == Dot(dots[0].pid, dots[0].counter + 1);
    }
  }

  lemma RunAtRest(dots: seq<Dot>, i: nat)
    requires i + 1 < |dots| && InRuns(dots)
    ensures RunAt(dots[1..], i)
  {
    var rest := dots[1..];
    assert forall j | 0 <= j <= i :: rest[j] == dots[j + 1];
    assert RunAt(dots, i + 1);
    if k :| 0 <= k < i + 1 && dots[k] == Dot(dots[i + 1].pid, dots[i + 1].counter - 1) {
      if k > 0 {
        assert rest[k - 1] == dots[k];
      } else {
        forall j | 0 <= j < i ensures rest[j].pid != rest[i].pid {
          assert RunAt(dots, j + 1);
        }
      }
    }
  }

  lemma RunsTail(dots: seq<Dot>)
    requires InRuns(dots) && dots != []
    ensures InRuns(dots[1..])
  {
    forall i | 0 <= i < |dots[1..]| ensures RunAt(dots[1..], i) {
      RunAtRest(dots, i);
    }
  }

  /** Merging the first delta neither opens nor closes a gap further on. */
  lemma GapStep(vv: DotSet, dots: seq<Dot>, p: Pid)
    requires InRuns(dots) && dots != [] && (Contains(vv, dots[0]) || Insert(vv, dots[0]).Some?)
    ensures var vv' := if Contains(vv, dots[0]) then vv else vv[dots[0].pid := dots[0].counter];
            Gap(vv', dots[1..], p) <==> Gap(vv, dots, p)
  {
    var rest := dots[1..];
    assert dots == [dots[0]] + rest;
    assert forall d :: d in dots <==> d == dots[0] || d in rest;
    if !Contains(vv, dots[0]) && p == dots[0].pid && exists d <- rest :: d.pid == p {
      var d :| d in rest && d.pid == p;
      var i :| 0 <= i < |rest| && rest[i] == d;
      SuccessorInRuns(dots, i + 1);
    }
  }

  lemma FirstGap(vv: DotSet, dots: seq<Dot>)
    requires InRuns(dots) && dots != [] && !Contains(vv, dots[0]) && Insert(vv, dots[0]).None?
    ensures Gap(vv, dots, dots[0].pid)
  {
    var p := dots[0].pid;
    assert dots[0] in dots && vv[p] < dots[0].counter;
    forall i | 0 <= i < |dots| ensures dots[i] != Dot(p, vv[p] + 1) {
      assert RunAt(dots, i);
      assert i > 0 && dots[i].pid == p ==> dots[0].counter < dots[i].counter;
    }
  }

  /** On a list in runs the contiguity assertion fires exactly when some column has a gap. */
  lemma {:induction false} MergePanicsIff(s: OrSet, list: seq<Delta>)
    requires InRuns(DotsOf(list))
    ensures Merged(s, list).None? <==> exists p :: Gap(s.vv, DotsOf(list), p)
    decreases |list|
  {
    hide Gap, InRuns;
    if list == [] {
      NoGap(s.vv);
      assert DotsOf(list) == [];
    } else {
      assert DotsOf(list)[1..] == DotsOf(list[1..]);
      if MergedOne(s, list[0]).None? {
        FirstGap(s.vv, DotsOf(list));
      } else {
        RunsTail(DotsOf(list));
        MergePanicsIff(MergedOne(s, list[0]).value, list[1..]);
        forall p ensures Gap(MergedOne(s, list[0]).value.vv, DotsOf(list[1..]), p) <==> Gap(s.vv, DotsOf(list), p) {
          GapStep(s.vv, DotsOf(list), p);
        }
      }
    }
  }

  lemma NoGap(vv: DotSet)
    ensures forall p :: !Gap(vv, [], p)
  {
  }

  // ---- Merging a list ----

  /** Every delta's predecessor is in the vector or earlier in the list. */
  ghost predicate Fits(vv: DotSet, list: seq<Delta>) {
    forall i | 0 <= i < |list| ::
      || list[i].dot.counter - 1 <= Get(vv, list[i].dot.pid)
      || exists j | 0 <= j < i :: list[j].dot == Dot(list[i].dot.pid, list[i].dot.counter - 1)
  }

  ghost predicate AllRecorded(h: History, list: seq<Delta>) {
    forall i | 0 <= i < |list| :: Records(h, list[i])
  }

  ghost function Joined(vv: DotSet, delta: Delta): DotSet {
    if Contains(vv, delta.dot) then vv else vv[delta.dot.pid := delta.dot.counter]
  }

  ghost function JoinedAll(vv: DotSet, list: seq<Delta>): DotSet
    decreases |list|
  {
    if list == [] then vv else JoinedAll(Joined(vv, list[0]), list[1..])
  }

  /** The vector contains nothing that has not been seen; it may have forgotten some of it. */
  ghost predicate Covered(vv: DotSet, seen: DotSet) {
    forall p <- vv :: p in seen && vv[p] <= seen[p]
  }

  lemma FitsStep(h: History, vv: DotSet, list: seq<Delta>)
    requires list != [] && Fits(vv, list) && AllRecorded(h, list)
    ensures Fits(Joined(vv, list[0]), list[1..]) && AllRecorded(h, list[1..])
    ensures !Contains(vv, list[0].dot) ==> Next(vv, list[0].dot)
  {
    var rest := list[1..];
    var vv' := Joined(vv, list[0]);
    forall i | 0 <= i < |rest|
      ensures || rest[i].dot.counter - 1 <= Get(vv', rest[i].dot.pid)
              || exists j | 0 <= j < i :: rest[j].dot == Dot(rest[i].dot.pid, rest[i].dot.counter - 1)
    {
      assert rest[i] == list[i + 1];
      if exists j | 0 <= j < i + 1 :: list[j].dot == Dot(rest[i].dot.pid, rest[i].dot.counter - 1) {
        var j :| 0 <= j < i + 1 && list[j].dot == Dot(rest[i].dot.pid, rest[i].dot.counter - 1);
        if j > 0 {
          assert rest[j - 1] == list[j];
        }
      }
    }
    assert Records(h, list[0]);
  }

  /** Some delta of the list that will be merged freshly is a removal that names the dot. */
  ghost predicate NamedLater(vv: DotSet, list: seq<Delta>, e: Element, dot: Dot)
    decreases |list|
  {
    list != [] &&
    (|| (!Contains(vv, list[0].dot) && NamedIn(list[0].change, e, dot))
     || NamedLater(Joined(vv, list[0]), list[1..], e, dot))
  }

  /**
   Every insertion that is merged although a removal seen by then names it is named again
   later in the list. The vector decides what is merged, what has been seen decides what
   is removed; the two differ in forgotten columns.
   */
  ghost predicate Settles(h: History, vv: DotSet, seen: DotSet, list: seq<Delta>)
    decreases |list|
  {
    list == [] ||
    (&& (!Contains(vv, list[0].dot) && list[0].change.Insertion? && RemovedIn(h, seen, list[0].change.element, list[0].dot)
         ==> NamedLater(Joined(vv, list[0]), list[1..], list[0].change.element, list[0].dot))
     && Settles(h, Joined(vv, list[0]), Joined(seen, list[0]), list[1..]))
  }

  lemma {:induction false} MergedExactBut(h: History, seen: DotSet, s: OrSet, list: seq<Delta>, zombies: set<(Element, Dot)>)
    requires ExactBut(h, seen, s.entries, zombies) && Fits(seen, list) && AllRecorded(h, list)
    requires Covered(s.vv, seen) && Merged(s, list).Some?
    ensures Exact(h, JoinedAll(seen, list), Merged(s, list).value.entries) <==>
            Settles(h, s.vv, seen, list) && forall z <- zombies :: NamedLater(s.vv, list, z.0, z.1)
    decreases |list|
  {
    if list == [] {
      if z :| z in zombies {
        assert InEntries(s.entries, z.0, z.1) && !Live(h, seen, z.0, z.1);
      }
    } else {
      FitsStep(h, seen, list);
      assert Records(h, list[0]);
      var s1, seen1 := MergedOne(s, list[0]).value, Joined(seen, list[0]);
      if Contains(s.vv, list[0].dot) {
        MergedExactBut(h, seen1, s1, list[1..], zombies);
      } else {
        var zombies1 := ZombiesAfter(h, seen, zombies, list[0]);
        if Contains(seen, list[0].dot) {
          ReappliedExactBut(h, seen, s.entries, list[0], zombies);
        } else {
          AppliedExactBut(h, seen, s.entries, list[0], zombies);
        }
        MergedExactBut(h, seen1, s1, list[1..], zombies1);
        ZombiesNamedLater(h, s.vv, seen, list, zombies);
      }
    }
  }

  lemma ZombiesNamedLater(h: History, vv: DotSet, seen: DotSet, list: seq<Delta>, zombies: set<(Element, Dot)>)
    requires list != [] && !Contains(vv, list[0].dot)
    ensures var zombies1 := ZombiesAfter(h, seen, zombies, list[0]);
            var vv1 := Joined(vv, list[0]);
            (forall z <- zombies1 :: NamedLater(vv1, list[1..], z.0, z.1)) <==>
            && (list[0].change.Insertion? && RemovedIn(h, seen, list[0].change.element, list[0].dot)
                ==> NamedLater(vv1, list[1..], list[0].change.element, list[0].dot))
            && (forall z <- zombies :: NamedLater(vv, list, z.0, z.1))
  {
    var zombies1 := ZombiesAfter(h, seen, zombies, list[0]);
    var vv1 := Joined(vv, list[0]);
    if list[0].change.Insertion? && RemovedIn(h, seen, list[0].change.element, list[0].dot) {
      assert (list[0].change.element, list[0].dot) in zombies1;
    }
    if forall z <- zombies1 :: NamedLater(vv1, list[1..], z.0, z.1) {
      forall z <- zombies ensures NamedLater(vv, list, z.0, z.1) {
        assert z in zombies1 || NamedIn(list[0].change, z.0, z.1);
      }
    }
  }

  /** The exact condition under which merging a list keeps `entries` equal to its meaning. */
  lemma MergeExactIffSettles(h: History, seen: DotSet, s: OrSet, list: seq<Delta>)
    requires Exact(h, seen, s.entries) && Fits(seen, list) && AllRecorded(h, list)
    requires Covered(s.vv, seen) && Merged(s, list).Some?
    ensures Exact(h, JoinedAll(seen, list), Merged(s, list).value.entries) <==> Settles(h, s.vv, seen, list)
  {
    MergedExactBut(h, seen, s, list, {});
  }

  // ---- Causally ordered lists ----

  /** Removals name only dots their author had seen. */
  ghost predicate NamesSeen(h: History) {
    forall removal: Dot, e, dot | Names(h, removal, e, dot) :: Happened(h, dot) && Contains(At(h, removal).context, dot)
  }

  ghost predicate NoEpochPid(h: History) {
    STABLE_REPLICA_PID !in h
  }

  /** Whatever the author of a seen event had seen is seen too. */
  ghost predicate Closed(h: History, vv: DotSet) {
    forall dot: Dot | Happened(h, dot) && Contains(vv, dot) :: Leq(At(h, dot).context, vv)
  }

  /** Nothing that has been seen was made by someone who had seen `dot`. */
  ghost predicate Undepended(h: History, seen: DotSet, dot: Dot) {
    forall d: Dot | Happened(h, d) && Contains(seen, d) :: !Contains(At(h, d).context, dot)
  }

  /**
   The documented contract of a delta group, causal order: each delta that has not been
   seen comes after everything its author had seen, and a delta that is merged again,
   because its column was forgotten, does not come after anything whose author had seen it.
   */
  ghost predicate CausallyOrdered(h: History, vv: DotSet, seen: DotSet, list: seq<Delta>)
    requires AllRecorded(h, list)
    decreases |list|
  {
    list == [] ||
    (&& (!Contains(seen, list[0].dot) ==> Leq(At(h, list[0].dot).context, seen))
     && (!Contains(vv, list[0].dot) && Contains(seen, list[0].dot) ==> Undepended(h, seen, list[0].dot))
     && CausallyOrdered(h, Joined(vv, list[0]), Joined(seen, list[0]), list[1..]))
  }

  /** Nothing that has been seen depends on a delta that has not. */
  lemma UnseenUndepended(h: History, seen: DotSet, dot: Dot)
    requires NoEpochPid(h) && Closed(h, seen) && Happened(h, dot) && !Contains(seen, dot)
    ensures Undepended(h, seen, dot)
  {
    forall d: Dot | Happened(h, d) && Contains(seen, d) ensures !Contains(At(h, d).context, dot) {
      assert Leq(At(h, d).context, seen);
      assert Get(At(h, d).context, dot.pid) <= Get(seen, dot.pid);
    }
  }

  lemma JoinedStaysClosed(h: History, seen: DotSet, delta: Delta)
    requires Closed(h, seen) && Records(h, delta)
    requires !Contains(seen, delta.dot) ==> Next(seen, delta.dot) && Leq(At(h, delta.dot).context, seen)
    ensures Closed(h, Joined(seen, delta))
  {
    var seen' := Joined(seen, delta);
    forall dot: Dot | Happened(h, dot) && Contains(seen', dot) ensures Leq(At(h, dot).context, seen') {
      assert Contains(seen, dot) || dot == delta.dot;
      assert Leq(At(h, dot).context, seen);
    }
  }

  lemma {:induction false} CausalOrderSettles(h: History, vv: DotSet, seen: DotSet, list: seq<Delta>)
    requires NamesSeen(h) && NoEpochPid(h) && Closed(h, seen) && Fits(seen, list) && AllRecorded(h, list)
    requires CausallyOrdered(h, vv, seen, list)
    ensures Settles(h, vv, seen, list)
    decreases |list|
  {
    if list != [] {
      var delta := list[0];
      assert Records(h, delta);
      FitsStep(h, seen, list);
      JoinedStaysClosed(h, seen, delta);
      if !Contains(vv, delta.dot) {
        if !Contains(seen, delta.dot) {
          UnseenUndepended(h, seen, delta.dot);
        }
        forall removal: Dot, e | Names(h, removal, e, delta.dot) ensures !Contains(seen, removal) {
          assert Contains(At(h, removal).context, delta.dot);
        }
      }
      hide Closed, Fits, Undepended;
      CausalOrderSettles(h, Joined(vv, delta), Joined(seen, delta), list[1..]);
    }
  }

  // ---- The OR-Set specification ----

  ghost predicate Observes(h: History, removal: Dot, e: Element, dot: Dot) {
    Happened(h, removal) && At(h, removal).change.Removal? && At(h, removal).change.element == e
    && Contains(At(h, removal).context, dot)
  }

  /** A removal names every insertion its author had seen, unless a removal its author had seen names it. */
  ghost predicate RemovalsComplete(h: History) {
    forall removal: Dot, e, dot | Observes(h, removal, e, dot) && InsertedIn(h, At(h, removal).context, e, dot) ::
      Names(h, removal, e, dot) || RemovedIn(h, At(h, removal).context, e, dot)
  }

  lemma LiveIsUnobserved(h: History, vv: DotSet, e: Element, dot: Dot)
    requires NamesSeen(h) && NoEpochPid(h) && RemovalsComplete(h) && Closed(h, vv)
    ensures Live(h, vv, e, dot) <==>
            InsertedIn(h, vv, e, dot) && !exists removal: Dot :: Contains(vv, removal) && Observes(h, removal, e, dot)
  {
    if InsertedIn(h, vv, e, dot) {
      if removal: Dot :| Contains(vv, removal) && Observes(h, removal, e, dot) {
        var context := At(h, removal).context;
        assert InsertedIn(h, context, e, dot);
        if !Names(h, removal, e, dot) {
          var other: Dot :| Contains(context, other) && Names(h, other, e, dot);
          assert Leq(context, vv);
          assert Get(context, other.pid) <= Get(vv, other.pid);
          assert Contains(vv, other);
        }
        assert RemovedIn(h, vv, e, dot);
      }
      if removal: Dot :| Contains(vv, removal) && Names(h, removal, e, dot) {
        assert Observes(h, removal, e, dot);
      }
    }
  }

  // ---- Extending the history by one mutation ----

  ghost predicate Extends(h: History, h': History) {
    h.Keys == h'.Keys && forall p <- h :: h[p] <= h'[p]
  }

  lemma MeaningExtends(h: History, h': History, vv: DotSet, e: Element, dot: Dot)
    requires Extends(h, h') && Within(h, vv)
    ensures InsertedIn(h', vv, e, dot) <==> InsertedIn(h, vv, e, dot)
    ensures RemovedIn(h', vv, e, dot) <==> RemovedIn(h, vv, e, dot)
    ensures Live(h', vv, e, dot) <==> Live(h, vv, e, dot)
  {
    if removal: Dot :| Contains(vv, removal) && Names(h', removal, e, dot) {
      assert Names(h, removal, e, dot);
    }
    if removal: Dot :| Contains(vv, removal) && Names(h, removal, e, dot) {
      assert Names(h', removal, e, dot);
    }
  }

  lemma ExactExtends(h: History, h': History, seen: DotSet, entries: map<Element, seq<Dot>>)
    requires Extends(h, h') && Within(h, seen) && Exact(h, seen, entries)
    ensures Exact(h', seen, entries)
  {
    forall e, dot ensures InEntries(entries, e, dot) <==> Live(h', seen, e, dot) {
      MeaningExtends(h, h', seen, e, dot);
    }
  }

  /** The meaning depends only on which mutations have been seen. */
  lemma LiveSame(h: History, a: DotSet, b: DotSet, e: Element, dot: Dot)
    requires forall d: Dot | Happened(h, d) :: Contains(a, d) <==> Contains(b, d)
    ensures Live(h, a, e, dot) <==> Live(h, b, e, dot)
  {
    if removal: Dot :| Contains(a, removal) && Names(h, removal, e, dot) {
      assert Contains(b, removal);
    }
    if removal: Dot :| Contains(b, removal) && Names(h, removal, e, dot) {
      assert Contains(a, removal);
    }
  }
}

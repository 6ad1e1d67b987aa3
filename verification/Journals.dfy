/**
 The disk journal (`src/journal.rs`).

 A snapshot stamped with a generation, and a log of lines stamped with the
 generation they belong to. A line is a record, is malformed, or has a payload
 that does not decode; `torn` says that an unterminated fragment trails. Replacing
 the snapshot is one atomic rename, truncating the log another step.
 */
module Journals {
  import opened Options

  datatype Line<R> = Blank | Malformed | Undecodable(gen: nat) | Record(gen: nat, record: R)

  datatype Snapshot<S> = Snapshot(gen: nat, state: S)

  datatype Disk<S, R> = Disk(snapshot: Option<Snapshot<S>>, lines: seq<Line<R>>, torn: bool)

  /** How far an append gets; after anything but `Synced` it reports an error. */
  datatype Io = Nothing | Part | Line | Synced

  datatype Recovery<S> = MissingSnapshot | NothingThere | Recovered(state: S, discard: bool)

  /** The lines of generation `gen` applied in order, up to the first corrupt one. */
  function Replay<S, R>(apply: (S, R) -> S, gen: nat, state: S, lines: seq<Line<R>>, torn: bool): (S, bool)
    decreases |lines|
  {
    if lines == [] then (state, torn)
    else
      match lines[0]
      case Blank => Replay(apply, gen, state, lines[1..], torn)
      case Malformed => (state, true)
      case Undecodable(g) => if g != gen then Replay(apply, gen, state, lines[1..], torn) else (state, true)
      case Record(g, r) =>
        if g != gen then Replay(apply, gen, state, lines[1..], torn)
        else Replay(apply, gen, apply(state, r), lines[1..], torn)
  }

  /** `recover_locked` as a function of the files. */
  function Recover<S, R>(apply: (S, R) -> S, d: Disk<S, R>): Recovery<S> {
    match d.snapshot
    case None => if d.lines != [] || d.torn then MissingSnapshot else NothingThere
    case Some(snap) =>
      var (state, discard) := Replay(apply, snap.gen, snap.state, d.lines, d.torn);
      Recovered(state, discard)
  }

  // ---- The disk steps ----

  function SnapshotReplaced<S, R>(d: Disk<S, R>, gen: nat, state: S): Disk<S, R> {
    d.(snapshot := Some(Snapshot(gen, state)))
  }

  function LogCleared<S, R>(d: Disk<S, R>): Disk<S, R> {
    d.(lines := [], torn := false)
  }

  /** A record written behind a torn fragment forms one malformed line with it. */
  function Appended<S, R>(d: Disk<S, R>, gen: nat, r: R): Disk<S, R> {
    d.(lines := d.lines + [if d.torn then Malformed else Record(gen, r)], torn := false)
  }

  function Compacted<S, R>(d: Disk<S, R>, gen: nat, state: S): Disk<S, R> {
    LogCleared(SnapshotReplaced(d, gen, state))
  }

  // ---- Recovery, repair and interruption ----

  ghost predicate GensUpTo<R>(lines: seq<Line<R>>, gen: nat) {
    forall i | 0 <= i < |lines| :: (lines[i].Record? || lines[i].Undecodable?) ==> lines[i].gen <= gen
  }

  /** A line that ends the replay of generation `gen`. */
  ghost predicate Corrupt<R>(line: Line<R>, gen: nat) {
    line.Malformed? || (line.Undecodable? && line.gen == gen)
  }

  /** A line that the replay of generation `gen` passes over. */
  ghost predicate Ignored<R>(line: Line<R>, gen: nat) {
    line.Blank? || ((line.Undecodable? || line.Record?) && line.gen != gen)
  }

  ghost predicate Intact<R>(lines: seq<Line<R>>, gen: nat) {
    forall i | 0 <= i < |lines| :: !Corrupt(lines[i], gen)
  }

  /** Intact lines are replayed to their end, whatever follows. */
  lemma {:induction false} ReplayConcat<S, R>(apply: (S, R) -> S, gen: nat, state: S, a: seq<Line<R>>, b: seq<Line<R>>, torn: bool)
    requires Intact(a, gen)
    ensures Replay(apply, gen, state, a + b, torn) == Replay(apply, gen, Replay(apply, gen, state, a, false).0, b, torn)
    decreases |a|
  {
    if a == [] {
      assert a + b == b;
    } else {
      assert (a + b)[1..] == a[1..] + b;
      assert !Corrupt(a[0], gen);
      var next := if a[0].Record? && a[0].gen == gen then apply(state, a[0].record) else state;
      ReplayConcat(apply, gen, next, a[1..], b, torn);
    }
  }

  /** A corrupt line, malformed or undecodable, ends the replay and has the rest discarded, whatever that is. */
  lemma ReplayEndsAtCorrupt<S, R>(apply: (S, R) -> S, gen: nat, state: S, a: seq<Line<R>>, bad: Line<R>, b: seq<Line<R>>, torn: bool)
    requires Intact(a, gen) && Corrupt(bad, gen)
    ensures Replay(apply, gen, state, a + [bad] + b, torn) == (Replay(apply, gen, state, a, false).0, true)
  {
    ReplayConcat(apply, gen, state, a, [bad] + b, torn);
    assert a + [bad] + b == a + ([bad] + b);
  }

  /** Blank lines and lines of other generations, wherever they lie, change neither state nor flag. */
  lemma {:induction false} ReplayIgnores<S, R>(apply: (S, R) -> S, gen: nat, state: S, a: seq<Line<R>>, line: Line<R>, b: seq<Line<R>>, torn: bool)
    requires Ignored(line, gen)
    ensures Replay(apply, gen, state, a + [line] + b, torn) == Replay(apply, gen, state, a + b, torn)
    decreases |a|
  {
    if a == [] {
      assert (a + [line] + b)[1..] == b && a + b == b;
    } else {
      assert (a + [line] + b)[1..] == a[1..] + [line] + b && (a + b)[1..] == a[1..] + b;
      var next := if a[0].Record? && a[0].gen == gen then apply(state, a[0].record) else state;
      ReplayIgnores(apply, gen, next, a[1..], line, b, torn);
    }
  }

  /** A record of this generation behind intact lines is applied once, after them. */
  lemma ReplayAppends<S, R>(apply: (S, R) -> S, gen: nat, state: S, lines: seq<Line<R>>, r: R, torn: bool)
    requires Intact(lines, gen)
    ensures Replay(apply, gen, state, lines + [Record(gen, r)], torn) == (apply(Replay(apply, gen, state, lines, false).0, r), torn)
  {
    ReplayConcat(apply, gen, state, lines, [Record(gen, r)], torn);
    assert [Record(gen, r)][1..] == [];
  }

  /** Lines of older generations are skipped, whether or not their log is corrupt. */
  lemma {:induction false} ReplaySkipsOld<S, R>(apply: (S, R) -> S, gen: nat, state: S, lines: seq<Line<R>>, torn: bool)
    requires forall i | 0 <= i < |lines| :: (lines[i].Record? || lines[i].Undecodable?) ==> lines[i].gen < gen
    ensures Replay(apply, gen, state, lines, torn) == (state, torn || Malformed in lines)
    decreases |lines|
  {
    if lines != [] {
      assert lines == [lines[0]] + lines[1..];
      ReplaySkipsOld(apply, gen, state, lines[1..], torn);
    }
  }

  lemma {:induction false} FirstCorrupt<R>(lines: seq<Line<R>>, gen: nat) returns (k: nat)
    requires !Intact(lines, gen)
    ensures k < |lines| && Intact(lines[..k], gen) && Corrupt(lines[k], gen)
    decreases |lines|
  {
    var n := |lines| - 1;
    if Intact(lines[..n], gen) {
      k := n;
    } else {
      k := FirstCorrupt(lines[..n], gen);
      assert lines[..n][..k] == lines[..k];
    }
  }

  /** One more line: a record of this generation is applied unless a corrupt line lies before it, anything else changes nothing. */
  lemma ReplayOneMore<S, R>(apply: (S, R) -> S, gen: nat, state: S, lines: seq<Line<R>>, line: Line<R>)
    ensures Replay(apply, gen, state, lines + [line], false).0 ==
            if Intact(lines, gen) && line.Record? && line.gen == gen then apply(Replay(apply, gen, state, lines, false).0, line.record)
            else Replay(apply, gen, state, lines, false).0
  {
    if Intact(lines, gen) {
      ReplayConcat(apply, gen, state, lines, [line], false);
      assert [line][1..] == [];
    } else {
      var k := FirstCorrupt(lines, gen);
      var a, bad, b := lines[..k], lines[k], lines[k + 1..];
      assert lines == a + [bad] + b && lines + [line] == a + [bad] + (b + [line]);
      hide Replay;
      ReplayEndsAtCorrupt(apply, gen, state, a, bad, b, false);
      ReplayEndsAtCorrupt(apply, gen, state, a, bad, b + [line], false);
    }
  }

  /** A repair is asked for exactly if a fragment trails or some line is corrupt. */
  lemma ReplayDiscards<S, R>(apply: (S, R) -> S, gen: nat, state: S, lines: seq<Line<R>>, torn: bool)
    ensures Replay(apply, gen, state, lines, torn) == (Replay(apply, gen, state, lines, false).0, torn || !Intact(lines, gen))
  {
    if Intact(lines, gen) {
      ReplayConcat(apply, gen, state, lines, [], torn);
      assert lines + [] == lines;
    } else {
      var k := FirstCorrupt(lines, gen);
      var a, bad, b := lines[..k], lines[k], lines[k + 1..];
      assert lines == a + [bad] + b;
      hide Replay;
      ReplayEndsAtCorrupt(apply, gen, state, a, bad, b, torn);
      ReplayEndsAtCorrupt(apply, gen, state, a, bad, b, false);
    }
  }

  /**
   Repair may be interrupted: with the new snapshot in place, whatever is left of the
   old log, however corrupt, recovery gives the same state; with the log cleared it
   also finds nothing more to repair.
   */
  lemma RepairIsSafe<S, R>(apply: (S, R) -> S, d: Disk<S, R>)
    requires d.snapshot.Some? && GensUpTo(d.lines, d.snapshot.value.gen)
    ensures var state := Recover(apply, d).state;
            var renamed := SnapshotReplaced(d, d.snapshot.value.gen + 1, state);
            && Recover(apply, renamed).Recovered? && Recover(apply, renamed).state == state
            && Recover(apply, LogCleared(renamed)) == Recovered(state, false)
  {
    var gen := d.snapshot.value.gen + 1;
    var state := Recover(apply, d).state;
    ReplaySkipsOld(apply, gen, state, d.lines, d.torn);
  }

  /** A record appended before any snapshot exists makes the journal unrecoverable. */
  lemma AppendBeforeSnapshotIsLost<S, R>(apply: (S, R) -> S, gen: nat, r: R)
    ensures Recover(apply, Appended(Disk(None, [], false), gen, r)) == MissingSnapshot
  {
  }

  // ---- In place ----

  class DiskJournal<S, R> {
    var snapshot: Option<Snapshot<S>>
    var lines: seq<Line<R>>
    var torn: bool
    var generation: nat

    function Value(): Disk<S, R>
      reads this
    {
      Disk(snapshot, lines, torn)
    }

    /** `DiskJournal::new` on the files found on disk. */
    constructor (disk: Disk<S, R>)
      ensures Value() == disk
      ensures generation == if disk.snapshot.Some? then disk.snapshot.value.gen else 0
    {
      snapshot, lines, torn := disk.snapshot, disk.lines, disk.torn;
      generation := if disk.snapshot.Some? then disk.snapshot.value.gen else 0;
    }

    method ReplaceSnapshotRecord(gen: nat, state: S)
      modifies this`snapshot
      ensures Value() == SnapshotReplaced(old(Value()), gen, state)
    {
      snapshot := Some(Snapshot(gen, state));
    }

    method ClearMutationLog()
      modifies this`lines, this`torn
      ensures Value() == LogCleared(old(Value()))
    {
      lines := [];
      torn := false;
    }

    /** `io` is how far writing the record, the newline and the sync get. */
    method AppendRecord(r: R, io: Io) returns (ok: bool)
      modifies this`lines, this`torn
      ensures ok == io.Synced?
      ensures Value() == match io
                         case Nothing => old(Value())
                         case Part => old(Value()).(torn := true)
                         case _ => Appended(old(Value()), generation, r)
    {
      if io.Nothing? {
        return false;
      }
      if io.Part? {
        torn := true;
        return false;
      }
      lines := lines + [if torn then Malformed else Record(generation, r)];
      torn := false;
      return io.Synced?;
    }

    method AppendSnapshot(state: S)
      modifies this
      ensures Value() == Compacted(old(Value()), generation, state) && generation == old(generation) + 1
    {
      var next := generation + 1;
      ReplaceSnapshotRecord(next, state);
      ClearMutationLog();
      generation := next;
    }

    method RecoverState(apply: (S, R) -> S) returns (r: Recovery<S>)
      modifies this
      ensures r == Recover(apply, old(Value()))
      ensures r.Recovered? && r.discard ==>
                && Value() == Compacted(old(Value()), generation, r.state)
                && generation == old(snapshot).value.gen + 1
      ensures !(r.Recovered? && r.discard) ==> Value() == old(Value()) && generation == old(generation)
    {
      if snapshot == None {
        return if lines != [] || torn then MissingSnapshot else NothingThere;
      }
      var gen := snapshot.value.gen;
      var state := snapshot.value.state;
      var discard := false;
      var i := 0;
      while true
        invariant 0 <= i <= |lines|
        invariant Replay(apply, gen, snapshot.value.state, lines, torn) == Replay(apply, gen, state, lines[i..], torn)
        invariant !discard
        decreases |lines| - i
      {
        if i == |lines| {
          discard := torn;
          break;
        }
        var line := lines[i];
        assert lines[i..][0] == line && lines[i..][1..] == lines[i + 1..];
        i := i + 1;
        match line {
          case Blank => continue;
          case Malformed =>
            discard := true;
            break;
          case Undecodable(g) =>
            if g != gen {
              continue;
            }
            discard := true;
            break;
          case Record(g, record) =>
            if g != gen {
              continue;
            }
            state := apply(state, record);
        }
      }
      r := Recovered(state, discard);
      if discard {
        ReplaceSnapshotRecord(gen + 1, state);
        ClearMutationLog();
        generation := gen + 1;
      }
    }
  }
}

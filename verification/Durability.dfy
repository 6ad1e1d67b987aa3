/**
 Commits, crashes and recovery (`src/replica.rs`, `src/journal.rs`).

 Client mutations and the replica loop commit under one gate: journal first, then
 apply. This machine interleaves any number of such commits with crashes between
 any two disk steps: in a torn append, after an append but before it is applied,
 after the snapshot rename but before the truncation, and in the middle of a repair.

 A client's append may also fail while the process goes on: its handler panics, or is
 dropped, after nothing, a part or all of the line has been written, and the gate is
 free again. A failing append of the loop or of a snapshot poisons the journal's lock,
 so that nothing is written any more; for the files that is a crash.
 */
module Durability {
  import opened Options
  import opened Journals
  import opened JournalHistories

  /** Records applied one after the other. */
  function ApplyAll<S, R>(apply: (S, R) -> S, state: S, records: seq<R>): S {
    if records == [] then state else apply(ApplyAll(apply, state, records[..|records| - 1]), records[|records| - 1])
  }

  lemma {:induction false} ApplyAllConcat<S, R>(apply: (S, R) -> S, state: S, first: seq<R>, second: seq<R>)
    ensures ApplyAll(apply, state, first + second) == ApplyAll(apply, ApplyAll(apply, state, first), second)
    decreases |second|
  {
    var all := first + second;
    if second == [] {
      assert all == first;
    } else {
      assert all[..|all| - 1] == first + second[..|second| - 1];
      ApplyAllConcat(apply, state, first, second[..|second| - 1]);
    }
  }

  function Records<R>(items: seq<Item<R>>): (records: seq<R>)
    ensures |records| == |items| && forall i | 0 <= i < |items| :: records[i] == items[i].record
  {
    seq(|items|, i requires 0 <= i < |items| => items[i].record)
  }

  /** The state a content stands for. */
  function StateOf<S, R>(apply: (S, R) -> S, c: Content<S, R>): S {
    ApplyAll(apply, c.base, Records(c.items))
  }

  lemma StatePlus<S, R>(apply: (S, R) -> S, c: Content<S, R>, at: nat, r: R)
    ensures StateOf(apply, Plus(c, at, r)) == apply(StateOf(apply, c), r)
  {
    var records := Records(c.items + [Item(at, r)]);
    assert records[..|records| - 1] == Records(c.items);
  }

  datatype Op<S, R> = Commit(record: R, client: bool) | Compact | Install(state: S)

  /** `Torn(behind)`: a part of the line is written, behind an earlier fragment or not. */
  datatype Stage = Ready | Torn(behind: bool) | Durable | Swept

  datatype Pc<S, R> = Waiting(op: Op<S, R>) | Holding(op: Op<S, R>, stage: Stage)

  datatype Proc<S, R> =
    | Down
    | Repairing(state: S, renamed: bool)
    | Up(generation: nat, live: S, gate: Option<nat>, actors: map<nat, Pc<S, R>>)

  datatype System<S, R> = System(disk: Disk<S, R>, proc: Proc<S, R>, history: History<S, R>)

  function Fresh<S, R>(): System<S, R> {
    System(Disk(None, [], false), Down, [])
  }

  // ---- Steps ----

  datatype Step<S, R> =
    | Arrive(a: nat, op: Op<S, R>)
    | Acquire(a: nat)
    | Tear(a: nat)
    | Write(a: nat)
    | Apply(a: nat)
    | Fail(a: nat)
    | Rename(a: nat)
    | Sweep(a: nat)
    | Finish(a: nat)
    | Crash
    | Boot
    | RepairRename
    | RepairSweep

  predicate Holds<S, R>(p: Proc<S, R>, a: nat) {
    p.Up? && a in p.actors && p.actors[a].Holding?
  }

  predicate Commits<S, R>(p: Proc<S, R>, a: nat) {
    Holds(p, a) && p.actors[a].op.Commit?
  }

  predicate Snaps<S, R>(p: Proc<S, R>, a: nat) {
    Holds(p, a) && !p.actors[a].op.Commit?
  }

  /** The state a snapshot operation writes. */
  function SnapshotState<S, R>(p: Proc<S, R>, a: nat): S
    requires Snaps(p, a)
  {
    if p.actors[a].op.Install? then p.actors[a].op.state else p.live
  }

  function SnapshotEvent<S, R>(p: Proc<S, R>, a: nat): Event<S, R>
    requires Snaps(p, a)
  {
    if p.actors[a].op.Install? then Installed(p.actors[a].op.state) else Rewritten
  }

  predicate Enabled<S, R>(apply: (S, R) -> S, sys: System<S, R>, step: Step<S, R>) {
    var p := sys.proc;
    match step
    case Arrive(a, _) => p.Up? && a !in p.actors
    case Acquire(a) => p.Up? && p.gate.None? && a in p.actors && p.actors[a].Waiting?
    case Tear(a) => Commits(p, a) && (p.actors[a].stage.Ready? || p.actors[a].stage.Torn?)
    case Write(a) => Commits(p, a) && (p.actors[a].stage.Ready? || p.actors[a].stage.Torn?)
    case Apply(a) => Commits(p, a) && p.actors[a].stage.Durable?
    case Fail(a) => Commits(p, a) && p.actors[a].op.client
    case Rename(a) => Snaps(p, a) && p.actors[a].stage.Ready?
    case Sweep(a) => Snaps(p, a) && p.actors[a].stage.Durable?
    case Finish(a) => Snaps(p, a) && p.actors[a].stage.Swept?
    case Crash => !p.Down?
    case Boot => p.Down? && !Recover(apply, sys.disk).MissingSnapshot?
    case RepairRename => p.Repairing? && !p.renamed && sys.disk.snapshot.Some?
    case RepairSweep => p.Repairing? && p.renamed && sys.disk.snapshot.Some?
  }

  function AtStage<S, R>(p: Proc<S, R>, a: nat, stage: Stage): Proc<S, R>
    requires Holds(p, a)
  {
    p.(actors := p.actors[a := Holding(p.actors[a].op, stage)])
  }

  function Released<S, R>(p: Proc<S, R>, a: nat, live: S): Proc<S, R>
    requires Holds(p, a)
  {
    p.(actors := p.actors - {a}, gate := None, live := live)
  }

  function Booted<S, R>(apply: (S, R) -> S, init: S, disk: Disk<S, R>): Proc<S, R>
    requires !Recover(apply, disk).MissingSnapshot?
  {
    match Recover(apply, disk)
    case NothingThere => Up(0, init, None, map[])
    case Recovered(state, discard) =>
      if discard then Repairing(state, false) else Up(disk.snapshot.value.gen, state, None, map[])
  }

  /** Whether the line being appended has an earlier fragment in front of it. */
  function Behind<S, R>(d: Disk<S, R>, stage: Stage): bool {
    if stage.Torn? then stage.behind else d.torn
  }

  function After<S, R>(apply: (S, R) -> S, init: S, sys: System<S, R>, step: Step<S, R>): System<S, R>
    requires Enabled(apply, sys, step)
  {
    var d, p, h := sys.disk, sys.proc, sys.history;
    match step
    case Arrive(a, op) => sys.(proc := p.(actors := p.actors[a := Waiting(op)]))
    case Acquire(a) => sys.(proc := p.(gate := Some(a), actors := p.actors[a := Holding(p.actors[a].op, Ready)]))
    case Tear(a) => sys.(disk := d.(torn := true), proc := AtStage(p, a, Torn(Behind(d, p.actors[a].stage))))
    case Write(a) =>
      var r := p.actors[a].op.record;
      sys.(disk := Appended(d.(torn := Behind(d, p.actors[a].stage)), p.generation, r), proc := AtStage(p, a, Durable),
           history := h + [Wrote(r)])
    case Apply(a) =>
      var r := p.actors[a].op.record;
      sys.(proc := Released(p, a, apply(p.live, r)), history := h + [Applied(r)])
    case Fail(a) => sys.(proc := Released(p, a, p.live), history := if p.actors[a].stage.Torn? then h + [Tore] else h)
    case Rename(a) =>
      sys.(disk := SnapshotReplaced(d, p.generation + 1, SnapshotState(p, a)), proc := AtStage(p, a, Durable),
           history := h + [SnapshotEvent(p, a)])
    case Sweep(a) => sys.(disk := LogCleared(d), proc := AtStage(p, a, Swept).(generation := p.generation + 1))
    case Finish(a) =>
      var state := SnapshotState(p, a);
      sys.(proc := Released(p, a, state), history := if p.actors[a].op.Install? then h + [Adopted(state)] else h)
    case Crash => sys.(proc := Down)
    case Boot => sys.(proc := Booted(apply, init, d), history := if Booted(apply, init, d).Up? then h + [Restarted] else h)
    case RepairRename =>
      sys.(disk := SnapshotReplaced(d, d.snapshot.value.gen + 1, p.state), proc := Repairing(p.state, true))
    case RepairSweep =>
      sys.(disk := LogCleared(d), proc := Up(d.snapshot.value.gen, p.state, None, map[]), history := h + [Restarted])
  }

  predicate IsRun<S, R>(apply: (S, R) -> S, init: S, sys: System<S, R>, steps: seq<Step<S, R>>)
    decreases |steps|
  {
    steps == [] || (Enabled(apply, sys, steps[0]) && IsRun(apply, init, After(apply, init, sys, steps[0]), steps[1..]))
  }

  function EndOf<S, R>(apply: (S, R) -> S, init: S, sys: System<S, R>, steps: seq<Step<S, R>>): System<S, R>
    requires IsRun(apply, init, sys, steps)
    decreases |steps|
  {
    if steps == [] then sys else EndOf(apply, init, After(apply, init, sys, steps[0]), steps[1..])
  }

  ghost predicate Reached<S(!new), R(!new)>(apply: (S, R) -> S, init: S, sys: System<S, R>) {
    exists steps :: IsRun(apply, init, Fresh(), steps) && EndOf(apply, init, Fresh(), steps) == sys
  }

  // ---- Invariant ----

  ghost predicate HasSnapshot<S, R>(h: History<S, R>) {
    exists i | 0 <= i < |h| :: h[i].Rewritten? || h[i].Installed?
  }

  ghost predicate HasLine<S, R>(h: History<S, R>) {
    exists i | 0 <= i < |h| :: h[i].Wrote?
  }

  /** The files replay to exactly what the history keeps, fragment or not. */
  ghost predicate DiskOk<S, R>(apply: (S, R) -> S, init: S, d: Disk<S, R>, h: History<S, R>) {
    && (forall i | 0 <= i < |d.lines| :: d.lines[i].Record? || d.lines[i].Malformed?)
    && match d.snapshot
       case None => GensUpTo(d.lines, 0) && !HasSnapshot(h) && (d.lines != [] <==> HasLine(h)) && ViewOf(init, h).kept.base == init
       case Some(snap) =>
         && GensUpTo(d.lines, snap.gen) && HasSnapshot(h)
         && Replay(apply, snap.gen, snap.state, d.lines, false).0 == StateOf(apply, ViewOf(init, h).kept)
  }

  ghost predicate GenIs<S, R>(d: Disk<S, R>, gen: nat) {
    if d.snapshot.Some? then d.snapshot.value.gen == gen else gen == 0
  }

  /** The end of the log is as the history says. */
  ghost predicate TailIs<R>(lines: seq<Line<R>>, torn: bool, tail: Tail) {
    tail == if Malformed in lines then Broken else if torn then Ragged else Clean
  }

  ghost predicate HolderOk<S, R>(init: S, sys: System<S, R>, a: nat)
    requires Holds(sys.proc, a)
  {
    var d, p, h, pc := sys.disk, sys.proc, sys.history, sys.proc.actors[a];
    if pc.op.Commit? then
      && GenIs(d, p.generation) && !pc.stage.Swept? && !Pending(h) && (pc.stage.Torn? ==> d.torn)
      && TailIs(d.lines, Behind(d, pc.stage), ViewOf(init, h).tail)
      && (pc.stage.Durable? ==> h != [] && h[|h| - 1] == Wrote(pc.op.record))
    else
      && !pc.stage.Torn?
      && (pc.stage.Ready? ==> !Pending(h) && TailIs(d.lines, d.torn, ViewOf(init, h).tail))
      && (!pc.stage.Ready? ==> h != [] && h[|h| - 1] == SnapshotEvent(p, a))
      && (pc.stage.Swept? ==> d.lines == [] && !d.torn)
      && (if pc.stage.Durable? then d.snapshot == Some(Snapshot(p.generation + 1, SnapshotState(p, a)))
          else GenIs(d, p.generation))
  }

  ghost predicate ProcOk<S, R>(apply: (S, R) -> S, init: S, sys: System<S, R>) {
    var v := ViewOf(init, sys.history);
    match sys.proc
    case Down => true
    case Repairing(state, renamed) =>
      && sys.disk.snapshot.Some? && StateOf(apply, v.kept) == state
      && (renamed ==> sys.disk.snapshot.value.state == state)
    case Up(generation, live, gate, actors) =>
      && live == StateOf(apply, v.live)
      && (forall a <- actors :: actors[a].Holding? <==> gate == Some(a))
      && (if gate.None? then GenIs(sys.disk, generation) && !Pending(sys.history) && TailIs(sys.disk.lines, sys.disk.torn, v.tail)
          else gate.value in actors && actors[gate.value].Holding? && HolderOk(init, sys, gate.value))
  }

  ghost predicate Inv<S, R>(apply: (S, R) -> S, init: S, sys: System<S, R>) {
    Ordered(sys.history) && DiskOk(apply, init, sys.disk, sys.history) && ProcOk(apply, init, sys)
  }

  // ---- What the disk steps do to what is kept ----

  lemma HasSnoc<S, R>(h: History<S, R>, e: Event<S, R>)
    ensures HasSnapshot(h + [e]) <==> HasSnapshot(h) || e.Rewritten? || e.Installed?
    ensures HasLine(h + [e]) <==> HasLine(h) || e.Wrote?
    ensures Pending(h + [e]) <==> e.Installed?
  {
    var h' := h + [e];
    assert h'[|h|] == e;
    if i :| 0 <= i < |h| && (h[i].Rewritten? || h[i].Installed?) {
      assert h'[i] == h[i];
    }
    if i :| 0 <= i < |h| && h[i].Wrote? {
      assert h'[i] == h[i];
    }
  }

  lemma OrderedSnoc<S, R>(h: History<S, R>, e: Event<S, R>)
    requires Ordered(h)
    requires e.Applied? ==> h != [] && h[|h| - 1] == Wrote(e.record)
    requires e.Adopted? ==> h != [] && h[|h| - 1] == Installed(e.state)
    requires Pending(h) ==> e.Adopted? || e.Restarted?
    ensures Ordered(h + [e])
  {
  }

  /** What recovery reads from the files: it fails exactly when something is logged but no snapshot was ever written. */
  lemma RecoverOk<S, R>(apply: (S, R) -> S, init: S, d: Disk<S, R>, h: History<S, R>)
    requires DiskOk(apply, init, d, h)
    ensures Recover(apply, d) ==
            if HasSnapshot(h) then Recovered(StateOf(apply, ViewOf(init, h).kept), d.torn || Malformed in d.lines)
            else if !HasLine(h) && !d.torn then NothingThere
            else MissingSnapshot
    ensures d.snapshot.Some? <==> HasSnapshot(h)
  {
    if d.snapshot.Some? {
      ReplayDiscards(apply, d.snapshot.value.gen, d.snapshot.value.state, d.lines, d.torn);
    }
  }

  lemma WriteOk<S, R>(apply: (S, R) -> S, init: S, d: Disk<S, R>, behind: bool, gen: nat, h: History<S, R>, r: R)
    requires DiskOk(apply, init, d, h) && GenIs(d, gen) && TailIs(d.lines, behind, ViewOf(init, h).tail)
    ensures var d' := Appended(d.(torn := behind), gen, r);
            DiskOk(apply, init, d', h + [Wrote(r)]) && TailIs(d'.lines, false, ViewOf(init, h + [Wrote(r)]).tail)
  {
    hide ViewOf, StateOf, HasSnapshot;
    HasSnoc(h, Wrote(r));
    ViewSnoc(init, h, Wrote(r));
    var v := ViewOf(init, h);
    StatePlus(apply, v.kept, |h|, r);
    var line := if behind then Malformed else Record(gen, r);
    LastLine(d.lines, line);
    if d.snapshot.Some? {
      ReplayOneMore(apply, gen, d.snapshot.value.state, d.lines, line);
    }
  }

  lemma LastLine<R>(lines: seq<Line<R>>, line: Line<R>)
    ensures Malformed in lines + [line] <==> Malformed in lines || line.Malformed?
  {
  }

  lemma SnapshotOk<S, R>(apply: (S, R) -> S, init: S, d: Disk<S, R>, gen: nat, h: History<S, R>, h': History<S, R>, state: S)
    requires DiskOk(apply, init, d, h) && GenIs(d, gen) && StateOf(apply, ViewOf(init, h').kept) == state && HasSnapshot(h')
    ensures DiskOk(apply, init, SnapshotReplaced(d, gen + 1, state), h')
  {
    hide ViewOf, StateOf;
    ReplaySkipsOld(apply, gen + 1, state, d.lines, false);
  }

  lemma ClearOk<S, R>(apply: (S, R) -> S, init: S, d: Disk<S, R>, h: History<S, R>)
    requires d.snapshot.Some? && d.snapshot.value.state == StateOf(apply, ViewOf(init, h).kept) && HasSnapshot(h)
    ensures DiskOk(apply, init, LogCleared(d), h)
  {
  }

  /** A restart or an application changes nothing about the files. */
  lemma SameFiles<S, R>(apply: (S, R) -> S, init: S, d: Disk<S, R>, h: History<S, R>, e: Event<S, R>)
    requires DiskOk(apply, init, d, h) && (e.Applied? || e.Tore? || e.Adopted? || e.Restarted?)
    ensures DiskOk(apply, init, d, h + [e])
  {
    HasSnoc(h, e);
    ViewSnoc(init, h, e);
  }

  // ---- Every step keeps the invariant ----

  lemma QueueStep<S, R>(apply: (S, R) -> S, init: S, sys: System<S, R>, step: Step<S, R>)
    requires Inv(apply, init, sys) && Enabled(apply, sys, step) && (step.Arrive? || step.Acquire? || step.Tear? || step.Crash?)
    ensures Inv(apply, init, After(apply, init, sys, step))
  {
    hide ViewOf, StateOf, Ordered, Replay, HasSnapshot, HasLine, Pending, TailIs;
  }

  lemma WriteStep<S, R>(apply: (S, R) -> S, init: S, sys: System<S, R>, a: nat)
    requires Inv(apply, init, sys) && Enabled(apply, sys, Write(a))
    ensures Inv(apply, init, After(apply, init, sys, Write(a)))
  {
    hide ViewOf, StateOf, Ordered, HasSnapshot, HasLine, Pending, TailIs, DiskOk;
    var pc := sys.proc.actors[a];
    var r := pc.op.record;
    WriteOk(apply, init, sys.disk, Behind(sys.disk, pc.stage), sys.proc.generation, sys.history, r);
    OrderedSnoc(sys.history, Wrote(r));
    HasSnoc(sys.history, Wrote(r));
    ViewSnoc(init, sys.history, Wrote(r));
  }

  lemma ApplyStep<S, R>(apply: (S, R) -> S, init: S, sys: System<S, R>, a: nat)
    requires Inv(apply, init, sys) && Enabled(apply, sys, Apply(a))
    ensures Inv(apply, init, After(apply, init, sys, Apply(a)))
  {
    hide ViewOf, StateOf, Ordered, HasSnapshot, HasLine, Pending, TailIs, DiskOk;
    var e := Applied(sys.proc.actors[a].op.record);
    SameFiles(apply, init, sys.disk, sys.history, e);
    OrderedSnoc(sys.history, e);
    HasSnoc(sys.history, e);
    ViewSnoc(init, sys.history, e);
    StatePlus(apply, ViewOf(init, sys.history).live, |sys.history| - 1, e.record);
  }

  lemma FailStep<S, R>(apply: (S, R) -> S, init: S, sys: System<S, R>, a: nat)
    requires Inv(apply, init, sys) && Enabled(apply, sys, Fail(a))
    ensures Inv(apply, init, After(apply, init, sys, Fail(a)))
  {
    hide ViewOf, StateOf, Ordered, HasSnapshot, HasLine, Pending, DiskOk;
    if sys.proc.actors[a].stage.Torn? {
      SameFiles(apply, init, sys.disk, sys.history, Tore);
      OrderedSnoc(sys.history, Tore);
      HasSnoc(sys.history, Tore);
      ViewSnoc(init, sys.history, Tore);
    }
  }

  lemma RenameStep<S, R>(apply: (S, R) -> S, init: S, sys: System<S, R>, a: nat)
    requires Inv(apply, init, sys) && Enabled(apply, sys, Rename(a))
    ensures Inv(apply, init, After(apply, init, sys, Rename(a)))
  {
    hide ViewOf, Ordered, HasSnapshot, HasLine, Pending, TailIs, DiskOk, ApplyAll;
    var e := SnapshotEvent(sys.proc, a);
    OrderedSnoc(sys.history, e);
    HasSnoc(sys.history, e);
    ViewSnoc(init, sys.history, e);
    InstalledState(apply, SnapshotState(sys.proc, a));
    SnapshotOk(apply, init, sys.disk, sys.proc.generation, sys.history, sys.history + [e], SnapshotState(sys.proc, a));
  }

  lemma InstalledState<S, R>(apply: (S, R) -> S, state: S)
    ensures StateOf(apply, Content(state, [])) == state
  {
    assert Records<R>([]) == [];
  }

  lemma SweepStep<S, R>(apply: (S, R) -> S, init: S, sys: System<S, R>, a: nat)
    requires Inv(apply, init, sys) && Enabled(apply, sys, Sweep(a))
    ensures Inv(apply, init, After(apply, init, sys, Sweep(a)))
  {
    hide Ordered, HasSnapshot, HasLine, Pending, TailIs, ApplyAll;
    WrittenState(apply, init, sys, a);
    ClearOk(apply, init, sys.disk, sys.history);
    hide ViewOf, DiskOk;
  }

  /** Between rename and adoption the snapshot on disk is what is kept. */
  lemma WrittenState<S, R>(apply: (S, R) -> S, init: S, sys: System<S, R>, a: nat)
    requires Ordered(sys.history) && Snaps(sys.proc, a) && HolderOk(init, sys, a) && !sys.proc.actors[a].stage.Ready?
    requires sys.proc.live == StateOf(apply, ViewOf(init, sys.history).live)
    ensures StateOf(apply, ViewOf(init, sys.history).kept) == SnapshotState(sys.proc, a) && ViewOf(init, sys.history).tail == Clean
    ensures HasSnapshot(sys.history) && (Pending(sys.history) <==> sys.proc.actors[a].op.Install?)
  {
    var h := sys.history;
    var n := |h| - 1;
    assert h == h[..n] + [h[n]];
    ViewSnoc(init, h[..n], h[n]);
    HasSnoc(h[..n], h[n]);
    InstalledState(apply, SnapshotState(sys.proc, a));
  }

  lemma FinishStep<S, R>(apply: (S, R) -> S, init: S, sys: System<S, R>, a: nat)
    requires Inv(apply, init, sys) && Enabled(apply, sys, Finish(a))
    ensures Inv(apply, init, After(apply, init, sys, Finish(a)))
  {
    hide ViewOf, Ordered, HasSnapshot, HasLine, Pending, DiskOk, ApplyAll, StateOf;
    WrittenState(apply, init, sys, a);
    if sys.proc.actors[a].op.Install? {
      var e := Adopted(SnapshotState(sys.proc, a));
      SameFiles(apply, init, sys.disk, sys.history, e);
      OrderedSnoc(sys.history, e);
      HasSnoc(sys.history, e);
      ViewSnoc(init, sys.history, e);
      InstalledState(apply, SnapshotState(sys.proc, a));
    }
  }

  lemma KeptWasWritten<S, R>(init: S, h: History<S, R>)
    requires Ordered(h) && ViewOf(init, h).kept.items != []
    ensures HasLine(h)
  {
    ItemsReal(init, h);
    var items := ViewOf(init, h).kept.items;
    assert items[0] in items;
    assert h[items[0].at].Wrote?;
  }

  /** Coming up again, with or without a repair: the live state becomes what is kept. */
  lemma RestartOk<S, R>(apply: (S, R) -> S, init: S, d: Disk<S, R>, h: History<S, R>, gen: nat, state: S)
    requires Ordered(h) && DiskOk(apply, init, d, h) && GenIs(d, gen) && state == StateOf(apply, ViewOf(init, h).kept)
    requires !d.torn && Malformed !in d.lines
    ensures Inv(apply, init, System(d, Up(gen, state, None, map[]), h + [Restarted]))
    ensures ViewOf(init, h + [Restarted]).live == ViewOf(init, h + [Restarted]).kept == ViewOf(init, h).kept
  {
    hide ViewOf, StateOf, Ordered, HasSnapshot, HasLine, Pending, DiskOk;
    SameFiles(apply, init, d, h, Restarted);
    OrderedSnoc(h, Restarted);
    HasSnoc(h, Restarted);
    ViewSnoc(init, h, Restarted);
  }

  lemma BootStep<S, R>(apply: (S, R) -> S, init: S, sys: System<S, R>)
    requires Inv(apply, init, sys) && Enabled(apply, sys, Boot)
    ensures Inv(apply, init, After(apply, init, sys, Boot))
  {
    hide Ordered, HasSnapshot, HasLine, Pending, Recover;
    RecoverOk(apply, init, sys.disk, sys.history);
    if Recover(apply, sys.disk).NothingThere? {
      if ViewOf(init, sys.history).kept.items != [] {
        KeptWasWritten(init, sys.history);
      }
      InstalledState(apply, init);
      NoLines(apply, init, sys.disk, sys.history);
      RestartOk(apply, init, sys.disk, sys.history, 0, init);
    } else if !Recover(apply, sys.disk).discard {
      RestartOk(apply, init, sys.disk, sys.history, sys.disk.snapshot.value.gen, Recover(apply, sys.disk).state);
    }
  }

  lemma NoLines<S, R>(apply: (S, R) -> S, init: S, d: Disk<S, R>, h: History<S, R>)
    requires DiskOk(apply, init, d, h) && d.snapshot.None? && !HasLine(h)
    ensures d.lines == [] && ViewOf(init, h).kept.base == init
  {
  }

  lemma RepairStep<S, R>(apply: (S, R) -> S, init: S, sys: System<S, R>, step: Step<S, R>)
    requires Inv(apply, init, sys) && Enabled(apply, sys, step) && (step.RepairRename? || step.RepairSweep?)
    ensures Inv(apply, init, After(apply, init, sys, step))
  {
    hide ViewOf, StateOf, Ordered, HasSnapshot, HasLine, Pending, Replay;
    if step.RepairRename? {
      SnapshotOk(apply, init, sys.disk, sys.disk.snapshot.value.gen, sys.history, sys.history, sys.proc.state);
    } else {
      ClearOk(apply, init, sys.disk, sys.history);
      RestartOk(apply, init, LogCleared(sys.disk), sys.history, sys.disk.snapshot.value.gen, sys.proc.state);
    }
  }

  /** Every disk step, failure, crash, boot and repair step keeps files, live state and history in agreement. */
  lemma StepKeepsInv<S, R>(apply: (S, R) -> S, init: S, sys: System<S, R>, step: Step<S, R>)
    requires Inv(apply, init, sys) && Enabled(apply, sys, step)
    ensures Inv(apply, init, After(apply, init, sys, step))
  {
    hide Inv, Enabled, After;
    match step
    case Write(a) => WriteStep(apply, init, sys, a);
    case Apply(a) => ApplyStep(apply, init, sys, a);
    case Fail(a) => FailStep(apply, init, sys, a);
    case Rename(a) => RenameStep(apply, init, sys, a);
    case Sweep(a) => SweepStep(apply, init, sys, a);
    case Finish(a) => FinishStep(apply, init, sys, a);
    case Boot => BootStep(apply, init, sys);
    case RepairRename => RepairStep(apply, init, sys, step);
    case RepairSweep => RepairStep(apply, init, sys, step);
    case _ => QueueStep(apply, init, sys, step);
  }

  lemma {:induction false} RunKeepsInv<S, R>(apply: (S, R) -> S, init: S, sys: System<S, R>, steps: seq<Step<S, R>>)
    requires Inv(apply, init, sys) && IsRun(apply, init, sys, steps)
    ensures Inv(apply, init, EndOf(apply, init, sys, steps))
    decreases |steps|
  {
    hide Inv, Enabled, After;
    if steps != [] {
      StepKeepsInv(apply, init, sys, steps[0]);
      RunKeepsInv(apply, init, After(apply, init, sys, steps[0]), steps[1..]);
    }
  }

  lemma ReachedInv<S(!new), R(!new)>(apply: (S, R) -> S, init: S, sys: System<S, R>)
    requires Reached(apply, init, sys)
    ensures Inv(apply, init, sys)
  {
    hide IsRun, EndOf;
    var steps :| IsRun(apply, init, Fresh(), steps) && EndOf(apply, init, Fresh(), steps) == sys;
    RunKeepsInv(apply, init, Fresh(), steps);
  }

  // ---- What every run guarantees ----

  /**
   Crash safety: at any moment of any run, recovery of the files as they stand rebuilds
   exactly the records that the history keeps, each once and in the order in which they
   were written. It fails exactly in the window before the first snapshot, once anything
   has reached the log.
   */
  lemma CrashSafety<S(!new), R(!new)>(apply: (S, R) -> S, init: S, sys: System<S, R>)
    requires Reached(apply, init, sys)
    ensures Recover(apply, sys.disk) ==
            if HasSnapshot(sys.history) then Recovered(StateOf(apply, ViewOf(init, sys.history).kept), sys.disk.torn || Malformed in sys.disk.lines)
            else if !HasLine(sys.history) && !sys.disk.torn then NothingThere
            else MissingSnapshot
    ensures Real(sys.history, ViewOf(init, sys.history).kept.items)
  {
    hide Reached;
    ReachedInv(apply, init, sys);
    RecoverOk(apply, init, sys.disk, sys.history);
    ItemsReal(init, sys.history);
  }

  /**
   Exactly which records survive, acknowledged or not: unless an install wipes it out, a
   record is kept if the live state had taken it in by the compaction that comes first
   after it, or, when no compaction comes before the next restart, if no fragment of a
   failed append lay before it.
   */
  lemma SurvivesIff<S(!new), R(!new)>(apply: (S, R) -> S, init: S, sys: System<S, R>, i: nat)
    requires Reached(apply, init, sys) && i < |sys.history| && sys.history[i].Wrote?
    ensures Item(i, sys.history[i].record) in ViewOf(init, sys.history).kept.items <==> KeptFate(sys.history, i)
  {
    hide Reached, ViewOf, KeptFate, LiveFate, DiskOk, ProcOk;
    ReachedInv(apply, init, sys);
    Fates(init, sys.history, i);
  }

  /** The holder of the gate has made an event durable that it has not taken in yet. */
  ghost predicate InFlight<S, R>(sys: System<S, R>) {
    && sys.proc.Up? && sys.proc.gate.Some? && sys.history != []
    && var last := sys.history[|sys.history| - 1];
       || last.Installed?
       || (last.Wrote? && Commits(sys.proc, sys.proc.gate.value) && sys.proc.actors[sys.proc.gate.value].stage.Durable?)
  }

  ghost function Finished<S, R>(sys: System<S, R>): History<S, R> {
    if InFlight(sys) then sys.history[..|sys.history| - 1] else sys.history
  }

  /**
   The live state holds exactly what was applied, the gate has one holder, and the live
   state is what recovery rebuilds, up to the one event of that holder, if and only if
   nothing has failed since the log was last cleared.
   */
  lemma LiveIsRefined<S(!new), R(!new)>(apply: (S, R) -> S, init: S, sys: System<S, R>)
    requires Reached(apply, init, sys) && sys.proc.Up?
    ensures sys.proc.live == StateOf(apply, ViewOf(init, sys.history).live)
    ensures forall a, b | Holds(sys.proc, a) && Holds(sys.proc, b) :: a == b
    ensures ViewOf(init, Finished(sys)).kept == ViewOf(init, sys.history).live <==> NothingFailed(Finished(sys))
  {
    hide Reached;
    ReachedInv(apply, init, sys);
    FinishedOk(apply, init, sys);
    hide ViewOf, DiskOk, NothingFailed, Ordered, HolderOk, Pending, StateOf, Finished;
    AgreeIff(init, Finished(sys));
  }

  lemma FinishedOk<S, R>(apply: (S, R) -> S, init: S, sys: System<S, R>)
    requires Inv(apply, init, sys) && sys.proc.Up?
    ensures Ordered(Finished(sys)) && !Pending(Finished(sys)) && ViewOf(init, Finished(sys)).live == ViewOf(init, sys.history).live
  {
    var h := sys.history;
    if InFlight(sys) {
      var n := |h| - 1;
      OrderedPrefix(h, n);
      assert h == h[..n] + [h[n]];
      ViewSnoc(init, h[..n], h[n]);
      PendingFollowed(h, n);
    }
  }

  lemma PendingFollowed<S, R>(h: History<S, R>, n: nat)
    requires Ordered(h) && n < |h| && !h[n].Adopted? && !h[n].Restarted?
    ensures !Pending(h[..n])
  {
  }

  /** Booting, with or without a repair, brings the live state to exactly what is kept. */
  lemma BootRestores<S(!new), R(!new)>(apply: (S, R) -> S, init: S, sys: System<S, R>, step: Step<S, R>)
    requires Reached(apply, init, sys) && (step.Boot? || step.RepairSweep?) && Enabled(apply, sys, step)
    ensures var sys' := After(apply, init, sys, step);
            && ViewOf(init, sys'.history).kept == ViewOf(init, sys.history).kept
            && (sys'.proc.Up? ==>
                  && ViewOf(init, sys'.history).live == ViewOf(init, sys.history).kept
                  && sys'.proc.live == StateOf(apply, ViewOf(init, sys.history).kept))
  {
    hide Reached, Inv, StateOf, ViewOf, Enabled, After;
    ReachedInv(apply, init, sys);
    StepKeepsInv(apply, init, sys, step);
    UpLive(apply, init, After(apply, init, sys, step));
    BootHistory(apply, init, sys, step);
    ViewSnoc(init, sys.history, Restarted);
  }

  lemma BootHistory<S, R>(apply: (S, R) -> S, init: S, sys: System<S, R>, step: Step<S, R>)
    requires (step.Boot? || step.RepairSweep?) && Enabled(apply, sys, step)
    ensures var sys' := After(apply, init, sys, step);
            sys'.history == sys.history + [Restarted] || (sys'.history == sys.history && !sys'.proc.Up?)
  {
    hide Recover;
  }

  lemma UpLive<S, R>(apply: (S, R) -> S, init: S, sys: System<S, R>)
    requires Inv(apply, init, sys)
    ensures sys.proc.Up? ==> sys.proc.live == StateOf(apply, ViewOf(init, sys.history).live)
  {
  }

  /** What has happened stays in the history; a step adds at most one event. */
  lemma HistoryGrows<S, R>(apply: (S, R) -> S, init: S, sys: System<S, R>, step: Step<S, R>)
    requires Enabled(apply, sys, step)
    ensures sys.history <= After(apply, init, sys, step).history
    ensures |After(apply, init, sys, step).history| <= |sys.history| + 1
  {
  }

  lemma {:induction false} RunHistoryGrows<S, R>(apply: (S, R) -> S, init: S, sys: System<S, R>, steps: seq<Step<S, R>>)
    requires IsRun(apply, init, sys, steps)
    ensures sys.history <= EndOf(apply, init, sys, steps).history
    decreases |steps|
  {
    hide Enabled, After;
    if steps != [] {
      HistoryGrows(apply, init, sys, steps[0]);
      RunHistoryGrows(apply, init, After(apply, init, sys, steps[0]), steps[1..]);
    }
  }

  /** Once a snapshot has become durable, no later failure or crash makes the files unrecoverable. */
  lemma RecoverableEverAfter<S(!new), R(!new)>(apply: (S, R) -> S, init: S, sys: System<S, R>, more: seq<Step<S, R>>)
    requires Reached(apply, init, sys) && HasSnapshot(sys.history) && IsRun(apply, init, sys, more)
    ensures Recover(apply, EndOf(apply, init, sys, more).disk).Recovered?
  {
    hide Reached, Inv;
    var end := EndOf(apply, init, sys, more);
    ReachedInv(apply, init, sys);
    RunKeepsInv(apply, init, sys, more);
    RunHistoryGrows(apply, init, sys, more);
    var i :| 0 <= i < |sys.history| && (sys.history[i].Rewritten? || sys.history[i].Installed?);
    assert end.history[i] == sys.history[i];
    InvRecovers(apply, init, end);
  }

  lemma InvRecovers<S, R>(apply: (S, R) -> S, init: S, sys: System<S, R>)
    requires Inv(apply, init, sys) && HasSnapshot(sys.history)
    ensures Recover(apply, sys.disk).Recovered?
  {
    RecoverOk(apply, init, sys.disk, sys.history);
  }

  /**
   An acknowledged record is lost exactly when an install comes after it, or when it was
   written behind the fragment of a failed append and no compaction came to its rescue
   before the log was next cleared.
   */
  lemma AcknowledgedUntilInstall<S(!new), R(!new)>(apply: (S, R) -> S, init: S, sys: System<S, R>, i: nat)
    requires Reached(apply, init, sys) && i < |sys.history| && sys.history[i].Wrote? && AppliedAt(sys.history, i)
    ensures Item(i, sys.history[i].record) in ViewOf(init, sys.history).kept.items <==>
            !Wiped(sys.history, i) && (CompactedFirst(sys.history, i) || CleanAt(sys.history, i))
  {
    hide Reached, ViewOf;
    SurvivesIff(apply, init, sys, i);
  }
}

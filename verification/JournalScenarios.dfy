/**
 Runs of the commit machine.

 The moves put together what one committer does from taking the gate to giving it back.
 With them the records of any sequence can be committed, and two runs show what a failed
 append does to later recoveries.
 */
module JournalScenarios {
  import opened Options
  import opened Journals
  import opened JournalHistories
  import opened Durability

  lemma {:induction false} RunSnoc<S, R>(apply: (S, R) -> S, init: S, sys: System<S, R>, steps: seq<Step<S, R>>, step: Step<S, R>)
    requires IsRun(apply, init, sys, steps) && Enabled(apply, EndOf(apply, init, sys, steps), step)
    ensures IsRun(apply, init, sys, steps + [step])
    ensures EndOf(apply, init, sys, steps + [step]) == After(apply, init, EndOf(apply, init, sys, steps), step)
    decreases |steps|
  {
    hide Enabled, After;
    var all := steps + [step];
    if steps == [] {
      assert all[0] == step && all[1..] == [];
      assert IsRun(apply, init, After(apply, init, sys, step), []);
    } else {
      assert all[0] == steps[0] && all[1..] == steps[1..] + [step];
      RunSnoc(apply, init, After(apply, init, sys, steps[0]), steps[1..], step);
    }
  }

  lemma ReachedStep<S(!new), R(!new)>(apply: (S, R) -> S, init: S, sys: System<S, R>, step: Step<S, R>)
    requires Reached(apply, init, sys) && Enabled(apply, sys, step)
    ensures Reached(apply, init, After(apply, init, sys, step))
  {
    hide Enabled, After;
    var steps :| IsRun(apply, init, Fresh(), steps) && EndOf(apply, init, Fresh(), steps) == sys;
    RunSnoc(apply, init, Fresh(), steps, step);
  }

  // ---- Moves ----

  /** The process is up and nobody is at work. */
  function Quiet<S, R>(d: Disk<S, R>, gen: nat, live: S, h: History<S, R>): System<S, R> {
    System(d, Up(gen, live, None, map[]), h)
  }

  function Held<S, R>(d: Disk<S, R>, gen: nat, live: S, h: History<S, R>, op: Op<S, R>, stage: Stage): System<S, R> {
    System(d, Up(gen, live, Some(0), map[0 := Holding(op, stage)]), h)
  }

  lemma Taking<S(!new), R(!new)>(apply: (S, R) -> S, init: S, d: Disk<S, R>, gen: nat, live: S, h: History<S, R>, op: Op<S, R>)
    requires Reached(apply, init, Quiet(d, gen, live, h))
    ensures Reached(apply, init, Held(d, gen, live, h, op, Ready))
  {
    hide Reached;
    var sys := Quiet(d, gen, live, h);
    ReachedStep(apply, init, sys, Arrive(0, op));
    var sys1 := After(apply, init, sys, Arrive(0, op));
    ReachedStep(apply, init, sys1, Acquire(0));
    Overwriting<Pc<S, R>>();
    assert After(apply, init, sys1, Acquire(0)) == Held(d, gen, live, h, op, Ready);
  }

  lemma Overwriting<X(!new)>()
    ensures forall x: X, y: X :: map[0 := x][0 := y] == map[0 := y]
    ensures forall y: X :: map[][0 := y] == map[0 := y]
  {
  }

  lemma GivingBack<S, R>(op: Op<S, R>, stage: Stage)
    ensures map[0 := Holding(op, stage)] - {0} == map[]
  {
  }

  /** A commit that succeeds. */
  lemma Committing<S(!new), R(!new)>(apply: (S, R) -> S, init: S, d: Disk<S, R>, gen: nat, live: S, h: History<S, R>, r: R, client: bool)
    requires Reached(apply, init, Quiet(d, gen, live, h))
    ensures Reached(apply, init, Quiet(Appended(d, gen, r), gen, apply(live, r), h + [Wrote(r)] + [Applied(r)]))
  {
    hide Reached;
    var op := Commit(r, client);
    Writing(apply, init, d, gen, live, h, r, client);
    var d', h' := Appended(d, gen, r), h + [Wrote(r)];
    var sys := Held(d', gen, live, h', op, Durable);
    ReachedStep(apply, init, sys, Apply(0));
    GivingBack(op, Durable);
    assert After(apply, init, sys, Apply(0)) == Quiet(d', gen, apply(live, r), h' + [Applied(r)]);
  }

  lemma Writing<S(!new), R(!new)>(apply: (S, R) -> S, init: S, d: Disk<S, R>, gen: nat, live: S, h: History<S, R>, r: R, client: bool)
    requires Reached(apply, init, Quiet(d, gen, live, h))
    ensures Reached(apply, init, Held(Appended(d, gen, r), gen, live, h + [Wrote(r)], Commit(r, client), Durable))
  {
    hide Reached;
    var op := Commit(r, client);
    Taking(apply, init, d, gen, live, h, op);
    var sys := Held(d, gen, live, h, op, Ready);
    ReachedStep(apply, init, sys, Write(0));
    Overwriting<Pc<S, R>>();
    assert After(apply, init, sys, Write(0)) == Held(Appended(d, gen, r), gen, live, h + [Wrote(r)], op, Durable);
  }

  /** A client's append that leaves a fragment. */
  lemma FailingInPart<S(!new), R(!new)>(apply: (S, R) -> S, init: S, d: Disk<S, R>, gen: nat, live: S, h: History<S, R>, r: R)
    requires Reached(apply, init, Quiet(d, gen, live, h))
    ensures Reached(apply, init, Quiet(d.(torn := true), gen, live, h + [Tore]))
  {
    hide Reached;
    var op := Commit(r, true);
    Taking(apply, init, d, gen, live, h, op);
    var sys := Held(d, gen, live, h, op, Ready);
    ReachedStep(apply, init, sys, Tear(0));
    var sys1 := Held(d.(torn := true), gen, live, h, op, Torn(d.torn));
    Overwriting<Pc<S, R>>();
    assert After(apply, init, sys, Tear(0)) == sys1;
    ReachedStep(apply, init, sys1, Fail(0));
    GivingBack(op, Torn(d.torn));
    assert After(apply, init, sys1, Fail(0)) == Quiet(d.(torn := true), gen, live, h + [Tore]);
  }

  /** A client's append that writes the whole line and then fails. */
  lemma FailingInSync<S(!new), R(!new)>(apply: (S, R) -> S, init: S, d: Disk<S, R>, gen: nat, live: S, h: History<S, R>, r: R)
    requires Reached(apply, init, Quiet(d, gen, live, h))
    ensures Reached(apply, init, Quiet(Appended(d, gen, r), gen, live, h + [Wrote(r)]))
  {
    hide Reached;
    var op := Commit(r, true);
    Writing(apply, init, d, gen, live, h, r, true);
    var sys := Held(Appended(d, gen, r), gen, live, h + [Wrote(r)], op, Durable);
    ReachedStep(apply, init, sys, Fail(0));
    GivingBack(op, Durable);
    assert After(apply, init, sys, Fail(0)) == Quiet(Appended(d, gen, r), gen, live, h + [Wrote(r)]);
  }

  /** A compaction. */
  lemma Compacting<S(!new), R(!new)>(apply: (S, R) -> S, init: S, d: Disk<S, R>, gen: nat, live: S, h: History<S, R>)
    requires Reached(apply, init, Quiet(d, gen, live, h))
    ensures Reached(apply, init, Quiet(Disk(Some(Snapshot(gen + 1, live)), [], false), gen + 1, live, h + [Rewritten]))
  {
    hide Reached;
    Taking(apply, init, d, gen, live, h, Compact);
    var sys := Held(d, gen, live, h, Compact, Ready);
    ReachedStep(apply, init, sys, Rename(0));
    var sys1 := Held(d.(snapshot := Some(Snapshot(gen + 1, live))), gen, live, h + [Rewritten], Compact, Durable);
    Overwriting<Pc<S, R>>();
    assert After(apply, init, sys, Rename(0)) == sys1;
    ReachedStep(apply, init, sys1, Sweep(0));
    var clear := Disk(Some(Snapshot(gen + 1, live)), [], false);
    var sys2 := Held(clear, gen + 1, live, h + [Rewritten], Compact, Swept);
    assert After(apply, init, sys1, Sweep(0)) == sys2;
    ReachedStep(apply, init, sys2, Finish(0));
    GivingBack<S, R>(Compact, Swept);
    assert After(apply, init, sys2, Finish(0)) == Quiet(clear, gen + 1, live, h + [Rewritten]);
  }

  /** The first boot and the snapshot that bootstrap writes. */
  lemma Bootstrapping<S(!new), R(!new)>(apply: (S, R) -> S, init: S)
    ensures Reached(apply, init, Quiet(Disk(Some(Snapshot(1, init)), [], false), 1, init, [Restarted, Rewritten]))
  {
    var sys := Fresh<S, R>();
    assert IsRun(apply, init, sys, []) && EndOf(apply, init, sys, []) == sys;
    assert Reached(apply, init, sys);
    hide Reached;
    ReachedStep(apply, init, sys, Boot);
    var h: History<S, R> := [Restarted];
    assert After(apply, init, sys, Boot) == Quiet(Disk(None, [], false), 0, init, h);
    Compacting(apply, init, Disk(None, [], false), 0, init, h);
    assert h + [Rewritten] == [Restarted, Rewritten];
  }

  /** Any records can be committed one after the other, by clients or by the loop, without a failure. */
  lemma {:induction false} CommittingAll<S(!new), R(!new)>(apply: (S, R) -> S, init: S, records: seq<R>) returns (d: Disk<S, R>, h: History<S, R>)
    ensures Reached(apply, init, Quiet(d, 1, ApplyAll(apply, init, records), h))
    ensures ViewOf(init, h).live == ViewOf(init, h).kept && ViewOf(init, h).tail == Clean && HasSnapshot(h)
    ensures ViewOf(init, h).live.base == init && Records(ViewOf(init, h).live.items) == records
    decreases |records|
  {
    hide Reached;
    if records == [] {
      Bootstrapping(apply, init);
      d, h := Disk(Some(Snapshot(1, init)), [], false), [Restarted, Rewritten];
      BootstrapView(init, h);
    } else {
      var r, rest := records[|records| - 1], records[..|records| - 1];
      var d0, h0 := CommittingAll(apply, init, rest);
      Committing(apply, init, d0, 1, ApplyAll(apply, init, rest), h0, r, false);
      d, h := Appended(d0, 1, r), h0 + [Wrote(r)] + [Applied(r)];
      hide ViewOf, HasSnapshot;
      ViewSnoc(init, h0, Wrote(r));
      ViewSnoc(init, h0 + [Wrote(r)], Applied(r));
      HasSnoc(h0, Wrote(r));
      HasSnoc(h0 + [Wrote(r)], Applied(r));
      var items := ViewOf(init, h0).live.items;
      assert Records(items + [Item(|h0|, r)]) == records;
    }
  }

  lemma BootstrapView<S, R>(init: S, h: History<S, R>)
    requires h == [Restarted, Rewritten]
    ensures ViewOf(init, h) == View(Content(init, []), Content(init, []), Clean) && HasSnapshot(h)
  {
    var none: History<S, R> := [];
    ViewSnoc(init, none, Restarted);
    assert none + [Restarted] == h[..1] && h == h[..1] + [Rewritten];
    ViewSnoc(init, h[..1], Rewritten);
    assert h[1].Rewritten?;
  }

  // ---- What a failed append does ----

  /**
   An acknowledged record is lost without any install: an earlier append failed in part,
   so the record forms one malformed line with the fragment, and recovery discards it.
   */
  lemma SwallowedIsLost<S(!new), R(!new)>(apply: (S, R) -> S, init: S, lost: R, acknowledged: R) returns (sys: System<S, R>)
    ensures Reached(apply, init, sys) && sys.proc.Up? && sys.proc.gate.None? && sys.proc.live == apply(init, acknowledged)
    ensures sys.history == [Restarted, Rewritten, Tore, Wrote(acknowledged), Applied(acknowledged)]
    ensures Recover(apply, sys.disk) == Recovered(init, true)
  {
    hide Reached;
    Bootstrapping(apply, init);
    var d, h := Disk(Some(Snapshot(1, init)), [], false), [Restarted, Rewritten];
    FailingInPart(apply, init, d, 1, init, h, lost);
    Committing(apply, init, d.(torn := true), 1, init, h + [Tore], acknowledged, true);
    sys := Quiet(Appended(d.(torn := true), 1, acknowledged), 1, apply(init, acknowledged), h + [Tore] + [Wrote(acknowledged)] + [Applied(acknowledged)]);
    assert sys.history == [Restarted, Rewritten, Tore, Wrote(acknowledged), Applied(acknowledged)];
    assert sys.disk.lines == [Malformed];
  }

  /**
   A record that nobody acknowledged is rebuilt: its line was complete when the sync failed.
   The live state never took it in, and recovery puts it before everything that came later.
   */
  lemma FailedSyncIsReplayed<S(!new), R(!new)>(apply: (S, R) -> S, init: S, failed: R, acknowledged: R) returns (sys: System<S, R>)
    ensures Reached(apply, init, sys) && sys.proc.Up? && sys.proc.gate.None? && sys.proc.live == apply(init, acknowledged)
    ensures sys.history == [Restarted, Rewritten, Wrote(failed), Wrote(acknowledged), Applied(acknowledged)]
    ensures Recover(apply, sys.disk) == Recovered(apply(apply(init, failed), acknowledged), false)
  {
    hide Reached;
    Bootstrapping(apply, init);
    var d, h := Disk(Some(Snapshot(1, init)), [], false), [Restarted, Rewritten];
    FailingInSync(apply, init, d, 1, init, h, failed);
    var d1 := Appended(d, 1, failed);
    Committing(apply, init, d1, 1, init, h + [Wrote(failed)], acknowledged, true);
    sys := Quiet(Appended(d1, 1, acknowledged), 1, apply(init, acknowledged), h + [Wrote(failed)] + [Wrote(acknowledged)] + [Applied(acknowledged)]);
    assert sys.history == [Restarted, Rewritten, Wrote(failed), Wrote(acknowledged), Applied(acknowledged)];
    var lines := [Record(1, failed), Record(1, acknowledged)];
    assert sys.disk.lines == lines && lines[1..] == [Record(1, acknowledged)] && [Record(1, acknowledged)][1..] == [];
    assert Replay(apply, 1, apply(init, failed), [Record(1, acknowledged)], false) == (apply(apply(init, failed), acknowledged), false);
  }
}

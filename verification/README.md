# Verified model of the Gresse replication runtime

Gresse replicates a delta-based CRDT between processes. Each replica keeps a version vector,
a log of deltas per author and a matrix of what it believes the others have seen. Replicas pull
deltas from each other; a garbage-collection round computes the stable frontier from the matrix,
truncates logs below it, and retires replicas that have left. Client mutations and the replica
loop commit through one gate, journal first, so that a crash at any point is recoverable.
A restarted replica takes up its journaled state and finds its peers again from the listing.

The model follows the program's layers.

- **Causality and logs** (`Dots`, `DotMaps`, `VersionMatrices`, `OrSets`, `GcWrappers`). Every
  object that the program updates in place is a class whose methods are proved against functions
  on values. Panics are explicit: a failed contiguity assertion is a `None`, and a marker that
  would erase a replica's own row violates `OwnRowSurvives`.
- **Meaning** (`Histories`). A history records every mutation together with what its author had
  seen. Against it the OR-Set entries have a meaning that mentions neither logs nor merges.
- **Protocol** (`Replicas`, `Networks`, `NetworkInvariants`, `NetworkSteps`, `ProtocolTheorems`,
  `Leavers`, `Exchanges`, `Scenarios`). A transition system in which messages may be lost,
  duplicated, reordered and delayed without bound, client mutations interleave with every handler
  that waits for the commit gate, several replicas may run GC rounds at once, rounds may be
  abandoned, and replicas may leave or restart from their journals. One inductive invariant carries the theorems. `Exchanges`
  says what a pull leads to from any reachable state. `Scenarios` holds complete runs into states
  that the documentation rules out.
- **Durability** (`Journals`, `JournalHistories`, `Durability`, `JournalScenarios`,
  `ReplicaJournals`). Any number of committers behind the gate, with a crash between any two disk
  steps, torn appends, interrupted repairs, and client appends that fail while the process goes
  on. `JournalHistories` tells from the order of events alone what becomes of each record;
  `Durability` proves that the files agree; `ReplicaJournals` joins them to the network.
- **Queryable state** (`Indexes`, `Views`, `CompositeViews`, `ZTables`) and **membership names**
  (`Descriptors`).

`Networks.World` holds history variables that no step reads. `seen` is what a replica has ever
seen; a version vector equals it except in columns that a GC marker has erased. `erased` is the
set of replicas announced as departed by some committed marker.

## What the code does not do

Each of these comes with a concrete run and with the exact condition for when it happens.

- The documented contract of a delta group is causal order (`src/crdt.rs:170`), but `get_delta`
  walks hash maps, so a removal can come before the insertion it names, and two replicas with
  equal vectors then hold different elements: `Scenarios.WalkOrderCanDiverge`. A merge keeps the
  entries equal to their meaning if and only if every insertion it applies after its removal is
  named again later in the list: `Histories.MergeExactIffSettles`, and for reachable states
  `ProtocolTheorems.CommitExactIff`. Runs in causal order always meet that:
  `ProtocolTheorems.OrderedRunSettles`. `ProtocolTheorems.StrongConvergence` and
  `ProtocolTheorems.AddWins` hold for every run whose merges met the condition.
- Erasing the column of a retired replica makes its deltas new again. When its shutdown object is
  still listed, which is so until its deletion at `src/replica.rs:513-519` has succeeded, the
  payload is absorbed a second time, since the final dot that would prevent that is erased too.
  A removed element can come back: `Scenarios.RetiredDeltaReturns`. The contiguity assertion of
  `DotSet::insert` can fire: `Scenarios.PanicIsReachable`. It fires if and only if a list goes on
  past the vector in some column without the next dot, and only in a retired column:
  `ProtocolTheorems.GapFreedom`. The group is journaled before it is merged, so every recovery
  panics again: `ReplicaJournals.PanicIsDurable`.
- GC rounds do not come to rest. The frontier includes the epoch column, so a round moves what the
  next one compares: as soon as every observer has reported under the new epoch another round is
  due, even if nothing was mutated: `GcWrappers.RoundsGoOn`. `GcWrappers.NoRoundDueIff` says
  exactly when none is due.
- The HTTP server opens before bootstrap (`src/replica.rs:103-131`). A mutation that reaches the
  log before the first snapshot makes the journal unrecoverable until that snapshot is written,
  and a snapshot installed from object storage (`src/replica.rs:222-230`) discards every mutation
  acknowledged before it: `Durability.CrashSafety` states exactly when recovery fails.
- A client's append can fail while the process goes on: `append_record_locked` writes record,
  newline and sync one after the other (`src/journal.rs:274-276`), the error ends only the
  handler (`src/replica.rs:93-96`), and the gate is free again. If a fragment stays behind, the
  next record is acknowledged but shares a malformed line with it, and recovery loses it without
  any install: `JournalScenarios.SwallowedIsLost`. If only the sync fails, the record stays in
  the log, no client is told and the live state never takes it in, yet recovery does, before
  everything later: `JournalScenarios.FailedSyncIsReplayed`. Replayed mutations then get other
  dots than the ones peers already hold: `ReplicaJournals.FailedSyncRenumbers`.
  `Durability.SurvivesIff` says exactly which records recovery rebuilds,
  `Durability.AcknowledgedUntilInstall` exactly which acknowledged ones are lost, and
  `Durability.LiveIsRefined` exactly when recovery and the live state agree.

## Model

| member | source | states |
|---|---|---|
| Dots.PointwiseMin | src/dots.rs:89-94 | lowering a vector gives the union of columns, each at the smaller counter, absent read as -1 |
| DotMaps.PushShape | src/dots.rs:574-577 | logging the next dot keeps every log a consecutive run ending at the vector and leaves every lower bound where it was |
| DotMaps.SearchAfterRun | src/dots.rs:579-589 | on a consecutive run the binary search lands just past the requested counter, at either end when it is outside |
| DotMaps.GreaterIsUnseen | src/dots.rs:579-589 | the per-author query equals filtering the log by "not contained in the vector" |
| DotMaps.QueryIsFilter | src/dots.rs:592-620 | whatever order the maps are walked in, each author's part of the answer is its unseen items, once each, in counter order |
| DotMaps.AllGreaterLinked | src/dots.rs:592-620 | every item of an answer has its predecessor below the log's start, in the requester's vector, or earlier in the answer |
| DotMaps.AllGreaterReaches | src/dots.rs:592-620 | an answer reaches the end of every log that extends past the request |
| DotMaps.AllGreaterInRuns | src/dots.rs:592-620 | in an answer each author's dots are a consecutive ascending run |
| DotMaps.RetainShape | src/dots.rs:622-630 | truncation at a frontier keeps a suffix of every log, keeps the shape, drops departed authors, and moves no lower bound past the frontier |
| DotMaps.RetainInvisible | src/dots.rs:592-630 | dropping items a requester has changes no answer to it |
| VersionMatrices.StableUnique | src/dots.rs:254-316 | frontier and departed list do not depend on the order rows and final dots are walked in |
| VersionMatrices.StableSeenByObservers | src/dots.rs:254-316 | a real dot inside the frontier is in every observer's row |
| VersionMatrices.AppliedMarkerErases | src/dots.rs:213-251 | applying a marker takes every retirable replica out of rows, columns and final dots, keeps the own row, and none is retirable in the result |
| VersionMatrices.MarkerEffect | src/dots.rs:213-251 | what a marker does to every entry of rows and final dots: a replica it takes out loses row, columns and final dot; one that is announced while its known final dot is not covered keeps all of them, as does everyone else |
| VersionMatrices.SilentObserverRetirable | src/dots.rs:254-316 | an observer with final counter -1 gets a frontier column, so applying that frontier makes it retirable |
| VersionMatrices.ObserverMinimum | src/dots.rs:254-316 | folding observer rows in any order yields the column minima over the union of columns |
| VersionMatrices.WithObserverColumns | src/dots.rs:254-316 | observers without a column get one at -1, other columns keep their value |
| VersionMatrices.VersionMatrix.constructor | src/dots.rs:165-176 | a fresh matrix has the own row only, at -1 in both columns |
| VersionMatrices.VersionMatrix.Update | src/dots.rs:178-182 | a row whose epoch is older than the own row's changes nothing; any other is stored and no other row changes |
| VersionMatrices.VersionMatrix.InsertPid | src/dots.rs:184-195 | an unknown replica gets a row at -1 under the given epoch; no row that is there changes, and pid 0 gets none |
| VersionMatrices.VersionMatrix.RebindOwnPid | src/dots.rs:201-204 | the own pid changes and its row is set; the row of the old pid stays |
| VersionMatrices.VersionMatrix.InsertFinalDot | src/dots.rs:343-345 | the final dot of a replica is recorded |
| VersionMatrices.VersionMatrix.RemovePids | src/dots.rs:213-232 | the loop erases exactly the listed replicas, except those with a known final dot that row 0 does not cover, from rows, columns and final dots |
| VersionMatrices.VersionMatrix.ApplyGcMarker | src/dots.rs:234-251 | departures erased first, then row 0 and the own epoch set; no panic iff the own row survives |
| VersionMatrices.VersionMatrix.GetObserverRows | src/dots.rs:319-340 | the rows that are not row 0 and not of a departed replica whose final dot the own row has |
| VersionMatrices.VersionMatrix.GetStable | src/dots.rs:254-316 | the result meets the iteration-free definition of the frontier and the departed list |
| OrSets.EveryRunKeepsLogShape | src/orset.rs:172-263 | after any non-panicking run of mutations, merges and collections every log is a consecutive run ending at the vector |
| OrSets.EveryRunKeepsEntries | src/orset.rs:99-113 | after any non-panicking run, re-deliveries included, every element present has dots, and none of them twice |
| OrSets.LoggedOk | src/orset.rs:219-239 | applying a contiguous delta keeps log and vector in step and leaves the other lower bounds |
| OrSets.MutatedOk | src/orset.rs:176-200 | a mutation keeps log and vector in step and moves no lower bound |
| OrSets.MergedOk | src/orset.rs:219-239 | a merge that does not panic keeps log and vector in step |
| OrSets.CollectedOk | src/orset.rs:241-263 | collection keeps log and vector in step although it also drops columns |
| OrSets.CollectedExactly | src/orset.rs:241-263 | after collection exactly the items neither inside the frontier nor of a departed replica are logged, in order, also where a log is covered only in part; only departed columns go |
| OrSets.CollectionInvisible | src/orset.rs:206-263 | a requester that has everything inside the frontier gets the same answer before and after collection, and queries see no difference |
| OrSets.AnswerExactly | src/orset.rs:206-217 | an answer holds exactly the logged deltas the requester has not seen |
| OrSets.RemergeIsNoOp | src/orset.rs:219-239 | a group merged again, at once or after other merges, changes nothing |
| OrSets.MergedContains | src/orset.rs:219-239 | after a merge the vector contains every dot of the list and everything it contained |
| OrSets.ORSet.constructor | src/orset.rs:90-97 | a new set is empty and has no pid |
| OrSets.ORSet.Copied | src/replica.rs:68-73 | a recovered set is taken over whole |
| OrSets.ORSet.SetPid | src/orset.rs:172-174 | only the pid changes |
| OrSets.ORSet.InsertDot | src/orset.rs:99-104 | a dot is added to an element's dots once |
| OrSets.ORSet.RemoveDots | src/orset.rs:106-113 | named dots are removed, and the element with its last dot |
| OrSets.ORSet.Mutate | src/orset.rs:176-200 | the mutation takes the next dot, changes entries, log and vector accordingly, and is refused without a pid |
| OrSets.ORSet.MergeDeltaGroup | src/orset.rs:219-239 | the loop is the fold of single merges, skipping seen dots, and stops exactly where the contiguity assertion would panic |
| OrSets.ORSet.Gc | src/orset.rs:241-263 | log entries inside the frontier or of departed authors go, and the departed columns with them |
| OrSets.ORSet.GetDelta | src/orset.rs:206-217 | the answer is the log query for some order of the hash maps |
| OrSets.ORSet.Elements | src/orset.rs:156-170 | the element query lists the elements ascending, each once |
| Histories.AppliedExactBut | src/orset.rs:219-239 | one new delta changes the entries exactly as the history's meaning changes, except for insertions that arrive after their removal |
| Histories.ReappliedExactBut | src/orset.rs:219-239 | a delta seen before, applied again because its column was forgotten, has the same effect on those exceptions and no other |
| Histories.MergePanicsIff | src/dots.rs:112-118 | on a list in runs the contiguity assertion fires if and only if some column of the vector is continued without its next dot |
| Histories.MergeExactIffSettles | src/orset.rs:206-239 | merging a list, forgotten columns included, keeps the entries equal to their meaning if and only if every insertion applied after a removal named it is named again later in the list |
| Histories.CausalOrderSettles | src/crdt.rs:170-177 | a list in which each unseen delta comes after everything its author had seen, as documented, and no re-delivered one after something that depends on it, always meets that condition |
| Histories.UnseenUndepended | src/crdt.rs:170-177 | nothing seen depends on a delta not seen, so causal order needs no second clause for those |
| Histories.LiveIsUnobserved | src/orset.rs:176-200 | the meaning of the entries is the add-wins OR-Set: inserted, and not observed by any removal seen |
| GcWrappers.EpochsOverRuns | src/crdt.rs:26-103 | over every run marker counters increase up to saturation, row 0 is the last marker's stamped frontier, and a refresh of the own row is never rejected |
| GcWrappers.OpKeepsEpoch | src/crdt.rs:54-95 | each wrapper operation keeps that and never lowers the epoch |
| GcWrappers.AnnouncedIsCovered | src/dots.rs:254-316 | a replica is announced as departed only if the last applied frontier covers its final dot |
| GcWrappers.FinalsOverRuns | src/crdt.rs:54-95 | no run of operations gives a replica a final dot unless its departure is observed |
| GcWrappers.AnnouncedOnce | src/crdt.rs:88-95 | once its announcement is applied a replica is in no row, column or final dot, and over every later run it is not announced again unless its departure is observed anew |
| GcWrappers.NoRoundDueIff | src/crdt.rs:80-86 | no round is due if and only if there is no observer, or nobody's final dot is covered by row 0 and the last marker's frontier still has exactly the observers' columns at their minima |
| GcWrappers.RoundsGoOn | src/crdt.rs:80-86 | once every observer has reported under the epoch of a round, the next round is due, whether or not anything was mutated |
| GcWrappers.RowsOverRuns | src/dots.rs:178-182 | over every run after a marker, a row that was not there before carries at least the marker's epoch or is the conservative row of a listed member |
| GcWrappers.RestoredIs | src/replica.rs:63-73 | what recovery and startup make of the journaled markers, entry by entry: the last frontier in row 0, the own row at the recovered vector and current epoch, a new row for every listed replica, no final dots |
| GcWrappers.CRDTWrapper.constructor | src/crdt.rs:19-24 | a fresh matrix and no markers |
| GcWrappers.CRDTWrapper.Restore | src/replica.rs:63-76 | the recovered wrapper is rebuilt from first snapshot, markers, rebound row and listing |
| GcWrappers.CRDTWrapper.UpdateOwnVersionVector | src/crdt.rs:54-59 | the own row and the outgoing vector carry the current epoch |
| GcWrappers.CRDTWrapper.RebindOwnPid | src/crdt.rs:61-64 | the rebound row carries the current epoch |
| GcWrappers.CRDTWrapper.ObserveActiveReplica | src/crdt.rs:66-70 | another replica is discovered, the own pid is not |
| GcWrappers.CRDTWrapper.ObserveDepartedReplica | src/crdt.rs:76-78 | the final dot is recorded |
| GcWrappers.CRDTWrapper.PushGcMarker | src/crdt.rs:88-95 | the marker is applied to the matrix and remembered |
| GcWrappers.CRDTWrapper.ReplayMarkers | src/journal.rs:218-224 | the loop pushes the journaled markers in order; no own row is erased |
| GcWrappers.CRDTWrapper.EnqueueMembers | src/network.rs:197-222 | whatever order the listing is walked in, exactly the listed replicas without a row get one |
| GcWrappers.CRDTWrapper.NeedsGcNow | src/crdt.rs:80-86 | a round is due if and only if there is an observer and something is left to collect, told from rows, final dots and the last marker |
| GcWrappers.CRDTWrapper.GcMetadata | src/crdt.rs:97-103 | the last marker, or before the first one the initial epoch with the current frontier and no departures |
| Replicas.Replica.constructor | src/replica.rs:50-135 | an idle replica with its pid bound in set and matrix |
| Replicas.Replica.Restore | src/replica.rs:50-148 | an idle replica with the recovered set and markers and a row for every listed member |
| Replicas.Replica.RefreshOwnVersionVector | src/replica.rs:638-641 | the own row becomes the stamped vector of the set |
| Replicas.Replica.PullDelta | src/replica.rs:422-442 | the request carries the own stamped vector |
| Replicas.Replica.HandleVersionVector | src/replica.rs:385-420 | the row is stored, and the answer pairs the unseen deltas with the stamped vector and GC metadata |
| Replicas.VectorHandledRows | src/replica.rs:385-420 | the requester's row is what it sent unless its epoch is older, the own row is the vector under the current epoch, and no other row changes |
| Replicas.Replica.ApplyGcMarker | src/replica.rs:566-576 | set and wrapper take the same marker |
| Replicas.Replica.ObserveGc | src/replica.rs:552-564 | only a marker with a newer counter is applied |
| Replicas.Replica.BeginDelta | src/replica.rs:357-383 | a group of an older epoch is refused, otherwise its marker is observed first |
| Replicas.Replica.FinishDelta | src/replica.rs:310-383 | the merge, the refreshed row and, for a payload, the final dot; fails exactly when the merge panics |
| Replicas.Replica.BeginGc | src/replica.rs:446-476 | a round starts if and only if there is a frontier and a departure to announce, no earlier marker, or a column that differs from the last marker's; then with the next counter, that frontier and those departures |
| Replicas.Replica.FinishGc | src/replica.rs:487-511 | the pending marker is applied |
| Replicas.Replica.ReadShutdownPayload | src/replica.rs:310-353 | what the payload has and the replica has not becomes the pending group |
| ProtocolTheorems.StepKeepsInv | src/replica.rs:50-714 | every step of every replica, restarts included, keeps the protocol invariant |
| ProtocolTheorems.ReachableInv | src/replica.rs:137-714 | the invariant holds in every reachable state |
| ProtocolTheorems.GapFreedom | src/replica.rs:310-420 | a waiting group extends the vector contiguously in every column not retired; the assertion fires if and only if some column is continued without its next dot, and every such column is retired |
| ProtocolTheorems.MarkersNeverPanic | src/dots.rs:234-251 | no marker in flight or pending erases the row of the replica that applies it |
| ProtocolTheorems.RestartPossible | src/replica.rs:50-80 | in every reachable state a live replica can come up again from its journal: no journaled marker erases its own row |
| ProtocolTheorems.NothingRunsAhead | src/crdt.rs:9-103 | no row exceeds what its replica has seen, no frontier exceeds what any live replica has seen, and vectors equal what was seen outside retired columns |
| ProtocolTheorems.GcSafety | src/replica.rs:446-576 | a delta that disappears from any log in any step has been seen by every live replica, and is in its vector unless the author is retired |
| ProtocolTheorems.CatchUp | src/replica.rs:357-420 | merging an answer brings the vector up to the one the answer was stamped with |
| ProtocolTheorems.ShutdownAbsorption | src/replica.rs:286-353 | after absorbing a payload the vector dominates the leaver's, and a leaver not retired is an observer if and only if it has a row and its final counter is -1 |
| ProtocolTheorems.CausalConsistency | src/replica.rs:357-383 | a replica has seen whatever the authors of what it has seen had seen |
| ProtocolTheorems.StrongConvergence | src/orset.rs:156-170 | live replicas with equal vectors outside retired columns answer Contains and Elements identically, in every run whose merges settled, retirements and re-deliveries included |
| ProtocolTheorems.AddWins | src/orset.rs:176-239 | an element is present iff some insertion of it was seen that no removal seen had observed |
| ProtocolTheorems.CausalGroupSettles | src/crdt.rs:170-177 | a waiting group records what happened, and in causal order it settles |
| ProtocolTheorems.OrderedRunSettles | src/crdt.rs:170-177 | if every group committed in a run puts unseen deltas after what their authors had seen, as documented, and re-delivered ones before what depends on them, the whole run is settled |
| ProtocolTheorems.CommitExactIff | src/replica.rs:357-383 | in a settled reachable state a commit keeps the entries equal to their meaning if and only if the merge settles |
| Leavers.ReachableFloored | src/dots.rs:165-195 | in every reachable state no vector, row, frontier or message has a counter below -1 |
| Leavers.SilentLeaverRetires | src/dots.rs:254-316 | a replica that left without a mutation takes part in the next round of a replica that has absorbed it, is retirable after it, and is erased by the one after that |
| Exchanges.StableExists | src/dots.rs:254-316 | every matrix with an own row has a frontier and departed list that meet the definition |
| Exchanges.AnswerGap | src/dots.rs:579-620 | an answer has a gap in a column exactly when the log it is taken from starts past the requester's counter |
| Exchanges.MergedBase | src/orset.rs:219-239 | merging what lies within a vector neither opens nor closes a gap above that vector |
| Exchanges.CommitJoins | src/replica.rs:357-383 | in every reachable state a commit makes the vector the join of its own and the group's, outside retired columns |
| Exchanges.ExchangeJoins | src/replica.rs:357-442 | from every reachable state two idle replicas can exchange: a requester ahead in epoch refuses; otherwise it stops at the contiguity assertion if one of its columns, necessarily retired, is continued only further on, and else ends with the join of both vectors and the answerer's epoch; where the exchange the other way would stop is told from the two replicas beforehand |
| Exchanges.AgreementWithinReach | src/replica.rs:357-442 | from every reachable state two exchanges bring two idle replicas to the same vector, or one stops at the assertion; which of the three it is, is told from both vectors, logs and the last marker before anything is sent; it is agreement while no log carries a retired replica's deltas, and agreeing replicas hold the same elements if all merges settled |
| Scenarios.WalkOrderCanDiverge | src/orset.rs:206-217 | a run after which two live replicas with equal vectors disagree about an element |
| Scenarios.RetiredDeltaReturns | src/replica.rs:286-353 | a run after which absorbing a retired replica's payload once more brings a removed element back |
| Scenarios.PanicIsReachable | src/dots.rs:112-118 | a run into a state where the contiguity assertion fires |
| Journals.ReplaySkipsOld | src/journal.rs:142-253 | lines of older generations are skipped, corrupt or not; only a fragment or a malformed line asks for a repair |
| Journals.ReplayEndsAtCorrupt | src/journal.rs:161-250 | whatever precedes and follows, the first malformed line, or undecodable one of this generation, ends the replay with the state so far and has the rest discarded |
| Journals.ReplayIgnores | src/journal.rs:161-250 | blank lines and lines of other generations, wherever they lie, change neither the state nor the need for a repair |
| Journals.ReplayAppends | src/journal.rs:255-278 | a record behind lines without corruption is applied once, after them |
| Journals.ReplayOneMore | src/journal.rs:142-253 | one more line of any kind: a record of this generation adds one application unless a corrupt line lies before it, anything else changes nothing |
| Journals.ReplayDiscards | src/journal.rs:142-253 | replay asks for a repair exactly if a fragment trails or some line is corrupt |
| Journals.RepairIsSafe | src/journal.rs:142-313 | a repair interrupted between rename and truncation recovers to the same state, and a finished one has nothing left to repair |
| Journals.AppendBeforeSnapshotIsLost | src/journal.rs:142-152 | a record without any snapshot makes recovery fail |
| Journals.DiskJournal.constructor | src/journal.rs:66-91 | the generation is the snapshot's, or 0 |
| Journals.DiskJournal.ReplaceSnapshotRecord | src/journal.rs:295-303 | only the snapshot changes |
| Journals.DiskJournal.ClearMutationLog | src/journal.rs:305-313 | only the log changes |
| Journals.DiskJournal.AppendRecord | src/journal.rs:255-278 | succeeds iff the sync does; otherwise nothing, a fragment or the whole line stays; a record behind a fragment is swallowed |
| Journals.DiskJournal.AppendSnapshot | src/journal.rs:280-371 | the new snapshot has the next generation and an empty log |
| Journals.DiskJournal.RecoverState | src/journal.rs:142-253 | the loop is the replay up to the first corrupt line of this generation, and a corrupt log is replaced by a snapshot of what was recovered |
| JournalHistories.ItemsReal | src/journal.rs:142-371 | what recovery rebuilds and what the live state holds are records that were written, each once, in order |
| JournalHistories.Fates | src/journal.rs:142-371 | for every record ever written: rebuilt iff no install follows and, if a compaction is first to clear the log, it was applied, else no fragment lay before it; and likewise for the live state |
| JournalHistories.AgreeIff | src/replica.rs:80-100 | recovery rebuilds exactly what the live state holds if and only if, since the log was last cleared, the records applied are exactly those with no fragment before them |
| Durability.StepKeepsInv | src/replica.rs:80-100 | every disk step, failed client append, crash, boot and repair step keeps files, live state and history in agreement |
| Durability.CrashSafety | src/journal.rs:142-253 | at any moment of any run, failed appends included, recovery applies exactly the records the history keeps, once each and in order, however often they were compacted; it fails exactly before the first snapshot with something in the log |
| Durability.SurvivesIff | src/journal.rs:142-371 | exactly which written records recovery rebuilds |
| Durability.LiveIsRefined | src/replica.rs:80-100 | the live state is what was applied, the gate has one holder, and recovery rebuilds the same, up to the one event in flight, if and only if no append since the log was last cleared failed after its line was complete and no record was swallowed |
| Durability.BootRestores | src/journal.rs:142-371 | boot, with or without repair, keeps what recovery rebuilds and brings the live state to exactly that |
| Durability.AcknowledgedUntilInstall | src/replica.rs:80-100 | an acknowledged record is lost if and only if an install follows it, or a fragment lay before it and no compaction was first to clear the log |
| Durability.RecoverableEverAfter | src/journal.rs:142-371 | once a snapshot is durable no later crash makes the files unrecoverable |
| JournalScenarios.CommittingAll | src/replica.rs:80-100 | any list of records can be committed without a failure, and then recovery and the live state are its application |
| JournalScenarios.SwallowedIsLost | src/journal.rs:255-278 | a run after which an acknowledged record is lost: it was written behind the fragment of a failed append |
| JournalScenarios.FailedSyncIsReplayed | src/journal.rs:255-278 | a run after which recovery rebuilds a record nobody acknowledged, before the acknowledged one |
| ReplicaJournals.StepReplays | src/journal.rs:142-253 | every step of the network changes a replica's set and markers exactly as replaying what the step makes it journal does |
| ReplicaJournals.ReplayIsLive | src/journal.rs:142-416 | over every run of the network, what a replica journals replays from its first state to the set and markers it holds |
| ReplicaJournals.EveryRunIsMirrored | src/replica.rs:80-100 | every run of the network has a commit-machine run in which each replica applies exactly what it journals, and there recovery gives the set and markers it holds |
| ReplicaJournals.RecoversReplica | src/journal.rs:342-353 | in every such run, whatever failures, crashes, compactions and repairs lie between, the live state is what the replica holds; recovery gives that, or that with the one event in flight, if nothing failed since the log was cleared, and other records if something did |
| ReplicaJournals.RestartIsRecovery | src/replica.rs:50-148 | a restart step of the network is what recovery and startup make of the journaled set and markers, and keeps both |
| ReplicaJournals.FailedSyncRenumbers | src/journal.rs:206-209 | a run after which the recovered replica has another delta under a dot it has already sent |
| ReplicaJournals.PanicIsDurable | src/replica.rs:373-377 | a group that trips the assertion replays to a panic, whatever is journaled after it |
| Views.View.constructor | src/db/view.rs:36-41 | an empty view with an empty index |
| Views.View.Insert | src/db/view.rs:66-82 | the key maps to the new value and the inverse index stays exact, without empty buckets |
| Views.View.RemoveByKey | src/db/view.rs:85-98 | the key is gone from map and index; the result tells whether it was there |
| Views.View.RemoveByValue | src/db/view.rs:101-107 | exactly the keys with that value are gone and the index stays exact |
| Views.View.RangeQuery | src/db/view.rs:121-126 | the values of a half-open range ascending, each with all its keys; a backward range panics |
| Views.View.MinK | src/db/view.rs:129-135 | the k lowest pairs ascending, all of them if there are fewer, nothing smaller left out |
| CompositeViews.CompositeView.constructor | src/db/composite_view.rs:64-71 | an empty view with empty indexes |
| CompositeViews.CompositeView.Insert | src/db/composite_view.rs:156-176 | a present key keeps its value; otherwise all three indexes gain exactly the new entry |
| CompositeViews.CompositeView.Remove | src/db/composite_view.rs:180-214 | map and all three indexes lose exactly the entry, with its bucket if that empties |
| CompositeViews.CompositeView.RemoveByKeyS | src/db/composite_view.rs:218-235 | exactly the entries with that first half go, and the count says how many |
| CompositeViews.CompositeView.RemoveByKeyU | src/db/composite_view.rs:239-256 | exactly the entries with that second half go, and the count says how many |
| CompositeViews.CompositeView.GetByKeyS | src/db/composite_view.rs:286-293 | the entries under a first half, ascending by value and then key, none iff there are none |
| CompositeViews.CompositeView.GetByKeyU | src/db/composite_view.rs:296-309 | the entries under a second half, once each; the lookup of the value never fails |
| CompositeViews.CompositeView.MinK | src/db/composite_view.rs:343-351 | the k lowest entries under a first half, ascending, nothing smaller left out |
| ZTables.ZTable.constructor | src/db/ztable.rs:35-40 | at least one shard, and an empty history |
| ZTables.ZTable.Insert | src/db/ztable.rs:62-72 | returns insertions minus removals of the key over the whole history |
| ZTables.ZTable.Remove | src/db/ztable.rs:75-88 | the same, possibly negative, and a key that comes down to weight 0 is in no shard |
| ZTables.ZTable.GetWeight | src/db/ztable.rs:90-95 | insertions minus removals, whatever the shard count and hash |
| ZTables.ZTable.Get | src/db/ztable.rs:108-118 | the last inserted value iff the weight is positive |
| ZTables.ZTable.IterAll | src/db/ztable.rs:98-105 | every key of positive weight once, with its last inserted value, and nothing else |
| Descriptors.NameRoundTrip | src/replica_helpers.rs:256-301 | every descriptor with a 128-bit pid and 64-bit counters, shut down or not, is read back from its printed form |
| Descriptors.PrintedParts | src/replica_helpers.rs:256-269 | a name has the fields pid, address, GC counter and, after shutdown, final counter, in this order, separated by commas |
| Descriptors.ParseIff | src/replica_helpers.rs:271-301 | a path is read as a descriptor if and only if it ends in three or four comma-separated fields that denote it, numbers within their widths; everything else is rejected |
| Descriptors.PathIs | src/replica_helpers.rs:246-249 | the object lies in the directory under its name, with one slash between, however many slashes the directory ends with |
| Descriptors.PathRoundTrip | src/replica_helpers.rs:245-301 | it is read back from its object path in any directory, however many slashes that ends with |

## Left out

- HTTP, sockets, object storage, timers and configuration: parameters or nondeterministic steps.
- Dynamic joins: the membership of a network run is fixed and every matrix starts with a row for every member.
- `validate_gc_membership` and the counters in membership names (`src/replica.rs:578-626`): they only decide whether a GC round goes through, so a round may be abandoned at any time.
- A restart in the network brings back what the replica held. A restart after a failed append brings back something else and may reuse dots, so the protocol theorems are about runs without one. Snapshots are written at bootstrap and by repairs only (`src/replica.rs:236-242`), when no peer has a row, so a restart has no rows but its own, row 0 and those the listing gives; the counters in the listing may be any.
- A failing append of the replica loop or of a snapshot panics under the journal's lock and poisons it (`src/journal.rs:355-402`): nothing is written any more, which is a crash as far as the files go. An operating system that drops written pages after a failed sync is not modelled.
- A mutation accepted between reading the shutdown payload and stopping the HTTP server (`src/replica.rs:665-714`): leaving is one step here, so the model has no such mutation.
- Liveness: that rounds are started, messages arrive or frontiers advance; `Exchanges` shows only that exchanges stay possible.
- Integer width of counters, generations and weights, except the saturating marker counter and the ranges of descriptors.
- `DotSet::cmp`, `is_concurrent_with` and `merge`: not used by the modelled operations.
- The bytes of the journal (JSON, checksums, fsync, locking) and a corrupt snapshot file: a line is a record, malformed or undecodable, and a rename is atomic.
- `DotSet` and `DotMap` are values inside the objects that own them, not classes: the program never shares them. The standard library's binary search is a recursive function.
- `len`, `to_vec`, `insert_values`, `get_keys_a`, `get_keys_b`, `query_a`, `query_b`, `map_reduce_active`, import and export to files: they would only add easy members.
- ProtocolTheorems.StrongConvergence: assumes that every merge of the run settled; without that it is false, as `Scenarios` shows.
- ProtocolTheorems.AddWins: under the same assumption.
- ReplicaJournals.RecoversReplica: for replicas whose state was not installed from object storage, as the network model starts from empty replicas, and for disk runs that apply what the network run journals; `ReplicaJournals.EveryRunIsMirrored` gives one for every network run.

# Paperboat helper: verified core

This project models the stateful core of the Paperboat helper and host service in Dafny and proves what that
code is for: whole-run invariants, crash safety, convergence and round trips. Run `dafny verify dfyconfig.toml`.
Every module is in the file of its name.

## What is modelled

1. **Terminal output** (`Events`, `Output*`). Output is cut into chunks with 64-bit sequence numbers, kept in a
   bounded window and shared through one ring of reference-counted chunks by attachments that hold only cursors.
   Classes with loops implement the window and the fan-out; a state machine over the critical sections of
   `fanout.mu`, with `opMu` as a phase, carries the invariant: every ring element is a tail of one captured chunk,
   every queue ends at a chunk boundary, and the ring covers what every cursor still has to read.
2. **Paired update** (`HostUpdate`, `UpdateOutcomes`, `UpdateManagerFiles`, `ReleaseVersion`). Every file operation of activation,
   rollback, recovery and finalisation is a step that may succeed, fail, or take effect and report failure; the
   process may stop between any two. A state machine interleaves whole runs of activations, stops and recoveries; the
   class runs the methods against a tape of outcomes and is proved to go through the machine's states. All rests
   on one fact: until the commit, what a rollback would put back is the old pair.
3. **Configuration sync** (`Paths`, `Reconcile`, `Convergence`, `Publisher`, `Workspace`, `PublicationHistory`,
   `ApplyJournal`, `ApplyRounds`, `Manifest`, `Snapshot`). The three-way plan and its baseline, many machines on one
   remote, the leased publication as a protocol against arbitrary answers that acts on the reconciler's records, the
   undo log over round after round of applying, the manifest and the pruned walk.
4. **Operation journal** (`OperationJournal`, `OperationRetention`, `OperationCallers`). Eviction, durable rows and
   crashes; how long rows last; and the callers that run a body, wait for it, or find it done.
5. **Trust store** (`TrustChain`). A signed chain of bundles folded into state and rebuilt on load.
6. **Wire formats** (`BigEndian`, `TerminalFrames`, `ZstdFrames`, `Streams`).

## Where the code meets less than one might expect

Each of these is proved, with the condition under which the stronger property holds.

- An update: a committed journal entry that reaches the disk although its write reports a failure
  (`LateCommitMixes`), a failed health check after the commit while exactly one `.rollback` file exists
  (`RevertIsPair`), and an activation of a manager that could not clean up (`StaleRollbackMixes`) leave a mixed pair.
  For the last one the exact condition is `Startable` (`StuckActivation`). `NeverMixed` and `RecoverRestores` hold for
  all runs without these events.
- A committed pair that is found unhealthy after the old one was given up stays, under the previous version
  (`RevertRecords`); a rollback that cannot record the old version or restart the worker still removes its journal
  (`ForgetsAnyway`).
- A start of the host service refuses a disk that recovery would repair, exactly when a binary is missing
  (`BootRecovers`, `BootBlocked`).
- Applying remote files is not always all or nothing: `Begin` accepts journals that no recovery can undo. They can be
  undone if and only if they are small enough to be read again, no listed name has a link above it, and none lies
  inside another (`Home.Recover`; `LargeFileRefused`, `LinkedNameRefused`, `NestedNamesRefused`), all of which is known
  before anything is applied. Undoing does not restore set-id and sticky bits (`AllBack`).
- Nor is it when a failed round cannot be undone at once: the failure is ignored and the next round writes its journal
  over the one that stands. Recovery gives back the tree before the first unfinished round as long as no journal is
  written while one stands (`FirstGivenBack`), in general if and only if that tree was still there when the standing
  journal was written (`RecoveryGives`), and otherwise never (`OverwritingLoses`, `OverwriteExample`). A journal that
  nobody overwrites is replayed at the next start over later edits (`ReplaysOverEdits`).
- A name that the manifest no longer manages is deleted from the repository even if somebody changed it
  (`ChangedValueDeleted`); only what equals the baseline is touched if and only if that holds of the abandoned names
  (`AbandonedUnseen`).
- A caller that waits for an operation may be told the outcome of an earlier row of the same id, but only if the
  entry it waits for was done and gone before the present row (`SameForAllCallers`).
- An announced publication with resolutions blocks every later reconciliation until its commit is the head, which may
  never happen (`AnnouncedBlocks`).
- A trust bundle whose write reports a failure after taking effect is absent from memory but present after a restart
  (`FailedPersist`, `ReloadExact`).
- The walk loses a file root below directories that nothing makes it enter (`ManifestWalkExact`).
- An event appended without a producer reference refers to a buffer that is already pooled, exactly when it does not
  fit the window by itself (`AppendCounted`).
- After a failed renewal the released lease is the one named in the renewal's answer (`UnderLease`).
- Output of 4 GiB and more may be sent with a wrapped length; the receiver refuses it (`WrappedRefused`).

## Model

| member | source | states |
|---|---|---|
| `Events.ReleaseSafe` | internal/history/history.go:59-68 | Dropping one reference keeps every counter equal to the number of references, and the buffer goes back to the pool exactly when none is left, never twice. |
| `Events.RetainAllSafe` | internal/history/history.go:52-57 | Retaining any readable slices keeps all counters exact and everything readable. |
| `Events.BufferPool.Acquire` | internal/history/history.go:144-160 | Hands out an owner that nobody uses, whether recycled or new, with the initial count. |
| `Events.BufferPool.DropRef` | internal/history/history.go:59-68 | The last release removes the owner and makes it available again; other releases only count down. |
| `OutputHistory.HistoryRefinesStream` | internal/history/history.go:144-198 | After any run of appends, clears and limit changes the window spells exactly `stream[earliest..latest]`, within its limit. |
| `OutputHistory.ReplayExact` | internal/history/history.go:215-253 | A gap error exactly below the window; otherwise exactly `stream[from..min(latest, from + limit)]`, to `latest` without a limit. |
| `OutputHistory.CompactKeeps` | internal/history/history.go:278-292 | Compaction drops whole chunks from the front, keeps the rest of the stream and meets the limit. |
| `OutputHistory.RetainedExactly` | internal/history/history.go:278-292 | A chunk survives compaction if and only if the output from its start on fits the window. |
| `OutputHistory.LastChunkKept` | internal/history/history.go:140-173 | A chunk survives its own append if and only if it fits the limit by itself. |
| `OutputHistory.AppendCounted` | internal/history/history.go:140-173 | The counter right after an append: taken without producer reference it is 0, the buffer already pooled, exactly when the chunk does not fit the limit by itself; with producer reference it is never 0. |
| `OutputHistory.ScanIsChain` | internal/history/history.go:112-131 | The wrapped 64-bit checks of a restore accept exactly the real chains of events. |
| `OutputHistory.History.Restore` | internal/history/history.go:112-131 | Succeeds exactly for a positive limit and a chain from `earliest` to `latest` that fits; the window then holds private copies. |
| `OutputHistory.History.Append` | internal/history/history.go:144-173 | New chunk with one or two references, window pushed and compacted, dropped chunks released; refused exactly on sequence overflow. |
| `OutputHistory.History.CompactLocked` | internal/history/history.go:278-292 | The loop computes `Compact` and releases exactly the chunks it drops, in order. |
| `OutputHistory.History.SetLimit` | internal/history/history.go:175-184 | A zero limit is refused without effect; otherwise the window is compacted to the new limit and exactly the dropped chunks are released. |
| `OutputHistory.History.Clear` | internal/history/history.go:186-198 | Releases every retained chunk and keeps the position. |
| `OutputHistory.History.ReplayOwned` | internal/history/history.go:215-253 | The loop returns exactly the replay of the window and retains exactly its slices. |
| `OutputRing.InsertIsMerge` | internal/session/fanout.go:304-323 | Inserting a tail of a chunk into the ring either finds it covered, or replaces the shorter tail of the same chunk, or adds it between its neighbours. |
| `OutputRing.InsertOk` | internal/session/fanout.go:304-323 | Insertion keeps the ring a sequence of disjoint, ordered tails of chunks. |
| `OutputRing.InsertCovers` | internal/session/fanout.go:304-323 | After insertion exactly the bytes covered before and those of the new event are covered. |
| `OutputRing.FindIsCover` | internal/session/fanout.go:296-302 | The search by end position finds an element exactly when a scan would find one holding the byte. |
| `OutputHub.EventAt` | internal/session/fanout.go:296-302 | In any ring the loop stops where binary search over the ends stops, and what it returns holds the byte. |
| `OutputHub.LocateIsFind` | internal/session/fanout.go:296-302 | Over increasing ends, as every session ring has, binary search finds what a linear scan finds. |
| `OutputHub.SortedInsertSorts` | internal/session/fanout.go:317-323 | Placing an element in a ring that is in order, ties included, gives an ordered permutation of the ring and the element. |
| `OutputHub.SessionRingSorted` | internal/session/fanout.go:296-323 | A ring of disjoint tails never nests elements: starts and ends both strictly increase, as search and sort need. |
| `OutputHub.Fanout.Attach` | internal/session/fanout.go:50-62 | Refused exactly for an empty id, a zero limit or an attached id; otherwise a fresh cursor, active. |
| `OutputHub.Fanout.Detach` | internal/session/fanout.go:64-80 | Removes the attachment and releases exactly the ring elements nobody needs any more. |
| `OutputHub.Fanout.Count` | internal/session/fanout.go:82-92 | The number of attachments in state Attached. |
| `OutputHub.Fanout.IsAttached` | internal/session/fanout.go:94-98 | The lock-free answer agrees with the map, an invariant every method keeps. |
| `OutputHub.Fanout.Status` | internal/session/fanout.go:278-290 | The state; for an attached id the distance from cursor to queue end, for an evicted one the bytes queued at its eviction. |
| `OutputHub.Fanout.InsertEvent` | internal/session/fanout.go:304-323 | Loop and recursion compute `Insert`, release what is replaced and retain what is kept. |
| `OutputHub.InsertShape` | internal/session/fanout.go:304-323 | Insertion keeps every ring of the fan-out in order, with elements that say their length right. |
| `OutputHub.Fanout.CompactLocked` | internal/session/fanout.go:325-354 | Minimum loop and drop loop remove exactly the leading elements no reading cursor needs. |
| `OutputHub.LowestCursor` | internal/session/fanout.go:325-341 | An element is needed by someone exactly when it ends after the computed minimum. |
| `OutputHub.Fanout.PublishOwned` | internal/session/fanout.go:105-141 | Refused exactly out of order; otherwise offered to all. Evicted, and reported with the bytes between cursor and queue end, are exactly the attached readers for which those bytes and the chunk exceed the limit. |
| `OutputHub.Fanout.EnqueueOwned` | internal/session/fanout.go:148-186 | First failing check, or queued; evicted exactly if what is between cursor and queue end and the event exceed the limit. |
| `OutputHub.Fanout.TryNext` | internal/session/fanout.go:199-276 | One look of WaitNextOwned or Next on any ring: the slice from the cursor to the end of its element, cursor and wrapped counter advanced, a reference or a copy; the counters stay right if the element ends within the queue. |
| `OutputHub.LookedIsPoll` | internal/session/fanout.go:199-276 | With increasing ends and an element within the queue, as in every session, that look is the one the session theorems speak of. |
| `OutputSession.AttachReplayEnds` | internal/session/manager.go:287-349 | `latest - replayLimit` never wraps, the final replay ends exactly at `latest`, fits the queue and starts at the request or at the bounded tail. |
| `OutputSafety.NextInv` | internal/session/manager.go:287-329 | Every step of capture, attach, read, release, detach and clear, in any order the locks allow, keeps the invariant of ring, cursors and references. |
| `OutputTheorems.StartInv` | internal/session/manager.go:1010-1082 | A new session and every session restored from a valid history satisfy the invariant. |
| `OutputTheorems.DeliveredExactly` | internal/session/fanout.go:199-276 | In every run an attachment has been given exactly `stream[origin..cursor]`; when it has nothing to read between operations it has been given everything. |
| `OutputTheorems.NextAlwaysFound` | internal/session/fanout.go:199-242 | In every run a reader is given output exactly if it is attached and its cursor is before its queue end; it is the next bytes of the stream, never more than was queued, and readers never see ErrOutputOrder. |
| `OutputTheorems.OperationsFit` | internal/session/manager.go:812-824 | A captured chunk is never refused by PublishOwned, and an attach is never refused or evicted while it is filled. |
| `OutputTheorems.CountersExact` | internal/history/history.go:52-68 | In every run each counter equals the references of ring, history, readers and running operation; of the buffers taken, exactly those without references are back in the pool and none is lost; every reference shows its bytes. |
| `OutputTheorems.RunEveryone` | internal/history/history.go:52-68 | The buffers in use or pooled after a run are those before it and those taken in it. |
| `OutputTheorems.Limits` | internal/session/fanout.go:50-141 | IsAttached agrees with the map, queued bytes are `end - cursor` within the limit, and between operations the ring holds less than one limit plus one chunk. |
| `OutputTheorems.AttachCompletes` | internal/session/manager.go:287-329 | An undisturbed attach from any retained position succeeds with exactly the output from its boundary to `latest` queued. |
| `OutputReaders.PublishReaches` | internal/session/fanout.go:105-142 | In every run: after a publication a reader is still attached if and only if what lay between its cursor and its queue end and the new chunk together fit its limit; its queue then ends where the output ends, and otherwise what it had not read is on record. Evicted readers stay as they are. |
| `OutputReaders.CaptureReaches` | internal/session/manager.go:812-826 | A whole capture: the output grows by exactly the bytes read, and exactly the readers with room for them have them queued. |
| `OutputReaders.OthersUntouched` | internal/session/fanout.go:105-302 | Output, its own reads, its detach and its own attach apart, no operation of the session changes anything about a reader; a detached one is gone. |
| `OutputReaders.AttachmentsBounded` | internal/session/manager.go:287-295 | In every run at most the configured number of readers is attached, and an idle session admits another one exactly if there are fewer and it asks for a position in the window. |
| `OutputReaders.AttachStarts` | internal/session/manager.go:287-349 | An uninterrupted attach of any unattached name starts where asked if at most 64 KiB and half its limit, but always one byte, lie behind, and otherwise exactly as far back as that allows. |
| `HostUpdate.ContinueInv` | internal/hostservice/update_unix.go:103-344 | Every single file step, with any outcome, keeps what recovery relies on. |
| `HostUpdate.NeverMixed` | internal/hostservice/update_unix.go:103-171 | Over every run with failures and stops anywhere: when the manager is ready the binaries are the old pair, or exactly after the commit the new pair with the old one as `.previous`. Excluded are only a late committed write, a reversion with a binary set aside, and activations of stuck states that are not startable. |
| `HostUpdate.RecoverRestores` | internal/hostservice/update_unix.go:298-344 | Stopped at any point, also inside earlier recoveries, one recovery puts back the old pair before the commit and keeps the new pair after it. |
| `UpdateOutcomes.RecoveredVersion` | internal/hostservice/update_unix.go:298-323 | Stopped anywhere, an undisturbed recovery ends with the version of a committed journal, and otherwise with the one it was started with. |
| `HostUpdate.ActivationInstalls` | internal/hostservice/update_unix.go:103-171 | When nothing fails the new pair is installed, the old one kept as `.previous`, and the version recorded. |
| `UpdateOutcomes.CommittedWasChecked` | internal/hostservice/update_unix.go:150-162 | Over every run, without exception: a pair is committed only if, since its activation began, the restart, then the health check, then the version record succeeded. |
| `UpdateOutcomes.SingleFailureUndone` | internal/hostservice/update_unix.go:103-162 | For every step before the commit: if it alone fails, or takes effect and reports a failure, the activation ends ready with the old pair and version; from the replacement on the rollback is counted, the old version recorded and the journal removed. Only a late commit is excepted. |
| `UpdateOutcomes.ChecksReached` | internal/hostservice/update_unix.go:147-158 | An undisturbed activation comes to restart, health check and record after fourteen, fifteen and sixteen steps. |
| `HostUpdate.BootRecovers` | internal/hostservice/update_unix.go:80-94 | A start of the service recovers exactly when both binaries exist. |
| `HostUpdate.BootBlocked` | internal/hostservice/update_unix.go:173-190 | Stopping between the two renames of a replacement leaves a state that recovery repairs but a start refuses. |
| `HostUpdate.LateCommitMixes` | internal/hostservice/update_unix.go:159-162 | If the committed entry is on disk although its write failed, a stop during the rollback and a healthy recovery leave a mixed pair. |
| `HostUpdate.RevertIsPair` | internal/hostservice/update_unix.go:306-310 | A failed health check after the commit leaves a pair if and only if both or neither of the `.rollback` files are still there. |
| `UpdateOutcomes.RevertRecords` | internal/hostservice/update_unix.go:306-310 | A committed pair found unhealthy at a start: what is set aside is put back, the previous version recorded, the journal removed, the rollback counted, and the start fails. |
| `UpdateOutcomes.ForgetsAnyway` | internal/hostservice/update_unix.go:260-266 | If recording the old version or restarting fails in a rollback, the journal is removed all the same, nothing is counted and the manager is stuck with the old binaries in place. |
| `UpdateOutcomes.DownloadsRemoved` | internal/hostservice/update_unix.go:122-131 | From any point of any activation on, if nothing more fails it ends and no downloaded file is left. |
| `UpdateOutcomes.StopUnstages` | internal/hostservice/update_unix.go:316-322 | After a stop between the first journal entry and the replacement, recovery removes both downloads. |
| `HostUpdate.StuckActivation` | internal/hostservice/update_unix.go:103-269 | Whatever fails in it, a late committed write apart, an activation of a stuck manager leaves no mixed pair if and only if the state is startable; with both binaries in place, if and only if no `.rollback` exists. |
| `HostUpdate.MixingRun` | internal/hostservice/update_unix.go:219-269 | From every stuck state that is not startable one failing operation, without a stop, ends ready with exactly one binary of the old pair. |
| `HostUpdate.StaleRollbackMixes` | internal/hostservice/update_unix.go:163-269 | From any start two failing operations and no stop lead to a ready manager with a mixed pair: finalising fails after the commit, and setting the worker aside fails in the next activation. |
| `HostUpdate.JournalLoads` | internal/hostservice/update_unix.go:346-367 | Every journal entry ever left on disk passes the version order check of loading, whatever fails. |
| `UpdateManagerFiles.UpdateManager.ReplaceBinary` | internal/hostservice/update_unix.go:219-241 | However it ends, the files are those of the machine after the same outcomes: both renames done, or at the start of a rollback, or stopped. |
| `UpdateManagerFiles.UpdateManager.Rollback` | internal/hostservice/update_unix.go:243-269 | The loop goes on after a failure; for every tape the files are those of the machine, which has returned to its caller or stopped. |
| `UpdateManagerFiles.UpdateManager.FinalizePrevious` | internal/hostservice/update_unix.go:325-344 | The loop stops at the first failure; for every tape the files are those of the machine, finalised or not. |
| `UpdateManagerFiles.UpdateManager.Activate` | internal/hostservice/update_unix.go:139-171 | For every tape: an old version is refused without effect, and the current one succeeds only if installed and committed; otherwise the files go through the machine's activation from download to removal. After a regular run a ready manager has a pair in place, the new one exactly when committed. |
| `UpdateManagerFiles.UpdateManager.Recover` | internal/hostservice/update_unix.go:298-323 | For every tape the files go through the machine's recovery; after a regular run success means the old pair before the commit and the new one, with the old one kept, after it. |
| `UpdateManagerFiles.UpdateManager.Prove` | internal/hostservice/update_unix.go:150-158 | Restart, health check and version record succeed in order, or the machine is at the start of its rollback. |
| `UpdateManagerFiles.UpdateManager.Switch` | internal/hostservice/update_unix.go:139-162 | Replacement, entries and checks up to the commit; every error has run the rollback. |
| `ReleaseVersion.CompareRelease` | internal/hostservice/update_unix.go:510-528 | The sign of the lexicographic order of the four numeric parts, missing parts being zero. |
| `ReleaseVersion.PrecedesIsOrder` | internal/hostservice/update_unix.go:510-528 | Release order is transitive, asymmetric and total up to equal parts. |
| `Reconcile.PlanReconciliation` | internal/configsync/reconcile.go:38-93 | The loop over the sorted names builds the plan that decides each path once. |
| `Reconcile.PlanLists` | internal/configsync/reconcile.go:38-93 | Every path is in exactly the list its decision names, so in at most one. |
| `Reconcile.PlanSorted` | internal/configsync/reconcile.go:52-93 | All plan lists are sorted without repetition, and conflicts carry the remote size and the reason. |
| `Reconcile.AcceptedBaseline` | internal/configsync/reconcile.go:95-128 | With writes the local files; otherwise what both sides agree on, and the previous ancestor elsewhere. |
| `Reconcile.FreezeConflicts` | internal/configsync/reconcile.go:138-146 | Exactly the conflicting paths get their previous ancestor back, or lose theirs. |
| `Reconcile.CompleteRound` | internal/configsync/workspace_reconciler.go:219-228 | A round under any mode and write setting: plan, carry out, record. |
| `Reconcile.RoundAchieves` | internal/configsync/reconcile.go:38-146 | Both sides and the baseline after a round under any mode and write setting, from the three sides alone: a side takes the other's value exactly if it equals the baseline and the machine pulls or pushes; when the sides then agree, exactly; the new baseline is what they agree on and elsewhere the old one. |
| `Reconcile.ConflictsExactly` | internal/configsync/reconcile.go:66-83 | Which conflicts are planned under any mode, with reason and size, from the three sides alone. |
| `Reconcile.NeverOverwrites` | internal/configsync/reconcile.go:38-93 | A round overwrites a value only if it still equals the baseline, only with the value of the other side, and touches no conflict. |
| `Reconcile.AbandonedUnseen` | internal/configsync/workspace_reconciler.go:219-237 | Names of the baseline that the manifest no longer manages are deleted from the repository unseen: a round changes there only what still equals the baseline if and only if the abandoned names do; with every name of the baseline managed there are none. |
| `Reconcile.ChangedValueDeleted` | internal/configsync/workspace_reconciler.go:229-237 | A value changed after the baseline is deleted with its abandoned name, and no conflict is reported. |
| `Reconcile.ReplanSettles` | internal/configsync/workspace_reconciler.go:431-447 | Planning again after a round gives exactly the same conflicts and nothing else to carry out, for every input, mode and write setting. |
| `Convergence.QuietRound` | internal/configsync/reconcile.go:38-136 | A machine without edits or pending conflicts never conflicts, changes nothing remotely and ends equal to the remote. |
| `Convergence.CleanRound` | internal/configsync/reconcile.go:38-136 | A round without conflict leaves the machine, its baseline and the remote equal. |
| `Convergence.UneditedNeverConflicts` | internal/configsync/reconcile.go:38-136 | In every run of rounds and edits: a machine not edited since its last clean round does not conflict, publishes nothing and ends its next round equal to the remote. |
| `Convergence.TwoPassesConverge` | internal/configsync/publisher.go:150-201 | Once edits stop, one full pass without conflict and one more, in any order, make all machines and the remote equal. |
| `Publisher.Sync` | internal/configsync/publisher.go:108-231 | For arbitrary answers: at most one publication, only under `MayPublish` and always followed up; every acquired lease released exactly once, at the end; every revision reconciled with or recorded was observed. It succeeds if and only if no answer was bad, and has then published exactly if every preparation had changes; otherwise error and result are those of the first bad answer. Success means that the stored baseline has the reported revision and nothing is pending. |
| `Publisher.Exchange.Ask` | internal/configsync/publisher.go:108-231 | A call that concerns the repository's records acts on the reconciler, which alone decides whether it succeeds and what is prepared, and whose state stays the replay of the trace; every other call leaves it alone. |
| `Publisher.FirstPass` | internal/configsync/publisher.go:108-140 | Pull and record without a lease, or go on with the fetched head; nothing is published or released. |
| `Publisher.Push` | internal/configsync/publisher.go:195-231 | After a cleared publication: journal, publish once, then record, abort or observe. |
| `Publisher.Resolve` | internal/configsync/publisher.go:203-230 | A landed publication is recorded, a failed one aborted, an unclear one observed on the remote. |
| `Publisher.UnderLease` | internal/configsync/publisher.go:142-231 | Between acquire and release nothing is released, and the lease variable is the last answer of acquire or renew, even of a failed renewal. |
| `Publisher.Verify` | internal/configsync/publisher.go:150-159 | Goes on exactly if the head fetched again is the one that was leased. |
| `Publisher.BeforeRenewal` | internal/configsync/publisher.go:150-173 | Goes on only with the leased head fetched again and a publication prepared for it. |
| `Publisher.Confirm` | internal/configsync/publisher.go:175-193 | Goes on to publish exactly if the lease lasts beyond the margin, the machine is authorised and the head is the same. |
| `Publisher.AfterRenewal` | internal/configsync/publisher.go:175-201 | Publishes only with a renewed lease before expiry minus margin, authorised, on the same head. |
| `Workspace.Reconciler.PublicationCommitted` | internal/configsync/workspace_reconciler.go:739-775 | For every interruption the new state is `Confirmed`; success means that the stored baseline has that revision and nothing is pending. |
| `Workspace.ConfirmedExactly` | internal/configsync/workspace_reconciler.go:739-775 | A landed publication is recorded exactly if it is the pending one, its commit is the head and no operation fails; then the stored baseline is the pending one, exactly its resolutions are acknowledged, nothing is pending and with resolutions no commit file is left. Otherwise it stays pending. |
| `Workspace.Reconciler.PublicationPrepared` | internal/configsync/workspace_reconciler.go:777-793 | For every interruption the new state is `Announced`: the resolution commit of the pending baseline is written, or a commit that is not pending is refused. |
| `Workspace.AnnouncedExactly` | internal/configsync/workspace_reconciler.go:777-793 | A publication is announced exactly if it is the pending one and its commit file, needed only for resolutions, is written; nothing else changes. |
| `Workspace.Reconciler.PublicationAborted` | internal/configsync/workspace_reconciler.go:795-809 | For every interruption the new state is `Aborted`: exactly the resolution commit of that publication is removed. |
| `Workspace.AbortedUnblocks` | internal/configsync/workspace_reconciler.go:795-809 | After an abort the next reconciliation gets past it whatever the head is; the commit file of another publication is never removed. |
| `Workspace.Reconciler.RecoverResolutionCommit` | internal/configsync/workspace_reconciler.go:811-840 | For every interruption the new state is `Recovered`: an announced publication is completed exactly when its commit is the head. |
| `Workspace.Reconciler.AcknowledgeAll` | internal/configsync/workspace_reconciler.go:756-764 | Acknowledges in order until interrupted, each with the commit. |
| `Workspace.Reconciler.Reconcile` | internal/configsync/workspace_reconciler.go:107-114 | Recovers first, then drops the pending baseline, and ends with the one that takes effect once its commit has landed. |
| `Workspace.BaselineFirst` | internal/configsync/workspace_reconciler.go:746-766 | Nothing is acknowledged before the baseline stands that carries it; success acknowledges everything. |
| `Workspace.StopRepaired` | internal/configsync/workspace_reconciler.go:739-840 | Wherever recording a landed publication with resolutions stops, or if it never begins, the next reconciliation on that head ends exactly where an uninterrupted recording would have. |
| `Workspace.PublicationRecorded` | internal/configsync/workspace_reconciler.go:739-826 | Reconciled from any state, announced, landed and recorded: the stored baseline is that of the accepted files under the commit that landed. |
| `Workspace.LandedIsRecorded` | internal/configsync/workspace_reconciler.go:739-840 | With resolutions, an announced publication that has landed is recorded by the next start, wherever the process stopped. |
| `Workspace.AnnouncedBlocks` | internal/configsync/workspace_reconciler.go:811-826 | A reconciliation gets past an announced publication if and only if its commit is the head; on every other head it changes nothing. |
| `PublicationHistory.StoredWasHead` | internal/configsync/publisher.go:108-231 | Over every sequence of attempts, stopped anywhere or not, in one process or several: the revision of the stored baseline and every acknowledged commit was reported as head before. |
| `PublicationHistory.SyncOnce` | internal/configsync/publisher.go:108-231 | One attempt on a reconciler keeps all that grounded, and success stores the reported revision. |
| `PublicationHistory.SyncAgain` | internal/configsync/publisher.go:108-231 | The same for the running code on one reconciler, however often it synchronises and whatever it is answered. |
| `PublicationHistory.StepGrounded` | internal/configsync/workspace_reconciler.go:739-840 | Each call keeps that, if the revisions it names were reported before. |
| `ApplyJournal.Home.Begin` | internal/configsync/apply_journal.go:31-85 | Records every name once, sorted, as `Lstat` sees it, over any journal that stands; refuses exactly unsafe names, directories, absolute links, names below a file, and more content than the limit, and then leaves a standing journal alone. |
| `ApplyJournal.AcceptedExactly` | internal/configsync/apply_journal.go:31-85 | Where no link is above a listed name: accepted exactly if every name is safe, under every name there is nothing, a file or a relative link, nowhere a file above one, and the files are within the limit. |
| `ApplyJournal.Home.RestoreEntry` | internal/configsync/apply_journal.go:117-165 | Writes one entry back, as the function `PutBack` says for every number of steps; refused exactly when something above the name is no directory or the name is one. |
| `ApplyJournal.Home.RestoreAll` | internal/configsync/apply_journal.go:109-113 | The loop puts the entries back from the last to the first, up to the first failure. |
| `ApplyJournal.Home.EnsureParent` | internal/configsync/apply_journal.go:167-190 | Creates exactly the missing directories above a name; refused exactly when something above it is a link or a file. |
| `ApplyJournal.Home.Recover` | internal/configsync/apply_journal.go:87-115 | From any state that applying or interrupted recoveries can leave: with enough steps it completes if and only if the journal is at most the limit plus 1 MiB, no listed name has a link above it, and none lies inside another; otherwise it never does. On success every entry is back; interrupted it can be repeated. |
| `ApplyJournal.Home.Touch` | internal/configsync/workspace_reconciler.go:388-404 | Any change of a listed name, and the directories made for it, keep the standing journal able to undo everything since it was written. |
| `ApplyJournal.AllBack` | internal/configsync/apply_journal.go:109-165 | After recovery the listed names are as before, exactly so if and only if no recorded file had set-id or sticky bits; elsewhere there are at most new directories that lead to listed names. |
| `ApplyJournal.LargeFileRefused` | internal/configsync/apply_journal.go:69-95 | For every limit above 3 MiB a file of that size is accepted, and its journal, with the content in base 64, is refused by every recovery. |
| `ApplyJournal.LinkedNameRefused` | internal/configsync/apply_journal.go:54-78 | In every tree a name below a link is recorded as what lies behind the link, and refused by every recovery. |
| `ApplyJournal.LinkedNameExample` | internal/configsync/apply_journal.go:54-78 | The smallest such tree: `a` is a link and `a/b` is listed. |
| `ApplyJournal.NestedNames` | internal/configsync/apply_journal.go:36-60 | Of two accepted names one inside the other, the outer one is missing or a link: a file with a name below it is refused at once. |
| `ApplyJournal.NestedNamesRefused` | internal/configsync/apply_journal.go:36-60 | Two missing names one inside the other are recorded, and refused by every recovery. |
| `ApplyRounds.RecoveryGives` | internal/configsync/workspace_reconciler.go:368-410 | In every run of rounds, failures, ignored recoveries, stops and starts: while a journal stands a recovery with enough steps completes if and only if the journal is recoverable, and then gives back the tree before the first unfinished round if and only if that was still the tree when the standing journal was written. |
| `ApplyRounds.FirstGivenBack` | internal/configsync/workspace_reconciler.go:368-410 | If no journal is written while one stands, recovery gives back the tree before the first unfinished round. |
| `ApplyRounds.OverwritingLoses` | internal/configsync/workspace_reconciler.go:374-391 | From every point of every run at which a journal stands whose names have no links above them and do not nest: with its first name changed and another journal written over it, no recovery ever gives back the tree before the first unfinished round, whatever follows. |
| `ApplyRounds.OverwriteExample` | internal/configsync/workspace_reconciler.go:374-410 | The smallest such run: applying `a` fails, undoing it fails and is ignored, the next round applies `b` and finishes; `a` stays changed and no journal is left. |
| `ApplyRounds.ReplaysOverEdits` | internal/configsync/workspace_reconciler.go:97-103 | A journal left standing is replayed at the next start over whatever its names were changed to since. |
| `ApplyRounds.NextInv` | internal/configsync/workspace_reconciler.go:368-410 | Every step of every run keeps the standing journal a description of the tree it was written over. |
| `ApplyRounds.ApplyRound` | internal/configsync/workspace_reconciler.go:374-410 | The bracket of a round, with any changes, failures and steps left for undoing, goes through the machine's states; it succeeds exactly if it was accepted, applied and its journal removed. |
| `ApplyRounds.StartAgain` | internal/configsync/workspace_reconciler.go:97-103 | A start is the machine's restart: it succeeds exactly when what was left is undone. |
| `Paths.DeduplicatePaths` | internal/configsync/apply_journal.go:192-200 | On sorted input: strictly increasing, with the same names. |
| `Manifest.ParseInclude` | internal/configsync/manifest.go:161-203 | Fails exactly on an unsafe line; the roots are strictly sorted, none covered by another, and select exactly what the lines select. |
| `Manifest.LinesMean` | internal/configsync/manifest.go:162-184 | What lines mean, in their characters: comments and empty lines nothing, a line its name, a line with a final slash its name and every name it begins. |
| `Manifest.CollectLines` | internal/configsync/manifest.go:166-184 | One entry per name, a directory exactly if some line says so. |
| `Manifest.DropRedundant` | internal/configsync/manifest.go:190-203 | The kept roots cover all roots, come from them, and none covers another. |
| `Paths.IncreasingUnique` | internal/configsync/reconcile.go:215-220 | Strictly sorted names: a set has only one such list. |
| `Paths.SplitJoin` | internal/configsync/manifest.go:135 | The components of a joined name are those it was joined from. |
| `Snapshot.PruningLosesNothing` | internal/configsync/snapshot.go:66-84 | For every tree the pruned walk finds what a full walk filtered by the rules finds, in the same order. |
| `Snapshot.PruningExact` | internal/configsync/manifest.go:148-159 | Under rules whose exclusions reach everything below: pruning is exact for all trees if and only if every managed file root has its directories entered. |
| `Snapshot.ManifestWalkExact` | internal/configsync/manifest.go:120-159 | For the rules of any parsed manifest and policy: over all trees the pruned walk finds exactly the files that the manifest's lines select and nothing excludes, if and only if every managed file root has its directories entered. |
| `Snapshot.SelectedIs` | internal/configsync/manifest.go:125-131 | Selecting by the components of roots is selecting by the manifest's strings. |
| `Snapshot.RulesClosed` | internal/configsync/policy.go:52-72 | The exclusions of every policy reach everything below. |
| `Snapshot.ShortRootsReachable` | internal/configsync/manifest.go:148-159 | Directory roots and file roots of one component meet that condition. |
| `Snapshot.NothingUnaccounted` | internal/configsync/snapshot.go:84-138 | The batch limit holds and every selected file is taken or listed as skipped. |
| `Snapshot.TakenOrJustified` | internal/configsync/snapshot.go:84-138 | Every file is taken as it is if it is fit and still fits the batch, and otherwise listed with a reason that is true of it. |
| `Snapshot.AllTaken` | internal/configsync/snapshot.go:84-138 | If all files are fit and together fit the batch, exactly they are taken and none is skipped. |
| `Snapshot.TakeManifestSnapshot` | internal/configsync/snapshot.go:33-84 | Refused exactly when a root lies behind a link; otherwise the snapshot fits the batch and is that of the pruned walk under the rules of roots and policy; nothing without roots. |
| `Snapshot.ValidateRoots` | internal/configsync/snapshot.go:142-167 | The nested loops with their early ends refuse exactly when some root has a link above it or is the root of a directory and a link itself. |
| `Snapshot.RefusedExactly` | internal/configsync/snapshot.go:142-167 | Walking down to a root meets a link exactly when the list of all files of the tree holds a link that hides the root. |
| `Snapshot.SnapshotOfLines` | internal/configsync/snapshot.go:33-84 | From the include lines to the snapshot: refused exactly on an unsafe line or when a link of the tree hides a root; if every managed file root is reached, exactly what the lines select and nothing excludes is taken, in the order of a full walk. |
| `Snapshot.WalkDirectory` | internal/configsync/snapshot.go:66-138 | The recursive walk takes what it visits in order. |
| `Snapshot.MandatoryExcluded` | internal/configsync/policy.go:52-72 | Loops over excluded roots and over the name and its ancestors. |
| `Snapshot.ExclusionClosed` | internal/configsync/policy.go:52-72 | Everything below an excluded name is excluded, for any patterns. |
| `Paths.InsideIsPrefix` | internal/configsync/manifest.go:125-131 | The string prefix test with a slash is the prefix test on components. |
| `OperationJournal.NextInv` | internal/operation/journal.go:117-200 | Every step of every caller, failure, stop and start keeps the invariant. |
| `OperationJournal.OneRunPerRow` | internal/operation/journal.go:151-180 | In every run a body starts no more often than a row for its id was inserted. |
| `OperationJournal.NeverRunsAgain` | internal/operation/journal.go:117-200 | While its row is retained an operation is never started again, not after a crash, an eviction or another request. |
| `OperationRetention.RunOnceInTime` | internal/operation/journal.go:151-180 | From a call that is told to run: whatever happens, stops and starts included, until a clock reaches the retention time the row is there and the body starts at most once. |
| `OperationRetention.ResultInTime` | internal/operation/journal.go:181-188 | From the writing of a result the row and its result are there for the retention time, and the body is not started again. |
| `OperationRetention.RowTime` | internal/store/store.go:740-800 | In every reachable state and for every step: exactly the rows whose time is over go, and only when rows are deleted; a row lasts the retention time from its insertion and again from its result. |
| `OperationRetention.ForgottenAfter` | internal/store/store.go:789-800 | A start at or after the end of a row's time forgets it, and the next call runs again. |
| `OperationRetention.ToldExactly` | internal/operation/journal.go:125-180 | What every call is told in every reachable state, from entries, rows and clock alone. |
| `OperationRetention.EvictsNoMore` | internal/operation/journal.go:139-143 | Completed entries are dropped from the oldest on, and no more than make room for one. |
| `OperationRetention.StartKnows` | internal/operation/journal.go:51-88 | After a start every answered row is known in memory, completed with its outcome or uncertain. |
| `OperationJournal.OnlyFreshCallsRun` | internal/operation/journal.go:126-180 | A call runs only when no row existed; another request for a known id conflicts and never runs. |
| `OperationJournal.RowStays` | internal/operation/journal.go:117-200 | While its row is retained neither its request nor the result of its run changes, over every run. |
| `OperationJournal.OtherRequestRefused` | internal/operation/journal.go:126-180 | While the row is retained another request for the same id never runs and is never given an outcome, at any later point. |
| `OperationJournal.EntriesStay` | internal/operation/journal.go:139-150 | Entries never exceed the maximum, entries in progress are never evicted, completed ones never change. |
| `OperationJournal.EmptyInv` | internal/operation/journal.go:90-95 | An empty store and no process satisfy the invariant that all runs keep. |
| `OperationJournal.Journal.constructor` | internal/operation/journal.go:51-88 | Loading the answered rows: pending ones uncertain and not evictable, completed ones in order. |
| `OperationJournal.Journal.Enlist` | internal/operation/journal.go:125-177 | The first critical section as a whole, with every answer. |
| `OperationJournal.Journal.MakeRoom` | internal/operation/journal.go:139-143 | The eviction loop. |
| `OperationJournal.Journal.Insert` | internal/store/store.go:740-757 | Insert or look at the existing row, with conflict, pending and completed rows. |
| `OperationJournal.Journal.Settle` | internal/operation/journal.go:189-199 | The second critical section: outcome visible, evictable only if it was saved. |
| `OperationCallers.RunnerAndWaitersAgree` | internal/operation/journal.go:125-200 | In every run of concurrent calls, bodies, writes, evictions, stops and starts: whoever ran the body of an entry or waited for it and is told an outcome is told what that one body answered, even if the entry was evicted or replaced before the caller woke up. |
| `OperationCallers.SameForAllCallers` | internal/operation/journal.go:117-200 | While the row of an id is retained, the runner, the waiters, later callers and those who find only the row are all told the result of its one run; excepted are only callers waiting since before for an entry that was already done and gone. |
| `OperationCallers.WaitersServed` | internal/operation/journal.go:131-137 | In every run the entry of a waiting caller is done, or its body is under way with a known runner: nobody waits for nothing. |
| `OperationCallers.EveryoneReturns` | internal/operation/journal.go:131-200 | A caller whose entry is done wakes with exactly what is found there, and whoever runs a body returns with what was saved when the entry is closed. |
| `OperationCallers.NextInv` | internal/operation/journal.go:117-200 | Every move of every caller keeps what entries, waiters and returns have in common. |
| `OperationCallers.WorldMoves` | internal/operation/journal.go:117-200 | Every move is one step of the journal's machine or none, so its theorems hold with callers too. |
| `TrustChain.ReloadExact` | internal/update/trust.go:49-80 | Reloading under a clock that does not go back rebuilds the state in memory if and only if the file holds exactly its envelopes. |
| `TrustChain.FailedPersist` | internal/update/trust.go:160-170 | A failed persist leaves the memory unchanged; if it took effect all the same, the next start has the bundle. |
| `TrustChain.RunStricter` | internal/update/trust.go:108-170 | Over every run the store always loads, the generation never decreases, revocations only grow and an active key remains. |
| `TrustChain.RevokedNeverAnswered` | internal/update/trust.go:92-100 | Over every run, failing writes and restarts included, a key id once revoked is never answered again, and some key always is. |
| `TrustChain.AnswersLatest` | internal/update/trust.go:92-106 | Over every run the store answers exactly for the keys of its latest bundle that this bundle does not revoke, and exactly its versions are revoked. |
| `TrustChain.AcceptedExactly` | internal/update/trust.go:108-158 | When an envelope changes the store, in terms of the keys it answers for and the fields of the bundle. |
| `TrustChain.AcceptedOnce` | internal/update/trust.go:122-126 | A bundle that took effect is accepted in no later state of any run. |
| `TrustChain.StepStricter` | internal/update/trust.go:108-170 | The state changes only by a bundle signed by a key trusted and unrevoked just before, with a strictly larger generation. |
| `TrustChain.ChainSigned` | internal/update/trust.go:49-80 | In a loaded chain every envelope was signed by a key its predecessors left trusted and unrevoked. |
| `TrustChain.NextInv` | internal/update/trust.go:108-170 | Every apply and restart keeps memory and file consistent. |
| `TrustChain.CumulativeSet` | internal/update/trust.go:220-236 | Accepts exactly values without empties or repetitions that include all previous ones. |
| `TrustChain.TrustStore.ApplyLocked` | internal/update/trust.go:108-170 | Accepts exactly admissible signed bundles; on any refusal or failed write the state is as before. |
| `TrustChain.TrustStore.CheckBundle` | internal/update/trust.go:122-158 | Answers the new values exactly for admissible bundles. |
| `TrustChain.TrustStore.Load` | internal/update/trust.go:49-80 | Succeeds exactly when the whole file replays, with that state. |
| `TrustChain.TrustStore.Lookup` | internal/update/trust.go:92-100 | Answers the key of `KeyOf`, of which that is proved. |
| `TerminalFrames.InputRoundTrip` | internal/protocol/terminal_v1.go:136-157 | A frame encodes to a message if and only if the message decodes to the frame. |
| `TerminalFrames.AckRoundTrip` | internal/protocol/terminal_v1.go:312-332 | The same for acknowledgements. |
| `TerminalFrames.ResizeRoundTrip` | internal/protocol/terminal_v1.go:334-356 | The same for resizes. |
| `TerminalFrames.RawRoundTrip` | internal/protocol/terminal_v1.go:99-206 | The same for raw output. |
| `TerminalFrames.AdaptiveRoundTrip` | internal/protocol/terminal_v1.go:208-240 | With any lossless compressor and for all data: output arrives if and only if it is sendable, and unchanged; below 4 GiB nothing else is even sent. |
| `TerminalFrames.CompressedExactly` | internal/protocol/terminal_v1.go:208-229 | Output is compressed exactly from 1024 bytes on if that saves 32 bytes and a twentieth; a message is never longer than raw. |
| `TerminalFrames.WrappedRefused` | internal/protocol/terminal_v1.go:208-262 | From 4 GiB on the declared length wraps, and whatever is sent then is refused by the receiver. |
| `TerminalFrames.StoredIsLossless` | internal/protocol/terminal_v1.go:242-262 | Lossless compressors with acceptable frames exist: one raw block. |
| `TerminalFrames.EncodeOutputInto` | internal/protocol/terminal_v1.go:159-180 | Filling the given buffer or a larger one yields the encoded message; a refused frame leaves the buffer alone. |
| `ZstdFrames.ZstdFrameSize` | internal/protocol/terminal_v1.go:278-310 | The loop ends and never leaves the payload. |
| `ZstdFrames.FrameSizeIsChain` | internal/protocol/terminal_v1.go:278-310 | The size is n exactly when the bytes up to n are a chain of blocks as in section 3.1.1.2 of RFC 8878 with the last one marked, plus the checksum. |
| `Streams.WriteFull` | internal/nativeproto/nativeproto.go:134-146 | Everything is written, or an error is reported and only a beginning was. |
| `Streams.PrefaceRoundTrip` | internal/nativeproto/nativeproto.go:38-78 | A stream reads as a preface exactly when it begins with that preface as written. |
| `Streams.RecordRoundTrip` | internal/nativeproto/nativeproto.go:80-122 | The same for one record, typed or not. |
| `Streams.RecordsRoundTrip` | internal/nativeproto/nativeproto.go:80-122 | A stream reads as a sequence of records exactly when it is their concatenation. |
| `Streams.WriteRecords` | internal/nativeproto/nativeproto.go:107-146 | Records written through a writer that takes part of each write read back as the same sequence. |
| `Streams.BinaryRoundTrip` | internal/protocol/binary.go:28-86 | A stream reads as a binary frame exactly when it begins with that frame as written. |
| `Streams.WriteBinaryFrame` | internal/protocol/binary.go:65-100 | Refused without writing exactly for a bad channel, size or sequence; otherwise header and data, or a failed write. |
| `BigEndian.GetPut` | internal/protocol/terminal_v1.go:136-157 | Reading a fixed-width number gives back what was put. |
| `BigEndian.PutGet` | internal/protocol/terminal_v1.go:148-157 | Putting a number that was read gives back the same bytes. |

## Left out

- Transport, HTTP, enrolment, command line, service control and metrics: plumbing around the modelled core.
- Cryptography, JSON, ignore patterns, glob matching, the zstd library, git and chezmoi: arbitrary functions. Of the apply journal's file only a lower bound of its length is used.
- Persisting terminal output, session lifecycle and restart of sessions.
- Blocking and wake-up of `WaitNextOwned`: the model has the critical section that delivers, not the waiting.
- The version record after a crash recovery that keeps the new pair, and the downloads that a crash before the first journal entry leaves behind.
- File ownership and symlink checks, except where an entry cannot be put back.
- Reconcile.CompleteRound: text merges, conflict resolutions and forced paths are absent, and so are rounds aborted after the local apply; the deletion of names that the manifest no longer manages is in Reconcile.AbandonedUnseen and not part of the convergence of many machines.
- Workspace.Reconciler.Reconcile: what planning and applying come to (success, commit, files, resolutions) is an input; planning is in Reconcile, applying in ApplyJournal.
- UpdateManagerFiles.UpdateManager.Activate: the signatures of the manifests are not modelled.
- OutputHub.Fanout.InsertEvent: `sort.Slice` after the append is represented by placing the element in the ordered ring; `SortedInsertSorts` states why that is the same, up to the order of elements with equal extent.
- OutputHub.Fanout.PublishOwned: evictions are a map, because the source reports them in the order of a map iteration.
- ApplyJournal.Home.Begin: what lies behind a link is an input, also when that is inside the home directory; names come without surrounding blanks; devices, pipes and sockets do not occur. Names and link targets are valid UTF-8: others are accepted by the code but changed when the journal is written as JSON, and recovery would then write another name and report success. The journal belongs to the same repository and assignment.
- ApplyJournal.Home.Touch: below a link nothing in the tree changes, because what lies behind it is not part of the tree.
- ApplyRounds.ApplyRound: edits by other programs between rounds occur at the names of the standing journal only; a step of undoing that fails for another reason than a refusal is one for which no budget is left.
- Manifest.ParseInclude: lines come trimmed, and the checks on a name are one arbitrary predicate.
- Snapshot.SnapshotOfLines: names in the tree and accepted names have non-empty components, and no directory holds a name twice; a backslash is an ordinary character.
- Snapshot.TakeManifestSnapshot: errors of the file system while looking or reading, and a home directory that is relative, missing or a link, are not modelled.
- Snapshot.MandatoryExcluded: the patterns are one arbitrary predicate on a name; names outside the home directory do not arise.
- OperationJournal.Journal.constructor: the query may answer any rows up to the limit, not only pending ones first.
- Publisher.Sync: contexts, timeouts and the lease duration are not modelled; the clock is one of the answers.

# Crash recovery of the Serein Kernel installer

The installer places, replaces, hands over, retires and rolls back files on a live host, and is meant to
survive a stop at any instruction. This project models its hand-written recovery protocols and proves what
they keep.

## How to read it

Everything happens in a small world: names bound to inodes, atomic link, rename and unlink, a journal that is
replaced as a whole, and other actors who may act at every pause. Objects that the source updates in place are
classes, with the source's own methods. Two devices make a promise cover every stop:

- A class keeps a ghost history of its durable operations, each with the state before and after it. A stop
  at any instruction is one of these states, or one of them after others acted, so a property of all recorded
  states is crash safety.
- A guard, an observation or a system call may raise, nondeterministically. Where a theorem says when a
  protocol succeeds, it counts these refusals and says what happens when there were none.

| file | subject |
|---|---|
| `wrappers.dfy` | a value that may be missing |
| `posix_paths.dfy` | components and normal form of a path text |
| `file_world.dfy` | names, inodes, link sets, rename |
| `first_install.dfy` | the first-install store, its invariant, and why each operation keeps it |
| `first_install_transaction.dfy` | the rollback |
| `first_install_placement.dfy` | retaining originals, staging, publishing and sealing |
| `first_install_run.dfy` | a whole install, with its order and its handlers |
| `first_install_recovery.dfy` | whole runs: any stop, any number of reruns, other actors' files |
| `input_preparation.dfy` | copies of the canonical inputs, before the signed intent |
| `input_transition.dfy` | three pairs of inputs under a seven-phase journal, the live road and the recovery road |
| `lifecycle_ownership.dfy` | the owner of one construction: cleanup stack and nonce ledger |
| `lifecycle_nesting.dfy` | the nested lifecycle contexts |
| `whole_run.dfy` | one governed run and the compensation it allows |
| `native_allocation.dfy` | the drop-in directory and unit restart of the native allocation |
| `native_allocation_runs.dfy` | its runs: what is removed and stopped, which stops rollback refuses |
| `retirement_targets.dfy`, `retirement.dfy`, `retirement_runs.dfy` | retirement of an installed Kernel |
| `dependencies.dfy` | the unit dependency graph: collector and coverage check |
| `heartbeat.dfy` | the Operations heartbeat window and its recheck |
| `worker_policy.dfy` | the option parser of the native worker |
| `preflight.dfy` | the manifest collector and its verifier |

## What the code does that one might not expect

- The `finally` block of the first-install `atomic` removes the staging name by name. As long as the staged
  inode has that name, others cannot take it. After the rename that replaces a retained original the name is
  free, and what another actor puts there before the sweep is unlinked. Over every recorded run a step takes a
  foreign name exactly then (`ForeignNameIsTakenIff`), so never in a plan that replaces nothing
  (`NothingReplacedNothingTaken`); `FirstInstallRecovery.SweptForeignFile` is such a run.
- A first-install rollback is stopped by nothing but a refusing boundary or system call, or a foreign file at
  the staging name of a replaced row. Every other denial in it is unreachable from a state that install or
  rollback leaves.
- A record that `atomic` creates, and does not replace, has two links from its link to the unlink of its staging
  name, and every reader refuses two links. A process killed in between leaves an input transition that no later
  `resume` accepts: at the intent, at the first state file, and at the final state file of a recovery that found
  none; and likewise at each of the four records of the preparation. `resume` accepts every other stop
  (`ResumeIff`, `RefusedStopIff`, `RefusedStopsAreReached`, `EveryRecordCanBeRefused`).
- `KernelSuccessorInputs.restore` that raises at its entry check leaves the object usable: a later restore may
  rename. After a raise past that check nothing more is done: the object is stuck exactly when this call changed
  a name (`Restore`).
- `verify` does not look at one slot of the receipt and one of the request: the archive slot before the pair's
  restore, the staging slot after it. It accepts exactly the layout of the phase, up to these two slots
  (`LayoutIsVerifyAndTwoSlots`, `VerifyOverlooksTwoSlots`), and `restore` renames onto the archive slot
  (`RestoreKeepsWhatItFindsIff`). While both objects of each pair are conserved it pins the layout.
- `rollback_native_allocation` also refuses after a stop between the unit start and the record of its
  incarnation, and after a stop or a start that left the unit neither running nor stopped.
- A native rollback that is itself stopped is completed by the next one only before its first removal and
  before its restart, or after RESTORED is recorded (`RerunCompletesIff`, `RefusedFromTheRemovalOn`), even where
  no drop-in was ever made (`UnrecordedRestartIsRefused`). And where the unit's start was recorded but not
  accepted, the record of the request to restore alone makes the next rollback refuse the running unit, because
  the exception for such a unit asks for the earlier phase (`RequestOverUnacceptedStartIsRefused`).
- A preparation that was stopped while the payload was placed, with the owner record alone, can be resumed and
  retained, once the selector directory is there (`OwnerRecordAloneIsReached`, `RetainAfterStop`).
- The native configuration is linked and its staging file dropped by name. A file that others put at that name
  is unlinked, and this is the only way in which a file goes that was not staged or recorded
  (`ForeignFileIsTakenIff`, `NativeAllocationRuns.SweptForeignFile`).
- With no start recorded, the unit is stopped some records after it was last observed. If others restart it
  in between their incarnation is stopped, and no untied one is stopped otherwise (`UntiedStopIff`,
  `StoppedForeignUnit`). A recorded start is observed again right before the stop.
- The owner's cleanups also run when something raises after the witness is linked, so the old runtime may come
  back then; such a run is always reported as witness uncertainty (`Execute`).
- A release built from the collected rows is accepted by the verifier exactly when some path is not a test
  and the stored manifest is at most 1 MiB (`CollectThenVerify`): the collector has no such limit.

## Assumptions

- Inode numbers and unit incarnations are not reused. Digests and encodings are injective; a content stands
  for its digest. Signatures are authentic.
- Between two operations other actors may do anything to their own inodes and to free public names, but
  nothing to the names and contents of the transaction's inodes and nothing inside root-private directories.
  In `native_allocation.dfy` and `retirement.dfy` they may do anything at all, unless a theorem says otherwise.
- Others do not act between a check and the operation that directly follows it without a pause: the
  replacing rename, the unlink after a second identity check, the stop of a unit whose start is recorded.
- Nothing else acts on the canonical inputs or in the root-private selector while inputs are prepared, published
  or restored.
- If others replace the drop-in directory itself, the sweep of the staging file acts on the detached directory,
  outside the model.
- The verification of the predecessor before its restart accepts no payload with files of the new generation.
- Opening the directories of an exchange and its first rename (kernel_first_install_runner.py:6153-6157) do not
  raise; a rename that raises would change no name and leave the object stuck.
- A random staging name is unused: the sixteen random bytes of `atomic` and of the native configuration never hit
  a name that exists, which their `finally` would unlink.
- The host identity, the predecessor witness, the runtime access rule and file ownership checks are part of
  the boundary, which may refuse at any time.

## Model

| member | source | states |
|---|---|---|
| `FileWorld.RenameLinks` | sfos/kernel/install/kernel_first_install.py:881 | A rename moves one link: the source's inode loses the source name and gains the destination; an inode that held the destination loses that link; other inodes keep theirs. |
| `FileWorld.RenameOfTwinLinksKeepsBoth` | sfos/kernel/install/kernel_first_install.py:869-871 | Renaming onto another link of the same inode changes nothing, so a rollback that renamed the retained link over its own original would leave both links; the code unlinks instead. |
| `FirstInstall.OrderIsThePlacedRows` | sfos/kernel/install/kernel_first_install.py:843 | The install order holds exactly the rows that are not preserved, each target once. |
| `FirstInstall.InterferenceKeepsSafe` | sfos/kernel/install/kernel_first_install.py:772-782 | Whatever other actors do at a pause, a state that can be rolled back stays one. |
| `FirstInstall.CreateKeepsSafe` | sfos/kernel/install/kernel_first_install.py:218-220 | Staging a new inode under an unused name endangers no row. |
| `FirstInstall.IntentKeepsSafe` | sfos/kernel/install/kernel_first_install.py:774-778 | The write-ahead record makes the staged inode the next row's claim and keeps every row recoverable. |
| `FirstInstall.LinkKeepsSafe` | sfos/kernel/install/kernel_first_install.py:225-227 | The exclusive link publishes the staged inode at a free target and keeps every row recoverable. |
| `FirstInstall.ReplaceKeepsSafe` | sfos/kernel/install/kernel_first_install.py:228 | The replacing rename leaves the original with exactly its retained link and the staged inode with exactly the target, and keeps every row recoverable. |
| `FirstInstall.RetainKeepsSafe` | sfos/kernel/install/kernel_first_install.py:748-749 | The second hard link gives the original exactly the target and the retained name. |
| `FirstInstall.ReleaseKeepsSafe` | sfos/kernel/install/kernel_first_install.py:869-872 | Dropping the retained link while the target is the original leaves the original exactly its target. |
| `FirstInstall.ReinstateKeepsSafe` | sfos/kernel/install/kernel_first_install.py:876-882 | Renaming the retained link over the staged inode puts the original back with one link and leaves the staged inode none. |
| `FirstInstall.UnlinkTargetKeepsSafe` | sfos/kernel/install/kernel_first_install.py:896-901 | Unlinking the claimed inode at its target removes that link only and keeps every row recoverable. |
| `FirstInstall.InterferenceKeepsRestored` | sfos/kernel/install/kernel_first_install.py:857-918 | Once everything is restored, other actors cannot undo it. |
| `FirstInstallTransaction.Transaction.AcceptJournal` | sfos/kernel/install/kernel_first_install.py:808-853 | The order checks accept every journal that an interrupted install or rollback leaves, and hand on its custody and what was already undone. |
| `FirstInstallTransaction.Transaction.RemoveOwned` | sfos/kernel/install/kernel_first_install.py:892-901 | One candidate name of a formerly absent row loses the claimed inode and nothing else; a different inode there is left alone; only a refusal stops it. |
| `FirstInstallTransaction.Transaction.ReleaseRetained` | sfos/kernel/install/kernel_first_install.py:869-873 | The original ends with its target as only link; no other owned inode changes links. |
| `FirstInstallTransaction.Transaction.Reinstate` | sfos/kernel/install/kernel_first_install.py:874-883 | The original is back at its target with one link and the staged inode has none. |
| `FirstInstallTransaction.Transaction.UndoReplaced` | sfos/kernel/install/kernel_first_install.py:859-889 | One replaced row is undone: original at its target with one link, staged inode unlinked; it stops only for a refusal or a foreign file at its staging name. |
| `FirstInstallTransaction.Transaction.UndoEntry` | sfos/kernel/install/kernel_first_install.py:857-902 | One custody entry is undone and its target appended to the completion record, unless the record covers it already; what was undone before stays so. |
| `FirstInstallTransaction.Transaction.UndoAll` | sfos/kernel/install/kernel_first_install.py:856-902 | The reverse loop undoes every custody entry; a completed loop leaves none ahead and a full completion record in reverse order. |
| `FirstInstallTransaction.Transaction.ReleaseAll` | sfos/kernel/install/kernel_first_install.py:908-916 | After the loop the last retained links go, and every target is restored. |
| `FirstInstallTransaction.Transaction.Rollback` | sfos/kernel/install/kernel_first_install.py:803-918 | From any safe state with a journal: completion means every target restored and the journal ROLLBACK_COMPLETE; a denial is a refusal or a foreign staging file; from a restored state no name changes; the history stays safe at every step. |
| `FirstInstallTransaction.Transaction.UndoJournalled` | sfos/kernel/install/kernel_first_install.py:808-918 | The body of the rollback, from the accepted journal to the completion record, keeps the same promises. |
| `FirstInstallTransaction.InterferenceIsTransitive` | sfos/kernel/install/kernel_first_install.py:772-782 | What other actors may do at two pauses they may do at one. |
| `FirstInstallTransaction.InterferenceGoesForward` | sfos/kernel/install/kernel_first_install.py:857-918 | Other actors cannot take back what a rollback achieved: entries undone stay undone, restored targets restored, custody as it was. |
| `FirstInstallTransaction.CompletionFollowsTheReverse` | sfos/kernel/install/kernel_first_install.py:853-902 | The target of the entry being undone is recorded exactly when the completion prefix already covers it, and appending it keeps the prefix. |
| `FirstInstallPlacement.PreservedUnchangedHolds` | sfos/kernel/install/kernel_first_install.py:695-719 | preserved_unchanged never fails while the transaction's own inodes are left alone. |
| `FirstInstallPlacement.SealedIsVerified` | sfos/outpost/install/kernel_first_install_runner.py:2214-2292 | A sealed store with every row placed passes the checks on targets, retained originals, preimages with one link each, and journal order that accept an installation. |
| `FirstInstallPlacement.Stage` | sfos/kernel/install/kernel_first_install.py:218-223 | The inode is staged under a fresh name and its custody is journalled before it can reach the target. |
| `FirstInstallPlacement.Publish` | sfos/kernel/install/kernel_first_install.py:224-229 | The staged inode reaches the target by exclusive link or over its retained original; a denial is a refusal or a foreign file at a formerly absent target. |
| `FirstInstallPlacement.Sweep` | sfos/kernel/install/kernel_first_install.py:230-234 | Afterwards the staging name is gone and owned inodes lose nothing but that link. If it still was the transaction's own, it still is when it is unlinked, whatever others did; a freed name is unlinked whoever holds it by then. |
| `FirstInstallPlacement.Place` | sfos/kernel/install/kernel_first_install.py:772-782 | One row is placed and recorded: custody and completion grow by it, all placed rows stay placed, all others stay ready. |
| `FirstInstallPlacement.RetainOriginal` | sfos/kernel/install/kernel_first_install.py:744-750 | One original gets its preimage copy and its second link; the rows before it keep theirs. |
| `FirstInstallPlacement.Prepare` | sfos/kernel/install/kernel_first_install.py:741-753 | The journal begins empty and every replaced row ends retained and ready. |
| `FirstInstallRun.GroupOfGrouped` | sfos/kernel/install/kernel_first_install.py:597 | Selecting a branch from the rows grouped by branch gives back that group. |
| `FirstInstallRun.PlacementOrder` | sfos/kernel/install/kernel_first_install.py:783-788 | Placing generated files first and then branch by branch is placing in receipt order, preserved targets skipped. |
| `FirstInstallRun.PlaceAll` | sfos/kernel/install/kernel_first_install.py:783-788 | All rows are placed in order, with custody and completion the whole order; a failure is a refusal or a collision. |
| `FirstInstallRun.Close` | sfos/kernel/install/kernel_first_install.py:789-797 | The closing checks pass and the sealed installation is the one that verification accepts. |
| `FirstInstallRun.Install` | sfos/kernel/install/kernel_first_install.py:652-801 | Installed means verified material; a failed preparation that was cleaned leaves the captured prestate; a failed placement begins one rollback, which restores the targets or is itself stopped by a refusal or a foreign staging file. Without a refusal it is installed, or rolled back because of a collision. |
| `FirstInstallRun.CleanUp` | sfos/kernel/install/kernel_first_install.py:754-771 | The handler of a failed preparation removes the second links, every copy after its exact check, and the journal; cleaned means the captured prestate again: targets restored, no private name left, no journal. |
| `FirstInstallRecovery.CaptureIsWhereInstallStarts` | sfos/kernel/install/kernel_first_install.py:309-347 | A state that the capture accepts, with nothing of the transaction in it, is one that install may start from: distinct targets have distinct originals. |
| `FirstInstallRecovery.AnyStopIsSafe` | sfos/kernel/install/kernel_first_install.py:741-797 | A stop at any step of a recorded run, followed by any interference, leaves a state that can be rolled back. |
| `FirstInstallRecovery.RollbackAfterStop` | sfos/kernel/install/kernel_first_install.py:803-918 | A new process after any stop: completion restores every target and leaves the journal complete; from an already restored state no name changes; a denial is a refusal or a foreign staging file. |
| `FirstInstallRecovery.RollbackThroughStops` | sfos/kernel/install/kernel_first_install.py:803-918 | Any number of rollbacks by new processes, each finished or killed before or after any of its steps, each starting from what others made of that: when the last completes, or an earlier one did, every target is restored, the present ones on their original inodes with no other link; a completing one leaves the journal complete; every run after a completed one changes no name. |
| `FirstInstallRecovery.OneRollback` | sfos/kernel/install/kernel_first_install.py:803-918 | One process of that chain, finished or killed anywhere, leaves a state that the next can start from, and a restored one if it finished or started restored. |
| `FirstInstallRecovery.RestoredTargetsAreOriginal` | sfos/kernel/install/kernel_first_install.py:857-918 | In a restored state every present target is its original inode, with no other link. |
| `FirstInstallRecovery.ForeignFilesSurvive` | sfos/kernel/install/kernel_first_install.py:210-234 | Through every step of install and rollback a foreign inode keeps its content, and its names unless the step is the sweep that directly follows a replacing rename, and the name is the one this rename freed. |
| `FirstInstallRecovery.ForeignNameIsTakenIff` | sfos/kernel/install/kernel_first_install.py:228-233 | Over every run of install and rollback, a step takes a name from a foreign inode exactly when the step before was the rename over a retained original and the sweep found the freed staging name taken. |
| `FirstInstallRecovery.NothingReplacedNothingTaken` | sfos/kernel/install/kernel_first_install.py:224-233 | A run whose plan replaces nothing takes no name from another actor. |
| `FirstInstallRecovery.SweptForeignFile` | sfos/kernel/install/kernel_first_install.py:216-233 | That happens: a whole recorded run from the captured prestate of one replaced target, whose last step unlinks another actor's file. |
| `InputTransition.VerifyPinsTheLayout` | sfos/outpost/install/kernel_first_install_runner.py:5697-5866 | With both objects of each pair in exactly one place, verify accepts exactly the one layout of its phase. |
| `InputTransition.LayoutIsVerifyAndTwoSlots` | sfos/outpost/install/kernel_first_install_runner.py:5697-5866 | Whatever the places hold, the layout of the phase is exactly what verify accepts with one slot of receipt and of request empty: the archive slot before the restore of that pair, the staging slot after it. |
| `InputTransition.VerifyOverlooksTwoSlots` | sfos/outpost/install/kernel_first_install_runner.py:5719-5745 | In every phase, for receipt and for request, verify accepts the layout with a foreign object added in that slot. |
| `InputTransition.RestoreKeepsWhatItFindsIff` | sfos/outpost/install/kernel_first_install_runner.py:6151-6173 | Where verify accepts before a restore, the first rename of the pair keeps every object exactly when its archive slot is empty. |
| `InputTransition.LaidOutIsAccepted` | sfos/outpost/install/kernel_first_install_runner.py:5791-5866 | verify accepts the layout that each phase prescribes. |
| `InputTransition.LocateFinds` | sfos/outpost/install/kernel_first_install_runner.py:5480-5489 | In every state a stop can leave, the location search finds each object in the one place that holds it. |
| `InputTransition.ReturnIsProgress` | sfos/outpost/install/kernel_first_install_runner.py:5564-5577 | Archiving the new object and then bringing the old one home finds both destinations empty, passes only through recoverable states and ends returned. |
| `InputTransition.GuessIsRight` | sfos/outpost/install/kernel_first_install_runner.py:5383-5386 | resume guesses the place of the new source tree correctly in every state a stop can leave. |
| `InputTransition.SuccessorInputs.WritePhase` | sfos/outpost/install/kernel_first_install_runner.py:5671-5684 | A phase is recorded only over its own layout; a raise marks the object uncertain and leaves the old or the new record, the first one possibly with two links, as the last step. |
| `InputTransition.SuccessorInputs.RecordIntent` | sfos/outpost/install/kernel_first_install_runner.py:6061-6062 | The intent is linked and then settled, and both are steps; a raise leaves it absent, with two links as the last step, or settled; success leaves a live object. |
| `InputTransition.SuccessorInputs.Record` | sfos/outpost/install/kernel_first_install_runner.py:5671-5684 | A first state file is linked and then settled, a later one is replaced; two links are left only by a first one, as the last step, and with a raise. |
| `InputTransition.SuccessorInputs.Exchange` | sfos/outpost/install/kernel_first_install_runner.py:6067-6072 | Two renames into empty places: the live object steps aside and the other takes its place; the other pairs do not move. |
| `InputTransition.SuccessorInputs.Publish` | sfos/outpost/install/kernel_first_install_runner.py:6062-6114 | Done means the published layout and record; a raise past the first record leaves the object stuck; a call in a later phase raises without an effect. |
| `InputTransition.SuccessorInputs.PublishPair` | sfos/outpost/install/kernel_first_install_runner.py:6064-6114 | One pair is exchanged and its phase recorded; a raise anywhere in it leaves the object uncertain. |
| `InputTransition.SuccessorInputs.Restore` | sfos/outpost/install/kernel_first_install_runner.py:6143-6201 | Done from a publication means the restored layout and record; a stuck object raises without a rename; from PUBLISHED a raise leaves the object stuck exactly when this call changed a name. |
| `InputTransition.SuccessorInputs.RestorePair` | sfos/outpost/install/kernel_first_install_runner.py:6151-6200 | One pair is returned and its phase recorded; a raise anywhere in it leaves the object uncertain. |
| `InputTransition.SuccessorInputs.RestoreInterrupted` | sfos/outpost/install/kernel_first_install_runner.py:5555-5603 | After resume from any recoverable state, done means all pairs returned and RESTORED recorded with one link; a denial means that something raised. |
| `InputTransition.SuccessorInputs.ReturnPair` | sfos/outpost/install/kernel_first_install_runner.py:5557-5581 | One pair comes home from wherever the stop left it, through empty destinations, and the other pairs stay. |
| `InputTransition.SixObjectsStay` | sfos/outpost/install/kernel_first_install_runner.py:5480-5603 | Through every recorded step of publish, restore and recovery each of the six objects is in exactly one place. |
| `InputTransition.RenameKeepsTheObject` | sfos/outpost/install/kernel_first_install_runner.py:6069-6197 | Every rename finds its destination empty and changes the place of one object only. |
| `InputTransition.RecoverAfterStop` | sfos/outpost/install/kernel_first_install_runner.py:5383-5603 | A new owner after a stop at any recorded step, of any process: accepted on this road exactly when the intent is there with one link and the state file, if there is one, has one; and then completion has the three old objects at the live paths, the three new ones archived and RESTORED recorded, and a denial means that something raised. |
| `InputTransition.ResumeIff` | sfos/outpost/install/kernel_first_install_runner.py:5307-5471 | Over every state a stop can leave, resume accepts, reading both records with one link, guessing the new source and locating all six objects, exactly with both records settled. |
| `InputTransition.RefusedStopIff` | sfos/outpost/install/kernel_first_install_runner.py:5307-5471 | Over every run, the step after which resume refuses is exactly the link of a record whose staging link then stayed, once the intent is on disk. |
| `InputTransition.RefusedStopsAreReached` | sfos/outpost/install/kernel_first_install_runner.py:6061-6063 | Three refused stops, each at the end of recorded operations: of publish from before the intent, twice, and of a recovery that resume accepted. |
| `InputPreparation.Preparation.PrepareFile` | sfos/outpost/install/kernel_first_install_runner.py:5868-5884 | A member is created once and written to its full content; at every stop it is a prefix and nothing else changed. |
| `InputPreparation.Preparation.Fill` | sfos/outpost/install/kernel_first_install_runner.py:5876-5880 | The file is created and written in pieces until nothing is left; at every stop it is a prefix. |
| `InputPreparation.Preparation.PrepareTree` | sfos/outpost/install/kernel_first_install_runner.py:5886-5896 | Every file of the tree is copied completely and nothing outside the tree changes. |
| `InputPreparation.Preparation.PrepareCopies` | sfos/outpost/install/kernel_first_install_runner.py:6036-6041 | All six single-file copies are complete and everything else is kept. |
| `InputPreparation.Preparation.PrepareAll` | sfos/outpost/install/kernel_first_install_runner.py:6034-6041 | Both trees and all six copies are complete: the captured old inputs under the predecessor names, the captured new ones under the candidate and the staged names; otherwise something raised. |
| `InputPreparation.Preparation.WriteIntent` | sfos/outpost/install/kernel_first_install_runner.py:6057-6061 | The intent is linked over the complete copies of the captured inputs and then settled; the preparation check refuses what is left exactly when the intent kept two links. |
| `InputPreparation.Preparation.Retain` | sfos/outpost/install/kernel_first_install_runner.py:6119-6141 | restore in preparation, with the intent on disk or not, adds the retained record and nothing else, or finds it; without a raise it succeeds exactly when the preparation check accepts the state, the selector is there and no unknown retained record is. |
| `InputPreparation.StoppedPreparation` | sfos/outpost/install/kernel_first_install_runner.py:5898-5980 | Every recorded stop has both trios as captured, and every copy a prefix of the captured input of its name. |
| `InputPreparation.Preparation.CreateRecord` | sfos/kernel/install/kernel_first_install.py:218-234 | A record is linked beside its staging name and then settled, and both are steps; a raise leaves it absent, with two links as the last step, or settled. |
| `InputPreparation.Preparation.Prepare` | sfos/outpost/install/kernel_first_install_runner.py:5982-6010 | The owner record is created beside the external inputs, before any payload, and nothing else changes. |
| `InputPreparation.Preparation.PlacePayload` | sfos/outpost/install/kernel_first_install_runner.py:6570 | The payload installer makes the selector with files of its own, or raises before that. |
| `InputPreparation.Preparation.Begin` | sfos/outpost/install/kernel_first_install_runner.py:6012-6033 | The preparation record is created over the owner record in a selector with no other record and no member; without a raise it succeeds exactly then. |
| `InputPreparation.VerifyIff` | sfos/outpost/install/kernel_first_install_runner.py:5918-5976 | Over every state a stop can leave, the preparation check accepts exactly with the owner record there and no record that it reads having two links. |
| `InputPreparation.ResumeIff` | sfos/outpost/install/kernel_first_install_runner.py:5303-5471 | Over every such state, resume accepts exactly with the owner record there and no record with two links, but for a retained record beside an intent, which it does not read. |
| `InputPreparation.AcceptedRecordsAreSigned` | sfos/outpost/install/kernel_first_install_runner.py:5898-5976 | What preparation check or resume accepts has the captured trios and, in every record it reads, the signed bytes with one link. |
| `InputPreparation.RefusedStopIff` | sfos/outpost/install/kernel_first_install_runner.py:5303-5434 | Over every run, the step after which resume refuses is exactly the link of a record whose staging link then stayed. |
| `InputPreparation.EveryRecordCanBeRefused` | sfos/outpost/install/kernel_first_install_runner.py:5986-6061 | From any captured state and for each of the four records, a run of the preparation leads to a stop with two links of that record, and resume refuses it. |
| `InputPreparation.RetainAfterStop` | sfos/outpost/install/kernel_first_install_runner.py:6119-6141 | A new owner after any stop without an intent is refused exactly when the owner record is absent or a record has two links; otherwise, and unless something raises, the preparation ends retained exactly when the selector is there. |
| `InputPreparation.OwnerRecordAloneIsReached` | sfos/outpost/install/kernel_first_install_runner.py:6353-6592 | From any captured state, runs lead to the owner record alone, without the selector and with it, and resume accepts both. |
| `LifecycleOwnership.Owner.ReserveObservation` | sfos/outpost/install/kernel_first_install_runner.py:3210-3224 | Accepted exactly when the owner is open, every id and nonce is given, and none occurs twice in the requests or in any earlier reservation; a denial changes nothing. |
| `LifecycleOwnership.Owner.RetainObservation` | sfos/outpost/install/kernel_first_install_runner.py:3225-3237 | Accepted exactly when the reservation is pending and the bytes are new; it spends that one reservation on those bytes. |
| `LifecycleOwnership.Owner.ExpectedObservation` | sfos/outpost/install/kernel_first_install_runner.py:3265-3268 | Returns exactly the requests reserved for the bytes while open, and always denies after the close. |
| `LifecycleOwnership.Owner.Retain` | sfos/outpost/install/kernel_first_install_runner.py:3282-3285 | A cleanup is retained on top of the stack exactly while the owner is open. |
| `LifecycleOwnership.Owner.Abort` | sfos/outpost/install/kernel_first_install_runner.py:3289-3301 | Unwinds once: all cleanups return in reverse order, or it stops at the first that raises and never goes past it; a second abort changes nothing. |
| `LifecycleOwnership.Owner.Unwind` | sfos/outpost/install/kernel_first_install_runner.py:3295-3301 | The popping loop runs a reversed prefix of the retained cleanups, all of them when none raises. |
| `LifecycleOwnership.Owner.Commit` | sfos/outpost/install/kernel_first_install_runner.py:3302-3306 | Closes the owner without running a cleanup. |
| `LifecycleOwnership.NotYetUsed` | sfos/outpost/install/kernel_first_install_runner.py:3218-3222 | The check against the two sets is disjointness from every reservation ever made. |
| `LifecycleOwnership.NothingReservedTwice` | sfos/outpost/install/kernel_first_install_runner.py:3210-3224 | Over everything an owner ever reserved, no id and no nonce occurs twice. |
| `LifecycleOwnership.ReservationKeepsLedger` | sfos/outpost/install/kernel_first_install_runner.py:3222-3224 | Over all calls no id or nonce is reserved twice and pending reservations are unspent. |
| `LifecycleOwnership.RetentionKeepsLedger` | sfos/outpost/install/kernel_first_install_runner.py:3232-3237 | Each reservation is spent on at most one byte string. |
| `LifecycleOwnership.PrerequisitesCleanedLast` | sfos/outpost/install/kernel_first_install_runner.py:3295-3301 | A prerequisite's cleanup begins only after every cleanup retained later has returned. |
| `LifecycleOwnership.CleanupsRunOnce` | sfos/outpost/install/kernel_first_install_runner.py:3289-3301 | No cleanup begins twice. |
| `LifecycleNesting.Nest` | sfos/outpost/install/kernel_first_install_runner.py:4579-4597 | In every nesting the cleanup is retained before the phase starts; it succeeds exactly when nothing raised; a failure settles the owner or started nothing more. |
| `LifecycleNesting.CompleteLifecycle` | sfos/outpost/install/kernel_first_install_runner.py:4579-4610 | It commits exactly when nothing raised, with Authority, Operations, Interface, a replaced runtime's companion and the resident model started in this order and nothing cleaned up; otherwise a prefix of these was started and the owner unwound completely or stopped at a raising cleanup. |
| `LifecycleNesting.FailureStopsEverything` | sfos/outpost/install/kernel_first_install_runner.py:4605-4607 | After a failure with no raising cleanup every started phase was stopped, and each prerequisite after its dependants. |
| `WholeRun.Run.PublishWitness` | sfos/outpost/install/kernel_first_install_runner.py:159-210 | The witness name is linked exactly when the call returns or raises uncertainty; before the link the exception is ordinary; the log says in each case what happened. |
| `WholeRun.Run.Finalize` | sfos/outpost/install/kernel_first_install_runner.py:6675-6732 | Success means the witness is linked; the publication is recorded as possibly complete exactly when it is linked. |
| `WholeRun.Run.ObserveLifecycle` | sfos/outpost/install/kernel_first_install_runner.py:4579-4610 | Success means the runtime attempt, if it is replaced, and then the finished observations, and nothing else. |
| `WholeRun.Run.CleanUp` | sfos/outpost/install/kernel_first_install_runner.py:4605-4607 | A handler begins; without a fault in it an attempted runtime is restored and the original exception stays; with a fault before the runtime it stays unrestored and the log shows the fault. |
| `WholeRun.Run.PublishInputs` | sfos/outpost/install/kernel_first_install_runner.py:6062-6114 | Success means intended and published; a raise before the intent leaves the inputs captured, one after it not. |
| `WholeRun.Run.PublishFirst` | sfos/outpost/install/kernel_first_install_runner.py:6062-6114 | Success means no fault, and exactly the intent and the publication in the log if there are successor inputs; without these the inputs stay captured. |
| `WholeRun.Run.ReturnInputs` | sfos/outpost/install/kernel_first_install_runner.py:6116-6201 | Published inputs are restored, captured ones stay; without a fault it succeeds exactly from these two; a raise in the exchanges leaves them uncertain. |
| `WholeRun.Run.Compensate` | sfos/outpost/install/kernel_first_install_runner.py:6757-6847 | Never rolls back after the witness may be visible or over an unproven runtime; in every other case, unless something raises, it rolls the payload back and then returns published inputs. |
| `WholeRun.Run.PlacePayload` | sfos/outpost/install/kernel_first_install_runner.py:6570 | The installer ends with the payload in place, or raises with the predecessor's files back or with a stopped rollback. |
| `WholeRun.Run.UndoPayload` | sfos/outpost/install/kernel_first_install_runner.py:6824-6825 | The rollback ends complete, or raises before it began or stopped in it. |
| `WholeRun.Run.RestartAfterFailure` | sfos/outpost/install/kernel_first_install_runner.py:4934-4970 | The predecessor restarts only if it was told to stop, nothing was published, no new file is in place and the inputs are back; and then it does, unless something raises. |
| `WholeRun.Run.Execute` | sfos/outpost/install/kernel_first_install_runner.py:6204-6848 | A run succeeds exactly without a fault, and then its log is placement, publication of successor inputs, for a complete request the runtime attempt if it is replaced and the finished observations, and last the witness. An unpublished failure after placement reaches the compensating handler once; after a stopped rollback there is no witness, no restored input and no restarted predecessor; a failed run whose last handler met no fault has the predecessor restarted where that is allowed; uncertainty is reported exactly with a possible publication or uncertain inputs; only then may the runtime come back after the witness. |
| `WholeRun.CompensationIsOrdered` | sfos/outpost/install/kernel_first_install_runner.py:6757-6848 | Over every run: no payload rollback, complete or stopped, no input restore and no predecessor restart after the witness is linked; a rollback after a runtime attempt has a proven restore in between; an input restore or a predecessor restart after a placement or a stopped rollback has a complete rollback in between. |
| `WholeRun.FaultsStopEffects` | sfos/outpost/install/kernel_first_install_runner.py:6733-6847 | Over every run: after a fault nothing is done until a handler takes over, and the predecessor restarts only after an intended input transition was restored. |
| `NativeAllocation.Transaction.CreateDirectory` | sfos/kernel/install/offline_ollama_transaction.py:1522-1527 | The request is recorded, then the directory is made and recorded; with no one near success leaves the recorded empty directory and a stopped unit, and every stop is one that install may leave. |
| `NativeAllocation.Transaction.CreateConfiguration` | sfos/kernel/install/offline_ollama_transaction.py:1430-1458 | The configuration is staged under an unused name, recorded, linked by that name, and the name dropped. With no one near, success means the recorded inode is linked with its expected content and no staging file is left, and every stop is one that install may leave. |
| `NativeAllocation.Transaction.LinkStaged` | sfos/kernel/install/offline_ollama_transaction.py:1449-1452 | The exclusive link goes by name to a free configuration name; with no one near it links the recorded inode and changes nothing else. |
| `NativeAllocation.Transaction.StartConfigured` | sfos/kernel/install/offline_ollama_transaction.py:1529-1557 | The unit is started once, and the start may leave it neither running nor stopped; done means accepted by the ownership check; every stop is one that install may leave. |
| `NativeAllocation.Transaction.AcceptIncarnation` | sfos/kernel/install/offline_ollama_transaction.py:1532-1557 | The accepted incarnation is the recorded one; every stop is one that install may leave. |
| `NativeAllocation.Transaction.InstallBody` | sfos/kernel/install/offline_ollama_transaction.py:1508-1557 | Every stop of install with no one else near is in the described set; nothing is touched before the stop request; a drop-in is asked for only after a check saw the unit stopped and none there. |
| `NativeAllocation.Transaction.Install` | sfos/kernel/install/offline_ollama_transaction.py:1486-1566 | Done means accepted by the ownership check; with no one near and no fault it is done, with the configuration linked, nothing else in the directory and a new incarnation running; a failure past the first effect begins one rollback; a compensated failure that ends RESTORED has no drop-in and a running unit; every step is recorded with its effect. |
| `NativeAllocation.Transaction.Rollback` | sfos/kernel/install/offline_ollama_transaction.py:1627-1706 | With no fault and no one near it completes exactly from what its entry checks accept, from any state; from a stop of install that is exactly the states that are not refused, and then every stop of its own is in the described set; completion means drop-in gone and unit running; a completed rollback repeated does nothing. With others near too it acts only on a drop-in that a check saw owned, and is done only after one saw it gone. |
| `NativeAllocation.Transaction.RemoveAndRestart` | sfos/kernel/install/offline_ollama_transaction.py:1679-1706 | With no fault and no one near, removal and restart complete exactly when the ownership check passes. |
| `NativeAllocation.Transaction.FinishUntouched` | sfos/kernel/install/offline_ollama_transaction.py:1646-1656 | Where the unit was never touched only records change, after a check that saw no drop-in; with no one near and no fault it is done. |
| `NativeAllocation.Transaction.StopObserved` | sfos/kernel/install/offline_ollama_transaction.py:1669-1678 | A recorded start is observed again before the stop; success means a stopped unit, and nothing but the unit changes. |
| `NativeAllocation.Transaction.ConfigureAndStart` | sfos/kernel/install/offline_ollama_transaction.py:1522-1557 | From a stopped unit without a drop-in it is done, with no one near and no fault, with the configuration alone in the directory and a new incarnation running. |
| `NativeAllocation.Transaction.SweepStaged` | sfos/kernel/install/offline_ollama_transaction.py:1456-1458 | The staging name goes from the directory, whether or not a guard refuses, and nothing else. |
| `NativeAllocation.Transaction.RemoveDropin` | sfos/kernel/install/offline_ollama_transaction.py:1683-1688 | With no one near the recorded configuration and then the recorded directory go, unless something raises; every stop is one that a rollback may leave. |
| `NativeAllocation.InstallStopIsAcceptedIff` | sfos/kernel/install/offline_ollama_transaction.py:1627-1678 | From a stop of install the entry checks accept exactly the states that are not refused. |
| `NativeAllocationRuns.RollbackAfterStop` | sfos/kernel/install/offline_ollama_transaction.py:1627-1706 | A new process after a stop of install ends RESTORED with the drop-in gone exactly when the state is not a refused one. |
| `NativeAllocationRuns.RemovesOnlyOwned` | sfos/kernel/install/offline_ollama_transaction.py:1430-1483 | Over every run of install and rollback, whatever others do: a removed configuration is the recorded inode, a removed directory the recorded one and empty, and another file goes only by the sweep of a name staged before; a file is staged and linked only in the recorded directory. |
| `NativeAllocationRuns.ForeignFileIsTakenIff` | sfos/kernel/install/offline_ollama_transaction.py:1430-1458 | A file that was not the staged one goes exactly when others rebound the staging name between staging and sweep; with no one near never. |
| `NativeAllocationRuns.UntiedStopIff` | sfos/kernel/install/offline_ollama_transaction.py:1627-1678 | Every stop follows an observation of a tied incarnation. A running unit that is stopped is untied exactly when it is no longer the one observed last, which takes others who restart units and a receipt that names no start. |
| `NativeAllocationRuns.InstallRunIsRecorded` | sfos/kernel/install/offline_ollama_transaction.py:1505-1531 | The operations of an undisturbed install, from the fresh receipt to the unit start, form a run at every length. |
| `NativeAllocationRuns.EachRefusalIsReached` | sfos/kernel/install/offline_ollama_transaction.py:1461-1557 | Six stops of install that rollback refuses, each reached by its own operations from the fresh receipt: unit not settled by its stop, directory not recorded, configuration recorded but not linked, staging file dropped after that, unit started but not recorded, unit not settled by its start. |
| `NativeAllocationRuns.InterruptedRemovalIsRefused` | sfos/kernel/install/offline_ollama_transaction.py:1461-1483 | A rollback stopped after its own removal is refused by the next one. |
| `NativeAllocationRuns.RerunCompletesIff` | sfos/kernel/install/offline_ollama_transaction.py:1627-1706 | Over every stop of a rollback of an unrefused stop of install: the next one is accepted exactly when RESTORED is recorded, or nothing is removed or restarted, the unit is settled, and no request stands over a running unit whose start was not accepted. |
| `NativeAllocationRuns.RerunAfterStop` | sfos/kernel/install/offline_ollama_transaction.py:1627-1706 | A rollback in a new process after a killed rollback, undisturbed, ends RESTORED with the drop-in gone exactly in these cases. |
| `NativeAllocationRuns.RefusedFromTheRemovalOn` | sfos/kernel/install/offline_ollama_transaction.py:1683-1704 | A rollback run from a configured stop of install: of the stops after its five operations up to the RESTORED record the next rollback accepts the first and refuses the others. |
| `NativeAllocationRuns.UnrecordedRestartIsRefused` | sfos/kernel/install/offline_ollama_transaction.py:1650-1656 | A rollback with no drop-in to remove, killed after the restart: the next one refuses the restarted unit. |
| `NativeAllocationRuns.RequestOverUnacceptedStartIsRefused` | sfos/kernel/install/offline_ollama_transaction.py:1640-1653 | A rollback of a recorded but unaccepted start, killed after its request to restore: the next one refuses the unit that still runs. |
| `NativeAllocationRuns.SweptForeignFile` | sfos/kernel/install/offline_ollama_transaction.py:1430-1458 | A run in which the sweep unlinks a file that others put at the staging name. |
| `NativeAllocationRuns.StoppedForeignUnit` | sfos/kernel/install/offline_ollama_transaction.py:1514-1518 | A run in which the stop reaches an incarnation that others started after the last observation. |
| `RetirementTargets.RemovalsSparePreservedState` | sfos/outpost/install/kernel_first_install_runner.py:231-283 | No name admitted for removal, payload or link, is a preserved file or lies in a preserved directory. |
| `RetirementTargets.NormalIff` | sfos/outpost/install/kernel_first_install_runner.py:252-254 | An absolute text passes the normal-form check exactly when every component below the root is a real name, so that a textual prefix is a real ancestor. |
| `Retirement.EveryStopIsAccounted` | sfos/outpost/install/kernel_first_install_runner.py:982-997 | Wherever a run stops, the removed names are those with a retired record, in the same order, plus at most the one whose intent is the latest record. |
| `Retirement.Host.Remove` | sfos/outpost/install/kernel_first_install_runner.py:982-997 | For every host: the removal is recorded with the trees around it, and the tree before it held exactly the captured object; with no fault and no one near it succeeds exactly then. |
| `Retirement.Host.ConfirmAbsent` | sfos/outpost/install/kernel_first_install_runner.py:992-994 | Success means that the check looked at a tree without the name. |
| `Retirement.Host.RetireLinks` | sfos/outpost/install/kernel_first_install_runner.py:982-989 | All links are retired in the captured order with their records, and rows are not touched. |
| `Retirement.Host.RetireRows` | sfos/outpost/install/kernel_first_install_runner.py:990-997 | All rows are retired or recorded as already absent, in order. |
| `Retirement.Host.Retire` | sfos/outpost/install/kernel_first_install_runner.py:838-1013 | For every host: events only after a check saw the packet true of the tree, and done only after a check saw no link and no payload target. The events of a run are a prefix of its schedule, the whole of it when done; an admitted, truthful packet with no fault and no one near is always completed. |
| `RetirementRuns.RunRemoves` | sfos/outpost/install/kernel_first_install_runner.py:982-997 | A complete run removes the captured links in order and then the present rows in order; an interrupted run removes a prefix of these. |
| `RetirementRuns.Observe` | sfos/outpost/install/kernel_first_install_runner.py:453-515 | A fresh observation succeeds exactly when every link belongs to a Kernel unit and no payload target is a link; then it lists every link, once and with its unit, and the image of every present row truthfully. |
| `RetirementRuns.Attempt` | sfos/outpost/install/kernel_first_install_runner.py:453-1013 | One fresh generation removes only links and payload files of the beginning; when it completes none is left; with admitted rows, no fault and no one near it completes exactly when the observation can. |
| `RetirementRuns.AcrossRuns` | sfos/outpost/install/kernel_first_install_runner.py:453-1013 | Over any number of interrupted and fresh retirements every removal takes the very object its event names and nothing else changes with it, and nothing preserved is removed; with no one else near, every link and payload file of the beginning is removed exactly once and nothing else is, once a run completes, and without a fault one does. |
| `Dependencies.Collect` | sfos/outpost/install/kernel_first_install_runner.py:392-450 | It terminates on every finite manager; it denies exactly when something reachable is unreadable, and else returns exactly the reachable rows. |
| `Dependencies.Closure` | sfos/outpost/install/kernel_first_install_runner.py:593-601 | The stack worklist terminates and computes exactly the names reached by paths, or reports exactly that one of them has no row. |
| `Dependencies.Check` | sfos/outpost/install/kernel_first_install_runner.py:584-606 | Accepted exactly when the graph holds the names reached from units and observers, no more and no fewer, and no observer reaches a Kernel unit. |
| `Dependencies.ReachedPartReachesTheSame` | sfos/outpost/install/kernel_first_install_runner.py:392-450 | The collected part of the manager's graph has the same paths from the roots as the whole. |
| `Dependencies.CollectAndCheck` | sfos/outpost/install/kernel_first_install_runner.py:392-606 | A collected graph always passes the coverage check, so acceptance means exactly that everything reachable was readable and no observer reaches a Kernel unit over the manager's own edges. |
| `Dependencies.ReadableIff` | sfos/outpost/install/kernel_first_install_runner.py:417-447 | A unit is readable exactly when it is loaded, or missing, of the Kernel, without a forward dependency and referred to by Kernel units only. |
| `Heartbeat.Observe` | sfos/outpost/install/kernel_first_install_runner.py:3547-3594 | The loop stops at the first round that denies or sends, by a description without its variables; it sends the first observation of the previous distinct sample with the present one. |
| `Heartbeat.DeniesIff` | sfos/outpost/install/kernel_first_install_runner.py:3554-3582 | A round is denied exactly when it raised, is not bound to the running processes, or shows a new sample that does not move everything forward or is neither the start of the boot nor a degraded nor a healthy heartbeat. |
| `Heartbeat.RunIsConstant` | sfos/outpost/install/kernel_first_install_runner.py:3565-3569 | All rounds from the sent first observation up to the last show the same sample. |
| `Heartbeat.NeverGoesBack` | sfos/outpost/install/kernel_first_install_runner.py:3565-3577 | Over the whole loop any two rounds show the same sample, or sequence, clock and time advance and no replay counter goes back. |
| `Heartbeat.TextOrderIsTimeOrder` | sfos/kernel/payload/serein_stage1/kernel_operations.py:1159-1160 | Two times are ordered by their texts, with six digits of fraction, exactly as by their instants. |
| `Heartbeat.ObserveAndRecheck` | sfos/outpost/install/kernel_first_install_runner.py:3522-3685 | A sent window is two consecutive distinct healthy samples that advance, at 60 beats a minute or more, and the recheck, which compares texts where the loop compares instants, accepts every such window. |
| `WorkerPolicy.ParseOfRender` | sfos/kernel/install/offline_ollama_transaction.py:79-103 | Every spelling of known options, joined or spaced, is read back as these options. |
| `WorkerPolicy.ParseIsMeaning` | sfos/kernel/install/offline_ollama_transaction.py:79-103 | What is read off an argument vector has such a spelling. |
| `WorkerPolicy.MeaningIsParse` | sfos/kernel/install/offline_ollama_transaction.py:79-103 | An argument vector has at most one meaning, and the parse is it. |
| `WorkerPolicy.EffectiveIsMerge` | sfos/kernel/install/offline_ollama_transaction.py:107-117 | Merging the selected fields over the defaults equals the expected configuration exactly when every field is effective as expected and no other field is set. |
| `WorkerPolicy.ReadOptions` | sfos/kernel/install/offline_ollama_transaction.py:79-103 | The index loop terminates; it succeeds with the parse, without collision or wrong value; it fails only on vectors that no reading admits. |
| `WorkerPolicy.NativeWorkerPolicy` | sfos/kernel/install/offline_ollama_transaction.py:60-121 | Accepted exactly when the vector splits into known options used once each, with the expected effect, a permitted environment and the pinned model present. |
| `WorkerPolicy.PinnedTablesAreInOrder` | sfos/kernel/install/offline_ollama_transaction.py:66-80 | The pinned tables of aliases, fixed options, switches, defaults and environment meet the condition of all these theorems. |
| `WorkerPolicy.PinnedRequires` | sfos/kernel/install/offline_ollama_transaction.py:66-80 | With the pinned tables an admitted vector gives context 8192, parallel 1 and the pinned model, under a name of each. |
| `WorkerPolicy.PinnedExcludes` | sfos/kernel/install/offline_ollama_transaction.py:66-117 | With the pinned tables an admitted vector gives context, parallel, key, value, model, fit target and fit no other value, and no number of layers. |
| `WorkerPolicy.PinnedOthers` | sfos/kernel/install/offline_ollama_transaction.py:76-101 | The other options with a value are the port and the six fixed pairs; the five switches stand alone. |
| `WorkerPolicy.PinnedKnown` | sfos/kernel/install/offline_ollama_transaction.py:66-104 | The known options by name: five switches stand alone, and the aliases, the five fixed pairs of other names and the port take a value. |
| `WorkerPolicy.PortOkIff` | sfos/kernel/install/offline_ollama_transaction.py:97-99 | A port is the text of a number from 1 to 65535, with any number of zeros before it. |
| `WorkerPolicy.AdmissionSurvives` | sfos/kernel/install/offline_ollama_transaction.py:79-117 | Admitted settings stay admitted in any order and under any alias. |
| `WorkerPolicy.OrderAndSpellingDoNotMatter` | sfos/kernel/install/offline_ollama_transaction.py:60-121 | Order, alias and form of the options do not change the verdict. |
| `Preflight.CollectRows` | sfos/outpost/verify_install_preflight.py:52-95 | Succeeds exactly on a plain tree whose files are exactly the distinct, valid, given paths within the byte budget; the rows describe them, each once, with their total size. |
| `Preflight.PathOkIff` | sfos/outpost/verify_install_preflight.py:25-33 | A path passes the check exactly when it is not the manifest, has no forbidden character, and all its components are real names. |
| `Preflight.CollectableIff` | sfos/outpost/verify_install_preflight.py:52-95 | A tree is collectable exactly when the paths are distinct and valid, all entries are directories or files with one link, the files are the paths and possibly the manifest, and their size is within 256 MiB. |
| `Preflight.ReadRows` | sfos/outpost/verify_install_preflight.py:176-185 | The dictionary is built exactly when all rows are well formed with distinct paths, and holds each row under its path. |
| `Preflight.VerifySource` | sfos/outpost/verify_install_preflight.py:158-206 | Accepted exactly when release and tree match: sound header, payload present, rows well formed and distinct and each describing its file, files exactly the rows and the manifest, total within budget, stored manifest equal to the release and within its limit. |
| `Preflight.AcceptedTreeIsAccountedFor` | sfos/outpost/verify_install_preflight.py:186-206 | An accepted release lists exactly the files of the tree but the manifest, each with one link, its size, its 64 hexadecimal digits of digest and a path of real names; its total is their size, within 256 MiB; the stored manifest is the release, within 1 MiB. |
| `PosixPaths.NormalizedIffClean` | sfos/outpost/verify_install_preflight.py:25-33 | A relative text is its own normal form exactly when it is a dot or has only proper components. |
| `PosixPaths.RootedIffClean` | sfos/outpost/install/kernel_first_install_runner.py:252-254 | An absolute text is its own normal form exactly when it is the root or has only proper components below it. |
| `PosixPaths.JoinOfSplit` | sfos/outpost/verify_install_preflight.py:25-33 | Splitting at the slashes and joining gives the text back. |
| `Preflight.PartsAreRows` | sfos/outpost/verify_install_preflight.py:91-95 | Splitting the rows into payload and tests keeps paths, descriptions and total. |
| `Preflight.CollectThenVerify` | sfos/outpost/verify_install_preflight.py:52-206 | A release built from the collected rows and stored in the otherwise unchanged tree is accepted exactly when some path is not a test and the stored text is at most 1 MiB. |

## Left out

- Descriptor walking, access-control bytes, modes and umask beyond custody facts, and fsync: only their effect on names, inodes and contents is kept.
- systemd, journalctl, procfs, nvidia-smi and subprocess calls: nondeterministic answers or refusals.
- Signatures, HMAC, PEM and JSON encoding: contents and digests stand for themselves, a parsed record for its bytes.
- Staged files of a stop before their write-ahead record or before the link of a record, and parent directories that `atomic` makes: they stay behind, no check reads them, and the restored state is about target names.
- Host identity, predecessor witness and runtime access rule: folded into the boundary; their own restoration is not modelled.
- The list of foreign targets that a rollback reports: only that foreign files are left alone is stated.
- Private-directory records other than the journal, the preimages and the retained links: created and removed with the journal as one step.
- The staging link of a preimage: a preimage is created in one step. Until it is unlinked no row is claimed, and the rollback does not read the preimage of an unclaimed row nor any link count of a preimage.
- The recovery of the input transition inside a retirement: one journal record in `retirement.dfy`; the transition is modelled in `input_transition.dfy`.
- Replies of the service manager for a unit that is busy while retired: an ordinary loaded reply.
- The lower unit selection `min(pending)` and the sorted row order of the collectors: any order is allowed, and the results do not depend on it.
- Acquisition verification of nested observations, the controls of the observed processes and the clock of the recheck: part of a round that may raise.
- Unicode decimal digits and surrogates in option values and paths: characters are compared as they are, and a port is ASCII digits.
- `public_generation_transaction`, `host_vitality`, `reboot_vitality` and `kernel_direct_witness`: assumed contracts; only the compare-and-remove of the first is used.
- The offline bundle install and rollback, `vitals_aggregation.py`, `constitutional_registry.py`, `debian_host_collector.py`, `verify-source-road.py`, presentation and socket serving: shape checks or repetitions that would only add easy members.
- NativeAllocation.Transaction.Install: what others do to a unit before a start is recorded may be undone by the stop, as `UntiedStopIff` states; the contract promises the outcome with others near only for the receipt and the ownership check.
- NativeAllocation.Transaction.Rollback: with others near only completion, the receipt and the recorded steps are promised, not success.
- LifecycleNesting.Nest: one start a phase; the companion's quiesce and reopen of Interface units inside its context (kernel_first_install_runner.py:3904-3935) is not modelled, so "at most once" is about cleanups, not about unit starts.
- WholeRun.Run.RestartAfterFailure: the predecessor's authentication is an answer that may refuse, and is assumed to refuse a newly placed payload.
- WholeRun.Run.Execute: a process killed between the witness link and its record is not modelled; the code converts only ordinary exceptions there.

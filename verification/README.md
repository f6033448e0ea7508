# Nix Control Manager: a verified model

Nix Control Manager edits NixOS and Home Manager configurations for its users. An unprivileged side
plans, previews and builds; a small privileged helper validates a plan again, installs the files, and
tests, commits or rolls back system closures. This project models the parts on which the safety of that
division rests, and proves what they promise, over all inputs and all runs.

* **File transactions** (`JournalModel`, `UndoModel`, `Transaction`, `TransactionRuns`, `History`,
  `RecoveryOrder`, `PendingRecovery`, `RecoveryRuns`, `ApplyWorkflow`). Several files are backed up, staged,
  replaced and journaled; after a crash at any point recovery decides from digests what to undo. `Disk` is
  the configuration root with everything that may interfere: a script says, for each file operation, what
  other programs edit before it and whether it fails; the machine stops when the script is used up. `Calm`
  scripts are those without foreign edits. A SHA-256 digest is a value that holds its preimage, which makes
  it injective. The central invariant, `Held`, says that what is on disk suffices to undo the transaction;
  every operation keeps it at every step. `CanUndo` says of any state whether an undo can end there;
  undisturbed, with neither edits nor failures and with enough operations, it then does. A ghost history of
  all writes, with a law for each of them, carries the statements about foreign content.
* **Activation sessions** (`ActivationModel`, `Activation`, `ActivationHistory`, `ActivationInterleaving`,
  `ActivationAlone`).
  One `Machine` has the runtime link, the boot profile and the session journal. External commands exit with
  any code or raise, and leave the links anywhere. Each backend call or unit is one step, but it may die at
  any of its journal writes, and the links may be moved between calls. `MayMove` and `MayIssue` are the law
  of the journal; the history lemmas draw its consequences for whole runs. `ActivationInterleaving` cuts the
  calls into the sections that hold the journal lock and the commands between them, lets them overlap, and
  says which of those consequences hold always, which need a second look at the journal, at which writes,
  and which overlaps are behind them. `ActivationAlone` ties the two together: every run of the machine is one
  of overlapping calls in which none overlaps.
* **The Nix printer** (`NixText`, `NixGenerator`, `NixReader`, `NixAttrs`, `NixModule`). The printer as it
  is, a reader written after the string literal and expression rules of the Nix language as its reference
  form, and the round trip from values to text and back, up to the whole generated module, with Nix's rule
  for putting attribute paths together. Where the printer's output is not what Nix can read, the theorems
  give the exact condition.
* **Build previews** (`BuildJob`, `BuildPreview`). The sections that run under the manager's lock are the
  steps; a worker's place between two sections is its `stage`, and unlocked reads of the cancel flag are
  steps of their own.
* **The helper's receipts** (`HelperModel`, `HelperService`). One desk for each of the five workflows, with
  its pending receipts and the plans its backend retains, and a history from which both tables can be told;
  the authorizer, the backends' results and the clock are arbitrary.
* **Agreement of the two sides** (`FlakeLockModel`, `FlakeLockUpdate`, `FlakeUpdatePreview`,
  `ManagedStates`, `ManagedPlans`, `ManagedApply`). Previewed lock updates and managed plans against what
  the helper rebuilds from the same source, and an accepted managed plan all the way to the files on the
  disk.

The model follows the code where the two differ. These findings are stated as theorems, each with its exact
condition and, where it is a matter of runs, with a run:

* a restore can overwrite a foreign edit made between its digest check and its rename
  (`History.RestoreOverwritesExactly`, `RecoveryRuns.ForeignEditIsLost`);
* several journals listed oldest first can lose the original, or block every further recovery
  (`PendingRecovery.RecoverOldestFirst`, `RecoveryRuns.OldestFirstCanLose`,
  `RecoveryRuns.RetryCannotBeRecovered`);
* an activation call can write back what it read before another call moved on
  (`ActivationInterleaving.OnwardExactly`, `OneTestNeeds`, `OvertakenBefore`, and the three runs beside
  them);
* a pending receipt can outlive its plan (`HelperService.ReceiptKeepsItsPlan`);
* an accepted cancel can come too late, and a worker can outlive its source
  (`BuildPreview.CancelThen`, `BuildPreview.Manager.Start`);
* a flake update preview can pass that the helper will refuse (`FlakeLockUpdate.PreviewAndHelperAgree`);
* some values and states are rendered to text that Nix does not read (`NixReader.RoundTrip`,
  `NixModule.ModuleBack`).

`dafny verify dfyconfig.toml` checks everything.

## Model

| member | source | states |
|---|---|---|
| `Transaction.Disk.Tick` | src/nix_control_manager/transaction.py:554-561 | Around every file operation other programs may edit files, the operation may fail, and the machine may stop; nothing else happens to the root, and a machine that stopped does nothing more until it starts again. |
| `Transaction.Disk.Store` | src/nix_control_manager/transaction.py:557-558 | A rename or removal changes one path only, to the candidate or to the planned previous content, and only when the history allows it. |
| `Transaction.AtomicJson` | src/nix_control_manager/transaction.py:167-181 | A manifest is replaced as a whole or not at all; a leftover exclusive temporary file makes the write raise and is then gone; a single failing operation leaves none behind. |
| `Transaction.CopyBack` | src/nix_control_manager/transaction.py:448-452 | A restore puts the planned previous content in place by one rename; a crash leaves at most a partial restore copy. |
| `Transaction.UndoTarget` | src/nix_control_manager/transaction.py:432-464 | Decides from digests alone: already undone, left alone, or put back; undisturbed it raises, and touches nothing, exactly when a candidate has no good backup of the earlier content or an entry recorded as installed has content that nobody knows. |
| `Transaction.RestoreEntry` | src/nix_control_manager/transaction.py:432-466 | One entry: afterwards its target does not hold the candidate unless another program writes candidates; undisturbed it holds exactly the planned earlier content if it held the candidate, and the step raises exactly when the entry cannot be undone. |
| `Transaction.RestoreEntries` | src/nix_control_manager/transaction.py:427-466 | The loop over all entries, last first: the same for every target, nothing outside the plan moves, the transaction stays recoverable after every step, an entry that cannot be undone still cannot, and undisturbed the loop ends exactly when all can. |
| `Transaction.RestoreFromManifest` | src/nix_control_manager/transaction.py:427-467 | A restore that returns leaves no target with candidate content; undisturbed, it returns exactly when every entry can be undone, within 7 operations per change, and from a recoverable state every target is then exactly as before and no staged or restore copy is left. |
| `Transaction.VerifyPrecondition` | src/nix_control_manager/transaction.py:370-385 | Returns exactly when the target is absent or has the planned content, as the action demands. |
| `Transaction.BackUp` | src/nix_control_manager/transaction.py:538-543 | A backup is only accepted when its digest is the planned one. |
| `Transaction.PrepareAll` | src/nix_control_manager/transaction.py:533-550 | Preparing changes no target and, when it ends, leaves every change staged and every modified file backed up. |
| `Transaction.CommitEntry` | src/nix_control_manager/transaction.py:554-561 | One replacement: undisturbed, the root changes only by this candidate taking the place of the planned content, and the entry is recorded as installed, on the disk too when it ends; the staged copies that remain are known. |
| `Transaction.CommitStaged` | src/nix_control_manager/transaction.py:554-561 | Undisturbed, whatever stops the loop of replacements, the transaction stays recoverable; the journal says installed of exactly a prefix, with at most one more replaced; when the loop ends all are installed and recorded so. |
| `Transaction.CommitAll` | src/nix_control_manager/transaction.py:554-561 | Undisturbed, exactly a prefix of the changes is installed at every moment, whatever stops the loop, and of every entry recorded as installed the candidate is in place. |
| `Transaction.CommitPhase` | src/nix_control_manager/transaction.py:552-570 | The journal says it awaits verification only after all changes are in place and recorded as installed. |
| `Transaction.UndoFiles` | src/nix_control_manager/transaction.py:427-467 | The restoring part of every undo: undisturbed it ends, with the restored files, exactly when every entry can be undone and no temporary manifest is left over; when it raises without I/O errors and leftover temporary files, the journal says recovery required. |
| `Transaction.Abort` | src/nix_control_manager/transaction.py:580-595 | A failed apply undoes itself and raises in any case; undisturbed and without a further I/O error it ends rolled back when every entry can be undone, and is recorded as recovery required when one cannot. |
| `Transaction.Perform` | src/nix_control_manager/transaction.py:533-595 | An apply either awaits verification, with every entry recorded as installed and no operation failed, or leaves one of the failed states, and stays recoverable at every crash point; one I/O error, wherever it falls, ends rolled back. |
| `Transaction.ApplyChanges` | src/nix_control_manager/transaction.py:470-597 | Before the first manifest exists the root is untouched; after it the journal is recoverable; with enough undisturbed operations the apply succeeds, and it never succeeds past a failed one; one I/O error ends rolled back or before anything was journaled. |
| `Transaction.VerifyInstalled` | src/nix_control_manager/transaction.py:361-367 | Accepts exactly when every target holds its candidate, after one look at each; undisturbed it then raises only for an I/O error. |
| `Transaction.Finalize` | src/nix_control_manager/transaction.py:775-826 | Commits only from awaiting verification, only with an accepted verification and every candidate in place, and undisturbed exactly then. |
| `Transaction.Rollback` | src/nix_control_manager/transaction.py:897-956 | Refuses terminal journals, otherwise undoes the transaction: undisturbed it ends exactly when every entry can be undone and no temporary manifest is left over, with the restored files and exactly those entries marked whose target is as before; one that raises leaves it pending, and without I/O errors recorded as recovery required. |
| `Transaction.RecoverOne` | src/nix_control_manager/transaction.py:1082-1096 | Recovers one pending journal: an undisturbed attempt with enough operations ends exactly when every entry can be undone and no temporary manifest is left over, with the restored files and their entries marked; otherwise it raises, the journal then asks for attention, and what could not be undone stays so; from a recoverable state it can. |
| `TransactionRuns.CrashAndRecover` | src/nix_control_manager/transaction.py:470-597 | Crash atomicity: an apply that fails or stops anywhere, then any number of recovery attempts that fail or stop anywhere, stays recoverable; once over, every file is exactly as before and no copy is left; two undisturbed attempts are always enough. |
| `TransactionRuns.OneErrorIsUndone` | src/nix_control_manager/transaction.py:470-597 | An apply that meets one I/O error at most, wherever it falls, raises exactly if one of its operations failed, and the root is then exactly as before. |
| `TransactionRuns.ApplyEditUndo` | src/nix_control_manager/transaction.py:430-464 | An apply, then any edits of files and backups by others, then an undisturbed rollback or recovery: it raises exactly when some target has content that nobody knows, or its candidate without a good backup; those targets are left alone and the journal asks for attention; otherwise every target is as before and nothing else changes. |
| `TransactionRuns.GoneMeansUndone` | src/nix_control_manager/transaction.py:1082-1096 | A recoverable transaction that is no longer pending and not committed has left the root exactly as it was. |
| `TransactionRuns.RunCommands` | src/nix_control_manager/transaction.py:775-1108 | Any sequence of applies, finalizes, rollbacks, recoveries, reboots and foreign edits, where a stopped machine does nothing until it starts again, keeps the write history lawful and every journal legal. |
| `History.InstallNeverOverwrites` | src/nix_control_manager/transaction.py:554-561 | In every run an installed candidate replaced the planned previous content and nothing else. |
| `History.RestoreOverwritesExactly` | src/nix_control_manager/transaction.py:430-452 | A restore overwrites content it does not know exactly when another program put it there between the digest check and the rename. |
| `RecoveryRuns.ForeignEditIsLost` | src/nix_control_manager/transaction.py:430-452 | That window is real: a run in which a recovery ends well and loses any edits made to its file between look and rename. |
| `History.OneOutcome` | src/nix_control_manager/transaction.py:775-1108 | A journal reaches at most one terminal state, never leaves it, and is committed only straight after awaiting verification. |
| `PendingRecovery.RecoverPending` | src/nix_control_manager/transaction.py:1056-1105 | One recovery call over many journals: undisturbed it ends exactly when each journal can be undone when its turn comes, and raises otherwise; a first journal that cannot be undone stops every call; a call that ends gives the restores one after the other, the original root for overlapping transactions listed newest first and for disjoint ones in any order. |
| `PendingRecovery.RecoverStack` | src/nix_control_manager/transaction.py:1056-1105 | Overlapping journals as a crash leaves them, listed newest first, are all recovered by one undisturbed call, and the root is the original one. |
| `PendingRecovery.RecoverDisjoint` | src/nix_control_manager/transaction.py:1056-1105 | Disjoint journals, each recoverable and listed in any order, are all recovered by one undisturbed call: every planned file is as before, and no other file has changed. |
| `PendingRecovery.RecoverOldestFirst` | src/nix_control_manager/transaction.py:1056-1105 | Two pending transactions, one applied on the other, listed oldest first: one undisturbed call ends with the original root exactly when no path clashes, the first has a backup of every file that the second left at its candidate, and no entry recorded as installed meets content that nobody knows. |
| `RecoveryOrder.DisjointRestores` | src/nix_control_manager/transaction.py:1056-1105 | Journals with pairwise disjoint paths, in any order: every planned file is as before, every other file untouched. |
| `RecoveryOrder.AnyOrder` | src/nix_control_manager/transaction.py:1056-1105 | For such journals the result depends only on which plans are pending. |
| `RecoveryOrder.UndoneIsBefore` | src/nix_control_manager/transaction.py:427-467 | Restoring what a transaction did, however far it came, gives the files back. |
| `RecoveryOrder.NewestFirstRestores` | src/nix_control_manager/transaction.py:1056-1105 | Any number of transactions applied one on the other, each however far it came: every order that takes those with a common path off newest first gives the original root. |
| `RecoveryOrder.OldestFirstExactly` | src/nix_control_manager/transaction.py:1056-1105 | What the files of two stacked transactions come to if both undos end, oldest first: the original root exactly when no path clashes, that is, was changed by both or is one the second meant to bring back. |
| `RecoveryOrder.OldestFirstCanEnd` | src/nix_control_manager/transaction.py:430-464 | Both undos end, and with the original root, exactly under the condition above; a missing backup and unknown content stop them even where no path clashes. |
| `RecoveryOrder.ClashOfCompleteOnes` | src/nix_control_manager/transaction.py:1056-1105 | For completed transactions: exactly when no path is really changed by both. |
| `RecoveryRuns.OldestFirstCanLose` | src/nix_control_manager/transaction.py:1056-1105 | A run of the recovery call in which such a clash loses the original. |
| `RecoveryRuns.RetryCannotBeRecovered` | src/nix_control_manager/transaction.py:444-447 | A run without any clash: a change is applied again after a crash before its backup; the recovery of the first raises in any number of calls without interference, and the original content does not come back. |
| `JournalModel.HeldWhileApplying` | src/nix_control_manager/transaction.py:533-561 | While an apply runs, what is on disk suffices to recover: backups of everything modified, and candidates on a prefix only. |
| `JournalModel.HeldIsRestored` | src/nix_control_manager/transaction.py:427-467 | From any recoverable state, restoring by digests ends with every target exactly as before. |
| `JournalModel.RestoredUnique` | src/nix_control_manager/transaction.py:427-467 | The result of an undisturbed restore is a function of the files and the plan. |
| `ApplyWorkflow.Conclude` | src/nix_control_manager/managed_apply_workflow.py:70-138 | After the post-installation validation: committed exactly if it passed acceptably, rolled back with no candidate left otherwise. |
| `ApplyWorkflow.Execute` | src/nix_control_manager/managed_apply_workflow.py:47-138 | The whole workflow, for every validator result: a reported commit has all candidates installed, a reported rollback none, and undisturbed every rollback leaves the root exactly as before. |
| `Activation.Machine.Write` | src/nix_control_manager/activation_session.py:195-225 | A journal write happens only as the session law allows with the links as they are; a call may die at any write. |
| `Activation.Machine.Issue` | src/nix_control_manager/activation_session.py:445-453 | A command is issued only in a state that allows it, for one of the two recorded closures and in its order; it is recorded with its result, and may leave the links anywhere. |
| `Activation.Machine.TestActivation` | src/nix_control_manager/live_read_only_backend.py:299-460 | Exactly when a test is accepted, exactly what is written and issued, and in which order; a session is created only when no other is unfinished; the state it ends in for every command result. |
| `Activation.Machine.Activate` | src/nix_control_manager/live_read_only_backend.py:391-441 | Ends active exactly when the command succeeded and the runtime is the candidate, with exactly one test switch to it between the two writes. |
| `Activation.Machine.Recover` | src/nix_control_manager/activation_session.py:231-331 | Exactly what recovery writes and issues and which state it ends in, for every command result: the profile is set only where it has moved, and the switch is permanent exactly then, otherwise a test switch; recovered means the runtime is the previous closure and the profile is it or absent. |
| `Activation.Machine.RecoverTest` | src/nix_control_manager/live_read_only_backend.py:462-532 | A user recovers only their own session of that target; accepted exactly when the session then is recovered and either was so before or the unit ran with exit code 0; what is written and issued is what the unit does. |
| `Activation.Machine.Transition` | src/nix_control_manager/activation_session.py:334-557 | Exact records: the running write, the profile set to the destination, the permanent switch only if that succeeded, the same pair for the compensation only if the destination was not reached, and the end; committed means both links are the candidate, rolled back or recovered both the previous closure; any other end is the required state of its mode. |
| `Activation.Machine.Carry` | src/nix_control_manager/activation_session.py:437-536 | The running part with its compensation: which commands are issued, in which order and for which closure, and which end follows from their results and the links. |
| `Activation.Machine.CommitTested` | src/nix_control_manager/live_read_only_backend.py:599-649 | A commit is prepared exactly for the user's active session with these names, the candidate running and the previous profile; a failing schedule takes it back; what is written and issued is exact. |
| `Activation.Machine.RollbackCommitted` | src/nix_control_manager/live_read_only_backend.py:651-691 | A rollback is prepared exactly for the user's committed session with both links at the candidate; a failing schedule takes it back; what is written and issued is exact. |
| `Activation.Machine.Schedule` | src/nix_control_manager/live_read_only_backend.py:639-649 | A preparation is taken back only if the unit has not moved the session meanwhile; what is written and issued is exact. |
| `ActivationHistory.RunCalls` | src/nix_control_manager/activation_session.py:231-557 | Any calls in any order, each dying after any number of journal writes, and links moved by others: the history is exactly what the calls write and issue, one after the other, and stays legal. |
| `ActivationHistory.Provenance` | src/nix_control_manager/live_read_only_backend.py:611-636 | Whatever state of commit or rollback a session is in, it was active with its candidate running and after that passed the commit check, under the same ticket. |
| `ActivationHistory.CommandsHaveProvenance` | src/nix_control_manager/activation_session.py:437-503 | Every command names one of the two recorded closures; one that makes the candidate permanent comes after the test and the check. |
| `ActivationHistory.CommandsInOrder` | src/nix_control_manager/activation_session.py:266-503 | In a run of any calls each command directly follows a record of its session: a permanent switch a successful setting of the profile to the same closure; a test switch the activating write, or a recovering write that found the profile in place; a setting of the profile a running write, a recovering write that found it moved, or the attempt that it compensates. |
| `ActivationHistory.WrittenIsTidy` | src/nix_control_manager/activation_session.py:184-193 | Lawful writes create a session only when all others are finished, and otherwise only move it on. |
| `ActivationHistory.OneTest` | src/nix_control_manager/live_read_only_backend.py:340-348 | At most one session is ever in the test phase. |
| `ActivationHistory.Onward` | src/nix_control_manager/activation_session.py:184-193 | Over any stretch of a run sessions never vanish, never change target, user, fingerprint or closures, never come back to the test phase, and never leave a final state. |
| `ActivationHistory.NeverCommitFailed` | src/nix_control_manager/activation_session.py:516-536 | The state commit-failed is never written. |
| `ActivationHistory.RollbackRequiredShutsOut` | src/nix_control_manager/activation_session.py:184-193 | Once a session is rollback-required no call ends that and no session can be created any more. |
| `ActivationHistory.CommitIsHonest` | src/nix_control_manager/activation_session.py:516-536 | A session that is committed, or whose rollback is prepared, was recorded as committed while both links were its candidate. |
| `ActivationHistory.RollbackIsHonest` | src/nix_control_manager/activation_session.py:516-536 | A session that is rolled back was recorded so while both links were the previous closure. |
| `ActivationHistory.RecoveryIsHonest` | src/nix_control_manager/activation_session.py:292-313 | A session that is recovered was recorded so while the runtime was the previous closure and the profile that or absent, or was never more than prepared before. |
| `ActivationInterleaving.RunKeeps` | src/nix_control_manager/activation_session.py:231-557 | Calls cut into their locked sections and commands, overlapping in any way, each dying anywhere: every write follows from what its writer had read and seen, and only writes that do not look at the journal again may have been overtaken. |
| `ActivationInterleaving.AlwaysKept` | src/nix_control_manager/activation_session.py:195-225 | What no overlap can break: sessions never vanish or change what they are about, and commit-failed is never written. |
| `ActivationInterleaving.OnwardExactly` | src/nix_control_manager/activation_session.py:365-536 | No session ever leaves its end or returns to the test phase, exactly when no write is late: every write that does not look again would have passed a look for an ended session and for the test phase. |
| `ActivationInterleaving.OvertakenBefore` | src/nix_control_manager/activation_session.py:231-405 | Behind every late write stands an overlap before it: a recovery, asked for or by the timer, or a unit that began on that session while another call was still at work on it. |
| `ActivationInterleaving.NothingOvertaken` | src/nix_control_manager/activation_session.py:231-405 | In a run without such overlaps sessions only move on, and at most one is ever in the test phase. |
| `ActivationInterleaving.OneTestNeeds` | src/nix_control_manager/live_read_only_backend.py:391-434 | At most one session is ever in the test phase, exactly when no such write of a test or commit takes a session back to the test phase beside another; the writes of a rollback never do. |
| `ActivationInterleaving.EndsWereSeen` | src/nix_control_manager/activation_session.py:504-536 | Every recorded end had the links that go with it when its writer looked at them. |
| `ActivationInterleaving.UndisturbedIsWritten` | src/nix_control_manager/activation_session.py:365-536 | When each write finds the state that was read and the links that were seen, overlapping calls keep the law of writes, with provenance and honest ends. |
| `ActivationInterleaving.RecoveryIsUndone` | src/nix_control_manager/activation_session.py:365-405 | A run in which a unit overtaken by a recovery turns the recovered session into one that needs recovery. |
| `ActivationInterleaving.TwoTests` | src/nix_control_manager/live_read_only_backend.py:364-395 | A run in which a test overtaken by its own timer comes back beside the next test. |
| `ActivationInterleaving.CommitOfNothing` | src/nix_control_manager/activation_session.py:437-536 | A run in which a commit is recorded after a recovery has put both links back. |
| `ActivationAlone.RunIsStory` | src/nix_control_manager/activation_session.py:231-557 | Whatever calls run one after the other, each dying after any number of journal writes, with the links moved between them, is a run of the overlapping calls, with exactly the same writes, commands and links. |
| `ActivationAlone.CallAlone` | src/nix_control_manager/activation_session.py:231-557 | One call that nothing overlaps comes, step by step, to exactly the writes and commands that the whole call makes. |
| `ActivationAlone.UnitAlone` | src/nix_control_manager/activation_session.py:334-557 | The unit of a commit or rollback, its sections and commands taken one by one, with its compensation. |
| `ActivationAlone.RecoveryAlone` | src/nix_control_manager/activation_session.py:231-331 | A recovery, under its lock, command by command. |
| `ActivationAlone.TestAlone` | src/nix_control_manager/live_read_only_backend.py:340-460 | A test, from its creation to its last write. |
| `ActivationAlone.PreparationOvertaken` | src/nix_control_manager/live_read_only_backend.py:611-649 | A commit or rollback that is asked for, whose unit runs before its schedule is reported. |
| `NixText.ChainIsOnePass` | src/nix_control_manager/nix_generator.py:20-27 | The chain of six replacements equals one pass from left to right. |
| `NixText.ReadEscaped` | src/nix_control_manager/nix_generator.py:16-28 | Reading an escaped string by the Nix string rule gives it back and ends exactly at its closing quote: no bare quote and no open interpolation is left. |
| `NixText.EscapedKeepsLines` | src/nix_control_manager/nix_generator.py:24-27 | No raw line break is left inside a literal. |
| `NixGenerator.SortedKeys` | src/nix_control_manager/nix_generator.py:66-66 | The keys of a map, each once, in code point order. |
| `NixGenerator.RaisesExactly` | src/nix_control_manager/nix_generator.py:16-69 | Rendering raises exactly when a string or quoted key has a control character other than newline, return and tab. |
| `NixGenerator.RenderIsWritten` | src/nix_control_manager/nix_generator.py:35-69 | A rendered value followed by anything is the text of the reference form. |
| `NixGenerator.ReindentIsDeeper` | src/nix_control_manager/nix_generator.py:84-87 | Re-indenting a rendered value line by line is rendering it deeper. |
| `NixReader.ReadBack` | src/nix_control_manager/nix_generator.py:35-69 | Reading a written value gives it back, whatever follows, exactly when no name in it is reserved, no list element is negative and no integer is out of range. |
| `NixReader.RoundTrip` | src/nix_control_manager/nix_generator.py:35-69 | Parsing a rendered value at any indent gives the value back, exactly when it is readable. |
| `NixReader.ReindentedRoundTrip` | src/nix_control_manager/nix_generator.py:83-89 | The re-indentation of the module generator does not change the parse. |
| `NixReader.UnreadableRenderings` | src/nix_control_manager/nix_generator.py:31-43 | Values that render without an error and that Nix cannot read: a reserved word as name, a negative list element, an integer beyond 64 bits. |
| `NixModule.OptionLine` | src/nix_control_manager/nix_generator.py:82-89 | One option line, in one line or re-indented, is the value rendered at the deeper indent. |
| `NixModule.PathsExactly` | src/nix_control_manager/model.py:13-21 | Attribute paths are exactly names with single dots between them: each name starts with a letter or underscore and goes on with those, digits, quotes and dashes. |
| `NixModule.GenerateModule` | src/nix_control_manager/nix_generator.py:72-95 | The loop that appends lines builds exactly the specified module text, or raises with the first option that does. |
| `NixModule.HeadBack` | src/nix_control_manager/nix_generator.py:72-73 | The head of the module is read by the Nix grammar: comments, then a set pattern with pkgs among its formals and an ellipsis, a colon and the opening brace. |
| `NixAttrs.AcceptedExactly` | src/nix_control_manager/nix_generator.py:72-95 | Attribute paths are accepted one after the other exactly when each two of them can stand together, by the merge rule of Nix sets. |
| `NixAttrs.AgreeWhenApart` | src/nix_control_manager/nix_generator.py:72-95 | Paths that part somewhere can; a path that equals or runs through an earlier one that is no set cannot. |
| `NixModule.ModuleBack` | src/nix_control_manager/nix_generator.py:72-95 | The generated module, head included, is read back by the grammar as the packages and settings of the state, in order, exactly when no name in it is reserved, every value is readable and no attribute is defined twice. |
| `NixModule.OverlapIsUnreadable` | src/nix_control_manager/nix_generator.py:72-95 | A setting that equals or runs through an earlier one that is no set, or the package list, makes the whole module unreadable. |
| `NixModule.ApartIsReadable` | src/nix_control_manager/nix_generator.py:72-95 | Where no path equals or runs through another, readable names and values are enough. |
| `NixModule.RefusedOptions` | src/nix_control_manager/nix_generator.py:72-95 | Two options that generate a module which Nix refuses. |
| `NixModule.RefusedPackages` | src/nix_control_manager/nix_generator.py:72-95 | A package list and an option that do. |
| `BuildJob.Job.Emit` | src/nix_control_manager/candidate_build.py:292-303 | The bounded event list is the tail of everything emitted, numbered from one. |
| `BuildJob.Job.Poll` | src/nix_control_manager/candidate_build.py:594-624 | A poll returns everything emitted after the cursor unless it says truncated, which it does exactly when more was lost than kept; then what is kept; and the next cursor is the last number emitted. |
| `BuildJob.Job.Launch` | src/nix_control_manager/candidate_build.py:419-430 | A job runs only unprivileged and shows its plan fingerprint from then on. |
| `BuildJob.Job.TimeOut` | src/nix_control_manager/candidate_build.py:432-443 | A timeout flags and cancels a running or analyzing job, says so, and leaves every other alone. |
| `BuildJob.Job.Decide` | src/nix_control_manager/candidate_build.py:508-543 | Passed exactly for exit code 0 without cancel or timeout; cancelled exactly for a cancel without timeout; the outputs, the code and the message of each end. |
| `BuildJob.Job.Close` | src/nix_control_manager/candidate_build.py:569-592 | The last section: stale when the source epoch moved on, otherwise the decided end, and exactly what it tells. |
| `BuildJob.Job.Cancel` | src/nix_control_manager/candidate_build.py:262-275 | A cancel flags an active job and leaves a finished one alone. |
| `BuildJob.Job.Revoke` | src/nix_control_manager/candidate_build.py:230-243 | A source change marks the job stale, empties its outputs and cancels it if it is active. |
| `BuildJob.Job.Step` | src/nix_control_manager/candidate_build.py:316-592 | Every section of the worker and of the threads beside it, exactly as its place in the worker allows: which events it adds, and how the job goes on; it keeps the job invariant, and a settled stale job stays so. |
| `BuildPreview.Manager.Admit` | src/nix_control_manager/candidate_build.py:211-217 | Keeps the last eight jobs and the active one, so that no lookup of the active or newest job can miss. |
| `BuildPreview.Manager.Start` | src/nix_control_manager/candidate_build.py:171-228 | A job starts exactly when the manager is open and its active job is not running, as the newest and active one, queued under the current epoch; the worker of the former active job is then past its build, unless its source epoch is older. |
| `BuildPreview.Manager.Invalidate` | src/nix_control_manager/candidate_build.py:230-243 | Every visible job becomes stale, without outputs, under a new epoch, and is told the reason. |
| `BuildPreview.Manager.Latest` | src/nix_control_manager/candidate_build.py:245-249 | The newest job is always found and shown from the client's own cursor on: the events, the next cursor and the truncation of that job's poll; if it offers its output it is of the current epoch. |
| `BuildPreview.Manager.Poll` | src/nix_control_manager/candidate_build.py:251-260 | A kept job is shown from the client's own cursor on: the events after it, the next cursor, and truncated exactly when more was lost than kept; one that offers its output is of the current epoch and its build exited with 0. |
| `BuildPreview.RunActions` | src/nix_control_manager/candidate_build.py:171-592 | Any interleaving of starts, source changes, worker sections, cancels, timeouts and a shutdown: of the kept jobs of the current epoch only the active one can be building; no job of an older epoch offers its output, finished ones are stale, a settled stale job stays so, and no event told is ever taken back. |
| `BuildPreview.Follow` | src/nix_control_manager/candidate_build.py:251-303 | A client that joins at any time and polls the manager with its cursor, with any actions between its looks, receives each event at most once and in order, everything unless a poll says truncated, and a poll says so exactly when more came since the last one, for the first since it joined, than is kept. |
| `BuildPreview.Live` | src/nix_control_manager/candidate_build.py:316-592 | Over any sections, cancels, timeouts and source changes: a job that is cancelled or timed out before the result is decided never passes; one that removes its copy after passing ends passed exactly when the source never changes and the worker meets no exception before the removal is done. |
| `BuildPreview.CancelThen` | src/nix_control_manager/candidate_build.py:262-275 | An accepted cancel before the decision never leads to passed; after it, the job passes exactly when the source never changes and the worker meets no exception before its copy is removed, whatever else happens. |
| `BuildPreview.CancelCanComeTooLate` | src/nix_control_manager/candidate_build.py:508-559 | A run: a cancel during cleaning is accepted and the job still ends passed. |
| `BuildPreview.WorkersCanOverlap` | src/nix_control_manager/candidate_build.py:230-243 | A run: after a source change a new job starts while the old worker is still building. |
| `HelperService.Desk.Prune` | src/nix_control_manager/helper_service.py:743-776 | Exactly the expired receipts go, and with them the plans under their keys. |
| `HelperService.Desk.Validate` | src/nix_control_manager/helper_service.py:938-991 | The whole outcome of a validation: the answer, the receipt and its expiry, the plan that the backend then retains, and the record of it; an error changes nothing. |
| `HelperService.Desk.Preview` | src/nix_control_manager/helper_service.py:1300-1350 | A preview asks the authorizer for the preview action first, and a denial changes nothing else; it earns a test receipt exactly where tests are enabled. |
| `HelperService.Desk.Apply` | src/nix_control_manager/helper_service.py:993-1025 | A receipt is used exactly by its user, for its target and fingerprint, with the authorizer's yes, which is recorded with its action and names; denied exactly when the receipt matches and the authorizer said no; the receipt and the plan are gone after a yes, whatever the backend comes to; a denial or mismatch changes nothing. |
| `HelperService.Desk.CallBackend` | src/nix_control_manager/fixture_helper_backend.py:127-135 | The backend takes the plan out and does the work only if it is the very payload the receipt stands for. |
| `HelperService.Dispatcher.PruneAll` | src/nix_control_manager/helper_service.py:743-776 | All five tables are pruned, each by its own receipts. |
| `HelperService.Dispatcher.Handle` | src/nix_control_manager/helper_service.py:781-912 | One request: an apply is denied exactly when its receipt is usable, matching and unexpired and the authorizer said no; every record added is the request's own, a backend call only with its own yes; every other workflow's tables are only pruned. |
| `HelperService.Serve` | src/nix_control_manager/helper_service.py:781-912 | Any requests by any users at any times, each handled in its turn with a fresh token: every record comes from one of them, in their order, with its action, names and answer; every history is legal, receipts pending exactly until they are used or run out, the kept plans as the history tells, and a pending receipt behind each plan of an apply-enabled target. |
| `HelperModel.KeptExactly` | src/nix_control_manager/helper_service.py:743-776 | In the history, a plan that came with a receipt is kept exactly when it was not lost since: no receipt of its key used or run out, no other plan kept under the key, unless the same plan was kept again after that. |
| `HelperService.ReceiptKeepsItsPlan` | src/nix_control_manager/helper_service.py:743-776 | The same of the table that the backend goes by. |
| `HelperService.LoneReceiptHasItsPlan` | src/nix_control_manager/helper_service.py:743-776 | A pending receipt that is alone under its key still has its plan. |
| `HelperService.ReceiptCanOutliveItsPlan` | src/nix_control_manager/helper_service.py:743-752 | A run: of two receipts for one plan the older runs out and takes the plan along. |
| `HelperModel.CallHasGrant` | src/nix_control_manager/helper_service.py:993-1025 | Every backend apply or test call comes from an earlier successful validation of the same workflow, user, target and exact payload, unexpired at the request, and directly follows the authorizer's yes to that workflow's action. |
| `HelperService.CallHasRequests` | src/nix_control_manager/helper_service.py:781-1025 | Behind every backend call stand two requests of the same user: one that submitted its very payload for validation, and a later one, before the receipt ran out, that used this receipt for that target and fingerprint and that the authorizer said yes to. |
| `HelperService.CallIsAllowed` | src/nix_control_manager/helper_service.py:938-991 | Every backend call is for a target whose settings allow it in that workflow. |
| `HelperService.ObjectsExactly` | src/nix_control_manager/helper_service.py:938-1316 | Exactly which payloads a desk looks at, by the settings of the target, and with which error it refuses the others. |
| `HelperService.MatchesExactly` | src/nix_control_manager/helper_service.py:993-1015 | A receipt is used exactly by its user and by naming what it stands for, where the settings of the target allow it. |
| `HelperModel.CallsAreInjective` | src/nix_control_manager/helper_service.py:1023-1024 | No two backend calls come from the same validation, and a receipt that was dropped is never used. |
| `FlakeLockUpdate.PreviewAndHelperAgree` | src/nix_control_manager/flake_update_preview.py:372-640 | A passed preview's candidate is accepted by the helper, under the fingerprint shown, exactly when the lock in place is the one read and can stand for the one inspected, the selected record changed, and both locks fit the apply limit. |
| `FlakeLockUpdate.PassesExactly` | src/nix_control_manager/flake_update_preview.py:350-640 | A preview passes exactly when the lock inspected has the input and it can be updated, the copy is exact, the source stays, the command changes the lock alone, and the candidate keeps the root table read and every other record inspected; it has found nothing to change exactly when the text is then the same. |
| `FlakeLockUpdate.RefusesExactly` | src/nix_control_manager/flake_update_preview.py:350-640 | For each reason, exactly when a preview is refused for it. |
| `FlakeLockUpdate.AcceptsExactly` | src/nix_control_manager/flake_lock_update.py:154-228 | The helper accepts exactly a safe name, the claimed source, another text within the limit, two strict locks with one root table, an input that can be updated, and a record that changes at this input and nowhere else. |
| `FlakeLockUpdate.InspectsExactly` | src/nix_control_manager/flake_inspector.py:185-233 | Exactly which locks pass the strict inspection, and which of their inputs can be updated. |
| `FlakeLockUpdate.OnePlanPerFingerprint` | src/nix_control_manager/flake_lock_update.py:133-265 | Two accepted plans with equal fingerprints have the same root, input, source, previous text, candidate text and changed nodes. |
| `FlakeLockUpdate.ShownIsAccepted` | src/nix_control_manager/flake_lock_update.py:133-265 | A passed preview and an accepted plan with equal fingerprints are about the same update: what was shown is what is applied. |
| `FlakeLockUpdate.OnePreviewPerFingerprint` | src/nix_control_manager/flake_update_preview.py:583-640 | Two passed previews with equal fingerprints show the same root, input, source, previous text, candidate text and changed nodes. |
| `FlakeLockUpdate.EveryPlanHasAPreview` | src/nix_control_manager/flake_lock_update.py:176-265 | Every plan the helper accepts is one that an undisturbed preview shows, under the same fingerprint. |
| `FlakeLockUpdate.ChangedNodesAreTheDifference` | src/nix_control_manager/flake_lock_update.py:229-236 | Overwriting the old node table at the changed nodes gives the new one, and no smaller set does. |
| `FlakeLockUpdate.AcceptedPlanTouchesOneInput` | src/nix_control_manager/flake_lock_update.py:206-228 | An accepted plan keeps the root input table and every other direct input's record, and changes the selected one's node. |
| `FlakeLockUpdate.SameLockPassesInVain` | src/nix_control_manager/flake_update_preview.py:583-626 | A preview whose text changed without changing the lock it means passes, and the helper refuses it. |
| `FlakeLockUpdate.PassesInVain` | src/nix_control_manager/flake_update_preview.py:583-626 | There is such a lock, in two spellings. |
| `FlakeLockUpdate.OvertakenPassesInVain` | src/nix_control_manager/flake_update_preview.py:372-422 | A lock replaced between its inspection and the fingerprint: a preview with a really changed record passes and the helper refuses it. |
| `FlakeUpdatePreview.PreviewJob.CandidateForApply` | src/nix_control_manager/flake_update_preview.py:246-284 | Exactly when a candidate is handed out, and exactly when the helper then accepts it under the displayed fingerprint. |
| `FlakeUpdatePreview.PreviewJob.MarkApplied` | src/nix_control_manager/flake_update_preview.py:286-300 | Exactly the displayed preview can be recorded as applied, also when its job failed after showing it, and from then on nothing is handed out. |
| `ManagedStates.NormalizeList` | src/nix_control_manager/catalog.py:394-418 | The loop over a catalog list keeps each acceptable item where it first stood, or refuses. |
| `ManagedStates.NormalizedTwice` | src/nix_control_manager/catalog.py:365-427 | Normalizing a catalog value is idempotent. |
| `ManagedStates.NormalizedExactly` | src/nix_control_manager/catalog.py:365-427 | Exactly which value a catalog setting is read as: a bad shape or item raises, a list keeps each item once, in the order of first places. |
| `ManagedStates.ReadingKeeps` | src/nix_control_manager/model.py:57-105 | A state that was read has exactly the names and settings of the text, each setting normalized. |
| `ManagedStates.ReadingTwice` | src/nix_control_manager/model.py:57-105 | A state that was read is what its own mapping reads as. |
| `ManagedStates.ReadsExactly` | src/nix_control_manager/model.py:57-96 | Exactly which objects read as a state: no other field, version one, a list of package names, and options whose names and values are acceptable. |
| `ManagedStates.LegacyPackages` | src/nix_control_manager/migration.py:38-82 | The loop over an old package map keeps exactly the selected names, in code point order, and lists those whose meaning is not clear. |
| `ManagedStates.MigratingLegacy` | src/nix_control_manager/migration.py:38-105 | Migrating an old state: a name is kept exactly if its value is true, or an object with at least one of the three flags, all present ones boolean and one true; it raises exactly for a bad name or a state that does not read; the options are those read. |
| `ManagedStates.PreviewMigration` | src/nix_control_manager/migration.py:58-105 | The preview of a migration, step by step, comes to exactly that. |
| `ManagedStates.MigratingTwice` | src/nix_control_manager/migration.py:58-105 | A migrated state migrates to itself and needs no migration any more. |
| `ManagedStates.MigratingCurrentIsReading` | src/nix_control_manager/migration.py:58-105 | On today's form migrating and reading give the same state. |
| `ManagedPlans.HelperRebuildsThePlan` | src/nix_control_manager/managed_helper_backend.py:73-109 | From the same files, state and target the helper rebuilds exactly the client's plan and accepts it. |
| `ManagedPlans.AcceptsExactly` | src/nix_control_manager/managed_helper_backend.py:73-109 | The helper accepts exactly the requests that a client makes of the same files, for the same target, and a state that can be stored. |
| `ManagedPlans.PlansExactly` | src/nix_control_manager/managed_plan.py:117-155 | Exactly which states are planned, for which target, and that a file is changed exactly when it does not hold its text. |
| `ManagedPlans.RequestsExactly` | src/nix_control_manager/helper_client.py:151-179 | A request has exactly the files that do not hold their texts, each with its text, its digest and that of what is there; there is none exactly when both do. |
| `ManagedPlans.InstalledPlanIsFixed` | src/nix_control_manager/managed_plan.py:89-155 | Once the planned changes are installed both files are canonical, the stored state reads back, and planning again changes nothing, as the apply workflow checks. |
| `ManagedPlans.AcceptedPlanIsCanonical` | src/nix_control_manager/managed_helper_backend.py:73-109 | Whatever request the helper accepts, installing it leaves both files the canonical texts of one state. |
| `ManagedPlans.InstalledModuleMeansTheState` | src/nix_control_manager/managed_plan.py:117-155 | The installed module reads back by the Nix grammar as the state, exactly when its names and values are readable and no attribute is defined twice. |
| `ManagedApply.ApplyRequest` | src/nix_control_manager/managed_apply_workflow.py:47-138 | From an accepted request to the disk: a reported commit was accepted by the validation and leaves both managed files the canonical texts of one state unless others edit them; a reported rollback leaves no candidate; undone and undisturbed the root is as it was; undisturbed and without errors the report is exactly what the validation came to. |
| `ManagedApply.NothingToDo` | src/nix_control_manager/managed_apply_workflow.py:70-76 | After an undisturbed apply of an accepted plan, planning again finds nothing to change. |

## Left out

- Transaction.CommitEntry: the check of a target and its replacement (`transaction.py:557-558`) are one step, so an edit that falls between them is not modelled there; the same window of a restore is.
- Transaction.RestoreFromManifest: that no target holds candidate content is claimed for targets into which no other program writes the candidate itself.
- Directories, file modes, symbolic links, fsync, the lock file and the fault-injection parameters of the transaction engine: contents only, one call at a time, operations durable in order.
- Transaction kinds, safety modes and root checks of a journal, which select journals before anything is changed.
- Transaction identifiers are fresh, so staged and restore copies belong to one transaction directory and foreign edits touch configuration files only.
- ActivationHistory.RunCalls: each backend call or unit is one step between others; calls that overlap are the subject of `ActivationInterleaving`.
- ActivationInterleaving.RunKeeps: a locked section that looks at the links and then writes is one step, and systemd's refusal of a second unit with the same name is not modelled, so units of one session may overlap.
- Activation.Machine.Recover: exit codes, timestamps and output texts kept in a session record are not modelled; schema checks of the session files neither.
- Verifying that a candidate closure is the validated plan's output, and running systemd and Nix: arbitrary results.
- NixReader.RoundTrip: floating-point values are not modelled, because their printed form is Python's and not part of the round trip.
- NixModule.ModuleBack: an attribute that is defined twice only when the module system merges the options of several modules is a matter of evaluation and not of reading.
- ManagedApply.ApplyRequest: what the validation of the installed files comes to is an arbitrary result, and the checks of the root that select a live configuration are not modelled.
- BuildPreview.RunActions: a worker whose job has been forgotten goes on touching only that job; it is not stepped further.
- BuildJob.Job.Emit: the texts of status events are abbreviated, and the time stamps and the report fields that no decision depends on are missing.
- The Home Manager build manager and the worker of flake update previews, which repeat the structure of the candidate build; of the latter the checks and the job's result are modelled, its threads and its cancellation are not.
- HelperService.Desk.Apply: details passed to the authorizer beyond target and fingerprint are not modelled; whether a policy file names an action at all is the authorizer's answer.
- Recovery requests, the commit and rollback requests and the capability listing of the dispatcher: they use no receipt.
- Payload schemas, target flags as a whole and daemon start-up: finite checks.
- FlakeLockUpdate.PreviewAndHelperAgree: lock texts are byte strings, reading JSON is an arbitrary function of the text, and the source digest of the file tree is injective.
- The lock-update apply sequence itself, which drives the transaction engine as the managed workflow does.
- ManagedPlans.HelperRebuildsThePlan: dumping and loading JSON are assumed inverse; what explicit settings require of each other is an arbitrary condition on the options.
- HTTP server, command line, socket transport, inspectors, catalogs and presets: plumbing and text heuristics without a hard invariant.

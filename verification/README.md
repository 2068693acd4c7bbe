# PartFlow: a verified model of its deployment control and its quantity history

The deployment tools of the repository change an installation step by step and promise that a crash, a second
writer or a cautious operator never leaves it half changed. The production backend promises that no quantity is ever
lost or made up, that every stored position is what the history says, and that an undo restores what was. This
project models the code that carries those promises and proves them.

| module | what it models |
|---|---|
| `InstallCore` | one atomic disk action, and how it may be interrupted: it happens, it is rejected, or the process dies before or after it |
| `ControlInstall` | the switch to another control release: a write-ahead journal of effects, forward, rollback, abandon, cancel and resume, with crashes and with other writers |
| `LegacyCopies` | the migration of old configuration files: private copies staged, linked into place without ever replacing a file, and removed again by inode and bytes |
| `WorkspaceSwitch` | the two renames that replace a workspace, their reconciliation, and keeping the old one |
| `Operations`, `OperationGate` | the records of lifecycle operations, the decision of a resume, the listed routes, the index and the gate that every mutating route passes |
| `DatabaseCleanup` | which candidate databases a cleanup lists |
| `AppEnv` | the strict `.env` parser, the snapshot printer and the line-preserving rewriter |
| `LegacyManifest` | the migration of old checkpoint manifests, against the independent manifest rules |
| `IsolatedTopology` | the isolated Compose model, against its separately written allowlist |
| `DeletionPlan` | the classified inventory and the closed deletion plan |
| `TrustedWalk` | the walk to a trusted executable, against POSIX pathname resolution, and the cached ancestor check |
| `Redaction` | the redactor of secrets, its stream and the bounded capture |
| `MovementHistory` | the append-only movements and lineage of production quantities, and what is derived from them |
| `QuantityBalance` | introduced, active, stocked and scrapped quantity per part number |
| `ProductionFlow` | the production commands and their undo on a ledger of stored flows |

A disk is a value, one atomic action at a time; a class holds what the code updates in place. `Host` objects carry
a schedule of faults (`faults`) and of changes by other processes (`tampering`), so a statement about every
schedule is a statement about every run. `Sound`, `Safe` and `Consistent` are what holds between any two disk
actions, whatever other processes do to the targets; `TargetsKept` is what holds of the targets until one of them
really changes something (`disturbed`).

The code differs from what its texts promise in six places; each has a concrete run or an exact condition here.

* A cancel is reported as "is cancelled" also when its journal write failed (`ControlInstall.CancelReportedButOpen`);
  `ControlInstall.Run.Drive` tells what each report leaves.
* An interrupted `resume --keep-workspace` damages a recorded stage that a plain resume then binds, because the
  two renames compare identities and not content (`WorkspaceSwitch.DamagedStageIsBound`).
* A backup that stops for an operator beside a pending switch closes every mutating route, since `needs_operator`
  counts as terminal where the pair is recognised (`OperationGate.ConflictMeansStoppedBackup`,
  `OperationGate.StoppedBackupCloses`).
* In `needs_operator` the aliases `backup` and `abort-deploy` are listed and refused
  (`OperationGate.RoutesAgreeWithGate`).
* The walk follows a link whose text ends in a slash to a file, which POSIX resolution refuses
  (`TrustedWalk.SlashedLinkWalksOn`).
* A secret that occurs in the redaction marker or straddles its border stays readable
  (`Redaction.SecretInsideMarker`, `Redaction.SecretAtTheBorder`); exactly which do is `Redaction.LeftExactly` and, for
  lists of tokens, `Redaction.CompleteExactly`.

## Model

| member | source | states |
|---|---|---|
| ControlInstall.Lifetime | deploy/synology/pf_install.py:3231-3275 | Over a first run and any number of resumes, with a crash between any two disk actions and other writers between steps: undisturbed, `completed` means every target holds its after bytes and `rolled_back` or `abandoned` its before bytes; `cancelled` means no target was ever written, even when disturbed; every write, restore or unlink replaced planned bytes by planned bytes; with no interrupt, no failing check and no other writer the operation ends `completed` |
| ControlInstall.TerminalPhaseTellsTargets | deploy/synology/pf_install.py:2064-2076 | What each terminal phase says about all targets, from the invariant between journal and disk |
| ControlInstall.CancelledWroteNothing | deploy/synology/pf_install.py:2801-2823 | A cancelled operation has no write to a target behind it, because its first binding was never journaled |
| ControlInstall.Resume | deploy/synology/pf_install.py:3231-3275 | Convergence, from every reachable open state and whatever other writers did before: one resume without an interrupt, during which nobody else writes, ends terminal exactly when no target it looks at is foreign. Forward it ends `completed` (all targets then hold their after bytes), or `cancelled` exactly when the staging is lost; a check that fails ends in `cancelled` before the commit point and in `rolled_back` after it, and none fails without a rejection in the schedule; backward it ends in the direction that the journal or the request says. Foreign content, met at whatever moment, ends in an operator report (or the process dies first) with the files as they were when it was met; a terminal operation is left alone |
| ControlInstall.Repaired | deploy/synology/pf_install.py:3231-3275 | Over every whole life with crashes and other writers: once the files are put in order, one more resume that nothing interrupts ends the operation exactly when no target it looks at is still foreign, and otherwise stops for the operator again with the files untouched |
| ControlInstall.StoppedAndRepaired | deploy/synology/pf_install.py:3269-3272 | A target turns foreign, the resume stops for the operator, the file is put back, and the next resume ends: completed with all after bytes, or cancelled where the tree was never staged |
| ControlInstall.Run.Forward | deploy/synology/pf_install.py:2311-2350 | The forward loop ends in `completed`; it writes only after bytes, in plan order; when nobody else writes and no target is foreign it ends with all targets at their after bytes, and needs no operator; a failed smoke or lost staging is met only before the first binding is journaled |
| ControlInstall.Run.ForwardOne | deploy/synology/pf_install.py:2318-2349 | One round (skip, adopt, refuse or execute) leaves the effect complete and nothing undone, and writes at most this effect's own after bytes |
| ControlInstall.Run.Intend | deploy/synology/pf_install.py:2052-2054 | Write-ahead: the intent is in the journal, with the recorded identity kept, before the disk changes; the disk is otherwise as it was |
| ControlInstall.Run.CompleteEffect | deploy/synology/pf_install.py:2056-2062 | Journals exactly this effect complete, and only what has really happened |
| ControlInstall.Run.Apply | deploy/synology/pf_install.py:2430-2574 | A finished effect is accomplished on disk: the release staged under a new identity, published by one rename, or the binding written |
| ControlInstall.Run.StageTree | deploy/synology/pf_install.py:2452-2463 | Staging is two steps (an empty directory, then its content); a finished one has the returned identity |
| ControlInstall.Run.PublishTree | deploy/synology/pf_install.py:2551-2555 | One rename moves exactly the staged tree to the release directory |
| ControlInstall.Run.Execute | deploy/synology/pf_install.py:2345-2349 | Intent, action and completion keep the invariant at every crash point |
| ControlInstall.Run.Adopt | deploy/synology/pf_install.py:2332-2339 | What is already on disk is journaled complete with the identity of what is there |
| ControlInstall.Run.RunCheck | deploy/synology/pf_install.py:2321-2325 | A check never changes a target; a failed one is told apart from an interruption |
| ControlInstall.Run.Finish | deploy/synology/pf_install.py:2390-2392 | `completed` is journaled only when every planned effect is done |
| ControlInstall.Run.RestoreBindings | deploy/synology/pf_install.py:2854-2875 | Puts the targets back last binding first, writing only before bytes; done means every target holds its before bytes |
| ControlInstall.Run.RestoreOne | deploy/synology/pf_install.py:2854-2875 | One restore: a reversed binding is skipped, an unknown target refuses, targets already restored stay restored |
| ControlInstall.Run.GiveBack | deploy/synology/pf_install.py:2866-2875 | A known target is put back and that is journaled; no other target turns foreign |
| ControlInstall.Run.PutBack | deploy/synology/pf_install.py:2854-2875 | The target is written as it was, or removed where it was absent |
| ControlInstall.Run.MarkReversed | deploy/synology/pf_install.py:2854-2875 | A restored binding is journaled reversed, an unjournaled one stays out of the journal |
| ControlInstall.Run.TurnBack | deploy/synology/pf_install.py:2877-2883 | From the journaled mark on the direction never turns forward again |
| ControlInstall.Run.Close | deploy/synology/pf_install.py:2877-2883 | The end of the way back is journaled only with every target at its before bytes |
| ControlInstall.Run.Rollback | deploy/synology/pf_install.py:2877-2883 | Ends in `rolled_back`, restores in reverse plan order, and fails only interrupted or on a foreign target |
| ControlInstall.Run.Abandon | deploy/synology/pf_install.py:2917-2946 | Ends in `abandoned` with the targets restored in reverse order and the staging gone |
| ControlInstall.Run.Cancel | deploy/synology/pf_install.py:2801-2823 | `cancelled` is journaled first; no target changes; the own staging and, undisturbed, the own release are removed |
| ControlInstall.Run.RemovePublished | deploy/synology/pf_install.py:2801-2823 | An own published release is renamed away before it is removed; another's release stays |
| ControlInstall.Run.EnterNeedsOperator | deploy/synology/pf_install.py:2786-2799 | Stops for an operator with every file as it was; the journal write may fail |
| ControlInstall.Run.Drive | deploy/synology/pf_install.py:2996-3078 | Which report leaves which durable journal: a cancel report leaves `cancelled` exactly when that was written and otherwise the open journal before it; an operator report leaves `needs_operator`, or an open journal when that was not written; an open report leaves the journal in memory and is never given short of the commit point. Uninterrupted, and meeting no foreign content, it ends by the check that failed, whatever other writers did before; with nobody else writing it meets foreign content only in a target that was foreign at its start. When the first two writes of a fresh run fail, a cancel is reported and the durable journal is untouched |
| ControlInstall.Run.AfterFailure | deploy/synology/pf_install.py:2998-3078 | The failure handling by exception: a failed verification rolls back, foreign content stops for the operator, anything else stays open or cancels |
| ControlInstall.Run.StayOrCancel | deploy/synology/pf_install.py:3040-3078 | Open exactly from the commit point on or when going back, cancelled otherwise; the cancel is reported whether its journal write happened or not |
| ControlInstall.Run.Judge | deploy/synology/pf_install.py:2321-2325 | A check at its turn: done exactly when it does not fail, its failure told by its name, nothing changed but the journal |
| ControlInstall.Run.Look | deploy/synology/pf_install.py:2328-2349 | What the observation leads to when others may have written just before: stop exactly on foreign content, which only a target can be, otherwise go on |
| ControlInstall.Run.Continue | deploy/synology/pf_install.py:2328-2349 | Adopt, give up or execute: the staging is reported lost exactly when the tree is neither published nor whole nor in memory; a finished binding holds its after bytes |
| ControlInstall.Run.LetOthersWrite | deploy/synology/pf_install.py:2172-2188 | Whatever others do to the targets, journal and release trees still agree |
| ControlInstall.Run.RollBackAfterVerify | deploy/synology/pf_install.py:3011-3035 | A failed verification after the commit point ends in `rolled_back` |
| ControlInstall.Run.FirstUnknown | deploy/synology/pf_install.py:3307-3332 | The pre-pass finds something exactly when a target it looks at is foreign, before anything is changed |
| ControlInstall.Run.LooksUnknown | deploy/synology/pf_install.py:3307-3332 | One look of the pre-pass: unknown exactly when the observation is |
| ControlInstall.Run.ReopenForward | deploy/synology/pf_install.py:3269-3272 | Out of `needs_operator`, whatever other writers did before: with no foreign target met, the recomputed phase lets the operation reach its end, `completed` when no check may fail and the staging is not lost |
| ControlInstall.PhaseFromMatches | deploy/synology/pf_install.py:3298-3304 | The phase recomputed from the effects is one the journal could have had |
| ControlInstall.PhaseFromPrefix | deploy/synology/pf_install.py:3298-3304 | The recomputed phase is `verifying` or `switching` exactly when such an effect is journaled |
| ControlInstall.PlannedEffectsListed | deploy/synology/pf_install.py:1944-1972 | The plan lists each of its effects once, at a fixed place |
| ControlInstall.IntendKeeps | deploy/synology/pf_install.py:2052-2054 | Journaling the next effect in plan order keeps journal and disk in agreement |
| ControlInstall.CompleteKeeps | deploy/synology/pf_install.py:2056-2062 | Journaling an accomplished effect keeps them in agreement |
| ControlInstall.CancelKeeps | deploy/synology/pf_install.py:2801-2823 | Cancelling before the commit point keeps them in agreement; a release found then is the own one |
| ControlInstall.RestoreKeeps | deploy/synology/pf_install.py:2854-2875 | Restoring one target keeps agreement, every restored target and what is seen of the others |
| ControlInstall.PutKeeps | deploy/synology/pf_install.py:2566-2574 | Writing the after bytes of one target keeps agreement |
| ControlInstall.ReverseKeeps | deploy/synology/pf_install.py:2854-2875 | Marking a restored binding keeps agreement |
| ControlInstall.TurnBackKeeps | deploy/synology/pf_install.py:2877-2884 | Journaling a rollback or abandon keeps agreement from every state |
| ControlInstall.CloseKeeps | deploy/synology/pf_install.py:2877-2884 | Closing with all targets restored keeps agreement |
| ControlInstall.PhaseKeeps | deploy/synology/pf_install.py:2046-2050 | Advancing the phase on the way forward keeps agreement |
| ControlInstall.TargetKnown | deploy/synology/pf_install.py:2172-2188 | Undisturbed, every target is seen before or after, and a reversed one holds its before bytes |
| ControlInstall.ObservationKnown | deploy/synology/pf_install.py:2167-2217 | Going forward, in every history, only a target can be foreign: the release trees are seen as they are journaled, and lost staging is only met before the commit point |
| ControlInstall.CancelReportedButOpen | deploy/synology/pf_install.py:3081-3093 | A concrete run: two journal writes in a row fail on a fresh operation, the operator is told it is cancelled, and the durable journal is still the open one it began with (the phase in memory changes before the write) |
| ControlInstall.ControlBindings | deploy/synology/pf_install.py:1572-1594 | The configuration is bound first, every record follows in order, then every wrapper whose bytes change and no other; targets are all different and the before bytes are those on disk |
| LegacyCopies.Lifetime | deploy/synology/pf_install.py:3231-3275 | Over every run with crashes, failing checks and other writers: undisturbed, `completed` means each target is the planned bytes under the recorded inode with no staged name; `abandoned` means no private name, no registration and undisturbed no copy is left; `cancelled` means no registration, and once a finished cancel was reported, through all later resumes, no private name is left and undisturbed no copy either; every target ever removed was an own inode with the planned bytes; with no interrupt, no failing check and no other writer the operation ends `completed` |
| LegacyCopies.CompletedIsPublished | deploy/synology/pf_install.py:2229-2260 | `completed` leaves each target as the planned bytes with the recorded inode and no staged name |
| LegacyCopies.Resume | deploy/synology/pf_install.py:3231-3275 | One resume without an interrupt, during which nobody else writes, whatever happened before: forward and without a check that may fail it completes exactly when no target is foreign and no copy is lost (once publication has begun, every copy is at its target or still staged); an abandon that is possible ends in `abandoned` in every case. With checks that fail it ends in `cancelled` when one before the registration fails, and in `needs_operator` when the verification or, going back, the discard of the registration does. A foreign target ends in `needs_operator` with the disk untouched; foreign targets keep inode and bytes in every case |
| LegacyCopies.Repaired | deploy/synology/pf_install.py:3231-3275 | Over every whole life with crashes and other writers: after one more change of a target by anybody, an uninterrupted resume completes exactly when no target is foreign and no copy is lost; a published copy that was taken away is not made again |
| LegacyCopies.Run.Forwards | deploy/synology/pf_install.py:2311-2350 | The forward loop ends in `completed`; when nobody else writes, only if no target was foreign and no copy lost, and uninterrupted also if so; a failed stage is met only before the registration is journaled |
| LegacyCopies.Run.ForwardOne | deploy/synology/pf_install.py:2318-2349 | One round leaves the effect complete and nothing undone, touches no other role and leaves foreign targets alone; a publication is done only if its target was the own copy, or free with the copy staged |
| LegacyCopies.Run.Look | deploy/synology/pf_install.py:2328-2349 | What the observation leads to: adopt, refuse, redo or execute |
| LegacyCopies.Run.Redo | deploy/synology/pf_install.py:2381-2388 | A partial staged copy is removed and staged again |
| LegacyCopies.Run.Adopt | deploy/synology/pf_install.py:2332-2339 | What is already on disk is journaled complete with the identity of the copy that is there |
| LegacyCopies.Run.AfterObservedComplete | deploy/synology/pf_install.py:2369-2379 | Adopting a published copy drops exactly its own leftover staged name |
| LegacyCopies.AdoptionFits | deploy/synology/pf_install.py:2358-2379 | The identity adopted for an observed stage or publication is the one the journal may call complete |
| LegacyCopies.AdoptedIsOwn | deploy/synology/pf_install.py:2358-2367 | The identity adopted for an observed stage is an inode of this operation |
| LegacyCopies.Run.StageCopy | deploy/synology/pf_install.py:2690-2717 | Create, write out and return the identity: the staged name holds the planned bytes under a new own inode |
| LegacyCopies.Run.CreateAndFill | deploy/synology/pf_install.py:2690-2717 | Create, then write out: a finished one is staged with the planned bytes, an unfinished one is no recorded identity |
| LegacyCopies.Run.FillCopy | deploy/synology/pf_install.py:2690-2717 | The bytes are written to an inode that no journal entry names yet |
| LegacyCopies.Run.PublishCopy | deploy/synology/pf_install.py:2738-2752 | Publication never replaces a file: a target that appeared meanwhile needs an operator |
| LegacyCopies.Run.LinkAndDrop | deploy/synology/pf_install.py:2738-2752 | Link, then unlink: at every crash point the copy has at least one name |
| LegacyCopies.Run.DropStaged | deploy/synology/pf_install.py:2738-2752 | Unlinks exactly the staged name, only when the copy is published, is redone or the operation goes back |
| LegacyCopies.Run.RegisterInstance | deploy/synology/pf_install.py:2671-2688 | The registration converges when it is repeated |
| LegacyCopies.Run.RunCheck | deploy/synology/pf_install.py:2321-2325 | A check changes nothing but the journal |
| LegacyCopies.Run.Execute | deploy/synology/pf_install.py:2345-2349 | Intent, action and completion keep the invariant at every crash point |
| LegacyCopies.Run.Apply | deploy/synology/pf_install.py:2430-2432 | A finished effect is accomplished on disk, and a returned identity is an own inode |
| LegacyCopies.Run.Intend | deploy/synology/pf_install.py:2052-2054 | Exactly this effect becomes intended; the rest of the disk stays |
| LegacyCopies.Run.CompleteEffect | deploy/synology/pf_install.py:2056-2062 | Exactly this effect becomes complete, with an own identity |
| LegacyCopies.Run.Finish | deploy/synology/pf_install.py:2390-2392 | `completed` is journaled only when every planned effect is done |
| LegacyCopies.Run.RemoveCopies | deploy/synology/pf_install.py:2842-2852 | Removes exactly the targets that are own copies, and every staged name |
| LegacyCopies.Run.RemoveCopy | deploy/synology/pf_install.py:2844-2852 | A target goes only with the recorded inode and the planned bytes |
| LegacyCopies.Run.DropTarget | deploy/synology/pf_install.py:2846-2848 | Unlinks exactly one own target |
| LegacyCopies.Run.Cancel | deploy/synology/pf_install.py:2801-2823 | `cancelled` first, then exactly the own copies are removed |
| LegacyCopies.Run.TurnBack | deploy/synology/pf_install.py:2917-2925 | Journals the abandon and keeps the recorded identities |
| LegacyCopies.Run.DiscardRegistration | deploy/synology/pf_install.py:2948-2968 | Done means the registration is gone; one that is in use stays for the operator; no copy is touched |
| LegacyCopies.Run.Abandon | deploy/synology/pf_install.py:2917-2946 | Ends in `abandoned` with exactly the own copies removed |
| LegacyCopies.Run.CloseAbandoned | deploy/synology/pf_install.py:2944-2946 | `abandoned` is journaled only with nothing of this operation left |
| LegacyCopies.Run.EnterNeedsOperator | deploy/synology/pf_install.py:2786-2799 | Stops for an operator with the disk as it was |
| LegacyCopies.Run.Drive | deploy/synology/pf_install.py:2996-3078 | Which report leaves which durable journal: finished leaves `completed` or `abandoned`; an operator report `needs_operator`, or an open journal when that was not written; a cancel report `cancelled` exactly when that was written, and a finished one a clean disk; an open report the journal in memory, past the registration or on the way back. With nobody else writing and uninterrupted the end is told by the check that failed, forward when no target is foreign and no copy lost, and without a rejection in the schedule it is reported finished |
| LegacyCopies.Run.Fail | deploy/synology/pf_install.py:3010-3078 | Which exception leads to which report and durable journal: foreign content and a failed verification to the operator; anything else to an open operation past the registration or going back, and to a cancel before it; foreign targets are untouched |
| LegacyCopies.Run.Reopen | deploy/synology/pf_install.py:3269-3272 | Out of `needs_operator`, whatever happened before, an operation with no foreign target and no lost copy completes when no check may fail, and no other does |
| LegacyCopies.Run.FirstUnknown | deploy/synology/pf_install.py:3319-3332 | The pre-pass finds a foreign target exactly when there is one |
| LegacyCopies.IntendKeeps | deploy/synology/pf_install.py:2052-2054 | Journaling the next effect keeps journal and disk in agreement |
| LegacyCopies.CompleteKeeps | deploy/synology/pf_install.py:2056-2062 | Journaling an accomplished effect keeps them in agreement |
| LegacyCopies.CreateKeeps | deploy/synology/pf_install.py:2690-2717 | Creating the staged name keeps agreement |
| LegacyCopies.FillKeeps | deploy/synology/pf_install.py:2690-2717 | Writing the staged copy keeps agreement |
| LegacyCopies.LinkKeeps | deploy/synology/pf_install.py:2738-2752 | Linking a copy to its absent target keeps agreement |
| LegacyCopies.UnstageKeeps | deploy/synology/pf_install.py:2738-2752 | Dropping a staged name keeps agreement when the copy is published, not recorded or the operation goes back |
| LegacyCopies.RemoveKeeps | deploy/synology/pf_install.py:2842-2852 | Removing a target on the way back keeps agreement |
| LegacyCopies.RegisterKeeps | deploy/synology/pf_install.py:2671-2688 | The registration steps keep agreement |
| LegacyCopies.EnterKeeps | deploy/synology/pf_install.py:2046-2050 | Entering a phase whose conditions hold keeps agreement |
| LegacyCopies.MarkKeeps | deploy/synology/pf_install.py:2917-2925 | Journaling an abandon or a discard touches no planned effect |
| LegacyCopies.ObservationKnown | deploy/synology/pf_install.py:2229-2260 | Going forward, in every history, only a target can be foreign: stages and registration are seen as they are journaled |
| LegacyCopies.TargetKnown | deploy/synology/pf_install.py:2229-2247 | Undisturbed, no target is foreign, and a publication journaled complete is seen complete |
| LegacyCopies.ChangedKeeps | deploy/synology/pf_install.py:2229-2247 | Whatever another process does to the targets, the private copies and the journal still agree: before the first publication it cannot reach them |
| LegacyCopies.ServedExactly | deploy/synology/pf_install.py:2738-2752 | A publication can be done exactly when its target is the own copy, or free with the copy staged |
| LegacyCopies.RolesAside | deploy/synology/pf_install.py:2311-2350 | An effect changes for no other role whether it can be published, also when the first publication begins |
| LegacyCopies.FirstPublication | deploy/synology/pf_install.py:2311-2350 | The first publication finds every copy staged and no target an own copy |
| LegacyCopies.KeptIsRecoverable | deploy/synology/pf_install.py:2311-2350 | Undisturbed, no target is foreign and no copy is lost |
| LegacyCopies.ForeignIsInTheWay | deploy/synology/pf_install.py:3319-3332 | A foreign target keeps the operation from completing |
| LegacyCopies.OwnOrNothing | deploy/synology/pf_install.py:2842-2852 | Undisturbed, whatever is at a target is the recorded copy |
| LegacyCopies.StagedBefore | deploy/synology/pf_install.py:2738-2752 | A copy journaled for publication and not yet there waits under its staged name |
| LegacyCopies.NotRecorded | deploy/synology/pf_install.py:2056-2062 | A stage that is not complete has no recorded identity |
| LegacyCopies.CreatedIsMine | deploy/synology/pf_install.py:2690-2717 | A new staged copy is a new own inode and leaves foreign targets alone |
| LegacyCopies.FilledIsMine | deploy/synology/pf_install.py:2690-2717 | Writing a staged copy leaves foreign targets alone |
| LegacyCopies.LinkedIsMine | deploy/synology/pf_install.py:2738-2752 | Linking leaves foreign targets alone |
| LegacyCopies.RemovedIsMine | deploy/synology/pf_install.py:2842-2852 | Removing an own copy leaves foreign targets alone and is recorded as own |
| WorkspaceSwitch.RowsOfOwnStates | deploy/synology/pf_config.py:3261-3281 | In every state the protocol itself wrote: the row is never `foreign`, the workspace is absent exactly in the rows between the renames and stage lost, `bind-done` is exactly the bound state, and the old tree is at the workspace or retained |
| WorkspaceSwitch.Lifetime | deploy/synology/pf-admin.py:8926-8956 | Over a first run and any number of resumes of both kinds with a stop between any two steps: the old tree is at one of its two names, an absent workspace means retain started and bind not complete; with plain resumes only, absent means exactly between the renames and a new workspace is a whole tree |
| WorkspaceSwitch.Switch.GoOn | deploy/synology/pf-admin.py:8926-8956 | An uninterrupted first run or plain resume finishes exactly when the state can go on; the bound tree is whole exactly when the recorded stage was |
| WorkspaceSwitch.Switch.RunStage | deploy/synology/pf-admin.py:8942-8951 | W1, with a stage left unknown observed first, ends recorded and keeps the same ends in reach |
| WorkspaceSwitch.Switch.StageAnew | deploy/synology/pf-admin.py:8825-8858 | A new tree under the private stage name is recorded with its identity |
| WorkspaceSwitch.Switch.BuildStage | deploy/synology/pf-admin.py:8840-8858 | Done means a whole staged tree under an identity that was not recorded |
| WorkspaceSwitch.Switch.RemoveStage | deploy/synology/pf_instance.py:1218-1239 | A tree is gone only after its content: a stop in between leaves it damaged under the same identity |
| WorkspaceSwitch.Switch.RunRetain | deploy/synology/pf-admin.py:8958-9005 | W2, reconciled first when left unknown, ends complete and keeps the same ends in reach |
| WorkspaceSwitch.Switch.Restage | deploy/synology/pf-admin.py:9015-9020 | Under the intent of W2 the own partial stage is built again and its new identity recorded |
| WorkspaceSwitch.Switch.Retain | deploy/synology/pf-admin.py:8860-8871 | The old tree moves to the retained name, the stage is not looked at |
| WorkspaceSwitch.Switch.RunBind | deploy/synology/pf-admin.py:8958-9005 | W3 finishes exactly when the state can go on, and binds a whole tree exactly when the stage was whole |
| WorkspaceSwitch.Switch.Bind | deploy/synology/pf-admin.py:8873-8883 | The staged tree becomes the workspace by identity alone |
| WorkspaceSwitch.Switch.RunManifest | deploy/synology/pf-admin.py:8885-8889 | The manifest is written only after the bind |
| WorkspaceSwitch.Switch.Keep | deploy/synology/pf-admin.py:9040-9065 | Keeping ends with the old tree at the workspace and no stage, refuses exactly on a kept or bound switch without changing anything, and interrupted in the removal leaves the journal as it was and the recorded stage damaged |
| WorkspaceSwitch.Switch.GoHome | deploy/synology/pf-admin.py:9049-9060 | The old tree is renamed back where it was moved, and the own stage removed |
| WorkspaceSwitch.Switch.Rebind | deploy/synology/pf-admin.py:9050-9053 | The retained tree gets the name of the workspace back, the stage stays |
| WorkspaceSwitch.DamagedStageIsBound | deploy/synology/pf-admin.py:9007-9013 | A concrete run from the beginning: a first run that stops after its stage was recorded, a keep interrupted while it removes that stage, and a plain resume that finishes with the damaged tree bound, because retain and bind compare identities only |
| Operations.AbandonIsAntitone | deploy/synology/pf_config.py:2998-3055 | For every kind and plan: once an abandon is illegal it stays illegal as more effects start, a deletion approval appears or the refresh becomes pending |
| Operations.AbandonRule | deploy/synology/pf_config.py:2998-3055 | The abandon is legal exactly under one readable condition on what started, per kind |
| Operations.BackwardsMeansUntouched | deploy/synology/pf_config.py:2998-3055 | Close, reopen and withdraw imply that only staging, stop, capture, verification or (for an update) candidate effects started, and end cancelled |
| Operations.KindKeys | deploy/synology/pf_config.py:2940-2990 | The listed commands of each kind, as one condition per command |
| Operations.SwitchGoesForward | deploy/synology/pf_config.py:2616-2622 | Inside the workspace switch a resume goes forward and may keep the workspace, nothing else |
| Operations.ListedResumesAreLegal | deploy/synology/pf_config.py:2912-2990 | `resume`, `--abandon` and `--keep-workspace` are listed exactly when the resume decision allows them |
| Operations.RecordedAbandonIsLegal | deploy/synology/pf_config.py:2912-2990 | After a recorded abandon of a restore only the abandon is listed, and it is legal unless an effect outside the target preparation started |
| Operations.WorkspacePositions | deploy/synology/pf_config.py:2610-2613 | Exactly the workspace effects, in order |
| Operations.WorkspaceIds | deploy/synology/pf_config.py:2610-2613 | Four positions inside the plan or none |
| Operations.LaterReaches | deploy/synology/pf_config.py:2569-2573 | What an earlier journal reached, a later one reached |
| OperationGate.ClassifyOperations | deploy/synology/pf_config.py:2731-2768 | Each directory has exactly the class its records give: invalid, closed, superseded by the latest taker-over, or blocking |
| OperationGate.CollectTakers | deploy/synology/pf_config.py:2737-2742 | The first pass finds exactly the operations that took over, per operation |
| OperationGate.Last | deploy/synology/pf_config.py:2743-2749 | The latest by creation stamp, then by identifier |
| OperationGate.ClockAndOrderDoNotMatter | deploy/synology/pf_config.py:2731-2768 | Which operations block depends on which records there are, not on creation stamps or file order |
| OperationGate.FinalSuperseder | deploy/synology/pf_config.py:2776-2785 | Ends on every index, cycles included, and finds the end of the chain exactly when there is one |
| OperationGate.ClosedChain | deploy/synology/pf_config.py:2776-2785 | A chain that only meets entries seen before never leaves them |
| OperationGate.ChainsEnd | deploy/synology/pf_config.py:2776-2785 | In every state that obeys the gate the chain ends, at an operation not created earlier |
| OperationGate.Blocked | deploy/synology/pf_config.py:2750-2751 | Exactly the blocking and invalid entries, in order |
| OperationGate.RoutesAgreeWithGate | deploy/synology/pf_config.py:2912-2990 | The two separately written functions, for every valid single open operation: a listed command is not served exactly for the `backup` and `abort-deploy` aliases in `needs_operator`; beside the resumes, only a restore with a recorded abandon is admitted without being listed |
| OperationGate.KindAgrees | deploy/synology/pf_config.py:3097-3258 | The same exact agreement for one kind-specific command on one plan and journal |
| OperationGate.ResumeAgrees | deploy/synology/pf_config.py:3097-3258 | A listed resume re-enters the operation; `resume` is refused exactly in `needs_operator` |
| OperationGate.StepKeeps | deploy/synology/pf_config.py:3097-3258 | Every step that the gate allows keeps the instance sound |
| OperationGate.RunsStaySound | deploy/synology/pf_config.py:3097-3258 | At every moment of every run nothing blocks, one operation does, or one backup and one untouched pending switch |
| OperationGate.WithdrawUnblocks | deploy/synology/pf_config.py:3097-3258 | Cancelling an operation that took another over makes exactly the other one blocking again |
| OperationGate.PairOf | deploy/synology/pf_config.py:2757-2763 | Of a backup beside a pending switch, the backup counts as open exactly until it needs an operator, and only the switch waits |
| OperationGate.PairRecognised | deploy/synology/pf_config.py:2757-2763 | In a sound instance a backup beside a pending switch is the pair exactly until the backup stops for an operator |
| OperationGate.ConflictMeansStoppedBackup | deploy/synology/pf_config.py:2757-2768 | In a sound instance the index is in conflict exactly when the backup beside a pending switch is in `needs_operator` |
| OperationGate.ConflictIsFinal | deploy/synology/pf_config.py:3097-3258 | In conflict every route but the cleanup report is refused and no step changes anything |
| OperationGate.StoppedBackupCloses | deploy/synology/pf_config.py:2757-2768 | A concrete run of three allowed steps into that conflict: a deploy waits for its workspace, a backup with its capture and seal effects runs beside it, is resumed and stops for an operator |
| DatabaseCleanup.CleanupCandidates | deploy/synology/pf_config.py:3487-3516 | Lists each database exactly when it exists, is not the current one, a closed operation recorded it, no readable operation that is not closed did, and no incomplete switch names it; once each, with a closed operation that recorded it |
| DatabaseCleanup.NamesInUse | deploy/synology/pf_config.py:3497-3505 | Exactly the names that open operations recorded and those of incomplete switches |
| DatabaseCleanup.ListNames | deploy/synology/pf_config.py:3512-3516 | One closed operation adds exactly its free names, none twice |
| DatabaseCleanup.OperationClosed | deploy/synology/pf_config.py:3465-3470 | Closed, or superseded with a chain that ends closed and not cancelled |
| DatabaseCleanup.OneEnd | deploy/synology/pf_config.py:2776-2785 | A supersession chain has one end |
| DatabaseCleanup.EndTookOver | deploy/synology/pf_config.py:2731-2768 | The end of a chain took an operation over, so it was not cancelled |
| DatabaseCleanup.AllClosedWhenNothingBlocks | deploy/synology/pf_config.py:3465-3470 | In every state that obeys the gate, all operations count as closed exactly when nothing blocks |
| DatabaseCleanup.FreeGateListsAll | deploy/synology/pf_config.py:3487-3516 | With a free gate every recorded database that exists, is not current and is not half switched is listed |
| AppEnv.RewriteAppEnv | deploy/synology/pf_config.py:716-761 | Succeeds exactly on a stated condition on base, overrides and additions; the result parses to the base overridden and extended; every other line keeps its exact text and ending |
| AppEnv.OverrideLines | deploy/synology/pf_config.py:732-745 | Overridden lines are replaced, every other is kept, and a key counted once is a key of the base |
| AppEnv.AppendExtra | deploy/synology/pf_config.py:747-751 | The additions follow on a line of their own, in declared order |
| AppEnv.SelfCheck | deploy/synology/pf_config.py:752-761 | The parse of the rewritten text succeeds exactly for acceptable requests, with the intended values |
| AppEnv.RewrittenParses | deploy/synology/pf_config.py:716-761 | The replaced lines parse to the overridden values exactly when all overrides used are writable |
| AppEnv.AppendParses | deploy/synology/pf_config.py:746-756 | The appended lines parse to the added values exactly when all are writable and none repeats a key |
| AppEnv.AppendedSplit | deploy/synology/pf_config.py:746-751 | Appending adds lines at the end and splits none, with or without a final newline |
| AppEnv.SameKey | deploy/synology/pf_config.py:734-742 | The rewriter and the parser see the same key on every line that parses |
| AppEnv.OneLineEach | deploy/synology/pf_config.py:441-518 | A file that parses has one line for every key it assigns and none for any other |
| AppEnv.ParseAppEnv | deploy/synology/pf_config.py:441-518 | The loop computes the line-by-line meaning of the file |
| AppEnv.ReadValue | deploy/synology/pf_config.py:480-516 | The value rules: single quoted, double quoted with a comment tail, or plain |
| AppEnv.ParseDoubleQuoted | deploy/synology/pf_config.py:419-438 | The loop computes the escape meaning of a double-quoted body |
| AppEnv.FindClosingQuote | deploy/synology/pf_config.py:486-499 | The search over quotes and backslash counts finds what the escape automaton finds |
| AppEnv.ParityIsEscape | deploy/synology/pf_config.py:486-499 | On every string the backward backslash-parity search agrees with a left-to-right escape automaton |
| AppEnv.UnescapeEscape | deploy/synology/pf_config.py:419-438 | Escaping backslash and quote and unescaping is the identity |
| AppEnv.EscapeThenClose | deploy/synology/pf_config.py:486-499 | The closing quote of an escaped value is where the value ends, whatever follows |
| AppEnv.EscapedValue | deploy/synology/pf_config.py:486-516 | An escaped double-quoted value with any comment tail reads back exactly when it has no control character |
| AppEnv.QuotedValue | deploy/synology/pf_config.py:480-485 | A renderable value between single quotes reads back as itself |
| AppEnv.UnquotedValue | deploy/synology/pf_config.py:502-508 | A plain value reads back as itself |
| AppEnv.RenderedValue | deploy/synology/pf_config.py:703-713 | A writable value is rendered and reads back as itself |
| AppEnv.WrittenLine | deploy/synology/pf_config.py:703-713 | A rendered line reads back exactly when its value is writable and is refused otherwise |
| AppEnv.ControlLine | deploy/synology/pf_config.py:461-468 | A control character that is no blank makes a line unparsable |
| AppEnv.SnapshotRoundTrip | deploy/synology/pf_config.py:521-531 | The frozen snapshot exists exactly for complete renderable values, and parses back to exactly them |
| AppEnv.SnapshotParses | deploy/synology/pf_config.py:521-531 | Line by line, the snapshot adds its values to what was parsed before |
| AppEnv.JoinOfSplit | deploy/synology/pf_config.py:732-746 | Joining the split lines gives the text back |
| AppEnv.SplitOfJoin | deploy/synology/pf_config.py:732-746 | Splitting joined lines gives the lines back |
| LegacyManifest.MigrationMeetsRules | deploy/synology/pf_config.py:3734-3910 | For each of the three capture classes, the migrated checkpoint manifest meets all independent rules exactly when no listed payload is empty, source and dump are not the empty file and at most 20000 migration files are listed |
| LegacyManifest.MigrateCheckpoint | deploy/synology/pf_config.py:3734-3910 | Succeeds exactly on the stated inputs and builds one payload per checksum |
| LegacyManifest.PayloadRules | deploy/synology/pf_config.py:1878-2157 | The payload rules hold exactly for sound sums |
| LegacyManifest.StoreRules | deploy/synology/pf_config.py:3653-3706 | The store rules hold: dump and list are payloads of the store, and nothing refers to an unlisted file |
| LegacyManifest.GroupRules | deploy/synology/pf_config.py:1878-2157 | The consistency group names the store and claims nothing |
| LegacyManifest.MissingRules | deploy/synology/pf_config.py:1878-2157 | What an old manifest lacks is excluded or listed as a limitation |
| LegacyManifest.ClassRules | deploy/synology/pf_config.py:3868-3881 | The chosen capture class meets the rules of that class |
| LegacyManifest.KindRules | deploy/synology/pf_config.py:1878-2157 | A checkpoint has none of the purge parts, and its source is only claimed |
| LegacyManifest.KnowledgeRules | deploy/synology/pf_config.py:1878-2157 | Nothing is claimed that was never recorded |
| LegacyManifest.BoundRules | deploy/synology/pf_config.py:1878-2157 | The size bounds hold exactly with at most 20000 migration files |
| LegacyManifest.FewSums | deploy/synology/pf_config.py:3616-3639 | A checkpoint can list at most four payloads |
| IsolatedTopology.IsolationMeetsAllowlist | deploy/synology/pf_docker.py:517-665 | An accepted model is turned into one without a finding exactly when the images are image IDs, database and backend have no port list, and no kept part but the database test has a dollar sign |
| IsolatedTopology.IsolateModel | deploy/synology/pf_docker.py:517-531 | The member-by-member edits of a fresh copy compute the isolated model |
| IsolatedTopology.StartAll | deploy/synology/pf_docker.py:521-527 | Every service gets its image and never restarts; no service is lost |
| IsolatedTopology.ServiceMeets | deploy/synology/pf_docker.py:607-665 | One isolated service is valid exactly with an image ID, without a port list, and with an environment that needs no escape |
| IsolatedTopology.ServicesMeet | deploy/synology/pf_docker.py:607-665 | The same for all three services, and clean kept parts need no escape |
| IsolatedTopology.FrameMeets | deploy/synology/pf_docker.py:544-606 | Outside the services the isolated model meets the allowlist |
| IsolatedTopology.KeptDollars | deploy/synology/pf_docker.py:533-541 | Beside the test, the isolated model has the dollar signs of the kept parts and no other |
| IsolatedTopology.ModelDollars | deploy/synology/pf_docker.py:533-541 | Dollar signs stand only inside the test exactly when there are none beside its route |
| IsolatedTopology.CleanHasNoPaths | deploy/synology/pf_docker.py:533-541 | The path search finds nothing exactly in a value without dollar signs |
| IsolatedTopology.CleanButPaths | deploy/synology/pf_docker.py:533-541 | All found paths lie under a route exactly when there are no dollar signs beside it |
| IsolatedTopology.RouteEndsInList | deploy/synology/pf_docker.py:533-541 | A path through the test goes on into one of its items |
| IsolatedTopology.CleanEnvironment | deploy/synology/pf_docker.py:286-290 | Without dollar signs the escape mode does not matter |
| IsolatedTopology.DoublingShows | deploy/synology/pf_docker.py:286-290 | Doubling keeps a dollar sign visible and changes nothing else |
| IsolatedTopology.EnvelopeShape | deploy/synology/pf_docker.py:292-366 | What acceptance guarantees about the three services |
| DeletionPlan.ClassifyInventory | deploy/synology/pf_docker.py:946-1043 | Every resource of the daemon that a rule has a class for is listed in that class, and nothing else |
| DeletionPlan.RetainedMounts | deploy/synology/pf_docker.py:1004-1020 | Every foreign volume and bind mount of own containers is retained, each name once |
| DeletionPlan.UnblockedIsClosed | deploy/synology/pf_docker.py:1046-1073 | Without blockers, whoever uses an owned store is an owned container, and no foreign container uses an owned tag |
| DeletionPlan.PlanDeletion | deploy/synology/pf_docker.py:1096-1150 | A plan exists exactly without blockers, and places each owned resource as the coverage says |
| DeletionPlan.CoverTags | deploy/synology/pf_docker.py:1133-1141 | An image is deleted exactly when all owned tags of it are covered |
| DeletionPlan.RetainTags | deploy/synology/pf_docker.py:1126-1129 | Exactly the given tags are retained |
| DeletionPlan.OwnedKeysApart | deploy/synology/pf_docker.py:946-1043 | Kind and key identify an owned resource |
| DeletionPlan.OwnedIsConserved | deploy/synology/pf_docker.py:1096-1150 | Every owned resource is in exactly one of candidates, pending images and retained exclusions |
| DeletionPlan.CandidatesTakeWholeImages | deploy/synology/pf_docker.py:1133-1141 | No tag is deleted while another tag of its image is retained |
| DeletionPlan.FreshPlanHasNoViolation | deploy/synology/pf_docker.py:1184-1189 | Whoever uses a planned store is a planned container: a fresh plan has no violation |
| DeletionPlan.TagsOfPlan | deploy/synology/pf_docker.py:1153-1158 | The owned tags of a plan and its other candidates, for any coverage |
| DeletionPlan.CoverageDoesNotMatter | deploy/synology/pf_docker.py:1161-1181 | A pending and a bound plan of one inventory compare clean for every coverage |
| TrustedWalk.ResolveTrustedExecutable | deploy/synology/pf_runner.py:129-194 | On every tree with arbitrary links the loop ends and computes the trusted resolution; below the root, every proper ancestor of a result is a real directory that passed the trust test |
| TrustedWalk.WalkAgainstPosix | deploy/synology/pf_runner.py:129-194 | A result equals POSIX pathname resolution (section 4.13 of IEEE Std 1003.1-2017, Base Definitions) exactly when no final link text ends in a slash or a dot component before a file |
| TrustedWalk.WalkNamesTheSameFile | deploy/synology/pf_runner.py:129-194 | With tidy links it equals that resolution on every system that follows at least 16 links |
| TrustedWalk.SlashedLinkWalksOn | deploy/synology/pf_runner.py:129-194 | A concrete tree on which the walk returns a file that POSIX resolution refuses |
| TrustedWalk.Concatenation | deploy/synology/pf_runner.py:143-173 | Resolving one list of pending components after another is resolving the two in turn |
| TrustedWalk.OneComponent | deploy/synology/pf_runner.py:157-182 | One loop round is one component of the nested resolution, a link's text put in front |
| TrustedWalk.StrictOnlyRefuses | deploy/synology/pf_runner.py:157-182 | The trust checks only refuse, they never lead elsewhere |
| TrustedWalk.DroppingVoids | deploy/synology/pf_runner.py:143-149 | Dropping empty and dot components matters only where a trailing one stands after a non-directory |
| TrustedWalk.LenientAgainstPosix | deploy/synology/pf_runner.py:162-174 | Exactly where a resolution that drops void components of link texts differs from POSIX |
| TrustedWalk.TidyIsNeverSlashed | deploy/synology/pf_runner.py:162-174 | Links whose texts end in a name never make that difference |
| TrustedWalk.MoreLinksSameObject | deploy/synology/pf_runner.py:162-165 | A higher link limit finds the same object |
| TrustedWalk.PathChecker.Ancestors | deploy/synology/pf_bootstrap.py:272-304 | With the cache, findings and verdict are those of a check of every ancestor without it |
| Redaction.Forward | deploy/synology/pf_runner.py:302-337 | For tokens of one line, any cut of the output into reads emits the one-shot redaction of the whole while lines fit the buffer; output without secrets passes unchanged, whatever its lines; and no token clear of the marker is left in what is emitted, for every cut and every line length |
| Redaction.Stream.Feed | deploy/synology/pf_runner.py:313-328 | One read keeps the stream in step with the one-shot redaction, and sealed: whatever comes next, no token begins in what was emitted |
| Redaction.Stream.ForwardLongLine | deploy/synology/pf_runner.py:320-328 | Cutting a line longer than the buffer forwards text without secrets unchanged, and forwards no part of a secret: the tail kept back is as long as the longest token |
| Redaction.Stream.Prepare | deploy/synology/pf_runner.py:313-328 | What the next read will find, in both good states |
| Redaction.Stream.Close | deploy/synology/pf_runner.py:330-333 | What is pending is forwarded: the whole output was redacted, and with tokens clear of the marker no secret is in it |
| Redaction.Stream.constructor | deploy/synology/pf_runner.py:305-311 | The stream holds back as much as the longest token |
| Redaction.SealedByLine | deploy/synology/pf_runner.py:313-319 | Forwarding redacted whole lines keeps the stream sealed |
| Redaction.SealedByTail | deploy/synology/pf_runner.py:320-328 | So does forwarding all but a tail as long as the longest token |
| Redaction.SealedToTheEnd | deploy/synology/pf_runner.py:330-333 | Forwarding the rest of a sealed stream leaves no token in its output |
| Redaction.ReplaceByLines | deploy/synology/pf_runner.py:116-119 | A token without newline is replaced line by line as in the whole |
| Redaction.RedactByLines | deploy/synology/pf_runner.py:116-119 | Redaction line by line is redaction of the whole |
| Redaction.RedactNothing | deploy/synology/pf_runner.py:116-119 | Text without a secret is left as it is |
| Redaction.NothingLeft | deploy/synology/pf_runner.py:116-119 | Tokens clear of the marker, which neither occur in it nor share its border, are not left in the output of any text |
| Redaction.ClearNeverLeft | deploy/synology/pf_runner.py:116-119 | A token clear of the marker is never left, whatever the other tokens are |
| Redaction.CompleteExactly | deploy/synology/pf_runner.py:116-119 | For every list of tokens, with brackets or not, in which each token that shares a border of the marker holds one of the list that is clear of it: nothing is ever left exactly when no token occurs in the marker |
| Redaction.CompleteWithoutBrackets | deploy/synology/pf_runner.py:116-119 | In particular for every list of tokens without brackets |
| Redaction.GuardHelps | deploy/synology/pf_runner.py:116-119 | A concrete token that alone is left in some text and beside another token never is |
| Redaction.UnmarkedIsSame | deploy/synology/pf_runner.py:116-119 | A redaction that holds no marker is the text itself |
| Redaction.LeftExactly | deploy/synology/pf_runner.py:116-119 | For every single token: it is left in some text exactly when it occurs in the marker, or begins with the end of the marker, or ends as the marker begins (or holds a marker there) behind a front that its first match does not cut off |
| Redaction.LeftByMarker | deploy/synology/pf_runner.py:116-119 | A token found after its replacement is one of these three |
| Redaction.LeftSomewhere | deploy/synology/pf_runner.py:116-119 | For each of the three, a text in which the token is left |
| Redaction.MarkerTextStays | deploy/synology/pf_runner.py:116-119 | A token that occurs in the marker survives every list of tokens |
| Redaction.SecretInsideMarker | deploy/synology/pf_runner.py:116-119 | A concrete secret that is part of the marker and stays readable |
| Redaction.SecretAtTheBorder | deploy/synology/pf_runner.py:116-119 | A concrete secret that is no part of the marker and stays readable at its border, and one with a bracket that never does |
| Redaction.Redactor.Add | deploy/synology/pf_runner.py:97-106 | A secret of at least four bytes is known plain and encoded, a shorter one not |
| Redaction.Redactor.AddToken | deploy/synology/pf_runner.py:97-106 | A new token is added once, in its place by length |
| Redaction.Redactor.Longest | deploy/synology/pf_runner.py:108-109 | The longest token |
| Redaction.Insert | deploy/synology/pf_runner.py:97-106 | Insertion keeps the tokens longest first and loses none |
| Redaction.Capture.Feed | deploy/synology/pf_runner.py:282-288 | Any cut of the output keeps the same bytes |
| Redaction.Capture.Data | deploy/synology/pf_runner.py:293-299 | All bytes, or the first `limit` less the held ones when something was cut off |
| MovementHistory.UndoRestores | backend/app/application/undo.py:394-434 | Whatever happened to other flows in between: an undo puts every flow that the command touched and did not make back at the very movements that told its position when the command began |
| MovementHistory.BlockKeeps | backend/app/application/projections.py:1-56 | Every step of a command keeps the history well formed: whole commands, reversals newest first, flows open until their last movement, descent recorded before the child, quantity left where lineage and scrap found it |
| MovementHistory.UndoKeeps | backend/app/application/undo.py:692-926 | So does an undo of the newest command of every flow it touched |
| MovementHistory.UndonePosition | backend/app/application/projections.py:249-280 | Reading the history without the command is reading it after the undo, through any lineage |
| MovementHistory.SamePosition | backend/app/application/projections.py:249-280 | What is written later moves no position of the past |
| MovementHistory.PastPosition | backend/app/application/projections.py:249-280 | A living flow was then where the history up to then says |
| MovementHistory.StatusByLast | backend/app/application/reconciliation.py:939-960 | The status implied by lineage and movements together is told by the last movement alone; the two never contradict each other |
| MovementHistory.ConsumedAtLast | backend/app/application/projections.py:668-687 | A parent of an effective edge is exactly a flow whose last movement is its consumption |
| MovementHistory.ParentEnded | backend/app/application/projections.py:249-280 | A flow that lives descends from parents whose last movement is that descent |
| MovementHistory.EndIsLast | backend/app/application/projections.py:164-197 | An effective scrap, stock or consumption is the last movement of its flow |
| MovementHistory.NotUndone | backend/app/application/projections.py:652-665 | A command with an effective movement was not undone |
| MovementHistory.TouchedStatus | backend/app/application/reconciliation.py:939-960 | After a step, the row it wrote is the last of its flow and implies its status |
| MovementHistory.BlockPosition | backend/app/application/projections.py:249-280 | After a step, a row that tells a position is the position; another leaves it, or takes it from the first parent |
| MovementHistory.ActivePlace | backend/app/application/projections.py:771-819 | An active flow is where its last movement led, also through lineage |
| MovementHistory.UntouchedAgrees | backend/app/application/reconciliation.py:963-1037 | A flow without a row in the step agrees with its replay as before |
| MovementHistory.UninvolvedAgrees | backend/app/application/reconciliation.py:963-1037 | A flow that an undone command did not touch agrees with its replay as before |
| MovementHistory.ParentUntouched | backend/app/application/undo.py:305-390 | Whoever lives on after an undo descends from flows that the command did not touch |
| MovementHistory.PositionUntouched | backend/app/application/undo.py:394-434 | A flow that lives on after an undo, and that the command did not touch below a bound, keeps its position there |
| MovementHistory.MadeIsGone | backend/app/application/undo.py:394-434 | A flow that the undone command made has no effective movement left |
| MovementHistory.TouchedIsActive | backend/app/application/undo.py:394-434 | A flow that it touched and did not make is active again, where the plan says |
| MovementHistory.Newest | backend/app/application/projections.py:200-229 | The newest counting movement below a bound, or none |
| MovementHistory.First | backend/app/application/undo.py:268-274 | The first movement of a flow, reversed or not |
| MovementHistory.LowestParent | backend/app/application/projections.py:238-246 | The parent with the lowest number, or none |
| QuantityBalance.BalanceHolds | backend/app/application/reconciliation.py:1272-1330 | All received quantity, and the added quantity less what was taken back, equals active plus stocked plus scrapped, for every part number, whenever the stored flows agree with their replay and no receipt is reversed |
| QuantityBalance.EffectiveBalance | backend/app/application/reconciliation.py:1272-1330 | The same over the movements that still count, without the condition on receipts |
| QuantityBalance.IntroducedRows | backend/app/application/reconciliation.py:1272-1303 | Without reversed receipts, the movements that still count add up to all received rows, plus the added and less the reversed added ones |
| QuantityBalance.MovedByFlow | backend/app/application/projections.py:822-849 | Adding up effective movements is adding up flows, when at most one counts per flow |
| QuantityBalance.FlowTerms | backend/app/application/reconciliation.py:1272-1330 | The terms of one flow: introduced or descended, and active, stocked, scrapped or passed on |
| QuantityBalance.StepKeepsBalance | backend/app/application/reconciliation.py:1045-1266 | A step that passes on exactly what it consumes keeps the balance |
| QuantityBalance.StepNet | backend/app/application/reconciliation.py:1045-1266 | Flow by flow: what a step consumes stops living, what it makes starts |
| QuantityBalance.UndoKeepsBalance | backend/app/application/undo.py:692-926 | An undo keeps the balance: it gives back what the command consumed and takes what it made |
| QuantityBalance.UndoNet | backend/app/application/undo.py:394-434 | Flow by flow: reopened flows live again, made flows stop |
| QuantityBalance.ClosedKind | backend/app/application/projections.py:822-849 | A flow has an effective scrap or stock exactly when that is its last movement |
| ProductionFlow.Run | backend/app/application/undo.py:692-926 | Any commands and undos in any order, each under the configuration of its moment: the stored flows are the replay of the history, no receipt is ever reversed, and every part number is in balance |
| ProductionFlow.Ledger.Undo | backend/app/application/undo.py:692-926 | Recorded exactly when the command is the newest of every flow it touched, is no reversal, stock or receipt, and its targets are in use; untouched flows stay, made flows end, every other is where it was when the command began; refused or replayed, nothing changes |
| ProductionFlow.Ledger.Eligible | backend/app/application/undo.py:305-390 | The check row by row is the condition on the whole command |
| ProductionFlow.Ledger.Plan | backend/app/application/undo.py:394-434 | The plan restores every flow, and tells whether the areas and machines it needs are in use |
| ProductionFlow.RestoredAsBefore | backend/app/application/undo.py:394-434 | The plan is the state at the beginning of the command, whatever other flows did in between |
| ProductionFlow.SameAsStored | backend/app/application/undo.py:394-434 | A flow put back as it was at some length of the history equals the record that a valid ledger of that length stored, when that was active |
| ProductionFlow.UndoIsValid | backend/app/application/undo.py:692-926 | Reversals and restored flows together agree with their replay and keep the balance |
| ProductionFlow.UndoReverses | backend/app/application/undo.py:856-893 | One reversal for every row of the command, and for no other |
| ProductionFlow.EligibleRows | backend/app/application/undo.py:305-390 | All rows eligible is the command undoable |
| ProductionFlow.CommandRows | backend/app/application/machine_processing.py:222-230 | Exactly the rows of the command, in order |
| ProductionFlow.StepIsValid | backend/app/application/reconciliation.py:963-1037 | A step that stores what its rows say and passes on what it consumes keeps the ledger valid |
| ProductionFlow.PushIsValid | backend/app/application/machine_processing.py:513-540 | One row on an active flow keeps it valid |
| ProductionFlow.IntroduceIsValid | backend/app/application/quantity_events.py:570-604 | A new flow with its introducing row keeps it valid |
| ProductionFlow.SplitIsValid | backend/app/application/lineage.py:296-372 | A split keeps it valid: the children are where the source was |
| ProductionFlow.SplitPasses | backend/app/application/lineage.py:296-372 | The children of a split have exactly the quantity of the source |
| ProductionFlow.MergeIsValid | backend/app/application/lineage.py:427-499 | A merge keeps it valid: the result is where the sources were |
| ProductionFlow.MergePasses | backend/app/application/lineage.py:427-499 | The result of a merge has exactly the quantity of its sources |
| ProductionFlow.Balance | backend/app/application/reconciliation.py:1272-1330 | Every valid ledger is in balance for every part number |
| ProductionFlow.UndoTakesNoReceipt | backend/app/application/undo.py:305-390 | An undo leaves every receipt in force, so the balance may add every received row |
| ProductionFlow.Ledger.Select | backend/app/application/machine_processing.py:429-453 | The whole flow, or the selected child of a split whose remainder stays |
| ProductionFlow.Ledger.Receive | backend/app/application/production_release.py:434-560 | Recorded exactly into an active area that is not terminal; one new flow |
| ProductionFlow.Ledger.AddQuantity | backend/app/application/quantity_events.py:451-616 | Recorded exactly beside active quantity of the part number in the area; one new flow |
| ProductionFlow.Ledger.FindWitness | backend/app/application/quantity_events.py:408-448 | Finds active quantity of the part number in the area exactly when there is some |
| ProductionFlow.Ledger.Assign | backend/app/application/machine_processing.py:553-662 | Recorded exactly for queued quantity and a machine of that area in service; the part is on the machine, the rest stays |
| ProductionFlow.Ledger.LeaveMachine | backend/app/application/machine_processing.py:665-750 | Recorded exactly for quantity on that machine; the part leaves it, the rest stays on it |
| ProductionFlow.Ledger.Scrap | backend/app/application/quantity_events.py:211-341 | The part leaves production, the rest stays |
| ProductionFlow.Ledger.Arrive | backend/app/application/transfers.py:823-1168 | Recorded exactly from the confirmed source to another active area of the right kind; the part moves (or is stocked) off any machine, processed quantity is completed first, the rest stays |
| ProductionFlow.Ledger.Merge | backend/app/application/merges.py:246-371 | Recorded exactly for distinct active flows of one part number, place, machine and state; all are consumed, one flow with their total takes their place |
| ProductionFlow.Ledger.CloseSources | backend/app/application/lineage.py:209-213 | Exactly the sources are closed |

## Left out

Weaker than the code, member by member:

- ControlInstall.Run.Save: the journal has its phase and its effects by name; the order of the effect list, sequence
  numbers, time stamps, result, last error and next-step texts are not modelled.
- ControlInstall.Host.OthersWrite: other processes write between an observation and the one before it, not between an
  observation and the write it leads to; the release directories are changed by this operation only.
- ControlInstall.Resume: the kinds `init` and `register`, the launcher effects and the locks are not modelled; equal
  hashes stand for equal content.
- LegacyCopies.Lifetime: inode numbers are never reused; staged names are private to the operation; the launcher
  effects are not modelled; a cancel whose removal was interrupted is not reported as finished and may leave own copies.
- ControlInstall.Run.EnterNeedsOperator: the code swallows operating system errors of this save only, and an interrupt in
  it ends the process with its own exception; the model makes no difference and gives the operator report for both.
- LegacyCopies.Run.EnterNeedsOperator: the same holds here.
- LegacyCopies.Run.Fail: the texts of the messages are not modelled.
- WorkspaceSwitch.Switch.GoOn: the preflight, the validation of the bound workspace, other writers and inode reuse are
  not modelled.
- Operations.KindKeys: plan rules beyond those the decisions use (phase order, evidence, approvals) are not modelled;
  targets are typed prefixes, and effects are addressed by position instead of by identifier.
- OperationGate.StepKeeps: `backup emergency` is not a step; a new operation appears with its plan and journal at once.
- OperationGate.RoutesAgreeWithGate: message texts and the text-only route `manual` are not modelled.
- DatabaseCleanup.CleanupCandidates: the names a record mentions are given with the record; the other cleanup classes
  (topologies, attempts, stages, generations, histories, bundles, tags) are not modelled.
- AppEnv.ParseAppEnv: text is a sequence of characters after UTF-8 decoding; labels and line numbers of messages are not
  modelled. The error of the rewriter about differing values is never reached.
- LegacyManifest.MigrateCheckpoint: purge bundles, the migration record and the grammars of names, stamps and digests are
  not modelled.
- IsolatedTopology.IsolationMeetsAllowlist: the envelope rules that the isolated form drops (port details, build
  details, image override) and the derivation of topology names are not modelled.
- DeletionPlan.PlanDeletion: identities beyond the key, sort orders and the other two plan kinds are not modelled.
- TrustedWalk.ResolveTrustedExecutable: the file system does not change during the walk; a component is a name, and an
  access control list is one of the facts about an object.
- ProductionFlow.Ledger.Undo: the station that recorded a command, adjusted routes and the reason policy are not modelled;
  a reused number with another request counts as a replay.
- ProductionFlow.Ledger.Merge: operations and routes of the sources are not compared, and the sources are written in the
  order in which they are given.
- ProductionFlow.Ledger.Receive: the demand and the route behind a release or a receipt are not modelled.
- Redaction.Forward: a line longer than the buffer that holds a secret is cut where the reads fall, so its output is shown
  to hold no secret clear of the marker and is not given as one text; tokens added to an open stream are not modelled.
- Redaction.CompleteExactly: a list of several tokens, one of which shares a border of the marker and holds no token that
  is clear of it, has no exact condition: there it depends on which matches the other tokens take away first.
- Redaction.Redactor.Add: URL encoding is abstract, lengths are counted in bytes, and decoding for display is not modelled.

Not modelled at all:

- Runner records, acknowledgements, the report of a cleanup and the operator summaries: tables and texts.
- Schema tables and the generic schema validator: records are typed values.
- Process handling, signals, locks, fsync and permissions: an action is atomic and durable when it returns.
- Capacity checks, daemon scope checks and report parsers: short checks without an invariant.
- Demand, allocation, routes, workers, stations and the read models of the backend; the database, its locks and its
  constraints: a command is one atomic step.

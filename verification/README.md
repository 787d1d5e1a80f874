# Device-change transactions of the kcloud operator

The operator changes accelerators only after a durable record: operations that take a node's lease and journal each
step before it happens, partition policies that journal every cordon, reboot and GPU-instance change, and sharing
policies that journal the configuration they are about to write. This project states what these records are worth when
processes crash between any two writes, calls fail, leases expire, copies are stale and Jobs expire, and proves it for
every run.

- `Journal`, `Conflict`, `Coordinator`: the write-ahead journal, admission, and one pass of the operation coordinator as
  a function of the stored objects, the lease table and what the environment answers.
- `OperationInvariant`, `CoordinatorRuns`, `Termination`: what every pass keeps, runs of any number of operations and
  policy deletions, and when an operation ends. `Outcomes`: what each pass makes of an operation. `Fencing`: the status write with processes working from stale copies.
- `OperationReconciler`: the coordinator in its own form, a reconciler whose methods rewrite one in-memory operation,
  the lease table and the store; every method is proved to leave what the functions above say.
- `MigModel`: one pass of an NVIDIA partition policy as a sequence of writes and hardware commands, each of which a
  script lets happen, fail, or be the place where the process dies. `MigJournal`, `MigCoverage`, `MigRuns`: reboot budget,
  cordon ownership, coverage of the instances made, finality of a rollback. `MigSteady`: runs of truthful passes. `MigOutcomes`, `MigGuards`: what a pass leaves, and when.
  `MigReconciler`: the same pass in place.
- `MigDeletion`, `MigDeletionProofs`, `DeletionOutcomes`, `DeletionReconciler`: the deletion of a partition policy, record by record.
- `SharingModel`, `Sharing`, `SharingRuns`, `SharingOutcomes`, `SharingReconciler`: sharing-only policies, the cluster-wide
  configuration and the MPS control daemon.
- `Layered`: one pass of a policy that first makes its partition ready and then shares it, over both of these models.
- `Converged`, `ConvergedPartition`, `ConvergedSharing`: policies that have converged, watched by the drift monitor, and
  the gate that keeps their passes off the node and the cluster.
- `DeviceReset`, `ResetTarget`, `StripComments`, `Inventory`: when a device can be reset and by which command, the
  comment-line fixpoint and the allocation figures.

## Conventions

Times are seconds on a clock that never goes back. A pass is atomic except for the crash points a script names and the
three steps of a fenced write. Journal details and status messages are not kept. Environment answers (participant
events, observations, verification results, whether a call succeeds) are inputs of a pass, so each lemma holds for all
of them. Fields such as `made`, `jobs`, `applies`, `disables`, `created` and `lost` count what happened and are read by no step.

Each reconciler class has one method per step of the source, proved to leave exactly what the function of the same name
leaves; the table names the whole passes, and the steps that promise something beyond that.

## Where the code falls short of its description

Each of these is proved, with the exact condition where one exists.

- The transition table sends WaitingForReboot back to Applying on a reported boot, so a participant that keeps reporting
  boots never ends (`Termination.RepeatedBootsNeverEnd`); the node-reboot participant does not (`Termination.NodeRebootEnds`).
- The status write compares epochs but takes the version from its second read, so a stale pass at an equal epoch
  overwrites newer journal lines (`Fencing.StaleWriteAtSameEpochLosesLines`), exactly when the second read has lines the first had not
  (`Fencing.MoveKeepsLinesIff`, `Fencing.RunKeepsLinesIff`).
- A mode switch journals its phase over the record of existing instances, and deletion then leaves them
  (`MigRuns.NewTargetHidesInstances`, exact in `MigCoverage.CoverageKeptIff`).
- It also journals its phase over the record of a rollback, and the same generation applies again
  (`MigRuns.SwitchAppliesAgain`, exact in `MigRuns.RollbackIsTerminal`).
- After a failed mode enable the phase stays in the switch, so the next pass cordons without recording it
  (`MigRuns.CordonTrackedIff`).
- A sharing policy that reads a node under another policy's configuration can keep the multiplied count
  (`SharingRuns.ForeignReadPoisonsBase`, exact in `Sharing.BaseIsPhysicalIff`).
- An abandoned first sharing apply that cannot take its configuration back clears the journal all the same, and the next
  pass keeps the multiplied count (`SharingRuns.ForgottenConfigPoisonsBase`, exact in `Sharing.PassSoundIff` and
  `SharingRuns.SoundThroughoutIff`).
- A rollback of sharing does not stop partition applies of its generation (`Layered.SharingRollbackLeavesPartition`, exact
  in `Layered.PartitionAppliesIff`); a rollback of the partition stops both (`Layered.NeitherAppliesAgain`).
- After an mps edit that does not converge the mps configuration and journal come back but the daemon is deleted, and the
  closed generation deletes it again (`SharingRuns.LeftWithoutDaemonIff`); a failed edit to time-slicing and a give-up that
  is not put on record do the same (exact in `SharingRuns.DaemonLossPossibleIff`).
- A reset whose creating pass loses its write can be repeated (`DeviceReset.LostWriteResetsTwice`), as long as no reset is
  on record and the operation has not ended (`DeviceReset.ResetPossibleIff`).
- A command shared by several descriptors is graded for the last one in the list only, so a refused product can be reset
  (`ResetTarget.RefusedProductIsReset`), exactly when their grades differ (`ResetTarget.OrderDecidesGradeIff`).
- Two passes within one second can leave an ungraded verification as it is (`Termination.ProgressIff`).

## Model

| member | source | states |
|---|---|---|
| Journal.AppendJournal | internal/operation/journal.go:40-47 | the loop returns the journal unchanged when the (step, epoch) pair is on it, else the journal with one line added at its end |
| Journal.AppendKeeps | internal/operation/journal.go:40-47 | appending any step but the lease keeps a journal well kept: no (step, epoch) twice, epochs in order and none above the current one, one lease line per epoch |
| Journal.AppendLeaseKeeps | internal/controller/operation_controller.go:230-233 | raising the epoch and journaling the lease keeps the journal well kept, and the lease is the first line of the new epoch |
| Journal.FirstAtIsFirst | internal/controller/operation_controller.go:335-342 | the start of the apply is the time of the first line of that step |
| Journal.LastAtIsLast | internal/controller/operation_controller.go:347-355 | the grace of a verification runs from the last line of that step |
| Conflict.Admit | internal/operation/conflict.go:48-71 | admission blocks exactly when some active claim conflicts, names the first blocker in name order, and reports a dependency only where the two claims really touch |
| Conflict.BlocksSymmetric | internal/operation/model.go:90-102 | blocking does not depend on who asks |
| Conflict.BlocksIff | internal/operation/conflict.go:48-71 | two claims block each other exactly when both change something, they are not a partition change and the plugin restart that depends on it, and they name one resource or facets of one PCI device |
| Conflict.DeviceOfMeans | internal/operation/model.go:116-159 | a key names a PCI device exactly when it has the shape device/address/facet |
| Conflict.FacetsOfOneDevice | internal/operation/model.go:116-159 | two facets of one PCI device block each other although their keys differ, for any two changes that are not a partition change beside its plugin restart |
| OperationInvariant.ReconcileKeeps | internal/controller/operation_controller.go:83-142 | one pass, with any answers, lease loss, failed step or lost write, keeps the invariant of stored operations and only continues the stored status: the journal grows at its end, the epoch does not fall, the snapshot stays |
| OperationInvariant.CallsUnderOwnLease | internal/controller/operation_controller.go:93-120 | whenever a pass calls a participant, the node's lease was taken or renewed for this operation in that same pass |
| OperationInvariant.AcquireRaisesEpoch | internal/controller/operation_controller.go:203-235 | an operation that takes the lease never already held it: the epoch always rises by one and the lease is journaled there |
| CoordinatorRuns.WriteAheadInEveryRun | internal/controller/operation_controller.go:153-156 | in every run, an operation applying or waiting for a reboot has a snapshot and, at its current epoch, lease, snapshot, quiescing and start of apply journaled in that order; its journal is well kept |
| CoordinatorRuns.RollbackAttemptsBounded | internal/controller/operation_controller.go:441-462 | in every run, lease losses included, rolling back is never stored with three attempts used |
| CoordinatorRuns.JournalsOnlyGrow | internal/controller/operation_controller.go:465-471 | along every run every later journal of an operation extends every earlier one |
| CoordinatorRuns.ActiveSetConflictFree | internal/controller/operation_controller.go:168-200 | in every run the active operations are pairwise conflict-free, also after lease losses, and a blocked operation has no lease, no epoch and an empty journal |
| CoordinatorRuns.ActiveShareNothing | internal/controller/operation_controller.go:168-200 | in every run no two active operations that change something name one resource or one PCI device, but for a partition change and its plugin restart |
| CoordinatorRuns.PassTable | internal/controller/operation_controller.go:93-132 | a pass makes at most one acquisition, then at most one release, with every participant call in between |
| CoordinatorRuns.NoTwoActUnderOneLease | internal/controller/acceleratorpartitionpolicy_controller.go:1534-1540 | for any number of operations and delegated policy deletions in any interleaving, two different lease identities act on one node only if the first one's lease ran out or was given back in between |
| Outcomes.FailedApply | internal/controller/operation_controller.go:360-398 | a reported failure goes to verification, with the end of the apply on record, exactly when the devices were observed and every one shows the target; to rollback when they were observed otherwise or cannot be asked for; and is looked at again five times before it is given up when they cannot be observed |
| Outcomes.EndsIff | internal/controller/operation_controller.go:401-462 | an operation succeeds in exactly the pass that, verifying and under its lease, is graded, has no verifier or asks for none; it is rolled back in exactly the pass whose participant reports the compensation |
| Outcomes.EndsAreEarned | internal/controller/operation_controller.go:401-462 | in every run a succeeded or rolled back operation went through such a pass |
| Outcomes.TurnsIff | internal/controller/operation_controller.go:261-433 | an operation goes to verification, or to rollback, in exactly the passes named by the participant's report, the observation, the missing grade and the missing node |
| Outcomes.GivesUpIff | internal/controller/operation_controller.go:261-462 | an operation is given up in exactly the passes in which its participant is gone, its apply ran out of 20 minutes, its devices stayed unobservable, or its compensation failed for good |
| Outcomes.RebootIff | internal/controller/operation_controller.go:285-331 | only a participant that asks for a reboot leaves an operation waiting for one, and only a boot or a report that says neither ends the wait |
| Outcomes.AdmittedIff | internal/controller/operation_controller.go:168-200 | an operation is admitted in exactly the passes that list the others and find none of the active ones in the way, and otherwise names the least of those in its way |
| Outcomes.PreparedIff | internal/controller/operation_controller.go:203-235 | a planning operation is prepared in exactly the passes that find the lease free, expired or its own, with a new epoch and the lease renewed and on record |
| Outcomes.SentBackIff | internal/controller/operation_controller.go:97-120 | an operation that holds the lease goes back to planning in exactly the passes that see it gone, calls nobody in them and keeps what it journaled |
| Outcomes.QuiescedIff | internal/controller/operation_controller.go:238-254 | a prepared operation is quiesced in exactly the passes that see its node, and keeps its first snapshot |
| Outcomes.StartsIff | internal/controller/operation_controller.go:153-156 | a quiesced operation starts its apply, on record, in exactly the passes under its lease, and no participant runs in them |
| Outcomes.LeaseAfterwards | internal/controller/operation_controller.go:122-137 | a pass that ends the operation gives the node's lease back, any other under the lease leaves it renewed, and no pass touches another node's lease |
| Termination.ProgressIff | internal/controller/operation_controller.go:261-331 | past the apply deadline, every persisted pass that gets its lease moves the operation strictly closer to an end if and only if it neither reports a boot that is already journaled nor comes within the second of the pass before, over a verification that is not graded yet |
| Termination.EndsInTime | internal/controller/operation_controller.go:292-305 | past the deadline an operation makes at most 212 passes plus two per repeated boot report, whatever else the participant reports, not counting passes within one second that only wait for a grade |
| Termination.NodeRebootNeverRepeats | internal/controller/operation_reboot.go:128-162 | the node-reboot participant reads the journal first, so it never reports a boot twice |
| Termination.NodeRebootEnds | internal/controller/operation_reboot.go:128-162 | a node reboot past its deadline ends within 212 passes, not counting passes within one second that only wait for a grade |
| Termination.RepeatedBootsNeverEnd | internal/operation/state_machine.go:62-65 | a participant that alternates "reboot required" and "boot observed" keeps its operation from every end for any number of passes past the deadline |
| OperationReconciler.LiveOperation.ApplyStartedAt | internal/controller/operation_controller.go:335-342 | the loop finds the time of the first start of the apply, whatever its epoch |
| OperationReconciler.LiveOperation.LastJournalAt | internal/controller/operation_controller.go:347-355 | the loop finds the time of the last line of a step |
| OperationReconciler.LiveOperation.Record | internal/controller/operation_controller.go:465-471 | journals a step at the current epoch and changes nothing else of the operation |
| OperationReconciler.Reconciler.Acquire | internal/operation/lease.go:56-103 | takes the lease exactly when it is free, expired or already ours and no race was lost, and renews it |
| OperationReconciler.Reconciler.Release | internal/operation/lease.go:106-117 | gives back only one's own lease |
| OperationReconciler.Reconciler.ActiveClaims | internal/controller/operation_controller.go:173-183 | the loop collects exactly the claims of the other active operations |
| OperationReconciler.Reconciler.StepAdmit | internal/controller/operation_controller.go:168-200 | leaves exactly the status of the admission step; the blocker it stores is the least name among all blockers |
| OperationReconciler.Reconciler.WriteStatus | internal/controller/operation_controller.go:478-490 | stores the status exactly when the update succeeds and the stored epoch is not above the pass's own |
| OperationReconciler.Reconciler.Reconcile | internal/controller/operation_controller.go:83-142 | a pass over the stored objects, step method by step method, leaves exactly the stored status and lease table of the run theorems, and only the visited object changes |
| Fencing.StoredEpochNeverFalls | internal/controller/operation_controller.go:473-490 | with any number of processes computing anything from copies of any age, the stored epoch never falls |
| Fencing.WriteLandsIff | internal/controller/operation_controller.go:478-490 | in every reachable state a write changes the object if and only if its second read is the newest version and no epoch above the pass's own is stored; a result below the stored epoch changes nothing |
| Fencing.PassKeepsLinesIff | internal/controller/operation_controller.go:83-142 | a pass over one version keeps the lines of another, none journaled at the instant of the pass, if and only if the version it read has them all |
| Fencing.MoveKeepsLinesIff | internal/controller/operation_controller.go:478-490 | in every reachable state, with real passes each at an instant of its own, a move keeps every stored journal line if and only if it is not a write that lands although its second read shows lines its first read did not |
| Fencing.RunKeepsLinesIff | internal/controller/operation_controller.go:478-490 | over whole runs of any number of processes no journal line is ever lost if and only if no such write lands, each pass having an instant of its own |
| Fencing.OneVersionKeepsLines | internal/controller/operation_controller.go:478-490 | if every write named the version its pass was computed from, each stored version would continue the one before it: no line, epoch or snapshot would ever be lost |
| Fencing.StaleWriteAtSameEpochLosesLines | internal/controller/operation_controller.go:487-489 | the version is taken from the second read, so a stale pass at an equal epoch erases the end of an apply and sends a verifying operation back to applying |
| MigJournal.PassKeeps | internal/controller/acceleratorpartitionpolicy_controller.go:132-227 | a whole pass, cut off or disturbed at any step, keeps the reboot budget on record, never lifts a cordon of the operator that the record does not claim, and never has a reboot scheduled on a schedulable node |
| MigCoverage.CoverageKeptIff | internal/controller/acceleratorpartitionpolicy_controller.go:438-598 | from a covered state all instances the policy made stay covered at every crash point and under every failure of a pass, if and only if the pass neither starts a mode switch or a cordon while instances exist nor journals targets that leave some out |
| MigCoverage.PassCovers | internal/controller/acceleratorpartitionpolicy_controller.go:552-565 | a pass that does not expose instances leaves a record that names the policy, lists every GPU with instances and is in a phase deletion rolls back |
| MigRuns.InstancesAlwaysCovered | internal/controller/acceleratorpartitionpolicy_controller.go:1565-1566 | in every state of a run without an exposing pass, cut off anywhere, deletion would find every instance the policy made |
| MigRuns.SteadyTargetsAreQuiet | internal/controller/acceleratorpartitionpolicy_controller.go:513-548 | truthful observations of all GPUs with instances, none of whose targets needs its mode switched, are enough for a pass not to expose anything |
| MigSteady.SteadyRunsStayCovered | internal/controller/acceleratorpartitionpolicy_controller.go:1565-1566 | over every run of truthful passes that see all GPUs with instances and switch no mode, cut off and disturbed anywhere, the instances stay where they were made and deletion would find them all |
| MigRuns.NewTargetHidesInstances | internal/controller/acpp_migmode.go:309-323 | a ready policy that sees a further GPU with its mode off overwrites its record with a phase deletion does not roll back, although its instances are there |
| MigRuns.RollbackIsTerminal | internal/controller/acceleratorpartitionpolicy_controller.go:489-500 | once a rollback is on record for the generation no pass of it begins an apply, and the record stays closed under every crash and failure if and only if the pass starts no mode switch |
| MigRuns.NoApplyAfterRollback | internal/controller/acceleratorpartitionpolicy_controller.go:489-500 | over whole runs, no apply begins after a journaled rollback while the generation lasts and no mode switch starts |
| MigRuns.SwitchAppliesAgain | internal/controller/acpp_migmode.go:309-323 | a mode switch overwrites the record of a rollback, and the same generation applies again after the boot, under truthful observations |
| MigRuns.CordonTrackedIff | internal/controller/acpp_migmode.go:309-323 | the policy never forgets a cordon of its own at any crash point, if and only if the pass does not re-enter a mode switch whose cordon was given back, nor enters one while still holding an earlier cordon |
| MigRuns.OperatorCordonStandsIff | internal/controller/acpp_migmode.go:328-347 | an operator's cordon survives every pass of every policy if and only if the record does not claim it |
| MigRuns.OperatorCordonStays | internal/controller/acpp_migmode.go:325-347 | over whole runs, an operator's cordon on a node the policy had no claim on stays until the operator lifts it |
| MigRuns.RebootsOnlyCordoned | internal/controller/acpp_migmode.go:328-347 | over whole runs a scheduled reboot never finds the node schedulable: the cordon comes before the Job, and the Job is cancelled before the cordon is lifted |
| MigRuns.RebootsBounded | internal/controller/acpp_migmode.go:354-384 | in every run at most two enable-reboot Jobs are created between two observations of a settled mode, each on record before it exists |
| MigOutcomes.ReadyIsVerified | internal/controller/acceleratorpartitionpolicy_controller.go:574-598 | wherever a pass is cut off or disturbed, it reports a ready partition, or puts one on record that was not there, only if the verification of that very pass converged |
| MigOutcomes.UnconvergedApplyIsTakenBack | internal/controller/acceleratorpartitionpolicy_controller.go:575-596 | an undisturbed apply that does not converge closes its generation, and every instance that can be removed is gone from the targets; the node is given back unless the verification itself failed |
| MigOutcomes.UnconvergedResumeIsTakenBack | internal/controller/acceleratorpartitionpolicy_controller.go:939-968 | so does one that a pass finds half way and resumes |
| MigOutcomes.ConvergedApplyStands | internal/controller/acceleratorpartitionpolicy_controller.go:528-598 | an undisturbed apply that converges leaves every target with the layout that was asked for, nothing else changed on the GPUs, what to expect on record, and the policy's own cordon lifted |
| MigOutcomes.ConvergedResumeStands | internal/controller/acceleratorpartitionpolicy_controller.go:939-968 | a resumed apply that converges is ready with nothing changed on the GPUs, and the policy's own cordon is lifted |
| MigOutcomes.ApplyIsOnRecord | internal/controller/acceleratorpartitionpolicy_controller.go:1067-1102 | a pass that began an apply, cut off or disturbed anywhere, has it on record: owner, GPUs, generation, layout, baseline and the advertisement to expect |
| MigOutcomes.DeletionAdvertises | internal/controller/acceleratorpartitionpolicy_controller.go:1893-1908 | when such a record passes the proof of a deletion that keeps the mode, the node advertises exactly its GPUs that were no targets; otherwise at least what it did before |
| MigGuards.UnreadyIsLeftAlone | internal/controller/acceleratorpartitionpolicy_controller.go:441-466 | with a driver that is not ready, or a target that could not be read, a pass changes nothing at all |
| MigGuards.ForeignIsLeftAlone | internal/controller/acceleratorpartitionpolicy_controller.go:441-466 | so does a pass over a node another policy holds, when there is nothing to give back |
| MigGuards.SwitchesIff | internal/controller/acpp_migmode.go:63-176 | an undisturbed pass switches the MIG mode on exactly when it can act on all targets, one has its mode off, none waits for a reboot and the pods are gone; on a cordoned node and on all targets at once |
| MigGuards.RebootsIff | internal/controller/acpp_migmode.go:97-135 | it asks for a reboot exactly when a target waits for one and budget and image allow it or one is pending, counted once; without budget it gives the node back |
| MigGuards.FailedSwitchGivesBack | internal/controller/acpp_migmode.go:137-175 | a mode switch that fails reports it and gives the node back with the switch still on record, the mode pending on the GPUs it did reach |
| MigGuards.KeptIff | internal/controller/acceleratorpartitionpolicy_controller.go:468-485 | a ready partition is reported ready without an apply exactly when every target has the layout and the record lists just this, and then nothing changes |
| MigGuards.ResumesIff | internal/controller/acceleratorpartitionpolicy_controller.go:939-968 | an apply found half way with its instances in place is finished exactly when it is the policy's own |
| MigGuards.ResumeRestartsIff | internal/controller/acceleratorpartitionpolicy_controller.go:939-968 | it restarts the plugin first exactly when the record says that the instances were made and no more |
| MigGuards.FailedApplyIsTakenBack | internal/controller/acceleratorpartitionpolicy_controller.go:555-573 | an apply that fails half way is taken back, closes its generation and keeps the node cordoned; a failed rollback is reported as such |
| MigGuards.RejectionGivesBackAtOnce | internal/controller/acceleratorpartitionpolicy_controller.go:315-323 | a rejected policy gives its node back as soon as its own attempt goes through |
| MigGuards.ExhaustedGivesBackByEither | internal/controller/acpp_migmode.go:97-112 | a policy out of reboots gives its node back if either of its two attempts goes through |
| MigGuards.ClosedGivesBack | internal/controller/acceleratorpartitionpolicy_controller.go:489-500 | a closed generation gives the node back, and says whether its rollback failed |
| MigReconciler.PolicyReconciler.PatchApplyRecord | internal/controller/acceleratorpartitionpolicy_controller.go:1174-1188 | the pass's own copy changes even when the server refuses; the stored record changes only when the write happens |
| MigReconciler.PolicyReconciler.RestoreSchedulable | internal/controller/acpp_migmode.go:328-347 | cancels the reboot Job, lifts only a cordon the record claims, then clears the claim, exactly as in the crash theorems |
| MigReconciler.PolicyReconciler.EnsureRebootJob | internal/controller/acpp_migmode.go:354-384 | counts the reboot on record before the Job is created and leaves an existing Job alone, exactly as in the crash theorems |
| MigReconciler.PolicyReconciler.TargetPcis | internal/controller/acceleratorpartitionpolicy_controller.go:1124-1130 | the loop lists the PCI addresses of the targets in order |
| MigReconciler.PolicyReconciler.Reconcile | internal/controller/acceleratorpartitionpolicy_controller.go:132-227 | a whole pass, step method by step method, leaves exactly the world of the crash theorems, the final cordon restore and status write included |
| MigDeletion.AssertMigEmptyAndBaseline | internal/controller/acceleratorpartitionpolicy_controller.go:1859-1910 | the loops accept exactly when every recorded GPU was seen, every GPU seen is readable, empty and in a mode the policy allows, and the node advertises at least its baseline, or exactly its untouched GPUs |
| MigDeletionProofs.FinishedDeletion | internal/controller/acceleratorpartitionpolicy_controller.go:1523-1652 | a deletion that returns no error leaves no node with the policy's lock, found every recorded node, and every record whose hardware was changed passed the proof of restoration during that very call |
| MigDeletionProofs.OthersUntouched | internal/controller/acceleratorpartitionpolicy_controller.go:1713-1724 | however the call ends, a node that another policy or nobody holds is exactly as it was |
| MigDeletionProofs.RerunLeavesRestored | internal/controller/acceleratorpartitionpolicy_controller.go:1571-1584 | if a call got a record done and then stopped anywhere, the next call, reading that node the same way, never marks the record blocked and never touches its node |
| MigDeletionProofs.MarkedIff | internal/controller/acceleratorpartitionpolicy_controller.go:1565-1584 | a record is marked blocked exactly when its lock is lost, its hardware was changed and the restoration cannot be shown |
| MigDeletionProofs.UncordonedIsProven | internal/controller/acceleratorpartitionpolicy_controller.go:1621-1633 | a node with changed hardware is opened again only after the proof of restoration passed in that same turn, and a cordon the record does not claim is never lifted |
| MigDeletionProofs.DisableRebootsBounded | internal/controller/acceleratorpartitionpolicy_controller.go:1780-1830 | over the whole life of a deletion, nodes vanishing in between, at most two mode-disable reboots are requested on a node, each counted first |
| MigDeletionProofs.DeletionLeavesNothing | internal/controller/acceleratorpartitionpolicy_controller.go:1599-1633 | when the journal accounted for all instances and the observations were true, a deletion without error leaves no instance of the policy on any node |
| DeletionOutcomes.ChangedDoneIff | internal/controller/acceleratorpartitionpolicy_controller.go:1599-1633 | a record with changed hardware is done exactly when its node could be cordoned and was free of pods, the instances were removed, the plugin restarted, the mode is off where it has to be, the restoration proved, and the node relabelled and given back |
| DeletionOutcomes.UnchangedDoneIff | internal/controller/acceleratorpartitionpolicy_controller.go:1586-1598 | a record without changed hardware is done exactly when its node could be given back or was not the policy's |
| DeletionOutcomes.StoppedStaysFenced | internal/controller/acceleratorpartitionpolicy_controller.go:1603-1633 | until the proof has passed the node stays locked and cordoned, with the claim on record where the policy cordoned it; no instance is removed from a node that is open or runs pods |
| DeletionOutcomes.RestoreModeIff | internal/controller/acceleratorpartitionpolicy_controller.go:1780-1830 | switching the mode off is done exactly when the GPUs were observed and none is on; otherwise one reboot is asked for, counted first, within the budget and while none is pending |
| DeletionOutcomes.FencesIff | internal/controller/acpp_migmode.go:196-209 | a node is cordoned for the rollback exactly when the calls succeed, and claimed only where it was open |
| DeletionReconciler.PolicyDeletion.ReleaseOrphanOwnerLocks | internal/controller/acceleratorpartitionpolicy_controller.go:1688-1701 | the loop releases every listed node the policy holds, up to the first failure |
| DeletionReconciler.PolicyDeletion.HandleNvidiaDeletion | internal/controller/acceleratorpartitionpolicy_controller.go:1523-1652 | the loop over the records, with the steps of each, and what follows it leave exactly the state of the deletion theorems |
| Sharing.BaseIsPhysicalIff | internal/controller/acpp_sharing.go:265-286 | in a sound state the base of a pass is the physical count or an error, under every honest reading, if and only if the node is not read with an empty journal while another policy's configuration is in place |
| Sharing.PassSoundIff | internal/controller/acpp_sharing.go:108-130 | a pass with an honest reading, cut off or disturbed anywhere, keeps journal, base and configuration consistent if and only if it does not abandon the policy's first configuration, fail to take it back, and clear the journal all the same |
| SharingRuns.SoundThroughoutIff | internal/controller/acpp_sharing.go:108-139 | over any run of edits, failures, rollbacks, disables, removals and crashes of any policies, with honest readings none of which is made under another policy's configuration, all journals stay consistent with the configuration if and only if no pass clears its journal over a configuration it could not take back |
| SharingRuns.BaseStaysPhysical | internal/controller/acpp_sharing.go:259-286 | over any such run, with honest readings, none made under another policy's configuration with nothing journaled, and no pass that clears its journal over a configuration it could not take back, the base is never a multiplied count |
| SharingRuns.ForgottenConfigPoisonsBase | internal/controller/acpp_sharing.go:125-133 | a policy whose first wiring fails and whose configuration cannot be taken back journals a multiplied count in its next pass, alone in the cluster and with honest readings |
| SharingRuns.ForeignReadPoisonsBase | internal/controller/acpp_sharing.go:265-286 | without the foreign-read condition a policy cut off at the wrong moment keeps another policy's multiplied count for good |
| SharingRuns.RolledBackIsTerminal | internal/controller/acpp_sharing.go:60-77 | once a sharing rollback of the generation is on record no pass of it wires the device plugin again, and the record stays |
| SharingRuns.ClosedForGood | internal/controller/acpp_sharing.go:60-77 | over whole runs of any policies a closed record stays closed while the policy keeps its generation |
| SharingRuns.DaemonKeptForOthers | internal/controller/mps_control_daemon.go:63-80 | in any run no pass and no removal of one policy deletes the daemon while another policy's record journals mps |
| SharingRuns.ReadyMpsSawDaemon | internal/controller/mps_control_daemon.go:117-124 | a pass that reports Ready in mps mode saw a ready daemon pod on its node in that very pass |
| SharingRuns.WiredAfterDaemon | internal/controller/acpp_sharing.go:129-152 | at every crash point the plugin of an mps policy is wired only after a ready daemon pod was seen on the node in that very pass |
| SharingRuns.ExclusiveReleasesIff | internal/controller/acpp_sharing.go:315-341 | an undisturbed exclusive pass keeps the daemon exactly when another record still journals mps |
| SharingRuns.LeftWithoutDaemonIff | internal/controller/acpp_sharing.go:165-195 | a pass whose calls all succeed and whose prechecks accept leaves a policy journaling mps without a daemon if and only if nobody else uses mps and it ends an edit that did not converge, or finds the generation closed by one |
| SharingRuns.DaemonLossPossibleIff | internal/controller/acpp_sharing.go:60-195 | under whatever prechecks, some failure or cut leaves a policy that journals mps without its daemon if and only if nobody else uses mps and the pass gives sharing up, finds its generation closed, or can get as far as going back from an edit |
| SharingOutcomes.GivenUpLeavesNothing | internal/controller/acpp_sharing.go:310-341 | an undisturbed pass that gives sharing up, by edit or by refusal, leaves no configuration, no wiring and no journal entry |
| SharingOutcomes.RemovalLeavesNothing | internal/partition/nvidia/timeslicing.go:358-399 | so does the removal of the policy |
| SharingOutcomes.ConvergedServes | internal/controller/acpp_sharing.go:108-207 | an undisturbed edit or first apply that converges ends with configuration, wiring and journal at the request, and with the daemon where it needs one |
| SharingOutcomes.UnconvergedGoesBack | internal/controller/acpp_sharing.go:165-202 | one that does not converge goes back to the earlier mode and replicas with their wiring, or to nothing at all, and closes its generation |
| SharingOutcomes.ExclusiveIsUnwired | internal/controller/acpp_sharing.go:310-341 | in every run that never clears a journal over its configuration, a policy whose journal says nothing is neither wired nor configured, and an exclusive one is neither after any undisturbed pass |
| SharingReconciler.DevicesOwnedByOtherPolicies | internal/controller/acpp_sharing.go:453-473 | the loops collect exactly the devices other policies claim under their own identity |
| SharingReconciler.PrecheckDevices | internal/controller/acpp_sharing.go:404-437 | the loop accepts exactly when every unclaimed device can run MPS and there is one, or the node shows no device |
| SharingReconciler.PolicyReconciler.AnyPolicyStillUsesMps | internal/controller/mps_control_daemon.go:163-179 | the search answers exactly whether another policy's record journals mps |
| SharingReconciler.PolicyReconciler.EnsureMpsControlDaemon | internal/controller/mps_control_daemon.go:56-125 | leaves exactly the daemon of the run theorems |
| SharingReconciler.PolicyReconciler.ApplySharingConfig | internal/partition/nvidia/timeslicing.go:255-313 | writes the configuration exactly when nobody else owns it or the wiring |
| SharingReconciler.PolicyReconciler.RollBackConfig | internal/partition/nvidia/timeslicing.go:358-399 | leaves somebody else's objects alone; an earlier configuration comes back with its wiring, otherwise both go |
| SharingReconciler.PolicyReconciler.Reconcile | internal/controller/acceleratorpartitionpolicy_controller.go:132-227 | a whole sharing-only pass, step method by step method and with its final status write, leaves exactly the world of the run theorems |
| Layered.PartitionRollbackEndsBoth | internal/controller/acceleratorpartitionpolicy_controller.go:341-363 | for a policy with a layout and sharing, once a rollback of the partition is on record for the generation, no pass begins a partition apply or wires the plugin, and the record stays unless a mode switch starts, whatever crashes or fails in either half |
| Layered.NeitherAppliesAgain | internal/controller/acceleratorpartitionpolicy_controller.go:489-500 | over whole runs, with other sharing policies, boots, Jobs and operators, neither a partition apply nor a wiring of the policy begins after a journaled rollback of its partition while the generation lasts and no mode switch starts |
| Layered.SharingNeverAppliesAgain | internal/controller/acpp_sharing.go:60-77 | over whole runs no wiring of the policy begins after a journaled rollback of its sharing while the generation lasts, mode switches and partition applies included |
| Layered.PartitionAppliesIff | internal/controller/acceleratorpartitionpolicy_controller.go:328-363 | some pass with given observations begins a partition apply if and only if the partition asks for one and the sharing request can be served, whatever is on record about sharing |
| Layered.SharingRollbackLeavesPartition | internal/controller/acceleratorpartitionpolicy_controller.go:489-500 | a generation whose sharing was rolled back applies its partition again when a boot took the instances |
| Layered.RefusedGivesUp | internal/controller/acceleratorpartitionpolicy_controller.go:328-333 | a sharing request refused up front takes sharing away, leaves the partition alone and gives the node back |
| Layered.ReadyWithoutRequestIsBared | internal/controller/acceleratorpartitionpolicy_controller.go:341-363 | a policy that no longer asks for sharing loses it once its partition is ready |
| Layered.UnsharedGivesBack | internal/controller/acceleratorpartitionpolicy_controller.go:188-199 | a pass that ends sharing without success gives the node back |
| DeviceReset.ResetsAtMostOnce | internal/controller/devicereset_participant.go:98-127 | over any passes, lease losses, new epochs and Job expiry an operation makes at most one reset Job more than the creating passes whose write was lost |
| DeviceReset.ResetPossibleIff | internal/controller/devicereset_participant.go:98-127 | in whatever state an operation is and whenever, some run of passes, lease losses and Job expiry from then on, its clock never going back, makes another reset Job if and only if the operation has not ended and no reset is on its record |
| DeviceReset.FinishIsEarned | internal/controller/devicereset_participant.go:98-127 | over the whole life of an operation the end of its apply is on record only if some pass found the reset Job completed, or found the reset failed and every device at the target |
| DeviceReset.ResetReports | internal/controller/devicereset_participant.go:68-127 | done is reported exactly for a completed Job that was seen; failed for a refusal, a failed Job or a missing one that was asked for; a call error for the three calls that fail; and nothing else is an event |
| DeviceReset.LostWriteResetsTwice | internal/controller/devicereset_participant.go:100-116 | every operation can, at any instant and from its creation on, be led to two resets by one lost write and an expired Job |
| DeviceReset.ResetParticipant.AttemptsFrom | internal/controller/devicereset_participant.go:154-162 | the count is positive exactly when a reset is journaled at any epoch |
| DeviceReset.ResetParticipant.Apply | internal/controller/devicereset_participant.go:68-127 | reports done exactly when the gates pass and the Job was seen completed, failed exactly for a refusal, a failed Job or a missing one with a reset on record, and makes a Job only when none is there and none is on record; the rest is as in the run theorem |
| ResetTarget.ResetTargetFor | internal/controller/devicereset_participant.go:170-232 | the loop with its map chooses as the specification says: a command only when all applying descriptors declare that very command, with the last of them in the list asked for its grade |
| ResetTarget.ChoiceIff | internal/controller/devicereset_participant.go:170-232 | no card, no applying descriptor and different commands are told apart exactly; a picked command is that of an applying descriptor, whose vendor's pods have to be gone and whose key is asked |
| ResetTarget.KeysAre | internal/controller/acceleratordescriptor_controller.go:333-342 | one family is graded under its maker's name however it is written, every other vendor under its own |
| ResetTarget.AllowedIff | internal/controller/devicereset_participant.go:135-145 | a reset may run only for a named product whose own key the registry grades so |
| ResetTarget.OrderKeepsCommand | internal/controller/devicereset_participant.go:205-232 | in every order of the list the same command is chosen, and the grade asked is that of a descriptor that applies |
| ResetTarget.OrderDecidesGradeIff | internal/controller/devicereset_participant.go:136-145 | for every list of descriptors and every registry of grades: under all orders of the list the command runs exactly when each product it resets may be reset, and the order does not matter, if and only if all applying descriptors have the same grade |
| ResetTarget.RefusedProductIsReset | internal/controller/devicereset_participant.go:211-219 | a product the registry refuses is reset when another descriptor with its command comes after it in the list, and not when it comes before |
| ConvergedPartition.OpenGateIsPass | internal/controller/acceleratorpartitionpolicy_controller.go:235-260 | a policy that has not converged makes exactly the partition pass of the crash theorems, the evidence gate and the final restore included |
| ConvergedPartition.BecomesReadyIff | internal/controller/acceleratorpartitionpolicy_controller.go:757-781 | a policy becomes Ready exactly when its partition is and the evidence has a grade, or only giving the node back failed; otherwise it is tried again |
| ConvergedPartition.PassLeavesAloneIff | internal/controller/acceleratorpartitionpolicy_controller.go:188-199 | whatever a pass sees, cut off or disturbed anywhere, it leaves GPUs, cordon, Job, owner and record alone if and only if the stored status has converged on the generation, or another policy holds the node and there is nothing to give back |
| ConvergedPartition.ConvergedIsInvisible | internal/controller/acceleratorpartitionpolicy_controller.go:235-260 | over any run of passes, boots, expiring Jobs and operators the node of a converged policy is what it would have been without any of its passes, and its status stays converged |
| ConvergedSharing.PassLeavesAloneIff | internal/controller/acceleratorpartitionpolicy_controller.go:235-260 | whatever a sharing pass sees, cut off or disturbed anywhere, it leaves records, configuration, wiring and daemon alone if and only if the stored status has converged, or the policy is exclusive and has nothing to take back |
| ConvergedSharing.BecomesReadyIff | internal/controller/acceleratorpartitionpolicy_controller.go:757-781 | a sharing policy becomes Ready exactly when its pass reports it so and the evidence has a grade |
| ConvergedSharing.ConvergedIsInvisible | internal/controller/acceleratorpartitionpolicy_controller.go:235-260 | over any run with any other policies the cluster is what it would have been without the passes of a converged policy |
| Converged.DegradedIsEarned | internal/verification/drift.go:59-84 | a converged policy is called Degraded only after its advertisement was short, without a pass saying otherwise, for at least the grace period |
| Converged.ShortfallIsReported | internal/verification/drift.go:59-84 | a converged policy whose advertisement is short in every pass is called Degraded once the grace has passed since the first |
| Converged.JudgedAs | internal/controller/acceleratorpartitionpolicy_controller.go:850-892 | a shortfall is suspected first, confirmed after the grace, and forgotten when it is over or may not be judged |
| Converged.DegradedStays | internal/controller/acceleratorpartitionpolicy_controller.go:871-892 | a confirmed drift stays until a pass sees the advertisement whole or may not judge |
| Converged.CarryCondTimes | internal/controller/acceleratorpartitionpolicy_controller.go:1438-1448 | the loop moves only the times of conditions whose status did not change |
| Converged.CarryMovesOnlyUnchangedTimes | internal/controller/acceleratorpartitionpolicy_controller.go:1438-1448 | a rewritten condition keeps everything but its time, and takes the stored time exactly when its status is the stored one |
| Converged.CarryReproduces | internal/controller/acceleratorpartitionpolicy_controller.go:1409-1421 | rewriting conditions that differ from the stored ones in their times only reproduces the stored ones exactly |
| StripComments.Scan | hack/stripcomments/main.go:31-53 | the scan marks exactly the lines with a token and the lines with a comment |
| StripComments.KeepWholeComments | hack/stripcomments/main.go:54-68 | the rounds end and compute the least set that holds the start and is closed under whole comments |
| StripComments.LeastKeptIsUnique | hack/stripcomments/main.go:54-68 | the least kept set is determined by the file, whatever order the rounds take |
| StripComments.DropCommentLines | hack/stripcomments/main.go:26-77 | there is exactly one least kept set, and exactly the lines with a comment outside it go; the others stay in order |
| StripComments.CommentsStayWhole | hack/stripcomments/main.go:21-25 | no line with a token goes, and a comment stays or goes as a whole |
| Inventory.AllocatableContainers | internal/apiserver/inventory.go:437-445 | the loop adds exactly the restarting init containers, in order |
| Inventory.TallyPods | internal/apiserver/inventory.go:449-475 | the nested loops count, in 32 bits, the demand of Running and Pending pods per node and accelerator, a limit only where there is no request |
| Inventory.AskMeans | internal/apiserver/inventory.go:449-475 | a request counts for itself, a limit only in its absence |
| Inventory.PodAdds | internal/apiserver/inventory.go:449-475 | a pod adds what its containers ask to its own node while it runs or is about to |
| Inventory.SidecarsMean | internal/apiserver/inventory.go:437-445 | of the init containers exactly those that keep running count |
| Inventory.AttachAllocation | internal/apiserver/inventory.go:448-495 | every row with an advertisement shows the same names on both sides, all advertised ones among them, free as advertised less allocated, and allocated as the demand of its node |
| Inventory.CountClaims | internal/apiserver/inventory.go:507-518 | the loops count the allocated results per pool and driver in 32 bits |
| Inventory.ClaimAdds | internal/apiserver/inventory.go:507-518 | an allocated claim adds the number of its results that name the pool and the driver, an unallocated one nothing |
| Inventory.PoolsMean | internal/apiserver/inventory.go:519-550 | a driver's devices lie in its published pools, or in the pool named like the node |
| Inventory.AttachDRAAllocation | internal/apiserver/inventory.go:506-550 | rows that share an advertisement stay balanced while exactly the node's drivers are added to it, lose no entry, and show the claims allocated in all pools of each driver |
| Inventory.AttachFigures | internal/apiserver/accelerators.go:63-64 | after both steps every row with an advertisement balances; it still has every entry it had, plus exactly the drivers; and beside the drivers it shows exactly the advertised and the demanded names, each with the demand of its node |

## Left out

Nothing was executed.

- The lease is renewed once per pass and a pass is instantaneous here, so a hardware command that runs longer than the 60-second lease is not modelled.
- Lease identities are compared as strings, as the code does: an operation named like a policy deletion's identity would count as the same holder.
- An update or a Job creation that succeeds on the server but reports an error is not modelled, nor is a hardware Job that takes effect after its wait gave up.
- The gates that switch lease, conflict, journal, fencing and verification off are all on.
- Participants other than node reboot and device reset are arbitrary environments; the partition participant's use of a policy pass is not composed with the coordinator.
- RNGD (Furiosa) targets, conflict resolution between policies, discovery, layout validation, intent and descriptor compilation: the pass takes their outcome as input.
- What a shared partition is expected to advertise: the sharing base is that of sharing-only policies, and a policy with both parts has its figures as observations. Its pass is modelled on values (`Layered`); the two halves have classes of their own.
- Two device-plugin DaemonSets (with and without MIG) and the node label that selects one: one configuration and one wiring are modelled.
- Verification's test pods, evidence and freshness judgement, health, events, metrics and logs.
- 32-bit wrap-around of record counters and expected allocatable figures; the inventory figures do wrap.
- Case-insensitive comparison of vendor and model names in descriptors: cards carry the descriptor's spelling here; the registry key does compare in lower case.
- Synthetic device identifiers, health and vendor columns of the inventory rows.
- MigRuns.OperatorCordonStays: an operator who cordons a node while the record still claims one is not protected, because the code cannot tell the two cordons apart (MigRuns.OperatorCordonStandsIff is exact).
- SharingRuns.BaseStaysPhysical: holds for honest readings and runs without the two failures named in it; both are exact and have a witness above.
- Fencing.RunKeepsLinesIff: every pass has an instant of its own, while the stored times are whole seconds; two passes of one second may add the very same line, and a write over it then loses nothing.
- MigDeletionProofs.RerunLeavesRestored: the next call starts from what the first one left; nodes vanishing in between are modelled for the reboot budget only.
- SharingRuns.LeftWithoutDaemonIff: stated for passes whose calls all succeed; SharingRuns.DaemonLossPossibleIff covers every failure and cut.

# Verified model of the pipeline's control plane

Detached daemons, polling workers and scheduled ticks race over durable JSON records, marker files and kernel
locks. This project models the parts of that control plane whose correctness is not visible in any one function,
and proves what they promise for every run, every placement of a crash, and every input.

- **Supervised execution and recovery** (`ProcessCleanup`, `ExecutionRecords`, `Recovery`, `Supervision`,
  `Ownership`, `RecoveryRuns`, `TornWindow`, `TornExactly`,
  `OfferedRuns`). The store and the process cleanup are imperative. Daemons, sweeps,
  ticks and operators are a step system in which every step is one atomic write, one spawn, one observation or one
  crash. A crash releases the locks of its owner.
- **Durable card registration** (`Registration`, `ChildFirst`, `CancelRun`). A two-phase commit against a board
  whose answers may be lost, the reconciler that replays its marker, the heap sort that orders cards child first,
  and the cancellation that archives in that order.
- **Checkpoint journal and collection** (`CommitGraph`, `Journal`, `JournalRuns`, `Collection`). Commits are a
  finite acyclic parent relation; a digest is the digested value itself.
- **Phase schedule, waiter and drive** (`PhaseDefinitions`, `PhaseAuthority`, `PhaseSchedule`, `ScheduleRuns`,
  `ReviewAnchor`, `WaitLoop`, `PinnedDrive`).
- **Text, streams and queues** (`Text`, `DecimalText`, `IssueBody`, `IssueRoundTrip`, `IssueSnapshot`,
  `BatchStream`, `Outbox`, `OutboxRuns`).

`dafny verify dfyconfig.toml` checks everything.

## What the proofs showed about the code

- **A torn launch marker breaks exclusivity.** If the write that announces an uncertain launch fails and the failure
  is handled (`hermes_pipeline/agent_collector.py:231-232`), the attempt can end terminal with confirmed cleanup
  while its launch marker is still pending. A later sweep reopens it, and two attempts of one worktree are unresolved
  at once. `TornWindow.TornMarkerBreaksExclusivity` gives the run. The condition is durable and can be read: from a
  state with nobody at work on the worktree, and with no further such failure in its launch windows, two unresolved
  attempts can arise exactly when they are there already or some resolved attempt has a pending launch
  (`TornExactly.ExclusivityIsLostExactly`). There is still never more than one live process per worktree.
- **The two halves of automatic recovery disagree on one outcome.** The tick approves an exited attempt with an
  invalid result, and no waiter is ever handed that approval (`Recovery.ApprovedIsHandedOut`,
  `Recovery.ApprovedAndNeverHandedOut`).
- **A phase can be accepted and offered for another attempt.** The result file is put in place before its directory is
  synced (`hermes_pipeline/agent_execution.py:159-160`). If the sync fails, the failure is handled and the attempt ends
  as an invalid result, which acceptance does not look at (`PhaseAuthority.AcceptedIsOfferedExactly`). A run
  of the step system gets there (`OfferedRuns.AcceptedAndOfferedIsReached`).
- **A later phase can keep its card while the first one loses its own.** An operator may have a phase run again that
  already counted. If that attempt fails cleanly, a tick that cannot list the board sees no later card, retires the
  first phase's cards, and may fail to publish the new one. `ScheduleRuns.OperatorRetryOpensGap` gives the run,
  `ScheduleRuns.UnlistedTickMayOpenGapExactly` the states in which it can happen, and
  `ScheduleRuns.PrefixHoldsExactly` says that nothing else breaks the order. After it a tick that sees the board
  refuses the order (`ScheduleRuns.BrokenOrderStopsListedTicks`).
- **The accepted review head is not quite written once.** Its documentation calls another head a hard stop
  (`hermes_pipeline/review_reconciliation.py:79-90`), but a file that cannot be read counts as absent
  (`hermes_pipeline/review_reconciliation.py:92-95`). A tick that passes the review at another head then rewrites it.
  Nothing else moves it (`ReviewAnchor.FiledHeadStaysExactly`); `ReviewAnchor.UnreadFileMovesFiledHead` gives the run,
  `ReviewAnchor.FiledHeadMayMoveExactly` the states in which it can happen. Without it, every card behind the review
  came while the review counted at the one filed head (`ReviewAnchor.CardsBehindReviewStandOnAnchor`).
- **A create that never landed is never reconciled.** Where nobody is at work, no card of its key is on the board and
  none is on its way there, a create marker stays for good, whatever is called; and only there
  (`Registration.PendingForeverExactly`). A crash right after the marker was written is enough to get there
  (`Registration.UnlandedIsReached`).
- **The outbox does not fold what its documentation says it folds.** An update sent before a task exists is queued as
  if it were a create. It then blocks the real create, and no drain gets rid of it while its project has no task
  (`OutboxRuns.EarlyUpdateBlocksCreate`, `OutboxRuns.DrainOutbox`). A real create that is waiting ignores such an
  update (`OutboxRuns.WaitingCreateIgnoresUpdate`). A cap of zero bounds nothing
  (`Outbox.BoundNeedsPositiveCap`).
- **Reading a snapshot is not the exact inverse its documentation names.** It also accepts a shorter form;
  `IssueSnapshot.CanonicalInvertsReadExactly` says when the inverse holds.
- **A printed issue body comes back only while fences close.** `IssueRoundTrip.RoundTrip` gives the exact condition.

## Model

| member | source | states |
|---|---|---|
| `ProcessCleanup.ActiveOf` | hermes_pipeline/agent_process.py:193-214 | exactly the recorded identities not superseded by a later birth of the same PID are cleaned |
| `ProcessCleanup.Observe` | hermes_pipeline/agent_process.py:139-160 | the living are exactly those seen alive, and doubt is exactly an unknown sight |
| `ProcessCleanup.SignalLiving` | hermes_pipeline/agent_process.py:214-259 | every living process got the signal of the pass unless delivery must be retried; doubt has a refused delivery as its cause |
| `ProcessCleanup.CleanupProcesses` | hermes_pipeline/agent_process.py:193-259 | confirmed only when every recorded identity is proven ended or superseded, in time and with no doubt before; unconfirmed only with a visible cause; processes gone at the first look are confirmed even with no allowance |
| `ProcessCleanup.ConfirmedLeavesNoneAlive` | hermes_pipeline/agent_process.py:193-259 | after a confirmed cleanup no recorded process is alive, given what the kernel guarantees about PIDs |
| `ExecutionRecords.ValidateRecord` | hermes_pipeline/agent_execution.py:185-265 | the checking loops accept exactly the records that satisfy the schema invariant |
| `ExecutionRecords.UpdateKeepsHistory` | hermes_pipeline/agent_execution.py:461-486 | an update keeps the record valid, changes only the last attempt, and only adds evidence |
| `ExecutionRecords.AdmitKeepsHistory` | hermes_pipeline/agent_execution.py:422-444 | admission adds one unresolved attempt to a resolved record, a retry only for the event authorized for the generation before |
| `ExecutionRecords.AuthorizeIsFresh` | hermes_pipeline/agent_execution.py:446-459 | an event is authorized exactly when it names the last generation and no attempt carries it |
| `ExecutionRecords.ExecutionStore.Register` | hermes_pipeline/agent_execution.py:367-389 | registering again with the same pins changes nothing, drift is refused |
| `ExecutionRecords.ExecutionStore.AssertWorktreePeersResolved` | hermes_pipeline/agent_execution.py:399-413 | the peer scan answers whether any other execution of the worktree has an unresolved attempt |
| `ExecutionRecords.ExecutionStore.AdmitAttempt` | hermes_pipeline/agent_execution.py:422-444 | admits exactly with both locks, resolved peers and an admissible record, and touches no other record |
| `ExecutionRecords.ExecutionStore.Authorize` | hermes_pipeline/agent_execution.py:446-459 | stores the authorization under the lock or leaves all records as they were |
| `ExecutionRecords.ExecutionStore.Update` | hermes_pipeline/agent_execution.py:461-486 | writes exactly the permitted change of one record, or nothing |
| `Recovery.ApprovalIsBound` | hermes_pipeline/agent_recovery.py:315-454 | a tick approval names the last generation and exactly the work seen now, and never overwrites an open operator intent |
| `Recovery.ApprovedIsHandedOut` | hermes_pipeline/agent_recovery.py:467-507 | what the tick approves is handed to a waiter exactly for timed-out and interrupted attempts |
| `Recovery.ApprovedAndNeverHandedOut` | hermes_pipeline/agent_recovery.py:356-358 | an exited attempt with an invalid result that the tick approves and for which no intent whatever is handed out |
| `Recovery.HandedOutIsOpen` | hermes_pipeline/agent_recovery.py:266-299 | what is handed out validates unless the work moved on, and is closed by invalidation and by consumption |
| `Recovery.RefusalClosesApproval` | hermes_pipeline/agent_recovery.py:302-313 | a policy refusal closes a stale approval of the attempt it refuses |
| `Recovery.PolicyEffect` | hermes_pipeline/agent_recovery.py:315-454 | the policy leaves the intent, invalidates it, or writes one fresh approval whose reissue count goes up by one within a generation |
| `Ownership.WriteIsAtomic` | hermes_pipeline/agent_execution.py:461-486 | a write of an owner touches the last attempt only, all or nothing |
| `Ownership.SpawnClientSound` | hermes_pipeline/_agent_supervisor.py:664-700 | the client's spawn keeps the ownership invariant before any receipt of it exists |
| `Ownership.SpawnCheckSound` | hermes_pipeline/agent_collector.py:215-250 | a check's spawn keeps the invariant because the launch marker precedes it |
| `Ownership.SweptMeansDead` | hermes_pipeline/_agent_supervisor.py:870-914 | what a sweep confirms is dead, the unreceipted spawn included |
| `Ownership.StepSound` | hermes_pipeline/_agent_supervisor.py:631-776 | every step of daemon, collector, sweep, tick, operator and crash keeps one execution's invariant |
| `Ownership.NextSound` | hermes_pipeline/_agent_supervisor.py:613-650 | every step over the whole store root keeps the invariant between executions of one worktree |
| `Ownership.RunSound` | hermes_pipeline/_agent_supervisor.py:613-776 | the invariant holds after every run |
| `Ownership.ConfirmedCleanupMeansDead` | hermes_pipeline/agent_collector.py:122-169 | in every reachable state no process of a terminal attempt with confirmed cleanup is alive, receipted or not |
| `Ownership.OneProcessPerWorktree` | hermes_pipeline/agent_execution.py:399-444 | in every reachable state a worktree has at most one live supervised process |
| `Ownership.EarlierAttemptsResolved` | hermes_pipeline/agent_execution.py:422-444 | every attempt but the last is terminal with confirmed cleanup |
| `Ownership.OneUnresolvedPerWorktree` | hermes_pipeline/agent_execution.py:399-413 | a worktree has at most one unresolved attempt and one owner, unless a write failed and was handled inside the launch window |
| `Ownership.ResolvedMeansNoPendingLaunch` | hermes_pipeline/agent_collector.py:122-169 | without that failure a resolved attempt has no pending launch |
| `Ownership.RecordsStayValid` | hermes_pipeline/agent_execution.py:185-265 | every record a run writes passes the schema check |
| `RecoveryRuns.RetryWasApprovedThenConsumed` | hermes_pipeline/_agent_supervisor.py:636-650 | every attempt after the first carries an event approved, then consumed while the work equalled the approved preview, for the generation just before, and admitted right after |
| `RecoveryRuns.EventsAreSingleUse` | hermes_pipeline/agent_execution.py:446-459 | no event is carried by two attempts |
| `RecoveryRuns.LostEventIsNeverAdmitted` | hermes_pipeline/agent_recovery.py:284-299 | an event consumed by an owner that was lost before admission is never admitted in any continuation |
| `RecoveryRuns.TickBounded` | hermes_pipeline/agent_recovery.py:315-454 | each tick approval decreases the generation and reissue measure |
| `RecoveryRuns.TickRecoveryIsBounded` | hermes_pipeline/agent_recovery.py:315-454 | without operator intents an execution has at most MAX_GENERATIONS attempts and (MAX_GENERATIONS - 1) * (MAX_REISSUES + 1) approvals |
| `TornWindow.TornMarkerBreaksExclusivity` | hermes_pipeline/agent_collector.py:229-257 | a concrete run in which the handled write failure leaves two unresolved attempts in one worktree |
| `TornExactly.ExclusivityIsLostExactly` | hermes_pipeline/agent_execution.py:399-413 | in every reachable state with the worktree free: a continuation without a further handled failure in a launch window of that worktree reaches two unresolved attempts if and only if there are two already or a resolved attempt has a pending launch |
| `TornExactly.HandledFailureArms` | hermes_pipeline/agent_collector.py:229-257 | the handled failure leaves such an attempt in a reachable state |
| `Registration.StepKeeps` | hermes_pipeline/kanban_tasks.py:922-1045 | every step of registration, cleanup, reconciliation, workers and crashes keeps the invariant of board, marker and program point |
| `Registration.NoPhaseRunsBeforeCommit` | hermes_pipeline/kanban_tasks.py:1048-1227 | a phase card with all ancestors done implies the full chain, the sentinel and the commit marker were durable |
| `Registration.MarkerCoversLiveCards` | hermes_pipeline/kanban_tasks.py:586-651 | until the barrier is done every live card is named by the marker or found by the marker's key |
| `Registration.ReconciledIsAllOrNothing` | hermes_pipeline/kanban_tasks.py:378-439 | a successful reconciliation leaves no marker, and the whole chain committed or no card alive |
| `Registration.CleanupIsChildFirst` | hermes_pipeline/kanban_tasks.py:1259-1332 | at no moment is a live card below an archived one |
| `Registration.PendingForeverExactly` | hermes_pipeline/kanban_tasks.py:378-439 | in every reachable state with nobody at work a create marker stays in every continuation if and only if no card of its key is on the board and no create of it is in flight |
| `Registration.UnlandedForever` | hermes_pipeline/kanban_tasks.py:410-439 | from such a state no run of any steps changes the marker or creates the card |
| `Registration.UnlandedIsReached` | hermes_pipeline/kanban_tasks.py:922-1045 | a crash right after the first create marker was written leads there where the create does not land |
| `Registration.InFlightIsResolved` | hermes_pipeline/kanban_tasks.py:410-439 | a create still in flight can land, and is then found and cleaned up |
| `Registration.ReconcileLeavesCreateExactly` | hermes_pipeline/kanban_tasks.py:410-439 | reconciling a create marker leaves everything as it is exactly when the listing is unreadable or the board has no live card of the key |
| `ChildFirst.PopSmallest` | hermes_pipeline/kanban_tasks.py:1770-1775 | the heap yields the smallest ready id in text order |
| `ChildFirst.CountChildren` | hermes_pipeline/kanban_tasks.py:1763-1768 | counts the parent links to every id, repeats included, and refuses exactly when one leaves the set |
| `ChildFirst.ReleaseParents` | hermes_pipeline/kanban_tasks.py:1776-1779 | following the links of a taken id keeps counts and heap exact |
| `ChildFirst.OrderIds` | hermes_pipeline/kanban_tasks.py:1763-1782 | an order comes out exactly when parents stay inside and there is no cycle; it is complete, child first and smallest first |
| `ChildFirst.ChildFirstTaskOrder` | hermes_pipeline/kanban_tasks.py:1735-1782 | the cards come back, as a permutation in that order, exactly when ids are distinct, details well formed, links closed and acyclic |
| `ChildFirst.ChildBeforeParent` | hermes_pipeline/kanban_tasks.py:1735-1782 | every card stands before each of its parents |
| `ChildFirst.GreedyIsUnique` | hermes_pipeline/kanban_tasks.py:1770-1779 | the order is the only one with these properties |
| `ChildFirst.OrderRulesOutCycles` | hermes_pipeline/kanban_tasks.py:1780-1782 | a complete order rules out every cycle |
| `ChildFirst.StuckMeansCycle` | hermes_pipeline/kanban_tasks.py:1780-1781 | a remainder in which everything waits for a child holds a cycle |
| `ChildFirst.ArchivingIsChildFirst` | hermes_pipeline/kanban_tasks.py:1833-1868 | in the returned order a listed parent comes after its child |
| `CancelRun.Board.ArchiveTasks` | hermes_pipeline/kanban_tasks.py:1289-1332 | archives in order, touches nothing past the first unconfirmed card, orphans nobody, and on success archived all |
| `CancelRun.Board.ReclaimWorkers` | hermes_pipeline/kanban_tasks.py:1837-1862 | goes on exactly when every running worker is confirmed stopped |
| `CancelRun.Board.ArchiveEach` | hermes_pipeline/kanban_tasks.py:1864-1879 | succeeds exactly when every card that was not archived has its command acknowledged, else stops at the first that has not and touches nothing after it; where acknowledgements are true no live card is below an archived one |
| `CancelRun.Board.Cancel` | hermes_pipeline/kanban_tasks.py:1785-1910 | success means every card archived, whatever was acknowledged; nothing is archived before every running worker is confirmed stopped, nor where the links have a cycle; where acknowledgements are true no live card is ever below an archived one |
| `CancelRun.OrderIsChildrenFirst` | hermes_pipeline/kanban_tasks.py:1833-1868 | the computed order archives every live child before its parent |
| `CommitGraph.ChainEndsAtHead` | hermes_pipeline/agent_checkpoint.py:286-296 | a listing of a whole range that is a chain of single parents ends at the head |
| `CommitGraph.ChainIsRange` | hermes_pipeline/agent_checkpoint.py:286-296 | conversely a chain of single parents is exactly the range up to its last commit |
| `Journal.FollowChain` | hermes_pipeline/agent_checkpoint.py:293-296 | the loop accepts exactly the chains of single parents |
| `Journal.ProgressJournal.WriteFiles` | hermes_pipeline/agent_checkpoint.py:45-51 | progress first, anchor second, with a stop possible before, between, and after both but before success is known |
| `Journal.ProgressJournal.Load` | hermes_pipeline/agent_checkpoint.py:53-86 | loads exactly a sealed, pinned, linked and receipted journal, and tells an absent one apart |
| `Journal.ProgressJournal.Initialize` | hermes_pipeline/agent_checkpoint.py:118-148 | starts a journal only where nothing says one was lost and no attempt ran |
| `Journal.ProgressJournal.RecordReceipt` | hermes_pipeline/agent_checkpoint.py:224-236 | records exactly a valid receipt of the current attempt for an ancestor of the head |
| `Journal.ProgressJournal.PromoteSubmission` | hermes_pipeline/agent_checkpoint.py:244-273 | promotes exactly the next task, by a receipted commit whose sole parent is the tip |
| `Journal.ProgressJournal.RecoveryContext` | hermes_pipeline/agent_checkpoint.py:275-308 | returns a context whose candidates fit the remaining tasks and chain from the tip, or has a listing that does not |
| `JournalRuns.LoadedJournalsOnlyGrow` | hermes_pipeline/agent_checkpoint.py:45-86 | of two journals loaded in one run the later extends the earlier |
| `JournalRuns.StoppedBetweenIsFinal` | hermes_pipeline/agent_checkpoint.py:49-51 | a write stopped between its files is never overwritten and never loads |
| `JournalRuns.LoadsExactlyWhenSealed` | hermes_pipeline/agent_checkpoint.py:53-86 | over one immutable history a journal loads exactly when one was written and no write was left half done |
| `JournalRuns.TornExactlyAfterInterruption` | hermes_pipeline/agent_checkpoint.py:45-51 | torn files have exactly one cause, a write stopped between its two files |
| `JournalRuns.AcceptedIsProven` | hermes_pipeline/agent_checkpoint.py:68-78 | a loaded journal holds, per task in order, a chained commit with a passed verification and an accepting review of that commit and attempt |
| `Collection.RunChecks` | hermes_pipeline/agent_collector.py:312-315 | passes exactly when every pinned command does |
| `Collection.GatherEvidence` | hermes_pipeline/agent_collector.py:287-352 | evidence for a candidate means an unchanged worktree, an accepting matching review, all pinned checks passed and a receipt that says so; nothing is accepted here |
| `Collection.CollectOne` | hermes_pipeline/agent_collector.py:286-360 | one round accepts its candidate for its task or nothing |
| `Collection.CollectCheckpoints` | hermes_pipeline/agent_collector.py:265-362 | on success the accepted entries are the old ones plus all candidates, task by task, the last is the head seen at the start, and complete means every task; on failure only a beginning of the candidates was accepted |
| `Collection.ExtendedCommits` | hermes_pipeline/agent_collector.py:286-361 | the accepted commits are the earlier ones followed by the candidates |
| `PhaseDefinitions.ValidateDefinitions` | hermes_pipeline/phase_schedule.py:9-30 | accepts exactly nonempty definitions with distinct keys, valid fields and special roles naming one worker each |
| `PhaseDefinitions.WorkerPhases` | hermes_pipeline/phase_schedule.py:44-53 | computes the worker phases |
| `PhaseDefinitions.WorkersAre` | hermes_pipeline/phase_schedule.py:44-53 | a phase is a worker exactly when it is no gate and no terminal gate comes before it |
| `PhaseDefinitions.RoleKey` | hermes_pipeline/phase_schedule.py:64-67 | names a worker of the role, or none has it |
| `PhaseAuthority.AcceptedIsOfferedExactly` | hermes_pipeline/phase_recovery.py:72-81 | an accepted phase is also offered for another attempt exactly when its attempt was recorded as an invalid result |
| `OfferedRuns.AcceptedAndOfferedIsReached` | hermes_pipeline/_agent_supervisor.py:430-440 | a run of the step system ends with an execution whose promoted result is accepted and which is offered for another attempt |
| `OfferedRuns.PromotedExitedWithZero` | hermes_pipeline/_agent_supervisor.py:700-750 | in every reachable state a promoted result belongs to an attempt whose client exited with zero |
| `PhaseAuthority.ChainCountsEveryPhase` | hermes_pipeline/authority_result.py:145-226 | a proven head means every phase before it counts and starts at the head of the phase before |
| `PhaseAuthority.PhaseHeadsDescend` | hermes_pipeline/authority_result.py:186-197 | for phase results the proven head descends from the registered base |
| `PhaseAuthority.ValidatedPredecessorHead` | hermes_pipeline/phase_schedule.py:111-127 | computes the chain head of the phases before the stop key, or refuses where it breaks |
| `PhaseAuthority.RequireAcceptedReview` | hermes_pipeline/authority_result.py:96-113 | delivery goes on exactly from the head its predecessors prove now |
| `PhaseSchedule.ListCards` | hermes_pipeline/kanban_tasks.py:1606-1659 | the view names each phase's live card of highest generation, the last on a tie, or nothing when the listing fails |
| `PhaseSchedule.Scheduler.CreateCard` | hermes_pipeline/review_reconciliation.py:103-190 | publishes exactly one card when the create lands and no live one of the generation exists, else none |
| `PhaseSchedule.Scheduler.RetireCards` | hermes_pipeline/phase_recovery.py:141-151 | archives only the phase's cards, none while a worker runs, and succeeds exactly when the archiving is confirmed or unneeded, leaving no live one |
| `PhaseSchedule.Scheduler.UnblockOnce` | hermes_pipeline/phase_recovery.py:105-129 | at most one confirmed unblock per phase and card generation |
| `PhaseSchedule.Scheduler.ResumeAttempt` | hermes_pipeline/phase_recovery.py:206-221 | a new card only after the policy approved and the old cards were retired |
| `PhaseSchedule.Scheduler.RouteRecovery` | hermes_pipeline/phase_recovery.py:161-221 | the ordinary flow applies exactly when no attempt runs and none failed cleanly; a live worker keeps its card |
| `PhaseSchedule.Scheduler.CountedResult` | hermes_pipeline/phase_schedule.py:229-242 | a result counts exactly when it is authorized, starts at the head, and matches its card where the contract asks |
| `PhaseSchedule.Scheduler.AdmitFirst` | hermes_pipeline/phase_schedule.py:220-226 | the first card of a phase only with the worktree at the proven head |
| `PhaseSchedule.Scheduler.PersistAcceptedHead` | hermes_pipeline/review_reconciliation.py:79-101 | confirms the filed head, files a first one, or refuses: a conflict exactly when another one can be read |
| `PhaseSchedule.Scheduler.PassDonePhases` | hermes_pipeline/phase_schedule.py:229-251 | passes the done phases that count, a review only where the filed head is its own or becomes it, and stops at the first that is not done or does not pass, with the head proven there and the head on file |
| `PhaseSchedule.Scheduler.ReconcileSchedule` | hermes_pipeline/phase_schedule.py:141-263 | the exact cards and filed review head after one tick; it changes the cards of one phase at most, adds one card at most, behind done and counted phases; a conflict of review heads changes no card and leaves its marker; a refusal leaves its cause; a filed review head is a proven one |
| `PhaseSchedule.TickIsAtMostOneCard` | hermes_pipeline/phase_schedule.py:177-257 | what the exact effect of a tick means: at most one card more, for the first phase that is not done, at the proven head or as an approved next attempt |
| `ScheduleRuns.EveryCardWasEarned` | hermes_pipeline/phase_schedule.py:141-257 | over any run, whatever happened to the attempts since: every card was added by a tick in which all earlier phases were done and counted in one unbroken chain, and hangs below the card before it |
| `ScheduleRuns.ListedTickKeepsPrefix` | hermes_pipeline/phase_schedule.py:205-207 | a tick that lists the board keeps the phases with cards a prefix, whatever the attempts are |
| `ScheduleRuns.UnlistedTickOpensGapExactly` | hermes_pipeline/phase_schedule.py:177-215 | a tick that cannot list the board breaks the prefix exactly when it takes away the first phase's cards, none new landing, while a later phase has one |
| `ScheduleRuns.UnlistedTickMayOpenGapExactly` | hermes_pipeline/phase_recovery.py:161-221 | some such tick exists exactly when a later phase has a card, the policy may replace the first phase's last attempt, and nobody works on its cards |
| `ScheduleRuns.PolicyRetiresExactly` | hermes_pipeline/agent_recovery.py:315-454 | the policy may replace a cleanly failed attempt exactly when it is not blocked, and is the last allowed or has no open operator intent and an open approval or reissues left |
| `ScheduleRuns.PrefixHoldsExactly` | hermes_pipeline/phase_schedule.py:141-257 | over any run the phases with cards are a prefix in every state if and only if no tick opened such a gap |
| `ScheduleRuns.OperatorRetryOpensGap` | hermes_pipeline/agent_recovery.py:179-187 | a run of five steps in which the retry of a counted phase and a failed listing break the prefix |
| `ScheduleRuns.BrokenOrderStopsListedTicks` | hermes_pipeline/phase_schedule.py:205-207 | once it is broken, a tick that lists the board changes no card |
| `ScheduleRuns.FirstCardIsEarned` | hermes_pipeline/phase_schedule.py:205-226 | a first card needs all earlier phases done and counted in one unbroken chain from the base to the worktree's head |
| `ScheduleRuns.ReissueIsBounded` | hermes_pipeline/phase_recovery.py:206-221 | any other card is the next attempt of a cleanly failed phase, within MAX_GENERATIONS |
| `ScheduleRuns.CardHeadIsPredecessorHead` | hermes_pipeline/phase_schedule.py:111-127 | the head of a new card is the one the predecessor proof computes |
| `ReviewAnchor.ReviewPassedExactly` | hermes_pipeline/phase_schedule.py:229-246 | a tick that comes to a review passes it if and only if it is done, counts, and no other head is filed, or none can be read and its own can be written |
| `ReviewAnchor.ConflictStopsTick` | hermes_pipeline/review_reconciliation.py:96-99 | a tick that stops in a conflict creates and retires no card and leaves the file |
| `ReviewAnchor.FiledHeadStaysExactly` | hermes_pipeline/review_reconciliation.py:79-101 | over any run a filed head stays for good if and only if no tick passes the review at another head while the file cannot be read |
| `ReviewAnchor.FiledHeadMayMoveExactly` | hermes_pipeline/review_reconciliation.py:92-101 | in a state some tick moves the filed head if and only if the review is done and counts at another head, behind phases that are done and count |
| `ReviewAnchor.CardsBehindReviewStandOnAnchor` | hermes_pipeline/phase_schedule.py:205-246 | over any run without such a tick, every card behind the review came while the review counted at the head that is on file now |
| `ReviewAnchor.UnreadFileMovesFiledHead` | hermes_pipeline/review_reconciliation.py:92-95 | a run of five steps in which a retried review and an unreadable file move the filed head under a later card |
| `ReviewAnchor.ReadFileStopsTick` | hermes_pipeline/review_reconciliation.py:96-99 | with the file readable the same tick is a conflict |
| `ReviewAnchor.ValidHasOneReview` | hermes_pipeline/phase_schedule.py:9-30 | valid definitions have at most one review worker |
| `WaitLoop.Attach` | hermes_pipeline/_agent_supervisor.py:779-867 | a retry is awaited only for an event approved and still valid; contention on either lock is waiting, never an older outcome |
| `WaitLoop.Poll` | hermes_pipeline/_agent_supervisor.py:1017-1055 | one turn keeps the report from settling an older attempt; invalidated and stalled recoveries have their reason seen under the lock |
| `WaitLoop.RunWait` | hermes_pipeline/_agent_supervisor.py:984-1055 | over the whole loop, from the turn on in which a retry is asked for, no report settles an older attempt and the exit is not successful for one; the stop time never increases, and the loop ends early only settled or at the stop time |
| `WaitLoop.AttachAndWait` | hermes_pipeline/_agent_supervisor.py:982-1065 | the same for the whole command, where every retry that is awaited was asked for with a valid approval seen under both locks |
| `WaitLoop.AttachedIsStillOpen` | hermes_pipeline/_agent_supervisor.py:1036-1041 | what attach validates is open for the loop until consumed or invalidated |
| `PinnedDrive.ConvergenceDetector.Record` | hermes_pipeline/harness.py:1837-1845 | the counter is the length of the last run of one failure class |
| `PinnedDrive.ConvergenceDetector.ShouldHalt` | hermes_pipeline/harness.py:1847-1848 | halts exactly when that run reaches the threshold |
| `PinnedDrive.TrailingMeans` | hermes_pipeline/harness.py:1831-1848 | that is: the last records all name one class |
| `PinnedDrive.DeliveredMeans` | hermes_pipeline/harness.py:2230-2256 | delivered means every execution present and every card done, and excludes any failure |
| `PinnedDrive.SameBoardsMeans` | hermes_pipeline/harness.py:3585-3589 | the counter reaches n exactly when the last n settled boards are equal |
| `PinnedDrive.RunTick` | hermes_pipeline/harness.py:3456-3509 | a tick that does not end the drive leaves a registered run within budget |
| `PinnedDrive.Decide` | hermes_pipeline/harness.py:3553-3623 | success exactly on a delivered board, a stall exactly on the third equal board in progress |
| `PinnedDrive.DrivePinnedTicks` | hermes_pipeline/harness.py:3398-3638 | the drive always ends, within keys plus six ticks, and its verdict is honest in every case |
| `IssueBody.ParseIssueBody` | hermes_pipeline/github_issues.py:151-203 | the loop computes the line-by-line scan |
| `IssueBody.RenderIssueBody` | hermes_pipeline/github_issues.py:206-223 | prints exactly known sections without level-three headings, in canonical order |
| `IssueRoundTrip.RoundTrip` | hermes_pipeline/github_issues.py:151-223 | parsing the printed body gives each section with a text of its own, once and unchanged, exactly when no section but the last leaves a fence open |
| `IssueRoundTrip.RoundTripFor` | hermes_pipeline/github_issues.py:151-223 | the same for any list of distinct section names that can stand in a heading |
| `IssueRoundTrip.FenceOfIsDelimiter` | hermes_pipeline/github_issues.py:125-126 | a fence delimiter is found exactly where a line is at most three spaces, three or more equal marks, and a rest |
| `IssueRoundTrip.ClosingLine` | hermes_pipeline/github_issues.py:193-199 | an open fence is closed exactly by the same mark, at least as long, with nothing after it |
| `IssueRoundTrip.FenceRunsOn` | hermes_pipeline/github_issues.py:180-201 | an open fence runs on to its first closing line or to the end |
| `Text.NormalizesInTwoPasses` | hermes_pipeline/github_issues.py:147-148 | newline normalization is the two replacements, in their order |
| `IssueRoundTrip.ParserSeesLines` | hermes_pipeline/github_issues.py:160-180 | the parser sees exactly the printed lines |
| `IssueRoundTrip.ScanFollows` | hermes_pipeline/github_issues.py:180-201 | while fences close the scan follows the sections |
| `IssueRoundTrip.OpenDoesNotComeBack` | hermes_pipeline/github_issues.py:180-202 | the first section that leaves a fence open swallows what follows and comes back longer |
| `DecimalText.DecimalReads` | hermes_pipeline/github_issues.py:236-257 | a printed number is accepted and reads back |
| `DecimalText.NumberPrints` | hermes_pipeline/github_issues.py:254-257 | an accepted spelling is the one printing gives |
| `IssueSnapshot.ReadInvertsCanonical` | hermes_pipeline/github_issues.py:230-257 | reading a canonical snapshot gives repository, number, stripped title and normalized body |
| `IssueSnapshot.CanonicalIsInjective` | hermes_pipeline/github_issues.py:230-239 | equal snapshots are equal issues up to that normalization, and conversely |
| `IssueSnapshot.CanonicalInvertsReadExactly` | hermes_pipeline/github_issues.py:242-257 | exactly when printing what was read gives the snapshot back |
| `IssueSnapshot.ShortFormReadsAsEmptyBody` | hermes_pipeline/github_issues.py:246-257 | the shorter form that is accepted and not printed |
| `BatchStream.SelectEntries` | hermes_pipeline/agent_collector.py:75-95 | accepts exactly listings of plain files with safe paths within both limits |
| `BatchStream.ReadChunk` | hermes_pipeline/agent_collector.py:100-111 | reads an object exactly where its header, content and line end stand |
| `BatchStream.WriteBlobs` | hermes_pipeline/agent_collector.py:96-113 | succeeds exactly when the stream is the entries' chunks in order with nothing left, and writes their contents |
| `BatchStream.SnapshotCommit` | hermes_pipeline/agent_collector.py:73-113 | listing and stream together |
| `BatchStream.StreamIsUnambiguous` | hermes_pipeline/agent_collector.py:99-113 | a stream determines the contents |
| `BatchStream.FilesAreEntries` | hermes_pipeline/agent_collector.py:107-110 | with distinct paths each entry is there with its own content and mode, and nothing else |
| `Outbox.KanbanOutbox.Enqueue` | hermes_pipeline/kanban.py:199-256 | the queue becomes the collapsed and capped one |
| `Outbox.DequeueRefinesMap` | hermes_pipeline/kanban.py:258-261 | dequeueing takes exactly the project out of the project map |
| `Outbox.CollapseRefinesMap` | hermes_pipeline/kanban.py:213-249 | short of the cap an enqueue is one step of a project map |
| `Outbox.OverflowDropsOldest` | hermes_pipeline/kanban.py:251-254 | with a positive cap only the oldest position is dropped, and only when a new project arrives at a full queue |
| `Outbox.BoundNeedsPositiveCap` | hermes_pipeline/kanban.py:252-254 | the bound holds exactly for positive caps |
| `OutboxRuns.StepOnMap` | hermes_pipeline/kanban.py:199-261 | every operation is one step of the map, overflow included |
| `OutboxRuns.RunStaysBounded` | hermes_pipeline/kanban.py:199-261 | from an empty store there is at most one entry per project and never more than the cap |
| `OutboxRuns.LeavesByDequeueOrOverflow` | hermes_pipeline/kanban.py:199-261 | a project leaves exactly by its dequeue or as the oldest at an overflow |
| `OutboxRuns.CreateSurvives` | hermes_pipeline/kanban.py:226-245 | while its project stays queued a create stays that create, with later params overriding in order |
| `OutboxRuns.HermesKanbanAdapter.SetActiveTask` | hermes_pipeline/kanban.py:302-354 | queues a create exactly when the command failed |
| `OutboxRuns.HermesKanbanAdapter.UpdatePhase` | hermes_pipeline/kanban.py:356-402 | queues an update without a task as if it were a create |
| `OutboxRuns.HermesKanbanAdapter.ClearActiveTask` | hermes_pipeline/kanban.py:404-439 | clears exactly on success, else queues with the task |
| `OutboxRuns.Retry` | hermes_pipeline/kanban.py:444-475 | a retried project leaves the queue exactly when its call worked, and no other project is touched |
| `OutboxRuns.DrainOutbox` | hermes_pipeline/kanban.py:442-475 | after a drain exactly the projects whose retry failed are queued; an update queued without a task fails and stays as it was while its project has none |
| `OutboxRuns.EarlyUpdateBlocksCreate` | hermes_pipeline/kanban.py:364-380 | an update queued before any task blocks the real create |
| `OutboxRuns.StuckBlocksCreate` | hermes_pipeline/kanban.py:216-222 | and goes on blocking it as long as it is queued |
| `OutboxRuns.WaitingCreateIgnoresUpdate` | hermes_pipeline/kanban.py:216-222 | a waiting create ignores an update without a task, though it folds one with a task |
| `OutboxRuns.CreateIsQueuedExactly` | hermes_pipeline/kanban.py:214-249 | with a positive cap a new create is the one queued for its project if and only if no other entry without a task was queued |
| `OutboxRuns.TasklessQueuedExactly` | hermes_pipeline/kanban.py:199-261 | over any run an entry without a task is queued if and only if one was put and its project was not dequeued or dropped since |
| `OutboxRuns.QueuedCreateExactly` | hermes_pipeline/kanban.py:199-261 | over any run in which its project stays queued, what is queued is the create where no entry without a task was queued when it came, else that entry, with later params folded in order |

## Left out

- Ownership.OneUnresolvedPerWorktree: carries the exception that `TornWindow` shows to be necessary, as a flag of the run; `TornExactly.ExclusivityIsLostExactly` gives the condition on the durable state.
- IssueRoundTrip.RoundTrip: stated for bodies without an embedded plan candidate; where one starts is a parameter of the parser.
- JournalRuns.LoadsExactlyWhenSealed: rests on commits never being rewritten in the repository.
- CancelRun.Board.Cancel: the reconciliation before it, and the two listings that must agree on the cards of the run, are taken as done; the board changes only through the cancellation meanwhile. That no live card is below an archived one is promised where an acknowledged archive command took effect; the final listing finds out otherwise.
- BatchStream.SelectEntries: the listing is taken as parsed into fields, with sizes that are not negative.
- WaitLoop.Attach: preparing the launch and spawning the daemon are answers; a spawn that failed reports what status shows.
- Durable writes are atomic; a failed write is a crash, except in the collector's launch window, at the promotion of a result and at the accepted review head, where the handled failure is modelled as such.
- A create that timed out, or whose caller was killed, may land at any later time. Any other remote board command that timed out either took effect by then or never does; one that could not be started has no effect.
- Registration has one marker directory. The tick reconciles the project directory (`hermes_pipeline/cli.py:2103`) and a pinned run creates under its worktree (`hermes_pipeline/cli.py:2892`), so the theorems speak about either directory on its own.
- The daemon, the collector and the sweep are program points of a step system and not methods, so that a crash can fall between any two of their writes; the registration protocol likewise.
- The execution lock is the owner field of the step system; the worktree lock follows from the owners of its executions.
- Event identifiers are fresh and random per execution.
- Process identity: a PID of one boot names at most its latest recorded birth, and an identity seen ended is dead. The pidfd and process-table code behind that is not modelled.
- The exit-observation loop of `run_process` is one step with its outcome; output files and stdin are not modelled.
- `phase_result` and worker-result parsing, commit topology checks and manifest validation are facts about an execution or a task, not algorithms; `result_contract`, `plan_manifest` and `run_registration` are not part of this model.
- Alphabets of names and arguments, the words refused in commands, and JSON size limits of evidence are not modelled; lengths, exit codes and outcomes are.
- `validate_fresh`, `staging_directory` and `accepted_count` of the journal only read.
- A refused run authority other than contention is one answer; its causes are not modelled.
- The board does not change during one scheduling tick except through it. Between ticks workers and operators move cards on, and only the scheduler creates or archives cards of worker phases; attempts may change in any way.
- The file of the accepted review head is written by the scheduler alone; the review reconciliation of runs without phase definitions, which writes it too, is not modelled.
- Completion of the TODO entry and of the delivery are answers to the scheduler, not modelled.
- The printed status lines, the sleeps and the cleanup allowance arithmetic of the waiter are not modelled; clock readings are arbitrary.
- `poll_pinned_run`, the shutdown of a drive and the quiescence polling are answers to the drive.
- The outbox file and the active-task file are not modelled, nor is an entry whose params lack a key.
- Path creation and permissions of a snapshot beyond the mode, and the process that runs Git.
- Legacy record schemas, cgroup receipts, older marker versions, un-enrolled runs and legacy registrations without phase definitions.
- Command line, configuration, logging, prompts, reports, Slack, and the GitHub client.

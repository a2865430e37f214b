# ThreadCells control plane: a verified model

ThreadCells keeps durable truth across crashes: every privileged step is claimed in a store before it is
taken, every external effect is fenced by a compare-and-set, and every long operation can be resumed.
This project models those protocols and proves what they promise, for every input and every
interleaving. It is written for Dafny 4.11; `dafny verify dfyconfig.toml` checks the whole project.

## What is modelled

- **Effect ledger** (`WorkflowEffects`): one row per logical effect and turn, claimed once, finished once;
  a turn that resumes another inherits its rows, the exit of a runtime and the operator settle open ones.
- **Retirement of an assigned child** (`RetirementStore`, `RetirementProtocol`, `RetirementAnswers`,
  `RetirementOutcomes`, `RetirementCalls`, `RetirementRuns`). The store's operations are methods of a class
  with a specification function each. The supervisor's tool call and the API's reconciler are methods that
  log every answer they get; they are proved to stay within one automaton, to log what the store and the
  world answered, to go on while nothing stands in the way, and to give each answer exactly after the event
  it is about, while other processes may change the shared row between any two of their steps. The
  automaton's traces, and all interleavings of any number of calls with deaths and restarts, carry the
  theorems.
- **Delivery against cancellation** (`InputDelivery`): the exception path of both delegation tools, against
  everything the queue, the provider's admission, restarts, timeouts and fences may do in between.
- **Awaiting a handoff**. `HandoffResults` is the durable relation with the store's operations and what the
  inbox, the recovery, housekeeping and the parent's exit do to it. `HandoffProtocol` is the automaton of
  one wait, `HandoffAnswers` says from the events of a trace alone what each answer rests on, and `HandoffWaits` the wait loop and the cleanup of a claimed result as methods that follow it
  step by step, whatever state the others leave between two steps. `HandoffRuns` has any number of waiters
  at once, each of which may die after any step, and `HandoffGaps` says exactly where a wait breaks its
  promises. **Wait slices** (`WaitSlices`) number the calls of one resumable wait.
- **Releases** (`Releases`, `Promotion`, `PromotionOutcomes`, `ReleaseScripts`, `ReleaseRuns`, `ReleaseInvariants`,
  `ReleaseRecovery`): staging and promotion as sequences of atomic writes, with the reads before the lock
  as steps of their own, a death possible between any two writes, and a failed staging that removes its
  directory again.
- **Candidate integrity** (`TextLines`, `CandidateTrees`, `CandidateIntegrity`, `CandidateChecks`), the **policy block**
  (`PolicySplice`), the **attachment filename** (`FilenameCodec`), the **blocking lanes**
  (`BlockingLanes`, with cancellation delivered along what tasks await), **Full Cleanup** (`Numbers`,
  `FullCleanup`), the **progressive list** (`ReadModel`), the **agent filters** (`AgentFilters`) and the
  **status scan** (`StatusScan`).

## What was found

Where a promise does not hold of the code as it is, the exact condition is proved and a concrete case is
given.

- A reported delegation failure is not final. Neither the binding nor the provider's admission looks at the
  attempt, except for a review, so every input that can still reach its child can be reported failed and be
  delivered, and no other can (`InputDelivery.ReportRightExactly`). One such case is a connection that drops
  while the server still waits at the admission fence (`InputDelivery.CancelledInputDelivered`); after a
  restart only a turn that is linked to its managed attempt is stopped
  (`InputDelivery.RestartHonoursLinkedOnly`). A cancellation is final exactly when the provider was never
  admitted and the turn is no longer current, a review's, or ended
  (`InputDelivery.CancelledFinalExactly`).
- Two waiters of one parent can break the order of a handoff. A result claimed between two reads of the
  other's pass is returned as COMPLETED before its acknowledgement, or acknowledged without its worktree
  cleanup; from a state at rest this happens in some run exactly while a capture can still be claimed
  (`HandoffGaps.BrokenExactly`), and only at the two gaps that `HandoffGaps.EarlyExactly` and
  `HandoffGaps.BypassedExactly` name.
- A staged result is queued for the parent's inbox, not claimed for the live call. The waiter that took it
  answers that it is still waiting, the next wait returns the result from its row, and no waiter ever cleans
  up after a structured child (`HandoffGaps.StagedReturnedUncleaned`, `HandoffGaps.StructuredNeverCleanedUp`).
- A handoff's retirement claim records the exit as dispatched, so the release that the waiter makes at a
  runtime fence is always refused and the caller gets FAILED (`HandoffResults.ClaimNeverReleased`).
- Staging can push a half-promoted release off the candidate list. Its promotion is then refused for ever,
  and if the link had been moved every promotion is (`ReleaseRecovery.EvictionLoses`,
  `ReleaseRecovery.EvictionHappens`). The condition a caller can check first is exact
  (`ReleaseInvariants.KeepsHalfExactly`).
- A candidate with a line break in a path is written but never accepted
  (`CandidateIntegrity.WrittenAcceptedExactly`).
- A reload that shrinks the list can leave a gap when more is requested before the references are committed
  (`ReadModel.ReloadLeavesGap`, `ReadModel.AppendExactly`).
- A wait slice whose process died blocks the rest of the wait, also in every turn that resumes its turn
  (`WaitSlices.AbandonedSliceBlocks`). A turn that inherits from two others can hold a slice above one that
  is not resumable, exactly when one of them went on past a slice the other settled otherwise
  (`WaitSlices.CombinedLinkedExactly`, `WaitSlices.CombinedOutOfOrder`).
- The lane's shield is what keeps disconnects from exceeding its capacity: the tokens cover the live workers
  exactly as long as no cancellation reaches the runner of a live worker (`BlockingLanes.CoveredExactly`),
  and without the shield any number of workers can be alive (`BlockingLanes.StormWithoutShield`).

## Assumptions

- Store operations are single transactions; tokens are fresh and known only to their holder; a digest in an
  effect key does not collide. Only the tool call and the reconciler send the automatic exit of an assigned
  child.
- A turn that resumes others is inserted by the transaction that copies their ledgers, so it has no rows
  before.
- A child that has exited stays exited, and a retired result stays final.
- Reading back JSON that was written gives the same value. File trees hold no symbolic links.

## Model

| member | source | states |
|---|---|---|
| `WorkflowEffects.EffectLedger.ClaimEffect` | src/cli_agent_orchestrator/clients/database.py:17055-17163 | grants a fresh token exactly when the turn is current and the row is absent or was not admitted |
| `WorkflowEffects.EffectLedger.FinishEffect` | src/cli_agent_orchestrator/clients/database.py:17166-17214 | a compare-and-set from claimed, by token, to an accepted outcome |
| `WorkflowEffects.EffectLedger.MirrorLedger` | src/cli_agent_orchestrator/clients/database.py:16410-16510 | the loop leaves every row of the source turn copied to the target, and merged with a row that is there; what that makes of each state is said by `InheritedExactly` |
| `WorkflowEffects.EffectLedger.ResumeTurn` | src/cli_agent_orchestrator/clients/database.py:18450-18470 | a successor inherits from the turn it resumes and, where the two are combined, from an older callback transport |
| `WorkflowEffects.EffectLedger.ReconcileExitedTurn` | src/cli_agent_orchestrator/clients/database.py:22362-22374 | every claim of an exited turn becomes indeterminate, and nothing else changes |
| `WorkflowEffects.GrantsConserved` | src/cli_agent_orchestrator/clients/database.py:17062-17070 | over any history with resumptions, runtime exits and operator retirement, what was granted or inherited as a fence equals what was returned as not admitted plus what is spent |
| `WorkflowEffects.FinalForever` | src/cli_agent_orchestrator/clients/database.py:17173-17180 | a finished effect is never granted again and keeps its outcome, except that the operator may retire an unknown one |
| `WorkflowEffects.AbandonedForever` | src/cli_agent_orchestrator/clients/database.py:17064-17068 | a claim whose holder died is never granted to anybody else; it stays claimed unless its runtime exits or the operator retires it |
| `WorkflowEffects.OldTokenPowerless` | src/cli_agent_orchestrator/clients/database.py:17191-17205 | after a later grant of the same effect the earlier token finishes nothing |
| `WorkflowEffects.ResumeFencesExactly` | src/cli_agent_orchestrator/clients/database.py:16434-16446 | an effect is fenced in a resumed turn if and only if one of the turns it resumes hands on a fence |
| `WorkflowEffects.InheritedFromOne` | src/cli_agent_orchestrator/clients/database.py:16434-16446 | a successor of one turn inherits each row as it is, except that a claim becomes unknown and a rejection that may be tried again is not admitted |
| `WorkflowEffects.InheritedExactly` | src/cli_agent_orchestrator/clients/database.py:16453-16477 | for each state, exactly when it is the one that one or two ledgers leave to their successor |
| `WorkflowEffects.MergeNeverLowers` | src/cli_agent_orchestrator/clients/database.py:16455-16477 | merging keeps the stronger fence, in any order and however often it is done |
| `WorkflowEffects.FinishedExactly` | src/cli_agent_orchestrator/clients/database.py:17166-17214 | a finish takes effect exactly for the holder of the claim and one of the six accepted outcomes, which it records |
| `WorkflowEffects.RetiredByOperatorExactly` | src/cli_agent_orchestrator/clients/database.py:5816-5861 | an operator retires exactly a claimed or unknown effect |
| `WorkflowEffects.NeverAgain` | src/cli_agent_orchestrator/clients/database.py:16741-16748 | along any chain of resumptions, an effect that completed, is unknown or was abandoned is never granted again |
| `RetirementStore.ChildAssignment.ClaimRetirement` | src/cli_agent_orchestrator/clients/database.py:23766-24028 | the new row and the answer, branch by branch: refused, already retired, shared or renewed token, fresh claim |
| `RetirementStore.ChildAssignment.ReleaseClaim` | src/cli_agent_orchestrator/clients/database.py:24146-24169 | releases exactly an unreserved, unsealed claim with this token |
| `RetirementStore.ChildAssignment.ReserveExit` | src/cli_agent_orchestrator/clients/database.py:24172-24202 | reserves the exit by the same compare-and-set and keeps the claim |
| `RetirementStore.ChildAssignment.CancelReservedExit` | src/cli_agent_orchestrator/clients/database.py:24205-24237 | clears exactly a reserved, unsealed claim with this token |
| `RetirementStore.ChildAssignment.CompleteRetirement` | src/cli_agent_orchestrator/clients/database.py:24240-24319 | seals once, with this token, a recorded intent and authority read in the same transaction |
| `RetirementStore.ChildAssignment.ReleaseForRestart` | src/cli_agent_orchestrator/clients/database.py:23495-23524 | the start-up sweep gives back unreserved claims only |
| `RetirementStore.ReserveFencesRelease` | src/cli_agent_orchestrator/clients/database.py:24146-24237 | reserving closes both ways of releasing, and cancelling reopens exactly what releasing would have |
| `RetirementStore.ClaimKeepsReservation` | src/cli_agent_orchestrator/clients/database.py:23888-23910 | claiming a row with a reserved exit never reserves again and hands out the row's own token |
| `RetirementStore.GrantedExactly` | src/cli_agent_orchestrator/clients/database.py:23766-24028 | exactly when a claim is granted, found retired or refused; a held reservation shares its token, every other grant takes a new one and records the intent, and all but the owning parent are granted the exit as reserved |
| `RetirementProtocol.PrefixAllowed` | src/cli_agent_orchestrator/mcp_server/server.py:2675-2863 | a call that dies anywhere leaves a trace the protocol allows |
| `RetirementProtocol.OneDispatchPerCall` | src/cli_agent_orchestrator/mcp_server/server.py:2818-2863 | one call dispatches at most once, and only after its own reservation |
| `RetirementProtocol.FoundReservedNeverDispatches` | src/cli_agent_orchestrator/mcp_server/server.py:2719-2753 | a call that finds the exit reserved neither dispatches nor reserves |
| `RetirementProtocol.FinishedOnceAndLast` | src/cli_agent_orchestrator/mcp_server/server.py:485-589 | the effect is finished at most once and nothing follows it |
| `RetirementProtocol.SealedAfterCleanupAfterExit` | src/cli_agent_orchestrator/mcp_server/server.py:535-571 | a seal follows a confirmed cleanup, which follows evidence that the child exited |
| `RetirementProtocol.DispositionBeforeReservation` | src/cli_agent_orchestrator/mcp_server/server.py:2755-2824 | before a reservation a claim is released or sealed, and kept only where release, authority, cleanup or seal was not confirmed |
| `RetirementProtocol.NothingAfterStaleFence` | src/cli_agent_orchestrator/mcp_server/server.py:305-349 | after a failed runtime fence nothing is reserved, dispatched, cleaned or sealed |
| `RetirementOutcomes.RefusalsExactly` | src/cli_agent_orchestrator/mcp_server/server.py:2704-2844 | the call is fenced exactly when a runtime fence failed, not eligible exactly when the claim was refused, and so on for an unavailable child, a lost revalidation and a raising exit |
| `RetirementOutcomes.PendingExactly` | src/cli_agent_orchestrator/mcp_server/server.py:502-571 | a cleanup stays pending for exactly the step that was not confirmed |
| `RetirementOutcomes.RetiredExactly` | src/cli_agent_orchestrator/mcp_server/server.py:572-579 | reported retired exactly when this call sealed the row or found it sealed, and as retired by this call exactly when it also sent the exit |
| `RetirementOutcomes.EffectClosedExactly` | src/cli_agent_orchestrator/mcp_server/server.py:2704-2863 | the last event closes the effect: completed exactly for a retired child, rejected exactly where the claim was refused or given back before the exit or a replacement lost its authority, unknown for every other answer |
| `RetirementOutcomes.FavourableCallRetires` | src/cli_agent_orchestrator/mcp_server/server.py:2704-2863 | when every answer is good the call exits, cleans up and seals the child |
| `RetirementOutcomes.FavourableReconciliation` | src/cli_agent_orchestrator/services/inbox_service.py:486-590 | so does the reconciler |
| `RetirementOutcomes.UndisturbedCall` | src/cli_agent_orchestrator/mcp_server/server.py:2704-2863 | in an undisturbed world: the owning parent retires a running quiescent child by its own exit, any caller retires an exited child without another exit, and a replacement supervisor never exits a running one |
| `RetirementOutcomes.UndisturbedReconciliation` | src/cli_agent_orchestrator/services/inbox_service.py:452-590 | in an undisturbed world the reconciler seals, except for a running child whose exit its candidate has reserved |
| `RetirementCalls.Caller.FinishStaleRetirementBoundary` | src/cli_agent_orchestrator/mcp_server/server.py:316-349 | ends with the claim let go and the effect rejected, or the claim kept and the effect indeterminate |
| `RetirementCalls.Caller.CheckCleanupAuthority` | src/cli_agent_orchestrator/mcp_server/server.py:502-528 | goes on with the recorded intent and, exactly for a replacement supervisor, with its authority confirmed after it; else says which is missing and keeps the claim |
| `RetirementCalls.Caller.FinishRetiredChild` | src/cli_agent_orchestrator/mcp_server/server.py:485-579 | every return closes the effect with the answer its deciding event stands for and the outcome that fits how the claim ended |
| `RetirementCalls.Caller.ReconcileReservedExit` | src/cli_agent_orchestrator/mcp_server/server.py:2719-2753 | the reconciliation branch never passes the reserved boundary again |
| `RetirementCalls.Caller.CheckStillQuiescent` | src/cli_agent_orchestrator/mcp_server/server.py:2755-2776 | leaves the claim held right after a quiescent running child was seen, or ends the call with an answer that fits what was seen |
| `RetirementCalls.Caller.DispatchExit` | src/cli_agent_orchestrator/mcp_server/server.py:2810-2863 | the exit follows two quiescent observations around a revalidation, a passed fence and an own reservation; every other return rests on its own event |
| `RetirementCalls.Caller.RetireHeldChild` | src/cli_agent_orchestrator/mcp_server/server.py:2755-2863 | observes the child on both sides of the durable revalidation and goes on to the exit unless one of these answers stops it |
| `RetirementCalls.Caller.RetireCompletedChild` | src/cli_agent_orchestrator/mcp_server/server.py:2675-2863 | with an effect claimed: every event is what was answered, each boundary is prepared and fenced, the call goes on until an event that stops it, the answer is the one that event stands for, and when every step goes well the child is exited, cleaned up and sealed |
| `RetirementCalls.Caller.FinishCompletedChild` | src/cli_agent_orchestrator/services/inbox_service.py:419-449 | the intent, the cleanup and the seal in this order, and the verdict exactly by the first that is not confirmed |
| `RetirementCalls.Caller.ReconcileQuiescentChild` | src/cli_agent_orchestrator/services/inbox_service.py:525-590 | re-observes, revalidates and validates the worktree before it reserves, and gives the claim back where one of them fails |
| `RetirementCalls.Caller.ReconcileCompletedAssignedChild` | src/cli_agent_orchestrator/services/inbox_service.py:452-590 | the same for the reconciler: each verdict exactly after its own event, and reconciled, by its own exit, when every step goes well |
| `RetirementRuns.ProcessesFollowTheProtocol` | src/cli_agent_orchestrator/mcp_server/server.py:2675-2863 | in every interleaving the events of one process are a trace the protocol allows |
| `RetirementRuns.SoundAlways` | src/cli_agent_orchestrator/mcp_server/server.py:2675-2863 | the shared facts and all stages stay consistent in every run |
| `RetirementRuns.AtMostOneExit` | src/cli_agent_orchestrator/mcp_server/server.py:2818-2843 | over every run of any number of calls, deaths and restarts: one exit at most, one seal at most, and a sealed child exited and was cleaned up |
| `RetirementRuns.CancelledNeverDispatched` | src/cli_agent_orchestrator/mcp_server/server.py:2830-2838 | a reservation cancelled at the fence was dispatched by nobody, and the row is open again |
| `RetirementRuns.UnreservedClaimIsExclusive` | src/cli_agent_orchestrator/clients/database.py:23911-23978 | a claim that has reserved nothing has one live holder |
| `RetirementRuns.SealedForever` | src/cli_agent_orchestrator/clients/database.py:23844-23853 | a sealed row is never granted again |
| `RetirementRuns.ExitedChildCanBeSealed` | src/cli_agent_orchestrator/services/inbox_service.py:466-485 | from any reachable state, once the child has exited, a restart and one reconciliation seal it without another exit |
| `InputDelivery.DeliveryRows.Cancel` | src/cli_agent_orchestrator/clients/database.py:27144-27240 | cancels an awaited attempt exactly when nobody owns the delivery |
| `InputDelivery.DeliveryRows.HandleFailedSend` | src/cli_agent_orchestrator/mcp_server/server.py:1661-1698 | read, cancel, read again, with anything happening in between |
| `InputDelivery.NeverExactly` | src/cli_agent_orchestrator/clients/database.py:11366-11511 | no future admits the provider for an input if and only if it cannot reach the child by any of the open ways |
| `InputDelivery.QueuedExactly` | src/cli_agent_orchestrator/clients/database.py:20995-21043 | exactly which steps put a turn back into the queue |
| `InputDelivery.EndedExactly` | src/cli_agent_orchestrator/clients/database.py:20478-20590 | exactly which steps end it |
| `InputDelivery.ReportRightExactly` | src/cli_agent_orchestrator/mcp_server/server.py:1677-1698 | the report is right in every interleaving if and only if the input cannot reach the child any more |
| `InputDelivery.HandlerExactly` | src/cli_agent_orchestrator/mcp_server/server.py:1661-1698 | with nothing in between, the caller proceeds exactly when the turn is current and queued, claimed, leased or received, and otherwise an awaited attempt that nobody owns is cancelled |
| `InputDelivery.CancelledFinalExactly` | src/cli_agent_orchestrator/clients/database.py:27144-27240 | a successful cancellation is final if and only if the provider was never admitted and the turn is not current, a review's or ended |
| `InputDelivery.FailureWhileCurrent` | src/cli_agent_orchestrator/mcp_server/server.py:1661-1698 | while nobody takes the turn away, failure is reported exactly when the attempt was cancelled, and it is final for a review but not for a bound turn that has not ended |
| `InputDelivery.CancelledInputDelivered` | src/cli_agent_orchestrator/clients/database.py:15183-15200 | a send cancelled at the admission fence is reported failed, then admitted and received |
| `InputDelivery.RestartHonoursLinkedOnly` | src/cli_agent_orchestrator/clients/database.py:20995-21043 | after a restart a cancelled input is sent again exactly when it is not a review and has no managed-attempt row |
| `InputDelivery.FastChildReportedFailed` | src/cli_agent_orchestrator/clients/database.py:15078-15090 | a child whose workflow closes between the reads is reported failed although it received the input |
| `HandoffResults.DoKeepsOrder` | src/cli_agent_orchestrator/clients/database.py:28063-28221 | what the inbox, the recovery, housekeeping, the child and the parent's exit do keeps the order, takes nothing back, and neither claims nor acknowledges |
| `HandoffResults.ClaimNeverReleased` | src/cli_agent_orchestrator/clients/database.py:23958-23963 | a handoff's retirement claim can never be released, by a waiter or by the start-up sweep |
| `HandoffResults.DirectClaimExactly` | src/cli_agent_orchestrator/clients/database.py:28323-28356 | a direct claim is answered by nothing, no or yes exactly by the relation and its parent, and only a claim of an awaited relation changes it |
| `HandoffResults.StagedClaimExactly` | src/cli_agent_orchestrator/clients/database.py:28359-28437 | a staged result is taken exactly while the relation awaits an open result of an open workflow, and then queued for the parent |
| `HandoffResults.AcknowledgedExactly` | src/cli_agent_orchestrator/clients/database.py:28440-28555 | which outputs count as claimed and as delivered, what an acknowledgement returns, and that only a claimed relation is changed by it |
| `HandoffResults.ChildCancelledExactly` | src/cli_agent_orchestrator/clients/database.py:28063-28207 | the child's end touches exactly an awaited or recovered relation: withdrawn without structure, recovered with it until its attempts are used up, and then reported as failed |
| `HandoffResults.ParentCancelledExactly` | src/cli_agent_orchestrator/clients/database.py:28063-28207 | the parent's end withdraws every registered relation that is not acknowledged and fails its open result |
| `HandoffResults.NoticedExactly` | src/cli_agent_orchestrator/clients/database.py:27540-28060 | a notice is delivered or fails exactly while it is queued, is queued again from each of the three, and only a delivered one is acknowledged |
| `HandoffResults.RecoveredExactly` | src/cli_agent_orchestrator/clients/database.py:25021-25204 | a recovery finalizes a result exactly while the relation is awaited or recovered, and queues its notice if the parent can take it |
| `HandoffResults.SealedExactly` | src/cli_agent_orchestrator/clients/database.py:24240-24319 | housekeeping seals exactly an exited and cleaned child with its own token, the intent and a final complete result |
| `HandoffProtocol.PrefixAllowed` | src/cli_agent_orchestrator/mcp_server/server.py:1333-1550 | a wait that dies anywhere leaves a trace the protocol allows, and nothing follows an answer |
| `HandoffProtocol.CaptureRests` | src/cli_agent_orchestrator/mcp_server/server.py:1454-1524 | an answer from captures rests on two equal valid captures, each right after COMPLETED was seen |
| `HandoffProtocol.BoundariesFenced` | src/cli_agent_orchestrator/mcp_server/server.py:1252-1313 | claim, intent, worktree cleanup and seal each directly follow a runtime fence that passed |
| `HandoffProtocol.CleanupJustified` | src/cli_agent_orchestrator/mcp_server/server.py:1227-1330 | an answer by cleanup directly follows its acknowledgement behind a passed fence, after evidence of the exit and after the retirement was sealed, found sealed or not needed; a seal follows a successful cleanup |
| `HandoffAnswers.AnswersExactly` | src/cli_agent_orchestrator/mcp_server/server.py:1227-1550 | the last events of a trace say exactly whether the wait has ended and with which answer: each failure, each kind of waiting, each fence and each way of completing |
| `HandoffAnswers.ContinuesExactly` | src/cli_agent_orchestrator/mcp_server/server.py:1373-1550 | exactly when a pass that found nothing is followed by another, when the child is given up, and when a claim made meanwhile is looked for |
| `HandoffAnswers.ExitPostedExactly` | src/cli_agent_orchestrator/mcp_server/server.py:1238-1251 | the cleanup posts an exit exactly when the child was last seen running |
| `HandoffWaits.EventAllowed` | src/cli_agent_orchestrator/mcp_server/server.py:1333-1550 | whatever a waiter meets, its protocol goes on with an answer the store can give |
| `HandoffWaits.Waiter.FinishClaimedHandoffRuntimeFence` | src/cli_agent_orchestrator/mcp_server/server.py:1200-1224 | answers the fence only if the release was made, else the unconfirmed release |
| `HandoffWaits.Waiter.RetireClaimed` | src/cli_agent_orchestrator/mcp_server/server.py:1268-1312 | with the retirement claimed, reaches the last fence only with intent, cleanup and seal, each behind its own fence |
| `HandoffWaits.Waiter.RetireManaged` | src/cli_agent_orchestrator/mcp_server/server.py:1252-1312 | goes on to the last fence with the retirement sealed by this wait or found sealed, else ends as the protocol says |
| `HandoffWaits.Waiter.CleanupClaimedHandoffResult` | src/cli_agent_orchestrator/mcp_server/server.py:1227-1330 | from the first fence to the answer the protocol has at that place, whatever others do in between |
| `HandoffWaits.Waiter.DurableHandoffTerminalResult` | src/cli_agent_orchestrator/mcp_server/server.py:611-655 | three reads: the relation, a claim, the result row, with the answer of the last only: a complete row is returned, an unsuccessful one fails |
| `HandoffWaits.Waiter.OwnResult` | src/cli_agent_orchestrator/mcp_server/server.py:1346-1372 | a delivered result is returned, a claimed one cleaned up, and else the terminal decides |
| `HandoffWaits.Waiter.ChildGone` | src/cli_agent_orchestrator/mcp_server/server.py:1373-1405 | delivers what was claimed meanwhile, or gives the relation up |
| `HandoffWaits.Waiter.ClaimCapture` | src/cli_agent_orchestrator/mcp_server/server.py:1482-1521 | a refused claim goes on waiting, an own one is cleaned up, and no relation means capture only |
| `HandoffWaits.Waiter.AcceptCapture` | src/cli_agent_orchestrator/mcp_server/server.py:1461-1524 | the older path claims only on two equal valid captures, each right after COMPLETED was seen |
| `HandoffWaits.Waiter.AcceptCompleted` | src/cli_agent_orchestrator/mcp_server/server.py:1418-1527 | barrier, staged result, lost content, structured child and captures in this order |
| `HandoffWaits.Waiter.LookOnce` | src/cli_agent_orchestrator/mcp_server/server.py:1341-1541 | one pass answers or comes to its end |
| `HandoffWaits.Waiter.AwaitHandoff` | src/cli_agent_orchestrator/mcp_server/server.py:1333-1550 | the loop follows the protocol to the place of its answer, every event is what the store and the world answered, and the answer rests on the last event as `AnswersExactly` says |
| `HandoffRuns.WaitersFollowTheProtocol` | src/cli_agent_orchestrator/mcp_server/server.py:1333-1550 | in every interleaving the events of one waiter are a trace the protocol allows |
| `HandoffRuns.SoundAlways` | src/cli_agent_orchestrator/mcp_server/server.py:1227-1550 | in every run the relation stays in order, every waiter's place keeps its promise, and nothing goes back |
| `HandoffRuns.OrderKept` | src/cli_agent_orchestrator/mcp_server/server.py:1227-1330 | over any number of waiters with deaths, retries and the parent's exit: one acknowledgement at most, after exit, cleanup and seal unless a waiter bypassed it |
| `HandoffRuns.RepliesRest` | src/cli_agent_orchestrator/mcp_server/server.py:611-655 | what each kind of COMPLETED rests on, from then on |
| `HandoffRuns.ClaimedOutputStays` | src/cli_agent_orchestrator/mcp_server/server.py:1365-1372 | a claimed result is never replaced, and every answer that is not a capture carries it |
| `HandoffRuns.NeverRecaptured` | src/cli_agent_orchestrator/mcp_server/server.py:1365-1372 | once the relation is past awaiting, its parent's waits never capture the terminal again |
| `HandoffGaps.BypassedExactly` | src/cli_agent_orchestrator/mcp_server/server.py:1373-1393 | an acknowledgement precedes the cleanup exactly when the waiter had found the child gone and a managed result was claimed meanwhile |
| `HandoffGaps.EarlyExactly` | src/cli_agent_orchestrator/mcp_server/server.py:628-647 | a COMPLETED precedes the acknowledgement exactly when the result was claimed between the read of the claim and that of the row |
| `HandoffGaps.SafeAlways` | src/cli_agent_orchestrator/mcp_server/server.py:1333-1550 | from a state where no capture can be claimed behind a waiter's back no run breaks a promise |
| `HandoffGaps.BrokenExactly` | src/cli_agent_orchestrator/mcp_server/server.py:1333-1550 | with nobody in the middle of a wait, some run breaks either promise if and only if a capture can still be claimed, and the second only for a managed child |
| `HandoffGaps.EarlyHappens` | src/cli_agent_orchestrator/mcp_server/server.py:628-647 | a run of two waiters from any such state that returns COMPLETED too early |
| `HandoffGaps.BypassHappens` | src/cli_agent_orchestrator/mcp_server/server.py:1373-1393 | a run of two waiters from any such state that acknowledges without the cleanup |
| `HandoffGaps.ClaimedCanBeDelivered` | src/cli_agent_orchestrator/mcp_server/server.py:1227-1330 | from any reachable state one undisturbed wait cleans up, acknowledges and returns a claimed result of an exited child, however many waits died before |
| `HandoffGaps.UnsuccessfulOnlyFails` | src/cli_agent_orchestrator/mcp_server/server.py:628-655 | in every run short of a withdrawal the parent's wait on a final unsuccessful result can only fail, and never answers that it waits |
| `HandoffGaps.UnsuccessfulFails` | src/cli_agent_orchestrator/mcp_server/server.py:648-655 | three undisturbed reads fail on it |
| `HandoffGaps.CompleteOnlyReturned` | src/cli_agent_orchestrator/mcp_server/server.py:628-647 | in every run short of a withdrawal the parent's wait on a complete result that no live call has claimed returns it, unless an access raises |
| `HandoffGaps.StructuredNeverCleanedUp` | src/cli_agent_orchestrator/clients/database.py:28346-28350 | no run has a waiter clean up after or acknowledge a structured child |
| `HandoffGaps.StagedReturnedUncleaned` | src/cli_agent_orchestrator/clients/database.py:28359-28437 | the waiter that takes a staged result answers that it waits, and the next one returns it with nothing cleaned up |
| `WaitSlices.SliceKeysDiffer` | src/cli_agent_orchestrator/mcp_server/server.py:393-403 | different slices have different effects |
| `WaitSlices.AwaitTool.AwaitHandoff` | src/cli_agent_orchestrator/mcp_server/server.py:1964-2024 | when a slice is refused, observed or replayed; which state the observation leaves, by state and reason; it raises exactly when its claim was taken away meanwhile; a named next slice leaves this one recorded as resumable |
| `WaitSlices.RecordedForever` | src/cli_agent_orchestrator/mcp_server/server.py:390-454 | a recorded slice stays recorded in every history: the next guard passes while the turn is current, and the slice is never observed again |
| `WaitSlices.CompletedSliceEnds` | src/cli_agent_orchestrator/mcp_server/server.py:406-409 | a slice that observed the completion stays completed in every history and every resumed turn, is never replayed as resumable, and lets no next slice in |
| `WaitSlices.AbandonedSliceBlocks` | src/cli_agent_orchestrator/mcp_server/server.py:1966-1989 | a slice whose holder died lets nothing after it in, in its turn and in every turn that resumes it |
| `WaitSlices.AdmittedAfterAllPredecessors` | src/cli_agent_orchestrator/mcp_server/server.py:1966-1992 | in every run and every turn, resumed ones included, a slice exists only when all slices before it have a durable resumable outcome |
| `WaitSlices.CombinedLinkedExactly` | src/cli_agent_orchestrator/clients/database.py:16455-16477 | a turn that inherits from two keeps that order if and only if neither went on past a slice the other settled otherwise |
| `WaitSlices.CombinedOutOfOrder` | src/cli_agent_orchestrator/clients/database.py:16455-16477 | two turns whose combined ledger breaks it |
| `Releases.Collect` | deployment/promote-ops-p1.py:324-340 | the rollback list holds the new values other than the candidate, once each, after those it had |
| `Releases.AdmittedFacts` | deployment/promote-ops-p1.py:294-340 | the checks under the lock leave the rollback values and the other candidates with distinct markers |
| `Releases.AdmissionStable` | deployment/promote-ops-p1.py:294-363 | a promotion's own writes keep it admitted with the same rollback values |
| `Releases.MissingAdvances` | deployment/promote-ops-p1.py:347-371 | after its first write a promotion lacks exactly the rest of its plan and aims at the same final state |
| `ReleaseScripts.ControlFiles.GatherRollbacks` | deployment/promote-ops-p1.py:324-340 | the loop collects the argument, the release that was active and the old rollbacks, or stops exactly when one may not be used |
| `ReleaseScripts.ControlFiles.CheckLocked` | deployment/promote-ops-p1.py:292-340 | the checks under the lock and the first reason that refuses |
| `ReleaseScripts.ControlFiles.Demote` | deployment/promote-ops-p1.py:354-361 | the loop marks the first two rollback values and stops where the process dies |
| `ReleaseScripts.ControlFiles.WriteAll` | deployment/promote-ops-p1.py:347-371 | after any number of writes the files are those of the same prefix of the plan |
| `ReleaseScripts.ControlFiles.PromoteLocked` | deployment/promote-ops-p1.py:292-371 | refusals and dry runs change nothing; otherwise the files and the outcome are those of the plan up to the death, and a completed promotion fulfils what `PromotionFulfils` says |
| `ReleaseScripts.ControlFiles.Stage` | deployment/stage-ops-p1.py:428-610 | a path that exists is refused; a staging that fails removes its directory and leaves the lists alone; otherwise the files follow the staging plan up to the death |
| `Promotion.FullRunReachesFinal` | deployment/promote-ops-p1.py:347-371 | an uninterrupted promotion ends in the state described independently of its writes |
| `Promotion.PrefixInterrupted` | deployment/promote-ops-p1.py:347-371 | a death before the metadata write leaves a state from which the same promotion is accepted with the same end |
| `Promotion.CrashRecovery` | deployment/promote-ops-p1.py:256-371 | after any sequence of interrupted attempts one more ends exactly where an uninterrupted promotion ends |
| `Promotion.FurtherRunsChangeNothing` | deployment/promote-ops-p1.py:256-371 | once done, further attempts, complete or not, change nothing |
| `PromotionOutcomes.PromotionFulfils` | deployment/promote-ops-p1.py:324-371 | from the old metadata and the arguments alone: link, record and marker name the candidate, the recorded rollbacks are the first two by rank of argument, old active release and old rollbacks, exactly they are marked so, and the other candidates stay listed |
| `PromotionOutcomes.CompleteAttemptFulfils` | deployment/promote-ops-p1.py:256-371 | an attempt that is not interrupted does that |
| `PromotionOutcomes.ReplacedReleaseKept` | deployment/promote-ops-p1.py:324-361 | the usable argument comes first, else the release that was active; that release is always kept as a rollback and marked so, and only the new one is left marked active |
| `PromotionOutcomes.RefusedExactly` | deployment/promote-ops-p1.py:292-340 | each refusal under the lock exactly when its reason holds and no earlier one does: an unfit other candidate, an unlisted candidate, a link elsewhere, an unfit release to roll back to |
| `PromotionOutcomes.StagingStages` | deployment/stage-ops-p1.py:565-610 | a completed staging lists its release first, keeps the newest other candidate and touches neither the active release nor the rollbacks |
| `ReleaseRuns.LinkNeverCandidate` | deployment/promote-ops-p1.py:256-371 | in every run, whatever dies and whatever is evicted, the link points only to a release marked active or rollback, and no marker returns to candidate |
| `ReleaseInvariants.KeepsHalfExactly` | deployment/stage-ops-p1.py:592-610 | staging keeps every half-promoted release listed if and only if the checkable condition holds |
| `ReleaseInvariants.PromoterWrites` | deployment/promote-ops-p1.py:347-371 | each write of the lock holder keeps the files sound and moves markers forward only |
| `ReleaseInvariants.StagerWrites` | deployment/stage-ops-p1.py:565-610 | so does each write of a careful staging |
| `ReleaseInvariants.FailedStageSound` | deployment/stage-ops-p1.py:428-436 | a staging that fails and removes its directory leaves the files sound and loses nothing |
| `ReleaseInvariants.SoundAlways` | deployment/promote-ops-p1.py:256-371 | in every careful run: bounded, duplicate-free, disjoint lists, and the link differs from the recorded active release only for the one half-promoted candidate |
| `ReleaseRecovery.CrashFreeRuns` | deployment/promote-ops-p1.py:294-371 | without deaths under the lock every staging is careful, and between promotions the link is the recorded active release |
| `ReleaseRecovery.AdmittedExactly` | deployment/promote-ops-p1.py:294-340 | in a sound state a promotion is admitted if and only if the candidate is listed or active, nothing else is half promoted and the rollback argument is usable |
| `ReleaseRecovery.InterruptedCanFinish` | deployment/promote-ops-p1.py:256-371 | a half-promoted release can always be promoted again, which settles the files |
| `ReleaseRecovery.LostForever` | deployment/promote-ops-p1.py:306-314 | a lost release is never promoted again in any run, and with the link on it nothing is |
| `ReleaseRecovery.EvictionLoses` | deployment/stage-ops-p1.py:592-610 | staging against the condition loses the half-promoted release |
| `ReleaseRecovery.UndisturbedAttempt` | deployment/promote-ops-p1.py:256-371 | a process that nothing interleaves with behaves as one attempt |
| `ReleaseRecovery.HalfPromotion` | deployment/promote-ops-p1.py:347-365 | a run from a fresh installation that dies after the link |
| `ReleaseRecovery.EvictionHappens` | deployment/stage-ops-p1.py:592-610 | two more stagings after it, and no promotion is ever admitted again |
| `TextLines.LinesBreakFree` | scripts/verify_local_candidate.py:154-159 | no line that is read contains a line break of any kind |
| `TextLines.SplitUnlines` | scripts/build_local_candidate.py:211-219 | break-free lines are read back exactly |
| `TextLines.EntryReadBack` | scripts/verify_local_candidate.py:155-156 | a checksum line is split where it was joined, whatever the path is |
| `CandidateTrees.WrittenPathResolves` | scripts/verify_local_candidate.py:43-45 | a written path resolves to its own file below any root |
| `CandidateTrees.PosixInjective` | scripts/build_local_candidate.py:211-219 | different files have different written paths |
| `CandidateIntegrity.VerifyChecksums` | scripts/verify_local_candidate.py:153-172 | the errors of the checksum section, in order |
| `CandidateIntegrity.VerifyManifest` | scripts/verify_local_candidate.py:173-193 | the manifest section is silent if and only if coverage, paths, sizes, digests and privacy all hold |
| `CandidateIntegrity.AcceptedRecords` | scripts/verify_local_candidate.py:153-172 | an accepted checksum file gives the digest of every file and of nothing else |
| `CandidateIntegrity.SameSumsSameTree` | scripts/verify_local_candidate.py:153-172 | two accepted trees with one checksum file hold the same paths and, unless a digest collides, the same contents |
| `CandidateIntegrity.Inventoried` | scripts/build_local_candidate.py:188-196 | the inventory of the payload, refused exactly for a private path |
| `CandidateIntegrity.WriteMetadata` | scripts/build_local_candidate.py:188-219 | refuses exactly the trees with a private path, and otherwise leaves the payload and writes the two derived files |
| `CandidateIntegrity.WrittenAcceptedExactly` | scripts/build_local_candidate.py:188-219 | what is written passes the checksum section if and only if no path contains a line break |
| `CandidateIntegrity.WrittenManifestClean` | scripts/build_local_candidate.py:188-210 | what is written always passes the manifest section |
| `CandidateIntegrity.BreakNeverAccepted` | scripts/verify_local_candidate.py:166-172 | a tree with a line break in a path is never accepted, whatever its checksum file says |
| `CandidateIntegrity.ChecksumInventory` | scripts/prepare_release_bundle.py:34-44 | the dictionary, or a refusal of malformed, repeated or non-digest lines |
| `CandidateIntegrity.ReadersAgree` | scripts/prepare_release_bundle.py:34-44 | on every accepted tree the bundle's reader gets the digest of every file |
| `CandidateIntegrity.ReadBackExactly` | scripts/prepare_release_bundle.py:34-44 | it reads back the written map if and only if no path contains a line break |
| `CandidateChecks.ProblemsExactly` | scripts/verify_local_candidate.py:153-172 | each problem of the checksum section is reported exactly when a line or the inventory has it |
| `CandidateChecks.AcceptedExactly` | scripts/verify_local_candidate.py:153-172 | the checksum section accepts exactly a file that gives every file its digest once and says nothing else |
| `CandidateChecks.ManifestExactly` | scripts/verify_local_candidate.py:173-193 | the manifest section is silent exactly when the coverage is truthful, the last entry of every payload file has its size and digest, no path has a private component and nothing else is listed |
| `CandidateChecks.InventoryExactly` | scripts/prepare_release_bundle.py:34-44 | the bundle's reader takes exactly the files whose lines all split into a digest and a path that no other line names, and reads what they say |
| `PolicySplice.SplicePolicy` | deployment/stage-ops-p1.py:846-855 | refused exactly when a marker is repeated, unpaired or out of order; otherwise the text outside the block is kept, the block holds the source, and the result is marked once and unchanged by a second splice exactly when the source holds no marker |
| `PolicySplice.RefusedExactly` | deployment/stage-ops-p1.py:848-853 | which of the two errors, for which policies |
| `PolicySplice.CountOneExactly` | deployment/stage-ops-p1.py:849-850 | a count of one means a given occurrence is the only one |
| `PolicySplice.TextKept` | deployment/stage-ops-p1.py:848-855 | everything outside the block is kept but for white space before it |
| `PolicySplice.MarkersExactly` | deployment/stage-ops-p1.py:846-855 | exactly one BEGIN and one END if and only if the source holds neither |
| `PolicySplice.IdempotentExactly` | deployment/stage-ops-p1.py:846-855 | splicing again changes nothing if and only if the source holds neither marker, and is refused otherwise |
| `FilenameCodec.Utf8RoundTrip` | src/cli_agent_orchestrator/api/main.py:376-379 | strict decoding inverts UTF-8 encoding for every scalar value |
| `FilenameCodec.GuardNeverFires` | src/cli_agent_orchestrator/api/main.py:374-375 | the malformed-percent guard never fires on an encoded name |
| `FilenameCodec.HeaderRead` | src/cli_agent_orchestrator/api/main.py:372-382 | a header is refused wherever a percent sign lacks its two digits, and one without percent signs is read as it is |
| `FilenameCodec.RoundTripExactly` | web/src/api.ts:1093-1093 | the server reads back the browser's name if and only if it is not empty and has no control character |
| `FilenameCodec.AcceptedNamesSurvive` | src/cli_agent_orchestrator/api/main.py:372-382 | every accepted header names a file that survives encoding and decoding |
| `BlockingLanes.BlockingLane.RunBoundedBlocking` | src/cli_agent_orchestrator/api/main.py:174-191 | creates and retains one runner |
| `BlockingLanes.BlockingLane.CancelWait` | src/cli_agent_orchestrator/api/main.py:175-181 | a cancelled request only stops its own wait |
| `BlockingLanes.BlockingLane.FinishBlockingRunner` | src/cli_agent_orchestrator/api/main.py:167-171 | the callback drops exactly its runner |
| `BlockingLanes.CoveredExactly` | src/cli_agent_orchestrator/api/main.py:175-181 | in every run the tokens cover the live workers throughout if and only if no cancellation reaches the runner of a live worker |
| `BlockingLanes.ShieldExactly` | src/cli_agent_orchestrator/api/main.py:191-191 | a caller's cancellation reaches a runner if and only if it is its own and waited for without a shield |
| `BlockingLanes.ShieldedNeverHit` | src/cli_agent_orchestrator/api/main.py:175-191 | with the shield no caller's cancellation ever hits one |
| `BlockingLanes.CancelledExactly` | src/cli_agent_orchestrator/api/main.py:174-192 | what a cancellation takes: from a waiting caller its wait, from a runner that has not ended its token |
| `BlockingLanes.AnsweredExactly` | src/cli_agent_orchestrator/api/main.py:167-171 | the end of a runner answers exactly its own caller if that still waits, and the runner is dropped |
| `BlockingLanes.NeverOverCapacity` | src/cli_agent_orchestrator/api/main.py:174-191 | for every interleaving of calls, cancelled callers and completions live workers hold tokens, tokens never exceed the capacity and equal the live workers outside a handover |
| `BlockingLanes.CallersChangeNothing` | src/cli_agent_orchestrator/api/main.py:175-181 | a run ends with the same tokens, workers and runners without its cancelled callers, for a shielded lane |
| `BlockingLanes.RetainedUntilWorkerEnds` | src/cli_agent_orchestrator/api/main.py:164-191 | a working runner keeps its token and stays retained until its worker ends, unless a cancellation reaches it |
| `BlockingLanes.StormWithoutShield` | src/cli_agent_orchestrator/api/main.py:175-181 | without the shield, calls and disconnects leave any number of workers alive in a lane of any capacity |
| `BlockingLanes.Drains` | src/cli_agent_orchestrator/api/main.py:167-191 | from every reachable state some completions leave no token in use and no runner retained |
| `FullCleanup.StartTicksIgnoreTheName` | src/cli_agent_orchestrator/services/full_cleanup_operation_service.py:12-20 | the start ticks are read correctly whatever the process is called |
| `FullCleanup.OperationStore.TerminalizeOperation` | src/cli_agent_orchestrator/clients/database.py:1715-1753 | ends exactly an active admitted operation, or one run by exactly this helper |
| `FullCleanup.OperationStore.ReconcileOne` | src/cli_agent_orchestrator/services/full_cleanup_operation_service.py:41-73 | what is attempted for one operation, and whether it succeeded, with others acting in between |
| `FullCleanup.OperationStore.Reconcile` | src/cli_agent_orchestrator/services/full_cleanup_operation_service.py:23-74 | inspected equals active plus terminalized, terminalized counts exactly the successes, the store is that of the whole sweep, and only an unknown state raises |
| `FullCleanup.FinishedForever` | src/cli_agent_orchestrator/clients/database.py:1677-1753 | a finished operation never changes again |
| `FullCleanup.TerminalizesOnlyTheDead` | src/cli_agent_orchestrator/services/full_cleanup_operation_service.py:41-73 | whatever a whole sweep leaves ended was listed, and at some turn was ended by others, or by the sweep as admitted when included or as run by a helper not seen alive |
| `FullCleanup.SweepOutcome` | src/cli_agent_orchestrator/services/full_cleanup_operation_service.py:41-73 | what the sweep ended stays failed before its start or of unknown outcome without a receipt, and nothing else of it has changed |
| `FullCleanup.CountsExactly` | src/cli_agent_orchestrator/services/full_cleanup_operation_service.py:35-74 | the count of terminalized operations grows exactly where the sweep ends one |
| `FullCleanup.PublishedExactly` | src/cli_agent_orchestrator/clients/database.py:1677-1712 | a report is recorded exactly when it comes from the helper that claimed the running operation |
| `FullCleanup.ClaimedRunExactly` | src/cli_agent_orchestrator/clients/database.py:1561-1593 | a run is claimed once, by the first helper that names itself |
| `FullCleanup.LiveHelperUntouched` | src/cli_agent_orchestrator/services/full_cleanup_operation_service.py:55-62 | an operation whose exact helper is seen alive at each of its turns is not ended by a sweep; if it is ended, others did |
| `FullCleanup.PublishedSurvivesSweep` | src/cli_agent_orchestrator/services/full_cleanup_operation_service.py:63-73 | a result published at any point of a sweep survives it |
| `FullCleanup.StartupFenceExactly` | src/cli_agent_orchestrator/services/full_cleanup_operation_service.py:77-82 | after the start-up sweep the fence raises if and only if a live helper remains |
| `FullCleanup.NamelessRunNeverEnds` | src/cli_agent_orchestrator/services/full_cleanup_operation_service.py:63-69 | a running row without a helper identity is missed by both placeholders |
| `ReadModel.ProgressiveList.RequestPage` | web/src/uiReadModels.ts:28-43 | when a request starts, and from which offset with which limit |
| `ReadModel.ProgressiveList.CompletePage` | web/src/uiReadModels.ts:44-66 | what a completion of the current generation sets, and a stale one does not |
| `ReadModel.ProgressiveList.ChangeTo` | web/src/uiReadModels.ts:69-81 | a new key resets everything under a new generation and starts one request |
| `ReadModel.SoundAlways` | web/src/uiReadModels.ts:28-81 | in every interleaving: no duplicates, only items of the current key, never over the limit, at most one current request |
| `ReadModel.StaleChangesNothing` | web/src/uiReadModels.ts:44-44 | every run shows what it would have shown without a fetch that a new key made stale |
| `ReadModel.PrefixAlways` | web/src/uiReadModels.ts:28-81 | the list is a prefix of the server's while no request for more starts beyond it |
| `ReadModel.PrefixFromBlank` | web/src/uiReadModels.ts:28-81 | so it is in every such run of a new list |
| `ReadModel.AppendExactly` | web/src/uiReadModels.ts:48-53 | exactly when a fetched page extends the prefix |
| `ReadModel.ReloadLeavesGap` | web/src/uiReadModels.ts:25-33 | a reload and an early request for more leave a gap |
| `ReadModel.RefreshReloadsShown` | web/src/uiReadModels.ts:28-33 | a refresh reloads as much as was shown, and at least a page, so that of an unchanged list nothing disappears |
| `ReadModel.ReloadShowsFirstPage` | web/src/uiReadModels.ts:28-56 | a reload shows the first page again |
| `ReadModel.NewKeyLoads` | web/src/uiReadModels.ts:69-81 | a new key shows nothing of the old one and fetches its own first page at once |
| `ReadModel.FailureUnlocks` | web/src/uiReadModels.ts:57-66 | a failed fetch changes nothing shown and frees the list exactly when it was the current one |
| `ReadModel.LoadsEverything` | web/src/uiReadModels.ts:83-89 | asking for more until nothing is left shows the whole list, up to the limit |
| `AgentFilters.StableListSorts` | web/src/agentFilters.ts:40-42 | ascending, without repetition, the same values |
| `AgentFilters.StableListDependsOnSet` | web/src/agentFilters.ts:40-42 | depends only on the set of its values |
| `AgentFilters.OnlyCleanRead` | web/src/agentFilters.ts:36-38 | only trimmed, non-empty, comma-free values are read, and a well-formed parameter gives well-formed ones |
| `AgentFilters.Apply` | web/src/agentFilters.ts:57-66 | the unrelated parameters followed by the state's own |
| `AgentFilters.UnrelatedKept` | web/src/agentFilters.ts:57-66 | other parameters keep their values and order |
| `AgentFilters.LaterApplyWins` | web/src/agentFilters.ts:57-66 | a later state overrides an earlier one completely |
| `AgentFilters.ReadBackExactly` | web/src/agentFilters.ts:44-66 | reading back gives the normalised state if and only if all list values are clean: trimmed, not empty, without comma or lone surrogate |
| `StatusScan.Scan` | src/cli_agent_orchestrator/providers/claude_code.py:351-355 | the backward loop |
| `StatusScan.ReadStatus` | src/cli_agent_orchestrator/providers/claude_code.py:337-394 | the status in the order the checks are made |
| `StatusScan.ProcessingExactly` | src/cli_agent_orchestrator/providers/claude_code.py:347-375 | with a separator, Processing if and only if a spinner line lies between the previous separator's line and the last separator |
| `StatusScan.EarlyProcessingExactly` | src/cli_agent_orchestrator/providers/claude_code.py:372-375 | without a separator, Processing exactly when a spinner match lies behind the last prompt |
| `StatusScan.SettledStatusExactly` | src/cli_agent_orchestrator/providers/claude_code.py:377-394 | when nothing is running, exactly what the screen shows for each of the other answers |
| `StatusScan.OlderHistoryIgnored` | src/cli_agent_orchestrator/providers/claude_code.py:340-355 | with separators on two lines no older history changes it |
| `StatusScan.HistoryIgnoredExactly` | src/cli_agent_orchestrator/providers/claude_code.py:340-355 | exactly when no history can change it |

## Left out

- File ownership, modes, required executables, JSON shape and path checks of the release scripts: `intact`
  holds the trees that pass them.
- The reads of other tables that decide whether a claim or a seal is eligible: they are one answer
  (`Evidence`, `authority`) each.
- A revalidation that raises in the reconciler gives the claim back like a lost one and raises again: it counts
  as lost.
- Legacy retirement rows that were completed without a recorded cleanup.
- The text of answers and error messages, locale, logging and notification wake-ups.
- The delegation path without a request effect, which cancels unconditionally, and the normal path, which
  ignores the reply's success field.
- Delegation by a caller without a parent terminal, which is never registered and raises at once.
- The runtime fence in front of a wait slice, which answers before anything is claimed.
- Completion of the effect in the handoff tool when resuming the provider execution raises.
- The steps of the recovery of a handoff: it appears as single acts on the relation.
- `HandoffWaits.Waiter.AwaitHandoff`: time is counted in steps, because no promise depends on its length.
- The other sections of the candidate verifier (brand, documentation, localisation, wheel, SBOM) and the rest
  of the bundle preparation.
- The regular expressions of the status scan are predicates on lines, and the other matches are given by
  their positions.
- Percent encoding of the address bar: filter parameters are pairs of a name and code units.
- The `error` state of the progressive list, whose setter is not fenced, and the abort signal, which only
  makes a fetch fail sooner.
- The grant order of the lane's limiter.
- `ReleaseRecovery.LostForever`: does not model a release directory that is deleted and staged again under the
  same path, because the scripts never delete a staged release; housekeeping and the operator do.
- The deletion of a session's ledger rows, and resolutions, which are appended beside an effect and never
  change its state.
- The recovery of transport written by older versions, which reopens a closed workflow.

# Verification of the Solana agent and its execution gateway

This project models the parts of the repository that decide whether something irreversible happens,
and proves what they guarantee.

- **Broadcast protocol** (`Preparations`, `Executions`, `Broadcast*`, `SolanaBackend`). Several gateway
  processes share two tables. Each handler is a program counter over atomic transactions and RPC calls;
  a process may crash between any two of them. The theorems range over all interleavings; two stronger
  ones hold when handlers do not interleave, with the exact condition for when interleaving breaks them
  and runs that show it.
- **Gateway journal** (`GatewayJournals`, `GatewayDispatch`). Reservation, dispatch and replay of gateway
  requests by any number of processes.
- **Mission scheduler** (`MissionGraph`, `TopologicalSort`, `MissionRuns`, `MissionSafety`,
  `MissionOutcomes`, `MissionTheorems`, `MissionCrashes`, `MissionSuccess`, `MissionTables`,
  `MissionEngine`, `MissionEngineTheorems`). The sort with its priority rule; passes of the drive loop
  over persisted rows, with approvals, failures, crashes and resumption; and the engine itself, working
  through the repository and the command journal, proved to make those passes.
- **Repository and command journal** (`Lifecycle`, `JournalRepository`, `EventReplay`,
  `CommandAuthorization`, `CommandApprovals`, `CommandJournals`). The tables and their append-only log;
  planning, authorization, approval and execution of commands by any number of processes.
- **Policy** (`Base58`, `Redaction`, `Policy`). The wallet check, redaction of secrets and the policy
  decision.

Each table is a map and each transaction one atomic step. Code that updates state in place is a class
whose methods are proved against functions on values; the theorems are about those functions and about
runs of the transition systems, and the methods of the handlers are proved to be runs of them. Time is
an integer, and clock readings, RPC answers, policy verdicts, executor results and crash points are
parameters, so every theorem holds for all of them.

Assumptions, all stated in the contracts that use them: the hash that keys commands is injective
(`MissionSafety.Injective`); the secret patterns do not match the replacement text (`Redaction.Stable`);
signature verification, hashing and transaction assembly are arbitrary functions (`Broadcast.Config`).

Where the code and its documentation, or a natural expectation, differ, the model follows the code:

- One obligation can be sent twice. A late replay of an executed request expires its preparation and so
  frees the obligation (gateway/solana_execute.py:572-591; `ObligationSentTwice`). The bound that holds
  of the code is per request id and per authorization id. One send per obligation holds when no claimed
  request is expired, if handlers do not interleave (`GuardedHandlersSendOncePerObligation`); with
  interleaving it also takes that no expired request is claimed (`GuardedSendsOncePerObligation`), and
  the first condition alone is not enough (`ObligationSentTwiceByRace`). `SentAgainIffOpen` says exactly
  when another send for an obligation is possible.
- docs/chaos-testing.md says that neither a definitive rejection nor a lost outcome authorizes a new
  economic effect. `recover` answers `may_rematerialize` after every definitive rejection
  (gateway/solana_execute.py:482-536; `RejectionThenRecoverPermits`, `RejectionAuthorizesAnother`), and
  exactly for failed attempts and expired preparations without an attempt (`RecoverExecution`). For a
  lost outcome the claim holds until the chain reports an error.
- `confirmed` is left, and a fenced request is sent, only under interleavings that
  `OverwritePossibleIffStale` and `LateSendPossibleIffArmed` characterize exactly.
- A step left running by a crash cannot be restarted: every later pass that reaches it stops there with
  a rejected transition while its preconditions hold and its adapter is registered
  (solana_agent/contracts/mission.py:160-166; `CrashLeavesRunning`, `RunningStepIsStuck`), and it leaves
  that status exactly in a pass that finds otherwise, as failed (`LeavesRunningIffReleased`).
- The read-only profile can ask for an approval: the path guard runs before the rules
  (`ReadOnlyCanAskForApproval`; `ReadOnlyDecisions` and `WorkspaceApproval` say exactly when).

## Model

| member | source | states |
|---|---|---|
| BroadcastTheorems.AtMostOneSend | gateway/solana_execute.py:119-199 | in every interleaving of any number of processes with crashes, no two sendTransaction calls share an execution request id or an authorization id |
| BroadcastTheorems.SendIsDurableFirst | gateway/solana_execute.py:371-386 | a step that sends appends exactly one send, and the row with its request, authorization, signature and signed bytes was stored before the step |
| BroadcastTheorems.EverySendJustified | gateway/solana_execute.py:554-689 | every send is for a stored preparation, with an authentic authorization bound to its message and commitment, a signature of the prepared message by the prepared signer, validated at a time and block height inside all bounds (issued, authorization expiry, prepared expiry, plan expiry, 60 seconds, last valid height) |
| BroadcastTheorems.AttemptsAreImmutable | gateway/solana_execute.py:201-306 | whatever happens later, an attempt keeps its request, authorization, hashes, signature and signed bytes; a receipt carries exactly those values; confirmed_at is set if and only if a confirmed observation was recorded at some time |
| BroadcastTheorems.PrepareAnswersAgree | gateway/solana_prepare.py:244-253 | all successful prepare answers for one execution request id are the same prepared value for the same plan hash |
| BroadcastTheorems.ObligationBound | gateway/solana_prepare.py:128-174 | of two preparations of one obligation, at least one is expired |
| BroadcastTheorems.NoStrandedBroadcast | gateway/solana_execute.py:399-465 | an attempt in broadcast_started has a live handler or a recorded crash after its claim: no other exit leaves it there |
| BroadcastTheorems.RematerializeOnlyAfterFailure | gateway/solana_execute.py:482-536 | recover answers an attempt with may_rematerialize only if a definitive rejection or a chain error was recorded for it |
| BroadcastSafety.RunKeepsInv | gateway/solana_execute.py:342-536 | the inductive invariant: every run from a state that satisfies it ends in one, and no durable row is lost on the way |
| BroadcastAtomic.FencedIsNeverSent | gateway/solana_prepare.py:429-440 | with uninterrupted handlers and crashes: once recover answered failed_before_broadcast with may_rematerialize, no continuation claims or sends that request |
| BroadcastAtomic.TerminalIsAbsorbing | gateway/solana_execute.py:691-755 | with uninterrupted handlers and crashes: confirmed and failed attempts are never left |
| BroadcastAtomic.RematerializableStaysFailed | gateway/solana_execute.py:482-536 | with uninterrupted handlers and crashes: an attempt answered with may_rematerialize stays failed |
| BroadcastRaces.LateSendPossibleIffArmed | gateway/solana_execute.py:554-591 | with interleaving: a request without an attempt whose preparation is expired can still be sent if and only if some process has already read or validated it as prepared and can claim it |
| BroadcastRaces.OverwritePossibleIffStale | gateway/solana_execute.py:276-306 | with interleaving: a terminal attempt can still change if and only if some process holds an older reading of it whose write is still to come |
| BroadcastObligations.GuardedHandlersSendOncePerObligation | gateway/solana_execute.py:572-591 | with uninterrupted handlers and crashes: along every run in which no expiry hits a live preparation whose request was claimed, no two sends share an obligation |
| BroadcastObligations.GuardedSendsOncePerObligation | gateway/solana_execute.py:554-591 | with interleaving: along every run in which moreover no request is claimed after its preparation expired, no two sends share an obligation |
| BroadcastObligations.SentAgainIffOpen | gateway/solana_prepare.py:128-174 | from every reachable state, whatever was sent before, some continuation sends an unsent request of an obligation if and only if a process has claimed one or can still claim it, or its live unclaimed row has an acceptable payload, or there is a plan under a fresh request id with an acceptable payload |
| BroadcastObligations.CanBeFreed | gateway/solana_execute.py:572-591 | from every state the live preparation of an obligation, executed or not, can be expired by a late call, which sends and claims nothing |
| BroadcastVerdicts.VerdictsAreLearned | gateway/solana_execute.py:691-755 | along every interleaved run, an attempt is or ever was failed, or was answered with may_rematerialize, only if a step of its own broadcast was rejected by the node or the chain reported an error for it, and confirmed only if the chain reported it settled without an error |
| BroadcastRaces.ValidIffAcceptableInTime | gateway/solana_execute.py:554-689 | the checks pass if and only if the payload is acceptable, the time is inside the window of its authorization and the height is not past the last valid one |
| BroadcastRaces.RefusalNamesDefect | gateway/solana_execute.py:592-689 | each refusal names a real defect, with exact conditions for message, hash, binding and expiry |
| BroadcastRaces.AcceptableIffValidAtSomeTime | gateway/solana_execute.py:554-689 | the clock-free conditions on a payload are exactly those under which the checks pass at some time and some height |
| BroadcastDemos.ObligationSentTwice | gateway/solana_execute.py:572-591 | a run without interleaving in which one obligation is sent twice under two request ids with two signatures |
| BroadcastDemos.ObligationSentTwiceByRace | gateway/solana_execute.py:119-199 | a run with interleaving that does so although no expiry hits a claimed request |
| BroadcastRuns.RejectionThenRecoverPermits | gateway/solana_execute.py:247-274 | after a definitive rejection of any broadcast, every recover of that request by an idle process answers with may_rematerialize |
| BroadcastRuns.RecoverAnswersVerdict | gateway/solana_execute.py:482-536 | recover of an attempt with a verdict answers with may_rematerialize if and only if the verdict is failed, and changes no table |
| BroadcastDemos.RejectionAuthorizesAnother | gateway/solana_execute.py:482-536 | a run without interleaving in which a definitively rejected request is answered with may_rematerialize and another request of its obligation can be sent |
| BroadcastDemos.FencedCanBeSent | gateway/solana_execute.py:119-199 | a run with interleaving in which a fenced request is sent |
| BroadcastDemos.ConfirmedCanBeOverwritten | gateway/solana_execute.py:290-296 | a run with interleaving in which a confirmed attempt loses its state |
| Executions.ClaimSucceedsIffUnused | gateway/solana_execute.py:119-199 | a claim succeeds if and only if neither its request id nor its authorization id was used, and then adds exactly one broadcast_started row |
| Executions.ExecutionStore.Claim | gateway/solana_execute.py:119-199 | the whole new table and the error of a claim: conflict, needs recovery, or already started with state and signature |
| Executions.ExecutionStore.RecordSubmitted | gateway/solana_execute.py:201-234 | only a broadcast_started row becomes submitted; the answer says whether it did |
| Executions.ExecutionStore.MarkNeedsRecovery | gateway/solana_execute.py:236-245 | only a broadcast_started row becomes needs_recovery |
| Executions.ExecutionStore.RecordDefinitiveRejection | gateway/solana_execute.py:247-274 | only a broadcast_started row becomes failed, with the rejection as observation |
| Executions.ExecutionStore.RecordObservation | gateway/solana_execute.py:276-306 | the unguarded update: new state and observation, receipt and confirmed_at kept when not given |
| Preparations.SaveAdmitsIffObligationFree | gateway/solana_prepare.py:128-174 | a preparation under a new request id is admitted if and only if all rows of its obligation are expired |
| Preparations.LookupMeans | gateway/solana_prepare.py:128-203 | the lookup finds nothing if and only if the id is unused and the obligation free; a known request is answered for its own plan while no other live row of the obligation is as recent |
| Preparations.SaveAnswersStored | gateway/solana_prepare.py:128-174 | a successful save answers with the value stored for the request, the old one if there was one |
| Preparations.SaveKeepsObligationsExclusive | gateway/solana_prepare.py:128-174 | a save keeps at most one live preparation per obligation and changes no stored row |
| Preparations.ExpireKeepsObligationsExclusive | gateway/solana_prepare.py:213-222 | expiry keeps that too |
| Preparations.PreparationStore.Save | gateway/solana_prepare.py:128-174 | the new table and answer of a save, for whichever latest row the query picks |
| Preparations.PreparationStore.ReplayOrBlock | gateway/solana_prepare.py:176-203 | replay, conflict or nothing found, for whichever latest row the query picks |
| Preparations.PreparationStore.Expire | gateway/solana_prepare.py:213-222 | only the named row changes, to expired |
| SolanaBackend.SolanaExecutionBackend.AuthorizeAndExecute | gateway/solana_execute.py:342-465 | the call is a run of the transition system; which answer comes when, in the order of the checks; the stored row of an expired call; and for a call that claims exactly one attempt and one send of its payload, submitted with its receipt if and only if the node echoed the signature, failed if and only if the node rejected, needs_recovery otherwise |
| SolanaBackend.SolanaExecutionBackend.RecoverExecution | gateway/solana_execute.py:482-536 | the call is a run of the transition system; may_rematerialize is answered if and only if the attempt is failed, or there is none and the preparation is expired; a verdict stays and is answered; without one recovered_failed comes exactly for a reported error, recovered_confirmed for a settled status without error, submitted for an unsettled one, needs_recovery and not_found_after_expiry for no status up to and after the last valid height; and the whole new tables |
| SolanaBackend.SolanaExecutionBackend.QueryStatus | gateway/solana_execute.py:467-480 | the call is a run of the transition system; a verdict stays; without one the answer and the stored row are failed exactly for a reported error, confirmed for a settled status without error, and for no status submitted if and only if it was submitted before, needs_recovery otherwise; a preparation without an attempt is expired exactly when its time or height has passed |
| SolanaBackend.SolanaExecutionBackend.Prepare | gateway/solana_prepare.py:244-406 | the call is a run of the transition system; a new request id is admitted if and only if the plan is not expired, its obligation is free and the chain-facing part, a parameter, refuses nothing, each refusal coming in this order; its row holds the compiled message, its hash, commitment and last valid height, and is valid until the plan expiry or 60 seconds after preparation, whichever is earlier; a known id changes nothing, and gets its old value for its own plan while its row is the most recent of the obligation |
| GatewayDispatch.DispatchedAtMostOnce | gateway/service.py:22-97 | over all processes and crashes each gateway request id is dispatched to the backend at most once |
| GatewayDispatch.ReturnedIsJournaled | gateway/journal.py:208-230 | every response that handle returned equals the event stored at its journal sequence, and no two have the same sequence |
| GatewayDispatch.ReplaysRepeatAnswer | gateway/journal.py:62-129 | once a request has a fresh or replayed answer, every later replayed answer to it is that answer but for the replay mark and the sequence number |
| GatewayDispatch.AnsweredInputIsReplayed | gateway/journal.py:109-121 | once a request has a stored response, at any later time its id with its input hash is answered at once and without dispatch by that response, marked as replay, with a journal sequence never returned before |
| GatewayDispatch.CompletedStays | gateway/journal.py:147-179 | a completed request keeps its row for ever |
| GatewayDispatch.ExternalExecutionGateway.Handle | gateway/service.py:22-97 | the call is a run of the dispatch system; the backend is called exactly for a new reservation, whose response is ok and stored as completed if and only if the backend returned a result that was stored, with the error of a refusal or the general failure otherwise; a known id is answered with a conflict, a replay or a demand for recovery exactly by its stored hash and response, and its row stays |
| GatewayJournals.ReserveDisposition | gateway/journal.py:62-129 | which of the four dispositions a reservation gets, for which stored rows |
| GatewayJournals.GatewayJournal.Reserve | gateway/journal.py:62-129 | the new rows and events of a reservation and its result |
| GatewayJournals.GatewayJournal.Complete | gateway/journal.py:147-179 | the stored response and status of a completion; the returned response is the stored one |
| JournalRepositories.JournalRepository.CreateRun | solana_agent/storage/repositories.py:69-108 | as one transaction, the whole new database or an error and no change: a new run and its event, or a duplicate error without change |
| JournalRepositories.JournalRepository.SetRunStatus | solana_agent/storage/repositories.py:121-144 | as one transaction, the whole new database or an error and no change: the new status and its event |
| JournalRepositories.JournalRepository.InitializeMissionSteps | solana_agent/storage/repositories.py:146-178 | as one transaction, the whole new database or an error and no change: all steps pending with one event each, or nothing at all |
| JournalRepositories.JournalRepository.SetMissionStepStatus | solana_agent/storage/repositories.py:202-257 | as one transaction, the whole new database or an error and no change: the transition guard, the attempt counter, the command link and the event |
| JournalRepositories.JournalRepository.InsertPlannedCommand | solana_agent/storage/repositories.py:259-306 | as one transaction, the whole new database or an error and no change: a planned command, unless its id or its key within the run is taken |
| JournalRepositories.JournalRepository.TransitionCommand | solana_agent/storage/repositories.py:327-411 | as one transaction, the whole new database or an error and no change: the transition guard, the columns that are kept when not given, and the event |
| JournalRepositories.JournalRepository.CreatePolicyDecision | solana_agent/storage/repositories.py:413-459 | as one transaction, the whole new database or an error and no change: the decision row and its event |
| JournalRepositories.JournalRepository.CreateApproval | solana_agent/storage/repositories.py:476-516 | as one transaction, the whole new database or an error and no change: a pending approval and its event |
| JournalRepositories.JournalRepository.DecideApproval | solana_agent/storage/repositories.py:532-563 | as one transaction, the whole new database or an error and no change: a decision is accepted if and only if the approval is pending and in time, and leaves it approved if it approves and denied if it denies |
| JournalRepositories.JournalRepository.ConsumeApproval | solana_agent/storage/repositories.py:565-585 | as one transaction, the whole new database or an error and no change: only an approved approval is consumed |
| JournalRepositories.JournalRepository.ExpireApproval | solana_agent/storage/repositories.py:587-608 | as one transaction, the whole new database or an error and no change: pending and approved approvals expire, others are left without an event |
| JournalRepositories.JournalRepository.CreateArtifact | solana_agent/storage/repositories.py:621-649 | as one transaction, the whole new database or an error and no change: the artifact event |
| EventReplay.LogDeterminesTables | solana_agent/storage/repositories.py:685-714 | after any transactions, folding the event log gives the status of every run, command and approval and the status and attempt of every step |
| EventReplay.SequencesAreDense | solana_agent/storage/repositories.py:685-714 | the events of each run are numbered 1, 2, 3 and so on without a gap |
| EventReplay.CommandTrailsAreLegal | solana_agent/storage/repositories.py:327-411 | the statuses logged for a command follow the transition table from planned to the stored status, each entered at most once |
| EventReplay.ApprovalTrailsAreLegal | solana_agent/storage/repositories.py:532-608 | the statuses logged for an approval lead from pending to the stored status in at most three entries: decided once, and consumed or expired only after an approval |
| EventReplay.StepTrailsAreLegal | solana_agent/storage/repositories.py:202-257 | the statuses and attempts logged for a step follow the transition table from pending, the attempt growing by at most one at a time |
| EventReplay.ApplyKeepsFaithful | solana_agent/storage/repositories.py:685-714 | every transaction keeps log and tables in agreement |
| Lifecycle.TransitionsMoveForward | solana_agent/contracts/command.py:35-63 | every command transition moves to a higher rank, and exactly the terminal statuses have none |
| Lifecycle.StatusEnteredOnce | solana_agent/contracts/command.py:35-63 | a legal trail of statuses never returns to an earlier one |
| Lifecycle.EnteredFrom | solana_agent/contracts/command.py:34-63 | from which statuses a command may enter each status |
| Lifecycle.StepEnteredFrom | solana_agent/contracts/mission.py:151-170 | from which statuses a step may enter each status |
| Lifecycle.RunningWasAuthorized | solana_agent/contracts/command.py:34-63 | a command that runs was planned, validated and authorized, with at most a required approval in between |
| CommandAuthorization.EveryCallIsBacked | solana_agent/execution/journal.py:238-340 | in every interleaving with crashes, every executor call was for a command with an ALLOW decision about its stored fields, or with a consumed approval bound to it whose decision was about its stored fields |
| CommandAuthorization.CallNeedsRunning | solana_agent/execution/journal.py:320-340 | an executor call is one new call, for a command that was moved to running before and has no earlier call |
| CommandAuthorization.AtMostOneCall | solana_agent/storage/repositories.py:565-585 | no two executor calls are for the same command, the same idempotency key of a run, or the same approval |
| CommandAuthorization.RunKeepsInv | solana_agent/execution/journal.py:189-340 | the inductive invariant behind these, over plan, execute, execute_approved, approvals, cancellations, restarts and crashes |
| CommandApprovals.StatusWasDecided | solana_agent/storage/repositories.py:532-585 | along every run an approval is approved or consumed only after an accepted approving decision about it, and denied only after an accepted denying one |
| CommandApprovals.CallWasApproved | solana_agent/execution/journal.py:238-340 | whenever the executor is about to be called, the policy allowed the command, or the approval that was consumed for it had been approved by an operator before |
| CommandApprovals.DeniedIsNeverUsed | solana_agent/storage/repositories.py:532-585 | after an accepted denial no continuation approves or consumes the approval, and no executor call of it stands on it |
| CommandApprovals.DecisionIsKept | solana_agent/storage/repositories.py:532-563 | an accepted decision leaves the approval approved if and only if it approves |
| CommandApprovals.CheckedIsUsable | solana_agent/authority/approvals.py:74-102 | the check before consumption passes exactly approved, unexpired, intact approvals for this command and its unchanged fields, and expires exactly overdue ones |
| CommandJournals.StatusesFit | solana_agent/execution/journal.py:320-410 | exit code 0 and nothing else is recorded as success, a timeout as timed out, an interruption as interrupted, anything else as failed; and each policy effect leads to its status |
| CommandJournals.CommandJournal.Execute | solana_agent/execution/journal.py:189-236 | a known key answers with its command and changes nothing; a new command is rejected, waits for an approval, or runs, as the policy says, and a run one is succeeded if and only if the executor exits with code 0, timed out, interrupted or failed otherwise; the decision and a pending approval are recorded; no other command changes, and the executor is called exactly when the policy allows; the call is a run of the authorization system |
| CommandJournals.CommandJournal.ExecuteApproved | solana_agent/execution/journal.py:238-268 | the command runs exactly when its approval is approved, in time, bound to it and about its unchanged fields; otherwise it is rejected; a run one is succeeded if and only if the executor exits with code 0; the approval is used up, or expired when overdue; the call is a run of the authorization system |
| CommandJournals.CommandJournal.ConsumeApproval | solana_agent/authority/approvals.py:74-102 | the approval is consumed exactly when it is usable; an overdue one expires |
| CommandJournals.CommandJournal.FindCommandByIdempotency | solana_agent/storage/repositories.py:319-325 | a row is found if and only if the run has one with the key |
| CommandJournals.CommandJournal.RecoverOrphanedCommands | solana_agent/execution/journal.py:342-356 | exactly the overdue approvals expire, running commands become interrupted and no other command changes |
| TopologicalSort.TopologicalSteps | solana_agent/missions/graph.py:32-57 | a permutation of the steps with dependencies first, lexicographically least by definition order among all of them; it fails if and only if there is a cycle, and reports exactly the steps on or behind a cycle |
| TopologicalSort.ValidateMissionGraph | solana_agent/missions/graph.py:10-29 | a graph is accepted if and only if it has steps, unique ids, only known dependencies and no cycle; each error names a real defect |
| TopologicalSort.Drain | solana_agent/missions/graph.py:45-53 | the ready loop emits the greedy order, each step when its last dependency is out |
| MissionGraph.GreedyIsLeast | solana_agent/missions/graph.py:45-53 | no topological order precedes the greedy one |
| MissionGraph.GreedyLeavesStuck | solana_agent/missions/graph.py:54-56 | the steps left out are exactly those on a cycle or depending on one |
| MissionGraph.GreedyCompleteIffAcyclic | solana_agent/missions/graph.py:54-56 | all steps come out if and only if there is no cycle |
| MissionTheorems.StartedStepsHaveSucceededDependencies | solana_agent/missions/engine.py:118-183 | over any sequence of passes, cancellations and crashes, a step that is not pending or blocked has only succeeded dependencies, and none is skipped |
| MissionTheorems.PassesStopOnlyForApprovalsAndErrors | solana_agent/missions/engine.py:118-183 | no pass waits for a dependency; a pass that finds no step running never meets the transition guard and leaves no step running unless it crashes |
| MissionTheorems.CompletePassBlocksExactlyDependents | solana_agent/missions/engine.py:185-195 | a complete pass leaves every step succeeded, failed or blocked, the blocked ones being exactly the transitive dependents of failed ones, and the run completed if and only if all succeeded |
| MissionTheorems.SucceededStepsNeverRunAgain | solana_agent/missions/engine.py:120-183 | once a step succeeded its row never changes and its executor is never called again |
| MissionTheorems.CallsNeverExceedAttempts | solana_agent/missions/engine.py:311-335 | no two calls are for one command, and a step has at most as many calls as its attempt counter says |
| MissionTheorems.JournalNeverReportsDuplicate | solana_agent/missions/engine.py:311-335 | with an injective hash the key of the next attempt is new, so the journal never answers the engine with an old command |
| MissionTheorems.CompletePassReportsSteps | solana_agent/missions/engine.py:116-195 | a complete pass reports as skipped exactly the steps that had succeeded before, and as executed only others that ended succeeded or failed, among them every step that newly succeeded |
| MissionOutcomes.FinishOutcome | solana_agent/missions/engine.py:211-242 | a finished step is succeeded if and only if its command succeeded and its acceptance holds, failed otherwise |
| MissionOutcomes.EarlyFailureOutcome | solana_agent/missions/engine.py:141-162 | a ready step fails without a command when its preconditions fail or its adapter is missing |
| MissionOutcomes.StepOutcome | solana_agent/contracts/mission.py:151-186 | the transition guard rejects exactly the restart of a step left running by a crash; an error is raised exactly when a decided approval cannot go on; otherwise the step is settled or waits |
| MissionSafety.DriveStepIsAllowed | solana_agent/missions/engine.py:118-183 | the invariant of one iteration: gating by dependencies, links to commands, keys by attempt, single calls; only this step changes |
| MissionEngines.MissionEngine.Drive | solana_agent/missions/engine.py:108-195 | the pass over the repository and the journal ends as the pass of the model does, in every world that answers as this one did; the picture of the tables is the resulting run |
| MissionEngines.MissionEngine.DriveStep | solana_agent/missions/engine.py:118-183 | one iteration changes the tables as the model says, branch by branch, for the approval that the tables show |
| MissionEngines.MissionEngine.ResumeApproval | solana_agent/missions/engine.py:197-209 | the resumption of a waiting step: pending, refused, executed through the journal, or an error |
| MissionEngines.MissionEngine.RunCommand | solana_agent/missions/engine.py:311-335 | journal.execute under the key of the attempt: the picture gains exactly its command, with the status the policy and the executor lead to, and its call; nothing for a known key |
| MissionEngines.MissionEngine.FinishStep | solana_agent/missions/engine.py:211-242 | succeeded only for a succeeded command with its acceptance, failed otherwise |
| MissionEngines.MissionEngine.Start | solana_agent/missions/engine.py:54-80 | an accepted graph with inputs that resolve, under an unused run id, gets pending steps, metadata and one pass; each error has its exact condition and changes nothing |
| MissionEngines.MissionEngine.Resume | solana_agent/missions/engine.py:82-106 | accepted if and only if the inputs resolve and the four hashes are those of the metadata; then orphaned commands are interrupted and the same pass runs again, otherwise nothing changes |
| MissionCrashes.LeftRunningIffInterrupted | solana_agent/missions/engine.py:161-186 | a pass leaves a step running that was not running before if and only if it reaches and starts the step and dies before its last transaction; its attempt has then grown by one |
| MissionCrashes.CrashLeavesRunning | solana_agent/missions/engine.py:161-186 | for every accepted mission, a first pass that dies inside its first step leaves that step running with attempt 1 |
| MissionCrashes.RunningStepInPass | solana_agent/missions/engine.py:119-171 | a pass over a step left running: reached while its preconditions hold and its adapter is registered, the pass stops there with a rejected transition and the row stays; reached otherwise, the step fails with the same attempt; not reached, the pass stops elsewhere and the row stays |
| MissionCrashes.RunningStepIsStuck | solana_agent/contracts/mission.py:151-186 | over any number of resumes and cancellations none of which reaches the step with a failing precondition or a missing adapter, every resumed pass that reaches it is stopped by the guard and its row never changes |
| MissionCrashes.LeavesRunningIffReleased | solana_agent/contracts/mission.py:151-186 | after any history, a step left running leaves that status in a continuation if and only if some pass reaches it with a failing precondition or a missing adapter, and that pass makes it failed |
| MissionSuccess.AttemptFate | solana_agent/missions/engine.py:163-183 | an attempt that is not interrupted adds one command under a new key, called if and only if the policy allows it; the step waits exactly for a required approval, and succeeds exactly when allowed, with exit code 0 and its acceptance |
| MissionSuccess.ApprovalFate | solana_agent/missions/engine.py:134-140 | a waiting step: pending stops the pass, a usable approval runs the command once and succeeds exactly with exit code 0 and its acceptance, an unusable one rejects the command and fails the step, and the two errors |
| MissionSuccess.NewlySucceededIff | solana_agent/missions/engine.py:118-183 | a step newly succeeds in a pass if and only if the pass reaches it with its dependencies succeeded and its command, allowed or approved, exits with code 0 and its acceptance holds, without a crash |
| MissionEngineTheorems.ResumeAcceptsPersistedInputs | solana_agent/missions/engine.py:371-427 | the inputs of a run, and the redacted inputs persisted for it, both give the contract that its metadata pins |
| MissionEngineTheorems.EnginePassKeepsGuarantees | solana_agent/missions/engine.py:108-195 | a call of the engine on a sound run keeps it sound and its past; a complete one leaves the blocked steps exactly the dependents of failed ones and reports what it executed and skipped |
| MissionTables.SetStepIsShown | solana_agent/storage/repositories.py:202-257 | a step transaction is refused exactly when the transition of the picture is, and otherwise changes the picture in the same way |
| MissionTables.CommandIsShown | solana_agent/storage/repositories.py:327-411 | a new or changed command of the run changes the picture by that command and its call only |
| MissionTables.CrashShowsReachedStatus | solana_agent/execution/journal.py:189-340 | however far the journal comes with a command before the process dies, the picture changes by the status and approval of that command only |
| MissionTables.RestartIsShown | solana_agent/execution/journal.py:342-356 | interrupting all running commands interrupts those of the picture |
| MissionTables.StartedRunIsShown | solana_agent/missions/engine.py:69-79 | a created run with its planned steps is the initial picture |
| MissionTables.RunsAreKnown | solana_agent/storage/repositories.py:146-178 | after any transactions, commands and steps belong to runs that exist |
| Base58.ValidPublicKey | solana_agent/authority/policy.py:453-462 | accepts a string if and only if it is the base58 encoding of some 32 bytes; accepted strings have 32 to 44 symbols |
| Base58.KeyIsUnique | solana_agent/authority/policy.py:453-462 | no two byte strings have the same encoding |
| Base58.EncodeOfDecode | solana_agent/authority/policy.py:453-462 | every string over the alphabet is the encoding of the bytes it decodes to |
| Base58.DecodeOfEncode | solana_agent/contracts/mission.py:203-211 | decoding an encoding gives the bytes back, leading zero bytes included |
| Base58.KeyLengthsAreReached | solana_agent/contracts/mission.py:203-211 | both length bounds are reached |
| Base58.KeysMatchCliPattern | solana_agent/adapters/solana_cli.py:12 | accepted keys pass the pattern of the CLI adapter |
| Base58.PowersCompare | solana_agent/authority/policy.py:453-462 | 58^43 < 256^32 <= 58^44 |
| Redaction.Redactor.Visit | solana_agent/authority/redaction.py:28-44 | the recursion returns the redacted value and appends the detected paths in order |
| Redaction.RedactIsIdempotent | solana_agent/authority/redaction.py:25-47 | a value changes if and only if something in it is secret, and a second redaction changes nothing |
| Redaction.RedactedIsClean | solana_agent/authority/redaction.py:25-47 | afterwards sensitive keys hold the replacement and no string matches a secret pattern |
| Redaction.RedactMasks | solana_agent/authority/redaction.py:25-47 | redaction masks every secret and changes nothing else |
| Redaction.PathsNamePlaces | solana_agent/authority/redaction.py:28-44 | a detected path joins keys by dots and positions in brackets |
| Redaction.ResolveInputsMeans | solana_agent/missions/engine.py:371-382 | inputs resolve if and only if none is unknown and no required one is missing, each to its supplied value or default with secrets masked; each error is exact |
| Redaction.SuppliedOrDefault | solana_agent/missions/engine.py:378-378 | the value of an input is the supplied one, and the default only when none is supplied |
| Redaction.DetectionIsVisible | solana_agent/authority/policy.py:468-476 | the policy finds the replacement in the redacted value if and only if something was detected or it was there before |
| Redaction.ResolveIsIdempotent | solana_agent/missions/engine.py:371-382 | resolving the persisted inputs gives the same inputs, so a resume with them passes the inputs check |
| Policy.PolicyEngine.Evaluate | solana_agent/authority/policy.py:343-356 | the decision of the guards in their order, else of the first matching rule, else denial; the wallet guard is the public-key predicate |
| Policy.PolicyEngine.CheckGuards | solana_agent/authority/policy.py:382-451 | the guards in their order |
| Policy.GuardsPassIff | solana_agent/authority/policy.py:382-451 | the guards pass exactly: no redaction mark, an allowlisted cluster if any, for material operations cluster, wallet, spending limit and contract hash, a spend within the limit of the engine, and all paths inside with nothing to be created over |
| Policy.GuardNamesDefect | solana_agent/authority/policy.py:382-451 | each denial of a guard carries the name of a defect that is there, and only an existing workspace asks for an approval |
| Policy.FirstMatchDecides | solana_agent/authority/policy.py:343-356 | for any rules the first one for the profile that names adapter and operation, exactly or by a star, decides, and without one the command is denied |
| Policy.WriterDecisions | solana_agent/authority/policy.py:66-303 | the exact operations that the two writing profiles allow and ask approval for |
| Policy.SecretsAreDenied | solana_agent/authority/policy.py:385-386 | arguments in which redaction detected anything are denied under all rules and contexts |
| Policy.MaterialNeedsApproval | solana_agent/authority/policy.py:393-420 | a material operation is never allowed outright; it may be approved if and only if every guard holds and the profile covers it |
| Policy.StrongerProfilesKeepDecisions | solana_agent/authority/policy.py:66-303 | what a weaker profile allows or asks approval for, a stronger one treats the same way |
| Policy.DefaultRulesAreDisjoint | solana_agent/authority/policy.py:66-303 | no command falls under two default rules |
| Policy.ReadOnlyDecisions | solana_agent/authority/policy.py:421-451 | the read-only profile allows exactly the reading operations whose guards pass, and asks for an approval exactly when the path guard does |
| Policy.ReadOnlyCanAskForApproval | solana_agent/authority/policy.py:428-451 | a command and a context for which the read-only profile asks for an approval |
| Policy.WorkspaceApproval | solana_agent/authority/policy.py:428-451 | the path guard asks for an approval if and only if a present path inside the workspace comes before any other path of note |

## Left out

- The contents of the Solana message, Ed25519, transaction serialization, SHA-256 and RFC 8785 canonical JSON: they are functions of `Broadcast.Config` or opaque strings.
- Base64 decoding of the message (section 3.5 of RFC 4648): messages are compared as opaque strings.
- SQLite, its WAL mode, busy timeouts and migrations: one transaction block is one atomic step.
- The RPC and HTTP transport: an answer is a value, a definitive rejection (an error member, section 5 of the JSON-RPC 2.0 Specification) or lost.
- Timestamps as text: instants are integers.
- Field checks of the prepare payload and of `GatewayRequest.parse`: each is settled by one branch.
- The columns rpc_submission_json and broadcast_count, simulation evidence and the `evidence` command: they only copy values.
- Regular expressions of redaction: two arbitrary predicates. `redact_text` is not part of this model.
- The sorted, duplicate-free form of the detected paths: the model keeps them in the order found.
- File-system resolution in the policy guards, and the evaluation of preconditions, templates and acceptance conditions: arbitrary answers.
- `validate`, explicit validators and an unconfigured approval service or policy context in `CommandJournal`: the model is the policy-governed mode with both services present.
- Required evidence, risk and reasons of policy decisions, and the policy snapshot: they do not influence decisions.
- `str.lower` beyond ASCII letters in cluster names.
- The alphabetical order in which a cycle error lists its steps, and the checks for empty mission, step and adapter names.
- Mission packs and their loader; run metadata other than the four hashes that resume compares; the lookup of the mission in the pack.
- JournalRepositories.JournalRepository.TransitionCommand: the columns exit code, result, error, artifact ids and timestamps, which are copied from its arguments, are not stated.
- JournalRepositories.JournalRepository.CreateArtifact: the artifact row and its content hash are not stated, only the event; nothing else that is modelled reads them.
- SolanaBackend.SolanaExecutionBackend.Prepare: why the chain-facing part refuses (signer, programs, accounts, simulation, fee) is a parameter; its message is required to be one for the configured signer alone, as compiled.
- Clocks are not assumed to go forward: every reading is arbitrary. So `SentAgainIffOpen` and `LateSendPossibleIffArmed` count continuations in which a later reading is earlier, and an authorization's time window never closes for good.
- `MissionEngine` serves one run; a crash is not a branch of its methods but of `MissionRuns`, whose crash points `CrashShowsReachedStatus` ties to prefixes of the journal's transactions. A single driver per run is assumed.
- The process, Anchor, package, validator, doctor and evidence adapters, the legacy runner, command-line parsers, the chaos driver, scripts and templates.

# Verified model of the agent runtime

A Dafny 4.11 model of the stateful core of this repository's agent runtime, with proofs about it.
`dafny verify dfyconfig.toml` checks everything.

**The durable effect protocol** (`Contracts`, `Engine`, `CommitStore`, `Protocol`, `Journal`, `Coordinator`). The
engine is a deterministic function from a committed state version and a step input to a proposal. The
store commits units of work under compare-and-set, owner epoch, mailbox cut and receipt checks, as the
local durable store does. A *run* is any sequence of atomic acts by any number of coordinators, live or
restarted, the executor and the host; `ProtocolSafety`, `ProtocolAgreement`, `ProtocolTheorems` and
`GatedCalls` prove what every run keeps, and `CommitLaws` what one commit does.
`Coordinator.SegmentCoordinator` is the loop itself, written imperatively against an environment that decides every answer, interleaves other coordinators before every store call, and
kills the process after any interaction; `Journal` says in which order its observations, requests and
calls may come. Ids that the source builds with f-strings are constructors.

**The context cache** (`TapeModel`, `ContextBuilder`, `ContextLaws`, `ContextContents`,
`IncrementalContext`, `ToolPairing`, `SettledTape`, `ToolLoop`, `ToolReports`, `ReferenceSession`, `Turns`,
`Subagents`). The patched message list is compared
with a full rebuild: the exact condition for one step, and then all requests of all turns, which are those of
a reference session that is a function of the script alone and has no cache.

**Approvals, forks, tapes and checkpoints** (`Approvals`, `ApprovalSessions`, `ApprovalEffects`,
`ApprovalDelivery`, `ForkStore`, `ForkTurns`, `TapeFiles`, `Checkpoints`), **task graphs** (`BeeManifest`,
`BeePlanner`, `BeePlanning`), **traces** (`TurnExtraction`, `TurnPositions`) and **patches** (`HunkParser`,
`PatchShape`).

Objects that the source updates in place are classes; their methods are proved against functions on
values, and the lemmas are about those functions. Nondeterminism is a parameter: an environment record,
a script of acts by others, or the answers of hooks and tools.

## Findings

- **The guard on `Initial`** (coding-agent/src/agentkit/runtime/coordinator.py:255-257, guard at
  coding-agent/src/agentkit/runtime/contracts.py:1207-1212). `RunSegmentRequest` refuses an `Initial`
  while an effect recovery is outstanding, but the guard is not repeated when the input is proposed again
  after a conflict. All theorems about *guarded* runs assume that it is (`ProtocolAgreement.GuardedAct`);
  the safety theorems do not. `InitialKeepsAgreementExactly` gives the exact condition,
  `ConflictedInitialOrphansEffect` a run.
- **The mailbox cut** (coding-agent/src/agentkit/runtime/coordinator.py:388-413, store at
  coding-agent/src/coding_agent/stores/local_durable/uow.py:1817-1827). The coordinator raises its cut to
  the larger of the store's and the probe's, but the store accepts only equality, so a probe that is ahead
  makes the retry stale again, without end on a still mailbox (`NeverStopsExactly`). No probe in the
  repository is ever ahead: one publishes 0 (coding-agent/src/coding_agent/runs/serving_runtime.py:182-193)
  and the other the store's own generation (coding-agent/src/coding_agent/runs/child_execution.py:244-290).
  For such probes `AuthorizeEffect` bounds the requests by the advances of the mailbox.
- **Request ids** (coding-agent/src/agentkit/runtime/engine.py:55-78) repeat across an `Initial`, which
  starts the rounds over: `InitialReusesFirstRequest`.
- **Late lifecycle writes and late claims** (coding-agent/src/coding_agent/bee/launch.py:1044-1062, 1128-1152,
  claim at coding-agent/src/coding_agent/bee/runtime.py:486-496). Resume, retry and cancel write back from an
  earlier listing without a compare-and-set, and a claim compares only the status. A write can break a task at
  once (`LateResumeBreaksSafety`) or leave it to a later claim from an older listing (`LateClaimBreaksSafety`);
  `RunIsSafeExactly` says which runs keep every active node's dependencies completed.
- **Subagents** (coding-agent/src/coding_agent/tools/subagent.py:180-188). The child's tape drops the calls at
  the end of its parent's tape, but only there: after the result of a rejected call, or after the trace of an
  earlier subagent, calls without a result stay in what the child's model sees. `ChildStartsPairedExactly`,
  `LaterChildOwes`.
- **Skipped approvals** (coding-agent/src/coding_agent/approval/runtime_messages.py:212-240). Applying a
  published decision directly moves the cursor to it, past decisions that other requests still wait for; a
  consumption never looks behind the cursor. `ActSkipsExactly`, `SkippedWaitsForever`.
- **Two notions of a handoff anchor** (coding-agent/src/agentkit/tape/view.py:20-35,
  coding-agent/src/agentkit/tape/tape.py:13-25 and 56-62). Views reorder by the metadata flag, loading scans
  by the anchor type: `AnchorLeadsViewExactly`. And loading always opens the
  window at the anchor: `ReloadKeepsWindowExactly`.
- **A save that raises after it persisted** (coding-agent/src/agentkit/runtime/pipeline.py:585-603). The turn
  goes back to the old tape while the log keeps its entries: `LogFollowsTapeExactly`.
- **Checkpoint clean-up** (coding-agent/src/agentkit/storage/checkpoint_fs.py:47-122). If the directory sync
  after the meta file's replacement raises, the clean-up removes the other two files and leaves the meta
  file: `SaveIsCrashAtomicExactly`.
- **Calls in the role "tool"** (coding-agent/src/agentkit/context/builder.py:90-108). Their message takes the
  place of a result right before them, and its call stays unanswered: `BuildConveysExactly`. No code of the
  repository writes such an entry.
- **Plain anchors** (coding-agent/src/agentkit/tape/models.py:64-142). A plain entry of kind "anchor" comes
  back from storage as an anchor object: `Checkpoints.RoundTripExactly`.

## Model

| member | source | states |
|---|---|---|
| `Engine.ListPlansAndFacts` | coding-agent/src/agentkit/runtime/engine.py:90-163 | the loop over the model's calls lists the plans and the facts that `CompletionQueues` and `CompletionRecords` describe call by call |
| `Engine.CompletionQueues` | coding-agent/src/agentkit/runtime/engine.py:80-163 | an accepted completion queues one plan for each call, in order, with the call's id, name, arguments, idempotency key, approval requirement and approval request, under an effect and attempt of its own; the round rises by one, the request is no longer active, and nothing else in the runtime changes but the last answer |
| `Engine.CompletionRecords` | coding-agent/src/agentkit/runtime/engine.py:90-150 | its facts are the answer, the thinking if there is any, and for each call in order the call and, exactly when the call must be approved, the request for its approval |
| `Engine.CompletionGoesOn` | coding-agent/src/agentkit/runtime/engine.py:163-176 | the first call decides what is next: the wait for its approval exactly when it must be approved, else its dispatch; without calls the run ends with the answer |
| `Engine.CompletionSpeaks` | coding-agent/src/agentkit/runtime/engine.py:158-162 | one assistant message with the answer and all calls is added to the conversation |
| `Engine.StartAsks` | coding-agent/src/agentkit/runtime/engine.py:55-78 | a start throws the old runtime away and asks the model, as round 1, about the conversation as it is, with just the commands of the start |
| `Engine.SettlementIsAcceptedExactly` | coding-agent/src/agentkit/runtime/engine.py:178-231 | a settlement is accepted if and only if it settles the head of the queue under the authorization on record; after a reconciliation it must repeat what was recorded, and before one an effect already unknown can only be unknown again |
| `Engine.UnknownBlocks` | coding-agent/src/agentkit/runtime/engine.py:211-231 | an unknown outcome marks the retained authorization, leaves queue and conversation, and blocks the run on the head |
| `Engine.DecisionIsAcceptedExactly` | coding-agent/src/agentkit/runtime/engine.py:288-330 | a decision is accepted if and only if it names the head of the queue, the head waits for approval, and the version is the very one that asked; a rejection needs a reason |
| `Engine.ApprovalReleases` | coding-agent/src/agentkit/runtime/engine.py:310-330 | an approval applies its command, leaves the state, and lets the head be dispatched |
| `Engine.TerminalSettlementPops` | coding-agent/src/agentkit/runtime/engine.py:233-286 | a terminal settlement pops exactly the head plan, clears every marker, appends one tool message and one tool-result fact for it, and asks for the next effect or, on an empty queue, for the next model request |
| `Engine.DenialPops` | coding-agent/src/agentkit/runtime/engine.py:330-387 | a denied approval pops the head with one rejection message and one rejection fact, refuses its command, keeps the markers, and asks for the next effect or model request in the same way |
| `CommitStore.MutatedSlot` | coding-agent/src/coding_agent/stores/local_durable/uow.py:1885-1960 | a unit of distinct mutations gives each mutated effect the slot computed from the ledger before the unit |
| `CommitStore.UntouchedSlot` | coding-agent/src/coding_agent/stores/local_durable/uow.py:1885-1960 | every effect that the unit does not name keeps its slot |
| `CommitLaws.AppliedExactly` | coding-agent/src/coding_agent/stores/local_durable/uow.py:1512-1960 | a unit is applied if and only if owner, mailbox cut and revision are the store's, its name is new, its commands still wait, its effects are where it expects them, and its evidence is on record for the one unknown effect and its state just records that outcome; else stranger, stale cut and old revision are told what the store has |
| `CommitLaws.RecognisedExactly` | coding-agent/src/coding_agent/stores/local_durable/uow.py:1590-1640 | a unit under the name of a logged one is answered with the version made then if and only if it is the same unit, where the clock counts only if it stamped a fact; nothing changes |
| `CommitLaws.AppliedChanges` | coding-agent/src/coding_agent/stores/local_durable/uow.py:1885-2035 | an applied unit adds its version, log entry, receipt and facts, disposes exactly the commands it names, and changes exactly the effects it names: new ones without authorization, a dispatch with its own, others by status only |
| `CommitLaws.RefusedAndFaulty` | coding-agent/src/coding_agent/stores/local_durable/uow.py:1512-1640 | what is not applied changes nothing; a lost answer hides a commit but does not undo it |
| `MailboxRetry.StaleExactly` | coding-agent/src/coding_agent/stores/local_durable/uow.py:1817-1827 | the store calls a cut stale exactly when it differs from its own, and then reports its own |
| `MailboxRetry.RetryIsAcceptedExactly` | coding-agent/src/agentkit/runtime/coordinator.py:388-413 | on a mailbox that does not move, the retry after a stale answer is accepted if and only if the probe's generation is not ahead of the store's cut |
| `MailboxRetry.ExactStops` | coding-agent/src/agentkit/runtime/coordinator.py:388-413 | with the store of the repository, and unless the probe is ahead of the mailbox, every stale answer after the first needs an advance of the mailbox |
| `MailboxRetry.NeverStopsExactly` | coding-agent/src/agentkit/runtime/coordinator.py:388-413 | on a mailbox that does not move, the store refuses every one of any number of attempts as stale if and only if the first names another cut and the probe is ahead of the store |
| `ProtocolSafety.CommitKeepsLedger` | coding-agent/src/agentkit/runtime/contracts.py:305-372 | a commit of an honest unit keeps log, receipts, ledger slots and their authorizing transitions consistent |
| `ProtocolSafety.PerformKeepsSafety` | coding-agent/src/agentkit/runtime/coordinator.py:187-474 | every act of any coordinator, host or executor keeps the safety invariant: receipts match versions, slots match their authorizing log entries, permits match slots, each execution has its own claimed permit |
| `ProtocolSafety.RunsKeepSafety` | coding-agent/src/agentkit/runtime/coordinator.py:187-474 | so does every run, with crashes, lost answers, take-overs, conflicts and replays |
| `ProtocolSafety.AtMostOnceExecution` | coding-agent/src/agentkit/runtime/coordinator.py:388-452 | no run executes an effect or an attempt twice |
| `ProtocolSafety.ExecutedOnlyAsAuthorized` | coding-agent/src/agentkit/runtime/coordinator.py:341-452 | every execution runs under the one authorization that the ledger holds for its effect: a committed transition that dispatched the head of the queue under the same owner epoch and, when the plan needs approval, applied in the same unit the command of an approved settlement that binds to that head |
| `ProtocolSafety.ExecutedAfterItsAuthorization` | coding-agent/src/agentkit/runtime/coordinator.py:388-452 | each execution of a run is one act, after the act that committed its authorization, which named exactly the mailbox cut and owner epoch that the store had at that moment |
| `GatedCalls.GatedCallIsApprovedFirst` | coding-agent/src/agentkit/runtime/coordinator.py:341-452 | behind every execution of a run stands one call of an accepted completion, committed before the authorization, which comes before the execution; if the call must be approved, the authorization applied in its own unit the admitted command of a settlement that approves just this call, and otherwise it carried none |
| `GatedCalls.QueuedPlanWasAskedFor` | coding-agent/src/agentkit/runtime/engine.py:106-163 | every plan in the queue of a run was asked for, with everything it says, by one call of one accepted completion |
| `ProtocolSafety.PermitIsKept` | coding-agent/src/agentkit/runtime/contracts.py:1522-1525 | no act of anybody changes an issued permit, except that it is claimed |
| `ProtocolSafety.AttemptIsMutatedAtMostFourTimes` | coding-agent/src/agentkit/runtime/contracts.py:305-318 | in any run an effect is mutated at most four times, because every mutation raises its rank |
| `ProtocolSafety.PerformMovesForward` | coding-agent/src/agentkit/runtime/contracts.py:319-372 | an act leaves an effect's status alone or moves it along a legal transition |
| `ProtocolSafety.SettledStaysSettled` | coding-agent/src/agentkit/runtime/contracts.py:305-372 | a terminal status is final in every run; in particular an effect leaves UNKNOWN once |
| `ProtocolAgreement.PerformKeepsAgreement` | coding-agent/src/agentkit/runtime/engine.py:55-387 | every guarded act keeps engine state and effect ledger in agreement: the head plan is PREPARED, DISPATCHED, UNKNOWN or settled exactly as the markers say, later plans are PREPARED, popped plans terminal, an active request means an empty queue, the transcript and the facts match |
| `ProtocolAgreement.RunsKeepAgreement` | coding-agent/src/agentkit/runtime/coordinator.py:187-474 | so does every guarded run |
| `ProtocolAgreement.StateAndLedgerAgree` | coding-agent/src/agentkit/runtime/coordinator.py:187-474 | hence the agreement holds after every commit of every guarded run from a fresh store |
| `ProtocolAgreement.PopAgrees` | coding-agent/src/agentkit/runtime/engine.py:233-286 | popping the head with a terminal slot, one message and one fact keeps the agreement |
| `ProtocolAgreement.CompletionAgrees` | coding-agent/src/agentkit/runtime/engine.py:80-176 | a model completion that fills the queue with freshly prepared plans keeps the agreement |
| `ProtocolAgreement.AuthorizationAgrees` | coding-agent/src/agentkit/runtime/coordinator.py:831-891 | a dispatch authorization keeps the agreement |
| `ProtocolAgreement.ReconciliationAgrees` | coding-agent/src/agentkit/runtime/coordinator.py:533-658 | a reconciliation keeps the agreement |
| `Transcript.LastRound` | coding-agent/src/agentkit/runtime/engine.py:561-578 | a transcript accepted by the recogniser is a sequence of fully answered rounds and a last round whose call ids are its result ids followed by the ids owed |
| `ProtocolTheorems.TranscriptIsWellFormed` | coding-agent/src/agentkit/runtime/engine.py:106-163 | in every guarded run the call ids of the last assistant message equal the ids of the results after it followed by the ids of the pending plans, in order; an active model request sees exactly one result per call |
| `ProtocolTheorems.OnlyReconciliationUnfreezes` | coding-agent/src/agentkit/runtime/engine.py:196-231 | while an effect is unknown only a reconciliation of that effect changes the committed state, and it keeps the queue |
| `ProtocolTheorems.FrozenStaysFrozen` | coding-agent/src/agentkit/runtime/engine.py:196-231 | a guarded run without reconciliation leaves a frozen state and its ledger exactly as they are |
| `ProtocolTheorems.OnlyRecordedOutcomeSettles` | coding-agent/src/agentkit/runtime/engine.py:472-503 | after the reconciliation only the settlement equal to the recorded marker changes the state; it leaves the ledger alone and pops the head |
| `ProtocolTheorems.RecoveryCompletes` | coding-agent/src/agentkit/runtime/coordinator.py:533-658 | with evidence on record and free transition ids, the reconciliation and its dictated settlement commit, pop the head with the recorded outcome, and execute nothing |
| `ProtocolTheorems.DeniedIsNeverExecuted` | coding-agent/src/agentkit/runtime/engine.py:330-387 | a rejected effect has no execution in the whole run, one result fact, and that result is a denial |
| `ProtocolTheorems.ApprovalCanBeResubmitted` | coding-agent/src/agentkit/runtime/coordinator.py:341-420 | an approval that meets a stale cut leaves the world unchanged; at the store's cut the same approval commits, disposes the command, dispatches the effect and issues the only permit there is for it |
| `ProtocolTheorems.PerformRound` | coding-agent/src/agentkit/runtime/engine.py:580-615 | an accepted completion carries the active request id of the next round and raises the round by one; nothing but an `Initial` changes it otherwise |
| `ProtocolTheorems.StaleCompletionIsRefused` | coding-agent/src/agentkit/runtime/engine.py:580-592 | until the next `Initial`, a completion for a round that is over is refused however the run continues |
| `ProtocolTheorems.CompletionIsConsumedOnce` | coding-agent/src/agentkit/runtime/engine.py:580-592 | a completion that was accepted is never accepted again before the next `Initial` |
| `ProtocolTheorems.InitialReusesFirstRequest` | coding-agent/src/agentkit/runtime/engine.py:55-78 | an `Initial` asks again under the id of the first round, so request ids repeat across it |
| `ProtocolTheorems.InitialKeepsAgreementExactly` | coding-agent/src/agentkit/runtime/contracts.py:1207-1212 | a committed `Initial` keeps state and ledger in agreement if and only if no effect recovery is outstanding |
| `ProtocolTheorems.ConflictedInitialOrphansEffect` | coding-agent/src/agentkit/runtime/coordinator.py:255-257 | a concrete run in which an `Initial` passes the guard, meets a conflict, is proposed again without the guard, and the queue forgets a prepared effect |
| `Coordinator.NextPlanIsHead` | coding-agent/src/agentkit/runtime/engine.py:690-708 | the action of a proposal concerns the head of the queue it leaves, and an approved settlement changes no state |
| `Coordinator.ProposedActionFits` | coding-agent/src/agentkit/runtime/engine.py:90-163 | the action of a proposal fits the state it proposes: finishing needs an empty queue, a block or an effect is the head, a generation is the active request; the engine never asks to yield |
| `Coordinator.CommitReports` | coding-agent/src/agentkit/runtime/coordinator.py:747-799 | a committed or replayed answer names a genuine version with the proposed value; a conflict names a genuine current version |
| `Coordinator.DispatchPermit.Claim` | coding-agent/src/agentkit/runtime/contracts.py:1522-1525 | a permit is granted the first time and never again |
| `Coordinator.Process.WorldIsSafe` | coding-agent/src/agentkit/runtime/coordinator.py:165-186 | at every moment of a segment the store is in a run of the protocol, so the run theorems hold |
| `Coordinator.Process.AuthorizeDispatch` | coding-agent/src/agentkit/runtime/coordinator.py:388-420 | only a fresh commit comes with a permit: that of the head of the queue, unclaimed |
| `Coordinator.StaleLeavesWorld` | coding-agent/src/agentkit/runtime/coordinator.py:388-404 | a request that the store calls stale changes nothing, and the answer names the cut that the request failed to name |
| `Journal.CalledOnlyWhenCalm` | coding-agent/src/agentkit/runtime/coordinator.py:433-452 | in an ordered segment the executor is called only right after an observation that raised nothing, which follows the commit of just this authorization |
| `Journal.AskedOnlyWhenCalm` | coding-agent/src/agentkit/runtime/coordinator.py:187-215 | nothing is authorized and the model is not asked but right after an observation that raised nothing |
| `Journal.AuthorizationIsObserved` | coding-agent/src/agentkit/runtime/coordinator.py:433-446 | after an authorization is committed comes an observation, and then the call of the executor if and only if it raised nothing |
| `Journal.RaisedEnds` | coding-agent/src/agentkit/runtime/coordinator.py:187-474 | a raised control ends the segment, unless it finds an authorized effect, which is then settled |
| `Journal.AnswerIsSettled` | coding-agent/src/agentkit/runtime/coordinator.py:447-474 | an answer of the executor is followed by the settlement that says so |
| `Journal.ResultIsDue` | coding-agent/src/agentkit/runtime/coordinator.py:299-340 | a result of the model is the next input that is committed |
| `Journal.InitialIsOwn` | coding-agent/src/agentkit/runtime/coordinator.py:187-257 | a segment sends no `Initial` but the one it began with |
| `Journal.PhaseTellsOpen` | coding-agent/src/agentkit/runtime/coordinator.py:341-474 | the phase of a segment tells which of its dispatches is open |
| `Journal.SettlementsSayWhatWasRead` | coding-agent/src/agentkit/runtime/coordinator.py:433-474 | every settlement of an open dispatch says what was read of it: the executor's answer, or the control that was raised before it was called |
| `Coordinator.SegmentCoordinator.CommitProposal` | coding-agent/src/agentkit/runtime/coordinator.py:213-257 | what is sent is the proposal under the request's revision and epoch, with its settlement mutation unless a reconciliation already reflects it; a committed or replayed answer names a genuine version with that value and transition |
| `Coordinator.SegmentCoordinator.AuthorizeEffect` | coding-agent/src/agentkit/runtime/coordinator.py:341-430 | the authorization loop ends with the permit of the head, with an answer of the store that is not stale, or at the first control that is raised; when a control interrupts it, every one of its requests was stale and the store changed only by what others did; and unless the probe is ahead, it sends at most two requests more than the mailbox advanced meanwhile |
| `Coordinator.SegmentCoordinator.ExecuteOrGiveUp` | coding-agent/src/agentkit/runtime/coordinator.py:433-464 | the permit is claimed, and the executor called with it once, if and only if the observation after the authorization raised nothing; then the result is what the executor returned, or indeterminate when it was cancelled or raised; otherwise it is indeterminate as "control_after_dispatch" with the control's reason |
| `Coordinator.SegmentCoordinator.DispatchEffect` | coding-agent/src/agentkit/runtime/coordinator.py:341-474 | a dispatch sends no authorization after a raised control; it ends with the settlement that is due for the open authorization, which the engine accepts for the authorized state, or with an outcome that says what stopped it; its own checks before the request never fail |
| `Coordinator.SegmentCoordinator.GenerateOnce` | coding-agent/src/agentkit/runtime/coordinator.py:281-340 | at the limit nothing is asked; otherwise, unless a control is raised, exactly the request of the state is sent once, an accepted result carries its id, counts one step and is the next input |
| `Coordinator.SegmentCoordinator.Turn` | coding-agent/src/agentkit/runtime/coordinator.py:187-474 | one pass of the loop keeps: the events are in order, the version is the last one known, and the next input is the one that is due |
| `Coordinator.SegmentCoordinator.Run` | coding-agent/src/agentkit/runtime/coordinator.py:165-474 | whatever the environment does, the events of a segment are in the order that the `Journal` laws describe, and it returns unless the process dies; it completes with the last answer and an empty queue, blocks on the head, stops at the limit after exactly `max_rounds` steps, yields or is cancelled only by its last event, and fails only for a refused request, a useless answer of the model or an input that has no proposal; unless it fails, no dispatch of its own is left unsettled |
| `Coordinator.ReconciledInputRepeats` | coding-agent/src/agentkit/runtime/coordinator.py:612-658 | after a reconciliation the next input repeats what was recorded; there is one if and only if the record on hand is the recorded one, and the engine accepts it when the head of the queue is that effect |
| `Coordinator.SegmentCoordinator.ReconcileAndRun` | coding-agent/src/agentkit/runtime/coordinator.py:533-658 | a recovery only reconciles until that is committed or replayed, then runs the segment that settles what was recorded; before that it fails only for a state that does not fit, a refusal, or a recorded outcome that does not bind; if it does not fail, no dispatch is left unsettled |
| `TapeModel.ViewPermutes` | coding-agent/src/agentkit/tape/view.py:20-33 | the reordered view is a permutation of the window |
| `TapeModel.ViewGrowsExactly` | coding-agent/src/agentkit/tape/view.py:20-33 | the view of a grown tape is the old view followed by the new entries if and only if the window starts the tape or no new handoff anchor moves in front of an entry already seen |
| `TapeModel.Tape.HandoffTo` | coding-agent/src/agentkit/tape/tape.py:56-62 | a handoff appends the anchor and moves the window to the given start or to the anchor |
| `ContextBuilder.AppendToCoreMessages` | coding-agent/src/agentkit/context/builder.py:40-112 | the two nested loops compute the build whose contents `BuildConveysExactly`, `LaterEntriesTouch` and the laws of one entry more describe |
| `ContextBuilder.CollectRun` | coding-agent/src/agentkit/context/builder.py:51-77 | the inner loop takes the whole run of tool-call entries, all visible calls and the first reasoning text |
| `ContextBuilder.AttachMessage` | coding-agent/src/agentkit/context/builder.py:91-112 | a tool-call message replaces a mergeable last message, keeping its text and, if it has none, taking its reasoning |
| `ContextLaws.ExtendFrame` | coding-agent/src/agentkit/context/builder.py:40-112 | appending touches nothing before the last message |
| `ContextLaws.SplitExactly` | coding-agent/src/agentkit/context/builder.py:40-112 | building in two pieces equals building the whole if and only if the split is not inside a run of tool calls with visible calls on both sides |
| `ContextLaws.PrefixKeptExactly` | coding-agent/src/agentkit/context/builder.py:91-112 | messages built earlier stay a prefix if and only if no tool-call message merges into the last of them |
| `ContextLaws.CallsConserved` | coding-agent/src/agentkit/context/builder.py:51-89 | the visible calls of the tape reach the messages once each and in tape order |
| `ContextLaws.BuildAlternates` | coding-agent/src/agentkit/context/builder.py:91-112 | a separate tool-call message never follows a text of its own role |
| `ContextContents.TextSpeaks` | coding-agent/src/agentkit/context/builder.py:168-176 | a visible text adds one message with its role, content and reasoning |
| `ContextContents.ResultAnswers` | coding-agent/src/agentkit/context/builder.py:197-202 | a visible result adds one tool message with its call id and its content |
| `ContextContents.AnchorAnnounces` | coding-agent/src/agentkit/context/builder.py:203-220 | a shown anchor adds one system message with its content, behind its prefix in brackets if it has one |
| `ContextContents.SilentGivesNothing` | coding-agent/src/agentkit/context/builder.py:203-223 | hidden entries, events, folds, topic ends and skipped anchors add nothing |
| `ContextContents.LaterEntriesTouch` | coding-agent/src/agentkit/context/builder.py:51-112 | later entries change at most the last message, and only a text that calls of its own role follow: it keeps role and content, takes their calls, and its reasoning gives way to the first that they give |
| `ContextContents.BuildConveysExactly` | coding-agent/src/agentkit/context/builder.py:40-112 | a build adds just the calls, the (id, content) pairs of the results and the texts of its visible entries, each once and in order, if and only if no calls in the role "tool" follow a result, whose message they would replace |
| `ContextContents.AnswerIsSwallowed` | coding-agent/src/agentkit/context/builder.py:90-108 | a concrete tape on which they do |
| `ContextContents.RequestAnswersItsCalls` | coding-agent/src/agentkit/runtime/pipeline.py:745-792 | on a tape whose visible calls have their results, a request that shows a call has after it a tool message with the call's id and the content of a visible result in the window; it is the only one if the tape uses the id for one call |
| `IncrementalContext.GroundingInsertIndex` | coding-agent/src/agentkit/context/builder.py:128-132 | the index is the last user message, or the end when there is none |
| `IncrementalContext.ComposedBlock` | coding-agent/src/agentkit/context/builder.py:114-126 | composition is the prompt and the core messages with the grounding block at the recorded place |
| `IncrementalContext.PatchMessages` | coding-agent/src/agentkit/context/builder.py:134-165 | the in-place deletion, extension and insertion compute the patch that `PatchOfComposed` is about |
| `IncrementalContext.PatchOfComposed` | coding-agent/src/agentkit/context/builder.py:134-165 | a patch raises if and only if the core shrank, puts the grounding where a rebuild does, and gives the fresh messages if and only if the old core is still a prefix |
| `IncrementalContext.StepNeverRaises` | coding-agent/src/agentkit/runtime/pipeline.py:778-792 | the incremental path never meets a shrunk core |
| `IncrementalContext.IncrementalRefinesRebuild` | coding-agent/src/agentkit/runtime/pipeline.py:745-792 | one incremental step gives every cached field (messages, core, grounding start and count) its rebuilt value if and only if the boundary of the new entries is clean |
| `IncrementalContext.PipelineContext.ResolveWindow` | coding-agent/src/agentkit/runtime/pipeline.py:692-722 | the window moves exactly for advice with an anchor and a start inside the visible entries |
| `IncrementalContext.PipelineContext.RebuildContext` | coding-agent/src/agentkit/runtime/pipeline.py:758-775 | a full rebuild leaves exactly the fresh cache |
| `IncrementalContext.PipelineContext.PatchContext` | coding-agent/src/agentkit/runtime/pipeline.py:778-792 | the incremental path leaves exactly the stepped cache |
| `IncrementalContext.PipelineContext.BuildContext` | coding-agent/src/agentkit/runtime/pipeline.py:680-792 | the stage ends with the fresh cache whenever it rebuilds, and on the incremental path if and only if the boundary is clean |
| `ToolPairing.DebtMeans` | coding-agent/src/agentkit/runtime/pipeline.py:896-1018 | the one-pass debt of a tape is its unanswered calls if and only if no result precedes its call and calls equal results plus debt as multisets |
| `SettledTape.SettledIsClean` | coding-agent/src/agentkit/runtime/pipeline.py:778-792 | a tape that ends with a closing entry and a following assistant turn meet at a clean boundary |
| `SettledTape.AnchorSettles` | coding-agent/src/agentkit/runtime/pipeline.py:692-722 | moving the window and appending a summary anchor keeps the tape settled |
| `ToolLoop.EnvelopeAll` | coding-agent/src/agentkit/tools/toolset.py:625-628 | the loop computes the envelopes that `EnvelopedMeans` describes |
| `ToolLoop.EnvelopedMeans` | coding-agent/src/agentkit/tools/toolset.py:625-628 | a list of answers gives envelopes unless one is fatal, and then one for each call from its own answer; what each says is in `EnvelopesReport` |
| `ToolLoop.FirstHookDecides` | coding-agent/src/agentkit/tools/toolset.py:586-630 | of any list of batch hooks exactly the first that does not decline decides |
| `ToolLoop.ExecuteBatch` | coding-agent/src/agentkit/tools/toolset.py:586-630 | the loop over the hooks has that decision: a wrong number of results raises, and an answer has one result per call in order |
| `ToolLoop.ExecuteTools` | coding-agent/src/agentkit/tools/toolset.py:561-584 | the execution that `SinglesReport` and `BatchReports` describe; when it returns there is exactly one result per call, in the order of the calls |
| `ToolLoop.ExecutionAnswers` | coding-agent/src/agentkit/tools/toolset.py:561-630 | whatever hooks and tools answer, an execution that returns answers exactly its calls, in order |
| `ToolReports.EnvelopesReport` | coding-agent/src/agentkit/tools/toolset.py:854-877 | the content of each result is the text of a value, "Error executing tool '…': " and the error of a tool that raised, or that the tool is not found; the first fatal answer leaves the execution with its error |
| `ToolReports.SinglesReport` | coding-agent/src/agentkit/tools/toolset.py:561-584 | so it is, call by call, for a single call, for calls through the tool proxy and for calls that no batch hook takes; a call without an answer finds no tool |
| `ToolReports.BatchReports` | coding-agent/src/agentkit/tools/toolset.py:586-630 | and for the answers of the first batch hook that takes the calls; a hook that raises or returns no list fails every call with that error, a wrong number of results or a fatal error leaves the execution |
| `ToolReports.RoundStands` | coding-agent/src/agentkit/runtime/pipeline.py:863-1018 | what a round leaves on the tape, by position: its text, each call in order and right behind it why it is rejected if it is, what hooks wrote, and at the end one result for each executed call |
| `ToolReports.RoundTells` | coding-agent/src/agentkit/runtime/pipeline.py:985-1018 | so the entry for each executed call holds its id and what was answered to it, case by case |
| `ToolReports.ClearedIsExecuted` | coding-agent/src/agentkit/runtime/pipeline.py:896-972 | the calls that are executed are just the cleared ones, in order |
| `ToolLoop.RecordCalls` | coding-agent/src/agentkit/runtime/pipeline.py:896-972 | the loop appends every call, and at once the result of each rejected one, and collects the others in order |
| `ToolLoop.CallsOwed` | coding-agent/src/agentkit/runtime/pipeline.py:896-972 | after that loop exactly the executable calls are unanswered |
| `ToolLoop.ResultsPayExactly` | coding-agent/src/agentkit/runtime/pipeline.py:985-1018 | the results of an execution leave nothing unanswered if and only if its own calls are all that is owed |
| `ToolLoop.RoundPaysExactly` | coding-agent/src/agentkit/runtime/pipeline.py:863-1026 | a whole round leaves no call unanswered, on the whole tape or on what of it the model sees, if and only if what tools and hooks write while it runs leaves there exactly the calls of the round owed |
| `ToolLoop.Refresh` | coding-agent/src/agentkit/runtime/pipeline.py:680-792 | a build between rounds equals a full rebuild of the tape, and moves the window exactly as the advice says |
| `ToolLoop.RecordRound` | coding-agent/src/agentkit/runtime/pipeline.py:878-1018 | a round appends its text, calls with rejections, hook writes and results in that order |
| `ToolLoop.FinishRound` | coding-agent/src/agentkit/runtime/pipeline.py:1031-1039 | the build after a round equals a full rebuild, even when hooks wrote to the tape, and the cache stays reusable |
| `Turns.RunRound` | coding-agent/src/agentkit/runtime/pipeline.py:802-1041 | one round sends the request that the cache-free reference rebuilds from the tape, window and grounding of that moment, and leaves tape, window and grounding as the reference does |
| `Turns.RunModel` | coding-agent/src/agentkit/runtime/pipeline.py:794-1041 | the requests of a turn are, one for one, those of the reference, and so are its end and the tape it leaves |
| `Turns.RunTurns` | coding-agent/src/agentkit/runtime/pipeline.py:524-600 | over any number of turns, with rejections, batches, failures, steering, window moves, changing grounding and tools that write to the tape, incremental or not: the requests sent are exactly those of the reference that rebuilds each from the session's own tape; and when those writes settle, on the whole tape or on its visible part, every call there has exactly one result; and when they settle on the visible part, every call in a request is answered after it, by one tool message only if its id is used once |
| `ReferenceSession.TurnIsPairedExactly` | coding-agent/src/agentkit/runtime/pipeline.py:794-1041 | on all tapes of a turn each call has exactly one result after it if and only if the writes settle in every round that completes; on the whole tape and on its visible part alike |
| `ReferenceSession.SessionIsPairedExactly` | coding-agent/src/agentkit/runtime/pipeline.py:524-600 | the same over any number of turns, with what checkpoint hooks write |
| `ReferenceSession.SessionAsksPaired` | coding-agent/src/agentkit/runtime/pipeline.py:524-600 | then the model is asked only about tapes on which each call has exactly one result |
| `ReferenceSession.NextRequestGoesOn` | coding-agent/src/agentkit/runtime/pipeline.py:863-1041 | the next request of a turn is about the tape of the one before and, behind it, everything that its round recorded; the window never goes back |
| `ReferenceSession.TurnGoesOn` | coding-agent/src/agentkit/runtime/pipeline.py:802-1041 | each request of a turn goes on from the tape at its start and carries the newest grounding that was offered |
| `ReferenceSession.SessionGoesOn` | coding-agent/src/agentkit/runtime/pipeline.py:524-600 | every request of a turn and of all later ones is about a tape that starts with what was on it before and the turn's user message |
| `ReferenceSession.WritesGoOn` | coding-agent/src/agentkit/runtime/pipeline.py:1043-1050 | and, after the turn, with what its checkpoint hook wrote and the next user message |
| `ReferenceSession.HiddenWritesSettle` | coding-agent/src/coding_agent/tools/subagent.py:191-212 | when everything that tools and hooks write is hidden, as a child's trace is, the visible part always settles, however unpaired the hidden entries are |
| `Subagents.ForkChildTape` | coding-agent/src/coding_agent/tools/subagent.py:180-188 | the child's tape is the parent's without the calls at its end, with the same window |
| `Subagents.ChildStartsPairedExactly` | coding-agent/src/coding_agent/tools/subagent.py:180-188 | the child of a round's first subagent starts on a tape on which each call has its result if and only if no executable call of the round comes before a rejected one |
| `Subagents.LaterChildOwes` | coding-agent/src/coding_agent/tools/subagent.py:180-188 | a later subagent of the same round finds its predecessor's trace at the end of the tape, and its child starts with every executable call of the round unanswered, visibly |
| `Subagents.AppendChildTrace` | coding-agent/src/coding_agent/tools/subagent.py:191-212 | the parent's tape gets exactly the child's new entries, in order and hidden |
| `Subagents.TraceSettlesExactly` | coding-agent/src/coding_agent/tools/subagent.py:191-212 | the trace of a child that started paired disturbs no debt of the parent if and only if the child's tape is paired at its end, finished or timed out; on the visible part it never does |
| `TapeFiles.ScanWindowStart` | coding-agent/src/agentkit/tape/tape.py:13-25 | the scan finds the last handoff anchor, or the start |
| `TapeFiles.SavedTape.SaveJsonl` | coding-agent/src/agentkit/tape/tape.py:92-106 | the file ends up with exactly the tape if and only if the file appended to held exactly the saved part |
| `TapeFiles.SavedTape.LoadJsonl` | coding-agent/src/agentkit/tape/tape.py:108-121 | loading restores the entries and opens the window at the last handoff anchor |
| `TapeFiles.ReloadKeepsWindowExactly` | coding-agent/src/agentkit/tape/tape.py:56-62 | on any tape, and whatever is appended later, a handoff with an explicit start survives a reload if and only if that start is the anchor's own position |
| `TapeFiles.LifeReloadsExactly` | coding-agent/src/agentkit/tape/tape.py:56-121 | after any sequence of appends and handoffs a reload keeps the window if and only if the last handoff, if any, put it at its own anchor |
| `TapeFiles.AnchorLeadsViewExactly` | coding-agent/src/agentkit/tape/view.py:20-35 | after a reload the anchor that opens the window leads the view if and only if nothing precedes it on the tape, it carries the flag, or no later anchor does |
| `Approvals.PerformKeepsInv` | coding-agent/src/coding_agent/approval/runtime_messages.py:90-250 | every act keeps: unique message ids, the queue holds exactly the unanswered requests once each, a recorded response is the published decision and the cursor is past it; cursor and bus only grow |
| `Approvals.RunsKeepInv` | coding-agent/src/coding_agent/approval/runtime_messages.py:165-250 | so does every interleaving; the session cursor never decreases |
| `Approvals.ConsumeKeepsInv` | coding-agent/src/coding_agent/approval/runtime_messages.py:90-184 | consuming keeps that invariant although a batch of unknown requests does not move the cursor |
| `Approvals.FirstDecisionStands` | coding-agent/src/coding_agent/approval/runtime_messages.py:186-210 | the decision published first for a request is the only one it ever has |
| `ApprovalEffects.ActRemembersExactly` | coding-agent/src/coding_agent/approval/coordinator.py:61-79 | an act remembers an agent and tool if and only if it records, for a request of theirs that waited, an approval for more than once; nothing is forgotten |
| `ApprovalEffects.ActKeepsOrder` | coding-agent/src/coding_agent/approval/coordinator.py:23-98 | a new request waits at the end, and no other ever overtakes one |
| `ApprovalEffects.ConsumptionMovesExactly` | coding-agent/src/coding_agent/approval/runtime_messages.py:165-184 | a consumption moves the cursor behind what it read, unless some decision there was for an unknown request and none for one that waits |
| `ApprovalSessions.InMemoryBus.Publish` | coding-agent/src/agentkit/runtime/messages.py:182-194 | a message is appended with the next sequence number if and only if its id is new |
| `ApprovalSessions.InMemoryBus.ConsumeAfter` | coding-agent/src/agentkit/runtime/messages.py:196-225 | exactly the decision messages after the cursor, oldest first, up to the limit |
| `ApprovalSessions.ApprovalSession.AddRequest` | coding-agent/src/coding_agent/approval/coordinator.py:23-26 | a request starts unanswered at the end of the queue |
| `ApprovalSessions.ApprovalSession.Respond` | coding-agent/src/coding_agent/approval/coordinator.py:61-79 | a response is recorded if and only if it is the first; a wide approval is remembered; the request leaves the queue |
| `ApprovalSessions.ApprovalSession.PendingRequest` | coding-agent/src/coding_agent/approval/coordinator.py:39-46 | ids that left the store are dropped from the front of the queue until a stored request is met |
| `ApprovalSessions.PendingRequestWaits` | coding-agent/src/coding_agent/approval/coordinator.py:39-46 | in a sound session that loop drops nothing, and the request it returns still waits |
| `ApprovalSessions.ApprovalSession.FinishWait` | coding-agent/src/coding_agent/approval/coordinator.py:87-98 | a wait returns nothing but the published decision, and removes the request |
| `ApprovalSessions.ApprovalSession.ConsumeBus` | coding-agent/src/coding_agent/approval/runtime_messages.py:90-144 | the loop applies, defers and skips exactly as the fold of single messages |
| `ApprovalSessions.ApprovalSession.ConsumeForSession` | coding-agent/src/coding_agent/approval/runtime_messages.py:165-184 | the cursor advances exactly when something was applied or nothing was deferred |
| `ApprovalSessions.ApprovalSession.PublishedDecision` | coding-agent/src/coding_agent/approval/runtime_messages.py:186-210 | finds the published decision if and only if there is one, from the start of the bus |
| `ApprovalSessions.ApprovalSession.ApplyPublishedDecision` | coding-agent/src/coding_agent/approval/runtime_messages.py:212-250 | records a waiting request's decision and never moves the cursor back |
| `ApprovalSessions.ApprovalSession.BeginRequest` | coding-agent/src/coding_agent/approval/requests.py:77-96 | a decision already on the bus is delivered, even behind the cursor and under interference, unless the wait was ended; any response is the published one |
| `ApprovalSessions.ApprovalSession.Submit` | coding-agent/src/coding_agent/approval/runtime_messages.py:252-350 | any response returned is the first published decision; left alone, a first decision is published, recorded and returned, and an unknown request publishes nothing |
| `ApprovalSessions.DeliveredWhilePending` | coding-agent/src/coding_agent/approval/runtime_messages.py:212-250 | for a waiting request the published decision is always delivered |
| `ApprovalSessions.OwnDecisionApplies` | coding-agent/src/coding_agent/approval/runtime_messages.py:282-350 | publishing the first decision of a waiting request and consuming records exactly that decision |
| `ApprovalDelivery.NextConsumptionDelivers` | coding-agent/src/coding_agent/approval/runtime_messages.py:165-184 | the next unlimited consumption records the decision of a waiting request that lies after the cursor |
| `ApprovalDelivery.SkippedIsNotConsumed` | coding-agent/src/coding_agent/approval/runtime_messages.py:165-184 | a consumption leaves a request waiting whose decision lies behind the cursor |
| `ApprovalDelivery.ActSkipsExactly` | coding-agent/src/coding_agent/approval/runtime_messages.py:212-240 | an act leaves the decision of a waiting request behind the cursor if and only if a request begins with its decision there, or a decision is applied directly that comes after one another request waits for |
| `ApprovalDelivery.NeverSkippedExactly` | coding-agent/src/coding_agent/approval/runtime_messages.py:165-350 | over every interleaving no decision of a waiting request is ever behind the cursor if and only if no act skips one |
| `ApprovalDelivery.SkippedWaitsForever` | coding-agent/src/coding_agent/approval/runtime_messages.py:165-350 | a decision that was skipped is never delivered by the bus: its request waits until it is applied directly, begun again or given up |
| `ApprovalDelivery.DirectApplicationSkips` | coding-agent/src/coding_agent/approval/runtime_messages.py:212-240 | applying the later of two decisions directly leaves the request of the earlier one waiting with its decision behind the cursor |
| `ForkStore.ForksAreTransactional` | coding-agent/src/agentkit/tape/store.py:27-59 | over every interleaving no fork commits twice and each delta is what the fork added since its begin; and every log is its initial log and then the committed deltas in commit order if and only if no save persisted entries and then raised, else some log is longer |
| `ForkStore.RolledBackContributesNothing` | coding-agent/src/agentkit/tape/store.py:52-59 | a rolled-back fork is never committed, however the run continues |
| `ForkStore.FailedCommitIsUndone` | coding-agent/src/agentkit/tape/store.py:35-50 | a failed commit leaves the store exactly as before |
| `ForkStore.CommitPersistsWholeTape` | coding-agent/src/agentkit/runtime/pipeline.py:585-587 | when the log held just what the base held, a commit makes it hold everything the fork held |
| `ForkStore.PerformKeepsInv` | coding-agent/src/agentkit/tape/store.py:27-59 | every operation keeps the bookkeeping of forks under way, waiting and finalized |
| `ForkStore.ForkTapeStore.BeginTape` | coding-agent/src/agentkit/tape/store.py:27-33 | a fork has a fresh id and everything its base holds |
| `ForkStore.ForkTapeStore.StartCommit` | coding-agent/src/agentkit/tape/store.py:35-43 | a commit starts if and only if the fork is known and not finalized |
| `ForkStore.ForkTapeStore.FinishCommit` | coding-agent/src/agentkit/tape/store.py:43-50 | the bookkeeping after a save that answered, raised, or persisted and raised; the base's id is returned if and only if it answered, and then its log gained exactly the delta |
| `ForkStore.ForkTapeStore.RollbackTape` | coding-agent/src/agentkit/tape/store.py:52-59 | a rollback never touches the log and is refused after a finalization |
| `ForkTurns.TurnMeans` | coding-agent/src/agentkit/runtime/pipeline.py:524-600 | one turn adds its entries to the session's tape exactly when its commit answered, and to the log exactly when they were persisted; other logs stay as they are |
| `ForkTurns.LogFollowsTapeExactly` | coding-agent/src/agentkit/runtime/pipeline.py:585-603 | over any number of turns the log equals the tape if and only if no turn that went back to the old tape had its entries persisted; otherwise it is longer, however the session goes on |
| `BeeManifest.TopologicalIsAcyclic` | coding-agent/src/coding_agent/bee/runtime.py:1159-1176 | a graph with a topological order of all nodes has no cycle |
| `BeeManifest.DependencyWalk.Visit` | coding-agent/src/coding_agent/bee/runtime.py:1164-1173 | the walk ends, finishes every node after its dependencies, and reports a node only if it lies on a cycle |
| `BeeManifest.RejectDependencyCycles` | coding-agent/src/coding_agent/bee/runtime.py:1159-1176 | without a report the finish order is a topological order of all nodes |
| `BeeManifest.FindDuplicate` | coding-agent/src/coding_agent/bee/runtime.py:1139-1147 | a duplicate or self-dependency is reported if and only if there is one to report first |
| `BeeManifest.RequireUniqueNodeIds` | coding-agent/src/coding_agent/bee/runtime.py:1139-1157 | a node set is accepted if and only if ids are unique, dependencies known and the graph acyclic; every error is true of the manifest |
| `BeePlanner.PerformKeepsSafety` | coding-agent/src/coding_agent/bee/runtime.py:799-874 | every act keeps: an active node has all dependencies completed, and what a process saw completed still is, unless a write takes a completed node back or activates one whose dependencies are not completed |
| `BeePlanner.RunsKeepSafety` | coding-agent/src/coding_agent/bee/launch.py:1034-1153 | so does every interleaving of planners, resume, retry, cancel and executors whose writes keep that guard |
| `BeePlanner.RunIsSafeExactly` | coding-agent/src/coding_agent/bee/runtime.py:475-496 | over every interleaving, guarded or not, the dependencies of active nodes are completed all along if and only if each write and each successful claim meets its own condition in the store at its moment |
| `BeePlanner.ClaimIsSafeExactly` | coding-agent/src/coding_agent/bee/runtime.py:486-496 | a claim that succeeds is safe if and only if the node's dependencies are completed in the store, not only in the listing it was judged by |
| `BeePlanner.ExecutorMovesAreGuarded` | coding-agent/src/coding_agent/bee/runtime.py:638-674 | an executor that moves only a ready node to running and a running node to an outcome keeps the guard |
| `BeePlanner.WriteIsSafeExactly` | coding-agent/src/coding_agent/bee/runtime.py:475-485 | an unconditional status write, by anybody, keeps all dependencies of active nodes completed if and only if its node may take the status and no completed node is taken from an active dependant |
| `BeePlanner.OverwriteIsSafeExactly` | coding-agent/src/coding_agent/bee/launch.py:1045-1062 | at its moment, a resume, retry or cancel write undoes a dependency of an active node if and only if its node is a completed one with an active dependant |
| `BeePlanner.NoOccupancyClaimedTwice` | coding-agent/src/coding_agent/bee/runtime.py:486-496 | in every interleaving, guarded or not, no pending occupancy of a node is claimed twice |
| `BeePlanning.SomePendingIsEligible` | coding-agent/src/coding_agent/bee/runtime.py:870-874 | among pending and completed nodes of an acyclic graph some pending node has all dependencies completed |
| `BeePlanning.BeeStore.ClaimReadyNode` | coding-agent/src/coding_agent/bee/runtime.py:676-699 | a claim succeeds if and only if the node is still pending |
| `BeePlanning.PlanReadyNodes` | coding-agent/src/coding_agent/bee/runtime.py:799-868 | at most `max_nodes` intents, exactly the nodes this planner claimed; left alone, each was pending with its dependencies completed, all such nodes of the listed tasks are claimed unless the limit stops it, nothing else changes, and there are none only when no listed task is startable |
| `BeePlanning.SweepNodes` | coding-agent/src/coding_agent/bee/launch.py:1044-1062 | left alone, resume and cancel change exactly the listed nodes they should |
| `BeePlanning.SweepMeans` | coding-agent/src/coding_agent/bee/launch.py:1044-1153 | a resume sends exactly running and failed nodes back to pending, as a new occupancy; a cancel skips all but the completed ones |
| `BeePlanning.UpdateTask` | coding-agent/src/coding_agent/bee/launch.py:1034-1153 | a missing or terminal task is refused; left alone, resume and cancel keep dependencies safe |
| `BeePlanning.RetryNode` | coding-agent/src/coding_agent/bee/launch.py:1065-1086 | only a failed node goes back to pending |
| `BeePlanning.LateResumeBreaksSafety` | coding-agent/src/coding_agent/bee/launch.py:1044-1062 | a concrete interleaving in which a late resume makes a completed dependency of a ready node pending again |
| `BeePlanning.LateClaimBreaksSafety` | coding-agent/src/coding_agent/bee/launch.py:1044-1062 | a concrete interleaving in which a late resume is safe at its moment, and a claim from an older listing then starts a node whose dependency is pending |
| `TurnExtraction.RecordsAreJoined` | coding-agent/src/agentkit/tape/extract.py:199-223 | each call has one record, whose result is the last result with its id before a later call takes the id over, with empty content as none |
| `TurnPositions.TurnStands` | coding-agent/src/agentkit/tape/extract.py:183-238 | by position on the tape: the input is the user message's text; each call of each included call entry has its record, behind those of all calls before it; its result is the content of the last included result with its non-empty id before a later call takes the id over, empty content being none; the output is the last included assistant text that is not empty |
| `TurnPositions.ExtractionStands` | coding-agent/src/agentkit/tape/extract.py:140-240 | extraction gives one such turn for each included user message, in order, made of just the entries up to the next one |
| `TurnExtraction.TurnsSplitAtUser` | coding-agent/src/agentkit/tape/extract.py:170-200 | extraction splits at user messages |
| `TurnExtraction.VisibleIsRawOfVisible` | coding-agent/src/agentkit/tape/extract.py:140-240 | visible extraction is raw extraction of the visible entries |
| `TurnExtraction.ExtractionSplits` | coding-agent/src/agentkit/tape/extract.py:140-240 | a tape that continues with an included user message is extracted piece by piece |
| `TurnExtraction.FindBoundaries` | coding-agent/src/agentkit/tape/extract.py:170-179 | the boundaries are exactly the included user messages, in order |
| `TurnExtraction.ExtractTurn` | coding-agent/src/agentkit/tape/extract.py:183-238 | the loop over one turn gives the turn that `TurnStands` describes entry by entry |
| `TurnExtraction.ExtractTurns` | coding-agent/src/agentkit/tape/extract.py:140-240 | the two-phase walk that skips hidden entries gives the extraction that `ExtractionStands` describes entry by entry |
| `HunkParser.HeaderRoundTrip` | coding-agent/src/coding_agent/action_safety/patch_plan.py:71-71 | parsing a rendered header gives its four numbers back |
| `HunkParser.ReadBody` | coding-agent/src/coding_agent/action_safety/patch_plan.py:121-141 | the inner loop stops at the first line that is not body and counts the lines before it |
| `HunkParser.ParseHunkPlans` | coding-agent/src/coding_agent/action_safety/patch_plan.py:103-174 | the nested loops end and accept only hunks whose header counts equal their body counts, numbered in order |
| `HunkParser.TotalsMatchHeaders` | coding-agent/src/coding_agent/action_safety/patch_plan.py:142-164 | old counts plus additions equal new counts plus deletions over all hunks |
| `HunkParser.BuildPatchPlan` | coding-agent/src/coding_agent/action_safety/patch_plan.py:74-100 | totals are the sums over the hunks, and the operation is create or delete exactly as defined |
| `HunkParser.RoundTripExactly` | coding-agent/src/coding_agent/action_safety/patch_plan.py:103-174 | rendered hunks parse back to their starts, counts and order if and only if there is a hunk and at most one line looks like each file header |
| `PatchShape.HeadersAreReadExactly` | coding-agent/src/coding_agent/action_safety/patch_plan.py:71-71 | a line is read as a header if and only if it is "@@ -", a range, " +", a range, " @@" and anything, with the numbers it shows; a count that is left out is 1 |
| `PatchShape.AcceptedExactly` | coding-agent/src/coding_agent/action_safety/patch_plan.py:103-185 | a patch is accepted if and only if it names at most one file, has a header, and every header announces just what its body holds, where blank lines are context and the missing-newline marker counts nothing; then there is one hunk for each header line, in order, with its numbers and counts; else the first of these that fails is the reason |
| `Checkpoints.RoundTripExactly` | coding-agent/src/agentkit/tape/models.py:64-142 | decoding undoes encoding if and only if the entry is no plain entry of kind "anchor" and no anchor with a legacy type name |
| `Checkpoints.DecodingMeans` | coding-agent/src/agentkit/tape/models.py:64-142 | decoding keeps payload, id, time and metadata, reads "topic_initial" as "topic_start" and "topic_finalized" as "topic_end", from the field or else the metadata, and without either takes the type from the handoff flag |
| `Checkpoints.PromotionIsIdempotent` | coding-agent/src/agentkit/tape/models.py:76-105 | legacy promotion happens once |
| `Checkpoints.SaveIsAtomic` | coding-agent/src/agentkit/storage/checkpoint_fs.py:72-122 | a save of a new checkpoint shows nothing until its last step and then the whole snapshot |
| `Checkpoints.SaveIsCrashAtomicExactly` | coding-agent/src/agentkit/storage/checkpoint_fs.py:47-122 | after a crash anywhere in a save that may also fail, a load finds nothing or exactly the snapshot if and only if the meta write did not raise with its file in place before the clean-up began |
| `Checkpoints.RaisedSaveCleansUpExactly` | coding-agent/src/agentkit/storage/checkpoint_fs.py:72-122 | a save that raised leaves no file behind if and only if the file whose write raised was not in place yet |
| `Checkpoints.OverwriteMixes` | coding-agent/src/agentkit/storage/checkpoint_fs.py:72-122 | a crash in a save over an existing checkpoint shows a mixture |
| `Checkpoints.DeleteIsCrashAtomic` | coding-agent/src/agentkit/storage/checkpoint_fs.py:181-192 | after a crash anywhere in a delete, a load finds the snapshot or nothing |
| `Checkpoints.DeleteLeavesNothing` | coding-agent/src/agentkit/storage/checkpoint_fs.py:181-192 | a delete that ends leaves no file behind |
| `Checkpoints.OthersUntouched` | coding-agent/src/agentkit/storage/checkpoint_fs.py:72-192 | other checkpoints are untouched wherever a save or delete stops |
| `Checkpoints.FSCheckpointStore.Save` | coding-agent/src/agentkit/storage/checkpoint_fs.py:72-122 | the loop with its clean-up performs exactly the analysed steps |
| `Checkpoints.FSCheckpointStore.DeleteCheckpoint` | coding-agent/src/agentkit/storage/checkpoint_fs.py:181-192 | the meta file goes first, so the checkpoint is gone at once |
| `Checkpoints.ReconstructsExactly` | coding-agent/src/agentkit/checkpoint/service.py:22-93 | a captured tape is reconstructed with its entries and window start if and only if its entries survive the encoding |

## Left out

- Coordinator.SegmentCoordinator.Run: reports one code for every exception of the engine and the adapters, as the program does; their texts are omitted.
- One session and one run per store; child runs and their bindings, executor attempt records, quiescence and recovery guards of the durable store.
- Frame and fact sinks, delivery failures, spans, tracing, logging and display projections.
- JSON freezing, type-tag and non-empty-string checks, except where they relate two fields or two objects.
- asyncio: locks, timeouts and cancellation delivery; a generation is one step with a result, an interruption or a failure.
- Ids are constructors, so no two f-strings are assumed to collide; entry ids, timestamps and run metadata are omitted.
- The receipt's fingerprint is the unit itself, so a hash is assumed not to collide.
- The store's own status ranks give failed and unknown the same number; the rank here orders every legal transition strictly.
- A `CommitReconciliation` whose own checks raise is modelled as a refused answer, not as an exception out of the coordinator.
- The legacy summary hook that replaces the tape, and the cache after a turn that raised.
- What tools and hooks write to the tape while tools run is arbitrary but for flagged handoff anchors, which only restored entries carry.
- Truncation and formatting of tool results, argument schemas, the search and call proxies' own lookups, approval hooks: their verdicts are inputs.
- Message contents are strings; multi-part contents and JSON argument encoding are omitted.
- ApprovalSessions.ApprovalSession.ConsumeForSession: is one step, as it is on the in-memory bus, which never suspends; a bus that suspends between fetching and applying a batch is not modelled.
- Approval decisions reach the bus only through `submit`; timeouts are a separate outcome; session approvals are recorded but not looked up.
- ForkStore.ForksAreTransactional: does not rename a committed fork's tape object; `ForkTurns` does, for the turns of one session at a time.
- The code by which Bee executors choose the statuses they write is not part of this model: their writes are arbitrary, and guarded only where a theorem says so.
- Bee task order of creation, session and topic filters, launch orchestration and workspace artefacts.
- HunkParser.ParseHunkPlans: takes the lines of the patch, so line splitting and non-ASCII digits are omitted; risk labels are omitted.
- Checkpoints.SaveIsCrashAtomicExactly: takes one file replacement as atomic; temporary files and JSON text are omitted.

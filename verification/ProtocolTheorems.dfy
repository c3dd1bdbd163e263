/**
 Consequences of the protocol invariants: what the model sees, how an indeterminate effect
 freezes and recovers, what an approval does, which completions are accepted, and the exact
 condition under which an `Initial` input keeps state and ledger in agreement.
 */
module ProtocolTheorems {
  import opened Wrappers
  import opened Contracts
  import opened CommitStore
  import opened Protocol
  import opened ProtocolSafety
  import opened ProtocolAgreement
  import opened Transcript
  import Engine

  function CurrentRuntime(w: World): RuntimeState
    requires w.db.history != []
  {
    Engine.RuntimeOf(w.db.Current().value)
  }

  /** The messages that the run has appended to the conversation it was admitted with. */
  function Appended(w: World): seq<Message>
    requires w.db.history != []
  {
    var base, messages := w.db.history[0].value.messages, w.db.Current().value.messages;
    if |base| <= |messages| then messages[|base|..] else []
  }

  // ---------- Transcript ----------

  /**
   In every guarded run, with `k` the last assistant message: the rounds before it are answered
   in full, and its call ids are the ids of the results after it followed by the ids of the
   pending plans, in order. While a model request is active nothing is pending.
   */
  lemma {:induction false} TranscriptIsWellFormed(start: World, acts: seq<Act>, k: nat)
    requires Fresh(start) && GuardedRun(start, acts)
    requires var messages := Appended(Runs(start, acts));
             && k < |messages| && messages[k].Assistant?
             && forall i :: k < i < |messages| ==> !messages[i].Assistant?
    ensures var w := Runs(start, acts);
            var messages := Appended(w);
            && Owed(messages[..k]) == Some([])
            && AllResults(messages[k + 1..])
            && RefIds(messages[k].calls) == ResultIds(messages[k + 1..]) + PlanIds(CurrentRuntime(w).pending)
            && (CurrentRuntime(w).modelRequest.Some? ==> RefIds(messages[k].calls) == ResultIds(messages[k + 1..]))
  {
    StateAndLedgerAgree(start, acts);
    LastRound(Appended(Runs(start, acts)), k);
  }

  // ---------- Indeterminate effects ----------

  ghost predicate Frozen(w: World)
    requires w.db.history != []
  {
    CurrentRuntime(w).unknown.Some? && CurrentRuntime(w).reconciled.None?
  }

  lemma {:induction false} HeadInLedger(w: World)
    requires AgreementInv(w) && CurrentRuntime(w).pending != []
    ensures CurrentRuntime(w).pending[0].effectId in w.db.effects
    ensures w.db.effects[CurrentRuntime(w).pending[0].effectId].status == HeadStatus(CurrentRuntime(w))
  {
  }

  lemma {:induction false} SettlementUnit(db: Db, act: Act)
    requires UnitOf(db, act).Some? && act.Step? && act.input.Settles()
    ensures act.input.ApprovalResolved? ==> !act.input.approval.approved
    ensures UnitOf(db, act).value.mutations
            == if PostReconciliation(db.history[act.revision], act.input) then [] else [SettlementMutation(act.input)]
  {
    var version := db.history[act.revision];
    var proposal := Engine.Propose(version, act.input).value;
    match act.input {
      case EffectSettled(s) =>
        if s.outcome != Indeterminate {
          Engine.TerminalSettlementPops(version, s);
        }
      case ApprovalResolved(s) =>
        SentApprovalIsDenial(version, s);
        Engine.DenialPops(version, s);
    }
    SettlementSendsOneMutation(version, act.input, proposal);
  }

  lemma {:induction false} SettlementNamesHead(db: Db, act: Act)
    requires UnitOf(db, act).Some? && act.Step? && act.input.Settles()
    ensures var pending := Engine.RuntimeOf(db.history[act.revision].value).pending;
            pending != [] && pending[0].effectId == SettlementMutation(act.input).effectId
  {
  }

  /** A settlement is sent with one mutation of the head; the ledger accepts it only from the status it expects. */
  lemma {:induction false} SentSettlementIsAccepted(w: World, act: Act)
    requires AgreementInv(w) && Changes(w, act) && act.Step? && act.input.Settles()
    requires !PostReconciliation(w.db.Current(), act.input)
    ensures act.input.EffectSettled? ==> HeadStatus(CurrentRuntime(w)) == Dispatched
    ensures act.input.ApprovalResolved? ==> HeadStatus(CurrentRuntime(w)) == Prepared
  {
    ChangeLands(w, act);
    SettlementUnit(w.db, act);
    SettlementNamesHead(w.db, act);
    HeadInLedger(w);
    OneMutationLands(w, act, SettlementMutation(act.input));
  }

  lemma {:induction false} AuthorizationNeedsPrepared(w: World, act: Act)
    requires AgreementInv(w) && Changes(w, act) && act.Authorize?
    ensures CurrentRuntime(w).pending != [] && HeadStatus(CurrentRuntime(w)) == Prepared
  {
    ChangeLands(w, act);
    HeadInLedger(w);
    OneMutationLands(w, act, DispatchMutation(CurrentRuntime(w).pending[0]));
  }

  lemma {:induction false} CompletionNeedsRequest(w: World, act: Act)
    requires AgreementInv(w) && Changes(w, act) && act.Step? && act.input.ModelCompleted?
    ensures CurrentRuntime(w).modelRequest == Some(act.input.result.requestId)
  {
    ChangeLands(w, act);
  }

  lemma {:induction false} ReconciliationNeedsUnknown(w: World, act: Act)
    requires AgreementInv(w) && Changes(w, act) && act.Reconcile?
    ensures CurrentRuntime(w).pending != [] && HeadStatus(CurrentRuntime(w)) == Unknown
  {
    ChangeLands(w, act);
    HeadInLedger(w);
    var unit := UnitOf(w.db, act).value;
    OneMutationLands(w, act, unit.mutations[0]);
  }

  /** While an effect is unknown, no act but a reconciliation of it changes the committed state. */
  lemma {:induction false} OnlyReconciliationUnfreezes(w: World, act: Act)
    requires AgreementInv(w) && Frozen(w) && GuardedAct(w, act) && Changes(w, act)
    ensures act.Reconcile? && act.record.effectId == CurrentRuntime(w).unknown.value.authorization.effectId
    ensures HeadStatus(CurrentRuntime(Perform(w, act))) == StatusOf(act.record.observed)
    ensures CurrentRuntime(Perform(w, act)).pending == CurrentRuntime(w).pending
  {
    hide LedgerInv, QueueAgrees, Engine.Propose, Refusal, ApplyMutations;
    ChangeLands(w, act);
    CommitActCases(w, act);
    match act
    case Step(_, input, _, _, _) =>
      if input.Settles() {
        SentSettlementIsAccepted(w, act);
      } else if input.ModelCompleted? {
        CompletionNeedsRequest(w, act);
      }
    case Authorize(_, _, _, _, _, _) => AuthorizationNeedsPrepared(w, act);
    case Reconcile(_, _, _, _, _) =>
  }

  lemma {:induction false} UnchangedHistory(w: World, act: Act)
    requires w.db.history != [] && !Changes(w, act)
    ensures Perform(w, act).db.history == w.db.history && Perform(w, act).db.effects == w.db.effects
  {
    if act.Step? || act.Authorize? || act.Reconcile? {
      CommitActCases(w, act);
    }
  }

  lemma {:induction false} FrozenDoesNotChange(w: World, act: Act)
    requires AgreementInv(w) && Frozen(w) && GuardedAct(w, act) && !act.Reconcile?
    ensures !Changes(w, act)
  {
    if Changes(w, act) {
      OnlyReconciliationUnfreezes(w, act);
    }
  }

  lemma {:induction false} FrozenStep(w: World, act: Act)
    requires AgreementInv(w) && Frozen(w) && GuardedAct(w, act) && !act.Reconcile?
    ensures Perform(w, act).db.history == w.db.history && Perform(w, act).db.effects == w.db.effects
    ensures AgreementInv(Perform(w, act))
  {
    PerformKeepsAgreement(w, act);
    FrozenDoesNotChange(w, act);
    UnchangedHistory(w, act);
  }

  /** Hence a run without reconciliation leaves a frozen state exactly as it is, however long it gets. */
  lemma {:induction false} FrozenStaysFrozen(w: World, acts: seq<Act>)
    requires AgreementInv(w) && Frozen(w) && GuardedRun(w, acts)
    requires forall i :: 0 <= i < |acts| ==> !acts[i].Reconcile?
    ensures Runs(w, acts).db.history == w.db.history && Runs(w, acts).db.effects == w.db.effects
    decreases |acts|
  {
    hide Engine.Propose, ReconciliationRefusal, UnitOf, StateAgrees, SafetyInv;
    if acts != [] {
      hide AgreementInv, GuardedAct, Perform;
      FrozenStep(w, acts[0]);
      var next, rest := Perform(w, acts[0]), acts[1..];
      assert forall i :: 0 <= i < |rest| ==> rest[i] == acts[i + 1];
      FrozenStaysFrozen(next, rest);
    }
  }

  /**
   After the reconciliation is committed, the only act that changes the state is the settlement
   that repeats the recorded outcome; it commits without touching the ledger and pops the head.
   */
  lemma {:induction false} OnlyRecordedOutcomeSettles(w: World, act: Act)
    requires AgreementInv(w) && CurrentRuntime(w).reconciled.Some? && GuardedAct(w, act) && Changes(w, act)
    ensures act.Step? && act.input.EffectSettled?
    ensures MatchesReconciled(CurrentRuntime(w).reconciled.value, act.input.effect)
    ensures Perform(w, act).db.effects == w.db.effects
    ensures CurrentRuntime(Perform(w, act)).pending == CurrentRuntime(w).pending[1..]
  {
    hide Engine.Propose, ReconciliationRefusal;
    ChangeLands(w, act);
    CommitActCases(w, act);
    match act
    case Step(_, input, _, _, _) =>
      if input.ModelCompleted? {
        CompletionNeedsRequest(w, act);
      } else if input.Settles() {
        if PostReconciliation(w.db.Current(), input) {
          ReconciledSettlementPops(w, act);
        } else {
          SentSettlementIsAccepted(w, act);
        }
      }
    case Authorize(_, _, _, _, _, _) => AuthorizationNeedsPrepared(w, act);
    case Reconcile(_, _, _, _, _) => ReconciliationNeedsUnknown(w, act);
  }

  lemma {:induction false} ReconciledSettlementPops(w: World, act: Act)
    requires AgreementInv(w) && Changes(w, act) && act.Step? && PostReconciliation(w.db.Current(), act.input)
    ensures MatchesReconciled(CurrentRuntime(w).reconciled.value, act.input.effect)
    ensures Perform(w, act).db.effects == w.db.effects
    ensures CurrentRuntime(Perform(w, act)).pending == CurrentRuntime(w).pending[1..]
  {
    hide FactsAgree, TranscriptAgrees, QueueAgrees, Refusal, Engine.ProposeEffectSettlement;
    hide Engine.ProposeModelCompletion, MutationsFor;
    ChangeLands(w, act);
    CommitActCases(w, act);
    SettlementUnit(w.db, act);
    Engine.TerminalSettlementPops(w.db.Current(), act.input.effect);
  }

  // ---------- Approvals ----------

  /** A denied effect is never executed, before or after the denial, and its result is a denial. */
  lemma {:induction false} DeniedIsNeverExecuted(start: World, acts: seq<Act>, e: Id)
    requires Fresh(start) && GuardedRun(start, acts)
    requires e in Runs(start, acts).db.effects && Runs(start, acts).db.effects[e].status == Rejected
    ensures forall i :: 0 <= i < |Runs(start, acts).executions| ==> Runs(start, acts).executions[i].effectId != e
    ensures ResultCount(Runs(start, acts).db.facts, e) == 1
    ensures forall f :: f in Runs(start, acts).db.facts && f.ToolResultFact? && f.effectId == e ==>
      f.content.Denial? && f.isError
  {
    StateAndLedgerAgree(start, acts);
    var w := Runs(start, acts);
    forall i | 0 <= i < |w.executions| ensures w.executions[i].effectId != e {
      ExecutedOnlyAsAuthorized(start, acts, i);
    }
    assert CountsAgree(w.db.facts, CurrentRuntime(w).pending, w.db.effects, e);
    if Queued(CurrentRuntime(w).pending, e) {
      var i :| 0 <= i < |CurrentRuntime(w).pending| && CurrentRuntime(w).pending[i].effectId == e;
      RejectedIsNotQueued(w, i);
    }
    forall f | f in w.db.facts && f.ToolResultFact? && f.effectId == e ensures f.content.Denial? && f.isError {
      var i :| 0 <= i < |w.db.facts| && w.db.facts[i] == f;
      assert ReportsStatus(w.db.facts[i], w.db.effects);
    }
  }

  lemma {:induction false} RejectedIsNotQueued(w: World, i: nat)
    requires AgreementInv(w) && i < |CurrentRuntime(w).pending|
    ensures CurrentRuntime(w).pending[i].effectId in w.db.effects
    ensures w.db.effects[CurrentRuntime(w).pending[i].effectId].status != Rejected
  {
  }

  /** The command that approves the head of the queue, at a mailbox cut. */
  function Approve(w: World, s: ApprovalSettlement, cut: nat, stamp: nat): Act
    requires w.db.history != []
  {
    Authorize(|w.db.history| - 1, Some(s), w.db.ownerEpoch, cut, stamp, NoFault)
  }

  /** A permit needs a dispatched effect: there is none for a head that is still prepared. */
  lemma {:induction false} NoPermitForPreparedHead(w: World)
    requires AgreementInv(w) && CurrentRuntime(w).pending != [] && HeadStatus(CurrentRuntime(w)) == Prepared
    ensures forall t :: t in w.permits ==> w.permits[t].effectId != CurrentRuntime(w).pending[0].effectId
  {
    hide FactsAgree, TranscriptAgrees;
    HeadInLedger(w);
    var effect := CurrentRuntime(w).pending[0].effectId;
    assert SlotInv(w.db, effect);
    forall t | t in w.permits ensures w.permits[t].effectId != effect {
      assert PermitBinds(w.db, t, w.permits[t]);
    }
  }

  /** The head of the queue waits for this approval, whose command the store still has to apply. */
  ghost predicate AwaitsApproval(w: World, s: ApprovalSettlement) {
    && AgreementInv(w) && CurrentRuntime(w).pending != [] && HeadStatus(CurrentRuntime(w)) == Prepared
    && AuthorizationBinds(w.db.Current(), CurrentRuntime(w).pending[0], Some(s), w.db.ownerEpoch)
    && AuthorizationIdFor(w.db.Current(), CurrentRuntime(w).pending[0]) !in w.db.receipts
    && s.commandId in w.db.commands && w.db.commands[s.commandId] == Admitted
  }

  lemma {:induction false} ApprovalIsAccepted(w: World, s: ApprovalSettlement, cut: nat, stamp: nat)
    requires AwaitsApproval(w, s)
    ensures UnitOf(w.db, Approve(w, s, cut, stamp)).Some?
    ensures var unit, plan := UnitOf(w.db, Approve(w, s, cut, stamp)).value, CurrentRuntime(w).pending[0];
            && unit.mutations == [DispatchMutation(plan)] && unit.dispositions == [Applied(s.commandId)]
            && unit.transitionId == AuthorizationIdFor(w.db.Current(), plan)
            && Refusal(w.db, w.db.ownerEpoch, unit)
               == if cut == w.db.mailboxCut then None else Some(StaleMailboxCut(w.db.mailboxCut))
  {
    hide FactsAgree, TranscriptAgrees, Engine.Propose, StateAgrees;
    HeadInLedger(w);
    var plan := CurrentRuntime(w).pending[0];
    assert VersionInv(w.db, |w.db.history| - 1) && Named(plan);
    assert SlotInv(w.db, plan.effectId);
  }

  /**
   An approval that meets a stale mailbox cut leaves the world exactly as it was, so it can be
   submitted again; at the cut the store then reports it is authorized, and one commit consumes
   the command, dispatches the effect and issues the only permit for it.
   */
  lemma {:induction false} ApprovalCanBeResubmitted(w: World, s: ApprovalSettlement, cut: nat, stamp: nat)
    requires AwaitsApproval(w, s)
    ensures cut != w.db.mailboxCut ==>
      && Perform(w, Approve(w, s, cut, stamp)) == w
      && CommitAct(w, Approve(w, s, cut, stamp)).1 == StaleMailboxCut(w.db.mailboxCut)
    ensures var next := Perform(w, Approve(w, s, w.db.mailboxCut, stamp));
            var plan := CurrentRuntime(w).pending[0];
            var t := AuthorizationIdFor(w.db.Current(), plan);
            && plan.effectId in next.db.effects && next.db.effects[plan.effectId].status == Dispatched
            && s.commandId in next.db.commands && next.db.commands[s.commandId] == Disposed
            && t in next.permits && !next.permits[t].claimed && next.permits[t].attemptId == plan.attemptId
            && (forall other :: other in next.permits && next.permits[other].effectId == plan.effectId ==> other == t)
            && next.executions == w.executions
  {
    hide AgreementInv, Refusal, UnitOf, AuthorizationBinds;
    NoPermitForPreparedHead(w);
    ApprovalIsAccepted(w, s, cut, stamp);
    ApprovalIsAccepted(w, s, w.db.mailboxCut, stamp);
    var plan := CurrentRuntime(w).pending[0];
    HeadInLedger(w);
    OneMutation(w.db.effects, w.db.ownerEpoch, AuthorizationIdFor(w.db.Current(), plan), DispatchMutation(plan));
    assert [Applied(s.commandId)][..0] == [];
  }

  /** A reconciliation of the unknown effect, and the settlement that it dictates. */
  function RecoveryActs(w: World, record: ReconciliationRecord, stamp: nat): seq<Act>
    requires w.db.history != [] && CurrentRuntime(w).unknown.Some? && record.evidenceRef in w.db.evidence
  {
    var a, e := CurrentRuntime(w).unknown.value.authorization, w.db.evidence[record.evidenceRef];
    var s := EffectSettlement(SettledOf(record.transitionId), a.toolCallId, a.toolName, a.effectId, a.attemptId,
                              a.transitionId, w.db.ownerEpoch, e.outcome, e.result, e.reasonCode, e.reasonMessage);
    [Reconcile(|w.db.history| - 1, record, w.db.ownerEpoch, stamp, NoFault),
     Step(|w.db.history|, EffectSettled(s), w.db.ownerEpoch, stamp, NoFault)]
  }

  ghost predicate CanRecover(w: World, record: ReconciliationRecord)
    requires w.db.history != []
  {
    && Frozen(w)
    && RecordBinds(w.db.Current(), record, w.db.ownerEpoch)
    && record.evidenceRef in w.db.evidence
    && w.db.evidence[record.evidenceRef].ref == record.evidenceRef
    && ValidEvidence(w.db.evidence[record.evidenceRef])
    && EvidenceMatches(w.db.evidence[record.evidenceRef], record)
    && w.db.evidence[record.evidenceRef].authorizationId == CurrentRuntime(w).unknown.value.authorization.transitionId
    && record.transitionId !in w.db.receipts
    && StepTransition(w.db.run, EffectKind, SettledOf(record.transitionId)) !in w.db.receipts
  }

  lemma {:induction false} UnknownIsInLedger(w: World, record: ReconciliationRecord)
    requires AgreementInv(w) && CanRecover(w, record)
    ensures w.db.Current().revision == |w.db.history| - 1
    ensures record.effectId in w.db.effects
    ensures var slot, a := w.db.effects[record.effectId], CurrentRuntime(w).unknown.value.authorization;
            && slot.status == Unknown && slot.attemptId == record.attemptId
            && slot.authorization == Some(a.transitionId) && slot.dispatchEpoch == Some(a.ownerEpoch)
    ensures ReconciledValue(w.db.Current().value, w.db.evidence[record.evidenceRef], record).Ok?
  {
    hide FactsAgree, TranscriptAgrees, PermitsBind, ExecutionsRecorded;
    HeadInLedger(w);
    assert VersionInv(w.db, |w.db.history| - 1);
    assert SlotInv(w.db, record.effectId);
  }

  lemma {:induction false} EvidenceIsAccepted(w: World, record: ReconciliationRecord, unit: Unit)
    requires AgreementInv(w) && CanRecover(w, record)
    requires var e := w.db.evidence[record.evidenceRef];
             var value := ReconciledValue(w.db.Current().value, e, record);
             && value.Ok? && unit.evidence == Some(e) && unit.value == value.value
             && unit.revision == |w.db.history| - 1
             && |unit.mutations| == 1 && unit.mutations[0].effectId == record.effectId
             && unit.mutations[0].attemptId == record.attemptId && unit.mutations[0].reconciliation == Some(record)
    ensures ReconciliationRefusal(w.db, w.db.ownerEpoch, unit).None?
  {
    hide AgreementInv;
    UnknownIsInLedger(w, record);
  }

  lemma {:induction false} ReconciliationCommits(w: World, record: ReconciliationRecord, stamp: nat)
    requires AgreementInv(w) && CanRecover(w, record)
    ensures Changes(w, RecoveryActs(w, record, stamp)[0])
  {
    hide AgreementInv, ReconciliationRefusal, Engine.Propose, ReconciledValue, UnitFor;
    UnknownIsInLedger(w, record);
    var act := RecoveryActs(w, record, stamp)[0];
    var e := w.db.evidence[record.evidenceRef];
    var value := ReconciledValue(w.db.Current().value, e, record).value;
    var unit := ReconciliationUnit(w.db.Current(), record, e, value, stamp);
    assert UnitOf(w.db, act) == Some(unit);
    EvidenceIsAccepted(w, record, unit);
  }

  lemma {:induction false} RecordedSettlementBinds(version: StateVersion, slot: Slot, s: EffectSettlement)
    requires var rt := Engine.RuntimeOf(version.value);
             && MarkersNest(rt) && rt.pending != [] && ActiveAgrees(rt, slot)
             && rt.reconciled.Some? && MatchesReconciled(rt.reconciled.value, s)
    ensures SettlementBinds(version, EffectSettled(s), s.ownerEpoch)
    ensures Engine.ProposeEffectSettlement(version, s)
         == Ok(Engine.TerminalProposal(version, Engine.RuntimeOf(version.value), s))
    ensures PostReconciliation(version, EffectSettled(s))
  {
  }

  /** The settlement that repeats a committed reconciliation is accepted by the engine and by the store. */
  lemma {:induction false} RecordedSettlementCommits(w: World, act: Act, slot: Slot)
    requires w.db.history != [] && w.db.Current().revision == |w.db.history| - 1
    requires MarkersNest(CurrentRuntime(w)) && CurrentRuntime(w).pending != [] && ActiveAgrees(CurrentRuntime(w), slot)
    requires CurrentRuntime(w).reconciled.Some?
    requires act.Step? && act.input.EffectSettled? && act.input.Valid() && act.fault == NoFault
    requires act.revision == |w.db.history| - 1 && act.ownerEpoch == w.db.ownerEpoch == act.input.effect.ownerEpoch
    requires MatchesReconciled(CurrentRuntime(w).reconciled.value, act.input.effect)
    requires Engine.TransitionIdOf(w.db.Current(), act.input) !in w.db.receipts
    ensures Changes(w, act)
  {
    RecordedSettlementBinds(w.db.Current(), slot, act.input.effect);
    SettlementIsSent(w.db, act);
    SettlementUnit(w.db, act);
  }

  lemma {:induction false} SettlementIsSent(db: Db, act: Act)
    requires act.Step? && act.input.EffectSettled? && act.input.Valid() && act.revision < |db.history|
    requires var version, s := db.history[act.revision], act.input.effect;
             && SettlementBinds(version, act.input, act.ownerEpoch)
             && s.outcome != Indeterminate
             && Engine.ProposeEffectSettlement(version, s).Ok?
    ensures UnitOf(db, act).Some?
    ensures var unit := UnitOf(db, act).value;
            && unit.transitionId == Engine.TransitionIdOf(db.history[act.revision], act.input)
            && unit.revision == db.history[act.revision].revision
            && unit.dispositions == [] && unit.evidence.None? && unit.mailboxCut.None?
  {
    Engine.TerminalSettlementPops(db.history[act.revision], act.input.effect);
  }

  /** What the world holds between the two recovery acts. */
  ghost predicate Reconciled(w: World, record: ReconciliationRecord, stamp: nat, mid: World)
    requires w.db.history != [] && CurrentRuntime(w).unknown.Some? && record.evidenceRef in w.db.evidence
  {
    var settle := RecoveryActs(w, record, stamp)[1];
    && mid.db.history != []
    && CurrentRuntime(mid).reconciled.Some?
    && MatchesReconciled(CurrentRuntime(mid).reconciled.value, settle.input.effect)
    && CurrentRuntime(mid).pending == CurrentRuntime(w).pending
    && HeadStatus(CurrentRuntime(mid)) == StatusOf(record.observed)
    && |mid.db.history| == |w.db.history| + 1
    && mid.db.ownerEpoch == w.db.ownerEpoch
    && Engine.TransitionIdOf(mid.db.Current(), settle.input) !in mid.db.receipts
    && mid.executions == w.executions
  }

  lemma {:induction false} ReconciliationLands(w: World, record: ReconciliationRecord, stamp: nat)
    requires w.db.history != [] && CanRecover(w, record) && Changes(w, RecoveryActs(w, record, stamp)[0])
    ensures Reconciled(w, record, stamp, Perform(w, RecoveryActs(w, record, stamp)[0]))
  {
    hide UnitOf, Refusal, ApplyMutations, SettlementBinds;
    CommitActCases(w, RecoveryActs(w, record, stamp)[0]);
    ReconciliationIsSent(w.db, RecoveryActs(w, record, stamp)[0]);
  }

  lemma {:induction false} ReconciliationIsSent(db: Db, act: Act)
    requires act.Reconcile? && UnitOf(db, act).Some?
    ensures act.revision < |db.history| && act.record.evidenceRef in db.evidence
    ensures var unit, e := UnitOf(db, act).value, db.evidence[act.record.evidenceRef];
            && ReconciledValue(db.history[act.revision].value, e, act.record) == Ok(unit.value)
            && unit.transitionId == act.record.transitionId && unit.revision == db.history[act.revision].revision
  {
    hide ReconciledValue;
  }

  /**
   Recovery always has a way forward: with evidence on record for the unknown effect under the
   current owner, and transition identities that are still free, a reconciliation followed by the
   settlement it dictates pops the head with the recorded outcome.
   */
  lemma {:induction false} RecoveryCompletes(w: World, record: ReconciliationRecord, stamp: nat)
    requires AgreementInv(w) && CanRecover(w, record)
    ensures var end := Runs(w, RecoveryActs(w, record, stamp));
            && AgreementInv(end)
            && CurrentRuntime(end).pending == CurrentRuntime(w).pending[1..]
            && record.effectId in end.db.effects
            && end.db.effects[record.effectId].status == StatusOf(record.observed)
            && end.executions == w.executions
  {
    var acts := RecoveryActs(w, record, stamp);
    var mid := Perform(w, acts[0]);
    ReconciliationCommits(w, record, stamp);
    ReconciliationLands(w, record, stamp);
    PerformKeepsAgreement(w, acts[0]);
    HeadIsUnknown(w);
    FinishRecovery(mid, acts[1]);
    PerformKeepsAgreement(mid, acts[1]);
    OnlyExecutionExecutes(mid, acts[1]);
    TwoActs(w, acts[0], acts[1]);
  }

  lemma {:induction false} TwoActs(w: World, first: Act, second: Act)
    requires w.db.history != []
    ensures Runs(w, [first, second]) == Perform(Perform(w, first), second)
  {
    hide Perform;
    assert [first, second][1..] == [second];
    assert Runs(Perform(w, first), [second]) == Runs(Perform(Perform(w, first), second), [second][1..]);
  }

  lemma {:induction false} HeadIsUnknown(w: World)
    requires AgreementInv(w) && Frozen(w)
    ensures CurrentRuntime(w).pending != []
    ensures CurrentRuntime(w).pending[0].effectId == CurrentRuntime(w).unknown.value.authorization.effectId
  {
  }

  lemma {:induction false} FinishCommits(mid: World, act: Act)
    requires AgreementInv(mid) && CurrentRuntime(mid).reconciled.Some?
    requires act.Step? && act.input.EffectSettled? && act.input.Valid() && act.fault == NoFault
    requires act.revision == |mid.db.history| - 1 && act.ownerEpoch == mid.db.ownerEpoch == act.input.effect.ownerEpoch
    requires MatchesReconciled(CurrentRuntime(mid).reconciled.value, act.input.effect)
    requires Engine.TransitionIdOf(mid.db.Current(), act.input) !in mid.db.receipts
    ensures Changes(mid, act) && CurrentRuntime(mid).pending != []
  {
    assert VersionInv(mid.db, act.revision);
    RecordedSettlementCommits(mid, act, mid.db.effects[CurrentRuntime(mid).pending[0].effectId]);
  }

  lemma {:induction false} FinishRecovery(mid: World, act: Act)
    requires AgreementInv(mid) && CurrentRuntime(mid).reconciled.Some?
    requires act.Step? && act.input.EffectSettled? && act.input.Valid() && act.fault == NoFault
    requires act.revision == |mid.db.history| - 1 && act.ownerEpoch == mid.db.ownerEpoch == act.input.effect.ownerEpoch
    requires MatchesReconciled(CurrentRuntime(mid).reconciled.value, act.input.effect)
    requires Engine.TransitionIdOf(mid.db.Current(), act.input) !in mid.db.receipts
    ensures CurrentRuntime(mid).pending != []
    ensures var end, head := Perform(mid, act), CurrentRuntime(mid).pending[0].effectId;
            && end.db.history != []
            && CurrentRuntime(end).pending == CurrentRuntime(mid).pending[1..]
            && head in end.db.effects && end.db.effects[head].status == HeadStatus(CurrentRuntime(mid))
  {
    FinishCommits(mid, act);
    HeadInLedger(mid);
    OnlyRecordedOutcomeSettles(mid, act);
  }

  lemma {:induction false} OnlyExecutionExecutes(w: World, act: Act)
    requires w.db.history != [] && !act.Execute?
    ensures Perform(w, act).executions == w.executions
  {
  }

  // ---------- Rounds ----------

  ghost predicate RoundInv(w: World)
    requires w.db.history != []
  {
    CurrentRuntime(w).modelRequest.Some? ==>
      CurrentRuntime(w).modelRequest.value == ModelRequestOf(w.db.run, CurrentRuntime(w).round + 1)
  }

  predicate StartsOver(act: Act) {
    act.Step? && act.input.Initial?
  }

  function RoundsAfter(version: StateVersion, input: StepInput): nat {
    match input
    case Initial(_, _, _) => 0
    case ModelCompleted(_) => Engine.RuntimeOf(version.value).round + 1
    case _ => Engine.RuntimeOf(version.value).round
  }

  /** A proposal either leaves the active request alone, drops it, or asks for the next round. */
  lemma {:induction false} ProposalRound(version: StateVersion, input: StepInput)
    requires Engine.Propose(version, input).Ok?
    ensures var after := Engine.RuntimeOf(Engine.Propose(version, input).value.value);
            && after.round == RoundsAfter(version, input)
            && (input.ModelCompleted? ==> after.modelRequest.None?)
            && (input.Initial? ==> after.modelRequest == Some(ModelRequestOf(version.run, 1)))
            && (input.Settles() ==>
                  || after.modelRequest == Engine.RuntimeOf(version.value).modelRequest
                  || after.modelRequest == Some(ModelRequestOf(version.run, after.round + 1)))
  {
    hide Engine.EffectObjection, Engine.TerminalProposal;
    match input {
      case Initial(_, _, _) =>
      case ModelCompleted(_) =>
      case EffectSettled(s) =>
        if s.outcome != Indeterminate {
          Engine.TerminalSettlementPops(version, s);
        }
      case ApprovalResolved(s) =>
        if !s.approved {
          Engine.DenialPops(version, s);
        }
    }
  }

  lemma {:induction false} UnitRound(db: Db, act: Act)
    requires UnitOf(db, act).Some?
    ensures var version, after := db.history[act.revision], Engine.RuntimeOf(UnitOf(db, act).value.value);
            var before := Engine.RuntimeOf(version.value);
            && after.round == (if act.Step? then RoundsAfter(version, act.input) else before.round)
            && (after.modelRequest.None? || after.modelRequest == Some(ModelRequestOf(version.run, after.round + 1))
                || (after.modelRequest == before.modelRequest && after.round == before.round))
            && (act.Step? && act.input.ModelCompleted? ==> before.modelRequest == Some(act.input.result.requestId))
  {
    hide Engine.ProposeEffectSettlement, MutationsFor;
    if act.Step? {
      ProposalRound(db.history[act.revision], act.input);
    }
  }

  lemma {:induction false} ChangedState(w: World, act: Act)
    requires LogInv(w.db) && Changes(w, act)
    ensures var next := Perform(w, act).db;
            && next.history != [] && next.run == w.db.run
            && next.Current().value == UnitOf(w.db, act).value.value
            && w.db.history[act.revision] == w.db.Current()
            && w.db.Current().run == w.db.run
  {
    hide Engine.Propose, Refusal, ApplyMutations, UnitOf, CommitAct;
    CommitActCases(w, act);
    ChangeIsHonest(w, act);
    assert VersionInv(w.db, act.revision);
  }

  lemma {:induction false} UnchangedState(w: World, act: Act)
    requires w.db.history != [] && !Changes(w, act)
    ensures var next := Perform(w, act).db;
            next.history == w.db.history && next.run == w.db.run
  {
    UnchangedHistory(w, act);
  }

  predicate Completes(act: Act) {
    act.Step? && act.input.ModelCompleted?
  }

  lemma {:induction false} PerformRound(w: World, act: Act)
    requires LogInv(w.db) && RoundInv(w)
    ensures Perform(w, act).db.history != [] && Perform(w, act).db.run == w.db.run
    ensures RoundInv(Perform(w, act))
    ensures !StartsOver(act) ==>
      CurrentRuntime(Perform(w, act)).round
      == CurrentRuntime(w).round + if Changes(w, act) && Completes(act) then 1 else 0
    ensures Changes(w, act) && Completes(act) ==>
      act.input.result.requestId == ModelRequestOf(w.db.run, CurrentRuntime(w).round + 1)
  {
    hide Engine.ProposeApprovalResolution, UnitOf, CommitAct, Perform, VersionInv;
    if Changes(w, act) {
      ChangedState(w, act);
      UnitRound(w.db, act);
    } else {
      UnchangedState(w, act);
    }
  }

  /**
   Until the next `Initial`, a completion is consumed once: a result for a round that is already
   over is refused, however the run continues.
   */
  lemma {:induction false} StaleCompletionIsRefused(w: World, acts: seq<Act>, act: Act, k: nat)
    requires SafetyInv(w) && RoundInv(w)
    requires forall i :: 0 <= i < |acts| ==> !StartsOver(acts[i])
    requires Completes(act) && act.input.result.requestId == ModelRequestOf(w.db.run, k)
    requires k <= CurrentRuntime(w).round
    ensures !Changes(Runs(w, acts), act)
    decreases |acts|
  {
    if acts == [] {
      PerformRound(w, act);
    } else {
      PerformKeepsSafety(w, acts[0]);
      PerformRound(w, acts[0]);
      var rest := acts[1..];
      assert forall i :: 0 <= i < |rest| ==> rest[i] == acts[i + 1];
      StaleCompletionIsRefused(Perform(w, acts[0]), rest, act, k);
    }
  }

  /** The result that was just consumed is such a result. */
  lemma {:induction false} CompletionIsConsumedOnce(w: World, first: Act, acts: seq<Act>, second: Act)
    requires SafetyInv(w) && RoundInv(w) && Changes(w, first) && Completes(first)
    requires forall i :: 0 <= i < |acts| ==> !StartsOver(acts[i])
    requires Completes(second)
    requires second.input.result.requestId == first.input.result.requestId
    ensures !Changes(Runs(Perform(w, first), acts), second)
  {
    PerformKeepsSafety(w, first);
    PerformRound(w, first);
    StaleCompletionIsRefused(Perform(w, first), acts, second, CurrentRuntime(w).round + 1);
  }

  /** An `Initial` starts the rounds over: it asks again under the identity of the first round. */
  lemma {:induction false} InitialReusesFirstRequest(w: World, act: Act)
    requires LogInv(w.db) && RoundInv(w) && Changes(w, act) && StartsOver(act)
    ensures Perform(w, act).db.history != []
    ensures CurrentRuntime(Perform(w, act)).modelRequest == Some(ModelRequestOf(w.db.run, 1))
  {
    ChangedState(w, act);
    ProposalRound(w.db.Current(), act.input);
  }

  // ---------- The guard on `Initial`, and the case that slips past it ----------

  /** A committed `Initial` keeps state and ledger in agreement exactly when no effect recovery is outstanding. */
  lemma {:induction false} InitialKeepsAgreementExactly(w: World, act: Act)
    requires AgreementInv(w) && Changes(w, act) && StartsOver(act)
    ensures AgreementInv(Perform(w, act)) <==> !HasOutstandingRecovery(w.db.Current().value)
  {
    ChangedState(w, act);
    if HasOutstandingRecovery(w.db.Current().value) {
      CommitActCases(w, act);
      InitialForgetsQueue(w, act);
    } else {
      PerformKeepsAgreement(w, act);
    }
  }

  lemma {:induction false} InitialForgetsQueue(w: World, act: Act)
    requires AgreementInv(w) && Changes(w, act) && StartsOver(act) && HasOutstandingRecovery(w.db.Current().value)
    ensures !AgreementInv(Perform(w, act))
  {
    hide LogInv, PermitsBind;
    ChangedState(w, act);
    CommitActCases(w, act);
    var next := Perform(w, act);
    assert CurrentRuntime(w).pending != [];
    assert Appended(next) == Appended(w);
    assert Owed(Appended(w)) == Some(PlanIds(CurrentRuntime(w).pending));
    assert |PlanIds(CurrentRuntime(next).pending)| == 0;
  }

  const RUN := Host("run")
  const CALL := ToolCall("call", "tool", "{}", None, false, None)

  function AdmittedWorld(): World {
    World(Db(RUN, 1, 0, [StateVersion(RUN, 0, Host("admission"), StateValue(None, []))], [], map[], map[], [], map[],
             map[]),
          map[], [])
  }

  function StartAct(revision: nat, name: string): Act {
    Step(revision, Initial(Host(name), [], 0), 1, 0, NoFault)
  }

  function CallAct(): Act {
    Step(1, ModelCompleted(ModelResult(Host("result"), ModelRequestOf(RUN, 1), "", None, [CALL])), 1, 0, NoFault)
  }

  function CallTransition(): Id {
    StepTransition(RUN, ModelKind, Host("result"))
  }

  function CallEffect(): Id {
    EffectOf(CallTransition(), 0)
  }

  ghost predicate IsStarted(w: World) {
    && |w.db.history| == 2 && w.db.history[1].revision == 1 && w.db.history[1].run == RUN
    && w.db.history[0] == AdmittedWorld().db.history[0]
    && w.db.run == RUN && w.db.ownerEpoch == 1 && w.db.effects == map[]
    && w.db.receipts.Keys == {StepTransition(RUN, InitialKind, Host("first"))}
    && w.db.history[1].value.runtime
       == Some(RuntimeState(0, 0, [], [], Some(ModelRequestOf(RUN, 1)), None, None, None, None))
  }

  ghost predicate IsBusy(w: World) {
    && |w.db.history| == 3 && w.db.history[2].revision == 2 && w.db.history[2].run == RUN
    && w.db.history[0] == AdmittedWorld().db.history[0]
    && w.db.run == RUN && w.db.ownerEpoch == 1
    && w.db.effects == map[CallEffect() := Slot(Prepared, AttemptOf(CallEffect()), None, None)]
    && w.db.receipts.Keys == {StepTransition(RUN, InitialKind, Host("first")), CallTransition()}
  }

  ghost predicate IsAdmitted(w: World) {
    && w.db.history == [AdmittedWorld().db.history[0]]
    && w.db.run == RUN && w.db.ownerEpoch == 1 && w.db.mailboxCut == 0
    && w.db.effects == map[] && w.db.receipts == map[]
  }

  lemma {:induction false} FirstCoordinatorStarts(w: World)
    requires IsAdmitted(w)
    ensures IsStarted(Perform(w, StartAct(0, "first")))
  {
    StartUnit(w.db, 0, "first");
    assert Changes(w, StartAct(0, "first"));
    CommitActCases(w, StartAct(0, "first"));
  }

  lemma {:induction false} FirstCoordinatorPreparesCall(w: World)
    requires IsStarted(w)
    ensures IsBusy(Perform(w, CallAct()))
  {
    hide Engine.Propose, ApplyMutations, UnitOf;
    FirstCallIsSent(w);
    hide UnitOf;
    var unit := UnitOf(w.db, CallAct()).value;
    OneMutation(map[], 1, unit.transitionId, unit.mutations[0]);
    CommitActCases(w, CallAct());
  }

  lemma {:induction false} FirstCallIsSent(w: World)
    requires IsStarted(w)
    ensures UnitOf(w.db, CallAct()).Some?
    ensures var unit := UnitOf(w.db, CallAct()).value;
            && unit.transitionId == CallTransition() && unit.revision == 1
            && unit.mutations == [Prepare(Engine.PlanFor(CallTransition(), CALL, 0))]
            && unit.dispositions == [] && unit.evidence.None? && unit.mailboxCut.None?
  {
    CompletionUnit(w.db, CallAct());
  }

  lemma {:induction false} StartUnit(db: Db, revision: nat, name: string)
    requires revision < |db.history|
    ensures UnitOf(db, StartAct(revision, name)).Some?
    ensures var unit := UnitOf(db, StartAct(revision, name)).value;
            && unit.transitionId == StepTransition(db.history[revision].run, InitialKind, Host(name))
            && unit.revision == db.history[revision].revision
            && unit.mutations == [] && unit.dispositions == [] && unit.evidence.None? && unit.mailboxCut.None?
            && Engine.RuntimeOf(unit.value).pending == []
  {
    assert UnitOf(db, StartAct(revision, name)).value.mutations == [];
  }

  lemma {:induction false} SecondCoordinatorConflicts(w: World)
    requires IsBusy(w)
    ensures GuardedAct(w, StartAct(0, "second"))
    ensures CommitAct(w, StartAct(0, "second")) == (w, CasConflict(w.db.history[2]))
  {
    hide Engine.Propose, Apply, UnitOf;
    StartUnit(w.db, 0, "second");
  }

  lemma {:induction false} SecondCoordinatorOrphans(w: World)
    requires IsBusy(w)
    ensures var end := Perform(w, StartAct(2, "second"));
            && end.db.history != [] && CurrentRuntime(end).pending == []
            && CallEffect() in end.db.effects && end.db.effects[CallEffect()].status == Prepared
  {
    hide Engine.Propose, UnitOf;
    StartUnit(w.db, 2, "second");
    assert Changes(w, StartAct(2, "second"));
    CommitActCases(w, StartAct(2, "second"));
  }

  /**
   Two coordinators start the same run. The second one's `Initial` passes the guard on the state it
   was given, meets a compare-and-swap conflict, and is proposed again on the newer state without
   the guard: the prepared effect of the first coordinator is forgotten by the queue for good.
   */
  lemma {:induction false} ConflictedInitialOrphansEffect() returns (busy: World, end: World)
    ensures Fresh(AdmittedWorld())
    ensures busy == Runs(AdmittedWorld(), [StartAct(0, "first"), CallAct()])
    ensures GuardedAct(busy, StartAct(0, "second"))
    ensures CommitAct(busy, StartAct(0, "second")) == (busy, CasConflict(busy.db.Current()))
    ensures end == Perform(busy, StartAct(2, "second"))
    ensures CurrentRuntime(end).pending == []
    ensures CallEffect() in end.db.effects && end.db.effects[CallEffect()].status == Prepared
  {
    FirstCoordinatorStarts(AdmittedWorld());
    FirstCoordinatorPreparesCall(Perform(AdmittedWorld(), StartAct(0, "first")));
    TwoActs(AdmittedWorld(), StartAct(0, "first"), CallAct());
    busy := Runs(AdmittedWorld(), [StartAct(0, "first"), CallAct()]);
    SecondCoordinatorConflicts(busy);
    SecondCoordinatorOrphans(busy);
    end := Perform(busy, StartAct(2, "second"));
  }
}

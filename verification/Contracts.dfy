/**
 The host-neutral values that the engine, the coordinator and the commit store exchange.
 Identifiers that the program builds by string formatting are constructors here, so two
 formatted identifiers are equal exactly when their parts are.
 */
module Contracts {
  import opened Wrappers

  datatype InputKind = InitialKind | ModelKind | EffectKind | ApprovalKind

  datatype Id =
    | Host(name: string)
    | StepTransition(run: Id, kind: InputKind, input: Id)
    | DispatchTransition(prepared: Id, effect: Id, attempt: Id)
    | EffectOf(transition: Id, index: nat)
    | AttemptOf(effect: Id)
    | SettlementOf(authorization: Id, attempt: Id)
    | SettledOf(reconciliation: Id)
    | ModelRequestOf(run: Id, round: nat)

  /** A JSON value, by its serialised text. */
  type Json = string

  // ---------- Effects ----------

  datatype EffectStatus = Prepared | Rejected | Dispatched | Completed | Failed | Unknown

  predicate LegalTransition(from: EffectStatus, to: EffectStatus) {
    match from
    case Prepared => to == Rejected || to == Dispatched
    case Dispatched => to == Completed || to == Failed || to == Unknown
    case Unknown => to == Completed || to == Failed
    case _ => false
  }

  predicate Terminal(status: EffectStatus) {
    status == Rejected || status == Completed || status == Failed
  }

  datatype Outcome = OutcomeCompleted | OutcomeFailed | Indeterminate

  function StatusOf(outcome: Outcome): EffectStatus {
    match outcome
    case OutcomeCompleted => Completed
    case OutcomeFailed => Failed
    case Indeterminate => Unknown
  }

  datatype EffectPlan = EffectPlan(
    effectId: Id,
    attemptId: Id,
    toolCallId: string,
    toolName: string,
    arguments: Json,
    idempotencyKey: Option<string>,
    requiresApproval: bool,
    approvalRequestId: Option<string>)

  datatype ReconciliationRecord = ReconciliationRecord(
    effectId: Id,
    attemptId: Id,
    observed: Outcome,
    evidenceRef: Id,
    ownerEpoch: nat,
    transitionId: Id)

  datatype EffectMutation = EffectMutation(
    effectId: Id,
    attemptId: Id,
    expected: Option<EffectStatus>,
    status: EffectStatus,
    reconciliation: Option<ReconciliationRecord>)

  predicate ValidMutation(m: EffectMutation) {
    && (match m.expected
        case None => m.status == Prepared
        case Some(from) => LegalTransition(from, m.status))
    && (if m.expected == Some(Unknown) then
          && m.reconciliation.Some?
          && m.reconciliation.value.effectId == m.effectId
          && m.reconciliation.value.attemptId == m.attemptId
          && StatusOf(m.reconciliation.value.observed) == m.status
        else
          m.reconciliation.None?)
  }

  function Prepare(plan: EffectPlan): EffectMutation {
    EffectMutation(plan.effectId, plan.attemptId, None, Prepared, None)
  }

  // ---------- Step inputs ----------

  datatype Command = Command(commandId: string, payload: Json)

  datatype ToolCall = ToolCall(
    toolCallId: string,
    name: string,
    arguments: Json,
    idempotencyKey: Option<string>,
    requiresApproval: bool,
    approvalRequestId: Option<string>)

  datatype ModelResult = ModelResult(
    resultId: Id,
    requestId: Id,
    content: string,
    thinking: Option<string>,
    calls: seq<ToolCall>)

  datatype EffectSettlement = EffectSettlement(
    inputId: Id,
    toolCallId: string,
    toolName: string,
    effectId: Id,
    attemptId: Id,
    authorizationId: Id,
    ownerEpoch: nat,
    outcome: Outcome,
    result: Json,
    reasonCode: Option<string>,
    reasonMessage: Option<string>)

  datatype ApprovalSettlement = ApprovalSettlement(
    inputId: Id,
    commandId: string,
    toolCallId: string,
    toolName: string,
    effectId: Id,
    attemptId: Id,
    transitionId: Id,
    ownerEpoch: nat,
    approved: bool,
    rejectionCode: Option<string>,
    rejectionMessage: Option<string>)

  datatype StepInput =
    | Initial(inputId: Id, commands: seq<Command>, mailboxCut: nat)
    | ModelCompleted(result: ModelResult)
    | EffectSettled(effect: EffectSettlement)
    | ApprovalResolved(approval: ApprovalSettlement)
  {
    function InputId(): Id {
      match this
      case Initial(id, _, _) => id
      case ModelCompleted(result) => result.resultId
      case EffectSettled(settlement) => settlement.inputId
      case ApprovalResolved(settlement) => settlement.inputId
    }

    function Kind(): InputKind {
      match this
      case Initial(_, _, _) => InitialKind
      case ModelCompleted(_) => ModelKind
      case EffectSettled(_) => EffectKind
      case ApprovalResolved(_) => ApprovalKind
    }

    predicate Settles() {
      EffectSettled? || ApprovalResolved?
    }

    /** What the constructors of the input classes insist on. */
    predicate Valid() {
      match this
      case Initial(_, commands, _) =>
        forall i, j :: 0 <= i < j < |commands| ==> commands[i].commandId != commands[j].commandId
      case ModelCompleted(result) =>
        && (forall i, j :: 0 <= i < j < |result.calls| ==> result.calls[i].toolCallId != result.calls[j].toolCallId)
        && (forall i :: 0 <= i < |result.calls| ==>
             result.calls[i].requiresApproval == result.calls[i].approvalRequestId.Some?)
      case EffectSettled(s) =>
        if s.outcome == OutcomeCompleted then s.reasonCode.None? && s.reasonMessage.None?
        else s.reasonCode.Some? && s.reasonMessage.Some?
      case ApprovalResolved(s) =>
        if s.approved then s.rejectionCode.None? && s.rejectionMessage.None?
        else s.rejectionCode.Some? && s.rejectionMessage.Some?
    }
  }

  // ---------- Engine state ----------

  datatype Authorization = Authorization(
    effectId: Id,
    attemptId: Id,
    toolCallId: string,
    toolName: string,
    transitionId: Id,
    ownerEpoch: nat)

  datatype UnknownEffect = UnknownEffect(authorization: Authorization, indeterminateInputId: Id)

  datatype ReconciledEffect = ReconciledEffect(
    unknown: UnknownEffect,
    reconciliationId: Id,
    evidenceRef: Id,
    ownerEpoch: nat,
    reconciledInputId: Id,
    outcome: Outcome,
    result: Json,
    reasonCode: Option<string>,
    reasonMessage: Option<string>)

  datatype RuntimeState = RuntimeState(
    round: nat,
    mailboxCut: nat,
    commands: seq<Command>,
    pending: seq<EffectPlan>,
    modelRequest: Option<Id>,
    lastContent: Option<string>,
    active: Option<Authorization>,
    unknown: Option<UnknownEffect>,
    reconciled: Option<ReconciledEffect>)

  datatype Content = Plain(json: Json) | Denial(code: string, message: Option<string>)

  datatype CallRef = CallRef(toolCallId: string, name: string, arguments: Json)

  datatype Message =
    | Assistant(text: string, calls: seq<CallRef>)
    | ToolResult(toolCallId: string, name: string, content: Content, isError: bool)
    | Other(text: string)

  datatype StateValue = StateValue(runtime: Option<RuntimeState>, messages: seq<Message>)

  datatype StateVersion = StateVersion(run: Id, revision: nat, transitionId: Id, value: StateValue)

  // ---------- Proposals ----------

  datatype Fact =
    | AssistantFact(transition: Id, text: string)
    | ThinkingFact(transition: Id, text: string)
    | ToolCallFact(transition: Id, toolCallId: string, toolName: string, arguments: Json, effectId: Id, attemptId: Id)
    | ApprovalRequestedFact(
        transition: Id,
        requestId: Option<string>,
        toolCallId: string,
        toolName: string,
        arguments: Json,
        effectId: Id,
        attemptId: Id)
    | ToolResultFact(transition: Id, toolCallId: string, effectId: Id, attemptId: Id, content: Content, isError: bool)

  datatype Disposition = Applied(commandId: string) | Refused(commandId: string, reason: string)

  datatype ModelRequest = ModelRequest(requestId: Id, round: nat, commands: seq<Command>, messages: seq<Message>)

  datatype ActionKind = Dispatch | ApprovalWait

  datatype NextAction =
    | Generate(request: ModelRequest)
    | PreparedEffect(plan: EffectPlan, kind: ActionKind)
    | Finish(text: string, reason: string)
    | Blocked(reason: string, plan: EffectPlan)
    | YieldSafely(reason: string)

  datatype Proposal = Proposal(
    transitionId: Id,
    value: StateValue,
    next: NextAction,
    facts: seq<Fact>,
    dispositions: seq<Disposition>,
    plans: seq<EffectPlan>)

  // ---------- Bindings between a settlement and the state it settles ----------

  predicate HasOutstandingRecovery(value: StateValue) {
    match value.runtime
    case None => false
    case Some(rt) => rt.pending != [] || rt.unknown.Some? || rt.reconciled.Some?
  }

  predicate IsHead(plans: seq<EffectPlan>, effectId: Id, attemptId: Id, toolCallId: string, toolName: string) {
    && plans != []
    && plans[0].effectId == effectId
    && plans[0].attemptId == attemptId
    && plans[0].toolCallId == toolCallId
    && plans[0].toolName == toolName
  }

  predicate MatchesReconciled(marker: ReconciledEffect, s: EffectSettlement) {
    && s.inputId == marker.reconciledInputId
    && s.effectId == marker.unknown.authorization.effectId
    && s.attemptId == marker.unknown.authorization.attemptId
    && s.toolCallId == marker.unknown.authorization.toolCallId
    && s.toolName == marker.unknown.authorization.toolName
    && s.authorizationId == marker.unknown.authorization.transitionId
    && s.outcome == marker.outcome
    && s.result == marker.result
    && s.reasonCode == marker.reasonCode
    && s.reasonMessage == marker.reasonMessage
  }

  /** `_validate_settlement_binding`: the settlement names the head plan and the transition that owns it. */
  predicate SettlementBinds(version: StateVersion, input: StepInput, ownerEpoch: nat)
    requires input.Settles()
  {
    && version.value.runtime.Some?
    && var rt := version.value.runtime.value;
       match input
       case EffectSettled(s) =>
         && s.ownerEpoch == ownerEpoch
         && (rt.reconciled.Some? || rt.active.Some?)
         && (rt.reconciled.Some? ==> MatchesReconciled(rt.reconciled.value, s))
         && s.authorizationId == (if rt.reconciled.Some? then rt.reconciled.value.unknown.authorization.transitionId
                                  else rt.active.value.transitionId)
         && IsHead(rt.pending, s.effectId, s.attemptId, s.toolCallId, s.toolName)
       case ApprovalResolved(s) =>
         && s.ownerEpoch == ownerEpoch
         && s.transitionId == version.transitionId
         && IsHead(rt.pending, s.effectId, s.attemptId, s.toolCallId, s.toolName)
  }
}

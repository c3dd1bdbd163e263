/**
 `AgentEngine`: one deterministic proposal from a committed state version and a step input.
 `Err` stands for the exception that the engine raises.
 */
module Engine {
  import opened Wrappers
  import opened Contracts

  function TransitionIdOf(version: StateVersion, input: StepInput): Id {
    StepTransition(version.run, input.Kind(), input.InputId())
  }

  function RuntimeOf(value: StateValue): RuntimeState {
    match value.runtime
    case Some(rt) => rt
    case None => RuntimeState(0, 0, [], [], None, None, None, None, None)
  }

  function WithRuntime(value: StateValue, rt: RuntimeState): StateValue {
    value.(runtime := Some(rt))
  }

  function AppendMessage(value: StateValue, message: Message): StateValue {
    value.(messages := value.messages + [message])
  }

  function PreparedAction(plan: EffectPlan): NextAction {
    PreparedEffect(plan, if plan.requiresApproval then ApprovalWait else Dispatch)
  }

  function RequestFor(run: Id, value: StateValue): ModelRequest {
    var rt := RuntimeOf(value);
    ModelRequest(ModelRequestOf(run, rt.round + 1), rt.round + 1, rt.commands, value.messages)
  }

  function ActivateModelRequest(run: Id, value: StateValue): (StateValue, ModelRequest) {
    var request := RequestFor(run, value);
    (WithRuntime(value, RuntimeOf(value).(modelRequest := Some(request.requestId))), request)
  }

  // ---------- Initial input ----------

  function ProposeInitial(version: StateVersion, input: StepInput): Proposal
    requires input.Initial?
  {
    var rt := RuntimeState(0, input.mailboxCut, input.commands, [], None, None, None, None, None);
    var (value, request) := ActivateModelRequest(version.run, WithRuntime(version.value, rt));
    Proposal(TransitionIdOf(version, input), value, Generate(request), [], [], [])
  }

  // ---------- Model completion ----------

  function PlanFor(transition: Id, call: ToolCall, index: nat): EffectPlan {
    var effect := EffectOf(transition, index);
    EffectPlan(effect, AttemptOf(effect), call.toolCallId, call.name, call.arguments,
               call.idempotencyKey, call.requiresApproval, call.approvalRequestId)
  }

  function PlansFor(transition: Id, calls: seq<ToolCall>): (plans: seq<EffectPlan>)
    ensures |plans| == |calls|
    ensures forall i :: 0 <= i < |calls| ==> plans[i] == PlanFor(transition, calls[i], i)
  {
    seq(|calls|, i requires 0 <= i < |calls| => PlanFor(transition, calls[i], i))
  }

  function FactsOfPlan(transition: Id, plan: EffectPlan): seq<Fact> {
    [ToolCallFact(transition, plan.toolCallId, plan.toolName, plan.arguments, plan.effectId, plan.attemptId)]
    + if plan.requiresApproval then
        [ApprovalRequestedFact(transition, plan.approvalRequestId, plan.toolCallId, plan.toolName, plan.arguments,
                               plan.effectId, plan.attemptId)]
      else []
  }

  function FactsOfPlans(transition: Id, plans: seq<EffectPlan>): seq<Fact> {
    if plans == [] then []
    else FactsOfPlans(transition, plans[..|plans| - 1]) + FactsOfPlan(transition, plans[|plans| - 1])
  }

  function OpeningFacts(transition: Id, result: ModelResult): seq<Fact> {
    [AssistantFact(transition, result.content)]
    + if result.thinking.Some? then [ThinkingFact(transition, result.thinking.value)] else []
  }

  function CallRefs(calls: seq<ToolCall>): (refs: seq<CallRef>)
    ensures |refs| == |calls|
    ensures forall i :: 0 <= i < |calls| ==> refs[i] == CallRef(calls[i].toolCallId, calls[i].name, calls[i].arguments)
  {
    seq(|calls|, i requires 0 <= i < |calls| => CallRef(calls[i].toolCallId, calls[i].name, calls[i].arguments))
  }

  function CompletionProposal(version: StateVersion, result: ModelResult): (p: Proposal)
    ensures p.plans == PlansFor(TransitionIdOf(version, ModelCompleted(result)), result.calls)
  {
    var transition := TransitionIdOf(version, ModelCompleted(result));
    var rt := RuntimeOf(version.value);
    var plans := PlansFor(transition, result.calls);
    var updated := rt.(modelRequest := None, round := rt.round + 1, pending := plans,
                       lastContent := Some(result.content));
    var value := AppendMessage(WithRuntime(version.value, updated), Assistant(result.content, CallRefs(result.calls)));
    var next := if plans != [] then PreparedAction(plans[0]) else Finish(result.content, "no_tool_calls");
    Proposal(transition, value, next, OpeningFacts(transition, result) + FactsOfPlans(transition, plans), [], plans)
  }

  function ProposeModelCompletion(version: StateVersion, result: ModelResult): Result<Proposal> {
    var rt := RuntimeOf(version.value);
    if rt.modelRequest.None? then Err("model completion requires an active model request")
    else if rt.modelRequest.value != result.requestId then
      Err("model completion request_id must match the active model request")
    else Ok(CompletionProposal(version, result))
  }

  /** The loop of `_propose_model_completion` that lists the plans and the facts of the tool calls. */
  method ListPlansAndFacts(transition: Id, result: ModelResult) returns (plans: seq<EffectPlan>, facts: seq<Fact>)
    ensures plans == PlansFor(transition, result.calls)
    ensures facts == OpeningFacts(transition, result) + FactsOfPlans(transition, plans)
  {
    hide FactsOfPlan, PlanFor;
    facts := [AssistantFact(transition, result.content)];
    if result.thinking.Some? {
      facts := facts + [ThinkingFact(transition, result.thinking.value)];
    }
    plans := [];
    for index := 0 to |result.calls|
      invariant plans == PlansFor(transition, result.calls)[..index]
      invariant facts == OpeningFacts(transition, result) + FactsOfPlans(transition, plans)
    {
      var plan, planFacts := ListPlanAndFacts(transition, result.calls[index], index);
      ghost var before := plans;
      plans := plans + [plan];
      assert plans[..|plans| - 1] == before;
      facts := facts + planFacts;
    }
  }

  /** One pass through that loop. */
  method ListPlanAndFacts(transition: Id, call: ToolCall, index: nat) returns (plan: EffectPlan, facts: seq<Fact>)
    ensures plan == PlanFor(transition, call, index)
    ensures facts == FactsOfPlan(transition, plan)
  {
    plan := EffectPlan(EffectOf(transition, index), AttemptOf(EffectOf(transition, index)), call.toolCallId,
                       call.name, call.arguments, call.idempotencyKey, call.requiresApproval,
                       call.approvalRequestId);
    facts := [ToolCallFact(transition, call.toolCallId, call.name, call.arguments, plan.effectId, plan.attemptId)];
    if call.requiresApproval {
      facts := facts + [ApprovalRequestedFact(transition, call.approvalRequestId, call.toolCallId, call.name,
                                              call.arguments, plan.effectId, plan.attemptId)];
    }
  }

  // ---------- Effect settlement ----------

  /** The marker that a settlement must repeat: the reconciled effect, else the active one, else the unknown one. */
  function RetainedAuthorization(rt: RuntimeState): Option<Authorization> {
    if rt.reconciled.Some? then Some(rt.reconciled.value.unknown.authorization)
    else if rt.active.Some? then rt.active
    else if rt.unknown.Some? then Some(rt.unknown.value.authorization)
    else None
  }

  predicate MatchesAuthorization(a: Authorization, s: EffectSettlement) {
    && a.effectId == s.effectId
    && a.attemptId == s.attemptId
    && a.toolCallId == s.toolCallId
    && a.toolName == s.toolName
    && a.transitionId == s.authorizationId
  }

  /** The proposal tail shared by a terminal settlement and a denied approval: what follows the popped head. */
  function AfterPop(version: StateVersion, transition: Id, value: StateValue, remaining: seq<EffectPlan>,
                    facts: seq<Fact>, dispositions: seq<Disposition>): Proposal {
    if remaining != [] then
      Proposal(transition, value, PreparedAction(remaining[0]), facts, dispositions, [])
    else
      var (activated, request) := ActivateModelRequest(version.run, value);
      Proposal(transition, activated, Generate(request), facts, dispositions, [])
  }

  /** The first check that raises, in the order of the program. */
  function EffectObjection(rt: RuntimeState, s: EffectSettlement): Option<string> {
    var retained := RetainedAuthorization(rt);
    if retained.None? then
      Some("effect settlement requires retained authorization")
    else if !MatchesAuthorization(retained.value, s) then
      Some("effect settlement must match retained authorization")
    else if !IsHead(rt.pending, s.effectId, s.attemptId, s.toolCallId, s.toolName) then
      Some("settlement does not match next effect plan")
    else if rt.reconciled.Some? && !MatchesReconciled(rt.reconciled.value, s) then
      Some("effect settlement must match reconciled effect")
    else if s.outcome != Indeterminate && rt.unknown.Some? && rt.reconciled.None? then
      Some("terminal UNKNOWN settlement requires committed reconciliation")
    else if s.outcome == Indeterminate && rt.reconciled.Some? then
      Some("reconciled effect cannot become indeterminate")
    else if s.outcome == Indeterminate && rt.active.None? then
      Some("indeterminate effect settlement requires retained authorization")
    else
      None
  }

  function IndeterminateProposal(version: StateVersion, rt: RuntimeState, s: EffectSettlement): Proposal
    requires rt.pending != [] && rt.active.Some?
  {
    var updated := rt.(unknown := Some(UnknownEffect(rt.active.value, s.inputId)));
    Proposal(TransitionIdOf(version, EffectSettled(s)), WithRuntime(version.value, updated),
             Blocked("indeterminate_dispatch", rt.pending[0]), [], [], [])
  }

  function TerminalProposal(version: StateVersion, rt: RuntimeState, s: EffectSettlement): Proposal
    requires rt.pending != []
  {
    var transition := TransitionIdOf(version, EffectSettled(s));
    var isError := s.outcome != OutcomeCompleted;
    var updated := rt.(pending := rt.pending[1..], active := None, unknown := None, reconciled := None);
    var value := AppendMessage(WithRuntime(version.value, updated),
                               ToolResult(s.toolCallId, s.toolName, Plain(s.result), isError));
    var fact := ToolResultFact(transition, s.toolCallId, s.effectId, s.attemptId, Plain(s.result), isError);
    AfterPop(version, transition, value, rt.pending[1..], [fact], [])
  }

  function ProposeEffectSettlement(version: StateVersion, s: EffectSettlement): Result<Proposal> {
    var rt := RuntimeOf(version.value);
    match EffectObjection(rt, s)
    case Some(message) => Err(message)
    case None =>
      if s.outcome == Indeterminate then Ok(IndeterminateProposal(version, rt, s))
      else Ok(TerminalProposal(version, rt, s))
  }

  // ---------- Approval resolution ----------

  function DenialProposal(version: StateVersion, rt: RuntimeState, s: ApprovalSettlement): Proposal
    requires rt.pending != [] && s.rejectionCode.Some?
  {
    var transition := TransitionIdOf(version, ApprovalResolved(s));
    var content := Denial(s.rejectionCode.value, s.rejectionMessage);
    var value := AppendMessage(WithRuntime(version.value, rt.(pending := rt.pending[1..])),
                               ToolResult(s.toolCallId, s.toolName, content, true));
    var fact := ToolResultFact(transition, s.toolCallId, s.effectId, s.attemptId, content, true);
    AfterPop(version, transition, value, rt.pending[1..], [fact], [Refused(s.commandId, s.rejectionCode.value)])
  }

  function ProposeApprovalResolution(version: StateVersion, s: ApprovalSettlement): Result<Proposal> {
    var rt := RuntimeOf(version.value);
    if s.transitionId != version.transitionId then
      Err("approval settlement transition_id must match owning committed transition")
    else if !IsHead(rt.pending, s.effectId, s.attemptId, s.toolCallId, s.toolName) then
      Err("settlement does not match next effect plan")
    else if !rt.pending[0].requiresApproval then
      Err("approval settlement does not match an approval-wait effect")
    else if s.approved then
      Ok(Proposal(TransitionIdOf(version, ApprovalResolved(s)), version.value,
                  PreparedEffect(rt.pending[0], Dispatch), [], [Applied(s.commandId)], []))
    else if s.rejectionCode.None? then
      Err("approval denial requires a rejection reason code")
    else
      Ok(DenialProposal(version, rt, s))
  }

  function Propose(version: StateVersion, input: StepInput): Result<Proposal> {
    match input
    case Initial(_, _, _) => Ok(ProposeInitial(version, input))
    case ModelCompleted(result) => ProposeModelCompletion(version, result)
    case EffectSettled(s) => ProposeEffectSettlement(version, s)
    case ApprovalResolved(s) => ProposeApprovalResolution(version, s)
  }

  // ---------- What a completion and a start ask for ----------

  /** How many of these calls must be approved. */
  function Asking(calls: seq<ToolCall>): nat {
    if calls == [] then 0
    else Asking(calls[..|calls| - 1]) + if calls[|calls| - 1].requiresApproval then 1 else 0
  }

  /**
   An accepted completion queues one plan for each call, with everything that the call says; it adds one
   assistant message with the calls, and nothing else changes but the round and the active request.
   */
  lemma {:induction false} CompletionQueues(version: StateVersion, result: ModelResult)
    requires Propose(version, ModelCompleted(result)).Ok?
    ensures var p, t := Propose(version, ModelCompleted(result)).value,
                        StepTransition(version.run, ModelKind, result.resultId);
            && p.transitionId == t && p.dispositions == [] && |p.plans| == |result.calls|
            && (forall i :: 0 <= i < |result.calls| ==>
                  && p.plans[i].effectId == EffectOf(t, i) && p.plans[i].attemptId == AttemptOf(EffectOf(t, i))
                  && p.plans[i].toolCallId == result.calls[i].toolCallId
                  && p.plans[i].toolName == result.calls[i].name
                  && p.plans[i].arguments == result.calls[i].arguments
                  && p.plans[i].idempotencyKey == result.calls[i].idempotencyKey
                  && p.plans[i].requiresApproval == result.calls[i].requiresApproval
                  && p.plans[i].approvalRequestId == result.calls[i].approvalRequestId)
    ensures var p, before := Propose(version, ModelCompleted(result)).value, version.value.runtime;
            && before.Some? && before.value.modelRequest == Some(result.requestId) && p.value.runtime.Some?
            && var after := p.value.runtime.value;
               && after.pending == p.plans && after.round == before.value.round + 1 && after.modelRequest.None?
               && after.lastContent == Some(result.content)
               && after.mailboxCut == before.value.mailboxCut && after.commands == before.value.commands
               && after.active == before.value.active && after.unknown == before.value.unknown
               && after.reconciled == before.value.reconciled
  {
  }

  lemma {:induction false} CompletionSpeaks(version: StateVersion, result: ModelResult)
    requires Propose(version, ModelCompleted(result)).Ok?
    ensures var p, n := Propose(version, ModelCompleted(result)).value, |version.value.messages|;
            && |p.value.messages| == n + 1 && p.value.messages[..n] == version.value.messages
            && p.value.messages[n].Assistant? && p.value.messages[n].text == result.content
            && |p.value.messages[n].calls| == |result.calls|
            && (forall i :: 0 <= i < |result.calls| ==>
                  && p.value.messages[n].calls[i].toolCallId == result.calls[i].toolCallId
                  && p.value.messages[n].calls[i].name == result.calls[i].name
                  && p.value.messages[n].calls[i].arguments == result.calls[i].arguments)
  {
  }

  /** The first call decides what comes next: its dispatch, or the wait for its approval; without calls the run ends. */
  lemma {:induction false} CompletionGoesOn(version: StateVersion, result: ModelResult)
    requires Propose(version, ModelCompleted(result)).Ok?
    ensures var p := Propose(version, ModelCompleted(result)).value;
            if result.calls == [] then p.next == Finish(result.content, "no_tool_calls")
            else && p.next.PreparedEffect? && |p.plans| > 0 && p.next.plan == p.plans[0]
                 && p.next.kind == (if result.calls[0].requiresApproval then ApprovalWait else Dispatch)
  {
  }

  /** Where the facts of call `i` stand among those of its completion. */
  function FactPlace(result: ModelResult, i: nat): nat
    requires i <= |result.calls|
  {
    (if result.thinking.Some? then 2 else 1) + i + Asking(result.calls[..i])
  }

  /**
   The facts of a completion: the answer, the thinking if there is any, and for each call, in order, the
   call and, exactly when it must be approved, the request for its approval.
   */
  lemma {:induction false} CompletionRecords(version: StateVersion, result: ModelResult)
    requires Propose(version, ModelCompleted(result)).Ok?
    ensures var facts, t := Propose(version, ModelCompleted(result)).value.facts,
                            StepTransition(version.run, ModelKind, result.resultId);
            && |facts| == FactPlace(result, |result.calls|)
            && facts[0] == AssistantFact(t, result.content)
            && (result.thinking.Some? ==> facts[1] == ThinkingFact(t, result.thinking.value))
            && (forall i :: 0 <= i < |result.calls| ==>
                  FactsStand(facts, FactPlace(result, i), t, i, result.calls[i]))
  {
    hide FactsStand, FactsOfPlans, PlanFor, Asking;
    var t, n := StepTransition(version.run, ModelKind, result.resultId), |result.calls|;
    CompletionFacts(version, result);
    PlanFactsCount(t, result.calls, n);
    var opening, rest := OpeningFacts(t, result), FactsOfPlans(t, PlansFor(t, result.calls)[..n]);
    assert PlansFor(t, result.calls)[..n] == PlansFor(t, result.calls);
    forall i | 0 <= i < n ensures FactsStand(opening + rest, FactPlace(result, i), t, i, result.calls[i]) {
      PlanFactsStand(t, result.calls, n, i);
      StandBehind(opening, rest, i + Asking(result.calls[..i]), t, i, result.calls[i]);
    }
  }

  lemma {:induction false} CompletionFacts(version: StateVersion, result: ModelResult)
    requires Propose(version, ModelCompleted(result)).Ok?
    ensures var t := StepTransition(version.run, ModelKind, result.resultId);
            Propose(version, ModelCompleted(result)).value.facts
            == OpeningFacts(t, result) + FactsOfPlans(t, PlansFor(t, result.calls))
  {
  }

  predicate FactsStand(facts: seq<Fact>, place: nat, t: Id, i: nat, call: ToolCall) {
    var effect := EffectOf(t, i);
    && place < |facts|
    && facts[place] == ToolCallFact(t, call.toolCallId, call.name, call.arguments, effect, AttemptOf(effect))
    && (call.requiresApproval ==>
          && place + 1 < |facts|
          && facts[place + 1] == ApprovalRequestedFact(t, call.approvalRequestId, call.toolCallId, call.name,
                                                       call.arguments, effect, AttemptOf(effect)))
  }

  lemma {:induction false} StandBehind(front: seq<Fact>, facts: seq<Fact>, place: nat, t: Id, i: nat, call: ToolCall)
    requires FactsStand(facts, place, t, i, call)
    ensures FactsStand(front + facts, |front| + place, t, i, call)
  {
    assert forall k :: 0 <= k < |facts| ==> (front + facts)[|front| + k] == facts[k];
  }

  lemma {:induction false} StandInFront(facts: seq<Fact>, more: seq<Fact>, place: nat, t: Id, i: nat, call: ToolCall)
    requires FactsStand(facts, place, t, i, call)
    ensures FactsStand(facts + more, place, t, i, call)
  {
  }

  lemma {:induction false} OnePlanStands(t: Id, call: ToolCall, i: nat)
    ensures |FactsOfPlan(t, PlanFor(t, call, i))| == if call.requiresApproval then 2 else 1
    ensures FactsStand(FactsOfPlan(t, PlanFor(t, call, i)), 0, t, i, call)
  {
  }

  lemma {:induction false} OneMorePlan(t: Id, calls: seq<ToolCall>, n: nat)
    requires n < |calls|
    ensures Asking(calls[..n + 1]) == Asking(calls[..n]) + if calls[n].requiresApproval then 1 else 0
    ensures FactsOfPlans(t, PlansFor(t, calls)[..n + 1])
         == FactsOfPlans(t, PlansFor(t, calls)[..n]) + FactsOfPlan(t, PlanFor(t, calls[n], n))
  {
    hide FactsOfPlan, PlanFor;
    var plans := PlansFor(t, calls);
    assert calls[..n + 1][..n] == calls[..n] && plans[..n + 1][..n] == plans[..n];
  }

  lemma {:induction false} PlanFactsCount(t: Id, calls: seq<ToolCall>, n: nat)
    requires n <= |calls|
    ensures |FactsOfPlans(t, PlansFor(t, calls)[..n])| == n + Asking(calls[..n])
  {
    hide FactsStand, FactsOfPlan, PlanFor;
    if n > 0 {
      PlanFactsCount(t, calls, n - 1);
      OneMorePlan(t, calls, n - 1);
      OnePlanStands(t, calls[n - 1], n - 1);
    }
  }

  lemma {:induction false} PlanFactsStand(t: Id, calls: seq<ToolCall>, n: nat, i: nat)
    requires i < n <= |calls|
    ensures FactsStand(FactsOfPlans(t, PlansFor(t, calls)[..n]), i + Asking(calls[..i]), t, i, calls[i])
    decreases n
  {
    hide FactsStand, FactsOfPlan, FactsOfPlans, PlanFor, Asking;
    OneMorePlan(t, calls, n - 1);
    var front, last := FactsOfPlans(t, PlansFor(t, calls)[..n - 1]), FactsOfPlan(t, PlanFor(t, calls[n - 1], n - 1));
    if i < n - 1 {
      PlanFactsStand(t, calls, n - 1, i);
      StandInFront(front, last, i + Asking(calls[..i]), t, i, calls[i]);
    } else {
      OnePlanStands(t, calls[i], i);
      StandBehind(front, last, 0, t, i, calls[i]);
      PlanFactsCount(t, calls, i);
    }
  }

  /** A start throws the old runtime away, and asks the model about the messages with the new commands. */
  lemma {:induction false} StartAsks(version: StateVersion, input: StepInput)
    requires input.Initial?
    ensures Propose(version, input).Ok?
    ensures var p := Propose(version, input).value;
            && p.transitionId == StepTransition(version.run, InitialKind, input.inputId)
            && p.facts == [] && p.dispositions == [] && p.plans == [] && p.value.messages == version.value.messages
            && p.value.runtime.Some?
            && var rt := p.value.runtime.value;
               && rt.round == 0 && rt.mailboxCut == input.mailboxCut && rt.commands == input.commands
               && rt.pending == [] && rt.modelRequest == Some(ModelRequestOf(version.run, 1))
               && rt.lastContent.None? && rt.active.None? && rt.unknown.None? && rt.reconciled.None?
    ensures Propose(version, input).value.next
         == Generate(ModelRequest(ModelRequestOf(version.run, 1), 1, input.commands, version.value.messages))
  {
  }

  // ---------- What a proposal does to the state ----------

  /** The state after the head plan is popped with a tool message: markers go, and an empty queue wakes the model. */
  function PoppedValue(version: StateVersion, message: Message, keepActive: Option<Authorization>,
                       keepUnknown: Option<UnknownEffect>, keepReconciled: Option<ReconciledEffect>): StateValue
    requires version.value.runtime.Some? && version.value.runtime.value.pending != []
  {
    var rt := version.value.runtime.value;
    var woken := if |rt.pending| == 1 then Some(ModelRequestOf(version.run, rt.round + 1)) else rt.modelRequest;
    StateValue(Some(rt.(pending := rt.pending[1..], modelRequest := woken, active := keepActive,
                        unknown := keepUnknown, reconciled := keepReconciled)),
               version.value.messages + [message])
  }

  /**
   The next action is due to what is left of the queue: its head, or with nothing left the request that is
   now active.
   */
  predicate ActsOn(next: NextAction, value: StateValue) {
    && value.runtime.Some?
    && var rt := value.runtime.value;
       if rt.pending != [] then
         && next.PreparedEffect? && next.plan == rt.pending[0]
         && (next.kind == Dispatch <==> !rt.pending[0].requiresApproval)
       else
         && next.Generate? && rt.modelRequest == Some(next.request.requestId)
         && next.request.round == rt.round + 1 && next.request.commands == rt.commands
         && next.request.messages == value.messages
  }

  /** A terminal outcome pops the head of the queue, and its result is the new message and the one new fact. */
  lemma {:induction false} TerminalSettlementPops(version: StateVersion, s: EffectSettlement)
    requires ProposeEffectSettlement(version, s).Ok? && s.outcome != Indeterminate
    ensures version.value.runtime.Some? && version.value.runtime.value.pending != []
    ensures var p, isError := ProposeEffectSettlement(version, s).value, s.outcome != OutcomeCompleted;
            && p.value == PoppedValue(version, ToolResult(s.toolCallId, s.toolName, Plain(s.result), isError), None,
                                      None, None)
            && p.facts == [ToolResultFact(p.transitionId, s.toolCallId, s.effectId, s.attemptId, Plain(s.result),
                                          isError)]
            && p.dispositions == [] && p.plans == [] && ActsOn(p.next, p.value)
  {
  }

  /** The settlement is one for this plan, under this authorization. */
  predicate SettlesUnder(s: EffectSettlement, plan: EffectPlan, a: Authorization) {
    && s.effectId == plan.effectId == a.effectId && s.attemptId == plan.attemptId == a.attemptId
    && s.toolCallId == plan.toolCallId == a.toolCallId && s.toolName == plan.toolName == a.toolName
    && s.authorizationId == a.transitionId
  }

  /**
   A settlement is accepted exactly for the head of the queue under the authorization that is on record: after a
   reconciliation it repeats what was recorded; before, an effect already unknown can only be unknown again.
   */
  lemma {:induction false} SettlementIsAcceptedExactly(version: StateVersion, s: EffectSettlement)
    ensures ProposeEffectSettlement(version, s).Ok?
       <==> && version.value.runtime.Some? && version.value.runtime.value.pending != []
            && var rt := version.value.runtime.value;
               match rt.reconciled
               case Some(marker) =>
                 && SettlesUnder(s, rt.pending[0], marker.unknown.authorization)
                 && s.inputId == marker.reconciledInputId && s.outcome == marker.outcome != Indeterminate
                 && s.result == marker.result && s.reasonCode == marker.reasonCode
                 && s.reasonMessage == marker.reasonMessage
               case None =>
                 && rt.active.Some? && SettlesUnder(s, rt.pending[0], rt.active.value)
                 && (rt.unknown.Some? ==> s.outcome == Indeterminate)
  {
  }

  /** An unknown outcome is marked, and blocks the run on its effect. */
  lemma {:induction false} UnknownBlocks(version: StateVersion, s: EffectSettlement)
    requires ProposeEffectSettlement(version, s).Ok? && s.outcome == Indeterminate
    ensures version.value.runtime.Some? && version.value.runtime.value.active.Some?
    ensures var p, rt := ProposeEffectSettlement(version, s).value, version.value.runtime.value;
            && p.value == StateValue(Some(rt.(unknown := Some(UnknownEffect(rt.active.value, s.inputId)))),
                                     version.value.messages)
            && rt.pending != [] && p.next == Blocked("indeterminate_dispatch", rt.pending[0])
            && p.facts == [] && p.dispositions == [] && p.plans == []
  {
  }

  /**
   A decision is accepted exactly for the head of the queue, when it waits for approval, in the very version that
   asked for it; a rejection says why.
   */
  lemma {:induction false} DecisionIsAcceptedExactly(version: StateVersion, s: ApprovalSettlement)
    ensures ProposeApprovalResolution(version, s).Ok?
       <==> && version.value.runtime.Some? && version.value.runtime.value.pending != []
            && var plan := version.value.runtime.value.pending[0];
               && s.effectId == plan.effectId && s.attemptId == plan.attemptId
               && s.toolCallId == plan.toolCallId && s.toolName == plan.toolName
               && plan.requiresApproval && s.transitionId == version.transitionId
               && (s.approved || s.rejectionCode.Some?)
  {
  }

  /** An approval changes nothing but that its command is applied and its effect may be dispatched. */
  lemma {:induction false} ApprovalReleases(version: StateVersion, s: ApprovalSettlement)
    requires ProposeApprovalResolution(version, s).Ok? && s.approved
    ensures version.value.runtime.Some? && version.value.runtime.value.pending != []
    ensures var p := ProposeApprovalResolution(version, s).value;
            && p.value == version.value && p.next == PreparedEffect(version.value.runtime.value.pending[0], Dispatch)
            && p.dispositions == [Applied(s.commandId)] && p.facts == [] && p.plans == []
  {
  }

  /** A denial pops the head as well: its result says so, and its command is refused. */
  lemma {:induction false} DenialPops(version: StateVersion, s: ApprovalSettlement)
    requires ProposeApprovalResolution(version, s).Ok? && !s.approved
    ensures version.value.runtime.Some? && version.value.runtime.value.pending != [] && s.rejectionCode.Some?
    ensures var rt, p := version.value.runtime.value, ProposeApprovalResolution(version, s).value;
            var content := Denial(s.rejectionCode.value, s.rejectionMessage);
            && p.value == PoppedValue(version, ToolResult(s.toolCallId, s.toolName, content, true), rt.active,
                                      rt.unknown, rt.reconciled)
            && p.facts == [ToolResultFact(p.transitionId, s.toolCallId, s.effectId, s.attemptId, content, true)]
            && p.dispositions == [Refused(s.commandId, s.rejectionCode.value)]
            && p.plans == [] && ActsOn(p.next, p.value)
  {
  }
}

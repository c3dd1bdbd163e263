/**
 From the model's calls to the executor's: every effect that a run executes was asked for by one
 call of an accepted completion, and it was approved first if that call says that it must be.
 */
module GatedCalls {
  import opened Wrappers
  import opened Contracts
  import opened CommitStore
  import opened Protocol
  import opened ProtocolSafety
  import Engine

  function PendingIn(w: World): seq<EffectPlan>
    requires w.db.history != []
  {
    Engine.RuntimeOf(w.db.Current().value).pending
  }

  /** The plan says what the call says, under an identity of its own. */
  ghost predicate Plans(plan: EffectPlan, t: Id, j: nat, call: ToolCall) {
    && plan.effectId == EffectOf(t, j) && plan.attemptId == AttemptOf(EffectOf(t, j))
    && plan.toolCallId == call.toolCallId && plan.toolName == call.name && plan.arguments == call.arguments
    && plan.idempotencyKey == call.idempotencyKey && plan.requiresApproval == call.requiresApproval
    && plan.approvalRequestId == call.approvalRequestId
  }

  /** The act commits a completion, and its call `j` asks for this plan. */
  ghost predicate AsksFor(w: World, act: Act, j: nat, plan: EffectPlan)
    requires w.db.history != []
  {
    && act.Step? && act.input.ModelCompleted? && Changes(w, act) && j < |act.input.result.calls|
    && Plans(plan, StepTransition(w.db.Current().run, ModelKind, act.input.result.resultId), j,
             act.input.result.calls[j])
  }

  ghost predicate AsksForAt(start: World, acts: seq<Act>, k: nat, j: nat, plan: EffectPlan)
    requires start.db.history != [] && k < |acts|
  {
    AsksFor(Runs(start, acts[..k]), acts[k], j, plan)
  }

  // ---------- What one act does to the queue ----------

  /** The queue that a step of the engine leaves: a completion fills it, and a settlement at most pops its head. */
  lemma {:induction false} QueueAfterStep(version: StateVersion, input: StepInput)
    requires Engine.Propose(version, input).Ok?
    ensures var queue := Engine.RuntimeOf(Engine.Propose(version, input).value.value).pending;
            match input
            case Initial(_, _, _) => queue == []
            case ModelCompleted(result) =>
              && |queue| == |result.calls|
              && forall j :: 0 <= j < |queue| ==>
                   Plans(queue[j], StepTransition(version.run, ModelKind, result.resultId), j, result.calls[j])
            case _ =>
              var before := Engine.RuntimeOf(version.value).pending;
              queue == before || (before != [] && queue == before[1..])
  {
    hide Engine.ProposeEffectSettlement, Engine.ProposeApprovalResolution, Engine.ProposeModelCompletion;
    hide Engine.ProposeInitial, Engine.DenialProposal, Engine.PoppedValue;
    match input
    case Initial(_, _, _) => Engine.StartAsks(version, input);
    case ModelCompleted(result) => Engine.CompletionQueues(version, result);
    case EffectSettled(s) => SettlementQueue(version, s);
    case ApprovalResolved(s) => ApprovalQueue(version, s);
  }

  lemma {:induction false} SettlementQueue(version: StateVersion, s: EffectSettlement)
    requires Engine.ProposeEffectSettlement(version, s).Ok?
    ensures var queue, before := Engine.RuntimeOf(Engine.ProposeEffectSettlement(version, s).value.value).pending,
                                 Engine.RuntimeOf(version.value).pending;
            queue == before || (before != [] && queue == before[1..])
  {
    hide Engine.TerminalProposal;
    if s.outcome != Indeterminate {
      Engine.TerminalSettlementPops(version, s);
    }
  }

  lemma {:induction false} ApprovalQueue(version: StateVersion, s: ApprovalSettlement)
    requires Engine.ProposeApprovalResolution(version, s).Ok?
    ensures var queue, before := Engine.RuntimeOf(Engine.ProposeApprovalResolution(version, s).value.value).pending,
                                 Engine.RuntimeOf(version.value).pending;
            queue == before || (before != [] && queue == before[1..])
  {
    hide Engine.DenialProposal;
    if !s.approved {
      Engine.DenialPops(version, s);
    }
  }

  /** A plan in the queue after an act was there before, or a completion has just asked for it. */
  lemma {:induction false} QueueAfter(w: World, act: Act, i: nat)
    requires SafetyInv(w) && i < |PendingIn(Perform(w, act))|
    ensures var plan := PendingIn(Perform(w, act))[i]; plan in PendingIn(w) || AsksFor(w, act, i, plan)
  {
    hide LedgerInv, PermitsBind, ExecutionsRecorded, Refusal, Engine.Propose, ApplyMutations, LogInv;
    if act.Step? || act.Authorize? || act.Reconcile? {
      CommitActCases(w, act);
      if Changes(w, act) {
        CurrentIsSentFor(w, act);
        if act.Step? {
          QueueAfterStep(w.db.Current(), act.input);
        } else {
          MarkersKeepQueue(w.db, act);
        }
      }
    }
  }

  lemma {:induction false} CurrentIsSentFor(w: World, act: Act)
    requires SafetyInv(w) && Changes(w, act)
    ensures act.revision == |w.db.history| - 1
  {
    ChangeIsHonest(w, act);
  }

  lemma {:induction false} MarkersKeepQueue(db: Db, act: Act)
    requires UnitOf(db, act).Some? && !act.Step?
    ensures Engine.RuntimeOf(UnitOf(db, act).value.value).pending
         == Engine.RuntimeOf(db.history[act.revision].value).pending
  {
    hide AuthorizationBinds, RecordBinds, Engine.Propose;
  }

  // ---------- Runs ----------

  lemma {:induction false} AsksForInFront(start: World, acts: seq<Act>, k: nat, j: nat, plan: EffectPlan)
    requires start.db.history != [] && k < |acts| - 1 && AsksForAt(start, acts[..|acts| - 1], k, j, plan)
    ensures AsksForAt(start, acts, k, j, plan)
  {
    assert acts[..|acts| - 1][..k] == acts[..k];
  }

  /** Every plan in the queue of a run was asked for by one call of one accepted completion. */
  lemma {:induction false} QueuedPlanWasAskedFor(start: World, acts: seq<Act>, plan: EffectPlan)
    returns (k: nat, j: nat)
    requires Fresh(start) && plan in PendingIn(Runs(start, acts))
    ensures k < |acts| && AsksForAt(start, acts, k, j, plan)
    decreases |acts|
  {
    hide AsksFor, SafetyInv, Perform;
    if acts != [] {
      RunsUpToLast(start, acts);
      var front, last := acts[..|acts| - 1], acts[|acts| - 1];
      FreshIsSafe(start);
      RunsKeepSafety(start, front);
      var i :| 0 <= i < |PendingIn(Runs(start, acts))| && PendingIn(Runs(start, acts))[i] == plan;
      QueueAfter(Runs(start, front), last, i);
      if plan in PendingIn(Runs(start, front)) {
        k, j := QueuedPlanWasAskedFor(start, front, plan);
        AsksForInFront(start, acts, k, j, plan);
      } else {
        k, j := |acts| - 1, i;
      }
    }
  }

  /** What the commit of an authorization says about the approval of the plan that it dispatches. */
  ghost predicate Gated(w: World, act: Act, call: ToolCall)
    requires w.db.history != [] && act.Authorize? && Changes(w, act)
  {
    if call.requiresApproval then
      && act.approval.Some? && act.approval.value.approved
      && act.approval.value.toolCallId == call.toolCallId && act.approval.value.toolName == call.name
      && act.approval.value.transitionId == w.db.Current().transitionId
      && UnitOf(w.db, act).value.dispositions == [Applied(act.approval.value.commandId)]
      && act.approval.value.commandId in w.db.commands
      && w.db.commands[act.approval.value.commandId] == Admitted
    else
      act.approval.None? && UnitOf(w.db, act).value.dispositions == []
  }

  lemma {:induction false} AuthorizationIsGated(w: World, act: Act, t: Id, effect: Id, epoch: nat, j: nat,
                                                call: ToolCall, prepared: Id)
    requires SafetyInv(w) && Authorizes(w, act, t, effect, epoch)
    requires Plans(PendingIn(w)[0], prepared, j, call)
    ensures Gated(w, act, call)
  {
    hide LedgerInv, PermitsBind, ExecutionsRecorded, LogInv, Engine.Propose, ApplyMutations, ReconciliationRefusal;
    CurrentIsSentFor(w, act);
    var unit := UnitOf(w.db, act).value;
    if act.approval.Some? {
      assert unit.dispositions[0] in unit.dispositions;
      assert DispositionAccepted(w.db.commands, unit.dispositions[0]);
    }
  }

  /**
   Behind every execution `i` of a run stands one call: act `k` committed the completion that made it, act `m`
   after that committed the authorization, and act `n` after that is the execution. If the call must be
   approved, the authorization applied, in its own unit of work, the admitted command of a settlement that
   approves just this call; if not, it carried none.
   */
  lemma {:induction false} GatedCallIsApprovedFirst(start: World, acts: seq<Act>, i: nat)
    returns (k: nat, j: nat, m: nat, n: nat, plan: EffectPlan)
    requires Fresh(start) && i < |Runs(start, acts).executions|
    ensures k < m < n < |acts|
    ensures AsksForAt(start, acts, k, j, plan)
    ensures var x := Runs(start, acts).executions[i];
            && plan.effectId == x.effectId && plan.attemptId == x.attemptId
            && AuthorizesAt(start, acts, m, x.authorizationId, x.effectId, x.ownerEpoch)
            && acts[n] == Act.Execute(x.authorizationId)
    ensures Gated(Runs(start, acts[..m]), acts[m], acts[k].input.result.calls[j])
  {
    hide Perform, Gated, SafetyInv, UnitOf;
    m, n := ExecutedAfterItsAuthorization(start, acts, i);
    var x, w := Runs(start, acts).executions[i], Runs(start, acts[..m]);
    plan := PendingIn(w)[0];
    k, j := QueuedPlanWasAskedFor(start, acts[..m], plan);
    assert acts[..m][..k] == acts[..k];
    FreshIsSafe(start);
    RunsKeepSafety(start, acts[..m]);
    AuthorizationIsGated(w, acts[m], x.authorizationId, x.effectId, x.ownerEpoch, j, acts[k].input.result.calls[j],
                         StepTransition(Runs(start, acts[..k]).db.Current().run, ModelKind,
                                        acts[k].input.result.resultId));
    ExecutedOnlyAsAuthorized(start, acts, i);
  }
}

/**
 The committed engine state and the effect ledger agree after every commit, the transcript has
 exactly one result for each answered call, and each call emits exactly one result fact --
 for every run in which no `Initial` input is committed over outstanding effect recovery.
 */
module ProtocolAgreement {
  import opened Wrappers
  import opened Contracts
  import opened CommitStore
  import opened Protocol
  import opened ProtocolSafety
  import opened Transcript
  import Engine

  // ---------- Queue and ledger ----------

  ghost predicate Queued(pending: seq<EffectPlan>, e: Id) {
    exists i :: 0 <= i < |pending| && pending[i].effectId == e
  }

  /** The markers of the head effect come in the order authorization, unknown, reconciled. */
  ghost predicate MarkersNest(rt: RuntimeState) {
    && (rt.unknown.Some? ==> rt.active == Some(rt.unknown.value.authorization))
    && (rt.reconciled.Some? ==>
          rt.unknown == Some(rt.reconciled.value.unknown) && rt.reconciled.value.outcome != Indeterminate)
    && (rt.active.Some? ==> rt.pending != [])
    && (rt.modelRequest.Some? ==> rt.pending == [])
  }

  /** What the markers say about the head of the queue. */
  function HeadStatus(rt: RuntimeState): EffectStatus {
    if rt.reconciled.Some? then StatusOf(rt.reconciled.value.outcome)
    else if rt.unknown.Some? then Unknown
    else if rt.active.Some? then Dispatched
    else Prepared
  }

  ghost predicate ActiveAgrees(rt: RuntimeState, slot: Slot)
    requires rt.pending != []
  {
    rt.active.Some? ==>
      && IsHead(rt.pending, rt.active.value.effectId, rt.active.value.attemptId, rt.active.value.toolCallId,
                rt.active.value.toolName)
      && slot.authorization == Some(rt.active.value.transitionId)
      && slot.dispatchEpoch == Some(rt.active.value.ownerEpoch)
  }

  ghost predicate QueueAgrees(rt: RuntimeState, effects: map<Id, Slot>) {
    && (forall i :: 0 <= i < |rt.pending| ==>
          && rt.pending[i].effectId in effects
          && effects[rt.pending[i].effectId].status == if i == 0 then HeadStatus(rt) else Prepared)
    && (forall i, j :: 0 <= i < j < |rt.pending| ==> rt.pending[i].effectId != rt.pending[j].effectId)
    && (rt.pending != [] ==> ActiveAgrees(rt, effects[rt.pending[0].effectId]))
    && (forall e :: e in effects && !Queued(rt.pending, e) ==> Terminal(effects[e].status))
  }

  lemma {:induction false} HeadStays(rt: RuntimeState, effects: map<Id, Slot>, next: RuntimeState, slot: Slot)
    requires QueueAgrees(rt, effects) && rt.pending != []
    requires next.pending == rt.pending && slot.status == HeadStatus(next) && ActiveAgrees(next, slot)
    ensures QueueAgrees(next, effects[rt.pending[0].effectId := slot])
  {
    assert rt.pending[0].effectId in effects;
    assert Queued(rt.pending, rt.pending[0].effectId);
  }

  lemma {:induction false} HeadPops(rt: RuntimeState, effects: map<Id, Slot>, next: RuntimeState, slot: Slot)
    requires QueueAgrees(rt, effects) && rt.pending != []
    requires next.pending == rt.pending[1..] && next.active.None? && MarkersNest(next) && Terminal(slot.status)
    ensures QueueAgrees(next, effects[rt.pending[0].effectId := slot])
  {
    var head := rt.pending[0].effectId;
    var after := effects[head := slot];
    forall e | e in after && !Queued(next.pending, e) ensures Terminal(after[e].status) {
      QueuedTail(rt.pending, e);
    }
  }

  ghost predicate PreparedBy(effects: map<Id, Slot>, after: map<Id, Slot>, plans: seq<EffectPlan>) {
    && (forall i :: 0 <= i < |plans| ==>
          plans[i].effectId !in effects && plans[i].effectId in after && after[plans[i].effectId].status == Prepared)
    && (forall e :: e in after && !Queued(plans, e) ==> e in effects && after[e] == effects[e])
    && (forall e :: e in effects ==> e in after)
  }

  lemma {:induction false} QueueFills(rt: RuntimeState, effects: map<Id, Slot>, next: RuntimeState,
                                      after: map<Id, Slot>)
    requires QueueAgrees(rt, effects) && rt.pending == []
    requires PreparedBy(effects, after, next.pending) && next.active.None? && MarkersNest(next)
    requires forall i, j :: 0 <= i < j < |next.pending| ==> next.pending[i].effectId != next.pending[j].effectId
    ensures QueueAgrees(next, after)
  {
  }

  // ---------- Facts ----------

  function CallCount(facts: seq<Fact>, e: Id): nat {
    if facts == [] then 0
    else CallCount(facts[..|facts| - 1], e)
         + if facts[|facts| - 1].ToolCallFact? && facts[|facts| - 1].effectId == e then 1 else 0
  }

  function ResultCount(facts: seq<Fact>, e: Id): nat {
    if facts == [] then 0
    else ResultCount(facts[..|facts| - 1], e)
         + if facts[|facts| - 1].ToolResultFact? && facts[|facts| - 1].effectId == e then 1 else 0
  }

  lemma {:induction false} CountsAdd(a: seq<Fact>, b: seq<Fact>, e: Id)
    ensures CallCount(a + b, e) == CallCount(a, e) + CallCount(b, e)
    ensures ResultCount(a + b, e) == ResultCount(a, e) + ResultCount(b, e)
    decreases |b|
  {
    if b == [] {
      assert a + b == a;
    } else {
      var front := b[..|b| - 1];
      CountsAdd(a, front, e);
      assert (a + b)[..|a + b| - 1] == a + front;
    }
  }

  /** A result fact reports the status that the ledger holds for the effect. */
  ghost predicate ReportsStatus(f: Fact, effects: map<Id, Slot>) {
    f.ToolResultFact? ==>
      && f.effectId in effects
      && match effects[f.effectId].status
         case Rejected => f.content.Denial? && f.isError
         case Completed => f.content.Plain? && !f.isError
         case Failed => f.content.Plain? && f.isError
         case _ => false
  }

  ghost predicate CountsAgree(facts: seq<Fact>, pending: seq<EffectPlan>, effects: map<Id, Slot>, e: Id) {
    && CallCount(facts, e) == (if e in effects then 1 else 0)
    && ResultCount(facts, e) == (if e in effects && !Queued(pending, e) then 1 else 0)
  }

  ghost predicate FactsAgree(facts: seq<Fact>, pending: seq<EffectPlan>, effects: map<Id, Slot>) {
    && (forall e :: CountsAgree(facts, pending, effects, e))
    && (forall i :: 0 <= i < |facts| ==> ReportsStatus(facts[i], effects))
  }

  // ---------- The invariant ----------

  ghost predicate TranscriptAgrees(base: seq<Message>, messages: seq<Message>, pending: seq<EffectPlan>) {
    && |base| <= |messages| && messages[..|base|] == base
    && Owed(messages[|base|..]) == Some(PlanIds(pending))
  }

  ghost predicate StateAgrees(base: seq<Message>, value: StateValue, effects: map<Id, Slot>, facts: seq<Fact>) {
    var rt := Engine.RuntimeOf(value);
    && MarkersNest(rt)
    && QueueAgrees(rt, effects)
    && TranscriptAgrees(base, value.messages, rt.pending)
    && FactsAgree(facts, rt.pending, effects)
  }

  ghost predicate AgreementInv(w: World) {
    && SafetyInv(w)
    && StateAgrees(w.db.history[0].value.messages, w.db.Current().value, w.db.effects, w.db.facts)
  }

  // ---------- One lemma for each way the state moves ----------

  lemma {:induction false} OneMutation(effects: map<Id, Slot>, epoch: nat, transition: Id, m: EffectMutation)
    ensures ApplyMutations(effects, epoch, transition, [m])
         == effects[m.effectId := SlotAfter(effects, epoch, transition, m)]
  {
    assert [m][..0] == [];
  }

  /** The head of the queue gets its result: one message, one fact, one terminal status. */
  lemma {:induction false} PopAgrees(base: seq<Message>, value: StateValue, effects: map<Id, Slot>, facts: seq<Fact>,
                  next: StateValue, slot: Slot, message: Message, fact: Fact)
    requires StateAgrees(base, value, effects, facts)
    requires value.runtime.Some? && value.runtime.value.pending != [] && next.runtime.Some?
    requires next.runtime.value.pending == value.runtime.value.pending[1..]
    requires next.runtime.value.active.None? && MarkersNest(next.runtime.value)
    requires Terminal(slot.status)
    requires message.ToolResult? && message.toolCallId == value.runtime.value.pending[0].toolCallId
    requires next.messages == value.messages + [message]
    requires fact.ToolResultFact? && fact.effectId == value.runtime.value.pending[0].effectId
    requires ReportsStatus(fact, effects[fact.effectId := slot])
    ensures StateAgrees(base, next, effects[value.runtime.value.pending[0].effectId := slot], facts + [fact])
  {
    var rt, rt' := value.runtime.value, next.runtime.value;
    var head := rt.pending[0].effectId;
    HeadPops(rt, effects, rt', slot);
    assert next.messages[|base|..] == value.messages[|base|..] + [message];
    OwedAppend(value.messages[|base|..], message);
    assert PlanIds(rt.pending)[1..] == PlanIds(rt'.pending);
    PopFacts(rt.pending, effects, facts, slot, fact);
  }

  lemma {:induction false} PopFacts(pending: seq<EffectPlan>, effects: map<Id, Slot>, facts: seq<Fact>, slot: Slot,
                                    fact: Fact)
    requires FactsAgree(facts, pending, effects) && pending != []
    requires pending[0].effectId in effects
    requires forall i, j :: 0 <= i < j < |pending| ==> pending[i].effectId != pending[j].effectId
    requires fact.ToolResultFact? && fact.effectId == pending[0].effectId
    requires ReportsStatus(fact, effects[fact.effectId := slot])
    ensures FactsAgree(facts + [fact], pending[1..], effects[pending[0].effectId := slot])
  {
    var after, head := effects[pending[0].effectId := slot], pending[0].effectId;
    forall e ensures CountsAgree(facts + [fact], pending[1..], after, e) {
      assert CountsAgree(facts, pending, effects, e);
      CountsAdd(facts, [fact], e);
      assert [fact][..0] == [];
      QueuedTail(pending, e);
    }
    assert Queued(pending, head) && CountsAgree(facts, pending, effects, head);
    forall i | 0 <= i < |facts| ensures ReportsStatus(facts[i], after) {
      assert ReportsStatus(facts[i], effects);
      if facts[i].ToolResultFact? && facts[i].effectId == head {
        ResultIsCounted(facts, i);
        assert false;
      }
    }
  }

  lemma {:induction false} QueuedTail(pending: seq<EffectPlan>, e: Id)
    requires pending != []
    requires forall i, j :: 0 <= i < j < |pending| ==> pending[i].effectId != pending[j].effectId
    ensures Queued(pending[1..], e) <==> Queued(pending, e) && e != pending[0].effectId
  {
    if Queued(pending, e) && e != pending[0].effectId {
      var i :| 0 <= i < |pending| && pending[i].effectId == e;
      assert pending[1..][i - 1].effectId == e;
    }
  }

  lemma {:induction false} ResultIsCounted(facts: seq<Fact>, i: nat)
    requires i < |facts| && facts[i].ToolResultFact?
    ensures ResultCount(facts, facts[i].effectId) >= 1
  {
    if i < |facts| - 1 {
      ResultIsCounted(facts[..|facts| - 1], i);
    }
  }

  /** The head of the queue changes status but stays: authorization, indeterminate settlement, reconciliation. */
  lemma {:induction false} StayAgrees(base: seq<Message>, value: StateValue, effects: map<Id, Slot>, facts: seq<Fact>,
                                      next: StateValue, slot: Slot)
    requires StateAgrees(base, value, effects, facts)
    requires value.runtime.Some? && value.runtime.value.pending != [] && next.runtime.Some?
    requires next.messages == value.messages && next.runtime.value.pending == value.runtime.value.pending
    requires MarkersNest(next.runtime.value)
    requires slot.status == HeadStatus(next.runtime.value) && ActiveAgrees(next.runtime.value, slot)
    ensures StateAgrees(base, next, effects[value.runtime.value.pending[0].effectId := slot], facts)
  {
    var rt := value.runtime.value;
    var head, after := rt.pending[0].effectId, effects[rt.pending[0].effectId := slot];
    HeadStays(rt, effects, next.runtime.value, slot);
    assert Queued(rt.pending, head) && head in effects && CountsAgree(facts, rt.pending, effects, head);
    forall e ensures CountsAgree(facts, rt.pending, after, e) {
      assert CountsAgree(facts, rt.pending, effects, e);
    }
    forall i | 0 <= i < |facts| ensures ReportsStatus(facts[i], after) {
      assert ReportsStatus(facts[i], effects);
      if facts[i].ToolResultFact? && facts[i].effectId == head {
        ResultIsCounted(facts, i);
        assert false;
      }
    }
  }

  // ---------- Each kind of committed unit ----------

  /** What is known when an act's unit is applied: it was built from the current version and was accepted. */
  ghost predicate Lands(w: World, act: Act) {
    && LogInv(w.db)
    && UnitOf(w.db, act).Some?
    && act.revision == |w.db.history| - 1
    && Refusal(w.db, act.ownerEpoch, UnitOf(w.db, act).value).None?
  }

  ghost predicate DbAgrees(db: Db)
    requires db.history != []
  {
    StateAgrees(db.history[0].value.messages, db.Current().value, db.effects, db.facts)
  }

  function AppliedBy(w: World, act: Act): Db
    requires UnitOf(w.db, act).Some?
  {
    Apply(w.db, act.ownerEpoch, UnitOf(w.db, act).value)
  }

  lemma {:induction false} InitialAgrees(w: World, act: Act)
    requires Lands(w, act) && DbAgrees(w.db) && act.Step? && act.input.Initial?
    requires Engine.RuntimeOf(w.db.Current().value).pending == []
    ensures DbAgrees(AppliedBy(w, act))
  {
    var unit := UnitOf(w.db, act).value;
    assert unit.mutations == [] && unit.facts == [];
    assert w.db.facts + unit.facts == w.db.facts;
  }

  /** A single mutation that lands was accepted, and it decides the only slot that changes. */
  lemma {:induction false} OneMutationLands(w: World, act: Act, m: EffectMutation)
    requires Lands(w, act) && UnitOf(w.db, act).value.mutations == [m]
    ensures MutationAccepted(w.db.effects, m)
    ensures AppliedBy(w, act).effects
            == w.db.effects[m.effectId :=
                              SlotAfter(w.db.effects, act.ownerEpoch, UnitOf(w.db, act).value.transitionId, m)]
  {
    hide SlotAfter, Engine.Propose, ReconciliationRefusal, ApplyMutations;
    assert m in UnitOf(w.db, act).value.mutations;
    OneMutation(w.db.effects, act.ownerEpoch, UnitOf(w.db, act).value.transitionId, m);
  }

  lemma {:induction false} IndeterminateAgrees(base: seq<Message>, version: StateVersion, effects: map<Id, Slot>,
                                               facts: seq<Fact>, s: EffectSettlement)
    requires StateAgrees(base, version.value, effects, facts)
    requires Engine.ProposeEffectSettlement(version, s).Ok? && s.outcome == Indeterminate
    requires s.effectId in effects && effects[s.effectId].status == Dispatched
    ensures StateAgrees(base, Engine.ProposeEffectSettlement(version, s).value.value,
                        effects[s.effectId := effects[s.effectId].(status := Unknown)], facts)
  {
    StayAgrees(base, version.value, effects, facts, Engine.ProposeEffectSettlement(version, s).value.value,
               effects[s.effectId].(status := Unknown));
  }

  lemma {:induction false} TerminalAgrees(base: seq<Message>, version: StateVersion, effects: map<Id, Slot>,
                                          facts: seq<Fact>, s: EffectSettlement)
    requires StateAgrees(base, version.value, effects, facts)
    requires Engine.ProposeEffectSettlement(version, s).Ok? && s.outcome != Indeterminate
    requires s.effectId in effects
    ensures var proposal := Engine.ProposeEffectSettlement(version, s).value;
            && |proposal.facts| == 1
            && StateAgrees(base, proposal.value,
                           effects[s.effectId := effects[s.effectId].(status := StatusOf(s.outcome))],
                           facts + proposal.facts)
  {
    var proposal := Engine.ProposeEffectSettlement(version, s).value;
    Engine.TerminalSettlementPops(version, s);
    var isError := s.outcome != OutcomeCompleted;
    var message := ToolResult(s.toolCallId, s.toolName, Plain(s.result), isError);
    var fact := ToolResultFact(proposal.transitionId, s.toolCallId, s.effectId, s.attemptId, Plain(s.result), isError);
    assert proposal.facts == [fact];
    PopAgrees(base, version.value, effects, facts, proposal.value, effects[s.effectId].(status := StatusOf(s.outcome)),
              message, fact);
  }

  lemma {:induction false} IndeterminateIsNotRecorded(version: StateVersion, s: EffectSettlement)
    requires Engine.ProposeEffectSettlement(version, s).Ok? && s.outcome == Indeterminate
    ensures !PostReconciliation(version, EffectSettled(s))
  {
  }

  lemma {:induction false} EffectSettlementIsSent(w: World, act: Act)
    requires Lands(w, act) && act.Step? && act.input.EffectSettled?
    ensures Engine.ProposeEffectSettlement(w.db.Current(), act.input.effect).Ok?
    ensures var unit := UnitOf(w.db, act).value;
            var proposal := Engine.ProposeEffectSettlement(w.db.Current(), act.input.effect).value;
            && unit.value == proposal.value && unit.facts == proposal.facts
            && (act.input.effect.outcome == Indeterminate ==> unit.facts == [])
            && unit.mutations
               == if PostReconciliation(w.db.Current(), act.input) then [] else [SettlementMutation(act.input)]
  {
    hide Engine.EffectObjection;
    var version, s := w.db.Current(), act.input.effect;
    if s.outcome != Indeterminate {
      Engine.TerminalSettlementPops(version, s);
    }
    SettlementSendsOneMutation(version, act.input, Engine.Propose(version, act.input).value);
  }

  lemma {:induction false} EffectSettlementAgrees(w: World, act: Act)
    requires Lands(w, act) && DbAgrees(w.db) && act.Step? && act.input.EffectSettled?
    ensures DbAgrees(AppliedBy(w, act))
  {
    hide FactsAgree, TranscriptAgrees, Engine.TerminalProposal, Engine.EffectObjection, UnitOf, Refusal;
    EffectSettlementIsSent(w, act);
    var version, s, unit := w.db.Current(), act.input.effect, UnitOf(w.db, act).value;
    var base, m := w.db.history[0].value.messages, SettlementMutation(act.input);
    if !PostReconciliation(version, act.input) {
      OneMutationLands(w, act, m);
    }
    if s.outcome == Indeterminate {
      IndeterminateIsNotRecorded(version, s);
      IndeterminateAgrees(base, version, w.db.effects, w.db.facts, s);
      assert w.db.facts + unit.facts == w.db.facts;
    } else {
      if PostReconciliation(version, act.input) {
        ReconciledSlotIsSettled(version, w.db.effects, s);
      }
      TerminalAgrees(base, version, w.db.effects, w.db.facts, s);
    }
  }

  /** Once a reconciliation is committed, the ledger already holds the outcome that the settlement must repeat. */
  lemma {:induction false} ReconciledSlotIsSettled(version: StateVersion, effects: map<Id, Slot>, s: EffectSettlement)
    requires MarkersNest(Engine.RuntimeOf(version.value)) && QueueAgrees(Engine.RuntimeOf(version.value), effects)
    requires Engine.ProposeEffectSettlement(version, s).Ok? && Engine.RuntimeOf(version.value).reconciled.Some?
    ensures s.effectId in effects && effects[s.effectId].status == StatusOf(s.outcome)
    ensures effects[s.effectId := effects[s.effectId].(status := StatusOf(s.outcome))] == effects
  {
    var rt := Engine.RuntimeOf(version.value);
    assert rt.pending[0].effectId in effects;
  }

  lemma {:induction false} DenialProposalAgrees(base: seq<Message>, version: StateVersion, effects: map<Id, Slot>,
                                                facts: seq<Fact>, s: ApprovalSettlement)
    requires StateAgrees(base, version.value, effects, facts)
    requires Engine.ProposeApprovalResolution(version, s).Ok? && !s.approved
    requires s.effectId in effects && effects[s.effectId].status == Prepared
    ensures var proposal := Engine.ProposeApprovalResolution(version, s).value;
            && |proposal.facts| == 1
            && StateAgrees(base, proposal.value, effects[s.effectId := effects[s.effectId].(status := Rejected)],
                           facts + proposal.facts)
  {
    var proposal := Engine.ProposeApprovalResolution(version, s).value;
    Engine.DenialPops(version, s);
    var content := Denial(s.rejectionCode.value, s.rejectionMessage);
    var fact := ToolResultFact(proposal.transitionId, s.toolCallId, s.effectId, s.attemptId, content, true);
    assert proposal.facts == [fact];
    PopAgrees(base, version.value, effects, facts, proposal.value, effects[s.effectId].(status := Rejected),
              ToolResult(s.toolCallId, s.toolName, content, true), fact);
  }

  lemma {:induction false} SentApprovalIsDenial(version: StateVersion, s: ApprovalSettlement)
    requires Engine.ProposeApprovalResolution(version, s).Ok?
    requires !Deferred(ApprovalResolved(s), Engine.ProposeApprovalResolution(version, s).value)
    ensures !s.approved
  {
  }

  lemma {:induction false} DenialAgrees(w: World, act: Act)
    requires Lands(w, act) && DbAgrees(w.db) && act.Step? && act.input.ApprovalResolved?
    ensures DbAgrees(AppliedBy(w, act))
  {
    hide FactsAgree, TranscriptAgrees, QueueAgrees, Engine.DenialProposal, Engine.ProposeModelCompletion;
    hide Engine.ProposeApprovalResolution, Refusal, SettlementBinds, Engine.EffectObjection;
    var version, s, unit := w.db.Current(), act.input.approval, UnitOf(w.db, act).value;
    var proposal := Engine.ProposeApprovalResolution(version, s).value;
    SentApprovalIsDenial(version, s);
    assert proposal.plans == [] by {
      Engine.DenialPops(version, s);
    }
    SettlementSendsOneMutation(version, act.input, proposal);
    OneMutationLands(w, act, SettlementMutation(act.input));
    DenialProposalAgrees(w.db.history[0].value.messages, version, w.db.effects, w.db.facts, s);
    assert unit.value == proposal.value && unit.facts == proposal.facts;
  }

  lemma {:induction false} AuthorizationAgrees(w: World, act: Act)
    requires Lands(w, act) && DbAgrees(w.db) && act.Authorize?
    ensures DbAgrees(AppliedBy(w, act))
  {
    hide Engine.Propose, TranscriptAgrees, SettlementBinds, MutationsFor;
    var version, unit := w.db.Current(), UnitOf(w.db, act).value;
    var base, m := w.db.history[0].value.messages, unit.mutations[0];
    assert unit.mutations == [m] && m in unit.mutations && MutationAccepted(w.db.effects, m);
    OneMutation(w.db.effects, act.ownerEpoch, unit.transitionId, m);
    StayAgrees(base, version.value, w.db.effects, w.db.facts, unit.value,
               SlotAfter(w.db.effects, act.ownerEpoch, unit.transitionId, m));
    assert w.db.facts + unit.facts == w.db.facts;
  }

  lemma {:induction false} ReconciliationAgrees(w: World, act: Act)
    requires Lands(w, act) && DbAgrees(w.db) && act.Reconcile?
    ensures DbAgrees(AppliedBy(w, act))
  {
    hide Engine.Propose, TranscriptAgrees, AuthorizationBinds;
    var version, unit := w.db.Current(), UnitOf(w.db, act).value;
    var base, m := w.db.history[0].value.messages, unit.mutations[0];
    assert unit.mutations == [m] && m in unit.mutations && MutationAccepted(w.db.effects, m);
    OneMutation(w.db.effects, act.ownerEpoch, unit.transitionId, m);
    StayAgrees(base, version.value, w.db.effects, w.db.facts, unit.value,
               SlotAfter(w.db.effects, act.ownerEpoch, unit.transitionId, m));
    assert w.db.facts + unit.facts == w.db.facts;
  }

  // ---------- Model completion ----------

  lemma {:induction false} PlanFactCounts(transition: Id, plans: seq<EffectPlan>, e: Id)
    requires forall i, j :: 0 <= i < j < |plans| ==> plans[i].effectId != plans[j].effectId
    ensures CallCount(Engine.FactsOfPlans(transition, plans), e) == if Queued(plans, e) then 1 else 0
    ensures ResultCount(Engine.FactsOfPlans(transition, plans), e) == 0
  {
    if plans != [] {
      var front, last := plans[..|plans| - 1], plans[|plans| - 1];
      PlanFactCounts(transition, front, e);
      OnePlanFactCounts(transition, last, e);
      CountsAdd(Engine.FactsOfPlans(transition, front), Engine.FactsOfPlan(transition, last), e);
      QueuedFront(plans, e);
    }
  }

  lemma {:induction false} QueuedFront(plans: seq<EffectPlan>, e: Id)
    requires plans != []
    requires forall i, j :: 0 <= i < j < |plans| ==> plans[i].effectId != plans[j].effectId
    ensures Queued(plans[..|plans| - 1], e) <==> Queued(plans, e) && e != plans[|plans| - 1].effectId
  {
    if Queued(plans, e) && e != plans[|plans| - 1].effectId {
      var i :| 0 <= i < |plans| && plans[i].effectId == e;
      assert plans[..|plans| - 1][i].effectId == e;
    }
  }

  lemma {:induction false} OnePlanFactCounts(transition: Id, plan: EffectPlan, e: Id)
    ensures CallCount(Engine.FactsOfPlan(transition, plan), e) == if plan.effectId == e then 1 else 0
    ensures ResultCount(Engine.FactsOfPlan(transition, plan), e) == 0
  {
    var call := ToolCallFact(transition, plan.toolCallId, plan.toolName, plan.arguments, plan.effectId, plan.attemptId);
    assert [call][..0] == [];
    if plan.requiresApproval {
      var ask := ApprovalRequestedFact(transition, plan.approvalRequestId, plan.toolCallId, plan.toolName,
                                       plan.arguments, plan.effectId, plan.attemptId);
      assert [ask][..0] == [];
      CountsAdd([call], [ask], e);
    } else {
      assert Engine.FactsOfPlan(transition, plan) == [call];
    }
  }

  lemma {:induction false} QuietFactCounts(facts: seq<Fact>, e: Id)
    requires forall f :: f in facts ==> !f.ToolCallFact? && !f.ToolResultFact?
    ensures CallCount(facts, e) == 0 && ResultCount(facts, e) == 0
  {
    if facts != [] {
      QuietFactCounts(facts[..|facts| - 1], e);
      assert facts[|facts| - 1] in facts;
    }
  }

  lemma {:induction false} PlanFactsReportNothing(transition: Id, plans: seq<EffectPlan>)
    ensures forall f :: f in Engine.FactsOfPlans(transition, plans) ==> !f.ToolResultFact?
  {
    if plans != [] {
      PlanFactsReportNothing(transition, plans[..|plans| - 1]);
    }
  }

  /** The facts of a completion: one call fact for each plan, no result fact. */
  lemma {:induction false} CompletionFactCounts(transition: Id, result: ModelResult, e: Id)
    ensures var plans := Engine.PlansFor(transition, result.calls);
            var facts := Engine.OpeningFacts(transition, result) + Engine.FactsOfPlans(transition, plans);
            && CallCount(facts, e) == (if Queued(plans, e) then 1 else 0)
            && ResultCount(facts, e) == 0
            && forall f :: f in facts ==> !f.ToolResultFact?
  {
    var plans := Engine.PlansFor(transition, result.calls);
    var opening, listed := Engine.OpeningFacts(transition, result), Engine.FactsOfPlans(transition, plans);
    CountsAdd(opening, listed, e);
    QuietFactCounts(opening, e);
    PlanFactCounts(transition, plans, e);
    PlanFactsReportNothing(transition, plans);
  }

  lemma {:induction false} NewFactsAgree(facts: seq<Fact>, effects: map<Id, Slot>, more: seq<Fact>,
                                         after: map<Id, Slot>, plans: seq<EffectPlan>)
    requires FactsAgree(facts, [], effects) && PreparedBy(effects, after, plans)
    requires forall e :: CallCount(more, e) == (if Queued(plans, e) then 1 else 0) && ResultCount(more, e) == 0
    requires forall f :: f in more ==> !f.ToolResultFact?
    ensures FactsAgree(facts + more, plans, after)
  {
    forall e ensures CountsAgree(facts + more, plans, after, e) {
      assert CountsAgree(facts, [], effects, e) && !Queued([], e);
      CountsAdd(facts, more, e);
    }
    var all := facts + more;
    forall i | 0 <= i < |all| ensures ReportsStatus(all[i], after) {
      if i < |facts| {
        assert ReportsStatus(facts[i], effects);
        SettledIsNotNew(facts[i], effects, after, plans);
      } else {
        assert all[i] == more[i - |facts|] && all[i] in more;
      }
    }
  }

  lemma {:induction false} SettledIsNotNew(f: Fact, effects: map<Id, Slot>, after: map<Id, Slot>,
                                           plans: seq<EffectPlan>)
    requires ReportsStatus(f, effects) && PreparedBy(effects, after, plans)
    ensures ReportsStatus(f, after)
  {
  }

  lemma {:induction false} PreparationsApply(effects: map<Id, Slot>, epoch: nat, transition: Id, plans: seq<EffectPlan>)
    requires forall i, j :: 0 <= i < j < |plans| ==> plans[i].effectId != plans[j].effectId
    requires forall i :: 0 <= i < |plans| ==> plans[i].effectId !in effects
    ensures PreparedBy(effects, ApplyMutations(effects, epoch, transition, Preparations(plans)), plans)
  {
    var ms := Preparations(plans);
    var after := ApplyMutations(effects, epoch, transition, ms);
    forall i | 0 <= i < |plans| ensures plans[i].effectId in after && after[plans[i].effectId].status == Prepared {
      assert ms[i] == Prepare(plans[i]);
      MutatedSlot(effects, epoch, transition, ms, i);
    }
    forall e ensures e in after && !Queued(plans, e) ==> e in effects && after[e] == effects[e]
             ensures e in effects ==> e in after
    {
      if Mentions(ms, e) {
        var k :| 0 <= k < |ms| && ms[k].effectId == e;
        assert plans[k].effectId == e;
      } else {
        UntouchedSlot(effects, epoch, transition, ms, e);
      }
    }
  }

  lemma {:induction false} CompletionStateAgrees(base: seq<Message>, version: StateVersion, effects: map<Id, Slot>,
                                                 facts: seq<Fact>,
                              result: ModelResult, after: map<Id, Slot>)
    requires StateAgrees(base, version.value, effects, facts)
    requires Engine.ProposeModelCompletion(version, result).Ok?
    requires PreparedBy(effects, after, Engine.ProposeModelCompletion(version, result).value.plans)
    ensures var proposal := Engine.ProposeModelCompletion(version, result).value;
            StateAgrees(base, proposal.value, after, facts + proposal.facts)
  {
    var proposal := Engine.ProposeModelCompletion(version, result).value;
    var rt, rt' := version.value.runtime.value, proposal.value.runtime.value;
    QueueFills(rt, effects, rt', after);
    forall e ensures CallCount(proposal.facts, e) == (if Queued(proposal.plans, e) then 1 else 0)
             ensures ResultCount(proposal.facts, e) == 0
    {
      CompletionFactCounts(proposal.transitionId, result, e);
    }
    CompletionFactCounts(proposal.transitionId, result, proposal.transitionId);
    NewFactsAgree(facts, effects, proposal.facts, after, proposal.plans);
    CompletionTranscript(base, version.value.messages, result, proposal.plans);
  }

  lemma {:induction false} CompletionTranscript(base: seq<Message>, messages: seq<Message>, result: ModelResult,
                                                plans: seq<EffectPlan>)
    requires TranscriptAgrees(base, messages, [])
    requires |plans| == |result.calls|
    requires forall i :: 0 <= i < |plans| ==> plans[i].toolCallId == result.calls[i].toolCallId
    ensures TranscriptAgrees(base, messages + [Assistant(result.content, Engine.CallRefs(result.calls))], plans)
  {
    var message := Assistant(result.content, Engine.CallRefs(result.calls));
    assert (messages + [message])[|base|..] == messages[|base|..] + [message];
    OwedAppend(messages[|base|..], message);
    assert RefIds(message.calls) == PlanIds(plans);
    assert (messages + [message])[..|base|] == messages[..|base|];
  }

  lemma {:induction false} PreparationsLand(w: World, act: Act, plans: seq<EffectPlan>)
    requires Lands(w, act) && UnitOf(w.db, act).value.mutations == Preparations(plans)
    requires forall i, j :: 0 <= i < j < |plans| ==> plans[i].effectId != plans[j].effectId
    ensures PreparedBy(w.db.effects, AppliedBy(w, act).effects, plans)
  {
    var unit := UnitOf(w.db, act).value;
    FreshCommitIsCurrent(w.db, act.ownerEpoch, unit);
    forall i | 0 <= i < |plans| ensures plans[i].effectId !in w.db.effects {
      assert unit.mutations[i] in unit.mutations;
    }
    PreparationsApply(w.db.effects, act.ownerEpoch, unit.transitionId, plans);
  }

  lemma {:induction false} CompletionUnit(db: Db, act: Act)
    requires UnitOf(db, act).Some? && act.Step? && act.input.ModelCompleted?
    ensures var version, unit := db.history[act.revision], UnitOf(db, act).value;
            && Engine.ProposeModelCompletion(version, act.input.result).Ok?
            && var proposal := Engine.CompletionProposal(version, act.input.result);
               && unit.value == proposal.value
               && unit.facts == proposal.facts
               && unit.mutations == Preparations(proposal.plans)
  {
    var version := db.history[act.revision];
    var proposal := Engine.CompletionProposal(version, act.input.result);
    assert MutationsFor(version, act.input, proposal) == Preparations(proposal.plans);
  }

  lemma {:induction false} CompletionAgrees(w: World, act: Act)
    requires Lands(w, act) && DbAgrees(w.db) && act.Step? && act.input.ModelCompleted?
    ensures DbAgrees(AppliedBy(w, act))
  {
    hide UnitOf, StateAgrees;
    CompletionUnit(w.db, act);
    var proposal := Engine.ProposeModelCompletion(w.db.Current(), act.input.result).value;
    PreparationsLand(w, act, proposal.plans);
    CompletionStateAgrees(w.db.history[0].value.messages, w.db.Current(), w.db.effects, w.db.facts, act.input.result,
                          AppliedBy(w, act).effects);
  }

  // ---------- Runs ----------

  /** `RunSegmentRequest` forbids an `Initial` input while effect recovery is outstanding. */
  ghost predicate GuardedAct(w: World, act: Act) {
    act.Step? && act.input.Initial? && act.revision < |w.db.history| ==>
      !HasOutstandingRecovery(w.db.history[act.revision].value)
  }

  ghost predicate GuardedRun(w: World, acts: seq<Act>)
    requires w.db.history != []
    decreases |acts|
  {
    acts != [] ==> GuardedAct(w, acts[0]) && GuardedRun(Perform(w, acts[0]), acts[1..])
  }

  lemma {:induction false} LandedStepAgrees(w: World, act: Act)
    requires AgreementInv(w) && Lands(w, act)
    requires act.Step? && act.input.Initial? ==> Engine.RuntimeOf(w.db.Current().value).pending == []
    ensures DbAgrees(AppliedBy(w, act))
  {
    match act
    case Step(_, input, _, _, _) =>
      match input {
        case Initial(_, _, _) => InitialAgrees(w, act);
        case ModelCompleted(_) => CompletionAgrees(w, act);
        case EffectSettled(_) => EffectSettlementAgrees(w, act);
        case ApprovalResolved(_) => DenialAgrees(w, act);
      }
    case Authorize(_, _, _, _, _, _) => AuthorizationAgrees(w, act);
    case Reconcile(_, _, _, _, _) => ReconciliationAgrees(w, act);
  }

  lemma {:induction false} ChangeLands(w: World, act: Act)
    requires LogInv(w.db) && Changes(w, act)
    ensures Lands(w, act)
  {
    ChangeIsHonest(w, act);
  }

  lemma {:induction false} PerformKeepsAgreement(w: World, act: Act)
    requires AgreementInv(w) && GuardedAct(w, act)
    ensures AgreementInv(Perform(w, act))
  {
    PerformKeepsSafety(w, act);
    if Changes(w, act) {
      CommitActCases(w, act);
      ChangeLands(w, act);
      LandedStepAgrees(w, act);
    } else if act.Step? || act.Authorize? || act.Reconcile? {
      CommitActCases(w, act);
    }
  }

  lemma {:induction false} FreshAgrees(w: World)
    requires Fresh(w)
    ensures AgreementInv(w)
  {
    FreshIsSafe(w);
    var messages := w.db.Current().value.messages;
    assert messages[|messages|..] == [];
    assert PlanIds([]) == [];
  }

  lemma {:induction false} RunsKeepAgreement(w: World, acts: seq<Act>)
    requires AgreementInv(w) && GuardedRun(w, acts)
    ensures AgreementInv(Runs(w, acts))
    decreases |acts|
  {
    if acts != [] {
      PerformKeepsAgreement(w, acts[0]);
      RunsKeepAgreement(Perform(w, acts[0]), acts[1..]);
    }
  }

  /** The headline: state, ledger, transcript and facts agree at the end of every guarded run. */
  lemma {:induction false} StateAndLedgerAgree(start: World, acts: seq<Act>)
    requires Fresh(start) && GuardedRun(start, acts)
    ensures AgreementInv(Runs(start, acts))
  {
    FreshAgrees(start);
    RunsKeepAgreement(start, acts);
  }
}

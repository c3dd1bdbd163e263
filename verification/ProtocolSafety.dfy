/**
 What every run of the protocol keeps, whatever the coordinators, the host and the storage
 faults do: receipts and history agree, effect identities are never reused, the ledger only
 moves along legal transitions, and an effect attempt is executed at most once, under the
 authorization that the ledger recorded for it.
 */
module ProtocolSafety {
  import opened Wrappers
  import opened Contracts
  import opened CommitStore
  import opened Protocol
  import Engine

  // ---------- Invariants ----------

  ghost predicate Named(plan: EffectPlan) {
    plan.effectId.EffectOf? && plan.attemptId == AttemptOf(plan.effectId)
  }

  ghost predicate PlansNamed(value: StateValue) {
    value.runtime.Some? ==>
      forall i :: 0 <= i < |value.runtime.value.pending| ==> Named(value.runtime.value.pending[i])
  }

  ghost predicate VersionInv(db: Db, r: nat)
    requires r < |db.history|
  {
    db.history[r].revision == r && db.history[r].run == db.run && PlansNamed(db.history[r].value)
  }

  ghost predicate EntryInv(db: Db, i: nat)
    requires i < |db.log| && |db.history| == |db.log| + 1
  {
    var unit := db.log[i];
    && unit.revision == i
    && db.history[i + 1].transitionId == unit.transitionId
    && db.history[i + 1].value == unit.value
    && unit.transitionId in db.receipts
    && db.receipts[unit.transitionId] == Receipt(Fingerprint(unit), db.history[i + 1])
  }

  ghost predicate ReceiptInv(db: Db, t: Id)
    requires t in db.receipts && |db.history| == |db.log| + 1
  {
    && 1 <= db.receipts[t].version.revision < |db.history|
    && db.log[db.receipts[t].version.revision - 1].transitionId == t
  }

  /** The history, the log and the receipts tell the same story. */
  ghost predicate LogInv(db: Db) {
    && |db.history| == |db.log| + 1
    && (forall r :: 0 <= r < |db.history| ==> VersionInv(db, r))
    && (forall i :: 0 <= i < |db.log| ==> EntryInv(db, i))
    && (forall t :: t in db.receipts ==> ReceiptInv(db, t))
  }

  /** The unit applies the command of an approval, and of one that was given for the head of the queue of `v`. */
  ghost predicate CarriesApproval(v: StateVersion, unit: Unit, approval: ApprovalSettlement, epoch: nat)
    requires v.value.runtime.Some? && v.value.runtime.value.pending != []
  {
    && AuthorizationBinds(v, v.value.runtime.value.pending[0], Some(approval), epoch)
    && unit.dispositions == [Applied(approval.commandId)]
  }

  /** `unit`, built from version `v`, dispatches effect `e` under owner epoch `epoch`. */
  ghost predicate DispatchesHead(v: StateVersion, unit: Unit, e: Id, epoch: nat) {
    && unit.transitionId == DispatchTransition(v.transitionId, e, AttemptOf(e))
    && unit.mailboxCut.Some?
    && v.value.runtime.Some?
    && v.value.runtime.value.pending != []
    && v.value.runtime.value.pending[0].effectId == e
    && (v.value.runtime.value.pending[0].requiresApproval ==>
          exists approval :: CarriesApproval(v, unit, approval, epoch))
    && unit.value.runtime.Some?
    && unit.value.runtime.value.active.Some?
    && unit.value.runtime.value.active.value.effectId == e
    && unit.value.runtime.value.active.value.transitionId == unit.transitionId
    && unit.value.runtime.value.active.value.ownerEpoch == epoch
  }

  /** Transition `t` is the committed authorization of effect `e` under `epoch`. */
  ghost predicate AuthorizedBy(db: Db, t: Id, e: Id, epoch: nat)
    requires LogInv(db)
  {
    && t in db.receipts
    && var i := db.receipts[t].version.revision - 1;
       DispatchesHead(db.history[i], db.log[i], e, epoch)
  }

  ghost predicate SlotInv(db: Db, e: Id)
    requires LogInv(db) && e in db.effects
  {
    var slot := db.effects[e];
    && e.EffectOf? && e.transition in db.receipts
    && slot.attemptId == AttemptOf(e)
    && (slot.status == Prepared || slot.status == Rejected <==> slot.authorization.None?)
    && slot.authorization.Some? == slot.dispatchEpoch.Some?
    && (slot.authorization.Some? ==> AuthorizedBy(db, slot.authorization.value, e, slot.dispatchEpoch.value))
  }

  ghost predicate LedgerInv(db: Db)
    requires LogInv(db)
  {
    forall e :: e in db.effects ==> SlotInv(db, e)
  }

  /** The permit was issued by the authorization that the ledger holds for its effect. */
  ghost predicate PermitBinds(db: Db, t: Id, p: Permit) {
    && p.authorizationId == t
    && p.effectId in db.effects
    && p.attemptId == AttemptOf(p.effectId)
    && db.effects[p.effectId].authorization == Some(t)
    && db.effects[p.effectId].dispatchEpoch == Some(p.ownerEpoch)
  }

  ghost predicate PermitsBind(db: Db, permits: map<Id, Permit>) {
    forall t :: t in permits ==> PermitBinds(db, t, permits[t])
  }

  ghost predicate ExecutionRecorded(permits: map<Id, Permit>, x: Execution) {
    && x.authorizationId in permits
    && permits[x.authorizationId].claimed
    && permits[x.authorizationId].effectId == x.effectId
    && permits[x.authorizationId].attemptId == x.attemptId
    && permits[x.authorizationId].ownerEpoch == x.ownerEpoch
  }

  ghost predicate ExecutionsRecorded(permits: map<Id, Permit>, xs: seq<Execution>) {
    && (forall i :: 0 <= i < |xs| ==> ExecutionRecorded(permits, xs[i]))
    && (forall i, j :: 0 <= i < j < |xs| ==> xs[i].authorizationId != xs[j].authorizationId)
  }

  ghost predicate SafetyInv(w: World) {
    && LogInv(w.db) && LedgerInv(w.db)
    && PermitsBind(w.db, w.permits) && ExecutionsRecorded(w.permits, w.executions)
  }

  // ---------- Every unit that is sent is honest ----------

  ghost predicate Honest(v: StateVersion, unit: Unit, epoch: nat) {
    && unit.revision == v.revision
    && PlansNamed(unit.value)
    && Distinct(unit.mutations)
    && (forall i :: 0 <= i < |unit.mutations| ==> HonestMutation(v, unit, epoch, unit.mutations[i]))
  }

  ghost predicate HonestMutation(v: StateVersion, unit: Unit, epoch: nat, m: EffectMutation) {
    && ValidMutation(m)
    && (m.expected.None? ==>
          m.effectId.EffectOf? && m.effectId.transition == unit.transitionId && m.attemptId == AttemptOf(m.effectId))
    && (IsDispatch(m) ==> DispatchesHead(v, unit, m.effectId, epoch))
  }

  lemma {:induction false} CompletionIsHonest(version: StateVersion, input: StepInput, epoch: nat, stamp: nat)
    requires input.ModelCompleted? && Engine.Propose(version, input).Ok?
    ensures Honest(version, UnitFor(version, input, Engine.Propose(version, input).value, stamp), epoch)
  {
    hide Engine.OpeningFacts, Engine.FactsOfPlans, Engine.CallRefs;
    var proposal := Engine.Propose(version, input).value;
    var ms := MutationsFor(version, input, proposal);
    assert ms == Preparations(proposal.plans);
    forall i | 0 <= i < |ms| ensures ms[i] == Prepare(Engine.PlanFor(proposal.transitionId, input.result.calls[i], i)) {
    }
  }

  lemma {:induction false} SettlementKeepsNames(version: StateVersion, input: StepInput)
    requires PlansNamed(version.value) && input.Settles() && Engine.Propose(version, input).Ok?
    requires input.ApprovalResolved? ==> !input.approval.approved
    ensures PlansNamed(Engine.Propose(version, input).value.value)
    ensures Engine.Propose(version, input).value.plans == []
  {
    match input {
      case EffectSettled(s) =>
        if s.outcome != Indeterminate {
          Engine.TerminalSettlementPops(version, s);
        }
      case ApprovalResolved(s) =>
        Engine.DenialPops(version, s);
    }
  }

  lemma {:induction false} SettlementIsHonest(version: StateVersion, input: StepInput, epoch: nat, stamp: nat)
    requires PlansNamed(version.value) && input.Settles()
    requires Engine.Propose(version, input).Ok? && !Deferred(input, Engine.Propose(version, input).value)
    ensures Honest(version, UnitFor(version, input, Engine.Propose(version, input).value, stamp), epoch)
  {
    hide Engine.ProposeEffectSettlement, MutationsFor, Engine.DenialProposal;
    SettlementKeepsNames(version, input);
    SettlementSendsOneMutation(version, input, Engine.Propose(version, input).value);
  }

  lemma {:induction false} SettlementSendsOneMutation(version: StateVersion, input: StepInput, proposal: Proposal)
    requires input.Settles() && proposal.plans == []
    ensures MutationsFor(version, input, proposal)
            == if PostReconciliation(version, input) then [] else [SettlementMutation(input)]
  {
    assert Preparations(proposal.plans) == [];
  }

  lemma {:induction false} AuthorizationIsHonest(db: Db, act: Act)
    requires UnitOf(db, act).Some? && act.Authorize? && PlansNamed(db.history[act.revision].value)
    requires db.history[act.revision].revision == act.revision
    ensures Honest(db.history[act.revision], UnitOf(db, act).value, act.ownerEpoch)
  {
    hide Engine.Propose, SettlementBinds;
    var version, approval := db.history[act.revision], act.approval;
    assert approval.Some? ==> CarriesApproval(version, UnitOf(db, act).value, approval.value, act.ownerEpoch);
  }

  lemma {:induction false} UnitIsHonest(db: Db, act: Act)
    requires LogInv(db) && UnitOf(db, act).Some?
    ensures Honest(db.history[act.revision], UnitOf(db, act).value, act.ownerEpoch)
  {
    hide Engine.ProposeEffectSettlement, Engine.ProposeApprovalResolution, PostReconciliation;
    var version := db.history[act.revision];
    assert VersionInv(db, act.revision);
    match act
    case Step(_, input, epoch, stamp, _) =>
      if input.Settles() {
        SettlementIsHonest(version, input, epoch, stamp);
      } else if input.ModelCompleted? {
        CompletionIsHonest(version, input, epoch, stamp);
      } else {
        assert MutationsFor(version, input, ProposeStep(version, input, epoch).value) == [];
      }
    case Authorize(_, _, _, _, _, _) =>
      AuthorizationIsHonest(db, act);
    case Reconcile(_, _, _, _, _) =>
  }

  // ---------- A commit keeps the invariants ----------

  lemma {:induction false} FreshCommitIsCurrent(db: Db, epoch: nat, unit: Unit)
    requires LogInv(db) && Refusal(db, epoch, unit).None?
    ensures unit.revision == db.Current().revision == |db.history| - 1
    ensures unit.transitionId !in db.receipts && epoch == db.ownerEpoch
    ensures forall m :: m in unit.mutations ==> MutationAccepted(db.effects, m)
    ensures forall d :: d in unit.dispositions ==> DispositionAccepted(db.commands, d)
    ensures unit.mailboxCut.Some? ==> unit.mailboxCut.value == db.mailboxCut
  {
    assert VersionInv(db, |db.history| - 1);
  }

  lemma {:induction false} CommitKeepsLog(db: Db, epoch: nat, unit: Unit)
    requires LogInv(db) && Refusal(db, epoch, unit).None? && Honest(db.Current(), unit, epoch)
    ensures LogInv(Apply(db, epoch, unit))
  {
    FreshCommitIsCurrent(db, epoch, unit);
    assert VersionInv(db, |db.history| - 1);
    var next := Apply(db, epoch, unit);
    forall i | 0 <= i < |next.log| ensures EntryInv(next, i) {
      if i < |db.log| {
        assert EntryInv(db, i);
      }
    }
    forall t | t in next.receipts ensures ReceiptInv(next, t) {
      if t != unit.transitionId {
        assert ReceiptInv(db, t);
      }
    }
    forall r | 0 <= r < |next.history| ensures VersionInv(next, r) {
      if r < |db.history| {
        assert VersionInv(db, r);
      }
    }
  }

  lemma {:induction false} AuthorizationIsStable(db: Db, epoch: nat, unit: Unit, t: Id, e: Id, authorized: nat)
    requires LogInv(db) && Refusal(db, epoch, unit).None? && Honest(db.Current(), unit, epoch)
    requires LogInv(Apply(db, epoch, unit))
    requires AuthorizedBy(db, t, e, authorized)
    ensures AuthorizedBy(Apply(db, epoch, unit), t, e, authorized)
  {
    FreshCommitIsCurrent(db, epoch, unit);
    assert ReceiptInv(db, t);
  }

  lemma {:induction false} DispatchIsRecorded(db: Db, epoch: nat, unit: Unit, e: Id)
    requires LogInv(db) && Refusal(db, epoch, unit).None?
    requires LogInv(Apply(db, epoch, unit))
    requires DispatchesHead(db.Current(), unit, e, epoch)
    ensures AuthorizedBy(Apply(db, epoch, unit), unit.transitionId, e, epoch)
  {
    FreshCommitIsCurrent(db, epoch, unit);
  }

  /** The slot that a mutation leaves, before it is looked up in the whole ledger. */
  lemma {:induction false} SlotAfterIsSound(db: Db, epoch: nat, unit: Unit, m: EffectMutation)
    requires LogInv(db) && LedgerInv(db)
    requires MutationAccepted(db.effects, m) && HonestMutation(db.Current(), unit, epoch, m)
    ensures var slot := SlotAfter(db.effects, epoch, unit.transitionId, m);
            && m.effectId.EffectOf?
            && (m.effectId.transition == unit.transitionId || m.effectId.transition in db.receipts)
            && slot.attemptId == AttemptOf(m.effectId)
            && (slot.status == Prepared || slot.status == Rejected <==> slot.authorization.None?)
            && slot.authorization.Some? == slot.dispatchEpoch.Some?
            && (slot.authorization.Some? ==>
                  if IsDispatch(m)
                  then slot.authorization == Some(unit.transitionId) && slot.dispatchEpoch == Some(epoch)
                  else AuthorizedBy(db, slot.authorization.value, m.effectId, slot.dispatchEpoch.value))
  {
    hide Engine.Propose, LogInv;
    if m.expected.Some? {
      assert SlotInv(db, m.effectId);
    }
  }

  lemma {:induction false} MutatedSlotIsSound(db: Db, epoch: nat, unit: Unit, k: nat)
    requires LogInv(db) && LedgerInv(db) && Refusal(db, epoch, unit).None? && Honest(db.Current(), unit, epoch)
    requires LogInv(Apply(db, epoch, unit)) && k < |unit.mutations|
    requires unit.mutations[k].effectId in Apply(db, epoch, unit).effects
    ensures SlotInv(Apply(db, epoch, unit), unit.mutations[k].effectId)
  {
    hide LedgerInv, AuthorizationBinds;
    var m := unit.mutations[k];
    assert m in unit.mutations && HonestMutation(db.Current(), unit, epoch, m);
    SlotAfterIsSound(db, epoch, unit, m);
    MutatedSlot(db.effects, epoch, unit.transitionId, unit.mutations, k);
    var slot := SlotAfter(db.effects, epoch, unit.transitionId, m);
    if IsDispatch(m) {
      DispatchIsRecorded(db, epoch, unit, m.effectId);
    } else if slot.authorization.Some? {
      AuthorizationIsStable(db, epoch, unit, slot.authorization.value, m.effectId, slot.dispatchEpoch.value);
    }
  }

  lemma {:induction false} CommitKeepsLedger(db: Db, epoch: nat, unit: Unit)
    requires LogInv(db) && LedgerInv(db) && Refusal(db, epoch, unit).None? && Honest(db.Current(), unit, epoch)
    ensures LogInv(Apply(db, epoch, unit)) && LedgerInv(Apply(db, epoch, unit))
  {
    CommitKeepsLog(db, epoch, unit);
    var next := Apply(db, epoch, unit);
    forall e | e in next.effects ensures SlotInv(next, e) {
      if Mentions(unit.mutations, e) {
        var k :| 0 <= k < |unit.mutations| && unit.mutations[k].effectId == e;
        MutatedSlotIsSound(db, epoch, unit, k);
      } else {
        UntouchedSlot(db.effects, epoch, unit.transitionId, unit.mutations, e);
        assert SlotInv(db, e);
        var slot := db.effects[e];
        if slot.authorization.Some? {
          AuthorizationIsStable(db, epoch, unit, slot.authorization.value, e, slot.dispatchEpoch.value);
        }
      }
    }
  }

  /** An authorization that the ledger has recorded is never replaced. */
  lemma {:induction false} CommitKeepsAuthorization(db: Db, epoch: nat, unit: Unit, e: Id)
    requires LogInv(db) && LedgerInv(db) && Refusal(db, epoch, unit).None? && Honest(db.Current(), unit, epoch)
    requires e in db.effects && db.effects[e].authorization.Some?
    ensures e in Apply(db, epoch, unit).effects
    ensures Apply(db, epoch, unit).effects[e].authorization == db.effects[e].authorization
    ensures Apply(db, epoch, unit).effects[e].dispatchEpoch == db.effects[e].dispatchEpoch
  {
    hide Engine.Propose, ReconciliationRefusal, LogInv;
    assert SlotInv(db, e);
    FreshCommitIsCurrent(db, epoch, unit);
    if Mentions(unit.mutations, e) {
      var k :| 0 <= k < |unit.mutations| && unit.mutations[k].effectId == e;
      assert unit.mutations[k] in unit.mutations;
      MutatedSlot(db.effects, epoch, unit.transitionId, unit.mutations, k);
    } else {
      UntouchedSlot(db.effects, epoch, unit.transitionId, unit.mutations, e);
    }
  }

  // ---------- Acts and runs keep the invariants ----------

  lemma {:induction false} SameLedgerKeepsSafety(w: World, next: World)
    requires SafetyInv(w)
    requires next.db.run == w.db.run && next.db.history == w.db.history && next.db.log == w.db.log
    requires next.db.receipts == w.db.receipts && next.db.effects == w.db.effects
    requires next.permits == w.permits && next.executions == w.executions
    ensures SafetyInv(next)
  {
    forall r | 0 <= r < |next.db.history| ensures VersionInv(next.db, r) { assert VersionInv(w.db, r); }
    forall i | 0 <= i < |next.db.log| ensures EntryInv(next.db, i) { assert EntryInv(w.db, i); }
    forall t | t in next.db.receipts ensures ReceiptInv(next.db, t) { assert ReceiptInv(w.db, t); }
    forall e | e in next.db.effects ensures SlotInv(next.db, e) { assert SlotInv(w.db, e); }
    forall t | t in next.permits ensures PermitBinds(next.db, t, next.permits[t]) {
      assert PermitBinds(w.db, t, w.permits[t]);
    }
  }

  /** The act reaches the store, and the store applies its unit. */
  ghost predicate Changes(w: World, act: Act)
    requires w.db.history != []
  {
    && (act.Step? || act.Authorize? || act.Reconcile?)
    && UnitOf(w.db, act).Some?
    && Refusal(w.db, act.ownerEpoch, UnitOf(w.db, act).value).None?
    && !act.fault.LostBefore?
  }

  lemma {:induction false} RefusalNeverCommits(db: Db, act: Act)
    requires db.history != [] && (act.Step? || act.Authorize? || act.Reconcile?)
    ensures UnitOf(db, act).Some? && Refusal(db, act.ownerEpoch, UnitOf(db, act).value).Some?
            ==> !Refusal(db, act.ownerEpoch, UnitOf(db, act).value).value.Committed?
  {
    hide UnitOf, ReconciledValue;
  }

  lemma {:induction false} CommitActCases(w: World, act: Act)
    requires w.db.history != [] && (act.Step? || act.Authorize? || act.Reconcile?)
    ensures Changes(w, act) ==> CommitAct(w, act).0.db == Apply(w.db, act.ownerEpoch, UnitOf(w.db, act).value)
    ensures !Changes(w, act) ==> CommitAct(w, act).0 == w && !CommitAct(w, act).1.Committed?
  {
    hide Refusal, UnitOf, Apply;
    RefusalNeverCommits(w.db, act);
  }

  /** A unit that is applied was honestly built from the current version, never from a stale one. */
  lemma {:induction false} ChangeIsHonest(w: World, act: Act)
    requires LogInv(w.db) && Changes(w, act)
    ensures act.revision == |w.db.history| - 1
    ensures Honest(w.db.Current(), UnitOf(w.db, act).value, act.ownerEpoch)
  {
    UnitIsHonest(w.db, act);
    FreshCommitIsCurrent(w.db, act.ownerEpoch, UnitOf(w.db, act).value);
    assert VersionInv(w.db, act.revision);
  }

  lemma {:induction false} CommitKeepsPermits(db: Db, epoch: nat, unit: Unit, permits: map<Id, Permit>)
    requires LogInv(db) && LedgerInv(db) && PermitsBind(db, permits)
    requires Refusal(db, epoch, unit).None? && Honest(db.Current(), unit, epoch)
    ensures PermitsBind(Apply(db, epoch, unit), permits) && unit.transitionId !in permits
  {
    FreshCommitIsCurrent(db, epoch, unit);
    forall t | t in permits ensures PermitBinds(Apply(db, epoch, unit), t, permits[t]) && t != unit.transitionId {
      assert PermitBinds(db, t, permits[t]);
      assert SlotInv(db, permits[t].effectId);
      CommitKeepsAuthorization(db, epoch, unit, permits[t].effectId);
    }
  }

  lemma {:induction false} IssueKeepsRecords(db: Db, permits: map<Id, Permit>, xs: seq<Execution>, t: Id, p: Permit)
    requires PermitsBind(db, permits) && ExecutionsRecorded(permits, xs)
    requires t !in permits && PermitBinds(db, t, p)
    ensures PermitsBind(db, permits[t := p]) && ExecutionsRecorded(permits[t := p], xs)
  {
    forall i | 0 <= i < |xs| ensures ExecutionRecorded(permits[t := p], xs[i]) {
      assert ExecutionRecorded(permits, xs[i]);
    }
  }

  lemma {:induction false} ClaimKeepsRecords(db: Db, permits: map<Id, Permit>, xs: seq<Execution>, id: Id)
    requires PermitsBind(db, permits) && ExecutionsRecorded(permits, xs)
    requires id in permits && !permits[id].claimed
    ensures var p := permits[id];
            var claimed := permits[id := p.(claimed := true)];
            && PermitsBind(db, claimed)
            && ExecutionsRecorded(claimed, xs + [Execution(p.effectId, p.attemptId, p.authorizationId, p.ownerEpoch)])
  {
    assert PermitBinds(db, id, permits[id]);
    var claimed := permits[id := permits[id].(claimed := true)];
    forall i | 0 <= i < |xs| ensures ExecutionRecorded(claimed, xs[i]) && xs[i].authorizationId != id {
      assert ExecutionRecorded(permits, xs[i]);
    }
  }

  lemma {:induction false} CommitActKeepsPermits(w: World, act: Act)
    requires SafetyInv(w) && Changes(w, act)
    ensures PermitsBind(CommitAct(w, act).0.db, CommitAct(w, act).0.permits)
    ensures ExecutionsRecorded(CommitAct(w, act).0.permits, CommitAct(w, act).0.executions)
  {
    CommitActCases(w, act);
    ChangeIsHonest(w, act);
    var next, t := CommitAct(w, act).0, UnitOf(w.db, act).value.transitionId;
    CommitKeepsPermits(w.db, act.ownerEpoch, UnitOf(w.db, act).value, w.permits);
    if act.Authorize? && CommitAct(w, act).1.Committed? {
      IssuedPermitBinds(w, act);
      IssueKeepsRecords(next.db, w.permits, w.executions, t, next.permits[t]);
      assert next.permits == w.permits[t := next.permits[t]];
    } else {
      assert next.permits == w.permits;
    }
    assert next.executions == w.executions;
  }

  lemma {:induction false} IssuedPermitBinds(w: World, act: Act)
    requires SafetyInv(w) && act.Authorize? && Changes(w, act)
    requires UnitOf(w.db, act).value.transitionId in CommitAct(w, act).0.permits
    requires UnitOf(w.db, act).value.transitionId !in w.permits
    ensures var t := UnitOf(w.db, act).value.transitionId;
            PermitBinds(CommitAct(w, act).0.db, t, CommitAct(w, act).0.permits[t])
  {
    hide Engine.Propose, Refusal, ReconciledValue, LedgerInv, AuthorizationBinds;
    CommitActCases(w, act);
    ChangeIsHonest(w, act);
    var unit := UnitOf(w.db, act).value;
    var plan := Engine.RuntimeOf(w.db.Current().value).pending[0];
    assert VersionInv(w.db, act.revision) && Named(plan);
    MutatedSlot(w.db.effects, act.ownerEpoch, unit.transitionId, unit.mutations, 0);
    FreshCommitIsCurrent(w.db, act.ownerEpoch, unit);
    assert unit.mutations[0] in unit.mutations;
  }

  lemma {:induction false} PerformKeepsSafety(w: World, act: Act)
    requires SafetyInv(w)
    ensures SafetyInv(Perform(w, act))
  {
    hide Engine.ProposeEffectSettlement, Engine.ProposeModelCompletion, Refusal;
    hide Engine.ProposeApprovalResolution, ReconciledValue;
    if act.Step? || act.Authorize? || act.Reconcile? {
      CommitActCases(w, act);
      if Changes(w, act) {
        ChangeIsHonest(w, act);
        CommitKeepsLedger(w.db, act.ownerEpoch, UnitOf(w.db, act).value);
        CommitActKeepsPermits(w, act);
      }
    } else if act.Execute? {
      if act.authorizationId in w.permits && !w.permits[act.authorizationId].claimed {
        ClaimKeepsRecords(w.db, w.permits, w.executions, act.authorizationId);
      }
    } else {
      SameLedgerKeepsSafety(w, Perform(w, act));
    }
  }

  lemma {:induction false} FreshIsSafe(w: World)
    requires Fresh(w)
    ensures SafetyInv(w)
  {
  }

  lemma {:induction false} RunsKeepSafety(w: World, acts: seq<Act>)
    requires SafetyInv(w)
    ensures SafetyInv(Runs(w, acts))
    decreases |acts|
  {
    if acts != [] {
      PerformKeepsSafety(w, acts[0]);
      RunsKeepSafety(Perform(w, acts[0]), acts[1..]);
    }
  }

  // ---------- Execution: at most once, and only as authorized ----------

  /** No run executes an effect attempt twice: not across restarts, replays, lost answers or competing owners. */
  lemma {:induction false} AtMostOnceExecution(start: World, acts: seq<Act>, i: nat, j: nat)
    requires Fresh(start)
    requires i < j < |Runs(start, acts).executions|
    ensures Runs(start, acts).executions[i].attemptId != Runs(start, acts).executions[j].attemptId
    ensures Runs(start, acts).executions[i].effectId != Runs(start, acts).executions[j].effectId
  {
    FreshIsSafe(start);
    RunsKeepSafety(start, acts);
    var w := Runs(start, acts);
    var x, y := w.executions[i], w.executions[j];
    assert ExecutionRecorded(w.permits, x) && ExecutionRecorded(w.permits, y);
    assert PermitBinds(w.db, x.authorizationId, w.permits[x.authorizationId]);
    assert PermitBinds(w.db, y.authorizationId, w.permits[y.authorizationId]);
  }

  /**
   Every execution runs under the one authorization that the ledger holds for its effect. That
   authorization is a committed transition: it dispatched the head of the queue under the same
   owner epoch, and for an approval-gated plan it applies, in the same unit of work, the command
   of an approved settlement that binds to exactly that head.
   */
  lemma {:induction false} ExecutedOnlyAsAuthorized(start: World, acts: seq<Act>, i: nat)
    requires Fresh(start)
    requires i < |Runs(start, acts).executions|
    ensures var db, x := Runs(start, acts).db, Runs(start, acts).executions[i];
            && x.effectId in db.effects
            && x.attemptId == AttemptOf(x.effectId)
            && db.effects[x.effectId].status != Prepared
            && db.effects[x.effectId].status != Rejected
            && db.effects[x.effectId].authorization == Some(x.authorizationId)
            && db.effects[x.effectId].dispatchEpoch == Some(x.ownerEpoch)
            && LogInv(db)
            && AuthorizedBy(db, x.authorizationId, x.effectId, x.ownerEpoch)
  {
    FreshIsSafe(start);
    RunsKeepSafety(start, acts);
    var w := Runs(start, acts);
    var x := w.executions[i];
    assert ExecutionRecorded(w.permits, x);
    assert PermitBinds(w.db, x.authorizationId, w.permits[x.authorizationId]);
    assert SlotInv(w.db, x.effectId);
  }

  /** The act commits the authorization `t` of an effect, at the cut and under the owner that the store has. */
  ghost predicate Authorizes(w: World, act: Act, t: Id, effect: Id, epoch: nat)
    requires w.db.history != []
  {
    && act.Authorize? && Changes(w, act)
    && UnitOf(w.db, act).value.transitionId == t
    && DispatchesHead(w.db.Current(), UnitOf(w.db, act).value, effect, epoch)
    && act.cut == w.db.mailboxCut && act.ownerEpoch == w.db.ownerEpoch == epoch
  }

  /** Act `k` of the run is that authorization. */
  ghost predicate AuthorizesAt(start: World, acts: seq<Act>, k: nat, t: Id, effect: Id, epoch: nat)
    requires start.db.history != [] && k < |acts|
  {
    Authorizes(Runs(start, acts[..k]), acts[k], t, effect, epoch)
  }

  lemma {:induction false} RunsUpToLast(start: World, acts: seq<Act>)
    requires start.db.history != [] && acts != []
    ensures Runs(start, acts) == Perform(Runs(start, acts[..|acts| - 1]), acts[|acts| - 1])
  {
    hide Engine.Propose, Refusal, ReconciledValue, UnitOf;
    RunsOneMore(start, acts[..|acts| - 1], acts[|acts| - 1]);
    assert acts[..|acts| - 1] + [acts[|acts| - 1]] == acts;
  }

  lemma {:induction false} AuthorizesAtInFront(start: World, acts: seq<Act>, k: nat, t: Id, effect: Id, epoch: nat)
    requires start.db.history != [] && k < |acts| - 1 && AuthorizesAt(start, acts[..|acts| - 1], k, t, effect, epoch)
    ensures AuthorizesAt(start, acts, k, t, effect, epoch)
  {
    assert acts[..|acts| - 1][..k] == acts[..k];
  }

  /** Every permit was issued by one act of the run. */
  lemma {:induction false} PermitWasIssued(start: World, acts: seq<Act>, t: Id) returns (k: nat)
    requires Fresh(start) && t in Runs(start, acts).permits
    ensures k < |acts|
    ensures var p := Runs(start, acts).permits[t]; AuthorizesAt(start, acts, k, t, p.effectId, p.ownerEpoch)
    decreases |acts|
  {
    hide Authorizes, SafetyInv, Perform;
    RunsUpToLast(start, acts);
    var front, last := acts[..|acts| - 1], acts[|acts| - 1];
    var w := Runs(start, front);
    FreshIsSafe(start);
    RunsKeepSafety(start, front);
    if t in w.permits {
      k := PermitWasIssued(start, front, t);
      PermitIsKept(w, last, t);
      AuthorizesAtInFront(start, acts, k, t, w.permits[t].effectId, w.permits[t].ownerEpoch);
    } else {
      k := |acts| - 1;
      IssuingActAuthorizes(w, last, t);
    }
  }

  /** An issued permit never changes, except that it is claimed. */
  lemma {:induction false} PermitIsKept(w: World, act: Act, t: Id)
    requires SafetyInv(w) && t in w.permits
    ensures t in Perform(w, act).permits
    ensures Perform(w, act).permits[t] == w.permits[t] || Perform(w, act).permits[t] == w.permits[t].(claimed := true)
  {
    hide LedgerInv, PermitsBind, ExecutionsRecorded, Honest, Refusal;
    if act.Step? || act.Authorize? || act.Reconcile? {
      CommitActCases(w, act);
      if Changes(w, act) {
        ChangeIsHonest(w, act);
        CommitKeepsPermits(w.db, act.ownerEpoch, UnitOf(w.db, act).value, w.permits);
      }
    }
  }

  lemma {:induction false} IssuingActAuthorizes(w: World, act: Act, t: Id)
    requires SafetyInv(w) && t !in w.permits && t in Perform(w, act).permits
    ensures var p := Perform(w, act).permits[t]; Authorizes(w, act, t, p.effectId, p.ownerEpoch)
  {
    hide LedgerInv, PermitsBind, ExecutionsRecorded;
    assert act.Authorize?;
    CommitActCases(w, act);
    ChangeIsHonest(w, act);
    var unit := UnitOf(w.db, act).value;
    assert HonestMutation(w.db.Current(), unit, act.ownerEpoch, unit.mutations[0]);
    CutIsCurrent(w.db, act.ownerEpoch, unit);
  }

  lemma {:induction false} CutIsCurrent(db: Db, epoch: nat, unit: Unit)
    requires LogInv(db) && Refusal(db, epoch, unit).None?
    ensures epoch == db.ownerEpoch && (unit.mailboxCut.Some? ==> unit.mailboxCut.value == db.mailboxCut)
  {
    FreshCommitIsCurrent(db, epoch, unit);
  }

  /**
   Execution `i` of a run is act `m`, and it comes after the act `k` that committed its
   authorization, at the very mailbox cut and owner epoch that the store had at that moment.
   */
  lemma {:induction false} ExecutedAfterItsAuthorization(start: World, acts: seq<Act>, i: nat) returns (k: nat, m: nat)
    requires Fresh(start) && i < |Runs(start, acts).executions|
    ensures k < m < |acts|
    ensures var x := Runs(start, acts).executions[i];
            && AuthorizesAt(start, acts, k, x.authorizationId, x.effectId, x.ownerEpoch)
            && acts[m] == Act.Execute(x.authorizationId)
    ensures |Runs(start, acts[..m]).executions| == i
    decreases |acts|
  {
    hide AuthorizesAt, Perform;
    RunsUpToLast(start, acts);
    var front, last := acts[..|acts| - 1], acts[|acts| - 1];
    var w := Runs(start, front);
    var x := Runs(start, acts).executions[i];
    ExecutionsAreKept(w, last);
    if i < |w.executions| {
      k, m := ExecutedAfterItsAuthorization(start, front, i);
      assert front[..m] == acts[..m];
    } else {
      PermitNamesItself(start, front, last.authorizationId);
      m := |acts| - 1;
      k := PermitWasIssued(start, front, last.authorizationId);
    }
    AuthorizesAtInFront(start, acts, k, x.authorizationId, x.effectId, x.ownerEpoch);
  }

  lemma {:induction false} PermitNamesItself(start: World, acts: seq<Act>, t: Id)
    requires Fresh(start) && t in Runs(start, acts).permits
    ensures Runs(start, acts).permits[t].authorizationId == t
  {
    FreshIsSafe(start);
    RunsKeepSafety(start, acts);
    assert PermitBinds(Runs(start, acts).db, t, Runs(start, acts).permits[t]);
  }

  lemma {:induction false} ExecutionsAreKept(w: World, act: Act)
    requires w.db.history != []
    ensures var next := Perform(w, act);
            if act.Execute? && act.authorizationId in w.permits && !w.permits[act.authorizationId].claimed
            then var p := w.permits[act.authorizationId];
                 next.executions == w.executions + [Execution(p.effectId, p.attemptId, p.authorizationId, p.ownerEpoch)]
            else next.executions == w.executions
  {
    if act.Step? || act.Authorize? || act.Reconcile? {
      CommitActCases(w, act);
    }
  }

  // ---------- The ledger only moves forward ----------

  function Rank(status: EffectStatus): nat {
    match status
    case Prepared => 1
    case Dispatched => 2
    case Unknown => 3
    case _ => 4
  }

  function MutationsOf(ms: seq<EffectMutation>, e: Id): nat {
    if ms == [] then 0 else MutationsOf(ms[..|ms| - 1], e) + if ms[|ms| - 1].effectId == e then 1 else 0
  }

  /** How often the transition log mutates an effect. */
  function MutationCount(log: seq<Unit>, e: Id): nat {
    if log == [] then 0 else MutationCount(log[..|log| - 1], e) + MutationsOf(log[|log| - 1].mutations, e)
  }

  lemma {:induction false} AtMostOneMutation(ms: seq<EffectMutation>, e: Id)
    requires Distinct(ms)
    ensures MutationsOf(ms, e) == if Mentions(ms, e) then 1 else 0
  {
    if ms != [] {
      var front := ms[..|ms| - 1];
      AtMostOneMutation(front, e);
      if Mentions(ms, e) && ms[|ms| - 1].effectId != e {
        var k :| 0 <= k < |ms| && ms[k].effectId == e;
        assert front[k].effectId == e;
      }
    }
  }

  function RankIn(effects: map<Id, Slot>, e: Id): nat {
    if e in effects then Rank(effects[e].status) else 0
  }

  ghost predicate CountInv(db: Db) {
    forall e :: MutationCount(db.log, e) <= RankIn(db.effects, e)
  }

  lemma {:induction false} CommitMovesForward(db: Db, epoch: nat, unit: Unit, e: Id)
    requires LogInv(db) && Refusal(db, epoch, unit).None? && Honest(db.Current(), unit, epoch)
    ensures var next := Apply(db, epoch, unit).effects;
            && (e in db.effects ==> e in next)
            && (!Mentions(unit.mutations, e) ==> RankIn(next, e) == RankIn(db.effects, e))
            && (Mentions(unit.mutations, e) ==> RankIn(next, e) > RankIn(db.effects, e))
            && (e in db.effects && next[e].status != db.effects[e].status ==>
                  LegalTransition(db.effects[e].status, next[e].status))
            && (e !in db.effects && e in next ==> next[e].status == Prepared)
  {
    hide Engine.Propose, Refusal, ApplyMutations;
    FreshCommitIsCurrent(db, epoch, unit);
    if Mentions(unit.mutations, e) {
      var k :| 0 <= k < |unit.mutations| && unit.mutations[k].effectId == e;
      var m := unit.mutations[k];
      assert m in unit.mutations && HonestMutation(db.Current(), unit, epoch, m);
      MutatedSlot(db.effects, epoch, unit.transitionId, unit.mutations, k);
    } else {
      UntouchedSlot(db.effects, epoch, unit.transitionId, unit.mutations, e);
    }
  }

  lemma {:induction false} PerformKeepsCount(w: World, act: Act)
    requires SafetyInv(w) && CountInv(w.db)
    ensures CountInv(Perform(w, act).db)
  {
    hide Engine.Propose, ReconciledValue, UnitOf;
    if act.Step? || act.Authorize? || act.Reconcile? {
      CommitActCases(w, act);
      if Changes(w, act) {
        ChangeIsHonest(w, act);
        var unit, next := UnitOf(w.db, act).value, Perform(w, act).db;
        forall e ensures MutationCount(next.log, e) <= RankIn(next.effects, e) {
          CommitMovesForward(w.db, act.ownerEpoch, unit, e);
          AtMostOneMutation(unit.mutations, e);
          assert next.log[..|next.log| - 1] == w.db.log;
        }
      }
    }
  }

  lemma {:induction false} RunsKeepCount(w: World, acts: seq<Act>)
    requires SafetyInv(w) && CountInv(w.db)
    ensures CountInv(Runs(w, acts).db)
    decreases |acts|
  {
    if acts != [] {
      PerformKeepsSafety(w, acts[0]);
      PerformKeepsCount(w, acts[0]);
      RunsKeepCount(Perform(w, acts[0]), acts[1..]);
    }
  }

  /** An effect is mutated at most four times in any run: prepared, dispatched, unknown, settled. */
  lemma {:induction false} AttemptIsMutatedAtMostFourTimes(start: World, acts: seq<Act>, e: Id)
    requires Fresh(start)
    ensures MutationCount(Runs(start, acts).db.log, e) <= 4
  {
    FreshIsSafe(start);
    RunsKeepCount(start, acts);
  }

  lemma {:induction false} PerformMovesForward(w: World, act: Act, e: Id)
    requires SafetyInv(w) && e in w.db.effects
    ensures e in Perform(w, act).db.effects
    ensures var before, after := w.db.effects[e].status, Perform(w, act).db.effects[e].status;
            after == before || LegalTransition(before, after)
  {
    hide Engine.Propose, Refusal, Apply, UnitOf, LedgerInv, HonestMutation;
    if act.Step? || act.Authorize? || act.Reconcile? {
      CommitActCases(w, act);
      if Changes(w, act) {
        ChangeIsHonest(w, act);
        CommitMovesForward(w.db, act.ownerEpoch, UnitOf(w.db, act).value, e);
      }
    }
  }

  /** A settled effect stays settled as it was: in particular a reconciled effect leaves UNKNOWN exactly once. */
  lemma {:induction false} SettledStaysSettled(w: World, acts: seq<Act>, e: Id)
    requires SafetyInv(w) && e in w.db.effects && Terminal(w.db.effects[e].status)
    ensures e in Runs(w, acts).db.effects
    ensures Runs(w, acts).db.effects[e].status == w.db.effects[e].status
    decreases |acts|
  {
    if acts != [] {
      PerformKeepsSafety(w, acts[0]);
      PerformMovesForward(w, acts[0], e);
      SettledStaysSettled(Perform(w, acts[0]), acts[1..], e);
    }
  }
}

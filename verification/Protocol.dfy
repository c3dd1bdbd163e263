/**
 The durable effect protocol as a transition system. An `Act` is one atomic step that some
 coordinator, the executor or the host may take against the shared store; a run is any
 sequence of acts, by any number of coordinators, live or restarted.
 */
module Protocol {
  import opened Wrappers
  import opened Contracts
  import opened CommitStore
  import Engine

  datatype Permit = Permit(
    effectId: Id,
    attemptId: Id,
    authorizationId: Id,
    ownerEpoch: nat,
    idempotencyKey: Option<string>,
    claimed: bool)

  datatype Execution = Execution(effectId: Id, attemptId: Id, authorizationId: Id, ownerEpoch: nat)

  /** The store, the permits it has handed out and the calls the executor has received. */
  datatype World = World(db: Db, permits: map<Id, Permit>, executions: seq<Execution>)

  // ---------- What a coordinator sends ----------

  /** The settlement already reflected by a committed reconciliation: it commits without an effect mutation. */
  predicate PostReconciliation(version: StateVersion, input: StepInput) {
    && input.EffectSettled?
    && version.value.runtime.Some?
    && version.value.runtime.value.reconciled.Some?
    && version.value.runtime.value.reconciled.value.reconciledInputId == input.effect.inputId
  }

  function SettlementMutation(input: StepInput): EffectMutation
    requires input.Settles()
  {
    match input
    case EffectSettled(s) => EffectMutation(s.effectId, s.attemptId, Some(Dispatched), StatusOf(s.outcome), None)
    case ApprovalResolved(s) => EffectMutation(s.effectId, s.attemptId, Some(Prepared), Rejected, None)
  }

  function Preparations(plans: seq<EffectPlan>): (ms: seq<EffectMutation>)
    ensures |ms| == |plans|
    ensures forall i :: 0 <= i < |plans| ==> ms[i] == Prepare(plans[i])
  {
    seq(|plans|, i requires 0 <= i < |plans| => Prepare(plans[i]))
  }

  /** An approved settlement is not committed on its own: it rides on the dispatch authorization. */
  predicate Deferred(input: StepInput, proposal: Proposal) {
    && input.ApprovalResolved?
    && input.approval.approved
    && proposal.next.PreparedEffect?
    && proposal.next.kind == Dispatch
  }

  function MutationsFor(version: StateVersion, input: StepInput, proposal: Proposal): seq<EffectMutation> {
    (if input.Settles() && !PostReconciliation(version, input) then [SettlementMutation(input)] else [])
    + Preparations(proposal.plans)
  }

  function UnitFor(version: StateVersion, input: StepInput, proposal: Proposal, stamp: nat): Unit {
    Unit(proposal.transitionId, version.revision, proposal.value, proposal.facts, proposal.dispositions,
         MutationsFor(version, input, proposal), proposal.plans, None, None, stamp)
  }

  /** The checks of the coordinator and the engine before a step is sent to the store. */
  function ProposeStep(version: StateVersion, input: StepInput, ownerEpoch: nat): Result<Proposal> {
    if input.Settles() && !SettlementBinds(version, input, ownerEpoch) then
      Err("settlement does not bind to the committed state")
    else
      Engine.Propose(version, input)
  }

  function AuthorizationIdFor(current: StateVersion, plan: EffectPlan): Id {
    DispatchTransition(current.transitionId, plan.effectId, plan.attemptId)
  }

  function WithActiveAuthorization(value: StateValue, plan: EffectPlan, transition: Id, ownerEpoch: nat): StateValue {
    var marker := Authorization(plan.effectId, plan.attemptId, plan.toolCallId, plan.toolName, transition, ownerEpoch);
    value.(runtime := Some(Engine.RuntimeOf(value).(active := Some(marker))))
  }

  function DispatchMutation(plan: EffectPlan): EffectMutation {
    EffectMutation(plan.effectId, plan.attemptId, Some(Prepared), Dispatched, None)
  }

  /** The binding checks of `DispatchAuthorizationRequest`. */
  predicate AuthorizationBinds(version: StateVersion, plan: EffectPlan, approval: Option<ApprovalSettlement>,
                               ownerEpoch: nat) {
    && version.value.runtime.Some?
    && IsHead(version.value.runtime.value.pending, plan.effectId, plan.attemptId, plan.toolCallId, plan.toolName)
    && plan.requiresApproval == approval.Some?
    && (approval.Some? ==>
          && SettlementBinds(version, ApprovalResolved(approval.value), ownerEpoch)
          && approval.value.approved)
  }

  function AuthorizationUnit(current: StateVersion, value: StateValue, dispositions: seq<Disposition>, plan: EffectPlan,
                             ownerEpoch: nat, cut: nat, stamp: nat): Unit {
    var transition := AuthorizationIdFor(current, plan);
    Unit(transition, current.revision, WithActiveAuthorization(value, plan, transition, ownerEpoch), [],
         dispositions, [DispatchMutation(plan)], [], Some(cut), None, stamp)
  }

  /** `CommitReconciliationRequest`: the record names the unknown effect under a fresh transition. */
  predicate RecordBinds(version: StateVersion, record: ReconciliationRecord, ownerEpoch: nat) {
    && record.ownerEpoch == ownerEpoch
    && record.observed != Indeterminate
    && version.value.runtime.Some?
    && version.value.runtime.value.unknown.Some?
    && var unknown := version.value.runtime.value.unknown.value;
       && record.effectId == unknown.authorization.effectId
       && record.attemptId == unknown.authorization.attemptId
       && record.transitionId != unknown.authorization.transitionId
       && record.transitionId != unknown.indeterminateInputId
  }

  function ReconciliationUnit(version: StateVersion, record: ReconciliationRecord, evidence: Evidence,
                              value: StateValue, stamp: nat): Unit {
    var mutation := EffectMutation(record.effectId, record.attemptId, Some(Unknown), StatusOf(record.observed),
                                   Some(record));
    Unit(record.transitionId, version.revision, value, [], [], [mutation], [], None, Some(evidence), stamp)
  }

  // ---------- Acts ----------

  datatype Act =
    | Step(revision: nat, input: StepInput, ownerEpoch: nat, stamp: nat, fault: Fault)
    | Authorize(revision: nat, approval: Option<ApprovalSettlement>, ownerEpoch: nat, cut: nat, stamp: nat,
                fault: Fault)
    | Reconcile(revision: nat, record: ReconciliationRecord, ownerEpoch: nat, stamp: nat, fault: Fault)
    | Execute(authorizationId: Id)
    | TakeOver
    | AdvanceMailbox
    | AdmitCommand(commandId: string)
    | RecordEvidence(evidence: Evidence)

  /** The unit that an act sends, when its checks pass against the committed version it was built from. */
  function UnitOf(db: Db, act: Act): Option<Unit> {
    match act
    case Step(revision, input, epoch, stamp, _) =>
      if revision >= |db.history| || !input.Valid() then None
      else
        var version := db.history[revision];
        var proposal := ProposeStep(version, input, epoch);
        if proposal.Err? || Deferred(input, proposal.value) then None
        else Some(UnitFor(version, input, proposal.value, stamp))
    case Authorize(revision, approval, epoch, cut, stamp, _) =>
      if revision >= |db.history| then None
      else
        var version := db.history[revision];
        var pending := Engine.RuntimeOf(version.value).pending;
        if pending == [] || !AuthorizationBinds(version, pending[0], approval, epoch) then None
        else
          var dispositions := if approval.Some? then [Applied(approval.value.commandId)] else [];
          Some(AuthorizationUnit(version, version.value, dispositions, pending[0], epoch, cut, stamp))
    case Reconcile(revision, record, epoch, stamp, _) =>
      if revision >= |db.history| || !RecordBinds(db.history[revision], record, epoch) then None
      else if record.evidenceRef !in db.evidence then None
      else
        var version, evidence := db.history[revision], db.evidence[record.evidenceRef];
        var value := ReconciledValue(version.value, evidence, record);
        if value.Err? then None else Some(ReconciliationUnit(version, record, evidence, value.value, stamp))
    case _ => None
  }

  function CommitAct(w: World, act: Act): (World, CommitResult)
    requires w.db.history != []
    requires act.Step? || act.Authorize? || act.Reconcile?
  {
    match UnitOf(w.db, act)
    case None => (w, InvalidTransition("the request was not sent"))
    case Some(unit) =>
      var (db, result) := Commit(w.db, act.ownerEpoch, unit, act.fault);
      if act.Authorize? && result.Committed? then
        var plan := Engine.RuntimeOf(w.db.history[act.revision].value).pending[0];
        var permit := Permit(plan.effectId, plan.attemptId, unit.transitionId, act.ownerEpoch, plan.idempotencyKey,
                             false);
        (World(db, w.permits[unit.transitionId := permit], w.executions), result)
      else
        (w.(db := db), result)
  }

  function RecordedEvidence(db: Db, e: Evidence): Db {
    if e.ownerEpoch == db.ownerEpoch && ValidEvidence(e) && e.ref !in db.evidence
       && (forall ref :: ref in db.evidence ==>
             !(db.evidence[ref].effectId == e.effectId && db.evidence[ref].attemptId == e.attemptId
               && db.evidence[ref].authorizationId == e.authorizationId))
    then db.(evidence := db.evidence[e.ref := e])
    else db
  }

  function Perform(w: World, act: Act): (next: World)
    requires w.db.history != []
    ensures next.db.history != []
  {
    match act
    case Execute(id) =>
      if id in w.permits && !w.permits[id].claimed then
        var p := w.permits[id];
        w.(permits := w.permits[id := p.(claimed := true)],
           executions := w.executions + [Execution(p.effectId, p.attemptId, p.authorizationId, p.ownerEpoch)])
      else w
    case TakeOver => w.(db := w.db.(ownerEpoch := w.db.ownerEpoch + 1))
    case AdvanceMailbox => w.(db := w.db.(mailboxCut := w.db.mailboxCut + 1))
    case AdmitCommand(id) =>
      if id in w.db.commands then w else w.(db := w.db.(commands := w.db.commands[id := Admitted]))
    case RecordEvidence(e) => w.(db := RecordedEvidence(w.db, e))
    case _ => CommitAct(w, act).0
  }

  function Runs(w: World, acts: seq<Act>): (end: World)
    requires w.db.history != []
    ensures end.db.history != []
    decreases |acts|
  {
    if acts == [] then w else Runs(Perform(w, acts[0]), acts[1..])
  }

  lemma {:induction false} RunsInTwoParts(w: World, a: seq<Act>, b: seq<Act>)
    requires w.db.history != []
    ensures Runs(w, a + b) == Runs(Runs(w, a), b)
    decreases |a|
  {
    if a == [] {
      assert a + b == b;
    } else {
      assert (a + b)[1..] == a[1..] + b;
      RunsInTwoParts(Perform(w, a[0]), a[1..], b);
    }
  }

  lemma {:induction false} RunsOneMore(w: World, a: seq<Act>, act: Act)
    requires w.db.history != []
    ensures Runs(w, a + [act]) == Perform(Runs(w, a), act)
  {
    RunsInTwoParts(w, a, [act]);
    assert Runs(Runs(w, a), [act]) == Runs(Perform(Runs(w, a), act), [act][1..]);
  }

  /** A store that has admitted one run with a first state version and nothing else. */
  predicate Fresh(w: World) {
    && |w.db.history| == 1
    && w.db.history[0].run == w.db.run
    && w.db.history[0].revision == 0
    && w.db.history[0].value.runtime.None?
    && w.db.log == [] && w.db.receipts == map[] && w.db.effects == map[] && w.db.facts == []
    && w.db.evidence == map[]
    && w.permits == map[] && w.executions == []
  }
}

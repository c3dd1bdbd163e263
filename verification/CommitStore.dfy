/**
 The authoritative store behind the commit port: one unit of work is judged against the owner
 epoch, the transition receipts, the mailbox cut, the state revision, the command mailbox and
 the effect ledger, and is then applied as a whole or not at all.
 */
module CommitStore {
  import opened Wrappers
  import opened Contracts

  datatype Slot = Slot(status: EffectStatus, attemptId: Id, authorization: Option<Id>, dispatchEpoch: Option<nat>)

  datatype CommandState = Admitted | Disposed

  datatype Evidence = Evidence(
    ref: Id,
    effectId: Id,
    attemptId: Id,
    authorizationId: Id,
    ownerEpoch: nat,
    outcome: Outcome,
    result: Json,
    reasonCode: Option<string>,
    reasonMessage: Option<string>)

  /** One transition as it is sent to the store; `stamp` is the clock value put on its facts. */
  datatype Unit = Unit(
    transitionId: Id,
    revision: nat,
    value: StateValue,
    facts: seq<Fact>,
    dispositions: seq<Disposition>,
    mutations: seq<EffectMutation>,
    plans: seq<EffectPlan>,
    mailboxCut: Option<nat>,
    evidence: Option<Evidence>,
    stamp: nat)

  datatype Receipt = Receipt(fingerprint: Unit, version: StateVersion)

  /**
   `history` and `log` keep every committed version and unit; the store itself keeps the last version and
   the receipts.
   */
  datatype Db = Db(
    run: Id,
    ownerEpoch: nat,
    mailboxCut: nat,
    history: seq<StateVersion>,
    log: seq<Unit>,
    receipts: map<Id, Receipt>,
    effects: map<Id, Slot>,
    facts: seq<Fact>,
    commands: map<string, CommandState>,
    evidence: map<Id, Evidence>)
  {
    function Current(): StateVersion
      requires history != []
    {
      history[|history| - 1]
    }
  }

  datatype CommitResult =
    | Committed(version: StateVersion)
    | ExactReplay(version: StateVersion)
    | CasConflict(current: StateVersion)
    | StaleOwner(currentEpoch: nat)
    | StaleMailboxCut(currentCut: nat)
    | InvalidTransition(reason: string)
    | StorageFailure(message: string)

  function CommandOf(d: Disposition): string {
    d.commandId
  }

  /** What the receipt compares on a replay: everything in the unit, and the clock only when it stamped a fact. */
  function Fingerprint(unit: Unit): Unit {
    unit.(stamp := if unit.facts == [] then 0 else unit.stamp)
  }

  // ---------- Reconciliation evidence ----------

  predicate ValidEvidence(e: Evidence) {
    match e.outcome
    case OutcomeCompleted => e.reasonCode.None? && e.reasonMessage.None?
    case OutcomeFailed => e.reasonCode.Some? && e.reasonMessage.Some?
    case Indeterminate => false
  }

  predicate EvidenceMatches(e: Evidence, record: ReconciliationRecord) {
    && e.effectId == record.effectId
    && e.attemptId == record.attemptId
    && e.ownerEpoch == record.ownerEpoch
    && e.outcome == record.observed
    && e.ref == record.evidenceRef
  }

  /** `state_value_with_reconciled_effect`. */
  function ReconciledValue(value: StateValue, e: Evidence, record: ReconciliationRecord): Result<StateValue> {
    if !EvidenceMatches(e, record) then Err("evidence and reconciliation record do not match")
    else if value.runtime.None? then Err("reconciliation requires committed runtime state")
    else
      var rt := value.runtime.value;
      if rt.unknown.None? then Err("reconciliation requires a committed unknown effect")
      else if rt.active.None? then Err("reconciliation requires retained authorization")
      else if rt.pending == [] then Err("reconciliation requires a retained effect plan")
      else if rt.unknown.value.authorization != rt.active.value then
        Err("unknown effect does not match retained authorization")
      else if rt.active.value.effectId != e.effectId || rt.active.value.attemptId != e.attemptId
              || rt.active.value.transitionId != e.authorizationId then
        Err("unknown effect does not match reconciliation evidence")
      else
        var marker := ReconciledEffect(rt.unknown.value, record.transitionId, e.ref, e.ownerEpoch,
                                       SettledOf(record.transitionId), e.outcome, e.result,
                                       e.reasonCode, e.reasonMessage);
        Ok(value.(runtime := Some(rt.(reconciled := Some(marker)))))
  }

  /** `_assert_reconciliation_preconditions`: the first refusal, if any. */
  function ReconciliationRefusal(db: Db, epoch: nat, unit: Unit): Option<CommitResult>
    requires db.history != [] && unit.evidence.Some?
  {
    var e := unit.evidence.value;
    if |unit.mutations| != 1 || unit.mutations[0].reconciliation.None? then
      Some(InvalidTransition("reconciliation mutation is missing"))
    else
      var m := unit.mutations[0];
      if m.effectId !in db.effects || db.effects[m.effectId].status != Unknown then
        Some(InvalidTransition("reconciliation requires a durable UNKNOWN effect"))
      else if db.effects[m.effectId].attemptId != m.attemptId
              || db.effects[m.effectId].authorization != Some(e.authorizationId)
              || db.effects[m.effectId].dispatchEpoch.None? then
        Some(InvalidTransition("reconciliation retained authorization does not match"))
      else if e.ref !in db.evidence || db.evidence[e.ref] != e || e.ownerEpoch != epoch then
        Some(InvalidTransition("reconciliation evidence does not match terminal payload"))
      else if unit.revision != db.Current().revision then
        Some(CasConflict(db.Current()))
      else
        match ReconciledValue(db.Current().value, e, m.reconciliation.value)
        case Err(message) => Some(InvalidTransition(message))
        case Ok(expected) =>
          if db.Current().value.runtime.value.unknown.value.authorization.ownerEpoch
             != db.effects[m.effectId].dispatchEpoch.value then
            Some(InvalidTransition("unknown effect dispatch owner does not match effect slot"))
          else if unit.value != expected then
            Some(InvalidTransition("reconciliation state does not match canonical evidence"))
          else None
  }

  // ---------- Commit ----------

  predicate MutationAccepted(effects: map<Id, Slot>, m: EffectMutation) {
    match m.expected
    case None => m.effectId !in effects
    case Some(status) =>
      m.effectId in effects && effects[m.effectId].status == status && effects[m.effectId].attemptId == m.attemptId
  }

  predicate DispositionAccepted(commands: map<string, CommandState>, d: Disposition) {
    CommandOf(d) in commands && commands[CommandOf(d)] == Admitted
  }

  /** `None` when the unit may be applied; otherwise the first result that the checks produce. */
  function Refusal(db: Db, epoch: nat, unit: Unit): Option<CommitResult>
    requires db.history != []
  {
    if epoch != db.ownerEpoch then Some(StaleOwner(db.ownerEpoch))
    else if unit.transitionId in db.receipts then
      if db.receipts[unit.transitionId].fingerprint == Fingerprint(unit)
      then Some(ExactReplay(db.receipts[unit.transitionId].version))
      else Some(InvalidTransition("transition mutation fingerprint mismatch"))
    else if unit.mailboxCut.Some? && unit.mailboxCut.value != db.mailboxCut then Some(StaleMailboxCut(db.mailboxCut))
    else if unit.evidence.Some? && ReconciliationRefusal(db, epoch, unit).Some? then
      ReconciliationRefusal(db, epoch, unit)
    else if unit.revision != db.Current().revision then Some(CasConflict(db.Current()))
    else if exists d :: d in unit.dispositions && !DispositionAccepted(db.commands, d) then
      Some(InvalidTransition("command disposition conflict"))
    else if exists m :: m in unit.mutations && !MutationAccepted(db.effects, m) then
      Some(InvalidTransition("effect mutation conflict"))
    else None
  }

  predicate IsDispatch(m: EffectMutation) {
    m.expected == Some(Prepared) && m.status == Dispatched
  }

  function SlotAfter(effects: map<Id, Slot>, epoch: nat, transition: Id, m: EffectMutation): Slot {
    if m.effectId !in effects then Slot(m.status, m.attemptId, None, None)
    else if IsDispatch(m) then Slot(m.status, m.attemptId, Some(transition), Some(epoch))
    else effects[m.effectId].(status := m.status)
  }

  function ApplyMutations(effects: map<Id, Slot>, epoch: nat, transition: Id, ms: seq<EffectMutation>): map<Id, Slot> {
    if ms == [] then effects
    else
      var last := ms[|ms| - 1];
      var before := ApplyMutations(effects, epoch, transition, ms[..|ms| - 1]);
      before[last.effectId := SlotAfter(effects, epoch, transition, last)]
  }

  function DisposeCommands(commands: map<string, CommandState>, ds: seq<Disposition>): map<string, CommandState> {
    if ds == [] then commands
    else DisposeCommands(commands, ds[..|ds| - 1])[CommandOf(ds[|ds| - 1]) := Disposed]
  }

  function VersionAfter(db: Db, unit: Unit): StateVersion {
    StateVersion(db.run, unit.revision + 1, unit.transitionId, unit.value)
  }

  function Apply(db: Db, epoch: nat, unit: Unit): Db {
    db.(history := db.history + [VersionAfter(db, unit)],
        log := db.log + [unit],
        receipts := db.receipts[unit.transitionId := Receipt(Fingerprint(unit), VersionAfter(db, unit))],
        effects := ApplyMutations(db.effects, epoch, unit.transitionId, unit.mutations),
        facts := db.facts + unit.facts,
        commands := DisposeCommands(db.commands, unit.dispositions))
  }

  /** A storage fault hides the answer of the store: before it acts, or after it committed. */
  datatype Fault = NoFault | LostBefore | LostAfter

  function Commit(db: Db, epoch: nat, unit: Unit, fault: Fault): (Db, CommitResult)
    requires db.history != []
  {
    if fault.LostBefore? then (db, StorageFailure("storage failure"))
    else
      var (next, result) :=
        match Refusal(db, epoch, unit)
        case Some(refusal) => (db, refusal)
        case None => (Apply(db, epoch, unit), Committed(VersionAfter(db, unit)));
      (next, if fault.LostAfter? then StorageFailure("storage failure") else result)
  }

  // ---------- Facts about a commit ----------

  ghost predicate Distinct(ms: seq<EffectMutation>) {
    forall i, j :: 0 <= i < j < |ms| ==> ms[i].effectId != ms[j].effectId
  }

  ghost predicate Mentions(ms: seq<EffectMutation>, effect: Id) {
    exists i :: 0 <= i < |ms| && ms[i].effectId == effect
  }

  /** A mutation of the unit decides its own effect: the slot is computed from the ledger before the unit. */
  lemma {:induction false} MutatedSlot(effects: map<Id, Slot>, epoch: nat, transition: Id, ms: seq<EffectMutation>,
                                       k: nat)
    requires Distinct(ms) && k < |ms|
    ensures ms[k].effectId in ApplyMutations(effects, epoch, transition, ms)
    ensures ApplyMutations(effects, epoch, transition, ms)[ms[k].effectId]
         == SlotAfter(effects, epoch, transition, ms[k])
  {
    if k < |ms| - 1 {
      assert ms[k].effectId != ms[|ms| - 1].effectId;
      MutatedSlot(effects, epoch, transition, ms[..|ms| - 1], k);
    }
  }

  /** Every other effect keeps its slot. */
  lemma {:induction false} UntouchedSlot(effects: map<Id, Slot>, epoch: nat, transition: Id, ms: seq<EffectMutation>,
                                         e: Id)
    requires !Mentions(ms, e)
    ensures e in ApplyMutations(effects, epoch, transition, ms) <==> e in effects
    ensures e in effects ==> ApplyMutations(effects, epoch, transition, ms)[e] == effects[e]
  {
    if ms != [] {
      assert ms[|ms| - 1].effectId != e;
      UntouchedSlot(effects, epoch, transition, ms[..|ms| - 1], e);
    }
  }
}

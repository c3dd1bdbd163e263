/**
 `SegmentCoordinator`: the loop that proposes, commits, authorizes, executes and settles. The
 environment decides everything the coordinator does not: what the control probe, the model
 adapter and the executor answer, what other coordinators do to the store in between, and
 after how many interactions the process dies.
 */
module Coordinator {
  import opened Wrappers
  import opened Contracts
  import opened CommitStore
  import opened Protocol
  import opened ProtocolSafety
  import opened Journal
  import MailboxRetry
  import Engine

  // ---------- The environment ----------

  /** The answer of an interaction, unless the process dies in it. */
  datatype Alive<+T> = Dead | Answer(value: T) {
    predicate IsFailure() {
      Dead?
    }

    function PropagateFailure<U>(): Alive<U>
      requires Dead?
    {
      Dead
    }

    function Extract(): T
      requires Answer?
    {
      value
    }
  }

  datatype Environment = Environment(
    observe: nat -> Snapshot,
    generate: (nat, ModelRequest) -> Generation,
    execute: nat -> ExecutorAnswer,
    others: nat -> seq<Act>,
    fault: nat -> Fault,
    clock: nat -> nat)

  datatype SegmentOutcome =
    | CompletedOutcome(version: StateVersion, text: string, steps: nat, reason: string)
    | BlockedOutcome(version: StateVersion, reason: string, plan: EffectPlan, steps: nat)
    | SafeYieldOutcome(version: StateVersion, reason: string, steps: nat)
    | RoundLimitOutcome(version: StateVersion, steps: nat)
    | FailedOutcome(version: StateVersion, code: string, steps: nat)
    | TaskCancelled(version: StateVersion, steps: nat)

  // ---------- Versions that were read ----------

  /** Committed versions are never revised: a version that was read stays in the history. */
  ghost predicate Extends(before: World, after: World) {
    before.db.history <= after.db.history
  }

  lemma {:induction false} PerformExtends(w: World, act: Act)
    requires w.db.history != []
    ensures Extends(w, Perform(w, act))
  {
    if act.Step? || act.Authorize? || act.Reconcile? {
      CommitActCases(w, act);
    }
  }

  lemma {:induction false} RunsExtend(w: World, acts: seq<Act>)
    requires w.db.history != []
    ensures Extends(w, Runs(w, acts))
    decreases |acts|
  {
    if acts != [] {
      PerformExtends(w, acts[0]);
      RunsExtend(Perform(w, acts[0]), acts[1..]);
    }
  }

  /** `version` is a committed version, not one that somebody made up. */
  ghost predicate Genuine(w: World, version: StateVersion) {
    version.revision < |w.db.history| && w.db.history[version.revision] == version
  }

  // ---------- The permit ----------

  /** `DispatchPermit`: the single-use capability of one authorization. */
  class DispatchPermit {
    const permit: Permit
    var claimed: bool

    constructor (permit: Permit)
      ensures this.permit == permit && !claimed
    {
      this.permit := permit;
      claimed := false;
    }

    method Claim() returns (granted: bool)
      modifies this
      ensures granted == !old(claimed) && claimed
    {
      granted := !claimed;
      claimed := true;
    }
  }

  // ---------- The commit port, the adapters and the probe ----------

  lemma {:induction false} UnitIsStable(before: Db, after: Db, act: Act)
    requires before.history <= after.history && (act.Step? || act.Authorize?) && act.revision < |before.history|
    ensures UnitOf(after, act) == UnitOf(before, act)
  {
    assert after.history[act.revision] == before.history[act.revision];
  }

  /** The port puts its clock on the act, and the environment decides the storage fault. */
  function Stamped(act: Act, stamp: nat, fault: Fault): Act
    requires act.Step? || act.Authorize?
  {
    match act
    case Step(revision, input, epoch, _, _) => Step(revision, input, epoch, stamp, fault)
    case Authorize(revision, approval, epoch, cut, _, _) => Authorize(revision, approval, epoch, cut, stamp, fault)
  }

  ghost predicate SameRequest(a: Act, b: Act) {
    match a
    case Step(revision, input, epoch, _, _) =>
      b.Step? && b.revision == revision && b.input == input && b.ownerEpoch == epoch
    case Authorize(revision, approval, epoch, cut, _, _) =>
      b.Authorize? && b.revision == revision && b.approval == approval && b.ownerEpoch == epoch && b.cut == cut
    case _ => a == b
  }

  lemma {:induction false} StampOnlyStamps(db: Db, act: Act, stamp: nat, fault: Fault)
    requires act.Step? || act.Authorize?
    requires UnitOf(db, act).Some?
    ensures UnitOf(db, Stamped(act, stamp, fault)) == Some(UnitOf(db, act).value.(stamp := stamp))
  {
  }

  /** What a successful answer of the store tells the coordinator. */
  ghost predicate Reports(w: World, unit: Unit, result: CommitResult) {
    match result
    case Committed(v) => Genuine(w, v) && v.value == unit.value && v.transitionId == unit.transitionId
    case ExactReplay(v) => Genuine(w, v) && v.value == unit.value && v.transitionId == unit.transitionId
    case CasConflict(c) => Genuine(w, c)
    case _ => true
  }

  lemma {:induction false} FreshReports(db: Db, epoch: nat, unit: Unit)
    requires LogInv(db) && Refusal(db, epoch, unit).None?
    ensures var v, next := VersionAfter(db, unit), Apply(db, epoch, unit);
            && v.revision < |next.history| && next.history[v.revision] == v
            && v.value == unit.value && v.transitionId == unit.transitionId
  {
    FreshCommitIsCurrent(db, epoch, unit);
  }

  lemma {:induction false} CommitReports(w: World, act: Act, unit: Unit)
    requires LogInv(w.db) && (act.Step? || act.Authorize? || act.Reconcile?) && UnitOf(w.db, act) == Some(unit)
    ensures Reports(CommitAct(w, act).0, unit, CommitAct(w, act).1)
  {
    hide Engine.Propose, Refusal, Apply, UnitOf;
    CommitActCases(w, act);
    if Refusal(w.db, act.ownerEpoch, unit).None? {
      FreshReports(w.db, act.ownerEpoch, unit);
    } else {
      RefusalReports(w.db, act.ownerEpoch, unit);
    }
  }

  lemma {:induction false} ReceiptIsGenuine(db: Db, t: Id)
    requires LogInv(db) && t in db.receipts
    ensures var r := db.receipts[t];
            && r.version.revision < |db.history| && db.history[r.version.revision] == r.version
            && r.version.transitionId == t && r.version.value == r.fingerprint.value
  {
    var receipt := db.receipts[t];
    assert ReceiptInv(db, t);
    assert EntryInv(db, receipt.version.revision - 1);
    assert VersionInv(db, receipt.version.revision);
  }

  lemma {:induction false} RefusalReports(db: Db, epoch: nat, unit: Unit)
    requires LogInv(db) && Refusal(db, epoch, unit).Some?
    ensures var result := Refusal(db, epoch, unit).value;
            && !result.Committed?
            && (result.ExactReplay? ==>
                  && result.version.revision < |db.history| && db.history[result.version.revision] == result.version
                  && result.version.value == unit.value && result.version.transitionId == unit.transitionId)
            && (result.CasConflict? ==>
                  result.current.revision < |db.history| && db.history[result.current.revision] == result.current)
  {
    assert VersionInv(db, |db.history| - 1);
    hide ReconciliationRefusal, MutationAccepted, DispositionAccepted;
    if unit.transitionId in db.receipts {
      ReceiptIsGenuine(db, unit.transitionId);
    }
    if unit.evidence.Some? && ReconciliationRefusal(db, epoch, unit).Some? {
      ReconciliationAnswers(db, epoch, unit);
    }
    hide LogInv;
  }

  /** The checks of a reconciliation answer that the state moved, or that the transition is invalid. */
  lemma {:induction false} ReconciliationAnswers(db: Db, epoch: nat, unit: Unit)
    requires db.history != [] && unit.evidence.Some? && ReconciliationRefusal(db, epoch, unit).Some?
    ensures var result := ReconciliationRefusal(db, epoch, unit).value;
            result.InvalidTransition? || result == CasConflict(db.Current())
  {
    hide ReconciledValue;
  }

  lemma {:induction false} AnswerIsGenuine(w: World, act: Act)
    requires SafetyInv(w) && act.Reconcile? && w.db.history != []
    ensures var (next, result) := CommitAct(w, act);
            && (result.Committed? ==> Genuine(next, result.version))
            && (result.ExactReplay? ==> Genuine(next, result.version))
            && (result.CasConflict? ==> Genuine(next, result.current))
  {
    if UnitOf(w.db, act).Some? {
      CommitReports(w, act, UnitOf(w.db, act).value);
      hide CommitAct;
    }
    hide LogInv, LedgerInv, UnitOf;
  }

  ghost predicate IsReconciliation(act: Act, version: StateVersion, record: ReconciliationRecord, ownerEpoch: nat) {
    act.Reconcile? && act.revision == version.revision && act.record == record && act.ownerEpoch == ownerEpoch
  }

  // ---------- Other processes and the mailbox ----------

  lemma {:induction false} SafeHasHistory(w: World)
    requires SafetyInv(w)
    ensures w.db.history != []
  {
  }

  /** Between two moments the store only went through what the other processes did. */
  ghost predicate OnlyOthers(before: World, foreignBefore: seq<Act>, after: World, foreign: seq<Act>) {
    && before.db.history != [] && foreignBefore <= foreign
    && after == Runs(before, foreign[|foreignBefore|..])
  }

  lemma {:induction false} OnlyOthersAtOnce(w: World, foreign: seq<Act>)
    requires w.db.history != []
    ensures OnlyOthers(w, foreign, w, foreign)
  {
  }

  lemma {:induction false} OnlyOthersTwice(a: World, fa: seq<Act>, b: World, fb: seq<Act>, c: World, fc: seq<Act>)
    requires OnlyOthers(a, fa, b, fb) && OnlyOthers(b, fb, c, fc)
    ensures OnlyOthers(a, fa, c, fc)
  {
    hide Engine.ProposeModelCompletion, UnitOf;
    RunsInTwoParts(a, fb[|fa|..], fc[|fb|..]);
    assert fc[|fa|..] == fb[|fa|..] + fc[|fb|..];
  }

  /** The mailbox cut that a request names. */
  function CutOf(act: Act): Option<nat> {
    if act.Authorize? then Some(act.cut) else None
  }

  lemma {:induction false} StaleRefusal(db: Db, epoch: nat, unit: Unit)
    requires db.history != [] && Refusal(db, epoch, unit).Some? && Refusal(db, epoch, unit).value.StaleMailboxCut?
    ensures unit.mailboxCut.Some? && unit.mailboxCut.value != db.mailboxCut
    ensures Refusal(db, epoch, unit).value.currentCut == db.mailboxCut
  {
    hide ReconciledValue;
  }

  lemma {:induction false} UnitNamesCut(db: Db, act: Act)
    requires UnitOf(db, act).Some?
    ensures UnitOf(db, act).value.mailboxCut == CutOf(act)
  {
    hide Engine.Propose, ReconciledValue, MutationsFor;
  }

  /** A request that the store calls stale changes nothing, and the answer names the cut that it failed to name. */
  lemma {:induction false} StaleLeavesWorld(w: World, act: Act)
    requires w.db.history != [] && (act.Step? || act.Authorize? || act.Reconcile?)
    requires CommitAct(w, act).1.StaleMailboxCut?
    ensures CommitAct(w, act).0 == w
    ensures CommitAct(w, act).1.currentCut == w.db.mailboxCut && CutOf(act) != Some(w.db.mailboxCut)
  {
    hide Refusal, UnitOf, Apply;
    if UnitOf(w.db, act).Some? {
      UnitNamesCut(w.db, act);
      StaleRefusal(w.db, act.ownerEpoch, UnitOf(w.db, act).value);
    }
  }

  /** How often the mailbox advances in a run. */
  function Advances(acts: seq<Act>): nat {
    if acts == [] then 0 else (if acts[0].AdvanceMailbox? then 1 else 0) + Advances(acts[1..])
  }

  lemma {:induction false} OneActAdvances(w: World, act: Act)
    requires w.db.history != []
    ensures Perform(w, act).db.mailboxCut == w.db.mailboxCut + if act.AdvanceMailbox? then 1 else 0
  {
    hide UnitOf, Refusal;
    if act.Step? || act.Authorize? || act.Reconcile? {
      CommitActCases(w, act);
    }
  }

  lemma {:induction false} MailboxFollowsAdvances(w: World, acts: seq<Act>)
    requires w.db.history != []
    ensures Runs(w, acts).db.mailboxCut == w.db.mailboxCut + Advances(acts)
    decreases |acts|
  {
    hide Perform;
    if acts != [] {
      OneActAdvances(w, acts[0]);
      MailboxFollowsAdvances(Perform(w, acts[0]), acts[1..]);
    }
  }

  lemma {:induction false} PermitIsUnclaimed(w: World, act: Act)
    requires w.db.history != [] && (act.Step? || act.Authorize? || act.Reconcile?)
    ensures act.Authorize? && CommitAct(w, act).1.Committed? ==>
      && UnitOf(w.db, act).Some?
      && UnitOf(w.db, act).value.transitionId in CommitAct(w, act).0.permits
      && act.revision < |w.db.history| && Engine.RuntimeOf(w.db.history[act.revision].value).pending != []
      && CommitAct(w, act).0.permits[UnitOf(w.db, act).value.transitionId]
         == FreshPermit(w.db.history[act.revision], UnitOf(w.db, act).value.transitionId, act.ownerEpoch)
  {
    hide Refusal, Apply, Engine.Propose;
  }

  /** The permit for the head of the queue that an authorization gives. */
  function FreshPermit(version: StateVersion, authorizationId: Id, ownerEpoch: nat): Permit
    requires Engine.RuntimeOf(version.value).pending != []
  {
    var plan := Engine.RuntimeOf(version.value).pending[0];
    Permit(plan.effectId, plan.attemptId, authorizationId, ownerEpoch, plan.idempotencyKey, false)
  }

  lemma {:induction false} AdvancesGrow(a: seq<Act>, b: seq<Act>)
    requires a <= b
    ensures Advances(a) <= Advances(b)
    decreases |a|
  {
    if a != [] {
      AdvancesGrow(a[1..], b[1..]);
    }
  }

  class Process {
    const env: Environment
    ghost const origin: World
    var world: World
    var tick: nat
    var budget: nat
    ghost var trace: seq<Act>
    ghost var sent: seq<Sent>
    ghost var generated: nat
    /** Everything that this process observed, sent and called, in order. */
    ghost var journal: seq<Event>
    /** The part of the trace that is not this process's own. */
    ghost var foreign: seq<Act>
    /** How often the probe was ahead of the store's mailbox. */
    ghost var ahead: nat

    ghost predicate Valid()
      reads this
    {
      Fresh(origin) && world == Runs(origin, trace) && sent == Requests(journal)
    }

    /** A process starts on a store that some run `past` of acts has already been through. */
    constructor (env: Environment, world: World, budget: nat, ghost origin: World, ghost past: seq<Act>)
      requires Fresh(origin) && world == Runs(origin, past)
      ensures Valid() && this.env == env && this.world == world && this.budget == budget
      ensures this.origin == origin && trace == past && sent == [] && generated == 0
      ensures journal == [] && foreign == [] && ahead == 0
    {
      this.env, this.world, this.budget, tick := env, world, budget, 0;
      this.origin, trace, sent, generated := origin, past, [], 0;
      journal, foreign, ahead := [], [], 0;
    }

    /** Hence everything that is proved of all runs holds of the world at every moment. */
    lemma {:induction false} WorldIsSafe()
      requires Valid()
      ensures SafetyInv(world)
    {
      FreshIsSafe(origin);
      RunsKeepSafety(origin, trace);
    }

    lemma {:induction false} MailboxFollowsTrace()
      requires Valid()
      ensures world.db.mailboxCut == origin.db.mailboxCut + Advances(trace)
    {
      MailboxFollowsAdvances(origin, trace);
    }

    ghost method Record(e: Event)
      requires Valid()
      modifies this`journal, this`sent
      ensures Valid() && journal == old(journal) + [e]
      ensures sent == old(sent) + if e.Asked? then [e.sent] else []
    {
      RequestsOneMore(journal, e);
      journal := journal + [e];
      sent := sent + if e.Asked? then [e.sent] else [];
    }

    /** One interaction: time passes, and the process may die in it. */
    method Interact() returns (alive: Alive<nat>)
      requires Valid()
      modifies this`tick, this`budget
      ensures Valid() && budget <= old(budget)
      ensures if alive.Answer? then budget < old(budget) else budget == 0
    {
      if budget == 0 {
        return Dead;
      }
      budget, tick := budget - 1, tick + 1;
      return Answer(tick);
    }

    method Observe() returns (snapshot: Alive<Snapshot>)
      requires Valid()
      modifies this`tick, this`budget, this`journal, this`sent, this`ahead
      ensures Valid() && budget <= old(budget) && sent == old(sent)
      ensures if snapshot.Answer? then budget < old(budget) else budget == 0
      ensures journal == old(journal) + if snapshot.Answer? then [Observed(snapshot.value)] else []
      ensures ahead == old(ahead) + if snapshot.Answer? && snapshot.value.generation > world.db.mailboxCut then 1 else 0
    {
      hide Requests, Runs, Fresh;
      var now :- Interact();
      Record(Observed(env.observe(now)));
      ahead := ahead + if env.observe(now).generation > world.db.mailboxCut then 1 else 0;
      return Answer(env.observe(now));
    }

    /** The adapter's result, or its failure; a result that its own contract rejects is a failure. */
    method Generate(request: ModelRequest) returns (generation: Alive<Generation>)
      requires Valid()
      modifies this`tick, this`budget, this`journal, this`sent, this`generated
      ensures Valid() && budget <= old(budget) && sent == old(sent)
      ensures generated == old(generated) + if generation.Answer? && generation.value.Generated? then 1 else 0
      ensures if generation.Answer? then budget < old(budget) else budget == 0
      ensures journal == old(journal) + if generation.Answer? then [Modelled(request, generation.value)] else []
      ensures generation.Answer? && generation.value.Generated? ==> ModelCompleted(generation.value.result).Valid()
    {
      hide Requests, Runs, Fresh;
      var now :- Interact();
      var answer := env.generate(now, request);
      if answer.Generated? && !ModelCompleted(answer.result).Valid() {
        answer := AdapterFailed("invalid model result");
      }
      generated := generated + if answer.Generated? then 1 else 0;
      Record(Modelled(request, answer));
      return Answer(answer);
    }

    /** Whatever the other coordinators and the host did to the store since the last interaction. */
    method Interleave(now: nat)
      requires Valid()
      modifies this`world, this`trace, this`foreign
      ensures Valid() && Extends(old(world), world)
      ensures old(trace) <= trace && OnlyOthers(old(world), old(foreign), world, foreign)
    {
      var acts := env.others(now);
      RunsExtend(world, acts);
      RunsInTwoParts(origin, trace, acts);
      world := Runs(world, acts);
      trace, foreign := trace + acts, foreign + acts;
      assert foreign[|old(foreign)|..] == acts;
    }

    /** One request reaches the store. */
    method Send(act: Act) returns (result: CommitResult)
      requires Valid() && (act.Step? || act.Authorize? || act.Reconcile?)
      modifies this`world, this`trace, this`journal, this`sent
      ensures Valid() && Extends(old(world), world)
      ensures world == CommitAct(old(world), act).0 && result == CommitAct(old(world), act).1
      ensures trace == old(trace) + [act] && journal == old(journal) + [Asked(Sent(act, result))]
      ensures sent == old(sent) + [Sent(act, result)]
    {
      hide SafetyInv, CommitAct, Requests;
      WorldIsSafe();
      SafeHasHistory(world);
      PerformExtends(world, act);
      RunsOneMore(origin, trace, act);
      ghost var before := world;
      var commit := CommitAct(world, act);
      world, result := commit.0, commit.1;
      assert world == Perform(before, act);
      trace := trace + [act];
      Record(Asked(Sent(act, result)));
    }

    /** Commit a unit that was built from a committed version; the act records what was sent and why. */
    method Submit(act: Act, unit: Unit) returns (result: Alive<CommitResult>)
      requires Valid()
      requires (act.Step? || act.Authorize?) && act.revision < |world.db.history| && UnitOf(world.db, act) == Some(unit)
      modifies this
      ensures Valid() && Extends(old(world), world) && old(trace) <= trace
      ensures generated == old(generated) && ahead == old(ahead)
      ensures result.Dead? ==> sent == old(sent) && journal == old(journal) && budget == 0
      ensures result.Answer? && result.value.StaleMailboxCut? ==>
        result.value.currentCut == world.db.mailboxCut && CutOf(act) != Some(world.db.mailboxCut)
        && OnlyOthers(old(world), old(foreign), world, foreign)
      ensures result.Answer? ==>
        && budget < old(budget)
        && |sent| == |old(sent)| + 1 && old(sent) <= sent
        && sent[|old(sent)|].result == result.value && SameRequest(act, sent[|old(sent)|].act)
        && journal == old(journal) + [Asked(sent[|old(sent)|])]
        && Reports(world, unit, result.value)
        && (act.Authorize? && result.value.Committed? ==>
              && act.revision < |world.db.history|
              && Engine.RuntimeOf(world.db.history[act.revision].value).pending != []
              && unit.transitionId in world.permits
              && world.permits[unit.transitionId]
                 == FreshPermit(world.db.history[act.revision], unit.transitionId, act.ownerEpoch))
    {
      hide LogInv, LedgerInv, PermitsBind, ExecutionsRecorded, CommitAct, Runs, UnitOf, Fresh, Requests;
      var now :- Interact();
      Interleave(now);
      UnitIsStable(old(world).db, world.db, act);
      StampOnlyStamps(world.db, act, env.clock(now), env.fault(now));
      var stamped := Stamped(act, env.clock(now), env.fault(now));
      WorldIsSafe();
      CommitReports(world, stamped, unit.(stamp := env.clock(now)));
      if CommitAct(world, stamped).1.StaleMailboxCut? {
        StaleLeavesWorld(world, stamped);
      }
      PermitIsUnclaimed(world, stamped);
      var answer := Send(stamped);
      return Answer(answer);
    }

    /** `authorize_dispatch`: a fresh commit, and only that, comes with a permit. */
    method AuthorizeDispatch(act: Act, unit: Unit) returns (result: Alive<CommitResult>, permit: DispatchPermit?)
      requires Valid()
      requires act.Authorize? && act.revision < |world.db.history| && UnitOf(world.db, act) == Some(unit)
      modifies this
      ensures Valid() && Extends(old(world), world) && old(trace) <= trace
      ensures generated == old(generated) && ahead == old(ahead)
      ensures result.Dead? ==> sent == old(sent) && journal == old(journal) && budget == 0
      ensures result.Answer? && result.value.StaleMailboxCut? ==>
        result.value.currentCut == world.db.mailboxCut && act.cut != world.db.mailboxCut
        && OnlyOthers(old(world), old(foreign), world, foreign)
      ensures result.Answer? ==>
        && budget < old(budget)
        && |sent| == |old(sent)| + 1 && old(sent) <= sent
        && sent[|old(sent)|].result == result.value && SameRequest(act, sent[|old(sent)|].act)
        && journal == old(journal) + [Asked(sent[|old(sent)|])]
        && Reports(world, unit, result.value)
        && (permit != null <==> result.value.Committed?)
      ensures permit != null ==>
        && fresh(permit) && !permit.claimed
        && unit.transitionId in world.permits && world.permits[unit.transitionId] == permit.permit
        && act.revision < |world.db.history|
        && Engine.RuntimeOf(world.db.history[act.revision].value).pending != []
        && permit.permit == FreshPermit(world.db.history[act.revision], unit.transitionId, act.ownerEpoch)
    {
      permit := null;
      result := Submit(act, unit);
      if result.Answer? && result.value.Committed? {
        WorldIsSafe();
        assert PermitBinds(world.db, unit.transitionId, world.permits[unit.transitionId]);
        permit := new DispatchPermit(world.permits[unit.transitionId]);
      }
    }

    /** `commit_reconciliation`: the port reads the evidence on record and builds the unit itself. */
    method CommitReconciliation(version: StateVersion, record: ReconciliationRecord, ownerEpoch: nat)
      returns (result: Alive<CommitResult>)
      requires Valid() && Genuine(world, version)
      modifies this
      ensures Valid() && Extends(old(world), world) && old(trace) <= trace
      ensures generated == old(generated) && old(sent) <= sent
      ensures result.Dead? ==> sent == old(sent) && journal == old(journal) && budget == 0
      ensures result.Answer? ==>
        && budget < old(budget)
        && |sent| == |old(sent)| + 1 && sent[|old(sent)|].result == result.value
        && journal == old(journal) + [Asked(sent[|old(sent)|])]
        && IsReconciliation(sent[|old(sent)|].act, version, record, ownerEpoch)
        && (result.value.Committed? ==> Genuine(world, result.value.version))
        && (result.value.ExactReplay? ==> Genuine(world, result.value.version))
        && (result.value.CasConflict? ==> Genuine(world, result.value.current))
    {
      hide SafetyInv, CommitAct, Runs, Fresh, Requests, Genuine;
      var now :- Interact();
      Interleave(now);
      var act := Reconcile(version.revision, record, ownerEpoch, env.clock(now), env.fault(now));
      WorldIsSafe();
      SafeHasHistory(world);
      AnswerIsGenuine(world, act);
      var answer := Send(act);
      return Answer(answer);
    }

    method CallExecutor(authorizationId: Id)
      requires Valid() && authorizationId in world.permits && !world.permits[authorizationId].claimed
      modifies this`world, this`trace, this`journal, this`sent
      ensures Valid() && world.db == old(world).db && trace == old(trace) + [Act.Execute(authorizationId)]
      ensures sent == old(sent) && journal == old(journal) + [Called(authorizationId)]
      ensures var p := old(world).permits[authorizationId];
              world.executions == old(world).executions
                + [Execution(p.effectId, p.attemptId, p.authorizationId, p.ownerEpoch)]
    {
      hide SafetyInv, Runs, Requests;
      WorldIsSafe();
      SafeHasHistory(world);
      RunsOneMore(origin, trace, Act.Execute(authorizationId));
      trace := trace + [Act.Execute(authorizationId)];
      world := Perform(world, Act.Execute(authorizationId));
      Record(Called(authorizationId));
    }

    /** The executor is called with a claimed permit; the process may die before it answers. */
    method Execute(permit: DispatchPermit) returns (answer: Alive<ExecutorAnswer>)
      requires Valid() && permit.claimed
      requires permit.permit.authorizationId in world.permits
      requires world.permits[permit.permit.authorizationId] == permit.permit && !permit.permit.claimed
      modifies this
      ensures Valid() && Extends(old(world), world) && old(trace) <= trace
      ensures sent == old(sent) && generated == old(generated) && foreign == old(foreign) && ahead == old(ahead)
      ensures var id := permit.permit.authorizationId;
              journal == old(journal) + [Called(id)] + if answer.Answer? then [Replied(id, answer.value)] else []
      ensures if answer.Answer? then budget < old(budget) else budget == 0
      ensures world.executions == old(world).executions
        + [Execution(permit.permit.effectId, permit.permit.attemptId, permit.permit.authorizationId,
                     permit.permit.ownerEpoch)]
    {
      hide Engine.Propose, UnitOf, CommitAct, Perform, Runs, Fresh, Requests;
      CallExecutor(permit.permit.authorizationId);
      var now :- Interact();
      Record(Replied(permit.permit.authorizationId, env.execute(now)));
      return Answer(env.execute(now));
    }
  }

  // ---------- Requests ----------

  datatype SegmentRequest = SegmentRequest(ownerEpoch: nat, version: StateVersion, input: StepInput, maxRounds: nat)

  /** The checks that `RunSegmentRequest` makes before a segment can exist. */
  predicate ValidRequest(r: SegmentRequest) {
    && r.input.Valid() && r.maxRounds > 0
    && (r.input.Initial? ==> !HasOutstandingRecovery(r.version.value))
    && (r.input.ModelCompleted? ==>
          r.version.value.runtime.Some? && r.version.value.runtime.value.modelRequest == Some(r.input.result.requestId))
    && (r.input.Settles() ==> SettlementBinds(r.version, r.input, r.ownerEpoch))
  }

  function MailboxCutOf(r: SegmentRequest): nat
    requires ValidRequest(r)
  {
    if r.input.Initial? then r.input.mailboxCut else r.version.value.runtime.value.mailboxCut
  }

  /** `_authorization_proposal` and `_with_active_effect_authorization`. */
  function AuthorizationProposal(prepared: Proposal, current: StateVersion, preserve: bool, ownerEpoch: nat): Proposal
    requires prepared.next.PreparedEffect?
  {
    var plan := prepared.next.plan;
    var transition := AuthorizationIdFor(current, plan);
    var value := if preserve then prepared.value else current.value;
    Proposal(transition, WithActiveAuthorization(value, plan, transition, ownerEpoch), prepared.next,
             if preserve then prepared.facts else [], if preserve then prepared.dispositions else [],
             if preserve then prepared.plans else [])
  }

  function DispatchUnit(proposal: Proposal, current: StateVersion, plan: EffectPlan, cut: nat): Unit {
    Unit(proposal.transitionId, current.revision, proposal.value, proposal.facts, proposal.dispositions,
         [DispatchMutation(plan)], proposal.plans, Some(cut), None, 0)
  }

  /** `_effect_settlement`. */
  function SettlementFor(plan: EffectPlan, authorization: Id, ownerEpoch: nat,
                         result: ExecutionResult): EffectSettlement {
    var inputId := SettlementOf(authorization, plan.attemptId);
    match result
    case EffectCompleted(value) =>
      EffectSettlement(inputId, plan.toolCallId, plan.toolName, plan.effectId, plan.attemptId, authorization,
                       ownerEpoch, OutcomeCompleted, value, None, None)
    case EffectFailed(code, message) =>
      EffectSettlement(inputId, plan.toolCallId, plan.toolName, plan.effectId, plan.attemptId, authorization,
                       ownerEpoch, OutcomeFailed, message, Some(code), Some(message))
    case EffectIndeterminate(code, message, value) =>
      EffectSettlement(inputId, plan.toolCallId, plan.toolName, plan.effectId, plan.attemptId, authorization,
                       ownerEpoch, Indeterminate, value, Some(code), Some(message))
  }

  /** The result that a reading stands for. */
  predicate StandsFor(r: Reading, result: ExecutionResult) {
    match r
    case ControlRaised(reason) => result == EffectIndeterminate("control_after_dispatch", reason, "{}")
    case Answered(Returned(value)) => result == value
    case Answered(ExecutorCancelled) =>
      result == EffectIndeterminate("effect_executor_cancelled", "effect executor cancelled after dispatch", "{}")
    case Answered(ExecutorRaised(message)) => result == EffectIndeterminate("effect_executor_error", message, "{}")
  }

  lemma {:induction false} SettlementSays(plan: EffectPlan, authorization: Id, ownerEpoch: nat,
                                          result: ExecutionResult, r: Reading)
    requires StandsFor(r, result)
    ensures var s := SettlementFor(plan, authorization, ownerEpoch, result);
            && Says(s, r) && s.authorizationId == authorization && EffectSettled(s).Valid()
            && s.inputId == SettlementOf(authorization, plan.attemptId)
  {
  }

  /**
   After a reconciliation the next input repeats what was recorded, under this owner; there is one exactly when
   the record on hand is the recorded one, and the engine accepts it if the head of the queue is that effect.
   */
  lemma {:induction false} ReconciledInputRepeats(version: StateVersion, record: ReconciliationRecord, ownerEpoch: nat)
    ensures ReconciledInput(version, record, ownerEpoch).Ok?
       <==> && version.value.runtime.Some? && version.value.runtime.value.reconciled.Some?
            && version.transitionId == record.transitionId
            && var marker := version.value.runtime.value.reconciled.value;
               && marker.reconciliationId == record.transitionId && marker.evidenceRef == record.evidenceRef
               && marker.ownerEpoch == record.ownerEpoch && marker.outcome == record.observed
               && marker.unknown.authorization.effectId == record.effectId
               && marker.unknown.authorization.attemptId == record.attemptId
               && marker.reconciledInputId != marker.unknown.indeterminateInputId
    ensures ReconciledInput(version, record, ownerEpoch).Ok? ==>
      var s, rt := ReconciledInput(version, record, ownerEpoch).value, version.value.runtime.value;
      && MatchesReconciled(rt.reconciled.value, s) && s.ownerEpoch == ownerEpoch
      && (IsHead(rt.pending, s.effectId, s.attemptId, s.toolCallId, s.toolName) && s.outcome != Indeterminate ==>
            ProposeStep(version, EffectSettled(s), ownerEpoch).Ok?)
  {
    hide Engine.ProposeEffectSettlement;
    if ReconciledInput(version, record, ownerEpoch).Ok? {
      Engine.SettlementIsAcceptedExactly(version, ReconciledInput(version, record, ownerEpoch).value);
    }
  }

  /** The version carries the authorization of its head, under this owner. */
  ghost predicate HoldsAuthorization(version: StateVersion, plan: EffectPlan, id: Id, ownerEpoch: nat) {
    && version.value.runtime.Some? && version.value.runtime.value.pending != []
    && version.value.runtime.value.pending[0] == plan
    && version.value.runtime.value.active
       == Some(Authorization(plan.effectId, plan.attemptId, plan.toolCallId, plan.toolName, id, ownerEpoch))
  }

  /** A settlement that the engine accepts for that version, unless another effect is on record there as unknown. */
  ghost predicate Settleable(version: StateVersion, input: StepInput, ownerEpoch: nat) {
    && version.value.runtime.Some? && version.value.runtime.value.pending != []
    && version.value.runtime.value.active.Some? && input.EffectSettled? && input.effect.ownerEpoch == ownerEpoch
    && Engine.SettlesUnder(input.effect, version.value.runtime.value.pending[0],
                           version.value.runtime.value.active.value)
    && (version.value.runtime.value.unknown.None? && version.value.runtime.value.reconciled.None? ==>
          ProposeStep(version, input, ownerEpoch).Ok?)
  }

  lemma {:induction false} SettlementIsSettleable(version: StateVersion, plan: EffectPlan, id: Id, ownerEpoch: nat,
                                                  result: ExecutionResult)
    requires HoldsAuthorization(version, plan, id, ownerEpoch)
    ensures Settleable(version, EffectSettled(SettlementFor(plan, id, ownerEpoch, result)), ownerEpoch)
  {
    hide Engine.ProposeEffectSettlement;
    Engine.SettlementIsAcceptedExactly(version, SettlementFor(plan, id, ownerEpoch, result));
  }

  function FailureCode(result: CommitResult): string {
    match result
    case ExactReplay(_) => "exact_replay_requires_recovery"
    case CasConflict(_) => "cas_conflict"
    case StaleOwner(_) => "stale_owner"
    case StaleMailboxCut(_) => "stale_mailbox_cut"
    case InvalidTransition(reason) => reason
    case StorageFailure(message) => message
    case Committed(_) => ""
  }

  /** The state a failed outcome reports: the one in the store's answer, else the last one known. */
  function FailureVersion(result: CommitResult, known: StateVersion): StateVersion {
    match result
    case ExactReplay(version) => version
    case CasConflict(current) => current
    case _ => known
  }

  /** `_reconciled_effect_input`: the settlement that a committed reconciliation dictates. */
  function ReconciledInput(version: StateVersion, record: ReconciliationRecord,
                           ownerEpoch: nat): Result<EffectSettlement> {
    if version.value.runtime.None? then Err("reconciled state is missing runtime metadata")
    else if version.value.runtime.value.reconciled.None? then Err("reconciled state is missing the reconciled effect")
    else
      var marker := version.value.runtime.value.reconciled.value;
      var a := marker.unknown.authorization;
      if a.effectId != record.effectId || a.attemptId != record.attemptId || marker.evidenceRef != record.evidenceRef
         || marker.ownerEpoch != record.ownerEpoch || marker.reconciliationId != record.transitionId
         || marker.outcome != record.observed || version.transitionId != record.transitionId then
        Err("reconciled effect does not match reconciliation record")
      else if marker.reconciledInputId == marker.unknown.indeterminateInputId then
        Err("reconciled input must differ from indeterminate input")
      else
        Ok(EffectSettlement(marker.reconciledInputId, a.toolCallId, a.toolName, record.effectId, record.attemptId,
                            a.transitionId, ownerEpoch, marker.outcome, marker.result,
                            marker.reasonCode, marker.reasonMessage))
  }

  /** A proposal that goes on to an effect names the head of the queue that it leaves, and says whether it may run. */
  predicate NamesHead(version: StateVersion, input: StepInput, p: Proposal) {
    && p.value.runtime.Some? && p.value.runtime.value.pending != []
    && p.next.PreparedEffect? && p.next.plan == p.value.runtime.value.pending[0]
    && if input.ApprovalResolved? && input.approval.approved then
         && p.value == version.value && p.next.kind == Dispatch && p.next.plan.requiresApproval
         && p.facts == [] && p.plans == [] && p.dispositions == [Applied(input.approval.commandId)]
       else
         p.next.kind == Dispatch <==> !p.next.plan.requiresApproval
  }

  predicate ProposalFits(version: StateVersion, input: StepInput, p: Proposal) {
    && ActionFits(p.value, p.next) && !p.next.YieldSafely?
    && (p.next.PreparedEffect? ==> NamesHead(version, input, p))
  }

  lemma {:induction false} CompletionFits(version: StateVersion, result: ModelResult)
    requires Engine.ProposeModelCompletion(version, result).Ok?
    ensures ProposalFits(version, ModelCompleted(result), Engine.ProposeModelCompletion(version, result).value)
  {
    hide Engine.PlansFor, Engine.CallRefs, Engine.OpeningFacts, Engine.FactsOfPlans;
  }

  lemma {:induction false} SettlementFits(version: StateVersion, s: EffectSettlement)
    requires Engine.ProposeEffectSettlement(version, s).Ok?
    ensures ProposalFits(version, EffectSettled(s), Engine.ProposeEffectSettlement(version, s).value)
  {
    if s.outcome != Indeterminate {
      Engine.TerminalSettlementPops(version, s);
      hide Engine.TerminalProposal, Engine.EffectObjection;
    }
  }

  lemma {:induction false} ResolutionFits(version: StateVersion, s: ApprovalSettlement)
    requires Engine.ProposeApprovalResolution(version, s).Ok?
    ensures ProposalFits(version, ApprovalResolved(s), Engine.ProposeApprovalResolution(version, s).value)
  {
    if !s.approved {
      Engine.DenialPops(version, s);
      hide Engine.DenialProposal;
    }
  }

  lemma {:induction false} EveryProposalFits(version: StateVersion, input: StepInput)
    requires Engine.Propose(version, input).Ok?
    ensures ProposalFits(version, input, Engine.Propose(version, input).value)
  {
    hide Engine.ProposeModelCompletion, Engine.ProposeEffectSettlement, Engine.ProposeApprovalResolution;
    match input {
      case Initial(_, _, _) =>
      case ModelCompleted(result) => CompletionFits(version, result);
      case EffectSettled(s) => SettlementFits(version, s);
      case ApprovalResolved(s) => ResolutionFits(version, s);
    }
  }

  /** The next action of a proposal concerns the head of the queue that the proposal leaves behind. */
  lemma {:induction false} NextPlanIsHead(version: StateVersion, input: StepInput)
    requires Engine.Propose(version, input).Ok? && Engine.Propose(version, input).value.next.PreparedEffect?
    ensures NamesHead(version, input, Engine.Propose(version, input).value)
  {
    hide Engine.Propose;
    EveryProposalFits(version, input);
  }

  // ---------- The segment loop ----------

  /** The store has called every request from `start` on stale. */
  ghost predicate OnlyStale(sent: seq<Sent>, start: nat) {
    forall i :: start <= i < |sent| ==> sent[i].result.StaleMailboxCut?
  }

  /** Nothing is owed but, perhaps, the next input. */
  predicate IsFree(phase: Phase) {
    phase.Idle? || phase.Calm?
  }

  /** The input is the one that is due; that of an open dispatch is due even before it was sent. */
  predicate InputIsDue(st: Stage, input: StepInput, cancelled: bool) {
    if st.phase.MustSettle? then
      && input.EffectSettled? && input.effect.authorizationId == st.phase.id && Says(input.effect, st.phase.reading)
      && (st.due.Some? ==> st.due == Some(input)) && (cancelled <==> st.phase.reading == Answered(ExecutorCancelled))
    else
      IsFree(st.phase) && st.due == Some(input) && !cancelled
  }

  /** How a dispatch attempt ends: with a settlement to commit, or with an outcome of the segment. */
  datatype Dispatched =
    | Settle(version: StateVersion, input: StepInput, cut: nat, cancelled: bool)
    | Stop(outcome: SegmentOutcome)

  /** How a commit ends: the state moved under the coordinator, the segment stops, or its action is due. */
  datatype CommitPhase =
    | Conflict(version: StateVersion)
    | Halt(outcome: SegmentOutcome)
    | Proceed(version: StateVersion)

  /** What an action leaves to do: another input for the loop, or nothing. */
  datatype Progress =
    | Continue(version: StateVersion, input: StepInput, steps: nat, cut: nat, cancelled: bool)
    | Return(outcome: SegmentOutcome)

  /** What the state must look like for an action to be due. */
  predicate ActionFits(value: StateValue, next: NextAction) {
    match next
    case Finish(text, reason) =>
      && value.runtime.Some? && value.runtime.value.pending == [] && value.runtime.value.modelRequest.None?
      && value.runtime.value.lastContent == Some(text) && reason == "no_tool_calls"
    case Blocked(reason, plan) =>
      && value.runtime.Some? && value.runtime.value.pending != [] && value.runtime.value.pending[0] == plan
      && value.runtime.value.unknown.Some? && reason == "indeterminate_dispatch"
    case PreparedEffect(plan, _) =>
      value.runtime.Some? && value.runtime.value.pending != [] && value.runtime.value.pending[0] == plan
    case Generate(request) => AsksFor(value, request)
    case YieldSafely(_) => true
  }

  /** The engine's action fits the state that it proposes, and the engine never asks to yield. */
  lemma {:induction false} ProposedActionFits(version: StateVersion, input: StepInput)
    requires Engine.Propose(version, input).Ok?
    ensures var p := Engine.Propose(version, input).value; ActionFits(p.value, p.next) && !p.next.YieldSafely?
  {
    hide Engine.Propose;
    EveryProposalFits(version, input);
  }

  /** What an outcome says of the state it reports. */
  predicate OutcomeFits(outcome: SegmentOutcome, maxRounds: nat) {
    match outcome
    case CompletedOutcome(v, text, _, reason) => ActionFits(v.value, Finish(text, reason))
    case BlockedOutcome(v, reason, plan, _) =>
      && v.value.runtime.Some? && v.value.runtime.value.pending != [] && v.value.runtime.value.pending[0] == plan
      && (|| (reason == "approval_required" && plan.requiresApproval)
          || (reason == "indeterminate_dispatch" && v.value.runtime.value.unknown.Some?))
    case RoundLimitOutcome(v, steps) =>
      steps == maxRounds && v.value.runtime.Some? && v.value.runtime.value.modelRequest.Some?
    case _ => true
  }

  /** Why a segment stopped early: the last event says so. */
  predicate StoppedBy(e: Event, outcome: SegmentOutcome) {
    match outcome
    case SafeYieldOutcome(_, reason, _) =>
      || (e.Observed? && e.snapshot.raised && e.snapshot.reason == reason)
      || (e.Modelled? && e.answer == Interrupted(reason))
    case TaskCancelled(_, _) =>
      e.Asked? && e.sent.act.Step? && e.sent.act.input.EffectSettled? && Accepted(e.sent.result)
    case _ => false
  }

  predicate StoppedEarly(outcome: SegmentOutcome) {
    outcome.SafeYieldOutcome? || outcome.TaskCancelled?
  }

  /** The store's last answer ends the segment, and this is the code for it. */
  predicate FailedBy(sent: Sent, code: string) {
    match sent.result
    case Committed(_) => false
    case ExactReplay(_) => sent.act.Authorize? && code == "exact_replay_requires_recovery"
    case CasConflict(_) => sent.act.Authorize? && code == "cas_conflict"
    case StaleOwner(_) => code == "stale_owner"
    case StaleMailboxCut(_) => !sent.act.Authorize? && code == "stale_mailbox_cut"
    case InvalidTransition(reason) => code == reason
    case StorageFailure(message) => code == message
  }

  /** The last event is the answer to a request for an authorization. */
  predicate EndsAuthorizing(journal: seq<Event>, result: CommitResult) {
    && journal != [] && journal[|journal| - 1].Asked?
    && journal[|journal| - 1].sent.act.Authorize? && journal[|journal| - 1].sent.result == result
  }

  /** The model's answer ends the segment. */
  predicate FailedWith(request: ModelRequest, answer: Generation, code: string) {
    || (answer.AdapterFailed? && code == "segment_coordinator_error")
    || (answer.Generated? && answer.result.requestId != request.requestId && code == "model_request_id_mismatch")
  }

  /** Why a segment fails: a request was refused, the model's answer is no good, or the due input has no proposal. */
  ghost predicate Fails(code: string, st: Stage, journal: seq<Event>, ownerEpoch: nat) {
    || (journal != [] && journal[|journal| - 1].Asked? && FailedBy(journal[|journal| - 1].sent, code))
    || (journal != [] && journal[|journal| - 1].Modelled?
        && FailedWith(journal[|journal| - 1].request, journal[|journal| - 1].answer, code))
    || (code == "segment_coordinator_error"
        && exists input, cancelled :: InputIsDue(st, input, cancelled) && ProposeStep(st.known, input, ownerEpoch).Err?)
  }

  lemma {:induction false} RefusalFails(st: Stage, journal: seq<Event>, ownerEpoch: nat)
    requires journal != [] && journal[|journal| - 1].Asked?
    requires var sent := journal[|journal| - 1].sent;
             && !sent.result.Committed?
             && (if sent.act.Authorize? then !sent.result.StaleMailboxCut?
                 else !sent.result.ExactReplay? && !sent.result.CasConflict?)
    ensures Fails(FailureCode(journal[|journal| - 1].sent.result), st, journal, ownerEpoch)
  {
  }

  lemma {:induction false} NoProposalFails(st: Stage, input: StepInput, cancelled: bool, journal: seq<Event>,
                                           ownerEpoch: nat)
    requires InputIsDue(st, input, cancelled) && ProposeStep(st.known, input, ownerEpoch).Err?
    ensures Fails("segment_coordinator_error", st, journal, ownerEpoch)
  {
  }

  /** Why a recovery fails before its segment begins. */
  ghost predicate CannotReconcile(outcome: SegmentOutcome, journal: seq<Event>, record: ReconciliationRecord,
                                  ownerEpoch: nat)
    requires outcome.FailedOutcome?
  {
    || (outcome.code == "invalid_reconciliation_state" && !RecordBinds(outcome.version, record, ownerEpoch))
    || (outcome.code == "invalid_reconciled_effect"
        && match ReconciledInput(outcome.version, record, ownerEpoch)
           case Err(_) => true
           case Ok(s) => !EffectSettled(s).Valid() || !SettlementBinds(outcome.version, EffectSettled(s), ownerEpoch))
    || (journal != [] && journal[|journal| - 1].Asked? && FailedBy(journal[|journal| - 1].sent, outcome.code))
  }

  lemma {:induction false} RefusalEndsRecovery(outcome: SegmentOutcome, journal: seq<Event>,
                                              record: ReconciliationRecord, ownerEpoch: nat)
    requires outcome.FailedOutcome? && journal != [] && journal[|journal| - 1].Asked?
    requires var sent := journal[|journal| - 1].sent;
             && sent.act.Reconcile? && outcome.code == FailureCode(sent.result)
             && !sent.result.Committed? && !sent.result.ExactReplay? && !sent.result.CasConflict?
    ensures CannotReconcile(outcome, journal, record, ownerEpoch)
  {
  }

  lemma {:induction false} NothingToReconcile(version: StateVersion, journal: seq<Event>,
                                              record: ReconciliationRecord, ownerEpoch: nat)
    requires !RecordBinds(version, record, ownerEpoch)
    ensures CannotReconcile(FailedOutcome(version, "invalid_reconciliation_state", 0), journal, record, ownerEpoch)
  {
  }

  lemma {:induction false} NothingToSettle(version: StateVersion, journal: seq<Event>, record: ReconciliationRecord,
                                           ownerEpoch: nat, maxRounds: nat)
    requires maxRounds > 0
    requires match ReconciledInput(version, record, ownerEpoch)
             case Err(_) => true
             case Ok(s) => !ValidRequest(SegmentRequest(ownerEpoch, version, EffectSettled(s), maxRounds))
    ensures CannotReconcile(FailedOutcome(version, "invalid_reconciled_effect", 0), journal, record, ownerEpoch)
  {
    hide ReconciledInput, SettlementBinds;
  }

  /** Where a segment stands when it ends: on the last version it knew, and with nothing open unless it failed. */
  ghost predicate Concludes(outcome: SegmentOutcome, st: Stage, journal: seq<Event>, ownerEpoch: nat) {
    && outcome.version == st.known
    && (outcome.FailedOutcome? ==> Fails(outcome.code, st, journal, ownerEpoch))
    && (StoppedEarly(outcome) ==>
          st.phase.Stopped? && journal != [] && StoppedBy(journal[|journal| - 1], outcome))
    && (outcome.CompletedOutcome? || outcome.BlockedOutcome? || outcome.RoundLimitOutcome? ==>
          IsFree(st.phase) && st.due.None?)
  }

  function SegmentOf(r: SegmentRequest): Segment
    requires ValidRequest(r)
  {
    Segment(r.ownerEpoch, r.version, r.input, MailboxCutOf(r))
  }

  /** The input that an authorization consumes: the approval that rides on it. */
  function DueFor(approval: Option<ApprovalSettlement>): Option<StepInput> {
    if approval.Some? then Some(ApprovalResolved(approval.value)) else None
  }

  function AuthorizationSent(current: StateVersion, proposal: Proposal, approval: Option<ApprovalSettlement>,
                             ownerEpoch: nat, cut: nat): Unit
    requires proposal.next.PreparedEffect?
  {
    DispatchUnit(AuthorizationProposal(proposal, current, approval.Some?, ownerEpoch), current, proposal.next.plan, cut)
  }

  /** A segment that did not fail has settled every dispatch that it authorized. */
  lemma {:induction false} NothingLeftOpen(before: seq<Event>, after: seq<Event>, seg: Segment, outcome: SegmentOutcome)
    requires before <= after && At(seg, after, |before|).Some?
    requires Concludes(outcome, At(seg, after, |before|).value, after, seg.ownerEpoch) && !outcome.FailedOutcome?
    ensures |Requests(before)| <= |Requests(after)| && OpenDispatch(Requests(after)[|Requests(before)|..]).None?
  {
    hide StageOf, OpenDispatch, Requests;
    var word := after[|before|..];
    assert after == before + word;
    RequestsJoin(before, word);
    PhaseTellsOpen(seg, word);
    assert Requests(after)[|Requests(before)|..] == Requests(word);
  }

  predicate Reconciles(e: Event, record: ReconciliationRecord, ownerEpoch: nat) {
    e.Asked? && e.sent.act.Reconcile? && e.sent.act.record == record && e.sent.act.ownerEpoch == ownerEpoch
  }

  lemma {:induction false} OpenAfterReconciling(a: seq<Sent>, b: seq<Sent>)
    requires forall i :: 0 <= i < |a| ==> a[i].act.Reconcile?
    ensures OpenDispatch(a + b) == OpenDispatch(b)
    decreases |a| + |b|
  {
    if b == [] {
      assert a + b == a;
      if a != [] {
        OpenAfterReconciling(a[..|a| - 1], []);
        assert a[..|a| - 1] + [] == a[..|a| - 1];
      }
    } else {
      var front, last := b[..|b| - 1], b[|b| - 1];
      OpenAfterReconciling(a, front);
      assert a + b == (a + front) + [last] && b == front + [last];
      OpenDispatchAppend(a + front, last);
      OpenDispatchAppend(front, last);
    }
  }

  lemma {:induction false} RequestsReconcile(word: seq<Event>, record: ReconciliationRecord, ownerEpoch: nat)
    requires forall i :: 0 <= i < |word| ==> Reconciles(word[i], record, ownerEpoch)
    ensures forall i :: 0 <= i < |Requests(word)| ==> Requests(word)[i].act.Reconcile?
    decreases |word|
  {
    if word != [] {
      RequestsReconcile(word[..|word| - 1], record, ownerEpoch);
    }
  }

  /** Reconciliations open no dispatch. */
  lemma {:induction false} NothingOpenBefore(start: seq<Event>, mid: seq<Event>, end: seq<Event>,
                                             record: ReconciliationRecord, ownerEpoch: nat)
    requires start <= mid <= end
    requires forall i :: |start| <= i < |mid| ==> Reconciles(mid[i], record, ownerEpoch)
    requires |Requests(mid)| <= |Requests(end)| && OpenDispatch(Requests(end)[|Requests(mid)|..]).None?
    ensures |Requests(start)| <= |Requests(end)| && OpenDispatch(Requests(end)[|Requests(start)|..]).None?
  {
    hide OpenDispatch;
    var a, b := mid[|start|..], end[|mid|..];
    assert mid == start + a && end == mid + b;
    RequestsJoin(start, a);
    RequestsJoin(mid, b);
    RequestsReconcile(a, record, ownerEpoch);
    hide Requests;
    assert Requests(end)[|Requests(mid)|..] == Requests(b);
    assert Requests(end)[|Requests(start)|..] == Requests(a) + Requests(b);
    OpenAfterReconciling(Requests(a), Requests(b));
  }

  /** An effect waits for approval exactly when its plan says so, and an approval that is deferred changes no state. */
  lemma {:induction false} WaitNeedsApproval(version: StateVersion, input: StepInput, p: Proposal)
    requires Engine.Propose(version, input) == Ok(p)
    ensures p.next.PreparedEffect? && p.next.kind == ApprovalWait ==> p.next.plan.requiresApproval
    ensures Deferred(input, p) ==> p.value == version.value
  {
    hide Engine.Propose;
    EveryProposalFits(version, input);
  }

  lemma {:induction false} SentStepFits(version: StateVersion, input: StepInput, p: Proposal, ownerEpoch: nat)
    requires ProposeStep(version, input, ownerEpoch) == Ok(p)
    ensures ActionFits(p.value, p.next) && !p.next.YieldSafely?
    ensures p.next.PreparedEffect? && p.next.kind == ApprovalWait ==> p.next.plan.requiresApproval
    ensures Deferred(input, p) ==> p.value == version.value
  {
    hide Engine.Propose, SettlementBinds;
    ProposedActionFits(version, input);
    WaitNeedsApproval(version, input, p);
  }

  class SegmentCoordinator {
    const host: Process

    constructor (host: Process)
      ensures this.host == host
    {
      this.host := host;
    }

    /** The segment that began after `from` events stands there. */
    ghost predicate Stands(seg: Segment, from: nat, st: Stage)
      reads host
    {
      from <= |host.journal| && At(seg, host.journal, from) == Some(st)
    }

    /** Its events so far are in order. */
    ghost predicate InOrder(seg: Segment, from: nat)
      reads host
    {
      from <= |host.journal| && At(seg, host.journal, from).Some?
    }

    /** Commit a proposal as a plain transition or, with its effect mutation, as a settlement. */
    method CommitProposal(current: StateVersion, input: StepInput, proposal: Proposal, ownerEpoch: nat)
      returns (result: Alive<CommitResult>)
      requires host.Valid() && Genuine(host.world, current) && input.Valid()
      requires ProposeStep(current, input, ownerEpoch) == Ok(proposal) && !Deferred(input, proposal)
      modifies host
      ensures host.Valid() && Extends(old(host.world), host.world) && old(host.trace) <= host.trace
      ensures host.generated == old(host.generated)
      ensures result.Dead? ==> host.sent == old(host.sent) && host.journal == old(host.journal) && host.budget == 0
      ensures result.Answer? ==>
        && host.budget < old(host.budget)
        && |host.sent| == |old(host.sent)| + 1 && old(host.sent) <= host.sent
        && host.sent[|old(host.sent)|].result == result.value
        && SameRequest(Step(current.revision, input, ownerEpoch, 0, NoFault), host.sent[|old(host.sent)|].act)
        && host.journal == old(host.journal) + [Asked(host.sent[|old(host.sent)|])]
        && Reports(host.world, UnitFor(current, input, proposal, 0), result.value)
    {
      hide Engine.Propose, Refusal, ReconciledValue, Runs, Fresh, Requests;
      var preparations := Preparations(proposal.plans);
      var mutations := preparations;
      if input.Settles() && !PostReconciliation(current, input) {
        mutations := [SettlementMutation(input)] + preparations;
      }
      var unit := Unit(proposal.transitionId, current.revision, proposal.value, proposal.facts, proposal.dispositions,
                       mutations, proposal.plans, None, None, 0);
      assert [] + preparations == preparations;
      assert unit == UnitFor(current, input, proposal, 0);
      result := host.Submit(Step(current.revision, input, ownerEpoch, 0, NoFault), unit);
    }

    /** The proposal of this step dispatches the head of the queue of `current`. */
    ghost predicate ReadyToDispatch(current: StateVersion, proposal: Proposal, approval: Option<ApprovalSettlement>) {
      && proposal.next.PreparedEffect? && proposal.next.kind == Dispatch
      && current.value.runtime.Some? && current.value.runtime.value.pending != []
      && proposal.next.plan == current.value.runtime.value.pending[0]
      && (approval.Some? ==>
            && proposal.value == current.value && proposal.facts == [] && proposal.plans == []
            && proposal.dispositions == [Applied(approval.value.commandId)])
    }

    lemma {:induction false} DispatchIsReady(current: StateVersion, input: StepInput, proposal: Proposal,
                                             after: StateVersion, approval: Option<ApprovalSettlement>,
                                             ownerEpoch: nat)
      requires ProposeStep(current, input, ownerEpoch) == Ok(proposal)
      requires if Deferred(input, proposal) then after == current && approval == Some(input.approval)
               else after.value == proposal.value && approval.None?
      ensures proposal.next.PreparedEffect? && proposal.next.kind == Dispatch ==>
        ReadyToDispatch(after, proposal, approval)
        && AuthorizationBinds(after, proposal.next.plan, approval, ownerEpoch)
    {
      hide Engine.Propose, SettlementBinds;
      if proposal.next.PreparedEffect? {
        NextPlanIsHead(current, input);
      }
    }

    lemma {:induction false} AuthorizationIsSent(db: Db, current: StateVersion, proposal: Proposal,
                                                 approval: Option<ApprovalSettlement>, ownerEpoch: nat, cut: nat)
      requires current.revision < |db.history| && db.history[current.revision] == current
      requires ReadyToDispatch(current, proposal, approval)
      requires AuthorizationBinds(current, proposal.next.plan, approval, ownerEpoch)
      ensures var authorization := AuthorizationProposal(proposal, current, approval.Some?, ownerEpoch);
              UnitOf(db, Authorize(current.revision, approval, ownerEpoch, cut, 0, NoFault))
              == Some(DispatchUnit(authorization, current, proposal.next.plan, cut))
    {
    }

    /** The permit is that of the head of the queue, and nobody used it yet. */
    ghost predicate PermitIsIssued(permit: DispatchPermit, current: StateVersion, proposal: Proposal, ownerEpoch: nat)
      requires proposal.next.PreparedEffect?
      reads host, permit
    {
      var plan := proposal.next.plan;
      && !permit.claimed
      && permit.permit == Permit(plan.effectId, plan.attemptId, AuthorizationIdFor(current, plan), ownerEpoch,
                                 plan.idempotencyKey, false)
      && permit.permit.authorizationId in host.world.permits
      && host.world.permits[permit.permit.authorizationId] == permit.permit
    }

    /** One request for the dispatch authorization, at one mailbox cut. */
    method RequestAuthorization(current: StateVersion, proposal: Proposal, approval: Option<ApprovalSettlement>,
                                cut: nat, ghost seg: Segment, ghost from: nat, ownerEpoch: nat)
      returns (answer: Alive<CommitResult>, permit: DispatchPermit?)
      requires host.Valid() && Genuine(host.world, current) && ownerEpoch == seg.ownerEpoch
      requires Stands(seg, from, Stage(Calm, current, DueFor(approval), cut))
      requires ReadyToDispatch(current, proposal, approval)
      requires AuthorizationBinds(current, proposal.next.plan, approval, ownerEpoch)
      modifies host
      ensures host.Valid() && Extends(old(host.world), host.world) && old(host.trace) <= host.trace
      ensures old(host.sent) <= host.sent && old(host.journal) <= host.journal
      ensures host.generated == old(host.generated) && host.ahead == old(host.ahead)
      ensures old(host.world).db.mailboxCut <= host.world.db.mailboxCut
      ensures host.world.db.mailboxCut - old(host.world).db.mailboxCut
              == Advances(host.trace) - Advances(old(host.trace))
      ensures answer.Dead? ==> host.sent == old(host.sent) && host.journal == old(host.journal) && host.budget == 0
      ensures answer.Answer? ==>
        && host.budget < old(host.budget)
        && |host.sent| == |old(host.sent)| + 1 && host.sent[|old(host.sent)|].result == answer.value
        && EndsAuthorizing(host.journal, answer.value)
        && Reports(host.world, AuthorizationSent(current, proposal, approval, ownerEpoch, cut), answer.value)
        && (permit != null <==> answer.value.Committed?)
      ensures answer.Answer? ==>
        Stands(seg, from,
               if answer.value.Committed? then
                 Stage(Authorized(AuthorizationIdFor(current, proposal.next.plan)), answer.value.version, None, cut)
               else if answer.value.StaleMailboxCut? then
                 Stage(Stale(answer.value.currentCut), current, DueFor(approval), cut)
               else Stage(Stopped, KnownAfter(current, answer.value), DueFor(approval), cut))
      ensures answer.Answer? && answer.value.StaleMailboxCut? ==>
        && answer.value.currentCut == host.world.db.mailboxCut && cut != host.world.db.mailboxCut
        && OnlyOthers(old(host.world), old(host.foreign), host.world, host.foreign)
      ensures answer.Answer? && permit != null ==>
        fresh(permit) && PermitIsIssued(permit, current, proposal, ownerEpoch)
    {
      hide Requests, Advances, Runs, UnitOf, AuthorizationBinds, Fresh, OnlyOthers, StageOf;
      AuthorizationIsSent(host.world.db, current, proposal, approval, ownerEpoch, cut);
      ghost var before, trace := host.journal, host.trace;
      host.MailboxFollowsTrace();
      answer, permit := host.AuthorizeDispatch(
        Authorize(current.revision, approval, ownerEpoch, cut, 0, NoFault),
        AuthorizationSent(current, proposal, approval, ownerEpoch, cut));
      AdvancesGrow(trace, host.trace);
      host.MailboxFollowsTrace();
      if answer.Answer? {
        AtOneMore(seg, before, from, host.journal[|before|]);
      }
    }

    /** After a stale answer the probe is read again: it ends the segment, or gives the cut of the next attempt. */
    method ObserveAfterStale(stale: nat, ghost seg: Segment, ghost from: nat, ghost st: Stage)
      returns (snapshot: Alive<Snapshot>)
      requires host.Valid() && Stands(seg, from, st) && st.phase == Stale(stale)
      modifies host`tick, host`budget, host`journal, host`sent, host`ahead
      ensures host.Valid() && host.sent == old(host.sent) && old(host.journal) <= host.journal && InOrder(seg, from)
      ensures if snapshot.Answer? then host.budget < old(host.budget) else host.budget == 0
      ensures host.ahead == old(host.ahead)
        + if snapshot.Answer? && snapshot.value.generation > host.world.db.mailboxCut then 1 else 0
      ensures snapshot.Answer? && snapshot.value.raised ==>
        && Stands(seg, from, st.(phase := Stopped)) && host.journal != []
        && host.journal[|host.journal| - 1] == Observed(snapshot.value)
      ensures snapshot.Answer? && !snapshot.value.raised ==>
        Stands(seg, from, st.(phase := Calm, cut := MailboxRetry.NextCut(stale, snapshot.value.generation)))
    {
      hide Requests, Runs, Fresh, At;
      ghost var before := host.journal;
      snapshot := host.Observe();
      if snapshot.Dead? {
        assert host.journal == before;
        return;
      }
      AtOneMore(seg, before, from, Observed(snapshot.value));
    }

    /** Ask for the dispatch authorization, raising the mailbox cut as long as the store calls it stale. */
    method AuthorizeEffect(current: StateVersion, proposal: Proposal, approval: Option<ApprovalSettlement>,
                           ownerEpoch: nat, mailboxCut: nat, ghost seg: Segment, ghost from: nat)
      returns (result: Alive<CommitResult>, permit: DispatchPermit?, interrupted: Option<string>, cut: nat)
      requires host.Valid() && Genuine(host.world, current) && ownerEpoch == seg.ownerEpoch
      requires Stands(seg, from, Stage(Calm, current, DueFor(approval), mailboxCut))
      requires ReadyToDispatch(current, proposal, approval)
      requires AuthorizationBinds(current, proposal.next.plan, approval, ownerEpoch)
      modifies host
      ensures host.Valid() && Extends(old(host.world), host.world) && old(host.trace) <= host.trace
      ensures old(host.sent) <= host.sent && old(host.journal) <= host.journal
      ensures host.generated == old(host.generated) && InOrder(seg, from)
      ensures interrupted.Some? ==>
        && OnlyStale(host.sent, |old(host.sent)|)
        && OnlyOthers(old(host.world), old(host.foreign), host.world, host.foreign)
      ensures old(host.ahead) <= host.ahead
      ensures host.ahead == old(host.ahead) ==>
        |host.sent| - |old(host.sent)| <= 2 + Advances(host.trace) - Advances(old(host.trace))
      ensures if result.Answer? then host.budget < old(host.budget) else host.budget == 0
      ensures result.Answer? && interrupted.Some? ==>
        && Stands(seg, from, Stage(Stopped, current, DueFor(approval), cut)) && host.journal != []
        && Raised(host.journal[|host.journal| - 1])
        && host.journal[|host.journal| - 1].snapshot.reason == interrupted.value
      ensures result.Answer? && interrupted.None? ==>
        && !result.value.StaleMailboxCut? && (permit != null <==> result.value.Committed?)
        && EndsAuthorizing(host.journal, result.value)
        && Reports(host.world, AuthorizationSent(current, proposal, approval, ownerEpoch, cut), result.value)
        && Stands(seg, from,
                  if permit != null then
                    Stage(Authorized(AuthorizationIdFor(current, proposal.next.plan)), result.value.version, None, cut)
                  else Stage(Stopped, KnownAfter(current, result.value), DueFor(approval), cut))
      ensures result.Answer? && interrupted.None? && permit != null ==>
        fresh(permit) && PermitIsIssued(permit, current, proposal, ownerEpoch)
    {
      hide Requests, Advances, Runs, AuthorizationBinds, AuthorizationSent, ReadyToDispatch, OnlyOthers;
      hide Fresh, Reports, StageOf, At, EndsAuthorizing;
      hide MailboxRetry.Retrying, MailboxRetry.NotAhead;
      cut, permit, interrupted := mailboxCut, null, None;
      ghost var storeCuts: seq<nat>, generations: seq<nat> := [], [];
      OnlyOthersAtOnce(host.world, host.foreign);
      MailboxRetry.FirstAttempt(mailboxCut, host.world.db.mailboxCut);
      while true
        invariant host.Valid() && Extends(old(host.world), host.world) && old(host.trace) <= host.trace
        invariant old(host.sent) <= host.sent && old(host.journal) <= host.journal
        invariant host.generated == old(host.generated)
        invariant Stands(seg, from, Stage(Calm, current, DueFor(approval), cut))
        invariant host.budget <= old(host.budget) && permit == null && interrupted.None?
        invariant OnlyStale(host.sent, |old(host.sent)|)
        invariant OnlyOthers(old(host.world), old(host.foreign), host.world, host.foreign)
        invariant |storeCuts| == |generations| == |host.sent| - |old(host.sent)|
        invariant host.world.db.mailboxCut - old(host.world).db.mailboxCut
                  == Advances(host.trace) - Advances(old(host.trace))
        invariant MailboxRetry.Retrying(mailboxCut, storeCuts, generations, cut,
                                        old(host.world).db.mailboxCut, host.world.db.mailboxCut)
        invariant old(host.ahead) <= host.ahead
        invariant host.ahead == old(host.ahead) ==> MailboxRetry.NotAhead(storeCuts, generations)
        decreases host.budget
      {
        ghost var mid, foreign := host.world, host.foreign;
        if MailboxRetry.NotAhead(storeCuts, generations) {
          MailboxRetry.RetriesAreFew(mailboxCut, storeCuts, generations, cut, old(host.world).db.mailboxCut,
                                     mid.db.mailboxCut);
        }
        result, permit := RequestAuthorization(current, proposal, approval, cut, seg, from, ownerEpoch);
        if result.Dead? || !result.value.StaleMailboxCut? {
          return;
        }
        OnlyOthersTwice(old(host.world), old(host.foreign), mid, foreign, host.world, host.foreign);
        var stale := result.value.currentCut;
        var snapshot := ObserveAfterStale(stale, seg, from, Stage(Stale(stale), current, DueFor(approval), cut));
        if snapshot.Dead? {
          result := Dead;
          return;
        }
        if snapshot.value.raised {
          interrupted := Some(snapshot.value.reason);
          return;
        }
        MailboxRetry.RetryOnce(mailboxCut, storeCuts, generations, cut, old(host.world).db.mailboxCut,
                               mid.db.mailboxCut, stale, snapshot.value.generation);
        storeCuts, generations := storeCuts + [stale], generations + [snapshot.value.generation];
        cut := MailboxRetry.NextCut(stale, snapshot.value.generation);
      }
    }

    /**
     The settlement of an authorized effect: the executor is called exactly when no control was raised
     after the authorization, and at most once; without its result, the effect is indeterminate.
     */
    method ExecuteOrGiveUp(permit: DispatchPermit, ghost seg: Segment, ghost from: nat, ghost st: Stage)
      returns (result: Alive<ExecutionResult>, cancelled: bool, ghost reading: Reading)
      requires host.Valid() && !permit.claimed && !permit.permit.claimed
      requires permit.permit.authorizationId in host.world.permits
      requires host.world.permits[permit.permit.authorizationId] == permit.permit
      requires Stands(seg, from, st) && st.phase == Authorized(permit.permit.authorizationId)
      modifies host, permit
      ensures host.Valid() && Extends(old(host.world), host.world) && old(host.trace) <= host.trace
      ensures host.sent == old(host.sent) && host.generated == old(host.generated)
      ensures old(host.journal) <= host.journal && InOrder(seg, from)
      ensures if result.Answer? then host.budget < old(host.budget) else host.budget == 0
      ensures var p := permit.permit;
              host.world.executions == old(host.world).executions
                + if permit.claimed then [Execution(p.effectId, p.attemptId, p.authorizationId, p.ownerEpoch)] else []
      ensures permit.claimed ==>
        && |host.journal| >= |old(host.journal)| + 2
        && CalmlyObserved(host.journal[|old(host.journal)|])
        && host.journal[|old(host.journal)| + 1] == Called(permit.permit.authorizationId)
      ensures result.Answer? ==>
        && |old(host.journal)| < |host.journal| && host.journal[|old(host.journal)|].Observed?
        && (permit.claimed <==> !host.journal[|old(host.journal)|].snapshot.raised)
        && (!permit.claimed ==> reading == ControlRaised(host.journal[|old(host.journal)|].snapshot.reason))
        && (permit.claimed ==> reading.Answered?)
        && Stands(seg, from, st.(phase := MustSettle(permit.permit.authorizationId, reading)))
        && StandsFor(reading, result.value) && (cancelled <==> reading == Answered(ExecutorCancelled))
    {
      hide UnitOf, CommitAct, Perform, Runs, Fresh, Requests, StageOf, At;
      cancelled, reading := false, ControlRaised("");
      ghost var before := host.journal;
      var snapshot := host.Observe();
      if snapshot.Dead? {
        assert host.journal == before;
        result := Dead;
        return;
      }
      AtOneMore(seg, before, from, Observed(snapshot.value));
      if snapshot.value.raised {
        reading := ControlRaised(snapshot.value.reason);
        result := Answer(EffectIndeterminate("control_after_dispatch", snapshot.value.reason, "{}"));
      } else {
        var granted := permit.Claim();
        assert granted;
        ghost var calm, id := host.journal, permit.permit.authorizationId;
        var answer := host.Execute(permit);
        AtOneMore(seg, calm, from, Called(id));
        if answer.Dead? {
          assert host.journal == calm + [Called(id)];
          result := Dead;
          return;
        }
        AtOneMore(seg, calm + [Called(id)], from, Replied(id, answer.value));
        reading := Answered(answer.value);
        match answer.value {
          case Returned(value) => result := Answer(value);
          case ExecutorCancelled =>
            cancelled := true;
            result := Answer(EffectIndeterminate("effect_executor_cancelled",
                                                 "effect executor cancelled after dispatch", "{}"));
          case ExecutorRaised(message) =>
            result := Answer(EffectIndeterminate("effect_executor_error", message, "{}"));
        }
      }
    }

    lemma {:induction false} AuthorizedVersionHolds(current: StateVersion, proposal: Proposal,
                                                    approval: Option<ApprovalSettlement>, ownerEpoch: nat, cut: nat,
                                                    version: StateVersion)
      requires ReadyToDispatch(current, proposal, approval)
      requires version.value == AuthorizationSent(current, proposal, approval, ownerEpoch, cut).value
      ensures HoldsAuthorization(version, proposal.next.plan, AuthorizationIdFor(current, proposal.next.plan),
                                 ownerEpoch)
    {
    }

    /** With the authorization committed, get the settlement that is due for it. */
    method SettleAuthorized(authorized: StateVersion, plan: EffectPlan, authorizationId: Id, ownerEpoch: nat, cut: nat,
                            permit: DispatchPermit, ghost seg: Segment, ghost from: nat)
      returns (next: Alive<Dispatched>)
      requires host.Valid() && Genuine(host.world, authorized) && !permit.claimed && !permit.permit.claimed
      requires permit.permit.authorizationId == authorizationId && authorizationId in host.world.permits
      requires host.world.permits[authorizationId] == permit.permit
      requires HoldsAuthorization(authorized, plan, authorizationId, ownerEpoch)
      requires Stands(seg, from, Stage(Authorized(authorizationId), authorized, None, cut))
      modifies host, permit
      ensures host.Valid() && Extends(old(host.world), host.world) && old(host.trace) <= host.trace
      ensures host.sent == old(host.sent) && host.generated == old(host.generated)
      ensures old(host.journal) <= host.journal && InOrder(seg, from)
      ensures if next.Answer? then next.value.Settle? && host.budget < old(host.budget) else host.budget == 0
      ensures next.Answer? ==>
        && next.value.version == authorized && next.value.cut == cut
        && Genuine(host.world, authorized) && next.value.input.Valid() && !next.value.input.Initial?
        && var now := At(seg, host.journal, from).value;
           && now.known == authorized && now.cut == cut && now.phase.MustSettle?
           && InputIsDue(now, next.value.input, next.value.cancelled)
           && Settleable(authorized, next.value.input, ownerEpoch)
    {
      hide Runs, Requests, Fresh, StageOf, At, StandsFor, Says, SettlementFor, Settleable, HoldsAuthorization;
      var execution, cancelled;
      ghost var reading;
      execution, cancelled, reading :=
        ExecuteOrGiveUp(permit, seg, from, Stage(Authorized(authorizationId), authorized, None, cut));
      if execution.Dead? {
        return Dead;
      }
      var settlement := SettlementFor(plan, authorizationId, ownerEpoch, execution.value);
      SettlementSays(plan, authorizationId, ownerEpoch, execution.value, reading);
      SettlementIsSettleable(authorized, plan, authorizationId, ownerEpoch, execution.value);
      return Answer(Settle(authorized, EffectSettled(settlement), cut, cancelled));
    }

    method DispatchEffect(current: StateVersion, proposal: Proposal, approval: Option<ApprovalSettlement>,
                          ownerEpoch: nat, mailboxCut: nat, steps: nat, ghost seg: Segment, ghost from: nat,
                          ghost st: Stage)
      returns (next: Alive<Dispatched>)
      requires host.Valid() && Genuine(host.world, current) && ownerEpoch == seg.ownerEpoch
      requires Stands(seg, from, st) && IsFree(st.phase)
      requires st.known == current && st.due == DueFor(approval) && st.cut == mailboxCut
      requires ReadyToDispatch(current, proposal, approval)
      requires AuthorizationBinds(current, proposal.next.plan, approval, ownerEpoch)
      modifies host
      ensures host.Valid() && Extends(old(host.world), host.world) && old(host.trace) <= host.trace
      ensures next.Dead? ==> host.budget == 0
      ensures old(host.sent) <= host.sent && host.generated == old(host.generated)
      ensures old(host.journal) <= host.journal && InOrder(seg, from)
      ensures next.Answer? && next.value.Settle? ==>
        && host.budget < old(host.budget)
        && Genuine(host.world, next.value.version) && next.value.input.Valid() && !next.value.input.Initial?
        && var now := At(seg, host.journal, from).value;
           && now.known == next.value.version && now.cut == next.value.cut && now.phase.MustSettle?
           && InputIsDue(now, next.value.input, next.value.cancelled)
           && Settleable(next.value.version, next.value.input, ownerEpoch)
      ensures next.Answer? && next.value.Stop? && next.value.outcome.SafeYieldOutcome? ==>
        && OnlyStale(host.sent, |old(host.sent)|)
        && OnlyOthers(old(host.world), old(host.foreign), host.world, host.foreign)
      ensures next.Answer? && next.value.Stop? ==>
        && Genuine(host.world, next.value.outcome.version)
        && next.value.outcome.steps == steps
        && (next.value.outcome.SafeYieldOutcome? || next.value.outcome.FailedOutcome?)
        && Concludes(next.value.outcome, At(seg, host.journal, from).value, host.journal, seg.ownerEpoch)
    {
      hide DueFor, Accepted, Engine.Propose;
      hide AuthorizationBinds, AuthorizationSent, Advances, OnlyOthers, Runs, Requests;
      hide Fresh, StageOf, At, Says, Fails, FailureCode, Settleable, HoldsAuthorization;
      OnlyOthersAtOnce(host.world, host.foreign);
      var plan := proposal.next.plan;
      ghost var before := host.journal;
      var snapshot := host.Observe();
      if snapshot.Dead? {
        assert host.journal == before;
        return Dead;
      }
      AtOneMore(seg, before, from, Observed(snapshot.value));
      if snapshot.value.raised {
        return Answer(Stop(SafeYieldOutcome(current, snapshot.value.reason, steps)));
      }
      var result, permit, interrupted, cut :=
        AuthorizeEffect(current, proposal, approval, ownerEpoch, mailboxCut, seg, from);
      if result.Dead? {
        return Dead;
      }
      if interrupted.Some? {
        return Answer(Stop(SafeYieldOutcome(current, interrupted.value, steps)));
      }
      if permit == null {
        RefusalFails(At(seg, host.journal, from).value, host.journal, ownerEpoch);
        return Answer(Stop(FailedOutcome(FailureVersion(result.value, current), FailureCode(result.value), steps)));
      }
      AuthorizedVersionHolds(current, proposal, approval, ownerEpoch, cut, result.value.version);
      next := SettleAuthorized(result.value.version, plan, AuthorizationIdFor(current, plan), ownerEpoch, cut, permit,
                               seg, from);
    }

    /** Send the proposal of the input that is due. */
    method SendProposal(current: StateVersion, input: StepInput, proposal: Proposal, ownerEpoch: nat, cancelled: bool,
                        ghost seg: Segment, ghost from: nat, ghost st: Stage)
      returns (result: Alive<CommitResult>)
      requires host.Valid() && Genuine(host.world, current) && input.Valid() && ownerEpoch == seg.ownerEpoch
      requires ProposeStep(current, input, ownerEpoch) == Ok(proposal) && !Deferred(input, proposal)
      requires Stands(seg, from, st) && st.known == current && InputIsDue(st, input, cancelled)
      requires input.Settles() || st.phase.Calm?
      modifies host
      ensures host.Valid() && Extends(old(host.world), host.world) && old(host.trace) <= host.trace
      ensures result.Dead? ==> host.budget == 0
      ensures old(host.sent) <= host.sent && host.generated == old(host.generated)
      ensures old(host.journal) <= host.journal && InOrder(seg, from)
      ensures result.Answer? ==>
        && host.budget < old(host.budget) && host.journal != []
        && var now, last := At(seg, host.journal, from).value, host.journal[|host.journal| - 1];
           && now.known == KnownAfter(current, result.value) && now.cut == st.cut
           && last.Asked? && last.sent.act.Step? && last.sent.act.input == input && last.sent.result == result.value
           && (Accepted(result.value) ==>
                 now.due.None?
                 && now.phase == if cancelled then Stopped else if input.Settles() then Closed else Idle)
           && (result.value.CasConflict? ==>
                 InputIsDue(now, input, cancelled) && Genuine(host.world, result.value.current))
      ensures result.Answer? && Accepted(result.value) ==>
        Genuine(host.world, result.value.version) && result.value.version.value == proposal.value
    {
      hide Engine.Propose, MutationsFor, Runs, Fresh, Requests, StageOf, At, Says;
      ghost var before := host.journal;
      result := CommitProposal(current, input, proposal, ownerEpoch);
      if result.Dead? {
        return;
      }
      AtOneMore(seg, before, from, host.journal[|before|]);
    }

    method Commit(current: StateVersion, input: StepInput, proposal: Proposal, ownerEpoch: nat, steps: nat,
                  cancelled: bool, ghost seg: Segment, ghost from: nat, ghost st: Stage)
      returns (phase: Alive<CommitPhase>)
      requires host.Valid() && Genuine(host.world, current) && input.Valid() && ownerEpoch == seg.ownerEpoch
      requires ProposeStep(current, input, ownerEpoch) == Ok(proposal) && !Deferred(input, proposal)
      requires Stands(seg, from, st) && st.known == current && InputIsDue(st, input, cancelled)
      modifies host
      ensures host.Valid() && Extends(old(host.world), host.world) && old(host.trace) <= host.trace
      ensures phase.Dead? ==> host.budget == 0
      ensures old(host.sent) <= host.sent && host.generated == old(host.generated)
      ensures old(host.journal) <= host.journal && InOrder(seg, from)
      ensures phase.Answer? && phase.value.Conflict? ==>
        && host.budget < old(host.budget) && Genuine(host.world, phase.value.version)
        && var now := At(seg, host.journal, from).value;
           now.known == phase.value.version && now.cut == st.cut && InputIsDue(now, input, cancelled)
      ensures phase.Answer? && phase.value.Halt? ==>
        && Genuine(host.world, phase.value.outcome.version) && phase.value.outcome.steps == steps
        && (StoppedEarly(phase.value.outcome) || phase.value.outcome.FailedOutcome?)
        && Concludes(phase.value.outcome, At(seg, host.journal, from).value, host.journal, seg.ownerEpoch)
      ensures phase.Answer? && phase.value.Proceed? ==>
        && host.budget < old(host.budget)
        && Genuine(host.world, phase.value.version) && phase.value.version.value == proposal.value
        && var now := At(seg, host.journal, from).value;
           now.known == phase.value.version && now.cut == st.cut && IsFree(now.phase) && now.due.None?
    {
      hide ProposeStep;
      hide Engine.Propose, Runs, Fresh, Requests, SettlementBinds, StageOf, At, Says, Fails, FailureCode;
      ghost var now, before := st, host.journal;
      if !input.Settles() {
        var snapshot := host.Observe();
        if snapshot.Dead? {
          assert host.journal == before;
          return Dead;
        }
        AtOneMore(seg, before, from, Observed(snapshot.value));
        if snapshot.value.raised {
          return Answer(Halt(SafeYieldOutcome(current, snapshot.value.reason, steps)));
        }
        now := st.(phase := Calm);
      }
      var result :- SendProposal(current, input, proposal, ownerEpoch, cancelled, seg, from, now);
      if result.CasConflict? {
        return Answer(Conflict(result.current));
      }
      if !result.Committed? && !result.ExactReplay? {
        RefusalFails(At(seg, host.journal, from).value, host.journal, ownerEpoch);
        return Answer(Halt(FailedOutcome(FailureVersion(result, current), FailureCode(result), steps)));
      }
      if cancelled && input.EffectSettled? {
        return Answer(Halt(TaskCancelled(result.version, steps)));
      }
      if input.Settles() {
        before := host.journal;
        var snapshot := host.Observe();
        if snapshot.Dead? {
          assert host.journal == before;
          return Dead;
        }
        AtOneMore(seg, before, from, Observed(snapshot.value));
        if snapshot.value.raised {
          return Answer(Halt(SafeYieldOutcome(result.version, snapshot.value.reason, steps)));
        }
      }
      return Answer(Proceed(result.version));
    }

    method GenerateOnce(current: StateVersion, request: ModelRequest, maxRounds: nat, steps: nat, cut: nat,
                        ghost seg: Segment, ghost from: nat, ghost st: Stage)
      returns (progress: Alive<Progress>)
      requires host.Valid() && Genuine(host.world, current) && steps <= maxRounds
      requires ActionFits(current.value, Generate(request))
      requires Stands(seg, from, st) && IsFree(st.phase) && st.known == current && st.due.None? && st.cut == cut
      modifies host`tick, host`budget, host`generated, host`journal, host`sent, host`ahead
      ensures host.Valid() && host.budget <= old(host.budget) && host.sent == old(host.sent)
      ensures progress.Dead? ==> host.budget == 0
      ensures old(host.journal) <= host.journal && InOrder(seg, from)
      ensures host.generated - old(host.generated) <= maxRounds - steps
      ensures progress.Answer? && progress.value.Continue? ==>
        && host.generated == old(host.generated) + 1
        && host.budget < old(host.budget)
        && progress.value.version == current && progress.value.input.ModelCompleted? && progress.value.input.Valid()
        && progress.value.input.result.requestId == request.requestId
        && progress.value.steps == steps + 1 <= maxRounds && progress.value.cut == cut && !progress.value.cancelled
        && |old(host.journal)| + 2 == |host.journal|
        && host.journal[|old(host.journal)| + 1] == Modelled(request, Generated(progress.value.input.result))
        && Stands(seg, from, Stage(Idle, current, Some(progress.value.input), cut))
      ensures progress.Answer? && progress.value.Return? ==>
        && progress.value.outcome.version == current && progress.value.outcome.steps == steps
        && OutcomeFits(progress.value.outcome, maxRounds)
        && (progress.value.outcome.FailedOutcome? || host.generated == old(host.generated))
        && Concludes(progress.value.outcome, At(seg, host.journal, from).value, host.journal, seg.ownerEpoch)
    {
      hide Engine.Propose, CommitAct, Perform, Genuine, Fresh, Runs, Requests, StageOf, At;
      if steps >= maxRounds {
        return Answer(Return(RoundLimitOutcome(current, steps)));
      }
      ghost var before := host.journal;
      var snapshot := host.Observe();
      if snapshot.Dead? {
        assert host.journal == before;
        return Dead;
      }
      AtOneMore(seg, before, from, Observed(snapshot.value));
      if snapshot.value.raised {
        return Answer(Return(SafeYieldOutcome(current, snapshot.value.reason, steps)));
      }
      ghost var calm := host.journal;
      var generation := host.Generate(request);
      if generation.Dead? {
        assert host.journal == calm;
        return Dead;
      }
      AtOneMore(seg, calm, from, Modelled(request, generation.value));
      match generation.value {
        case Interrupted(reason) =>
          return Answer(Return(SafeYieldOutcome(current, reason, steps)));
        case AdapterFailed(_) =>
          return Answer(Return(FailedOutcome(current, "segment_coordinator_error", steps)));
        case Generated(result) =>
          if result.requestId != request.requestId {
            return Answer(Return(FailedOutcome(current, "model_request_id_mismatch", steps)));
          }
          return Answer(Continue(current, ModelCompleted(result), steps + 1, cut, false));
      }
    }

    method TakeAction(current: StateVersion, proposal: Proposal, approval: Option<ApprovalSettlement>, ownerEpoch: nat,
                      maxRounds: nat, steps: nat, cut: nat, ghost seg: Segment, ghost from: nat, ghost st: Stage)
      returns (progress: Alive<Progress>)
      requires host.Valid() && Genuine(host.world, current) && steps <= maxRounds && ownerEpoch == seg.ownerEpoch
      requires Stands(seg, from, st) && IsFree(st.phase) && st.known == current && st.cut == cut
      requires st.due == DueFor(approval) && (approval.Some? ==> proposal.next.PreparedEffect?)
      requires proposal.next.PreparedEffect? && proposal.next.kind == Dispatch ==>
        ReadyToDispatch(current, proposal, approval)
        && AuthorizationBinds(current, proposal.next.plan, approval, ownerEpoch)
      requires proposal.next.PreparedEffect? && proposal.next.kind == ApprovalWait ==>
        approval.None? && proposal.next.plan.requiresApproval
      requires ActionFits(current.value, proposal.next) && !proposal.next.YieldSafely?
      modifies host
      ensures host.Valid() && Extends(old(host.world), host.world) && old(host.trace) <= host.trace
      ensures progress.Dead? ==> host.budget == 0
      ensures old(host.sent) <= host.sent && old(host.journal) <= host.journal && InOrder(seg, from)
      ensures host.generated - old(host.generated) <= maxRounds - steps
      ensures progress.Answer? && progress.value.Continue? ==>
        && host.budget < old(host.budget)
        && host.generated - old(host.generated) == progress.value.steps - steps
        && Genuine(host.world, progress.value.version)
        && !progress.value.input.Initial? && progress.value.input.Valid() && progress.value.steps <= maxRounds
        && var now := At(seg, host.journal, from).value;
           && now.known == progress.value.version && now.cut == progress.value.cut
           && InputIsDue(now, progress.value.input, progress.value.cancelled)
      ensures progress.Answer? && progress.value.Return? ==>
        && Genuine(host.world, progress.value.outcome.version) && progress.value.outcome.steps == steps
        && OutcomeFits(progress.value.outcome, maxRounds)
        && (progress.value.outcome.FailedOutcome? || host.generated == old(host.generated))
        && Concludes(progress.value.outcome, At(seg, host.journal, from).value, host.journal, seg.ownerEpoch)
    {
      hide CommitAct, Perform, Fresh, Runs, Requests, StageOf, At, Says, AsksFor, OnlyOthers, Fails;
      match proposal.next {
        case Finish(text, reason) =>
          return Answer(Return(CompletedOutcome(current, text, steps, reason)));
        case Blocked(reason, plan) =>
          return Answer(Return(BlockedOutcome(current, reason, plan, steps)));
        case YieldSafely(reason) =>
          return Answer(Return(SafeYieldOutcome(current, reason, steps)));
        case Generate(request) =>
          progress := GenerateOnce(current, request, maxRounds, steps, cut, seg, from, st);
        case PreparedEffect(plan, kind) =>
          if kind == ApprovalWait {
            return Answer(Return(BlockedOutcome(current, "approval_required", plan, steps)));
          }
          var next := DispatchEffect(current, proposal, approval, ownerEpoch, cut, steps, seg, from, st);
          if next.Dead? {
            return Dead;
          }
          if next.value.Stop? {
            return Answer(Return(next.value.outcome));
          }
          return Answer(Continue(next.value.version, next.value.input, steps, next.value.cut, next.value.cancelled));
      }
    }

    /** Commit a proposal unless the approval defers it, then act. */
    method FollowProposal(current: StateVersion, input: StepInput, proposal: Proposal, ownerEpoch: nat,
                          maxRounds: nat, steps: nat, cut: nat, cancelled: bool, ghost seg: Segment, ghost from: nat,
                          ghost st: Stage)
      returns (progress: Alive<Progress>)
      requires host.Valid() && Genuine(host.world, current) && input.Valid() && steps <= maxRounds
      requires ProposeStep(current, input, ownerEpoch) == Ok(proposal) && ownerEpoch == seg.ownerEpoch
      requires Stands(seg, from, st) && st.known == current && st.cut == cut && InputIsDue(st, input, cancelled)
      modifies host
      ensures host.Valid() && Extends(old(host.world), host.world) && old(host.trace) <= host.trace
      ensures progress.Dead? ==> host.budget == 0
      ensures old(host.sent) <= host.sent && old(host.journal) <= host.journal && InOrder(seg, from)
      ensures host.generated - old(host.generated) <= maxRounds - steps
      ensures progress.Answer? && progress.value.Continue? ==>
        && host.budget < old(host.budget)
        && host.generated - old(host.generated) == progress.value.steps - steps
        && Genuine(host.world, progress.value.version)
        && progress.value.input.Valid() && progress.value.steps <= maxRounds
        && (progress.value.input.Initial? ==> input.Initial?)
        && var now := At(seg, host.journal, from).value;
           && now.known == progress.value.version && now.cut == progress.value.cut
           && InputIsDue(now, progress.value.input, progress.value.cancelled)
      ensures progress.Answer? && progress.value.Return? ==>
        && Genuine(host.world, progress.value.outcome.version) && progress.value.outcome.steps == steps
        && OutcomeFits(progress.value.outcome, maxRounds)
        && (progress.value.outcome.FailedOutcome? || host.generated == old(host.generated))
        && Concludes(progress.value.outcome, At(seg, host.journal, from).value, host.journal, seg.ownerEpoch)
    {
      hide KnownAfter, Accepted;
      hide ActionFits, Engine.Propose, ReadyToDispatch, Genuine, Perform, Fresh, Runs, Requests;
      hide SettlementBinds, StageOf, At, Says, Fails, AuthorizationBinds, ProposeStep;
      SentStepFits(current, input, proposal, ownerEpoch);
      if Deferred(input, proposal) {
        DispatchIsReady(current, input, proposal, current, Some(input.approval), ownerEpoch);
        progress := TakeAction(current, proposal, Some(input.approval), ownerEpoch, maxRounds, steps, cut, seg, from,
                               st);
      } else {
        var phase := Commit(current, input, proposal, ownerEpoch, steps, cancelled, seg, from, st);
        if phase.Dead? {
          return Dead;
        }
        match phase.value {
          case Conflict(version) =>
            progress := Answer(Continue(version, input, steps, cut, cancelled));
          case Halt(outcome) =>
            progress := Answer(Return(outcome));
          case Proceed(version) =>
            DispatchIsReady(current, input, proposal, version, None, ownerEpoch);
            progress := TakeAction(version, proposal, None, ownerEpoch, maxRounds, steps, cut, seg, from,
                                   At(seg, host.journal, from).value);
        }
      }
    }

    /** One turn of the loop: propose, commit unless the approval defers it, then act. */
    method Turn(current: StateVersion, input: StepInput, ownerEpoch: nat, maxRounds: nat, steps: nat, cut: nat,
                cancelled: bool, ghost seg: Segment, ghost from: nat)
      returns (progress: Alive<Progress>)
      requires host.Valid() && Genuine(host.world, current) && input.Valid() && steps <= maxRounds
      requires InOrder(seg, from) && ownerEpoch == seg.ownerEpoch
      requires var st := At(seg, host.journal, from).value;
               st.known == current && st.cut == cut && InputIsDue(st, input, cancelled)
      modifies host
      ensures host.Valid() && Extends(old(host.world), host.world) && old(host.trace) <= host.trace
      ensures progress.Dead? ==> host.budget == 0
      ensures old(host.sent) <= host.sent && old(host.journal) <= host.journal && InOrder(seg, from)
      ensures host.generated - old(host.generated) <= maxRounds - steps
      ensures progress.Answer? && progress.value.Continue? ==>
        && host.budget < old(host.budget)
        && host.generated - old(host.generated) == progress.value.steps - steps
        && Genuine(host.world, progress.value.version)
        && progress.value.input.Valid() && progress.value.steps <= maxRounds
        && (progress.value.input.Initial? ==> input.Initial?)
        && var now := At(seg, host.journal, from).value;
           && now.known == progress.value.version && now.cut == progress.value.cut
           && InputIsDue(now, progress.value.input, progress.value.cancelled)
      ensures progress.Answer? && progress.value.Return? ==>
        && Genuine(host.world, progress.value.outcome.version) && progress.value.outcome.steps == steps
        && OutcomeFits(progress.value.outcome, maxRounds)
        && (progress.value.outcome.FailedOutcome? || host.generated == old(host.generated))
        && Concludes(progress.value.outcome, At(seg, host.journal, from).value, host.journal, seg.ownerEpoch)
    {
      hide KnownAfter, Accepted;
      hide ActionFits, Engine.Propose, ReadyToDispatch, Genuine, Perform, Fresh, Runs, Requests;
      hide SettlementBinds, StageOf, At, Says, Fails, AuthorizationBinds, ProposeStep;
      ghost var st, before := At(seg, host.journal, from).value, host.journal;
      if !input.Settles() {
        var snapshot := host.Observe();
        if snapshot.Dead? {
          assert host.journal == before;
          return Dead;
        }
        AtOneMore(seg, before, from, Observed(snapshot.value));
        if snapshot.value.raised {
          return Answer(Return(SafeYieldOutcome(current, snapshot.value.reason, steps)));
        }
        st := st.(phase := Calm);
      }
      var proposed := ProposeStep(current, input, ownerEpoch);
      if proposed.Err? {
        NoProposalFails(st, input, cancelled, host.journal, ownerEpoch);
        return Answer(Return(FailedOutcome(current, "segment_coordinator_error", steps)));
      }
      progress := FollowProposal(current, input, proposed.value, ownerEpoch, maxRounds, steps, cut, cancelled, seg,
                                 from, st);
    }

    /**
     One segment. Whatever the environment does and wherever the process dies, the store has only been
     through a run of the protocol, and the events of the segment are in the order that `After` allows.
     When it ends, it stands on the last version it knew; unless it failed, no dispatch of its own is left
     without settlement. It completes with the last answer of the model and an empty queue, blocks on the
     head of the queue, stops at the limit only after `maxRounds` steps with a request active, and yields
     or is cancelled only because of its last event.
     */
    method Run(request: SegmentRequest) returns (outcome: Alive<SegmentOutcome>)
      requires host.Valid() && ValidRequest(request) && Genuine(host.world, request.version)
      modifies host
      ensures host.Valid() && Extends(old(host.world), host.world)
      ensures outcome.Dead? ==> host.budget == 0
      ensures old(host.trace) <= host.trace && old(host.sent) <= host.sent && old(host.journal) <= host.journal
      ensures InOrder(SegmentOf(request), |old(host.journal)|)
      ensures host.generated - old(host.generated) <= request.maxRounds
      ensures outcome.Answer? ==>
        && Genuine(host.world, outcome.value.version) && outcome.value.steps <= request.maxRounds
        && OutcomeFits(outcome.value, request.maxRounds)
        && Concludes(outcome.value, At(SegmentOf(request), host.journal, |old(host.journal)|).value, host.journal,
                     request.ownerEpoch)
      ensures outcome.Answer? && !outcome.value.FailedOutcome? ==>
        && outcome.value.steps == host.generated - old(host.generated)
        && OpenDispatch(host.sent[|old(host.sent)|..]).None?
    {
      hide Engine.Propose, UnitOf, CommitAct, SettlementBinds, Runs, Genuine, OutcomeFits, Requests, OpenDispatch;
      hide Fails;
      ghost var seg, from := SegmentOf(request), |host.journal|;
      assert host.journal[from..] == [];
      var current, input, cut, cancelled := request.version, request.input, MailboxCutOf(request), false;
      var steps: nat := 0;
      while true
        invariant host.Valid() && Extends(old(host.world), host.world)
        invariant old(host.trace) <= host.trace && old(host.sent) <= host.sent && old(host.journal) <= host.journal
        invariant Genuine(host.world, current) && input.Valid() && steps <= request.maxRounds
        invariant InOrder(seg, from)
        invariant var st := At(seg, host.journal, from).value;
                  st.known == current && st.cut == cut && InputIsDue(st, input, cancelled)
        invariant host.generated - old(host.generated) == steps
        decreases host.budget
      {
        var progress := Turn(current, input, request.ownerEpoch, request.maxRounds, steps, cut, cancelled, seg, from);
        if progress.Dead? {
          return Dead;
        }
        if progress.value.Return? {
          if !progress.value.outcome.FailedOutcome? {
            NothingLeftOpen(old(host.journal), host.journal, seg, progress.value.outcome);
          }
          return Answer(progress.value.outcome);
        }
        current, input, steps, cut, cancelled := progress.value.version, progress.value.input, progress.value.steps,
                                                 progress.value.cut, progress.value.cancelled;
      }
    }

    /** `_reconcile_and_run_segment`: commit the reconciliation, then run the segment that settles it. */
    method ReconcileAndRun(version: StateVersion, record: ReconciliationRecord, ownerEpoch: nat, maxRounds: nat)
      returns (outcome: Alive<SegmentOutcome>, ghost mid: nat, ghost seg: Segment, ghost began: bool)
      requires host.Valid() && Genuine(host.world, version) && maxRounds > 0
      modifies host
      ensures host.Valid() && Extends(old(host.world), host.world)
      ensures outcome.Dead? ==> host.budget == 0
      ensures old(host.trace) <= host.trace && old(host.sent) <= host.sent && old(host.journal) <= host.journal
      ensures |old(host.journal)| <= mid <= |host.journal|
      ensures forall i :: |old(host.journal)| <= i < mid ==> Reconciles(host.journal[i], record, ownerEpoch)
      ensures began ==>
        && InOrder(seg, mid) && |old(host.journal)| < mid
        && host.journal[mid - 1].Asked? && Accepted(host.journal[mid - 1].sent.result)
        && seg.ownerEpoch == ownerEpoch && seg.version == host.journal[mid - 1].sent.result.version
        && ReconciledInput(seg.version, record, ownerEpoch).Ok?
        && seg.input == EffectSettled(ReconciledInput(seg.version, record, ownerEpoch).value)
      ensures host.generated - old(host.generated) <= maxRounds
      ensures outcome.Answer? ==>
        && Genuine(host.world, outcome.value.version) && outcome.value.steps <= maxRounds
        && OutcomeFits(outcome.value, maxRounds)
      ensures outcome.Answer? && began ==>
        Concludes(outcome.value, At(seg, host.journal, mid).value, host.journal, seg.ownerEpoch)
      ensures outcome.Answer? && !began ==>
        outcome.value.FailedOutcome? && CannotReconcile(outcome.value, host.journal, record, ownerEpoch)
      ensures outcome.Answer? && !outcome.value.FailedOutcome? ==>
        && began
        && outcome.value.steps == host.generated - old(host.generated)
        && OpenDispatch(host.sent[|old(host.sent)|..]).None?
    {
      hide Engine.Propose, Perform, SettlementBinds, Runs, Requests, OpenDispatch, StageOf, ActionFits, Fails;
      hide CannotReconcile, FailureCode, RecordBinds, ReconciledInput, Concludes, At;
      mid, seg := |host.journal|, Segment(ownerEpoch, version, Initial(Host(""), [], 0), 0);
      began := false;
      ghost var from := |host.journal|;
      var current := version;
      var reconciled := false;
      while !reconciled
        invariant host.Valid() && Extends(old(host.world), host.world)
        invariant old(host.trace) <= host.trace && old(host.sent) <= host.sent && old(host.journal) <= host.journal
        invariant host.generated == old(host.generated) && Genuine(host.world, current)
        invariant mid == |host.journal| && from <= mid
        invariant forall i :: from <= i < mid ==> Reconciles(host.journal[i], record, ownerEpoch)
        invariant reconciled ==>
          && from < mid && Accepted(host.journal[mid - 1].sent.result)
          && host.journal[mid - 1].sent.result.version == current
        decreases host.budget, !reconciled
      {
        if !RecordBinds(current, record, ownerEpoch) {
          NothingToReconcile(current, host.journal, record, ownerEpoch);
          return Answer(FailedOutcome(current, "invalid_reconciliation_state", 0)), mid, seg, false;
        }
        var answer := host.CommitReconciliation(current, record, ownerEpoch);
        if answer.Dead? {
          return Dead, mid, seg, false;
        }
        mid := |host.journal|;
        var result := answer.value;
        if result.CasConflict? {
          current := result.current;
        } else if result.Committed? || result.ExactReplay? {
          current, reconciled := result.version, true;
        } else {
          outcome := Answer(FailedOutcome(FailureVersion(result, current), FailureCode(result), 0));
          RefusalEndsRecovery(outcome.value, host.journal, record, ownerEpoch);
          return;
        }
      }
      var input := ReconciledInput(current, record, ownerEpoch);
      if input.Err? || !ValidRequest(SegmentRequest(ownerEpoch, current, EffectSettled(input.value), maxRounds)) {
        NothingToSettle(current, host.journal, record, ownerEpoch, maxRounds);
        return Answer(FailedOutcome(current, "invalid_reconciled_effect", 0)), mid, seg, false;
      }
      ghost var before, sent := host.journal, host.sent;
      var request := SegmentRequest(ownerEpoch, current, EffectSettled(input.value), maxRounds);
      seg := SegmentOf(request);
      outcome := Run(request);
      began := true;
      assert host.journal[..mid] == before;
      if outcome.Answer? && !outcome.value.FailedOutcome? {
        NothingOpenBefore(old(host.journal), before, host.journal, record, ownerEpoch);
      }
    }
  }
}

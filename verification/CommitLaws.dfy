/**
 What the store answers to a unit of work and what it makes of its records, stated without the order in
 which it checks: which units it applies, which it recognises, and what changes.
 */
module CommitLaws {
  import opened Wrappers
  import opened Contracts
  import opened CommitStore
  import opened ProtocolSafety

  // ---------- Which units are applied ----------

  /** Every command of the unit still waits, and every effect is where the unit expects it. */
  ghost predicate Expected(db: Db, unit: Unit) {
    && (forall d :: d in unit.dispositions ==>
          d.commandId in db.commands && db.commands[d.commandId] == Admitted)
    && (forall m :: m in unit.mutations ==>
          if m.expected.None? then m.effectId !in db.effects
          else && m.effectId in db.effects && db.effects[m.effectId].status == m.expected.value
               && db.effects[m.effectId].attemptId == m.attemptId)
  }

  /** The evidence belongs to the one effect that is unknown, in the ledger and in the state. */
  ghost predicate Proves(db: Db, epoch: nat, unit: Unit, e: Evidence) {
    && e.ownerEpoch == epoch && e.ref in db.evidence && db.evidence[e.ref] == e
    && |unit.mutations| == 1 && unit.mutations[0].reconciliation.Some?
    && var m := unit.mutations[0];
       && m.effectId in db.effects && db.effects[m.effectId].status == Unknown
       && db.effects[m.effectId].attemptId == m.attemptId
       && db.effects[m.effectId].authorization == Some(e.authorizationId)
       && RecordsOutcome(e, m.reconciliation.value)
  }

  predicate RecordsOutcome(e: Evidence, record: ReconciliationRecord) {
    && record.effectId == e.effectId && record.attemptId == e.attemptId && record.ownerEpoch == e.ownerEpoch
    && record.observed == e.outcome && record.evidenceRef == e.ref
  }

  /** The unit's state is the current one with the outcome of its retained, unknown effect recorded, and no more. */
  ghost predicate Reconciles(db: Db, unit: Unit, e: Evidence)
    requires db.history != [] && |unit.mutations| == 1 && unit.mutations[0].reconciliation.Some?
    requires unit.mutations[0].effectId in db.effects
  {
    var now, record := db.Current().value, unit.mutations[0].reconciliation.value;
    && now.runtime.Some? && now.runtime.value.pending != []
    && now.runtime.value.unknown.Some?
    && var rt, held := now.runtime.value, now.runtime.value.unknown.value.authorization;
       && rt.active == Some(held)
       && held.effectId == e.effectId && held.attemptId == e.attemptId && held.transitionId == e.authorizationId
       && db.effects[unit.mutations[0].effectId].dispatchEpoch == Some(held.ownerEpoch)
       && unit.value.messages == now.messages
       && unit.value.runtime == Some(rt.(reconciled := Some(ReconciledEffect(
            rt.unknown.value, record.transitionId, e.ref, e.ownerEpoch, SettledOf(record.transitionId), e.outcome,
            e.result, e.reasonCode, e.reasonMessage))))
  }

  /** A unit that the store applies. */
  ghost predicate Applies(db: Db, epoch: nat, unit: Unit)
    requires db.history != []
  {
    && epoch == db.ownerEpoch && unit.transitionId !in db.receipts
    && (unit.mailboxCut.Some? ==> unit.mailboxCut.value == db.mailboxCut)
    && unit.revision == db.Current().revision
    && Expected(db, unit)
    && (unit.evidence.Some? ==>
          Proves(db, epoch, unit, unit.evidence.value) && Reconciles(db, unit, unit.evidence.value))
  }

  lemma {:induction false} ReconciledExactly(value: StateValue, e: Evidence, record: ReconciliationRecord)
    ensures var r := ReconciledValue(value, e, record);
            r.Ok? <==> && RecordsOutcome(e, record)
                       && value.runtime.Some? && value.runtime.value.pending != []
                       && value.runtime.value.unknown.Some?
                       && var held := value.runtime.value.unknown.value.authorization;
                          && value.runtime.value.active == Some(held) && held.effectId == e.effectId
                          && held.attemptId == e.attemptId && held.transitionId == e.authorizationId
    ensures ReconciledValue(value, e, record).Ok? ==>
      ReconciledValue(value, e, record).value
      == StateValue(Some(value.runtime.value.(reconciled := Some(ReconciledEffect(
           value.runtime.value.unknown.value, record.transitionId, e.ref, e.ownerEpoch,
           SettledOf(record.transitionId), e.outcome, e.result, e.reasonCode, e.reasonMessage)))), value.messages)
  {
  }

  lemma {:induction false} EvidenceExactly(db: Db, epoch: nat, unit: Unit)
    requires db.history != [] && unit.evidence.Some? && unit.revision == db.Current().revision
    ensures ReconciliationRefusal(db, epoch, unit).None?
       <==> Proves(db, epoch, unit, unit.evidence.value) && Reconciles(db, unit, unit.evidence.value)
  {
    hide ReconciledValue;
    if |unit.mutations| == 1 && unit.mutations[0].reconciliation.Some? {
      ReconciledExactly(db.Current().value, unit.evidence.value, unit.mutations[0].reconciliation.value);
    }
  }

  lemma {:induction false} ExpectedExactly(db: Db, unit: Unit)
    ensures Expected(db, unit)
       <==> && (forall d :: d in unit.dispositions ==> DispositionAccepted(db.commands, d))
            && (forall m :: m in unit.mutations ==> MutationAccepted(db.effects, m))
  {
    forall m | m in unit.mutations
      ensures MutationAccepted(db.effects, m)
         <==> if m.expected.None? then m.effectId !in db.effects
              else && m.effectId in db.effects && db.effects[m.effectId].status == m.expected.value
                   && db.effects[m.effectId].attemptId == m.attemptId
    {
    }
  }

  /**
   A commit is applied exactly under these conditions, for the owner of the run at the current revision; the
   answers to a stranger, at another mailbox cut or at an old revision say what the store has instead.
   */
  lemma {:induction false} AppliedExactly(db: Db, epoch: nat, unit: Unit)
    requires db.history != []
    ensures Commit(db, epoch, unit, NoFault).1.Committed? <==> Applies(db, epoch, unit)
    ensures epoch != db.ownerEpoch ==> Commit(db, epoch, unit, NoFault).1 == StaleOwner(db.ownerEpoch)
    ensures epoch == db.ownerEpoch && unit.transitionId !in db.receipts ==>
      && (unit.mailboxCut.Some? && unit.mailboxCut.value != db.mailboxCut ==>
            Commit(db, epoch, unit, NoFault).1 == StaleMailboxCut(db.mailboxCut))
      && (unit.evidence.None? && (unit.mailboxCut.Some? ==> unit.mailboxCut.value == db.mailboxCut)
          && unit.revision != db.Current().revision ==>
            Commit(db, epoch, unit, NoFault).1 == CasConflict(db.Current()))
  {
    hide ReconciliationRefusal, Proves, Reconciles, Expected, MutationAccepted, DispositionAccepted, Apply;
    ExpectedExactly(db, unit);
    RefusalIsNoCommit(db, epoch, unit);
    if unit.evidence.Some? {
      if unit.revision == db.Current().revision {
        EvidenceExactly(db, epoch, unit);
      }
    }
  }

  lemma {:induction false} RefusalIsNoCommit(db: Db, epoch: nat, unit: Unit)
    requires db.history != []
    ensures Refusal(db, epoch, unit).Some? ==> !Refusal(db, epoch, unit).value.Committed?
  {
    hide ReconciledValue;
  }

  // ---------- Which units are recognised ----------

  /** The same unit sent again: the clock may differ when it stamps nothing. */
  predicate SameUnit(first: Unit, again: Unit) {
    && again == first.(stamp := again.stamp)
    && (first.facts != [] ==> again.stamp == first.stamp)
  }

  /**
   A unit under the name of one in the log is answered from the log: with the version that it made then, if
   it is the same unit, and with a refusal if it is not. Nothing changes in either case.
   */
  lemma {:induction false} RecognisedExactly(db: Db, unit: Unit, i: nat)
    requires LogInv(db) && i < |db.log| && db.log[i].transitionId == unit.transitionId
    ensures Commit(db, db.ownerEpoch, unit, NoFault).0 == db
    ensures Commit(db, db.ownerEpoch, unit, NoFault).1 == ExactReplay(db.history[i + 1]) <==> SameUnit(db.log[i], unit)
    ensures !SameUnit(db.log[i], unit) ==> Commit(db, db.ownerEpoch, unit, NoFault).1.InvalidTransition?
  {
    assert EntryInv(db, i);
  }

  // ---------- What changes ----------

  /** What an applied unit makes of the records of the store. */
  ghost predicate Changed(db: Db, next: Db, unit: Unit, version: StateVersion) {
    && version == StateVersion(db.run, unit.revision + 1, unit.transitionId, unit.value)
    && next.history == db.history + [version] && next.log == db.log + [unit] && next.facts == db.facts + unit.facts
    && next.run == db.run && next.ownerEpoch == db.ownerEpoch && next.mailboxCut == db.mailboxCut
    && next.evidence == db.evidence
    && (forall c :: c in next.commands <==> c in db.commands || exists d :: d in unit.dispositions && d.commandId == c)
    && (forall c :: c in next.commands ==>
          next.commands[c] == if exists d :: d in unit.dispositions && d.commandId == c then Disposed
                              else if c in db.commands then db.commands[c] else Disposed)
  }

  /** The slot of an effect that a unit names: a new one has no authorization, and a dispatch brings its own. */
  ghost predicate SlotChanged(db: Db, next: Db, epoch: nat, unit: Unit, m: EffectMutation) {
    && m.effectId in next.effects
    && var slot := next.effects[m.effectId];
       && slot.status == m.status
       && (m.expected.None? ==>
             slot.attemptId == m.attemptId && slot.authorization.None? && slot.dispatchEpoch.None?)
       && (m.expected == Some(Prepared) && m.status == Dispatched ==>
             slot.attemptId == m.attemptId && slot.authorization == Some(unit.transitionId)
             && slot.dispatchEpoch == Some(epoch))
       && (m.expected.Some? && !(m.expected == Some(Prepared) && m.status == Dispatched) ==>
             m.effectId in db.effects && slot == db.effects[m.effectId].(status := m.status))
  }

  lemma {:induction false} DisposedExactly(commands: map<string, CommandState>, ds: seq<Disposition>, c: string)
    ensures c in DisposeCommands(commands, ds) <==> c in commands || exists d :: d in ds && d.commandId == c
    ensures c in DisposeCommands(commands, ds) ==>
      DisposeCommands(commands, ds)[c]
      == if exists d :: d in ds && d.commandId == c then Disposed else if c in commands then commands[c] else Disposed
  {
    if ds != [] {
      var front, last := ds[..|ds| - 1], ds[|ds| - 1];
      DisposedExactly(commands, front, c);
      assert ds == front + [last];
      assert forall d :: d in ds <==> d in front || d == last;
    }
  }

  /** An applied unit changes just what it says: its version, its facts, its commands and its effects. */
  lemma {:induction false} AppliedChanges(db: Db, epoch: nat, unit: Unit)
    requires db.history != [] && Commit(db, epoch, unit, NoFault).1.Committed? && CommitStore.Distinct(unit.mutations)
    ensures var (next, result) := Commit(db, epoch, unit, NoFault);
            && Changed(db, next, unit, result.version)
            && unit.transitionId in next.receipts && next.receipts[unit.transitionId].version == result.version
            && (forall t :: t in db.receipts ==> t in next.receipts && next.receipts[t] == db.receipts[t])
            && (forall m :: m in unit.mutations ==> SlotChanged(db, next, epoch, unit, m))
            && (forall e :: !Mentions(unit.mutations, e) ==>
                  (e in next.effects <==> e in db.effects) && (e in db.effects ==> next.effects[e] == db.effects[e]))
  {
    hide ReconciliationRefusal, DisposeCommands, ApplyMutations, Changed, SlotChanged;
    RefusalIsNoCommit(db, epoch, unit);
    var next := Apply(db, epoch, unit);
    RecordsChange(db, epoch, unit);
    forall m | m in unit.mutations ensures SlotChanged(db, next, epoch, unit, m) {
      var k :| 0 <= k < |unit.mutations| && unit.mutations[k] == m;
      assert MutationAccepted(db.effects, m);
      SlotIsChanged(db, epoch, unit, k);
    }
    forall e | !Mentions(unit.mutations, e)
      ensures (e in next.effects <==> e in db.effects) && (e in db.effects ==> next.effects[e] == db.effects[e])
    {
      UntouchedSlot(db.effects, epoch, unit.transitionId, unit.mutations, e);
    }
  }

  lemma {:induction false} SlotIsChanged(db: Db, epoch: nat, unit: Unit, k: nat)
    requires db.history != [] && CommitStore.Distinct(unit.mutations) && k < |unit.mutations|
    requires MutationAccepted(db.effects, unit.mutations[k])
    ensures SlotChanged(db, Apply(db, epoch, unit), epoch, unit, unit.mutations[k])
  {
    hide ApplyMutations;
    MutatedSlot(db.effects, epoch, unit.transitionId, unit.mutations, k);
  }

  lemma {:induction false} RecordsChange(db: Db, epoch: nat, unit: Unit)
    requires db.history != []
    ensures Changed(db, Apply(db, epoch, unit), unit, VersionAfter(db, unit))
  {
    hide DisposeCommands, ApplyMutations;
    forall c
      ensures c in DisposeCommands(db.commands, unit.dispositions)
         <==> c in db.commands || exists d :: d in unit.dispositions && d.commandId == c
    {
      DisposedExactly(db.commands, unit.dispositions, c);
    }
    forall c | c in DisposeCommands(db.commands, unit.dispositions)
      ensures DisposeCommands(db.commands, unit.dispositions)[c]
           == if exists d :: d in unit.dispositions && d.commandId == c then Disposed
              else if c in db.commands then db.commands[c] else Disposed
    {
      DisposedExactly(db.commands, unit.dispositions, c);
    }
  }

  /** Whatever is not applied changes nothing, and a fault hides the answer but not the effect of a commit. */
  lemma {:induction false} RefusedAndFaulty(db: Db, epoch: nat, unit: Unit)
    requires db.history != []
    ensures !Commit(db, epoch, unit, NoFault).1.Committed? ==> Commit(db, epoch, unit, NoFault).0 == db
    ensures Commit(db, epoch, unit, LostBefore).0 == db && Commit(db, epoch, unit, LostBefore).1.StorageFailure?
    ensures Commit(db, epoch, unit, LostAfter).0 == Commit(db, epoch, unit, NoFault).0
    ensures Commit(db, epoch, unit, LostAfter).1.StorageFailure?
  {
    hide Refusal, Apply;
  }
}

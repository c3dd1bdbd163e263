/**
 The retry of a dispatch authorization whose mailbox cut the store calls stale
 (`agentkit/runtime/coordinator.py`, `coding_agent/stores/local_durable/uow.py`): which retries are
 stale again, and when the loop stops.
 */
module MailboxRetry {
  import opened Wrappers
  import opened CommitStore

  /** The cut of the next attempt, from the store's answer and the control probe's generation. */
  function NextCut(storeCut: nat, generation: nat): nat {
    if storeCut > generation then storeCut else generation
  }

  /** A unit that nothing but its cut can make the store refuse. */
  predicate OnlyCutMatters(db: Db, epoch: nat, unit: Unit)
    requires db.history != []
  {
    unit.mailboxCut.Some? && Refusal(db, epoch, unit.(mailboxCut := Some(db.mailboxCut))).None?
  }

  /** The store of the repository accepts exactly its own cut. */
  lemma {:induction false} StaleExactly(db: Db, epoch: nat, unit: Unit)
    requires db.history != [] && OnlyCutMatters(db, epoch, unit)
    ensures Refusal(db, epoch, unit)
         == if unit.mailboxCut.value == db.mailboxCut then None else Some(StaleMailboxCut(db.mailboxCut))
  {
    if unit.mailboxCut.value == db.mailboxCut {
      assert unit.(mailboxCut := Some(db.mailboxCut)) == unit;
    }
  }

  /**
   On a mailbox that stays where it is, the retry after a stale answer is accepted exactly when the
   probe's generation is not ahead of the store's cut.
   */
  lemma {:induction false} RetryIsAcceptedExactly(db: Db, epoch: nat, unit: Unit, generation: nat)
    requires db.history != [] && OnlyCutMatters(db, epoch, unit)
    requires Refusal(db, epoch, unit).Some? && Refusal(db, epoch, unit).value.StaleMailboxCut?
    ensures var answer := Refusal(db, epoch, unit).value;
            var retry := unit.(mailboxCut := Some(NextCut(answer.currentCut, generation)));
            Refusal(db, epoch, retry).None? <==> generation <= db.mailboxCut
  {
    StaleExactly(db, epoch, unit);
    var retry := unit.(mailboxCut := Some(NextCut(db.mailboxCut, generation)));
    assert retry.(mailboxCut := Some(db.mailboxCut)) == unit.(mailboxCut := Some(db.mailboxCut));
    StaleExactly(db, epoch, retry);
  }

  // ---------- The whole loop ----------

  /** The cut sent at attempt `i`: the store's cuts and the probe's generations at each attempt are given. */
  function CutAt(first: nat, storeCuts: seq<nat>, generations: seq<nat>, i: nat): nat
    requires i <= |storeCuts| && i <= |generations|
  {
    if i == 0 then first else NextCut(storeCuts[i - 1], generations[i - 1])
  }

  predicate StaleAttempt(first: nat, storeCuts: seq<nat>, generations: seq<nat>, i: nat)
    requires i < |storeCuts| && |storeCuts| == |generations|
  {
    CutAt(first, storeCuts, generations, i) != storeCuts[i]
  }

  /** The attempts that the store called stale so far; a mailbox never goes back. */
  predicate AllStale(first: nat, storeCuts: seq<nat>, generations: seq<nat>) {
    && |storeCuts| == |generations|
    && (forall i :: 0 <= i < |storeCuts| ==> StaleAttempt(first, storeCuts, generations, i))
    && (forall i :: 0 < i < |storeCuts| ==> storeCuts[i - 1] <= storeCuts[i])
  }

  predicate NotAhead(storeCuts: seq<nat>, generations: seq<nat>) {
    |storeCuts| == |generations| && forall i :: 0 <= i < |storeCuts| ==> generations[i] <= storeCuts[i]
  }

  /** Unless the probe is ahead of the mailbox, every stale answer but the first needs an advance of the mailbox. */
  lemma {:induction false} ExactStops(first: nat, storeCuts: seq<nat>, generations: seq<nat>)
    requires storeCuts != [] && AllStale(first, storeCuts, generations) && NotAhead(storeCuts, generations)
    ensures storeCuts[0] + |storeCuts| - 1 <= storeCuts[|storeCuts| - 1]
    decreases |storeCuts|
  {
    var n := |storeCuts| - 1;
    if n > 0 {
      var cuts, gens := storeCuts[..n], generations[..n];
      forall i | 0 <= i < n ensures StaleAttempt(first, cuts, gens, i) {
        assert StaleAttempt(first, storeCuts, generations, i);
      }
      ExactStops(first, cuts, gens);
      assert StaleAttempt(first, storeCuts, generations, n);
    }
  }

  /** A loop that has met these stale answers and sends `cut` next; the mailbox went from `before` to `now`. */
  predicate Retrying(first: nat, storeCuts: seq<nat>, generations: seq<nat>, cut: nat, before: nat, now: nat) {
    && AllStale(first, storeCuts, generations)
    && cut == CutAt(first, storeCuts, generations, |storeCuts|)
    && before <= now
    && (storeCuts != [] ==> before <= storeCuts[0] && storeCuts[|storeCuts| - 1] <= now)
  }

  lemma {:induction false} FirstAttempt(first: nat, now: nat)
    ensures Retrying(first, [], [], first, now, now) && NotAhead([], [])
  {
  }

  lemma {:induction false} RetryOnce(first: nat, storeCuts: seq<nat>, generations: seq<nat>, cut: nat, before: nat,
                                     now: nat, storeCut: nat, generation: nat)
    requires Retrying(first, storeCuts, generations, cut, before, now) && now <= storeCut && cut != storeCut
    ensures Retrying(first, storeCuts + [storeCut], generations + [generation],
                     NextCut(storeCut, generation), before, storeCut)
    ensures NotAhead(storeCuts, generations) && generation <= storeCut
            ==> NotAhead(storeCuts + [storeCut], generations + [generation])
  {
    hide NextCut;
    var cuts, gens := storeCuts + [storeCut], generations + [generation];
    forall i | 0 <= i < |cuts| ensures StaleAttempt(first, cuts, gens, i) {
      if i < |storeCuts| {
        assert StaleAttempt(first, storeCuts, generations, i);
      }
    }
  }

  lemma {:induction false} RetriesAreFew(first: nat, storeCuts: seq<nat>, generations: seq<nat>, cut: nat,
                                         before: nat, now: nat)
    requires Retrying(first, storeCuts, generations, cut, before, now) && NotAhead(storeCuts, generations)
    ensures |storeCuts| <= 1 + now - before
  {
    if storeCuts != [] {
      ExactStops(first, storeCuts, generations);
    }
  }

  // ---------- A mailbox that stays where it is ----------

  /** The unit of attempt `n`, when every answer before it was stale. */
  function Retried(db: Db, unit: Unit, generation: nat, n: nat): Unit {
    if n == 0 then unit
    else Retried(db, unit, generation, n - 1).(mailboxCut := Some(NextCut(db.mailboxCut, generation)))
  }

  lemma {:induction false} RetriesAreAlike(db: Db, unit: Unit, generation: nat, n: nat)
    requires n > 0
    ensures Retried(db, unit, generation, n) == unit.(mailboxCut := Some(NextCut(db.mailboxCut, generation)))
  {
    if n > 1 {
      RetriesAreAlike(db, unit, generation, n - 1);
    }
  }

  predicate StaleAt(db: Db, epoch: nat, unit: Unit, generation: nat, n: nat)
    requires db.history != []
  {
    Refusal(db, epoch, Retried(db, unit, generation, n)) == Some(StaleMailboxCut(db.mailboxCut))
  }

  /**
   On such a mailbox the store calls every attempt stale, however many there are, exactly when the
   probe is ahead of it and the first attempt names another cut.
   */
  lemma {:induction false} NeverStopsExactly(db: Db, epoch: nat, unit: Unit, generation: nat)
    requires db.history != [] && OnlyCutMatters(db, epoch, unit)
    ensures (forall n: nat :: StaleAt(db, epoch, unit, generation, n))
            <==> unit.mailboxCut.value != db.mailboxCut && generation > db.mailboxCut
  {
    var retry := unit.(mailboxCut := Some(NextCut(db.mailboxCut, generation)));
    assert retry.(mailboxCut := Some(db.mailboxCut)) == unit.(mailboxCut := Some(db.mailboxCut));
    StaleExactly(db, epoch, unit);
    StaleExactly(db, epoch, retry);
    forall n: nat ensures Retried(db, unit, generation, n) == if n == 0 then unit else retry {
      if n > 0 {
        RetriesAreAlike(db, unit, generation, n);
      }
    }
    assert StaleAt(db, epoch, unit, generation, 0) <==> unit.mailboxCut.value != db.mailboxCut;
    assert StaleAt(db, epoch, unit, generation, 1) <==> generation > db.mailboxCut;
  }
}

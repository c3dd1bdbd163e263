/**
 Transactional forks over an append-only tape store (`agentkit/tape/store.py`). A commit captures
 the fork's new entries, then waits for the backing store, which may fail; other operations run in
 between.
 */
module ForkStore {
  import opened Wrappers

  /** Tape ids are generated, so a new one is always fresh. */
  type TapeId = nat

  type Entry = string

  datatype CommitRecord = CommitRecord(fork: TapeId, base: TapeId, delta: seq<Entry>)

  /**
   `active`, `finalized`, `baseLengths`, `baseTapeIds` are the store's own maps; `tapes` holds the
   tape object known under each id, `saving` what a waiting commit captured, `log` the backing store.
   `begun` and `committed` remember what happened.
   */
  datatype Forks = Forks(
    active: set<TapeId>, finalized: set<TapeId>,
    baseLengths: map<TapeId, nat>, baseTapeIds: map<TapeId, TapeId>,
    log: map<TapeId, seq<Entry>>,
    tapes: map<TapeId, seq<Entry>>, saving: map<TapeId, seq<Entry>>, nextId: TapeId,
    begun: map<TapeId, seq<Entry>>, committed: seq<CommitRecord>)

  /** How a save ends; a store that raises may have persisted the entries before. */
  datatype SaveAnswer = Answered | NotSaved | SavedThenRaised

  datatype Act =
    | Begin(base: TapeId)
    | Append(tape: TapeId, entry: Entry)
    | CommitStart(fork: TapeId)
    | CommitEnd(fork: TapeId, answer: SaveAnswer)
    | Rollback(fork: TapeId)

  function LogOf(log: map<TapeId, seq<Entry>>, tape: TapeId): seq<Entry> {
    if tape in log then log[tape] else []
  }

  function BeginFork(s: Forks, base: TapeId): Forks
    requires base in s.tapes
  {
    var fork := s.nextId;
    s.(active := s.active + {fork},
       baseLengths := s.baseLengths[fork := |s.tapes[base]|],
       baseTapeIds := s.baseTapeIds[fork := base],
       tapes := s.tapes[fork := s.tapes[base]],
       nextId := s.nextId + 1,
       begun := s.begun[fork := s.tapes[base]])
  }

  /** A commit or a rollback is refused for a finalized fork; a commit also for an unknown one. */
  predicate MayCommit(s: Forks, fork: TapeId) {
    fork !in s.finalized && fork in s.baseLengths && fork in s.baseTapeIds && fork in s.tapes
  }

  /** `to_list()[base_length:]`: a slice beyond the end is empty. */
  function Delta(entries: seq<Entry>, baseLength: nat): seq<Entry> {
    if baseLength <= |entries| then entries[baseLength..] else []
  }

  function Forgotten(s: Forks, fork: TapeId): Forks {
    s.(active := s.active - {fork}, baseLengths := s.baseLengths - {fork}, baseTapeIds := s.baseTapeIds - {fork})
  }

  /** The saved delta is appended to the base tape's log, and the fork is forgotten. */
  function Saved(s: Forks, fork: TapeId): Forks
    requires fork in s.saving && fork in s.baseTapeIds
  {
    Forgotten(Persisted(s, fork), fork).(
      saving := s.saving - {fork},
      committed := s.committed + [CommitRecord(fork, s.baseTapeIds[fork], s.saving[fork])])
  }

  /** The backing store appends what the commit captured. */
  function Persisted(s: Forks, fork: TapeId): Forks
    requires fork in s.saving && fork in s.baseTapeIds
  {
    var base := s.baseTapeIds[fork];
    s.(log := s.log[base := LogOf(s.log, base) + s.saving[fork]])
  }

  /** After a raised error the fork may be committed again, or rolled back. */
  function Reopened(s: Forks, fork: TapeId): Forks {
    s.(finalized := s.finalized - {fork}, saving := s.saving - {fork})
  }

  function EndOfCommit(s: Forks, fork: TapeId, answer: SaveAnswer): Forks
    requires fork in s.saving && fork in s.baseTapeIds
  {
    match answer
    case Answered => Saved(s, fork)
    case NotSaved => Reopened(s, fork)
    case SavedThenRaised => Reopened(Persisted(s, fork), fork)
  }

  function Perform(s: Forks, act: Act): Forks {
    match act
    case Begin(base) => if base in s.tapes then BeginFork(s, base) else s
    case Append(tape, entry) => if tape in s.tapes then s.(tapes := s.tapes[tape := s.tapes[tape] + [entry]]) else s
    case CommitStart(fork) =>
      if MayCommit(s, fork) then
        s.(finalized := s.finalized + {fork}, saving := s.saving[fork := Delta(s.tapes[fork], s.baseLengths[fork])])
      else s
    case CommitEnd(fork, answer) =>
      if fork !in s.saving || fork !in s.baseTapeIds then s
      else EndOfCommit(s, fork, answer)
    case Rollback(fork) =>
      if fork in s.finalized || fork !in s.tapes then s else Forgotten(s, fork).(finalized := s.finalized + {fork})
  }

  function Runs(s: Forks, acts: seq<Act>): Forks {
    if acts == [] then s else Perform(Runs(s, acts[..|acts| - 1]), acts[|acts| - 1])
  }

  // ---------- Invariants ----------

  /** The deltas committed to one tape, in commit order. */
  function Committed(committed: seq<CommitRecord>, tape: TapeId): seq<Entry> {
    if committed == [] then []
    else
      var last := committed[|committed| - 1];
      Committed(committed[..|committed| - 1], tape) + if last.base == tape then last.delta else []
  }

  /** A fork under way holds what its base held when it began, and what was added since. */
  predicate ForkInv(s: Forks, fork: TapeId)
    requires fork in s.baseLengths
  {
    && fork in s.baseTapeIds && fork in s.begun && fork in s.tapes && fork < s.nextId
    && |s.begun[fork]| == s.baseLengths[fork]
    && s.begun[fork] <= s.tapes[fork]
  }

  /** A waiting commit belongs to a fork that nobody else can commit or roll back. */
  predicate SavingInv(s: Forks, fork: TapeId)
    requires fork in s.saving
  {
    && fork in s.finalized && fork in s.baseLengths && fork in s.begun && fork in s.tapes
    && s.begun[fork] + s.saving[fork] <= s.tapes[fork]
  }

  predicate CommittedInv(s: Forks, c: CommitRecord) {
    && c.fork in s.finalized && c.fork < s.nextId && c.fork !in s.baseLengths && c.fork in s.begun && c.fork in s.tapes
    && s.begun[c.fork] + c.delta <= s.tapes[c.fork]
  }

  ghost predicate Inv(s: Forks) {
    && (forall f :: f in s.baseLengths ==> ForkInv(s, f))
    && (forall f :: f in s.saving ==> SavingInv(s, f))
    && (forall f :: f in s.tapes || f in s.finalized || f in s.begun ==> f < s.nextId)
    && (forall f :: f in s.finalized && f in s.baseLengths ==> f in s.saving)
    && s.active == s.baseLengths.Keys && s.baseTapeIds.Keys == s.baseLengths.Keys
    && (forall i :: 0 <= i < |s.committed| ==> CommittedInv(s, s.committed[i]))
    && (forall i, j :: 0 <= i < j < |s.committed| ==> s.committed[i].fork != s.committed[j].fork)
  }

  // ---------- Every act keeps the invariant ----------

  lemma {:induction false} RecordsKept(s: Forks, next: Forks)
    requires Inv(s) && next.committed == s.committed && s.nextId <= next.nextId
    requires forall f :: f in s.begun ==> f in next.begun && next.begun[f] == s.begun[f]
    requires forall f :: f in s.tapes ==> f in next.tapes && s.tapes[f] <= next.tapes[f]
    requires forall f :: f in next.baseLengths ==> f in s.baseLengths || f == s.nextId
    requires forall f :: f in s.finalized && f !in s.saving ==> f in next.finalized
    requires forall f :: f in s.saving ==> f in s.baseLengths
    ensures forall i :: 0 <= i < |next.committed| ==> CommittedInv(next, next.committed[i])
  {
    forall i | 0 <= i < |next.committed| ensures CommittedInv(next, next.committed[i]) {
      assert CommittedInv(s, s.committed[i]);
    }
  }

  lemma {:induction false} ForkKept(s: Forks, next: Forks, f: TapeId)
    requires f in s.baseLengths && ForkInv(s, f) && f in next.baseLengths
    requires next.baseLengths[f] == s.baseLengths[f] && f in next.baseTapeIds && s.nextId <= next.nextId
    requires f in next.begun && next.begun[f] == s.begun[f]
    requires f in next.tapes && s.tapes[f] <= next.tapes[f]
    ensures ForkInv(next, f)
  {
  }

  lemma {:induction false} BeginKeepsInv(s: Forks, base: TapeId)
    requires Inv(s) && base in s.tapes
    ensures Inv(BeginFork(s, base))
  {
    var next := BeginFork(s, base);
    RecordsKept(s, next);
    forall f | f in next.baseLengths ensures ForkInv(next, f) {
      if f != s.nextId {
        ForkKept(s, next, f);
      }
    }
    forall f | f in next.saving ensures SavingInv(next, f) {
      assert SavingInv(s, f);
    }
  }

  lemma {:induction false} AppendKeepsInv(s: Forks, tape: TapeId, entry: Entry)
    requires Inv(s) && tape in s.tapes
    ensures Inv(Perform(s, Append(tape, entry)))
  {
    var next := Perform(s, Append(tape, entry));
    RecordsKept(s, next);
    forall f | f in next.baseLengths ensures ForkInv(next, f) {
      ForkKept(s, next, f);
    }
    forall f | f in next.saving ensures SavingInv(next, f) {
      assert SavingInv(s, f);
    }
  }

  lemma {:induction false} StartKeepsInv(s: Forks, fork: TapeId)
    requires Inv(s) && MayCommit(s, fork)
    ensures Inv(Perform(s, CommitStart(fork)))
  {
    var next := Perform(s, CommitStart(fork));
    RecordsKept(s, next);
    forall f | f in next.baseLengths ensures ForkInv(next, f) {
      ForkKept(s, next, f);
    }
    forall f | f in next.saving ensures SavingInv(next, f) {
      if f != fork {
        assert SavingInv(s, f);
      } else {
        assert ForkInv(s, f);
        assert s.begun[f] + next.saving[f] == s.tapes[f];
      }
    }
  }

  lemma {:induction false} LogIsFree(s: Forks, next: Forks)
    requires Inv(s) && next == s.(log := next.log)
    ensures Inv(next)
  {
    forall f | f in next.baseLengths ensures ForkInv(next, f) {
      assert ForkInv(s, f);
    }
    forall f | f in next.saving ensures SavingInv(next, f) {
      assert SavingInv(s, f);
    }
    forall i | 0 <= i < |next.committed| ensures CommittedInv(next, next.committed[i]) {
      assert CommittedInv(s, s.committed[i]);
    }
  }

  lemma {:induction false} ReopenKeepsInv(s: Forks, fork: TapeId)
    requires Inv(s) && fork in s.saving
    ensures Inv(Reopened(s, fork))
  {
    var next := Reopened(s, fork);
    assert SavingInv(s, fork);
    forall f | f in next.baseLengths ensures ForkInv(next, f) {
      assert ForkInv(s, f);
    }
    forall f | f in next.saving ensures SavingInv(next, f) {
      assert SavingInv(s, f);
    }
    forall i | 0 <= i < |next.committed| ensures CommittedInv(next, next.committed[i]) {
      assert CommittedInv(s, s.committed[i]);
    }
  }

  lemma {:induction false} SaveKeepsInv(s: Forks, fork: TapeId)
    requires Inv(s) && fork in s.saving && fork in s.baseTapeIds
    ensures Inv(Saved(s, fork))
  {
    hide LogOf;
    var next := Saved(s, fork);
    assert SavingInv(s, fork) && ForkInv(s, fork);
    forall f | f in next.baseLengths ensures ForkInv(next, f) {
      ForkKept(s, next, f);
    }
    forall f | f in next.saving ensures SavingInv(next, f) {
      assert SavingInv(s, f);
    }
    forall i | 0 <= i < |next.committed| ensures CommittedInv(next, next.committed[i]) {
      if i < |s.committed| {
        assert CommittedInv(s, s.committed[i]);
      }
    }
    forall i | 0 <= i < |s.committed| ensures s.committed[i].fork != fork {
      assert CommittedInv(s, s.committed[i]);
    }
  }

  lemma {:induction false} EndKeepsInv(s: Forks, fork: TapeId, answer: SaveAnswer)
    requires Inv(s) && fork in s.saving && fork in s.baseTapeIds
    ensures Inv(Perform(s, CommitEnd(fork, answer)))
  {
    hide Inv, Saved, Reopened, LogOf;
    match answer {
      case Answered => SaveKeepsInv(s, fork);
      case NotSaved => ReopenKeepsInv(s, fork);
      case SavedThenRaised =>
        LogIsFree(s, Persisted(s, fork));
        ReopenKeepsInv(Persisted(s, fork), fork);
    }
  }

  lemma {:induction false} RollbackKeepsInv(s: Forks, fork: TapeId)
    requires Inv(s) && fork !in s.finalized && fork in s.tapes
    ensures Inv(Perform(s, Rollback(fork)))
  {
    var next := Perform(s, Rollback(fork));
    RecordsKept(s, next);
    forall f | f in next.baseLengths ensures ForkInv(next, f) {
      ForkKept(s, next, f);
    }
    forall f | f in next.saving ensures SavingInv(next, f) {
      assert SavingInv(s, f);
    }
  }

  lemma {:induction false} PerformKeepsInv(s: Forks, act: Act)
    requires Inv(s)
    ensures Inv(Perform(s, act))
  {
    match act {
      case Begin(base) => if base in s.tapes { BeginKeepsInv(s, base); }
      case Append(tape, entry) => if tape in s.tapes { AppendKeepsInv(s, tape, entry); }
      case CommitStart(fork) => if MayCommit(s, fork) { StartKeepsInv(s, fork); }
      case CommitEnd(fork, answer) =>
        if fork in s.saving && fork in s.baseTapeIds {
          EndKeepsInv(s, fork, answer);
        }
      case Rollback(fork) => if fork !in s.finalized && fork in s.tapes { RollbackKeepsInv(s, fork); }
    }
  }

  // ---------- Transactions ----------

  /** The backing log of a tape is what it was at first, and then every committed delta. */
  ghost predicate LogInv(initial: Forks, s: Forks) {
    forall t :: LogOf(s.log, t) == LogOf(initial.log, t) + Committed(s.committed, t)
  }

  lemma {:induction false} CommittedOneMore(committed: seq<CommitRecord>, c: CommitRecord, t: TapeId)
    ensures Committed(committed + [c], t) == Committed(committed, t) + if c.base == t then c.delta else []
  {
    assert (committed + [c])[..|committed|] == committed;
  }

  /** Some log holds more than that. */
  ghost predicate LogAhead(initial: Forks, s: Forks) {
    exists t :: |LogOf(s.log, t)| > |LogOf(initial.log, t)| + |Committed(s.committed, t)|
  }

  /** Entries reach the log, and the commit that saved them raises. */
  predicate Unacknowledged(s: Forks, act: Act) {
    && act.CommitEnd? && act.answer.SavedThenRaised?
    && act.fork in s.saving && act.fork in s.baseTapeIds && s.saving[act.fork] != []
  }

  /** What an act adds to the log of a tape, and to the deltas committed to it. */
  lemma {:induction false} ActLogs(s: Forks, act: Act) returns (base: TapeId, added: seq<Entry>, acknowledged: bool)
    ensures var next := Perform(s, act);
      && (forall t :: LogOf(next.log, t) == LogOf(s.log, t) + if t == base then added else [])
      && (forall t :: Committed(next.committed, t)
                      == Committed(s.committed, t) + if t == base && acknowledged then added else [])
    ensures added != [] && !acknowledged <==> Unacknowledged(s, act)
  {
    hide LogOf, Committed, Delta;
    base, added, acknowledged := 0, [], true;
    var next := Perform(s, act);
    if act.CommitEnd? && act.fork in s.saving && act.fork in s.baseTapeIds && !act.answer.NotSaved? {
      base, added, acknowledged := s.baseTapeIds[act.fork], s.saving[act.fork], act.answer.Answered?;
      var record := CommitRecord(act.fork, base, added);
      assert next.log == Persisted(s, act.fork).log;
      assert next.committed == if acknowledged then s.committed + [record] else s.committed;
      hide Perform, Persisted;
      forall t ensures LogOf(next.log, t) == LogOf(s.log, t) + if t == base then added else [] {
        LogAfter(s, act.fork, t);
      }
      forall t
        ensures Committed(s.committed + [record], t) == Committed(s.committed, t) + if base == t then added else []
      {
        CommittedOneMore(s.committed, record, t);
      }
    } else {
      assert next.log == s.log && next.committed == s.committed;
    }
  }

  lemma {:induction false} ActKeepsLogExactly(initial: Forks, s: Forks, act: Act)
    ensures LogInv(initial, s) && !Unacknowledged(s, act) ==> LogInv(initial, Perform(s, act))
    ensures (LogInv(initial, s) && Unacknowledged(s, act)) || LogAhead(initial, s) ==>
      LogAhead(initial, Perform(s, act))
  {
    var base, added, acknowledged := ActLogs(s, act);
    hide Perform, Unacknowledged, Committed, LogOf;
    var next := Perform(s, act);
    if LogInv(initial, s) && !Unacknowledged(s, act) {
      forall t ensures LogOf(next.log, t) == LogOf(initial.log, t) + Committed(next.committed, t) {
        assert LogOf(s.log, t) == LogOf(initial.log, t) + Committed(s.committed, t);
      }
    } else if LogInv(initial, s) {
      assert LogOf(s.log, base) == LogOf(initial.log, base) + Committed(s.committed, base);
      assert |LogOf(next.log, base)| > |LogOf(initial.log, base)| + |Committed(next.committed, base)|;
    }
    if LogAhead(initial, s) {
      var t :| |LogOf(s.log, t)| > |LogOf(initial.log, t)| + |Committed(s.committed, t)|;
      assert |LogOf(next.log, t)| > |LogOf(initial.log, t)| + |Committed(next.committed, t)|;
    }
  }

  /** A store with nothing under way. */
  ghost predicate Fresh(s: Forks) {
    && s.active == {} && s.finalized == {} && s.baseLengths == map[] && s.baseTapeIds == map[]
    && s.saving == map[] && s.committed == []
    && (forall f :: f in s.tapes || f in s.begun ==> f < s.nextId)
  }

  ghost predicate EverUnacknowledged(initial: Forks, acts: seq<Act>) {
    exists i :: 0 <= i < |acts| && Unacknowledged(Runs(initial, acts[..i]), acts[i])
  }

  lemma {:induction false} EverUnfolds(initial: Forks, acts: seq<Act>)
    requires acts != []
    ensures var n := |acts| - 1;
            EverUnacknowledged(initial, acts)
            <==> EverUnacknowledged(initial, acts[..n]) || Unacknowledged(Runs(initial, acts[..n]), acts[n])
  {
    hide Unacknowledged, Runs;
    var n, front := |acts| - 1, acts[..|acts| - 1];
    assert forall i :: 0 <= i <= n ==> front[..i] == acts[..i];
    if EverUnacknowledged(initial, front) {
      var i :| 0 <= i < n && Unacknowledged(Runs(initial, front[..i]), front[i]);
      assert Unacknowledged(Runs(initial, acts[..i]), acts[i]);
    } else if !Unacknowledged(Runs(initial, acts[..n]), acts[n]) {
      forall i | 0 <= i < n ensures !Unacknowledged(Runs(initial, acts[..i]), acts[i]) {
        assert !Unacknowledged(Runs(initial, front[..i]), front[i]);
      }
    }
  }

  /**
   Over every interleaving of begin, append, commit, failed commit and rollback: a fork is committed
   at most once; a committed delta is exactly what the fork held, at the start of its commit, beyond
   what its base held when the fork began; and the log of every tape is the concatenation, in commit
   order, of the deltas committed to it exactly when no save persisted entries and then raised.
   */
  lemma {:induction false} ForksAreTransactional(initial: Forks, acts: seq<Act>)
    requires Fresh(initial)
    ensures Inv(Runs(initial, acts))
    ensures LogInv(initial, Runs(initial, acts)) <==> !EverUnacknowledged(initial, acts)
    ensures EverUnacknowledged(initial, acts) ==> LogAhead(initial, Runs(initial, acts))
    decreases |acts|
  {
    if acts == [] {
      forall t ensures LogOf(initial.log, t) == LogOf(initial.log, t) + Committed([], t) {
      }
    } else {
      hide Inv, LogInv, LogAhead, EverUnacknowledged, Unacknowledged, Perform;
      var front, last := acts[..|acts| - 1], acts[|acts| - 1];
      ForksAreTransactional(initial, front);
      PerformKeepsInv(Runs(initial, front), last);
      ActKeepsLogExactly(initial, Runs(initial, front), last);
      EverUnfolds(initial, acts);
      if LogAhead(initial, Runs(initial, acts)) {
        AheadIsNotLogged(initial, Runs(initial, acts));
      }
    }
  }

  lemma {:induction false} AheadIsNotLogged(initial: Forks, s: Forks)
    requires LogAhead(initial, s)
    ensures !LogInv(initial, s)
  {
    hide LogOf, Committed;
    var t :| |LogOf(s.log, t)| > |LogOf(initial.log, t)| + |Committed(s.committed, t)|;
    assert LogOf(s.log, t) != LogOf(initial.log, t) + Committed(s.committed, t);
  }

  /** Finalized without a commit. */
  ghost predicate Discarded(s: Forks, fork: TapeId) {
    && fork in s.finalized && fork !in s.baseLengths && fork !in s.saving && fork < s.nextId
    && forall i :: 0 <= i < |s.committed| ==> s.committed[i].fork != fork
  }

  lemma {:induction false} DiscardedStays(s: Forks, act: Act, fork: TapeId)
    requires Inv(s) && Discarded(s, fork)
    ensures Discarded(Perform(s, act), fork)
  {
  }

  lemma {:induction false} DiscardedForever(s: Forks, acts: seq<Act>, fork: TapeId)
    requires Inv(s) && Discarded(s, fork)
    ensures Inv(Runs(s, acts)) && Discarded(Runs(s, acts), fork)
  {
    if acts != [] {
      DiscardedForever(s, acts[..|acts| - 1], fork);
      PerformKeepsInv(Runs(s, acts[..|acts| - 1]), acts[|acts| - 1]);
      DiscardedStays(Runs(s, acts[..|acts| - 1]), acts[|acts| - 1], fork);
    }
  }

  /** A fork that is rolled back never contributes, whatever happens later. */
  lemma {:induction false} RolledBackContributesNothing(s: Forks, fork: TapeId, acts: seq<Act>)
    requires Inv(s) && fork !in s.finalized && fork in s.baseLengths
    ensures Discarded(Runs(Perform(s, Rollback(fork)), acts), fork)
  {
    var next := Perform(s, Rollback(fork));
    assert ForkInv(s, fork);
    RollbackKeepsInv(s, fork);
    forall i | 0 <= i < |s.committed| ensures s.committed[i].fork != fork {
      assert CommittedInv(s, s.committed[i]);
    }
    assert fork in s.saving ==> SavingInv(s, fork);
    DiscardedForever(next, acts, fork);
  }

  /** A failed commit leaves the store as it was, so that the fork can be committed again. */
  lemma {:induction false} FailedCommitIsUndone(s: Forks, fork: TapeId)
    requires Inv(s) && MayCommit(s, fork)
    ensures Perform(Perform(s, CommitStart(fork)), CommitEnd(fork, NotSaved)) == s
  {
    assert fork in s.saving ==> SavingInv(s, fork);
    var started := Perform(s, CommitStart(fork));
    assert started.finalized - {fork} == s.finalized;
    assert started.saving - {fork} == s.saving;
  }

  /**
   When the log of the base held just what the base held at the begin, a commit makes it hold
   everything that the fork held at the start of the commit.
   */
  lemma {:induction false} CommitPersistsWholeTape(s: Forks, fork: TapeId)
    requires Inv(s) && MayCommit(s, fork) && fork in s.begun
    requires LogOf(s.log, s.baseTapeIds[fork]) == s.begun[fork]
    ensures var end := Perform(Perform(s, CommitStart(fork)), CommitEnd(fork, Answered));
            LogOf(end.log, s.baseTapeIds[fork]) == s.tapes[fork]
  {
    assert ForkInv(s, fork);
    assert s.begun[fork] + s.tapes[fork][|s.begun[fork]|..] == s.tapes[fork];
  }

  lemma {:induction false} SavingIsKnown(s: Forks, fork: TapeId)
    requires Inv(s) && fork in s.saving
    ensures fork in s.baseTapeIds
  {
    assert SavingInv(s, fork) && ForkInv(s, fork);
  }

  lemma {:induction false} LogAfter(s: Forks, fork: TapeId, t: TapeId)
    requires fork in s.saving && fork in s.baseTapeIds
    ensures LogOf(Persisted(s, fork).log, t)
         == LogOf(s.log, t) + if t == s.baseTapeIds[fork] then s.saving[fork] else []
  {
  }

  // ---------- The store ----------

  class ForkTapeStore {
    var active: set<TapeId>
    var finalized: set<TapeId>
    var baseLengths: map<TapeId, nat>
    var baseTapeIds: map<TapeId, TapeId>
    /** The backing store, the tape objects, and the commits that wait for the backing store. */
    var log: map<TapeId, seq<Entry>>
    var tapes: map<TapeId, seq<Entry>>
    var saving: map<TapeId, seq<Entry>>
    var nextId: TapeId
    ghost var begun: map<TapeId, seq<Entry>>
    ghost var committed: seq<CommitRecord>

    ghost function Now(): Forks
      reads this
    {
      Forks(active, finalized, baseLengths, baseTapeIds, log, tapes, saving, nextId, begun, committed)
    }

    ghost predicate Valid()
      reads this
    {
      Inv(Now())
    }

    constructor (log: map<TapeId, seq<Entry>>, tapes: map<TapeId, seq<Entry>>, nextId: TapeId)
      requires forall f :: f in tapes ==> f < nextId
      ensures Valid() && Fresh(Now()) && this.log == log && this.tapes == tapes && this.nextId == nextId
    {
      active, finalized, baseLengths, baseTapeIds := {}, {}, map[], map[];
      this.log, this.tapes, this.nextId := log, tapes, nextId;
      saving, begun, committed := map[], map[], [];
    }

    /** `begin`: the fork starts with everything its base holds. */
    method BeginTape(base: TapeId) returns (fork: TapeId)
      requires Valid() && base in tapes
      modifies this
      ensures Valid() && Now() == Perform(old(Now()), Begin(base))
      ensures fork !in old(tapes) && fork in tapes && tapes[fork] == old(tapes)[base]
    {
      hide ForkInv, SavingInv, CommittedInv;
      PerformKeepsInv(Now(), Begin(base));
      fork := nextId;
      nextId := nextId + 1;
      tapes := tapes[fork := tapes[base]];
      active := active + {fork};
      baseLengths := baseLengths[fork := |tapes[base]|];
      baseTapeIds := baseTapeIds[fork := base];
      begun := begun[fork := tapes[base]];
    }

    /** The part of `commit` before it waits; `false` is a raised error. */
    method StartCommit(fork: TapeId) returns (started: bool)
      requires Valid() && fork in tapes
      modifies this
      ensures Valid() && Now() == Perform(old(Now()), CommitStart(fork))
      ensures started == MayCommit(old(Now()), fork)
    {
      hide LogInv, Inv;
      PerformKeepsInv(Now(), CommitStart(fork));
      if fork in finalized || fork !in baseLengths || fork !in baseTapeIds {
        return false;
      }
      var delta := Delta(tapes[fork], baseLengths[fork]);
      finalized := finalized + {fork};
      saving := saving[fork := delta];
      return true;
    }

    /** The part of `commit` after the backing store answered or raised; `None` is the raised error. */
    method FinishCommit(fork: TapeId, answer: SaveAnswer) returns (stable: Option<TapeId>)
      requires Valid() && fork in saving
      modifies this
      ensures Valid() && Now() == Perform(old(Now()), CommitEnd(fork, answer))
      ensures stable.Some? <==> answer.Answered?
      ensures stable.Some? ==> LogOf(log, stable.value) == LogOf(old(log), stable.value) + old(saving)[fork]
    {
      hide Inv, LogOf, ForkInv, SavingInv;
      PerformKeepsInv(Now(), CommitEnd(fork, answer));
      SavingIsKnown(Now(), fork);
      LogAfter(Now(), fork, baseTapeIds[fork]);
      var base, delta := baseTapeIds[fork], saving[fork];
      if !answer.NotSaved? {
        log := log[base := LogOf(log, base) + delta];
      }
      if !answer.Answered? {
        finalized, saving := finalized - {fork}, saving - {fork};
        return None;
      }
      committed := committed + [CommitRecord(fork, base, delta)];
      active, baseLengths, baseTapeIds := active - {fork}, baseLengths - {fork}, baseTapeIds - {fork};
      saving := saving - {fork};
      return Some(base);
    }

    /** `rollback`; `false` is a raised error. */
    method RollbackTape(fork: TapeId) returns (done: bool)
      requires Valid() && fork in tapes
      modifies this
      ensures Valid() && Now() == Perform(old(Now()), Rollback(fork))
      ensures done == (fork !in old(finalized)) && log == old(log)
    {
      PerformKeepsInv(Now(), Rollback(fork));
      if fork in finalized {
        return false;
      }
      finalized := finalized + {fork};
      active, baseLengths, baseTapeIds := active - {fork}, baseLengths - {fork}, baseTapeIds - {fork};
      return true;
    }
  }
}

/**
 The turns of one session over the fork store (`agentkit/runtime/pipeline.py`): each turn works on a
 fork of the session's tape, commits it at the end and goes on with the fork under the tape's own id,
 or rolls it back and goes on with the tape as it was.
 */
module ForkTurns {
  import opened ForkStore

  /**
   How a turn ends. The backing store may raise after it persisted, and a cancellation may reach the
   turn while the store saves, before or after the delta is persisted.
   */
  datatype Ending = StageRaised | NotSaved | Committed | SavedThenRaised | CancelledInSave(persisted: bool)

  datatype Turn = Turn(added: seq<Entry>, ending: Ending)

  /** The entries reach the log. */
  predicate Persists(ending: Ending) {
    ending.Committed? || ending.SavedThenRaised? || (ending.CancelledInSave? && ending.persisted)
  }

  /** Entries reached the log of a turn that went back to the old tape. */
  predicate GoesUnacknowledged(turn: Turn) {
    turn.added != [] && Persists(turn.ending) && !turn.ending.Committed?
  }

  /** The turn appends to its fork. */
  function Recorded(s: Forks, fork: TapeId, added: seq<Entry>): Forks {
    if added == [] then s
    else Perform(Recorded(s, fork, added[..|added| - 1]), Append(fork, added[|added| - 1]))
  }

  /** `ctx.tape.tape_id = stable_tape_id`: the session's tape is now the fork. */
  function Adopted(s: Forks, fork: TapeId, base: TapeId): Forks
    requires fork in s.tapes
  {
    s.(tapes := s.tapes[base := s.tapes[fork]])
  }

  /** A failing turn rolls its fork back; a cancelled save left it finalized, so that the rollback is refused. */
  function Ended(s: Forks, fork: TapeId, base: TapeId, ending: Ending): Forks
    requires MayCommit(s, fork)
  {
    var waiting := Perform(s, CommitStart(fork));
    match ending
    case StageRaised => Perform(s, Rollback(fork))
    case NotSaved => Perform(Perform(waiting, CommitEnd(fork, ForkStore.NotSaved)), Rollback(fork))
    case Committed => Adopted(Perform(waiting, CommitEnd(fork, Answered)), fork, base)
    case SavedThenRaised => Perform(Perform(waiting, CommitEnd(fork, ForkStore.SavedThenRaised)), Rollback(fork))
    case CancelledInSave(persisted) => Perform(if persisted then Persisted(waiting, fork) else waiting, Rollback(fork))
  }

  /** The tape of the session is known, and the next id is not in use. */
  predicate Tidy(s: Forks, tape: TapeId) {
    tape in s.tapes && tape < s.nextId && forall f :: f in s.finalized ==> f < s.nextId
  }

  lemma {:induction false} RecordedMeans(s: Forks, fork: TapeId, added: seq<Entry>)
    requires fork in s.tapes
    ensures Recorded(s, fork, added) == s.(tapes := s.tapes[fork := s.tapes[fork] + added])
  {
    if added == [] {
      assert s.tapes[fork] + added == s.tapes[fork];
      assert s.tapes[fork := s.tapes[fork]] == s.tapes;
    } else {
      var front := added[..|added| - 1];
      RecordedMeans(s, fork, front);
      assert s.tapes[fork] + front + [added[|added| - 1]] == s.tapes[fork] + added;
    }
  }

  function TurnOn(s: Forks, tape: TapeId, turn: Turn): Forks
    requires Tidy(s, tape)
  {
    RecordedMeans(Perform(s, Begin(tape)), s.nextId, turn.added);
    Ended(Recorded(Perform(s, Begin(tape)), s.nextId, turn.added), s.nextId, tape, turn.ending)
  }

  lemma {:induction false} EndedMeans(s: Forks, fork: TapeId, base: TapeId, ending: Ending)
    requires MayCommit(s, fork) && s.baseTapeIds[fork] == base && base in s.tapes && base != fork
    ensures var end, delta := Ended(s, fork, base, ending), Delta(s.tapes[fork], s.baseLengths[fork]);
            && end.finalized <= s.finalized + {fork} && end.nextId == s.nextId && base in end.tapes
            && end.tapes[base] == s.tapes[if ending.Committed? then fork else base]
            && LogOf(end.log, base) == LogOf(s.log, base) + (if Persists(ending) then delta else [])
            && forall t :: t != base ==> LogOf(end.log, t) == LogOf(s.log, t)
  {
    assert LogOf(s.log, base) + [] == LogOf(s.log, base);
  }

  /** The tape of the session gained `kept`, its log gained `logged`, and the logs of other tapes are as they were. */
  ghost predicate Gained(before: Forks, after: Forks, tape: TapeId, kept: seq<Entry>, logged: seq<Entry>) {
    && tape in before.tapes && tape in after.tapes
    && after.tapes[tape] == before.tapes[tape] + kept
    && LogOf(after.log, tape) == LogOf(before.log, tape) + logged
    && forall t :: t != tape ==> LogOf(after.log, t) == LogOf(before.log, t)
  }

  lemma {:induction false} GainedTwice(a: Forks, b: Forks, c: Forks, tape: TapeId, kept: seq<Entry>, logged: seq<Entry>,
                                       keptNext: seq<Entry>, loggedNext: seq<Entry>)
    requires Gained(a, b, tape, kept, logged) && Gained(b, c, tape, keptNext, loggedNext)
    ensures Gained(a, c, tape, kept + keptNext, logged + loggedNext)
  {
    assert a.tapes[tape] + (kept + keptNext) == a.tapes[tape] + kept + keptNext;
    assert LogOf(a.log, tape) + (logged + loggedNext) == LogOf(a.log, tape) + logged + loggedNext;
  }

  function KeptOf(turn: Turn): seq<Entry> {
    if turn.ending.Committed? then turn.added else []
  }

  function LoggedOf(turn: Turn): seq<Entry> {
    if Persists(turn.ending) then turn.added else []
  }

  /** What one turn does to the session's tape, to its log and to everybody else's. */
  lemma {:induction false} TurnMeans(s: Forks, tape: TapeId, turn: Turn)
    requires Tidy(s, tape)
    ensures Tidy(TurnOn(s, tape, turn), tape)
    ensures Gained(s, TurnOn(s, tape, turn), tape, KeptOf(turn), LoggedOf(turn))
  {
    hide Ended, Persists;
    var fork := s.nextId;
    var begun := Perform(s, Begin(tape));
    RecordedMeans(begun, fork, turn.added);
    var ready := Recorded(begun, fork, turn.added);
    assert ready.tapes[fork][|s.tapes[tape]|..] == turn.added;
    EndedMeans(ready, fork, tape, turn.ending);
    assert s.tapes[tape] + [] == s.tapes[tape];
  }

  function TurnsOn(s: Forks, tape: TapeId, turns: seq<Turn>): (end: Forks)
    requires Tidy(s, tape)
    ensures Tidy(end, tape)
  {
    if turns == [] then s
    else
      TurnMeans(TurnsOn(s, tape, turns[..|turns| - 1]), tape, turns[|turns| - 1]);
      TurnOn(TurnsOn(s, tape, turns[..|turns| - 1]), tape, turns[|turns| - 1])
  }

  /** What the turns left in the log, and what they left on the tape. */
  function Logged(turns: seq<Turn>): seq<Entry> {
    if turns == [] then [] else Logged(turns[..|turns| - 1]) + LoggedOf(turns[|turns| - 1])
  }

  function Kept(turns: seq<Turn>): seq<Entry> {
    if turns == [] then [] else Kept(turns[..|turns| - 1]) + KeptOf(turns[|turns| - 1])
  }

  lemma {:induction false} TurnsMean(s: Forks, tape: TapeId, turns: seq<Turn>)
    requires Tidy(s, tape)
    ensures Gained(s, TurnsOn(s, tape, turns), tape, Kept(turns), Logged(turns))
    decreases |turns|
  {
    if turns == [] {
      assert s.tapes[tape] + [] == s.tapes[tape] && LogOf(s.log, tape) + [] == LogOf(s.log, tape);
    } else {
      hide TurnOn, KeptOf, LoggedOf, Gained, Tidy;
      var front, last := turns[..|turns| - 1], turns[|turns| - 1];
      var mid := TurnsOn(s, tape, front);
      TurnsMean(s, tape, front);
      TurnMeans(mid, tape, last);
      GainedTwice(s, mid, TurnsOn(s, tape, turns), tape, Kept(front), Logged(front), KeptOf(last), LoggedOf(last));
    }
  }

  lemma {:induction false} LoggedIsKeptExactly(turns: seq<Turn>)
    ensures |Logged(turns)| >= |Kept(turns)|
    ensures if forall i :: 0 <= i < |turns| ==> !GoesUnacknowledged(turns[i]) then Logged(turns) == Kept(turns)
            else |Logged(turns)| > |Kept(turns)|
    decreases |turns|
  {
    if turns != [] {
      var front := turns[..|turns| - 1];
      LoggedIsKeptExactly(front);
      assert GoesUnacknowledged(turns[|turns| - 1]) || forall i :: 0 <= i < |front| ==> front[i] == turns[i];
    }
  }

  /**
   Over any number of turns the log of a session equals its tape exactly when no turn that went back
   to the old tape had its entries persisted; else the log is longer, however the session goes on.
   The logs of other tapes are left alone.
   */
  lemma {:induction false} LogFollowsTapeExactly(s: Forks, tape: TapeId, turns: seq<Turn>)
    requires Tidy(s, tape) && LogOf(s.log, tape) == s.tapes[tape]
    ensures var end := TurnsOn(s, tape, turns);
            && (if forall i :: 0 <= i < |turns| ==> !GoesUnacknowledged(turns[i])
                then LogOf(end.log, tape) == end.tapes[tape]
                else |LogOf(end.log, tape)| > |end.tapes[tape]|)
            && forall t :: t != tape ==> LogOf(end.log, t) == LogOf(s.log, t)
  {
    hide TurnsOn, Logged, Kept, GoesUnacknowledged;
    TurnsMean(s, tape, turns);
    LoggedIsKeptExactly(turns);
  }
}

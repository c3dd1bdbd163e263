/**
 The reference for a session: what its tape, its window and its requests are when every request is
 rebuilt from scratch. It is a function of the script alone; there is no cache in it.
 */
module ReferenceSession {
  import opened Wrappers
  import opened TapeModel
  import opened ContextBuilder
  import opened IncrementalContext
  import opened SettledTape
  import opened ToolPairing
  import opened ToolLoop

  /** The tape, its window, and the grounding of the last build. */
  datatype Position = Position(entries: seq<Entry>, windowStart: nat, grounding: seq<Message>) {
    predicate Valid() {
      windowStart <= |entries|
    }
  }

  /** The full rebuild at a position. */
  function Request(prompt: string, p: Position): seq<Message>
    requires p.Valid()
  {
    Compose(prompt, Core(p.entries, p.windowStart), p.grounding)
  }

  /** A build: the advice may move the window, and the grounding is the new one. */
  function Built(advice: WindowAdvice, entries: seq<Entry>, windowStart: nat, grounding: seq<Message>): (p: Position)
    requires windowStart <= |entries|
    ensures p.Valid()
  {
    if MovesWindow(advice, entries, windowStart)
    then Position(entries + [advice.anchor.value], windowStart + advice.start, grounding)
    else Position(entries, windowStart, grounding)
  }

  /** A round that runtime messages steer builds once more before it asks the model. */
  function Steered(round: Round, p: Position): (q: Position)
    requires p.Valid()
    ensures q.Valid()
  {
    if round.steered then Built(round.adviceBefore, p.entries, p.windowStart, round.groundingBefore) else p
  }

  datatype Ending = Going(next: Position) | Stopped(entries: seq<Entry>, windowStart: nat) | Crashed

  predicate Well(e: Ending) {
    match e
    case Going(p) => p.Valid()
    case Stopped(entries, windowStart) => windowStart <= |entries|
    case Crashed => true
  }

  /** How a round ends: without calls the turn stops, with calls everything is recorded and built. */
  function EndOfRound(p: Position, round: Round): (e: Ending)
    requires p.Valid()
    ensures Well(e)
  {
    if round.interruptedBefore then Crashed
    else
      var at := Steered(round, p);
      if round.steps == [] then Stopped(at.entries + TextPart(round), at.windowStart)
      else
        match RoundOutcomes(round)
        case None => Crashed
        case Some(outcomes) =>
          Going(Built(round.adviceAfter, at.entries + RoundEntries(round, outcomes), at.windowStart,
                      round.groundingAfter))
  }

  /** The positions from which the requests of a turn are sent. */
  function TurnRequests(p: Position, rounds: seq<Round>): (sent: seq<Position>)
    requires p.Valid()
    ensures |sent| <= |rounds| && forall k :: 0 <= k < |sent| ==> sent[k].Valid()
    decreases |rounds|
  {
    if rounds == [] || rounds[0].interruptedBefore then []
    else
      [Steered(rounds[0], p)]
      + match EndOfRound(p, rounds[0])
        case Going(next) => TurnRequests(next, rounds[1..])
        case _ => []
  }

  function EndOfTurn(p: Position, rounds: seq<Round>): (e: Ending)
    requires p.Valid()
    ensures Well(e) && !e.Going?
    decreases |rounds|
  {
    if rounds == [] then Stopped(p.entries, p.windowStart)
    else
      match EndOfRound(p, rounds[0])
      case Going(next) => EndOfTurn(next, rounds[1..])
      case Stopped(entries, windowStart) => Stopped(entries, windowStart)
      case Crashed => Crashed
  }

  /** A user message, the build before the rounds, the rounds, and what a checkpoint hook writes. */
  datatype Turn = Turn(input: Entry, advice: WindowAdvice, grounding: seq<Message>, rounds: seq<Round>,
                       checkpointWrites: seq<Entry>)

  predicate SoundTurn(turn: Turn) {
    && turn.input.body.Text? && Closes(turn.input)
    && SoundAdvice(turn.advice)
    && (forall k :: 0 <= k < |turn.rounds| ==> SoundRound(turn.rounds[k]))
  }

  function StartOfTurn(entries: seq<Entry>, windowStart: nat, turn: Turn): (p: Position)
    requires windowStart <= |entries|
    ensures p.Valid()
  {
    Built(turn.advice, entries + [turn.input], windowStart, turn.grounding)
  }

  /** The positions of all requests of a session that continues with these turns. */
  function SessionRequests(entries: seq<Entry>, windowStart: nat, turns: seq<Turn>): (sent: seq<Position>)
    requires windowStart <= |entries|
    ensures forall k :: 0 <= k < |sent| ==> sent[k].Valid()
    decreases |turns|
  {
    if turns == [] then []
    else
      var p := StartOfTurn(entries, windowStart, turns[0]);
      TurnRequests(p, turns[0].rounds)
      + match EndOfTurn(p, turns[0].rounds)
        case Stopped(after, start) => SessionRequests(after + turns[0].checkpointWrites, start, turns[1..])
        case _ => []
  }

  /** How many turns complete before one raises. */
  function CompletedTurns(entries: seq<Entry>, windowStart: nat, turns: seq<Turn>): (n: nat)
    requires windowStart <= |entries|
    ensures n <= |turns|
    decreases |turns|
  {
    if turns == [] then 0
    else
      var e := EndOfTurn(StartOfTurn(entries, windowStart, turns[0]), turns[0].rounds);
      if e.Crashed? then 0
      else 1 + CompletedTurns(e.entries + turns[0].checkpointWrites, e.windowStart, turns[1..])
  }

  /** The requests rebuilt from scratch at these positions. */
  function Requests(prompt: string, sent: seq<Position>): (requests: seq<seq<Message>>)
    requires forall k :: 0 <= k < |sent| ==> sent[k].Valid()
    ensures |requests| == |sent| && forall k :: 0 <= k < |sent| ==> requests[k] == Request(prompt, sent[k])
  {
    seq(|sent|, k requires 0 <= k < |sent| => Request(prompt, sent[k]))
  }

  // ---------- Which calls have their results ----------

  /** The tapes of a turn: at its start, after each completed round, and at its end. */
  function TurnTapes(p: Position, rounds: seq<Round>): seq<seq<Entry>>
    requires p.Valid()
    decreases |rounds|
  {
    [p.entries]
    + if rounds == [] then []
      else
        match EndOfRound(p, rounds[0])
        case Going(next) => TurnTapes(next, rounds[1..])
        case Stopped(entries, _) => [entries]
        case Crashed => []
  }

  /** The tapes of a session: at its start, those of every turn, and what a checkpoint hook leaves. */
  function SessionTapes(entries: seq<Entry>, windowStart: nat, turns: seq<Turn>): seq<seq<Entry>>
    requires windowStart <= |entries|
    decreases |turns|
  {
    [entries]
    + if turns == [] then []
      else
        var p := StartOfTurn(entries, windowStart, turns[0]);
        TurnTapes(p, turns[0].rounds)
        + match EndOfTurn(p, turns[0].rounds)
          case Stopped(after, start) => SessionTapes(after + turns[0].checkpointWrites, start, turns[1..])
          case _ => []
  }

  /** In every round that completes, what is written while its tools run settles. */
  predicate TurnSettles(p: Position, rounds: seq<Round>, whole: bool)
    requires p.Valid()
    decreases |rounds|
  {
    rounds == []
    || match EndOfRound(p, rounds[0])
       case Going(next) => Settles(rounds[0], whole) && TurnSettles(next, rounds[1..], whole)
       case _ => true
  }

  predicate SessionSettles(entries: seq<Entry>, windowStart: nat, turns: seq<Turn>, whole: bool)
    requires windowStart <= |entries|
    decreases |turns|
  {
    turns == []
    || var p := StartOfTurn(entries, windowStart, turns[0]);
       && TurnSettles(p, turns[0].rounds, whole)
       && match EndOfTurn(p, turns[0].rounds)
          case Stopped(after, start) =>
            && PairedAs(turns[0].checkpointWrites, whole)
            && SessionSettles(after + turns[0].checkpointWrites, start, turns[1..], whole)
          case _ => true
  }

  ghost predicate AllPairedAs(tapes: seq<seq<Entry>>, whole: bool) {
    forall k :: 0 <= k < |tapes| ==> PairedAs(tapes[k], whole)
  }

  lemma {:induction false} AllPairedJoin(a: seq<seq<Entry>>, b: seq<seq<Entry>>, whole: bool)
    ensures AllPairedAs(a + b, whole) <==> AllPairedAs(a, whole) && AllPairedAs(b, whole)
  {
    hide PairedAs;
    if AllPairedAs(a + b, whole) {
      forall k | 0 <= k < |a| ensures PairedAs(a[k], whole) {
        assert (a + b)[k] == a[k];
      }
      forall k | 0 <= k < |b| ensures PairedAs(b[k], whole) {
        assert (a + b)[|a| + k] == b[k];
      }
    }
  }

  lemma {:induction false} BuildKeepsPaired(advice: WindowAdvice, entries: seq<Entry>, windowStart: nat,
                                            grounding: seq<Message>, whole: bool)
    requires windowStart <= |entries| && SoundAdvice(advice)
    ensures PairedAs(Built(advice, entries, windowStart, grounding).entries, whole) <==> PairedAs(entries, whole)
  {
    if MovesWindow(advice, entries, windowStart) {
      NeutralKeepsPairedAs(entries, [advice.anchor.value], whole);
    }
  }

  lemma {:induction false} SteeringKeepsPaired(p: Position, round: Round, whole: bool)
    requires p.Valid() && SoundRound(round)
    ensures PairedAs(Steered(round, p).entries, whole) <==> PairedAs(p.entries, whole)
  {
    if round.steered {
      BuildKeepsPaired(round.adviceBefore, p.entries, p.windowStart, round.groundingBefore, whole);
    }
  }

  lemma {:induction false} RoundIsPairedExactly(p: Position, round: Round, whole: bool)
    requires p.Valid() && SoundRound(round) && PairedAs(p.entries, whole)
    ensures var e := EndOfRound(p, round);
      && (e.Going? ==> (PairedAs(e.next.entries, whole) <==> Settles(round, whole)))
      && (e.Stopped? ==> PairedAs(e.entries, whole))
  {
    hide PairedAs, Settles, RoundEntries, RoundOutcomes, SoundAdvice, Built, Steered;
    SteeringKeepsPaired(p, round, whole);
    var at := Steered(round, p);
    NeutralKeepsPairedAs(at.entries, TextPart(round), whole);
    if RoundOutcomes(round).Some? {
      var added := RoundEntries(round, RoundOutcomes(round).value);
      RoundOutcomesAnswer(round);
      RoundPaysExactly(round, RoundOutcomes(round).value, whole);
      PairedAsAfterExactly(at.entries, added, whole);
      BuildKeepsPaired(round.adviceAfter, at.entries + added, at.windowStart, round.groundingAfter, whole);
    }
  }

  lemma {:induction false} TurnUnfolded(p: Position, rounds: seq<Round>, whole: bool)
    requires p.Valid() && rounds != []
    ensures var e := EndOfRound(p, rounds[0]);
      && (e.Going? ==>
            && TurnTapes(p, rounds) == [p.entries] + TurnTapes(e.next, rounds[1..])
            && (TurnSettles(p, rounds, whole) <==> Settles(rounds[0], whole) && TurnSettles(e.next, rounds[1..], whole))
            && EndOfTurn(p, rounds) == EndOfTurn(e.next, rounds[1..]))
      && (e.Stopped? ==> TurnTapes(p, rounds) == [p.entries] + [e.entries] && EndOfTurn(p, rounds) == e)
      && (e.Crashed? ==> TurnTapes(p, rounds) == [p.entries] && EndOfTurn(p, rounds) == e)
      && (!e.Going? ==> TurnSettles(p, rounds, whole))
  {
    hide EndOfRound, Settles;
  }

  lemma {:induction false} FirstTape(p: Position, rounds: seq<Round>)
    requires p.Valid()
    ensures TurnTapes(p, rounds) != [] && TurnTapes(p, rounds)[0] == p.entries
  {
  }

  lemma {:induction false} OnePairedTape(tape: seq<Entry>, whole: bool)
    ensures AllPairedAs([tape], whole) <==> PairedAs(tape, whole)
  {
    if AllPairedAs([tape], whole) {
      assert [tape][0] == tape;
    }
  }

  /**
   On all tapes of a turn each call has exactly one result after it exactly when what is written
   while tools run settles in every round that completes; on the whole tape or on its visible part.
   */
  lemma {:induction false} TurnIsPairedExactly(p: Position, rounds: seq<Round>, whole: bool)
    requires p.Valid() && PairedAs(p.entries, whole) && forall k :: 0 <= k < |rounds| ==> SoundRound(rounds[k])
    ensures AllPairedAs(TurnTapes(p, rounds), whole) <==> TurnSettles(p, rounds, whole)
    ensures TurnSettles(p, rounds, whole) && EndOfTurn(p, rounds).Stopped? ==>
      PairedAs(EndOfTurn(p, rounds).entries, whole)
    decreases |rounds|
  {
    hide PairedAs, AllPairedAs, EndOfRound, Settles, SoundRound;
    OnePairedTape(p.entries, whole);
    if rounds == [] {
      assert TurnTapes(p, rounds) == [p.entries];
    } else {
      RoundIsPairedExactly(p, rounds[0], whole);
      TurnUnfolded(p, rounds, whole);
      hide TurnTapes, TurnSettles, EndOfTurn;
      var e := EndOfRound(p, rounds[0]);
      if e.Going? {
        AllPairedJoin([p.entries], TurnTapes(e.next, rounds[1..]), whole);
        if Settles(rounds[0], whole) {
          assert forall k :: 0 <= k < |rounds[1..]| ==> rounds[1..][k] == rounds[k + 1];
          TurnIsPairedExactly(e.next, rounds[1..], whole);
        } else {
          FirstTape(e.next, rounds[1..]);
          UnpairedAt(TurnTapes(e.next, rounds[1..]), 0, whole);
        }
      } else if e.Stopped? {
        OnePairedTape(e.entries, whole);
        AllPairedJoin([p.entries], [e.entries], whole);
      }
    }
  }

  lemma {:induction false} UnpairedAt(tapes: seq<seq<Entry>>, k: nat, whole: bool)
    requires k < |tapes| && !PairedAs(tapes[k], whole)
    ensures !AllPairedAs(tapes, whole)
  {
  }

  lemma {:induction false} InputKeepsPaired(entries: seq<Entry>, windowStart: nat, turn: Turn, whole: bool)
    requires windowStart <= |entries| && SoundTurn(turn)
    ensures PairedAs(StartOfTurn(entries, windowStart, turn).entries, whole) <==> PairedAs(entries, whole)
  {
    hide SoundAdvice, Closes, PairedAs;
    NeutralKeepsPairedAs(entries, [turn.input], whole);
    BuildKeepsPaired(turn.advice, entries + [turn.input], windowStart, turn.grounding, whole);
  }

  lemma {:induction false} SessionUnfolded(entries: seq<Entry>, windowStart: nat, turns: seq<Turn>, whole: bool)
    requires windowStart <= |entries| && turns != []
    ensures var p, turn := StartOfTurn(entries, windowStart, turns[0]), turns[0];
      var tapes, e := TurnTapes(p, turn.rounds), EndOfTurn(p, turn.rounds);
      && (e.Stopped? ==>
            var after := e.entries + turn.checkpointWrites;
            && SessionTapes(entries, windowStart, turns)
               == [entries] + (tapes + SessionTapes(after, e.windowStart, turns[1..]))
            && (SessionSettles(entries, windowStart, turns, whole)
                <==> && TurnSettles(p, turn.rounds, whole) && PairedAs(turn.checkpointWrites, whole)
                     && SessionSettles(after, e.windowStart, turns[1..], whole)))
      && (!e.Stopped? ==>
            && SessionTapes(entries, windowStart, turns) == [entries] + tapes
            && (SessionSettles(entries, windowStart, turns, whole) <==> TurnSettles(p, turn.rounds, whole)))
  {
    hide StartOfTurn, TurnTapes, TurnSettles, EndOfTurn, PairedAs;
  }

  lemma {:induction false} FirstSessionTape(entries: seq<Entry>, windowStart: nat, turns: seq<Turn>)
    requires windowStart <= |entries|
    ensures SessionTapes(entries, windowStart, turns) != [] && SessionTapes(entries, windowStart, turns)[0] == entries
  {
  }

  /** The same over any number of turns. */
  lemma {:induction false} SessionIsPairedExactly(entries: seq<Entry>, windowStart: nat, turns: seq<Turn>, whole: bool)
    requires windowStart <= |entries| && PairedAs(entries, whole)
    requires forall k :: 0 <= k < |turns| ==> SoundTurn(turns[k])
    ensures AllPairedAs(SessionTapes(entries, windowStart, turns), whole)
            <==> SessionSettles(entries, windowStart, turns, whole)
    decreases |turns|
  {
    hide PairedAs, AllPairedAs, StartOfTurn, TurnTapes, TurnSettles, EndOfTurn;
    OnePairedTape(entries, whole);
    if turns == [] {
      assert SessionTapes(entries, windowStart, turns) == [entries];
    } else {
      var p, turn := StartOfTurn(entries, windowStart, turns[0]), turns[0];
      SessionUnfolded(entries, windowStart, turns, whole);
      InputKeepsPaired(entries, windowStart, turn, whole);
      TurnIsPairedExactly(p, turn.rounds, whole);
      hide SessionTapes, SessionSettles, SoundTurn;
      var tapes, e := TurnTapes(p, turn.rounds), EndOfTurn(p, turn.rounds);
      if !e.Stopped? {
        AllPairedJoin([entries], tapes, whole);
      } else {
        var after := e.entries + turn.checkpointWrites;
        var rest := SessionTapes(after, e.windowStart, turns[1..]);
        AllPairedJoin([entries], tapes + rest, whole);
        AllPairedJoin(tapes, rest, whole);
        if TurnSettles(p, turn.rounds, whole) {
          PairedAsAfterExactly(e.entries, turn.checkpointWrites, whole);
          if PairedAs(turn.checkpointWrites, whole) {
            assert forall k :: 0 <= k < |turns[1..]| ==> turns[1..][k] == turns[k + 1];
            SessionIsPairedExactly(after, e.windowStart, turns[1..], whole);
          } else {
            FirstSessionTape(after, e.windowStart, turns[1..]);
            UnpairedAt(rest, 0, whole);
          }
        }
      }
    }
  }

  // ---------- What the model is asked about ----------

  lemma {:induction false} TurnAsksPaired(p: Position, rounds: seq<Round>, whole: bool)
    requires p.Valid() && PairedAs(p.entries, whole) && forall k :: 0 <= k < |rounds| ==> SoundRound(rounds[k])
    requires TurnSettles(p, rounds, whole)
    ensures forall k :: 0 <= k < |TurnRequests(p, rounds)| ==> PairedAs(TurnRequests(p, rounds)[k].entries, whole)
    decreases |rounds|
  {
    hide PairedAs, EndOfRound, Steered, Settles, SoundRound;
    if rounds != [] {
      SteeringKeepsPaired(p, rounds[0], whole);
      RoundIsPairedExactly(p, rounds[0], whole);
      var e := EndOfRound(p, rounds[0]);
      if e.Going? {
        assert forall k :: 0 <= k < |rounds[1..]| ==> rounds[1..][k] == rounds[k + 1];
        TurnAsksPaired(e.next, rounds[1..], whole);
      }
    }
  }

  /** So the model is asked only about tapes on which each call has exactly one result after it. */
  lemma {:induction false} SessionAsksPaired(entries: seq<Entry>, windowStart: nat, turns: seq<Turn>, whole: bool)
    requires windowStart <= |entries| && PairedAs(entries, whole)
    requires forall k :: 0 <= k < |turns| ==> SoundTurn(turns[k])
    requires SessionSettles(entries, windowStart, turns, whole)
    ensures forall k :: 0 <= k < |SessionRequests(entries, windowStart, turns)| ==>
      PairedAs(SessionRequests(entries, windowStart, turns)[k].entries, whole)
    decreases |turns|
  {
    hide PairedAs, StartOfTurn, TurnRequests, TurnSettles, EndOfTurn;
    if turns != [] {
      var p, turn := StartOfTurn(entries, windowStart, turns[0]), turns[0];
      InputKeepsPaired(entries, windowStart, turn, whole);
      TurnAsksPaired(p, turn.rounds, whole);
      TurnIsPairedExactly(p, turn.rounds, whole);
      var e := EndOfTurn(p, turn.rounds);
      if e.Stopped? {
        PairedAsAfterExactly(e.entries, turn.checkpointWrites, whole);
        assert forall k :: 0 <= k < |turns[1..]| ==> turns[1..][k] == turns[k + 1];
        SessionAsksPaired(e.entries + turn.checkpointWrites, e.windowStart, turns[1..], whole);
      }
    }
  }

  /** Everything that tools and hooks write is hidden from the model. */
  predicate WritesAreHidden(turns: seq<Turn>) {
    forall k :: 0 <= k < |turns| ==>
      && Visible(turns[k].checkpointWrites) == []
      && forall i :: 0 <= i < |turns[k].rounds| ==> Visible(turns[k].rounds[i].hookWrites) == []
  }

  lemma {:induction false} HiddenTurnSettles(p: Position, rounds: seq<Round>)
    requires p.Valid() && forall i :: 0 <= i < |rounds| ==> Visible(rounds[i].hookWrites) == []
    ensures TurnSettles(p, rounds, false)
    decreases |rounds|
  {
    hide EndOfRound;
    if rounds != [] && EndOfRound(p, rounds[0]).Going? {
      HiddenTurnSettles(EndOfRound(p, rounds[0]).next, rounds[1..]);
    }
  }

  /** Then every visible call has exactly one visible result, however unpaired the hidden entries are. */
  lemma {:induction false} HiddenWritesSettle(entries: seq<Entry>, windowStart: nat, turns: seq<Turn>)
    requires windowStart <= |entries| && WritesAreHidden(turns)
    ensures SessionSettles(entries, windowStart, turns, false)
    decreases |turns|
  {
    hide StartOfTurn, EndOfTurn, TurnSettles;
    if turns != [] {
      var p := StartOfTurn(entries, windowStart, turns[0]);
      HiddenTurnSettles(p, turns[0].rounds);
      var e := EndOfTurn(p, turns[0].rounds);
      if e.Stopped? {
        HiddenWritesSettle(e.entries + turns[0].checkpointWrites, e.windowStart, turns[1..]);
      }
    }
  }

  // ---------- Requests grow ----------

  /** Nothing that was on the tape before is taken away or moved, and the window does not go back. */
  predicate GoesOnFrom(entries: seq<Entry>, windowStart: nat, later: Position) {
    entries <= later.entries && windowStart <= later.windowStart
  }

  lemma {:induction false} BuildGoesOn(advice: WindowAdvice, entries: seq<Entry>, windowStart: nat,
                                       grounding: seq<Message>)
    requires windowStart <= |entries|
    ensures var p := Built(advice, entries, windowStart, grounding);
      GoesOnFrom(entries, windowStart, p) && p.grounding == grounding && |p.entries| <= |entries| + 1
  {
  }

  /** The grounding of request `k`: the newest that was offered before it. */
  function GroundingOf(p: Position, rounds: seq<Round>, k: nat): seq<Message>
    requires k < |rounds|
  {
    if rounds[k].steered then rounds[k].groundingBefore
    else if k == 0 then p.grounding
    else rounds[k - 1].groundingAfter
  }

  lemma {:induction false} GroundingOfRest(p: Position, rounds: seq<Round>, next: Position, k: nat)
    requires 0 < k < |rounds| && next.grounding == rounds[0].groundingAfter
    ensures GroundingOf(next, rounds[1..], k - 1) == GroundingOf(p, rounds, k)
  {
  }

  /** Request `k` of a turn is about a tape that goes on from the turn's start, with the newest grounding. */
  lemma {:induction false} TurnGoesOn(p: Position, rounds: seq<Round>, k: nat)
    requires p.Valid() && k < |TurnRequests(p, rounds)|
    ensures GoesOnFrom(p.entries, p.windowStart, TurnRequests(p, rounds)[k])
    ensures TurnRequests(p, rounds)[k].grounding == GroundingOf(p, rounds, k)
    decreases |rounds|
  {
    hide RoundEntries, RoundOutcomes, Built;
    SteeredGoesOn(p, rounds[0]);
    if k > 0 {
      var e := EndOfRound(p, rounds[0]);
      RoundGoesOn(p, rounds[0]);
      TurnGoesOn(e.next, rounds[1..], k - 1);
      GroundingOfRest(p, rounds, e.next, k);
    }
  }

  lemma {:induction false} SteeredGoesOn(p: Position, round: Round)
    requires p.Valid()
    ensures GoesOnFrom(p.entries, p.windowStart, Steered(round, p))
    ensures Steered(round, p).grounding == if round.steered then round.groundingBefore else p.grounding
  {
    if round.steered {
      BuildGoesOn(round.adviceBefore, p.entries, p.windowStart, round.groundingBefore);
    }
  }

  /** What a round leaves: everything that it recorded goes to the end of the tape that it was asked about. */
  lemma {:induction false} RoundGoesOn(p: Position, round: Round)
    requires p.Valid()
    ensures var e, at := EndOfRound(p, round), Steered(round, p);
      && (e.Going? ==>
            && RoundOutcomes(round).Some?
            && GoesOnFrom(at.entries + RoundEntries(round, RoundOutcomes(round).value), at.windowStart, e.next)
            && GoesOnFrom(p.entries, p.windowStart, e.next) && e.next.grounding == round.groundingAfter)
      && (e.Stopped? ==> e.entries == at.entries + TextPart(round) && e.windowStart == at.windowStart)
      && (e.Crashed? <==> round.interruptedBefore || (round.steps != [] && RoundOutcomes(round).None?))
  {
    hide RoundEntries, RoundOutcomes;
    SteeredGoesOn(p, round);
    if RoundOutcomes(round).Some? {
      var at := Steered(round, p);
      BuildGoesOn(round.adviceAfter, at.entries + RoundEntries(round, RoundOutcomes(round).value), at.windowStart,
                  round.groundingAfter);
    }
  }

  /** The next request of a turn is about the tape of this one and everything that its round recorded. */
  lemma {:induction false} NextRequestGoesOn(p: Position, rounds: seq<Round>, k: nat)
    requires p.Valid() && k + 1 < |TurnRequests(p, rounds)|
    ensures RoundOutcomes(rounds[k]).Some? && rounds[k].steps != []
    ensures var sent := TurnRequests(p, rounds);
      GoesOnFrom(sent[k].entries + RoundEntries(rounds[k], RoundOutcomes(rounds[k]).value), sent[k].windowStart,
                 sent[k + 1])
    decreases |rounds|
  {
    hide RoundEntries, RoundOutcomes, Built;
    var e := EndOfRound(p, rounds[0]);
    RoundGoesOn(p, rounds[0]);
    if k == 0 {
      SteeredGoesOn(e.next, rounds[1]);
    } else {
      NextRequestGoesOn(e.next, rounds[1..], k - 1);
    }
  }

  lemma {:induction false} EndGoesOn(p: Position, rounds: seq<Round>)
    requires p.Valid() && EndOfTurn(p, rounds).Stopped?
    ensures p.entries <= EndOfTurn(p, rounds).entries && p.windowStart <= EndOfTurn(p, rounds).windowStart
    decreases |rounds|
  {
    hide RoundEntries, RoundOutcomes, Built;
    if rounds != [] {
      RoundGoesOn(p, rounds[0]);
      SteeredGoesOn(p, rounds[0]);
      if EndOfRound(p, rounds[0]).Going? {
        EndGoesOn(EndOfRound(p, rounds[0]).next, rounds[1..]);
      }
    }
  }

  /**
   Every request of a session, in this turn and in all later ones, is about a tape that starts with what was
   on it before and this turn's user message.
   */
  lemma {:induction false} SessionGoesOn(entries: seq<Entry>, windowStart: nat, turns: seq<Turn>, k: nat)
    requires windowStart <= |entries| && turns != [] && k < |SessionRequests(entries, windowStart, turns)|
    ensures GoesOnFrom(entries + [turns[0].input], windowStart, SessionRequests(entries, windowStart, turns)[k])
    decreases |turns|
  {
    hide TurnRequests, EndOfTurn, Built;
    var p, turn := StartOfTurn(entries, windowStart, turns[0]), turns[0];
    BuildGoesOn(turn.advice, entries + [turn.input], windowStart, turn.grounding);
    var asked := TurnRequests(p, turn.rounds);
    if k < |asked| {
      TurnGoesOn(p, turn.rounds, k);
    } else {
      var e := EndOfTurn(p, turn.rounds);
      EndGoesOn(p, turn.rounds);
      SessionGoesOn(e.entries + turn.checkpointWrites, e.windowStart, turns[1..], k - |asked|);
    }
  }

  /** After a turn that completes, what its checkpoint hook wrote is on the tape of every request of the next turns. */
  lemma {:induction false} WritesGoOn(entries: seq<Entry>, windowStart: nat, turns: seq<Turn>, k: nat)
    requires windowStart <= |entries| && turns != []
    requires var p := StartOfTurn(entries, windowStart, turns[0]);
      && |TurnRequests(p, turns[0].rounds)| <= k < |SessionRequests(entries, windowStart, turns)|
    ensures var e := EndOfTurn(StartOfTurn(entries, windowStart, turns[0]), turns[0].rounds);
      && e.Stopped? && |turns| > 1
      && GoesOnFrom(e.entries + turns[0].checkpointWrites + [turns[1].input], e.windowStart,
                    SessionRequests(entries, windowStart, turns)[k])
  {
    hide TurnRequests, EndOfTurn, StartOfTurn;
    var p, turn := StartOfTurn(entries, windowStart, turns[0]), turns[0];
    var e := EndOfTurn(p, turn.rounds);
    SessionGoesOn(e.entries + turn.checkpointWrites, e.windowStart, turns[1..], k - |TurnRequests(p, turn.rounds)|);
  }
}

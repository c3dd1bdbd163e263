/**
 Whole turns on the incremental context: the rounds of a turn, and any number of turns one after the
 other, each proved against the reference that rebuilds every request.
 */
module Turns {
  import opened Wrappers
  import opened TapeModel
  import opened ContextBuilder
  import opened IncrementalContext
  import opened SettledTape
  import opened ToolPairing
  import opened ToolLoop
  import opened ReferenceSession
  import ContextContents

  /** After a round's entries went to the tape of a ready context, the cache may be reused. */
  lemma {:induction false} RoundIsReusable(ctx: PipelineContext, before: seq<Entry>, added: seq<Entry>)
    requires ctx.Consistent() && !ctx.requiresFullRebuild
    requires ctx.tape.entries == before + added
    requires Sound(before, ctx.tape.windowStart)
    requires ctx.entryCount > 0 ==> ctx.windowStart == ctx.tape.windowStart && ctx.entryCount == |before|
    requires added != [] && StartsClean(added) && Closes(added[|added| - 1])
    ensures Reusable(ctx)
  {
    assert added[|added| - 1] in added;
    ClosedTapeSettles(before, ctx.tape.windowStart, added);
    AppendedResumes(before, ctx.tape.windowStart, added);
  }

  lemma {:induction false} TextIsIdle(ctx: PipelineContext, before: seq<Entry>, text: Entry)
    requires ctx.Consistent() && !ctx.requiresFullRebuild
    requires ctx.tape.entries == before + [text]
    requires Sound(before, ctx.tape.windowStart)
    requires ctx.entryCount > 0 ==> ctx.windowStart == ctx.tape.windowStart && ctx.entryCount == |before|
    requires StartsTurn(text) && text.body.Text?
    ensures Idle(ctx)
  {
    AppendedResumes(before, ctx.tape.windowStart, [text]);
  }

  /** Appending to the tape leaves what the cache describes in place. */
  lemma {:induction false} CacheOutlivesAppend(ctx: PipelineContext, before: seq<Entry>)
    requires ctx.tape.Valid() && ctx.interval > 0 && before <= ctx.tape.entries
    requires ctx.entryCount == 0 || ctx.requiresFullRebuild
      || (&& ctx.windowStart <= ctx.entryCount <= |before|
          && exists block: seq<Message> ::
               ctx.Cached() == Fresh(ctx.prompt, before[..ctx.entryCount], ctx.windowStart, block))
    ensures ctx.Consistent()
  {
    if ctx.entryCount != 0 && !ctx.requiresFullRebuild {
      assert before[..ctx.entryCount] == ctx.tape.entries[..ctx.entryCount];
    }
  }

  /** Where the session is: its own tape and window, and the grounding of its last build. */
  function Here(ctx: PipelineContext, grounding: seq<Message>): Position
    reads ctx, ctx.tape
  {
    Position(ctx.tape.entries, ctx.tape.windowStart, grounding)
  }

  lemma {:induction false} ReadySendsRequest(ctx: PipelineContext, grounding: seq<Message>)
    requires Ready(ctx, grounding)
    ensures Here(ctx, grounding).Valid() && ctx.messages == Request(ctx.prompt, Here(ctx, grounding))
  {
  }

  /**
   One round of `_stage_run_model`: what it sends, and how it leaves tape, window and grounding, is
   what the reference says.
   */
  method RunRound(ctx: PipelineContext, round: Round, ghost grounding: seq<Message>)
      returns (flow: Flow, sent: Option<seq<Message>>, ghost next: seq<Message>)
    requires Ready(ctx, grounding) && SoundRound(round)
    modifies ctx, ctx.tape
    ensures ctx.tape.Valid() && old(Here(ctx, grounding)).Valid()
    ensures sent == if round.interruptedBefore then None
                    else Some(Request(ctx.prompt, Steered(round, old(Here(ctx, grounding)))))
    ensures EndOfRound(old(Here(ctx, grounding)), round)
         == match flow
            case Continue => Going(Here(ctx, next))
            case Finished => Stopped(ctx.tape.entries, ctx.tape.windowStart)
            case Failed => Crashed
    ensures flow.Continue? ==> Ready(ctx, next)
    ensures flow.Finished? ==> Idle(ctx)
  {
    hide SettledAt, RoundEntries, Closes, StartsClean, RoundOutcomes, Ready, Request, Built;
    sent, next := None, grounding;
    HereIsValid(ctx, grounding);
    if round.interruptedBefore {
      return Failed, sent, next;
    }
    next := Steer(ctx, round, grounding);
    ReadySendsRequest(ctx, next);
    sent := Some(ctx.messages);
    if round.steps == [] {
      FinishTurn(ctx, round, next);
      return Finished, sent, next;
    }
    var completed := CompleteRound(ctx, round, next);
    return if completed then Continue else Failed, sent, round.groundingAfter;
  }

  /** Runtime messages that change the prompt cause one more build. */
  method Steer(ctx: PipelineContext, round: Round, ghost grounding: seq<Message>) returns (ghost next: seq<Message>)
    requires Ready(ctx, grounding) && SoundRound(round)
    modifies ctx, ctx.tape
    ensures Ready(ctx, next) && old(Here(ctx, grounding)).Valid()
    ensures Here(ctx, next) == Steered(round, old(Here(ctx, grounding)))
  {
    HereIsValid(ctx, grounding);
    if !round.steered {
      return grounding;
    }
    ReadyIsReusable(ctx, grounding);
    hide Ready, Reusable;
    Refresh(ctx, round.adviceBefore, round.groundingBefore);
    return round.groundingBefore;
  }

  /** A round with calls: everything is recorded, and the context built again; `false` when it raises. */
  method CompleteRound(ctx: PipelineContext, round: Round, ghost grounding: seq<Message>) returns (completed: bool)
    requires Ready(ctx, grounding) && SoundRound(round) && round.steps != []
    modifies ctx, ctx.tape
    ensures ctx.tape.Valid() && old(ctx.tape.windowStart) <= |old(ctx.tape.entries)|
    ensures completed == RoundOutcomes(round).Some?
    ensures completed ==> Ready(ctx, round.groundingAfter)
    ensures completed ==>
      var entries := old(ctx.tape.entries) + RoundEntries(round, RoundOutcomes(round).value);
      Here(ctx, round.groundingAfter)
      == Built(round.adviceAfter, entries, old(ctx.tape.windowStart), round.groundingAfter)
  {
    hide SettledAt, RoundEntries, Closes, StartsClean, RoundOutcomes;
    ghost var before := ctx.tape.entries;
    var outcomes, executable, checkpoint := RecordRound(ctx.tape, round);
    if outcomes.None? {
      return false;
    }
    RoundOutcomesAnswer(round);
    RoundShape(round, outcomes.value);
    CacheOutlivesAppend(ctx, before);
    RoundIsReusable(ctx, before, RoundEntries(round, outcomes.value));
    FinishRound(ctx, round, executable, checkpoint);
    return true;
  }

  /** A round without calls records its text, if any, and ends the turn. */
  method FinishTurn(ctx: PipelineContext, round: Round, ghost grounding: seq<Message>)
    requires Ready(ctx, grounding)
    modifies ctx.tape`entries
    ensures ctx.tape.Valid() && ctx.tape.entries == old(ctx.tape.entries) + TextPart(round)
    ensures Idle(ctx)
  {
    ghost var before := ctx.tape.entries;
    if round.text.Some? {
      var text := TextEntry(round.text.value, round.thinking);
      ctx.tape.Append(text);
      CacheOutlivesAppend(ctx, before);
      TextIsIdle(ctx, before, text);
    } else {
      assert before + [] == before;
      ReadyIsReusable(ctx, grounding);
    }
  }

  lemma {:induction false} RequestsJoin(prompt: string, a: seq<Position>, b: seq<Position>)
    requires forall k :: 0 <= k < |a| ==> a[k].Valid()
    requires forall k :: 0 <= k < |b| ==> b[k].Valid()
    ensures Requests(prompt, a + b) == Requests(prompt, a) + Requests(prompt, b)
  {
  }

  lemma {:induction false} TurnUnfolds(p: Position, rounds: seq<Round>, i: nat)
    requires p.Valid() && i <= |rounds|
    ensures i == |rounds| ==>
      TurnRequests(p, rounds[i..]) == [] && EndOfTurn(p, rounds[i..]) == Stopped(p.entries, p.windowStart)
    ensures i < |rounds| ==>
      var asked := if rounds[i].interruptedBefore then [] else [Steered(rounds[i], p)];
      var e := EndOfRound(p, rounds[i]);
      && (e.Going? ==> TurnRequests(p, rounds[i..]) == asked + TurnRequests(e.next, rounds[i + 1..]))
      && (e.Going? ==> EndOfTurn(p, rounds[i..]) == EndOfTurn(e.next, rounds[i + 1..]))
      && (!e.Going? ==> TurnRequests(p, rounds[i..]) == asked && EndOfTurn(p, rounds[i..]) == e)
  {
    hide Steered, RoundOutcomes, Built;
    if i < |rounds| {
      assert rounds[i..][0] == rounds[i] && rounds[i..][1..] == rounds[i + 1..];
    }
  }

  /** `_stage_run_model`: at most one round per element of the script. */
  method RunModel(ctx: PipelineContext, rounds: seq<Round>, ghost grounding: seq<Message>)
      returns (completed: bool, prompts: seq<seq<Message>>)
    requires Ready(ctx, grounding)
    requires forall k :: 0 <= k < |rounds| ==> SoundRound(rounds[k])
    modifies ctx, ctx.tape
    ensures ctx.tape.Valid() && old(Here(ctx, grounding)).Valid()
    ensures prompts == Requests(ctx.prompt, TurnRequests(old(Here(ctx, grounding)), rounds))
    ensures EndOfTurn(old(Here(ctx, grounding)), rounds)
         == if completed then Stopped(ctx.tape.entries, ctx.tape.windowStart) else Crashed
    ensures completed ==> Idle(ctx)
  {
    hide Ready, Request, EndOfRound, Steered, TurnRequests, EndOfTurn, Requests, Idle, SoundRound;
    prompts := [];
    ghost var start := Here(ctx, grounding);
    ghost var sent: seq<Position> := [];
    ghost var current := grounding;
    HereIsValid(ctx, grounding);
    assert rounds[0..] == rounds && [] + TurnRequests(start, rounds) == TurnRequests(start, rounds);
    for i := 0 to |rounds|
      invariant Ready(ctx, current) && Here(ctx, current).Valid()
      invariant forall k :: 0 <= k < |sent| ==> sent[k].Valid()
      invariant prompts == Requests(ctx.prompt, sent)
      invariant TurnRequests(start, rounds) == sent + TurnRequests(Here(ctx, current), rounds[i..])
      invariant EndOfTurn(start, rounds) == EndOfTurn(Here(ctx, current), rounds[i..])
    {
      ghost var p := Here(ctx, current);
      TurnUnfolds(p, rounds, i);
      var flow, request;
      ghost var next;
      flow, request, next := RunRound(ctx, rounds[i], current);
      if request.Some? {
        RequestsJoin(ctx.prompt, sent, [Steered(rounds[i], p)]);
        prompts, sent := prompts + [request.value], sent + [Steered(rounds[i], p)];
      }
      if !flow.Continue? {
        return flow.Finished?, prompts;
      }
      current := next;
      HereIsValid(ctx, current);
    }
    TurnUnfolds(Here(ctx, current), rounds, |rounds|);
    assert sent + [] == sent;
    ReadyIsReusable(ctx, current);
    ReusableIsIdle(ctx);
    return true, prompts;
  }

  lemma {:induction false} HereIsValid(ctx: PipelineContext, grounding: seq<Message>)
    requires Ready(ctx, grounding)
    ensures Here(ctx, grounding).Valid() && ctx.tape.Valid()
  {
  }

  lemma {:induction false} ReusableIsIdle(ctx: PipelineContext)
    requires Reusable(ctx)
    ensures Idle(ctx)
  {
  }

  // ---------- Turns ----------

  lemma {:induction false} InputResumes(entries: seq<Entry>, n: nat, windowStart: nat, input: Entry)
    requires Resumes(entries, n, windowStart) && input.body.Text? && !input.skipContext
    ensures Resumes(entries + [input], n, windowStart)
  {
    assert (entries + [input])[..n] == entries[..n];
    assert (entries + [input])[n..] == entries[n..] + [input];
  }

  lemma {:induction false} InputIsReusable(ctx: PipelineContext, before: seq<Entry>, input: Entry)
    requires ctx.Consistent() && ctx.tape.windowStart <= |before|
    requires ctx.tape.entries == before + [input]
    requires input.body.Text? && Closes(input)
    requires ctx.entryCount > 0 && !ctx.requiresFullRebuild ==>
               ctx.windowStart == ctx.tape.windowStart && Resumes(before, ctx.entryCount, ctx.windowStart)
    ensures Reusable(ctx)
  {
    ClosingEntrySettles(before, input, ctx.tape.windowStart);
    if ctx.entryCount > 0 && !ctx.requiresFullRebuild {
      InputResumes(before, ctx.entryCount, ctx.windowStart, input);
    }
  }

  /** `_stage_save_state`: a hook that writes to the tape forces the next build to be a full one. */
  method SaveState(ctx: PipelineContext, writes: seq<Entry>)
    requires Idle(ctx)
    modifies ctx, ctx.tape`entries
    ensures Idle(ctx) && ctx.tape.entries == old(ctx.tape.entries) + writes
  {
    var before := ctx.tape.entries;
    ctx.tape.AppendAll(writes);
    if |ctx.tape.entries| != |before| {
      ctx.requiresFullRebuild := true;
    } else {
      assert ctx.tape.entries == before;
    }
  }

  /** The user message goes to the tape. */
  method AcceptInput(ctx: PipelineContext, input: Entry)
    requires Idle(ctx) && input.body.Text? && Closes(input)
    modifies ctx.tape`entries
    ensures ctx.tape.entries == old(ctx.tape.entries) + [input] && ctx.tape.windowStart <= |old(ctx.tape.entries)|
    ensures Reusable(ctx)
  {
    ghost var before := ctx.tape.entries;
    ctx.tape.Append(input);
    CacheOutlivesAppend(ctx, before);
    InputIsReusable(ctx, before, input);
  }

  method RunTurn(ctx: PipelineContext, turn: Turn) returns (completed: bool, prompts: seq<seq<Message>>)
    requires Idle(ctx) && SoundTurn(turn)
    modifies ctx, ctx.tape
    ensures ctx.tape.Valid() && old(ctx.tape.windowStart) <= |old(ctx.tape.entries)|
    ensures var p := StartOfTurn(old(ctx.tape.entries), old(ctx.tape.windowStart), turn);
      && prompts == Requests(ctx.prompt, TurnRequests(p, turn.rounds))
      && (completed <==> EndOfTurn(p, turn.rounds).Stopped?)
      && (completed ==>
            && ctx.tape.entries == EndOfTurn(p, turn.rounds).entries + turn.checkpointWrites
            && ctx.tape.windowStart == EndOfTurn(p, turn.rounds).windowStart)
    ensures completed ==> Idle(ctx)
  {
    hide EndOfTurn, TurnRequests, Ready, Reusable, Idle, Requests, Closes;
    AcceptInput(ctx, turn.input);
    ghost var start := StartOfTurn(old(ctx.tape.entries), old(ctx.tape.windowStart), turn);
    Refresh(ctx, turn.advice, turn.grounding);
    assert Here(ctx, turn.grounding) == start;
    completed, prompts := RunModel(ctx, turn.rounds, turn.grounding);
    if completed {
      SaveState(ctx, turn.checkpointWrites);
    }
  }

  /**
   Over any number of turns, with any mix of rejected, executed, batched and failing tool calls,
   window moves, steering messages and changing grounding: the requests sent to the model are
   exactly those of the reference that rebuilds each one from the session's own tape, whether the
   context is incremental or not and whatever the rebuild interval. When what tools and hooks write
   settles, on the whole tape or on what of it the model sees, each tool call on the tapes that they
   were built from has exactly one result after it there.
   */
  method RunTurns(prompt: string, incremental: bool, interval: int, turns: seq<Turn>)
      returns (completed: nat, prompts: seq<seq<Message>>)
    requires forall k :: 0 <= k < |turns| ==> SoundTurn(turns[k])
    ensures prompts == Requests(prompt, SessionRequests([], 0, turns))
    ensures completed == CompletedTurns([], 0, turns)
    ensures forall whole: bool :: SessionSettles([], 0, turns, whole) ==>
      forall k :: 0 <= k < |prompts| ==> PairedAs(SessionRequests([], 0, turns)[k].entries, whole)
    ensures SessionSettles([], 0, turns, false) ==> EachAnswersItsCalls(prompts, SessionRequests([], 0, turns))
  {
    hide TurnRequests, EndOfTurn, StartOfTurn, Request, Requests, PairedAs, SoundTurn;
    hide SessionRequests, CompletedTurns, SessionSettles, Idle, EachAnswersItsCalls;
    if SessionSettles([], 0, turns, false) {
      SessionAnswersItsCalls(prompt, turns);
    }
    forall whole: bool | SessionSettles([], 0, turns, whole)
      ensures forall k :: 0 <= k < |SessionRequests([], 0, turns)| ==>
        PairedAs(SessionRequests([], 0, turns)[k].entries, whole)
    {
      SessionStartsPaired(whole);
      SessionAsksPaired([], 0, turns, whole);
    }
    var ctx := NewSession(prompt, incremental, interval);
    var tape := ctx.tape;
    prompts, completed := [], 0;
    ghost var sent: seq<Position> := [];
    assert turns[0..] == turns && [] + SessionRequests([], 0, turns) == SessionRequests([], 0, turns);
    while completed < |turns|
      invariant ctx.tape == tape && ctx.prompt == prompt && fresh(ctx) && fresh(tape)
      invariant Idle(ctx) && tape.windowStart <= |tape.entries|
      invariant completed <= |turns|
      invariant forall k :: 0 <= k < |sent| ==> sent[k].Valid()
      invariant prompts == Requests(prompt, sent)
      invariant SessionRequests([], 0, turns)
             == sent + SessionRequests(tape.entries, tape.windowStart, turns[completed..])
      invariant CompletedTurns([], 0, turns)
             == completed + CompletedTurns(tape.entries, tape.windowStart, turns[completed..])
    {
      var turn := turns[completed];
      SessionUnfolds(tape.entries, tape.windowStart, turns, completed);
      ghost var more := TurnRequests(StartOfTurn(tape.entries, tape.windowStart, turn), turn.rounds);
      var done, requests := RunTurn(ctx, turn);
      RequestsJoin(prompt, sent, more);
      prompts, sent := prompts + requests, sent + more;
      if !done {
        return;
      }
      completed := completed + 1;
    }
    SessionUnfolds(tape.entries, tape.windowStart, turns, completed);
    assert sent + [] == sent;
  }

  /** Each of these requests, sent from these positions, answers the calls that it shows. */
  ghost predicate EachAnswersItsCalls(requests: seq<seq<Message>>, sent: seq<Position>) {
    && |requests| == |sent|
    && forall k :: 0 <= k < |sent| ==>
         sent[k].Valid()
         && (ContextContents.Plain(sent[k].entries, sent[k].windowStart, sent[k].grounding) ==>
               ContextContents.AnswersItsCalls(requests[k], sent[k].entries))
  }

  /** The model never sees a call without its result, when what tools and hooks write settles where it looks. */
  lemma {:induction false} SessionAnswersItsCalls(prompt: string, turns: seq<Turn>)
    requires forall k :: 0 <= k < |turns| ==> SoundTurn(turns[k])
    requires SessionSettles([], 0, turns, false)
    ensures EachAnswersItsCalls(Requests(prompt, SessionRequests([], 0, turns)), SessionRequests([], 0, turns))
  {
    hide SessionRequests, SessionSettles, PairedAs, SoundTurn, ContextContents.Plain;
    hide ContextContents.AnswersItsCalls, Compose, Core;
    var sent := SessionRequests([], 0, turns);
    SessionStartsPaired(false);
    SessionAsksPaired([], 0, turns, false);
    forall k | 0 <= k < |sent| && ContextContents.Plain(sent[k].entries, sent[k].windowStart, sent[k].grounding)
      ensures ContextContents.AnswersItsCalls(Requests(prompt, sent)[k], sent[k].entries)
    {
      ContextContents.PairedTapeIsAnswered(prompt, sent[k].entries, sent[k].windowStart, sent[k].grounding);
    }
  }

  method NewSession(prompt: string, incremental: bool, interval: int) returns (ctx: PipelineContext)
    ensures fresh(ctx) && fresh(ctx.tape) && ctx.prompt == prompt
    ensures ctx.tape.entries == [] && ctx.tape.windowStart == 0 && Idle(ctx)
  {
    var tape := new Tape([], 0);
    ctx := new PipelineContext(prompt, incremental, interval, tape);
  }

  lemma {:induction false} SessionUnfolds(entries: seq<Entry>, windowStart: nat, turns: seq<Turn>, i: nat)
    requires windowStart <= |entries| && i <= |turns|
    ensures i == |turns| ==>
      SessionRequests(entries, windowStart, turns[i..]) == [] && CompletedTurns(entries, windowStart, turns[i..]) == 0
    ensures i < |turns| ==>
      var p := StartOfTurn(entries, windowStart, turns[i]);
      var asked, e := TurnRequests(p, turns[i].rounds), EndOfTurn(p, turns[i].rounds);
      && (!e.Stopped? ==> SessionRequests(entries, windowStart, turns[i..]) == asked)
      && (!e.Stopped? ==> CompletedTurns(entries, windowStart, turns[i..]) == 0)
      && (e.Stopped? ==>
            var after := e.entries + turns[i].checkpointWrites;
            && SessionRequests(entries, windowStart, turns[i..])
               == asked + SessionRequests(after, e.windowStart, turns[i + 1..])
            && CompletedTurns(entries, windowStart, turns[i..])
               == 1 + CompletedTurns(after, e.windowStart, turns[i + 1..]))
  {
    hide StartOfTurn, TurnRequests, EndOfTurn;
    if i < |turns| {
      assert turns[i..][0] == turns[i] && turns[i..][1..] == turns[i + 1..];
    }
  }

  lemma {:induction false} SessionStartsPaired(whole: bool)
    ensures PairedAs([], whole)
  {
  }
}

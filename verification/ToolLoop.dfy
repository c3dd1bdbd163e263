/**
 The rounds of one turn: the model answers, its tool calls are validated, approved and executed,
 and every call gets its result on the tape (`Pipeline._stage_run_model`, `Toolset.execute_tools`).
 What the provider, the hooks and the tools answer is given by a script.
 */
module ToolLoop {
  import opened Wrappers
  import opened TapeModel
  import opened ContextBuilder
  import opened IncrementalContext
  import opened SettledTape
  import opened ToolPairing

  // ---------- Executing calls ----------

  datatype Answer = Value(text: string) | Raised(error: string) | Unhandled | Fatal(error: string)

  datatype BatchAnswer =
    | Declined
    | NotAList
    | BatchRaised(error: string)
    | BatchFatal(error: string)
    | Answers(results: seq<Answer>)

  datatype Outcome = Outcome(callId: string, content: string)

  predicate IsProxy(name: string) {
    name == "search_tools" || name == "call_tool"
  }

  function ErrorContent(name: string, error: string): string {
    "Error executing tool '" + name + "': " + error
  }

  /** `_envelope_raw_result`: a fatal error leaves the turn, any other answer becomes a result. */
  function Envelope(call: Call, answer: Answer): Result<Outcome> {
    match answer
    case Value(text) => Ok(Outcome(call.id, text))
    case Raised(error) => Ok(Outcome(call.id, ErrorContent(call.name, error)))
    case Unhandled => Ok(Outcome(call.id, ErrorContent(call.name, "tool '" + call.name + "' not found")))
    case Fatal(error) => Err(error)
  }

  /** One result per call, in the order of the calls. */
  predicate Answered(calls: seq<Call>, outcomes: seq<Outcome>) {
    |outcomes| == |calls| && forall i :: 0 <= i < |calls| ==> outcomes[i].callId == calls[i].id
  }

  /** The results of a list of answers; the first fatal answer leaves the turn. */
  function Enveloped(calls: seq<Call>, answers: seq<Answer>): (r: Result<seq<Outcome>>)
    requires |answers| == |calls|
    ensures r.Ok? ==> Answered(calls, r.value)
  {
    if calls == [] then Ok([])
    else
      match Envelope(calls[0], answers[0])
      case Err(error) => Err(error)
      case Ok(outcome) =>
        match Enveloped(calls[1..], answers[1..])
        case Err(error) => Err(error)
        case Ok(rest) => Ok([outcome] + rest)
  }

  function Joined(front: seq<Outcome>, r: Result<seq<Outcome>>): Result<seq<Outcome>> {
    match r
    case Err(error) => Err(error)
    case Ok(rest) => Ok(front + rest)
  }

  method EnvelopeAll(calls: seq<Call>, answers: seq<Answer>) returns (r: Result<seq<Outcome>>)
    requires |answers| == |calls|
    ensures r == Enveloped(calls, answers)
  {
    var outcomes: seq<Outcome> := [];
    assert calls[0..] == calls && answers[0..] == answers;
    JoinedToNothing(Enveloped(calls, answers));
    for i := 0 to |calls|
      invariant Joined(outcomes, Enveloped(calls[i..], answers[i..])) == Enveloped(calls, answers)
    {
      EnvelopedOneMore(calls, answers, i, outcomes);
      var outcome := Envelope(calls[i], answers[i]);
      if outcome.Err? {
        return Err(outcome.error);
      }
      outcomes := outcomes + [outcome.value];
    }
    assert outcomes + [] == outcomes;
    return Ok(outcomes);
  }

  lemma {:induction false} JoinedToNothing(r: Result<seq<Outcome>>)
    ensures Joined([], r) == r
  {
    assert r.Ok? ==> [] + r.value == r.value;
  }

  lemma {:induction false} EnvelopedOneMore(calls: seq<Call>, answers: seq<Answer>, i: nat, front: seq<Outcome>)
    requires |answers| == |calls| && i < |calls|
    ensures var outcome, all := Envelope(calls[i], answers[i]), Joined(front, Enveloped(calls[i..], answers[i..]));
      && (outcome.Err? ==> all == Err(outcome.error))
      && (outcome.Ok? ==> all == Joined(front + [outcome.value], Enveloped(calls[i + 1..], answers[i + 1..])))
  {
    assert calls[i..][1..] == calls[i + 1..] && answers[i..][1..] == answers[i + 1..];
    var outcome, rest := Envelope(calls[i], answers[i]), Enveloped(calls[i + 1..], answers[i + 1..]);
    if outcome.Ok? && rest.Ok? {
      assert front + ([outcome.value] + rest.value) == (front + [outcome.value]) + rest.value;
    }
  }

  /** An execution returns exactly when no answer is fatal, and then the `i`-th result is the `i`-th answer's. */
  lemma {:induction false} EnvelopedMeans(calls: seq<Call>, answers: seq<Answer>)
    requires |answers| == |calls|
    ensures var r := Enveloped(calls, answers);
      && (r.Ok? <==> forall i :: 0 <= i < |calls| ==> !answers[i].Fatal?)
      && (r.Ok? ==> forall i :: 0 <= i < |calls| ==> Envelope(calls[i], answers[i]) == Ok(r.value[i]))
  {
    if calls != [] {
      EnvelopedMeans(calls[1..], answers[1..]);
      if answers[0].Fatal? {
        assert !(forall i :: 0 <= i < |calls| ==> !answers[i].Fatal?);
      } else {
        assert (forall i :: 0 <= i < |calls| ==> !answers[i].Fatal?)
          <==> (forall i :: 0 <= i < |calls[1..]| ==> !answers[1..][i].Fatal?) by {
          assert forall i :: 0 < i < |calls| ==> answers[i] == answers[1..][i - 1];
        }
      }
    }
  }

  function ErrorOutcomes(calls: seq<Call>, error: string): (outcomes: seq<Outcome>)
    ensures Answered(calls, outcomes)
    ensures forall i :: 0 <= i < |calls| ==> outcomes[i].content == ErrorContent(calls[i].name, error)
  {
    seq(|calls|, i requires 0 <= i < |calls| => Outcome(calls[i].id, ErrorContent(calls[i].name, error)))
  }

  /** What one batch hook that does not decline makes of the calls. */
  function Decided(calls: seq<Call>, hook: BatchAnswer): (r: Result<seq<Outcome>>)
    requires !hook.Declined?
    ensures r.Ok? ==> Answered(calls, r.value)
  {
    match hook
    case NotAList => Ok(ErrorOutcomes(calls, "execute_tools_batch returned another type, expected list"))
    case BatchRaised(error) => Ok(ErrorOutcomes(calls, error))
    case BatchFatal(error) => Err(error)
    case Answers(results) =>
      if |results| != |calls| then Err("execute_tools_batch returned another number of results")
      else Enveloped(calls, results)
  }

  /** `None` when every batch hook declines; the first hook that does not decline decides. */
  function Batch(calls: seq<Call>, hooks: seq<BatchAnswer>): Option<Result<seq<Outcome>>> {
    if hooks == [] then None
    else if hooks[0].Declined? then Batch(calls, hooks[1..])
    else Some(Decided(calls, hooks[0]))
  }

  lemma {:induction false} FirstHookDecides(calls: seq<Call>, hooks: seq<BatchAnswer>, k: nat)
    requires k <= |hooks| && forall i :: 0 <= i < k ==> hooks[i].Declined?
    ensures k < |hooks| && !hooks[k].Declined? ==> Batch(calls, hooks) == Some(Decided(calls, hooks[k]))
    ensures k == |hooks| ==> Batch(calls, hooks) == None
  {
    if k > 0 {
      FirstHookDecides(calls, hooks[1..], k - 1);
    }
  }

  method ExecuteBatch(calls: seq<Call>, hooks: seq<BatchAnswer>) returns (r: Option<Result<seq<Outcome>>>)
    ensures r == Batch(calls, hooks)
  {
    for i := 0 to |hooks|
      invariant forall j :: 0 <= j < i ==> hooks[j].Declined?
    {
      if !hooks[i].Declined? {
        FirstHookDecides(calls, hooks, i);
        match hooks[i] {
          case NotAList =>
            return Some(Ok(ErrorOutcomes(calls, "execute_tools_batch returned another type, expected list")));
          case BatchRaised(error) =>
            return Some(Ok(ErrorOutcomes(calls, error)));
          case BatchFatal(error) =>
            return Some(Err(error));
          case Answers(results) =>
            if |results| != |calls| {
              return Some(Err("execute_tools_batch returned another number of results"));
            }
            var outcomes := EnvelopeAll(calls, results);
            return Some(outcomes);
        }
      }
    }
    FirstHookDecides(calls, hooks, |hooks|);
    return None;
  }

  /** The single executions answer the calls one by one; a call without an answer is unhandled. */
  function Each(calls: seq<Call>, answers: seq<Answer>): (each: seq<Answer>)
    ensures |each| == |calls|
  {
    seq(|calls|, i => if 0 <= i < |answers| then answers[i] else Unhandled)
  }

  predicate Batched(calls: seq<Call>) {
    |calls| > 1 && !(exists i :: 0 <= i < |calls| && IsProxy(calls[i].name))
  }

  /** What `execute_tools` gives: the batch hooks' decision, or else one execution per call. */
  function Execution(calls: seq<Call>, hooks: seq<BatchAnswer>, answers: seq<Answer>): Result<seq<Outcome>> {
    if Batched(calls) && Batch(calls, hooks).Some? then Batch(calls, hooks).value
    else Enveloped(calls, Each(calls, answers))
  }

  /** Whatever the hooks answer, an execution that returns has one result per call, in order. */
  lemma {:induction false} ExecutionAnswers(calls: seq<Call>, hooks: seq<BatchAnswer>, answers: seq<Answer>)
    ensures var r := Execution(calls, hooks, answers); r.Ok? ==> Answered(calls, r.value)
  {
    var k := 0;
    while k < |hooks| && hooks[k].Declined?
      invariant k <= |hooks| && forall i :: 0 <= i < k ==> hooks[i].Declined?
    {
      k := k + 1;
    }
    FirstHookDecides(calls, hooks, k);
  }

  /** `execute_tools`. */
  method ExecuteTools(calls: seq<Call>, hooks: seq<BatchAnswer>, answers: seq<Answer>)
      returns (r: Result<seq<Outcome>>)
    ensures r == Execution(calls, hooks, answers)
    ensures r.Ok? ==> Answered(calls, r.value)
  {
    ExecutionAnswers(calls, hooks, answers);
    if |calls| > 1 && !(exists i :: 0 <= i < |calls| && IsProxy(calls[i].name)) {
      var batch := ExecuteBatch(calls, hooks);
      if batch.Some? {
        return batch.value;
      }
    }
    r := EnvelopeAll(calls, Each(calls, answers));
  }

  // ---------- The script of a turn ----------

  datatype Verdict = Invalid(message: string) | Denied(reason: string) | Cleared

  datatype Step = Step(call: Call, verdict: Verdict)

  /** What one round meets: runtime messages, the model's answer, hooks and tools. */
  datatype Round = Round(
    interruptedBefore: bool, steered: bool, adviceBefore: WindowAdvice, groundingBefore: seq<Message>,
    text: Option<string>, thinking: string, steps: seq<Step>,
    interruptedAfter: bool, hooks: seq<BatchAnswer>, answers: seq<Answer>, hookWrites: seq<Entry>,
    adviceAfter: WindowAdvice, groundingAfter: seq<Message>)

  function TextEntry(content: string, reasoning: string): Entry {
    Entry(Text("assistant", content, reasoning), false, false, false)
  }

  function CallEntry(call: Call, reasoning: string): Entry {
    Entry(ToolCalls("assistant", [call], reasoning), false, false, false)
  }

  function ResultEntry(callId: string, content: string): Entry {
    Entry(ToolResult(callId, content), false, false, false)
  }

  /** A summary anchor is an anchor that shows; the window plugin builds no other. */
  predicate SoundAdvice(advice: WindowAdvice) {
    advice.Advised? && advice.anchor.Some? ==> advice.anchor.value.body.AnchorBody? && Closes(advice.anchor.value)
  }

  /** What tools and hooks write to the tape while tools run: calls and results too, but no handoff anchors. */
  predicate SoundWrites(writes: seq<Entry>) {
    forall e :: e in writes ==> !IsHandoffAnchor(e)
  }

  predicate SoundRound(round: Round) {
    SoundAdvice(round.adviceBefore) && SoundAdvice(round.adviceAfter) && SoundWrites(round.hookWrites)
  }

  // ---------- The conditions that the loop keeps ----------

  /** Between turns: what a later build reuses is in step. */
  ghost predicate Idle(ctx: PipelineContext)
    reads ctx, ctx.tape
  {
    && ctx.Consistent()
    && (ctx.entryCount > 0 && !ctx.requiresFullRebuild ==>
          ctx.windowStart == ctx.tape.windowStart && Resumes(ctx.tape.entries, ctx.entryCount, ctx.windowStart))
  }

  /** A build may start: the tape also ends with a closing entry. */
  ghost predicate Reusable(ctx: PipelineContext)
    reads ctx, ctx.tape
  {
    Idle(ctx) && Sound(ctx.tape.entries, ctx.tape.windowStart)
  }

  predicate StartsClean(added: seq<Entry>) {
    && (added != [] ==> StartsTurn(added[0]))
    && forall e :: e in added ==> !IsHandoffAnchor(e)
  }

  /** The request messages are those of a full rebuild. */
  ghost predicate Ready(ctx: PipelineContext, grounding: seq<Message>)
    reads ctx, ctx.tape
  {
    && ctx.Consistent() && !ctx.requiresFullRebuild
    && ctx.messages == Fresh(ctx.prompt, ctx.tape.entries, ctx.tape.windowStart, grounding).messages
    && (ctx.entryCount == 0
        || ctx.Cached() == Fresh(ctx.prompt, ctx.tape.entries, ctx.tape.windowStart, grounding))
    && Sound(ctx.tape.entries, ctx.tape.windowStart)
  }

  lemma {:induction false} ReadyIsReusable(ctx: PipelineContext, grounding: seq<Message>)
    requires Ready(ctx, grounding)
    ensures Reusable(ctx)
  {
    if ctx.entryCount > 0 {
      assert ctx.tape.entries[..ctx.entryCount] == ctx.tape.entries;
    }
  }

  /** A tape that every build may start from. */
  ghost predicate Sound(entries: seq<Entry>, windowStart: nat) {
    windowStart <= |entries| && SettledAt(entries, windowStart)
  }

  lemma {:induction false} AnchorKeepsSound(entries: seq<Entry>, windowStart: nat, anchor: Entry, start: nat)
    requires Sound(entries, windowStart)
    requires 0 < start <= |entries| - windowStart
    requires anchor.body.AnchorBody? && Closes(anchor)
    ensures Sound(entries + [anchor], windowStart + start)
  {
    AnchorSettles(entries, windowStart, anchor, start);
  }

  /** What is new since the last build does not disturb what was built. */
  ghost predicate Resumes(entries: seq<Entry>, n: nat, windowStart: nat) {
    && windowStart <= n <= |entries|
    && Settled(View(entries[..n], windowStart))
    && StartsClean(entries[n..])
  }

  lemma {:induction false} ResumedBuildIsClean(entries: seq<Entry>, n: nat, windowStart: nat)
    requires Resumes(entries, n, windowStart)
    ensures ViewAppends(entries, n, windowStart)
    ensures CleanBoundary(View(entries[..n], windowStart), entries[n..])
  {
    SettledIsClean(View(entries[..n], windowStart), entries[n..]);
  }

  /** A build from a reusable cache equals the full rebuild. */
  method Refresh(ctx: PipelineContext, advice: WindowAdvice, grounding: seq<Message>)
    requires Reusable(ctx) && SoundAdvice(advice)
    modifies ctx, ctx.tape
    ensures Ready(ctx, grounding)
    ensures ctx.Cached() == Fresh(ctx.prompt, ctx.tape.entries, ctx.tape.windowStart, grounding)
    ensures var moved := MovesWindow(advice, old(ctx.tape.entries), old(ctx.tape.windowStart));
      && ctx.tape.entries == (if moved then old(ctx.tape.entries) + [advice.anchor.value] else old(ctx.tape.entries))
      && ctx.tape.windowStart == (if moved then old(ctx.tape.windowStart) + advice.start else old(ctx.tape.windowStart))
    ensures ctx.toolRounds == old(ctx.toolRounds)
  {
    hide Closes, SettledAt, CleanBoundary, Core, Compose;
    ghost var entries, start := ctx.tape.entries, ctx.tape.windowStart;
    if ctx.entryCount > 0 && !ctx.requiresFullRebuild {
      ResumedBuildIsClean(entries, ctx.entryCount, ctx.windowStart);
    }
    if MovesWindow(advice, entries, start) {
      AnchorKeepsSound(entries, start, advice.anchor.value, advice.start);
    }
    ctx.BuildContext(advice, grounding);
    FreshIsSynced(ctx, grounding);
  }

  lemma {:induction false} FreshIsSynced(ctx: PipelineContext, grounding: seq<Message>)
    requires ctx.tape.Valid() && ctx.interval > 0
    requires ctx.Cached() == Fresh(ctx.prompt, ctx.tape.entries, ctx.tape.windowStart, grounding)
    ensures ctx.Consistent()
  {
    assert ctx.tape.entries[..ctx.entryCount] == ctx.tape.entries;
  }

  // ---------- One round ----------

  function Rejection(step: Step): seq<Entry> {
    match step.verdict
    case Invalid(message) => [ResultEntry(step.call.id, "Tool call validation failed: " + message)]
    case Denied(reason) => [ResultEntry(step.call.id, "Tool call rejected: " + reason)]
    case Cleared => []
  }

  function StepEntries(step: Step, reasoning: string): seq<Entry> {
    [CallEntry(step.call, reasoning)] + Rejection(step)
  }

  /** The entries of the proposed calls; a rejected call gets its result at once. */
  function CallEntries(steps: seq<Step>, reasoning: string): seq<Entry> {
    if steps == [] then [] else StepEntries(steps[0], reasoning) + CallEntries(steps[1..], "")
  }

  function Executable(steps: seq<Step>): seq<Call> {
    if steps == [] then []
    else (if steps[0].verdict.Cleared? then [steps[0].call] else []) + Executable(steps[1..])
  }

  method RecordCall(tape: Tape, step: Step, reasoning: string)
    requires tape.Valid()
    modifies tape`entries
    ensures tape.Valid() && tape.entries == old(tape.entries) + StepEntries(step, reasoning)
  {
    tape.Append(CallEntry(step.call, reasoning));
    match step.verdict {
      case Invalid(message) =>
        tape.Append(ResultEntry(step.call.id, "Tool call validation failed: " + message));
      case Denied(reason) =>
        tape.Append(ResultEntry(step.call.id, "Tool call rejected: " + reason));
      case Cleared =>
    }
  }

  lemma {:induction false} RecordedOne(before: seq<Entry>, steps: seq<Step>, i: nat, reasoning: string)
    requires i < |steps|
    ensures before + CallEntries(steps[i..], reasoning)
         == (before + StepEntries(steps[i], reasoning)) + CallEntries(steps[i + 1..], "")
    ensures Executable(steps[i..])
         == (if steps[i].verdict.Cleared? then [steps[i].call] else []) + Executable(steps[i + 1..])
  {
    assert steps[i..][1..] == steps[i + 1..];
  }

  /** The loop over the model's tool calls. */
  method RecordCalls(tape: Tape, steps: seq<Step>, reasoning: string) returns (executable: seq<Call>)
    requires tape.Valid()
    modifies tape`entries
    ensures tape.Valid()
    ensures tape.entries == old(tape.entries) + CallEntries(steps, reasoning)
    ensures executable == Executable(steps)
  {
    hide CallEntries, Executable, StepEntries;
    executable := [];
    var i := 0;
    assert steps[0..] == steps && [] + Executable(steps) == Executable(steps);
    while i < |steps|
      invariant 0 <= i <= |steps| && tape.Valid()
      invariant tape.entries + CallEntries(steps[i..], if i == 0 then reasoning else "")
             == old(tape.entries) + CallEntries(steps, reasoning)
      invariant executable + Executable(steps[i..]) == Executable(steps)
    {
      var thinking := if i == 0 then reasoning else "";
      RecordedOne(tape.entries, steps, i, thinking);
      RecordCall(tape, steps[i], thinking);
      if steps[i].verdict.Cleared? {
        executable := executable + [steps[i].call];
      }
      i := i + 1;
    }
    assert steps[i..] == [];
    NothingRecorded(tape.entries, executable, if i == 0 then reasoning else "");
  }

  lemma {:induction false} NothingRecorded(entries: seq<Entry>, executable: seq<Call>, reasoning: string)
    ensures entries + CallEntries([], reasoning) == entries && executable + Executable([]) == executable
  {
  }

  function ResultEntries(outcomes: seq<Outcome>): (entries: seq<Entry>)
    ensures |entries| == |outcomes|
    ensures forall i :: 0 <= i < |outcomes| ==> entries[i] == ResultEntry(outcomes[i].callId, outcomes[i].content)
  {
    seq(|outcomes|, i requires 0 <= i < |outcomes| => ResultEntry(outcomes[i].callId, outcomes[i].content))
  }

  lemma {:induction false} PendingSplits(calls: seq<Call>)
    requires calls != []
    ensures Pending(calls) == multiset{calls[0].id} + Pending(calls[1..])
  {
    assert Ids(calls) == [calls[0].id] + Ids(calls[1..]);
    assert multiset([calls[0].id]) == multiset{calls[0].id};
  }

  lemma {:induction false} PendingOfSteps(steps: seq<Step>)
    requires steps != []
    ensures Pending(Executable(steps))
         == (if steps[0].verdict.Cleared? then multiset{steps[0].call.id} else multiset{})
            + Pending(Executable(steps[1..]))
  {
    var rest := Executable(steps[1..]);
    if steps[0].verdict.Cleared? {
      PendingSplits([steps[0].call] + rest);
      assert ([steps[0].call] + rest)[1..] == rest;
    } else {
      assert [] + rest == rest;
    }
  }

  lemma {:induction false} StepOwes(step: Step, reasoning: string, pending: multiset<string>)
    ensures Debt(StepEntries(step, reasoning), pending)
         == Some(pending + if step.verdict.Cleared? then multiset{step.call.id} else multiset{})
  {
    PendingSplits([step.call]);
    assert [step.call][1..] == [] && Pending([]) == multiset{};
    assert Pending([step.call]) == multiset{step.call.id};
    var added := StepEntries(step, reasoning);
    assert added[1..] == Rejection(step);
    assert Debt(added, pending) == Debt(Rejection(step), pending + multiset{step.call.id});
    if !step.verdict.Cleared? {
      assert Rejection(step)[1..] == [];
      assert pending + multiset{step.call.id} - multiset{step.call.id} == pending + multiset{};
    }
  }

  /** After the loop over the calls, exactly the executable calls are unanswered. */
  lemma {:induction false} CallsOwed(steps: seq<Step>, reasoning: string, pending: multiset<string>)
    ensures Debt(CallEntries(steps, reasoning), pending) == Some(pending + Pending(Executable(steps)))
    decreases |steps|
  {
    if steps == [] {
      assert pending + Pending([]) == pending;
    } else {
      var own := if steps[0].verdict.Cleared? then multiset{steps[0].call.id} else multiset{};
      StepOwes(steps[0], reasoning, pending);
      CallsOwed(steps[1..], "", pending + own);
      PendingOfSteps(steps);
      DebtSplits(StepEntries(steps[0], reasoning), CallEntries(steps[1..], ""), pending);
      assert (pending + own) + Pending(Executable(steps[1..])) == pending + Pending(Executable(steps));
    }
  }

  /** The results of an execution leave nothing unanswered exactly when its own calls are all that is owed. */
  lemma {:induction false} ResultsPayExactly(calls: seq<Call>, outcomes: seq<Outcome>, owed: multiset<string>)
    requires Answered(calls, outcomes)
    ensures Debt(ResultEntries(outcomes), owed) == Some(multiset{}) <==> owed == Pending(calls)
    decreases |calls|
  {
    if calls != [] {
      PendingSplits(calls);
      hide Pending;
      var id, entries := calls[0].id, ResultEntries(outcomes);
      assert ResultEntries(outcomes[1..]) == entries[1..];
      assert Debt(entries, owed) == if id in owed then Debt(entries[1..], owed - multiset{id}) else None;
      hide Debt, ResultEntries, Answered;
      OneOwedLess(id, Pending(calls[1..]), owed);
      assert Answered(calls[1..], outcomes[1..]) by { AnsweredRest(calls, outcomes); }
      ResultsPayExactly(calls[1..], outcomes[1..], owed - multiset{id});
    }
  }

  lemma {:induction false} OneOwedLess(id: string, rest: multiset<string>, owed: multiset<string>)
    ensures owed == multiset{id} + rest <==> id in owed && owed - multiset{id} == rest
  {
    if id in owed {
      assert multiset{id} + (owed - multiset{id}) == owed;
    }
    assert (multiset{id} + rest) - multiset{id} == rest;
  }

  lemma {:induction false} AnsweredRest(calls: seq<Call>, outcomes: seq<Outcome>)
    requires calls != [] && Answered(calls, outcomes)
    ensures Answered(calls[1..], outcomes[1..])
  {
  }

  /** The entries of the calls start a turn, and end with a result when no call is executable. */
  lemma {:induction false} CallEntriesShape(steps: seq<Step>, reasoning: string)
    requires steps != []
    ensures var added := CallEntries(steps, reasoning);
      && added != []
      && StartsClean(added)
      && (Executable(steps) == [] ==> added[|added| - 1].body.ToolResult? && Closes(added[|added| - 1]))
    decreases |steps|
  {
    if steps[1..] != [] {
      CallEntriesShape(steps[1..], "");
    }
  }

  /**
   Everything a round with tool calls appends: the text, the calls with the results of the
   rejected ones, what hooks wrote, and the results of the executed ones.
   */
  function RoundEntries(round: Round, outcomes: seq<Outcome>): seq<Entry> {
    TextPart(round)
    + CallEntries(round.steps, if round.text.Some? then "" else round.thinking)
    + (if Executable(round.steps) == [] then [] else round.hookWrites + ResultEntries(outcomes))
  }

  function TextPart(round: Round): seq<Entry> {
    if round.text.Some? then [TextEntry(round.text.value, round.thinking)] else []
  }

  /** What is written while tools run leaves the calls of the round owed, and nothing else. */
  predicate Settles(round: Round, whole: bool) {
    var owed := Pending(Executable(round.steps));
    Executable(round.steps) != [] ==> Debt(Seen(round.hookWrites, whole), owed) == Some(owed)
  }

  lemma {:induction false} CallEntriesVisible(steps: seq<Step>, reasoning: string)
    ensures forall e :: e in CallEntries(steps, reasoning) ==> !e.skipContext
    decreases |steps|
  {
    if steps != [] {
      CallEntriesVisible(steps[1..], "");
    }
  }

  /** The loop itself writes nothing hidden, so only the writes of tools and hooks may differ. */
  lemma {:induction false} RoundSeen(round: Round, outcomes: seq<Outcome>, whole: bool)
    ensures Seen(RoundEntries(round, outcomes), whole)
         == RoundEntries(round.(hookWrites := Seen(round.hookWrites, whole)), outcomes)
  {
    var front := TextPart(round) + CallEntries(round.steps, if round.text.Some? then "" else round.thinking);
    CallEntriesVisible(round.steps, if round.text.Some? then "" else round.thinking);
    AllVisible(front);
    if Executable(round.steps) == [] {
      assert RoundEntries(round, outcomes) == front;
    } else {
      AllVisible(ResultEntries(outcomes));
      SeenJoins(round.hookWrites, ResultEntries(outcomes), whole);
      SeenJoins(front, round.hookWrites + ResultEntries(outcomes), whole);
      assert RoundEntries(round, outcomes) == front + (round.hookWrites + ResultEntries(outcomes));
    }
  }

  /**
   A whole round leaves no call unanswered, on the whole tape or on what of it the model sees,
   exactly when what is written while its tools run settles there.
   */
  lemma {:induction false} RoundPaysExactly(round: Round, outcomes: seq<Outcome>, whole: bool)
    requires Answered(Executable(round.steps), outcomes)
    ensures PairedAs(RoundEntries(round, outcomes), whole) <==> Settles(round, whole)
  {
    var reasoning := if round.text.Some? then "" else round.thinking;
    var text, calls := TextPart(round), CallEntries(round.steps, reasoning);
    var executable, writes := Executable(round.steps), Seen(round.hookWrites, whole);
    RoundSeen(round, outcomes, whole);
    NeutralKeepsDebt(text, multiset{});
    CallsOwed(round.steps, reasoning, multiset{});
    assert multiset{} + Pending(executable) == Pending(executable);
    DebtSplits(text, calls, multiset{});
    hide Pending, Debt, CallEntries, Executable, Seen, Answered;
    if executable == [] {
      assert RoundEntries(round.(hookWrites := writes), outcomes) == text + calls;
      assert Pending(executable) == multiset{} by { NothingPending(); }
    } else {
      assert RoundEntries(round.(hookWrites := writes), outcomes)
          == (text + calls) + (writes + ResultEntries(outcomes));
      DebtSplits(text + calls, writes + ResultEntries(outcomes), multiset{});
      DebtSplits(writes, ResultEntries(outcomes), Pending(executable));
      if Debt(writes, Pending(executable)).Some? {
        ResultsPayExactly(executable, outcomes, Debt(writes, Pending(executable)).value);
      }
    }
  }

  lemma {:induction false} NothingPending()
    ensures Pending([]) == multiset{}
  {
  }

  lemma {:induction false} RoundShape(round: Round, outcomes: seq<Outcome>)
    requires SoundRound(round) && round.steps != [] && Answered(Executable(round.steps), outcomes)
    ensures var added := RoundEntries(round, outcomes);
      && added != []
      && StartsClean(added)
      && added[|added| - 1].body.ToolResult? && Closes(added[|added| - 1])
  {
    var reasoning := if round.text.Some? then "" else round.thinking;
    var calls := CallEntries(round.steps, reasoning);
    hide Executable, Rejection;
    CallEntriesShape(round.steps, reasoning);
    var front := TextPart(round) + calls;
    assert forall e :: e in front ==> !IsHandoffAnchor(e);
    if Executable(round.steps) == [] {
      assert RoundEntries(round, outcomes) == front;
      assert front[|front| - 1] == calls[|calls| - 1];
    } else {
      var back := round.hookWrites + ResultEntries(outcomes);
      assert forall e :: e in back ==> !IsHandoffAnchor(e);
      assert RoundEntries(round, outcomes) == front + back;
      assert back != [] && back[|back| - 1] == ResultEntries(outcomes)[|outcomes| - 1];
    }
  }

  lemma {:induction false} ClosedTapeSettles(entries: seq<Entry>, windowStart: nat, added: seq<Entry>)
    requires windowStart <= |entries| && added != []
    requires Closes(added[|added| - 1]) && !IsHandoffAnchor(added[|added| - 1])
    ensures SettledAt(entries + added, windowStart)
  {
    hide SettledAt, Closes;
    var front, last := added[..|added| - 1], added[|added| - 1];
    ClosingEntrySettles(entries + front, last, windowStart);
    assert entries + front + [last] == entries + added;
  }

  lemma {:induction false} AppendedResumes(entries: seq<Entry>, windowStart: nat, added: seq<Entry>)
    requires windowStart <= |entries| && Settled(View(entries, windowStart)) && StartsClean(added)
    ensures Resumes(entries + added, |entries|, windowStart)
  {
    assert (entries + added)[..|entries|] == entries && (entries + added)[|entries|..] == added;
  }

  // ---------- The loop ----------

  datatype Flow = Continue | Finished | Failed

  /** The outcomes of a round's executable calls; `None` when the round raises. */
  function RoundOutcomes(round: Round): Option<seq<Outcome>> {
    var executable := Executable(round.steps);
    if executable == [] then Some([])
    else if round.interruptedAfter then None
    else
      match Execution(executable, round.hooks, round.answers)
      case Err(_) => None
      case Ok(outcomes) => Some(outcomes)
  }

  lemma {:induction false} RoundOutcomesAnswer(round: Round)
    ensures RoundOutcomes(round).Some? ==> Answered(Executable(round.steps), RoundOutcomes(round).value)
  {
    ExecutionAnswers(Executable(round.steps), round.hooks, round.answers);
  }

  lemma {:induction false} ResultsOneMore(before: seq<Entry>, outcomes: seq<Outcome>, i: nat)
    requires i < |outcomes|
    ensures before + ResultEntries(outcomes[..i + 1])
         == before + ResultEntries(outcomes[..i]) + [ResultEntry(outcomes[i].callId, outcomes[i].content)]
  {
    assert outcomes[..i + 1] == outcomes[..i] + [outcomes[i]];
    assert ResultEntries(outcomes[..i + 1])
        == ResultEntries(outcomes[..i]) + [ResultEntry(outcomes[i].callId, outcomes[i].content)];
  }

  method RecordResults(tape: Tape, outcomes: seq<Outcome>)
    requires tape.Valid()
    modifies tape`entries
    ensures tape.Valid() && tape.entries == old(tape.entries) + ResultEntries(outcomes)
  {
    hide ResultEntries, ResultEntry;
    ghost var before := tape.entries;
    NoResults(before);
    assert outcomes[..0] == [];
    for i := 0 to |outcomes|
      invariant tape.Valid() && tape.entries == before + ResultEntries(outcomes[..i])
    {
      ResultsOneMore(before, outcomes, i);
      tape.Append(ResultEntry(outcomes[i].callId, outcomes[i].content));
    }
    assert outcomes[..|outcomes|] == outcomes;
  }

  lemma {:induction false} NoResults(before: seq<Entry>)
    ensures before + ResultEntries([]) == before
  {
  }

  /** Executes the cleared calls and records their results after whatever the hooks wrote. */
  method ExecuteAndRecord(tape: Tape, calls: seq<Call>, round: Round) returns (r: Result<seq<Outcome>>)
    requires tape.Valid()
    modifies tape`entries
    ensures tape.Valid()
    ensures r == Execution(calls, round.hooks, round.answers)
    ensures r.Ok? ==> tape.entries == old(tape.entries) + (round.hookWrites + ResultEntries(r.value))
    ensures old(tape.entries) <= tape.entries
  {
    hide Execution, Answered;
    r := ExecuteTools(calls, round.hooks, round.answers);
    tape.AppendAll(round.hookWrites);
    if r.Ok? {
      RecordResults(tape, r.value);
      assert tape.entries == old(tape.entries) + (round.hookWrites + ResultEntries(r.value));
    }
  }

  /** Records the model's answer and the outcome of its calls; `None` when the round raises. */
  method RecordRound(tape: Tape, round: Round) returns (r: Option<seq<Outcome>>, executable: seq<Call>, checkpoint: nat)
    requires tape.Valid() && round.steps != []
    modifies tape`entries
    ensures tape.Valid() && old(tape.entries) <= tape.entries
    ensures executable == Executable(round.steps)
    ensures r == RoundOutcomes(round)
    ensures r.Some? ==> tape.entries == old(tape.entries) + RoundEntries(round, r.value)
  {
    hide CallEntries, Executable, Execution;
    ghost var before := tape.entries;
    checkpoint := |tape.entries|;
    if round.text.Some? {
      tape.Append(TextEntry(round.text.value, round.thinking));
    }
    assert tape.entries == before + TextPart(round);
    executable := RecordCalls(tape, round.steps, if round.text.Some? then "" else round.thinking);
    if executable == [] {
      return Some([]), executable, checkpoint;
    }
    if round.interruptedAfter {
      return None, executable, checkpoint;
    }
    checkpoint := |tape.entries|;
    var outcomes := ExecuteAndRecord(tape, executable, round);
    if outcomes.Err? {
      return None, executable, checkpoint;
    }
    assert tape.entries == before + RoundEntries(round, outcomes.value);
    return Some(outcomes.value), executable, checkpoint;
  }

  /** The end of a round with tool calls: one more tool round, the build, and the check of the tape. */
  method FinishRound(ctx: PipelineContext, round: Round, executable: seq<Call>, checkpoint: nat)
    requires Reusable(ctx) && SoundRound(round)
    modifies ctx, ctx.tape
    ensures Ready(ctx, round.groundingAfter)
    ensures var moved := MovesWindow(round.adviceAfter, old(ctx.tape.entries), old(ctx.tape.windowStart));
      && ctx.tape.entries
         == (if moved then old(ctx.tape.entries) + [round.adviceAfter.anchor.value] else old(ctx.tape.entries))
      && ctx.tape.windowStart
         == (if moved then old(ctx.tape.windowStart) + round.adviceAfter.start else old(ctx.tape.windowStart))
  {
    if executable != [] {
      ctx.toolRounds := ctx.toolRounds + 1;
      assert Reusable(ctx);
    }
    Refresh(ctx, round.adviceAfter, round.groundingAfter);
    if executable != [] && |ctx.tape.entries| != checkpoint + |executable| {
      ctx.toolRounds := 0;
      ctx.entryCount := 0;
    }
  }
}

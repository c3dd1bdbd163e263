/**
 What the model reads about its tool calls: the content of every result, case by case, for calls that are
 executed one by one, for calls that a batch hook executes, and on the tape after a round.
 */
module ToolReports {
  import opened Wrappers
  import opened TapeModel
  import opened ToolLoop

  /** The content that a tool's answer to a call gives its result. */
  predicate Reports(call: Call, answer: Answer, content: string) {
    && !answer.Fatal?
    && (answer.Value? ==> content == answer.text)
    && (answer.Raised? ==> content == "Error executing tool '" + call.name + "': " + answer.error)
    && (answer.Unhandled? ==>
          content == "Error executing tool '" + call.name + "': tool '" + call.name + "' not found")
  }

  /** One result for each call, under its id, with the content that its answer gives. */
  predicate AllReport(calls: seq<Call>, answers: seq<Answer>, outcomes: seq<Outcome>)
    requires |answers| == |calls|
  {
    && |outcomes| == |calls|
    && forall i :: 0 <= i < |calls| ==>
         outcomes[i].callId == calls[i].id && Reports(calls[i], answers[i], outcomes[i].content)
  }

  /** Every call gets the same failure. */
  predicate AllFail(calls: seq<Call>, error: string, outcomes: seq<Outcome>) {
    && |outcomes| == |calls|
    && forall i :: 0 <= i < |calls| ==>
         && outcomes[i].callId == calls[i].id
         && outcomes[i].content == "Error executing tool '" + calls[i].name + "': " + error
  }

  /** Answer `i` is the first that is fatal. */
  predicate FirstFatal(answers: seq<Answer>, i: int) {
    0 <= i < |answers| && answers[i].Fatal? && forall j :: 0 <= j < i ==> !answers[j].Fatal?
  }

  /** The envelopes of a list of answers: all results, or the error of the first fatal answer. */
  lemma {:induction false} EnvelopesReport(calls: seq<Call>, answers: seq<Answer>)
    requires |answers| == |calls|
    ensures Enveloped(calls, answers).Ok? <==> forall i :: 0 <= i < |answers| ==> !answers[i].Fatal?
    ensures Enveloped(calls, answers).Ok? ==> AllReport(calls, answers, Enveloped(calls, answers).value)
    ensures forall i :: FirstFatal(answers, i) ==> Enveloped(calls, answers) == Err(answers[i].error)
  {
    hide Envelope, Enveloped, Reports;
    EnvelopedMeans(calls, answers);
    if Enveloped(calls, answers).Ok? {
      var outcomes := Enveloped(calls, answers).value;
      forall i | 0 <= i < |calls|
        ensures outcomes[i].callId == calls[i].id && Reports(calls[i], answers[i], outcomes[i].content)
      {
        OneReports(calls[i], answers[i], outcomes[i]);
      }
    }
    forall i | FirstFatal(answers, i) ensures Enveloped(calls, answers) == Err(answers[i].error) {
      FatalStops(calls, answers, i);
    }
  }

  lemma {:induction false} OneReports(call: Call, answer: Answer, outcome: Outcome)
    requires Envelope(call, answer) == Ok(outcome)
    ensures outcome.callId == call.id && Reports(call, answer, outcome.content)
  {
  }

  lemma {:induction false} FatalStops(calls: seq<Call>, answers: seq<Answer>, i: int)
    requires |answers| == |calls| && FirstFatal(answers, i)
    ensures Enveloped(calls, answers) == Err(answers[i].error)
    decreases i
  {
    if i > 0 {
      FatalStops(calls[1..], answers[1..], i - 1);
    }
  }

  predicate Proxied(calls: seq<Call>) {
    exists i :: 0 <= i < |calls| && (calls[i].name == "search_tools" || calls[i].name == "call_tool")
  }

  lemma {:induction false} BatchedExactly(calls: seq<Call>)
    ensures Batched(calls) <==> |calls| > 1 && !Proxied(calls)
  {
    if Proxied(calls) {
      var i :| 0 <= i < |calls| && (calls[i].name == "search_tools" || calls[i].name == "call_tool");
      assert IsProxy(calls[i].name);
    } else {
      assert forall i :: 0 <= i < |calls| ==> !IsProxy(calls[i].name);
    }
  }

  /** The answers that the calls get when they are executed one by one: a call without one finds no tool. */
  function AnswersTo(calls: seq<Call>, answers: seq<Answer>): (each: seq<Answer>)
    ensures |each| == |calls|
    ensures forall i :: 0 <= i < |calls| ==> each[i] == if i < |answers| then answers[i] else Unhandled
  {
    if |answers| >= |calls| then answers[..|calls|]
    else answers + seq(|calls| - |answers|, i => Unhandled)
  }

  /** A single call, calls through the tool proxy, and calls that no hook takes are executed one by one. */
  lemma {:induction false} SinglesReport(calls: seq<Call>, hooks: seq<BatchAnswer>, answers: seq<Answer>)
    requires |calls| <= 1 || Proxied(calls) || forall k :: 0 <= k < |hooks| ==> hooks[k].Declined?
    ensures var r, each := Execution(calls, hooks, answers), AnswersTo(calls, answers);
      && (r.Ok? <==> forall i :: 0 <= i < |each| ==> !each[i].Fatal?)
      && (r.Ok? ==> AllReport(calls, each, r.value))
      && (forall i :: FirstFatal(each, i) ==> r == Err(each[i].error))
  {
    hide Enveloped, AllReport, FirstFatal, Proxied, AnswersTo, Batched;
    EnvelopesReport(calls, AnswersTo(calls, answers));
    assert Each(calls, answers) == AnswersTo(calls, answers);
    BatchedExactly(calls);
    if Batched(calls) {
      FirstHookDecides(calls, hooks, |hooks|);
    }
  }

  /** Several calls, none through the proxy, go to the first hook that takes them. */
  lemma {:induction false} BatchReports(calls: seq<Call>, hooks: seq<BatchAnswer>, answers: seq<Answer>, k: nat)
    requires |calls| > 1 && !Proxied(calls)
    requires k < |hooks| && !hooks[k].Declined? && forall i :: 0 <= i < k ==> hooks[i].Declined?
    ensures var r := Execution(calls, hooks, answers);
      match hooks[k]
      case NotAList => r.Ok? && AllFail(calls, "execute_tools_batch returned another type, expected list", r.value)
      case BatchRaised(error) => r.Ok? && AllFail(calls, error, r.value)
      case BatchFatal(error) => r == Err(error)
      case Answers(results) =>
        if |results| != |calls| then r == Err("execute_tools_batch returned another number of results")
        else
          && (r.Ok? <==> forall i :: 0 <= i < |results| ==> !results[i].Fatal?)
          && (r.Ok? ==> AllReport(calls, results, r.value))
          && (forall i :: FirstFatal(results, i) ==> r == Err(results[i].error))
  {
    hide Enveloped, AllReport, FirstFatal, Proxied, Batched;
    BatchedExactly(calls);
    FirstHookDecides(calls, hooks, k);
    if hooks[k].Answers? && |hooks[k].results| == |calls| {
      EnvelopesReport(calls, hooks[k].results);
    } else {
      HookFailure(calls, hooks[k]);
    }
  }

  lemma {:induction false} HookFailure(calls: seq<Call>, hook: BatchAnswer)
    ensures hook.NotAList? ==>
      && Decided(calls, hook).Ok?
      && AllFail(calls, "execute_tools_batch returned another type, expected list", Decided(calls, hook).value)
    ensures hook.BatchRaised? ==> Decided(calls, hook).Ok? && AllFail(calls, hook.error, Decided(calls, hook).value)
  {
  }

  // ---------- On the tape ----------

  function RejectedBefore(steps: seq<Step>, i: nat): nat
    requires i <= |steps|
  {
    if i == 0 then 0 else RejectedBefore(steps, i - 1) + if steps[i - 1].verdict.Cleared? then 0 else 1
  }

  /** The entries at `place` are the call of a step and, right behind it, why it is rejected. */
  predicate StepStands(entries: seq<Entry>, place: nat, step: Step, reasoning: string) {
    && place < |entries|
    && entries[place] == Entry(ToolCalls("assistant", [step.call], reasoning), false, false, false)
    && (step.verdict.Invalid? ==>
          ResultStands(entries, place + 1, step.call.id, "Tool call validation failed: " + step.verdict.message))
    && (step.verdict.Denied? ==>
          ResultStands(entries, place + 1, step.call.id, "Tool call rejected: " + step.verdict.reason))
  }

  predicate ResultStands(entries: seq<Entry>, place: nat, id: string, content: string) {
    place < |entries| && entries[place] == Entry(ToolResult(id, content), false, false, false)
  }

  lemma {:induction false} StepStandsBehind(front: seq<Entry>, entries: seq<Entry>, more: seq<Entry>, place: nat,
                                            step: Step, reasoning: string)
    requires StepStands(entries, place, step, reasoning)
    ensures StepStands(front + entries + more, |front| + place, step, reasoning)
  {
    assert forall k :: 0 <= k < |entries| ==> (front + entries + more)[|front| + k] == entries[k];
  }

  lemma {:induction false} OneStepStands(step: Step, reasoning: string)
    ensures |StepEntries(step, reasoning)| == if step.verdict.Cleared? then 1 else 2
    ensures StepStands(StepEntries(step, reasoning), 0, step, reasoning)
  {
  }

  lemma {:induction false} RejectedInRest(steps: seq<Step>, i: nat)
    requires 0 < i <= |steps|
    ensures RejectedBefore(steps, i) == (if steps[0].verdict.Cleared? then 0 else 1) + RejectedBefore(steps[1..], i - 1)
  {
    if i > 1 {
      RejectedInRest(steps, i - 1);
    }
  }

  /** Each proposed call stands on the tape once, in order, and only the first carries the reasoning. */
  lemma {:induction false} StepsStand(steps: seq<Step>, reasoning: string, i: nat)
    requires i < |steps|
    ensures StepStands(CallEntries(steps, reasoning), i + RejectedBefore(steps, i), steps[i],
                       if i == 0 then reasoning else "")
    decreases |steps|
  {
    hide StepStands, StepEntries;
    var first, rest := StepEntries(steps[0], reasoning), CallEntries(steps[1..], "");
    OneStepStands(steps[0], reasoning);
    if i == 0 {
      StepStandsBehind([], first, rest, 0, steps[0], reasoning);
      assert [] + first + rest == CallEntries(steps, reasoning);
    } else {
      StepsStand(steps[1..], "", i - 1);
      RejectedInRest(steps, i);
      StepStandsBehind(first, rest, [], i - 1 + RejectedBefore(steps[1..], i - 1), steps[i], "");
      assert first + rest + [] == CallEntries(steps, reasoning);
    }
  }

  lemma {:induction false} CallEntriesCount(steps: seq<Step>, reasoning: string)
    ensures |CallEntries(steps, reasoning)| == |steps| + RejectedBefore(steps, |steps|)
    ensures |Executable(steps)| == |steps| - RejectedBefore(steps, |steps|)
    decreases |steps|
  {
    if steps != [] {
      OneStepStands(steps[0], reasoning);
      CallEntriesCount(steps[1..], "");
      RejectedInRest(steps, |steps|);
    }
  }

  /** The cleared calls are executed, in order. */
  lemma {:induction false} ClearedIsExecuted(steps: seq<Step>, i: nat)
    requires i < |steps| && steps[i].verdict.Cleared?
    ensures RejectedBefore(steps, i) <= i && i - RejectedBefore(steps, i) < |Executable(steps)|
    ensures Executable(steps)[i - RejectedBefore(steps, i)] == steps[i].call
    decreases |steps|
  {
    if i > 0 {
      ClearedIsExecuted(steps[1..], i - 1);
      RejectedInRest(steps, i);
    }
  }

  /**
   What a round with tool calls leaves on the tape: its text, each call with the reason of its rejection if it
   is rejected, what hooks wrote, and at the end one result for each executed call, in order.
   */
  lemma {:induction false} RoundStands(round: Round, outcomes: seq<Outcome>)
    requires RoundOutcomes(round) == Some(outcomes)
    ensures var entries, calls, n := RoundEntries(round, outcomes), Executable(round.steps), |round.steps|;
      var text := if round.text.Some? then 1 else 0;
      && (round.text.Some? ==>
            entries != []
            && entries[0] == Entry(Text("assistant", round.text.value, round.thinking), false, false, false))
      && (forall i :: 0 <= i < n ==>
            StepStands(entries, text + i + RejectedBefore(round.steps, i), round.steps[i],
                       if i == 0 && round.text.None? then round.thinking else ""))
      && |outcomes| == |calls|
      && |entries| == text + n + RejectedBefore(round.steps, n)
                      + (if calls == [] then 0 else |round.hookWrites| + |calls|)
      && (calls != [] ==>
            entries[|entries| - |calls| - |round.hookWrites|..|entries| - |calls|] == round.hookWrites)
      && (forall i :: 0 <= i < |calls| ==>
            ResultStands(entries, |entries| - |calls| + i, calls[i].id, outcomes[i].content))
  {
    hide CallEntries, Executable, StepStands, Execution, RejectedBefore;
    var calls := Executable(round.steps);
    var reasoning := if round.text.Some? then "" else round.thinking;
    var front, steps := TextPart(round), CallEntries(round.steps, reasoning);
    var back := if calls == [] then [] else round.hookWrites + ResultEntries(outcomes);
    RoundOutcomesAnswer(round);
    CallEntriesCount(round.steps, reasoning);
    assert RoundEntries(round, outcomes) == front + steps + back;
    forall i | 0 <= i < |round.steps|
      ensures StepStands(front + steps + back, |front| + (i + RejectedBefore(round.steps, i)), round.steps[i],
                         if i == 0 && round.text.None? then round.thinking else "")
    {
      StepsStand(round.steps, reasoning, i);
      StepStandsBehind(front, steps, back, i + RejectedBefore(round.steps, i), round.steps[i],
                       if i == 0 then reasoning else "");
    }
  }

  /** Hook `k` is the first that takes the calls. */
  predicate Takes(hooks: seq<BatchAnswer>, k: int) {
    0 <= k < |hooks| && !hooks[k].Declined? && forall i :: 0 <= i < k ==> hooks[i].Declined?
  }

  predicate OneByOne(calls: seq<Call>, hooks: seq<BatchAnswer>) {
    |calls| <= 1 || Proxied(calls) || forall k :: 0 <= k < |hooks| ==> hooks[k].Declined?
  }

  /** The content of the result of call `i`: what its own tool answered, or the hook that took all calls. */
  ghost predicate Told(calls: seq<Call>, hooks: seq<BatchAnswer>, answers: seq<Answer>, i: nat, content: string)
    requires i < |calls|
  {
    && (OneByOne(calls, hooks) ==> Reports(calls[i], AnswersTo(calls, answers)[i], content))
    && (forall k :: Takes(hooks, k) && !OneByOne(calls, hooks) ==>
          match hooks[k]
          case NotAList => content == "Error executing tool '" + calls[i].name + "': "
                                      + "execute_tools_batch returned another type, expected list"
          case BatchRaised(error) => content == "Error executing tool '" + calls[i].name + "': " + error
          case Answers(results) => |results| == |calls| && Reports(calls[i], results[i], content)
          case _ => false)
  }

  lemma {:induction false} ExecutionTells(calls: seq<Call>, hooks: seq<BatchAnswer>, answers: seq<Answer>, i: nat)
    requires Execution(calls, hooks, answers).Ok? && i < |calls| == |Execution(calls, hooks, answers).value|
    ensures Told(calls, hooks, answers, i, Execution(calls, hooks, answers).value[i].content)
  {
    hide Execution, Reports, Proxied;
    var content := Execution(calls, hooks, answers).value[i].content;
    if OneByOne(calls, hooks) {
      SinglesReport(calls, hooks, answers);
    } else {
      forall k | Takes(hooks, k)
        ensures
          match hooks[k]
          case NotAList => content == "Error executing tool '" + calls[i].name + "': "
                                      + "execute_tools_batch returned another type, expected list"
          case BatchRaised(error) => content == "Error executing tool '" + calls[i].name + "': " + error
          case Answers(results) => |results| == |calls| && Reports(calls[i], results[i], content)
          case _ => false
      {
        BatchReports(calls, hooks, answers, k);
      }
    }
  }

  /** So on the tape, and in every request built from it, each executed call is followed by what was answered to it. */
  lemma {:induction false} RoundTells(round: Round, i: nat)
    requires RoundOutcomes(round).Some? && i < |Executable(round.steps)|
    ensures var entries, calls := RoundEntries(round, RoundOutcomes(round).value), Executable(round.steps);
      && |entries| >= |calls|
      && var result := entries[|entries| - |calls| + i];
         && !result.skipContext && result.body.ToolResult? && result.body.callId == calls[i].id
         && Told(calls, round.hooks, round.answers, i, result.body.content)
  {
    hide CallEntries, Executable, StepStands, Execution, RejectedBefore, Told, RoundEntries;
    RoundStands(round, RoundOutcomes(round).value);
    RoundOutcomesAnswer(round);
    ExecutionTells(Executable(round.steps), round.hooks, round.answers, i);
  }
}

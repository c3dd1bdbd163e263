/**
 The conversation that the engine grows, read back by an independent recogniser: after any
 prefix it tells which tool calls still wait for their result.
 */
module Transcript {
  import opened Wrappers
  import opened Contracts

  function RefIds(refs: seq<CallRef>): (ids: seq<string>)
    ensures |ids| == |refs|
    ensures forall i :: 0 <= i < |refs| ==> ids[i] == refs[i].toolCallId
  {
    seq(|refs|, i requires 0 <= i < |refs| => refs[i].toolCallId)
  }

  function PlanIds(plans: seq<EffectPlan>): (ids: seq<string>)
    ensures |ids| == |plans|
    ensures forall i :: 0 <= i < |plans| ==> ids[i] == plans[i].toolCallId
  {
    seq(|plans|, i requires 0 <= i < |plans| => plans[i].toolCallId)
  }

  function StepOwed(owed: Option<seq<string>>, message: Message): Option<seq<string>> {
    if owed.None? then None
    else
      match message
      case Assistant(_, calls) => if owed.value == [] then Some(RefIds(calls)) else None
      case ToolResult(id, _, _, _) => if owed.value != [] && owed.value[0] == id then Some(owed.value[1..]) else None
      case Other(_) => None
  }

  /** The calls that a transcript leaves unanswered, or `None` when some message is out of place. */
  function Owed(messages: seq<Message>): Option<seq<string>> {
    if messages == [] then Some([])
    else StepOwed(Owed(messages[..|messages| - 1]), messages[|messages| - 1])
  }

  lemma {:induction false} OwedAppend(messages: seq<Message>, message: Message)
    ensures Owed(messages + [message]) == StepOwed(Owed(messages), message)
  {
    assert (messages + [message])[..|messages|] == messages;
  }

  function ResultIds(messages: seq<Message>): seq<string> {
    if messages == [] then []
    else
      var last := messages[|messages| - 1];
      ResultIds(messages[..|messages| - 1]) + if last.ToolResult? then [last.toolCallId] else []
  }

  ghost predicate AllResults(messages: seq<Message>) {
    forall i :: 0 <= i < |messages| ==> messages[i].ToolResult?
  }

  lemma {:induction false} ResultAnswersNext(messages: seq<Message>)
    requires messages != [] && Owed(messages).Some? && !messages[|messages| - 1].Assistant?
    ensures var front, last := messages[..|messages| - 1], messages[|messages| - 1];
            last.ToolResult? && Owed(front).Some? && Owed(front).value == [last.toolCallId] + Owed(messages).value
  {
  }

  /**
   What an accepted transcript looks like around its last assistant message, at index `k`: every
   call of the earlier rounds is answered, only tool results follow, and the calls of the
   message are the answered ones followed by the owed ones, in order.
   */
  lemma {:induction false} LastRound(messages: seq<Message>, k: nat)
    requires Owed(messages).Some? && k < |messages| && messages[k].Assistant?
    requires forall i :: k < i < |messages| ==> !messages[i].Assistant?
    ensures Owed(messages[..k]) == Some([])
    ensures AllResults(messages[k + 1..])
    ensures RefIds(messages[k].calls) == ResultIds(messages[k + 1..]) + Owed(messages).value
    decreases |messages|
  {
    hide RefIds;
    var front, last := messages[..|messages| - 1], messages[|messages| - 1];
    if k < |front| {
      ResultAnswersNext(messages);
      hide Owed, ResultIds;
      LastRound(front, k);
      assert front[..k] == messages[..k];
      ResultIdsAppend(front[k + 1..], last);
      assert messages[k + 1..] == front[k + 1..] + [last];
    } else {
      assert messages[k + 1..] == [];
      assert front == messages[..k];
    }
  }

  lemma {:induction false} ResultIdsAppend(messages: seq<Message>, last: Message)
    requires last.ToolResult?
    ensures ResultIds(messages + [last]) == ResultIds(messages) + [last.toolCallId]
  {
    assert (messages + [last])[..|messages|] == messages;
  }
}

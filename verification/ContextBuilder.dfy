/**
 `ContextBuilder`: tape entries become the messages of a model request
 (`agentkit/context/builder.py`). An absent reasoning text is the empty string, which the
 source treats alike.
 */
module ContextBuilder {
  import opened Wrappers
  import opened TapeModel

  datatype Message = Message(role: string, content: Option<string>, reasoning: string,
                             toolCalls: Option<seq<Call>>, toolCallId: Option<string>)

  // ---------- One entry, one run of tool calls ----------

  /** The message of an entry outside a run of tool calls. */
  function MessageOf(e: Entry): seq<Message>
    requires !IsCall(e)
  {
    match e.body
    case Text(role, content, reasoning) => [Message(role, Some(content), reasoning, None, None)]
    case ToolResult(callId, content) => [Message("tool", Some(content), "", None, Some(callId))]
    case AnchorBody(content, prefix, anchorType) =>
      if (anchorType.Some? && (anchorType.value.Fold? || anchorType.value.TopicEnd?)) || e.skip then []
      else
        var text := if prefix == "" then content else "[" + prefix + "] " + content;
        [Message("system", Some(text), "", None, None)]
    case Event => []
  }

  /** How many entries at the front are tool calls. */
  function RunLength(entries: seq<Entry>): (n: nat)
    ensures n <= |entries|
    ensures forall i :: 0 <= i < n ==> IsCall(entries[i])
    ensures n < |entries| ==> !IsCall(entries[n])
  {
    if entries == [] || !IsCall(entries[0]) then 0 else 1 + RunLength(entries[1..])
  }

  /** The calls of the visible tool-call entries, in order. */
  function CallsOf(entries: seq<Entry>): seq<Call> {
    if entries == [] then []
    else (if IsCall(entries[0]) && !entries[0].skipContext then entries[0].body.calls else [])
         + CallsOf(entries[1..])
  }

  function FirstReasoning(run: seq<Entry>): string {
    if run == [] then ""
    else if IsCall(run[0]) && !run[0].skipContext && run[0].body.reasoning != "" then run[0].body.reasoning
    else FirstReasoning(run[1..])
  }

  function RunMessage(run: seq<Entry>): Message
    requires run != [] && IsCall(run[0])
  {
    Message(run[0].body.role, None, FirstReasoning(run), Some(CallsOf(run)), None)
  }

  /** An assistant text that a following tool-call message of the same role absorbs. */
  predicate Mergeable(last: Message, role: string) {
    last.role == role && last.content.Some? && last.content.value != "" && last.toolCalls.None?
  }

  function Attach(messages: seq<Message>, message: Message): (r: seq<Message>)
    ensures r != []
  {
    if messages != [] && Mergeable(messages[|messages| - 1], message.role) then
      var last := messages[|messages| - 1];
      messages[..|messages| - 1]
      + [Message(message.role, last.content,
                 if message.reasoning == "" then last.reasoning else message.reasoning,
                 message.toolCalls, None)]
    else
      messages + [message]
  }

  /** What appending entries to a list of core messages yields, one run or entry at a time. */
  function Extend(messages: seq<Message>, entries: seq<Entry>): seq<Message>
    decreases |entries|
  {
    if entries == [] then messages
    else if entries[0].skipContext then Extend(messages, entries[1..])
    else if IsCall(entries[0]) then
      var n := RunLength(entries);
      Extend(Attach(messages, RunMessage(entries[..n])), entries[n..])
    else Extend(messages + MessageOf(entries[0]), entries[1..])
  }

  lemma {:induction false} CallsOfSplits(a: seq<Entry>, b: seq<Entry>)
    ensures CallsOf(a + b) == CallsOf(a) + CallsOf(b)
  {
    if a == [] {
      assert a + b == b;
    } else {
      assert (a + b)[1..] == a[1..] + b;
      CallsOfSplits(a[1..], b);
    }
  }

  lemma {:induction false} FirstReasoningSplits(a: seq<Entry>, b: seq<Entry>)
    ensures FirstReasoning(a + b) == if FirstReasoning(a) != "" then FirstReasoning(a) else FirstReasoning(b)
  {
    if a == [] {
      assert a + b == b;
    } else {
      assert (a + b)[1..] == a[1..] + b;
      FirstReasoningSplits(a[1..], b);
    }
  }

  lemma {:induction false} RunGrows(run: seq<Entry>, next: Entry)
    requires IsCall(next)
    ensures CallsOf(run + [next]) == CallsOf(run) + (if next.skipContext then [] else next.body.calls)
    ensures FirstReasoning(run + [next])
         == if next.skipContext || FirstReasoning(run) != "" then FirstReasoning(run) else next.body.reasoning
  {
    CallsOfSplits(run, [next]);
    FirstReasoningSplits(run, [next]);
    assert [next][1..] == [];
  }

  /** `append_to_core_messages`: the index loop and the nested loop over one run of tool calls. */
  method AppendToCoreMessages(core: seq<Message>, entries: seq<Entry>) returns (messages: seq<Message>)
    ensures messages == Extend(core, entries)
  {
    messages := core;
    var index := 0;
    while index < |entries|
      invariant 0 <= index <= |entries|
      invariant Extend(messages, entries[index..]) == Extend(core, entries)
    {
      var entry := entries[index];
      ghost var rest := entries[index..];
      assert rest[0] == entry && rest[1..] == entries[index + 1..];
      if entry.skipContext {
        index := index + 1;
      } else if entry.body.ToolCalls? {
        var message;
        index, message := CollectRun(entries, index);
        assert rest[RunLength(rest)..] == entries[index..];
        messages := AttachMessage(messages, message);
      } else {
        messages := messages + MessageOf(entry);
        index := index + 1;
      }
    }
    assert entries[index..] == [];
  }

  /** The nested loop: consumes the run of tool-call entries at `start`. */
  method CollectRun(entries: seq<Entry>, start: nat) returns (index: nat, message: Message)
    requires start < |entries| && IsCall(entries[start])
    ensures index == start + RunLength(entries[start..])
    ensures message == RunMessage(entries[start..][..RunLength(entries[start..])])
  {
    ghost var rest := entries[start..];
    var calls: seq<Call> := [];
    var reasoning := "";
    index := start;
    while index < |entries| && entries[index].body.ToolCalls?
      invariant start <= index <= |entries|
      invariant index - start <= RunLength(rest)
      invariant calls == CallsOf(rest[..index - start])
      invariant reasoning == FirstReasoning(rest[..index - start])
    {
      var current := entries[index];
      assert current == rest[index - start];
      assert rest[..index + 1 - start] == rest[..index - start] + [current];
      RunGrows(rest[..index - start], current);
      if !current.skipContext {
        if reasoning == "" {
          reasoning := current.body.reasoning;
        }
        calls := calls + current.body.calls;
      }
      index := index + 1;
    }
    assert index < |entries| ==> rest[index - start] == entries[index];
    message := Message(entries[start].body.role, None, reasoning, Some(calls), None);
  }

  /** Appends a tool-call message, or replaces the last message with the merge of both. */
  method AttachMessage(messages: seq<Message>, message: Message) returns (r: seq<Message>)
    ensures r == Attach(messages, message)
  {
    if messages != [] && Mergeable(messages[|messages| - 1], message.role) {
      var last := messages[|messages| - 1];
      var merged := message.(content := last.content, toolCallId := None);
      if last.reasoning != "" && message.reasoning == "" {
        merged := merged.(reasoning := last.reasoning);
      }
      return messages[|messages| - 1 := merged];
    }
    return messages + [message];
  }
}

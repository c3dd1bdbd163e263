/**
 What the messages of a build say: who speaks, which calls are asked and which are answered, in the
 order of the entries, and how that makes every request answer the calls that it shows.
 */
module ContextContents {
  import opened Wrappers
  import opened TapeModel
  import opened ContextBuilder
  import opened ContextLaws
  import opened ToolPairing
  import opened IncrementalContext

  // ---------- One entry more ----------

  /** The entry never shows in a message. */
  predicate Silent(e: Entry) {
    || e.skipContext || e.body.Event?
    || (e.body.AnchorBody? && (e.skip || e.body.anchorType == Some(Fold) || e.body.anchorType == Some(TopicEnd)))
  }

  lemma {:induction false} OneEntryMore(m: seq<Message>, a: seq<Entry>, e: Entry)
    requires !IsCall(e) || e.skipContext
    ensures Extend(m, a + [e]) == Extend(Extend(m, a), [e])
  {
    SplitFaithful(m, a, [e]);
  }

  lemma {:induction false} SilentGivesNothing(m: seq<Message>, a: seq<Entry>, e: Entry)
    requires Silent(e)
    ensures Extend(m, a + [e]) == Extend(m, a)
  {
    OneEntryMore(m, a, e);
    assert [e][1..] == [];
  }

  lemma {:induction false} TextSpeaks(m: seq<Message>, a: seq<Entry>, e: Entry)
    requires !Silent(e) && e.body.Text?
    ensures Extend(m, a + [e])
         == Extend(m, a) + [Message(e.body.role, Some(e.body.content), e.body.reasoning, None, None)]
  {
    OneEntryMore(m, a, e);
    assert [e][1..] == [];
  }

  lemma {:induction false} ResultAnswers(m: seq<Message>, a: seq<Entry>, e: Entry)
    requires !Silent(e) && e.body.ToolResult?
    ensures Extend(m, a + [e])
         == Extend(m, a) + [Message("tool", Some(e.body.content), "", None, Some(e.body.callId))]
  {
    OneEntryMore(m, a, e);
    assert [e][1..] == [];
  }

  /** What a shown anchor says. */
  function Announced(content: string, prefix: string): string {
    if prefix == "" then content else "[" + prefix + "] " + content
  }

  lemma {:induction false} AnchorAnnounces(m: seq<Message>, a: seq<Entry>, e: Entry)
    requires !Silent(e) && e.body.AnchorBody?
    ensures Extend(m, a + [e])
         == Extend(m, a) + [Message("system", Some(Announced(e.body.content, e.body.prefix)), "", None, None)]
  {
    OneEntryMore(m, a, e);
    assert [e][1..] == [];
  }

  // ---------- A text that tool calls join ----------

  /** The first of these entries that shows is a tool call of this role. */
  predicate Joins(b: seq<Entry>, role: string) {
    b != [] && if Silent(b[0]) then Joins(b[1..], role) else IsCall(b[0]) && b[0].body.role == role
  }

  /** The run of tool calls that starts with the first entry that shows. */
  function JoiningRun(b: seq<Entry>): seq<Entry> {
    if b == [] then []
    else if Silent(b[0]) then JoiningRun(b[1..])
    else b[..RunLength(b)]
  }

  /**
   Later entries leave every message as it is but the last, and that one changes only when it is a text
   and the calls of its own role come next: then it keeps its role and its content and takes their calls,
   and its reasoning gives way to the first that they give.
   */
  lemma {:induction false} LaterEntriesTouch(x: seq<Message>, b: seq<Entry>)
    requires x != [] && x[|x| - 1].toolCalls.None?
    ensures var k, r := |x| - 1, Extend(x, b);
            var last, run := x[k], JoiningRun(b);
            && k < |r| && r[..k] == x[..k]
            && r[k] == if Joins(b, last.role) && last.content.Some? && last.content.value != ""
                       then Message(last.role, last.content,
                                    if FirstReasoning(run) != "" then FirstReasoning(run) else last.reasoning,
                                    Some(CallsOf(run)), None)
                       else last
    decreases |b|
  {
    hide FirstReasoning, CallsOf;
    if b == [] {
    } else if Silent(b[0]) && !IsCall(b[0]) {
      SilentGivesNothing(x, [], b[0]);
      assert [] + [b[0]] == [b[0]] && b == [b[0]] + b[1..];
      SplitFaithful(x, [b[0]], b[1..]);
      LaterEntriesTouch(x, b[1..]);
    } else if b[0].skipContext {
      LaterEntriesTouch(x, b[1..]);
    } else if IsCall(b[0]) {
      CallsTouch(x, b);
    } else {
      ShownEntryTouches(x, b);
    }
  }

  lemma {:induction false} CallsTouch(x: seq<Message>, b: seq<Entry>)
    requires x != [] && x[|x| - 1].toolCalls.None? && b != [] && IsCall(b[0]) && !b[0].skipContext
    ensures var k, r := |x| - 1, Extend(x, b);
            var last, run := x[k], b[..RunLength(b)];
            && k < |r| && r[..k] == x[..k]
            && r[k] == if b[0].body.role == last.role && last.content.Some? && last.content.value != ""
                       then Message(last.role, last.content,
                                    if FirstReasoning(run) != "" then FirstReasoning(run) else last.reasoning,
                                    Some(CallsOf(run)), None)
                       else last
  {
    hide FirstReasoning, CallsOf;
    var n := RunLength(b);
    var joined := Attach(x, RunMessage(b[..n]));
    ExtendRun(x, b);
    ClosedExtend(joined, b[n..]);
  }

  lemma {:induction false} ShownEntryTouches(x: seq<Message>, b: seq<Entry>)
    requires x != [] && b != [] && !Silent(b[0]) && !IsCall(b[0])
    ensures |x| <= |Extend(x, b)| && Extend(x, b)[..|x|] == x
  {
    assert Extend(x, b) == Extend(x + MessageOf(b[0]), b[1..]);
    assert MessageOf(b[0]) != [];
    ExtendFrame(x, MessageOf(b[0]), b[1..]);
  }

  // ---------- Calls and answers ----------

  datatype Token = Asks(call: Call) | Answers(role: string, callId: string, content: Option<string>)

  function AskTokens(calls: seq<Call>): (tokens: seq<Token>)
    ensures |tokens| == |calls| && forall i :: 0 <= i < |calls| ==> tokens[i] == Asks(calls[i])
  {
    seq(|calls|, i requires 0 <= i < |calls| => Asks(calls[i]))
  }

  /** The calls that the messages ask for and the answers that they carry, in order. */
  function TokensIn(messages: seq<Message>): seq<Token> {
    if messages == [] then [] else TokensOf(messages[0]) + TokensIn(messages[1..])
  }

  function TokensOf(x: Message): seq<Token> {
    (if x.toolCalls.Some? then AskTokens(x.toolCalls.value) else [])
    + if x.toolCallId.Some? then [Answers(x.role, x.toolCallId.value, x.content)] else []
  }

  /** The calls and results of the visible entries, in order. */
  function TokensFrom(entries: seq<Entry>): seq<Token> {
    if entries == [] then [] else EntryTokens(entries[0]) + TokensFrom(entries[1..])
  }

  function EntryTokens(e: Entry): seq<Token> {
    if e.skipContext then []
    else
      match e.body
      case ToolCalls(_, calls, _) => AskTokens(calls)
      case ToolResult(callId, content) => [Answers("tool", callId, Some(content))]
      case _ => []
  }

  /** What the messages say that carry no answer, by role. */
  function SaidIn(messages: seq<Message>): seq<(string, string)> {
    if messages == [] then [] else SaidOf(messages[0]) + SaidIn(messages[1..])
  }

  function SaidOf(x: Message): seq<(string, string)> {
    if x.toolCallId.None? && x.content.Some? then [(x.role, x.content.value)] else []
  }

  /** What the entries say: the texts, and the anchors that show. */
  function SaidFrom(entries: seq<Entry>): seq<(string, string)> {
    if entries == [] then [] else EntrySaid(entries[0]) + SaidFrom(entries[1..])
  }

  function EntrySaid(e: Entry): seq<(string, string)> {
    if Silent(e) then []
    else
      match e.body
      case Text(role, content, _) => [(role, content)]
      case AnchorBody(content, prefix, _) => [("system", Announced(content, prefix))]
      case _ => []
  }

  lemma {:induction false} InSplits(x: seq<Message>, y: seq<Message>)
    ensures TokensIn(x + y) == TokensIn(x) + TokensIn(y) && SaidIn(x + y) == SaidIn(x) + SaidIn(y)
  {
    hide TokensOf, SaidOf;
    if x == [] {
      assert x + y == y;
    } else {
      assert (x + y)[1..] == x[1..] + y;
      InSplits(x[1..], y);
    }
  }

  lemma {:induction false} FromSplits(a: seq<Entry>, b: seq<Entry>)
    ensures TokensFrom(a + b) == TokensFrom(a) + TokensFrom(b) && SaidFrom(a + b) == SaidFrom(a) + SaidFrom(b)
  {
    hide EntryTokens, EntrySaid;
    if a == [] {
      assert a + b == b;
    } else {
      assert (a + b)[1..] == a[1..] + b;
      FromSplits(a[1..], b);
    }
  }

  /** The last message carries an answer that a run of calls of its role would absorb. */
  predicate AnswerLast(m: seq<Message>) {
    m != [] && m[|m| - 1].toolCallId.Some? && Mergeable(m[|m| - 1], "tool")
  }

  /** Calls come in the role of the tools, right after a result with content: their message replaces its own. */
  predicate Swallows(last: bool, entries: seq<Entry>)
    decreases |entries|
  {
    entries != []
    && if Silent(entries[0]) then Swallows(last, entries[1..])
       else if IsCall(entries[0]) then
         (last && entries[0].body.role == "tool") || Swallows(false, entries[RunLength(entries)..])
       else Swallows(entries[0].body.ToolResult? && entries[0].body.content != "", entries[1..])
  }

  /** Messages as a build makes them: answers speak as tools and ask nothing. */
  predicate Shaped(m: seq<Message>) {
    forall i :: 0 <= i < |m| ==> ShapedMessage(m[i])
  }

  predicate ShapedMessage(x: Message) {
    && (x.toolCallId.Some? ==> x.role == "tool" && x.content.Some? && x.reasoning == "" && x.toolCalls.None?)
    && (x.content.None? ==> x.toolCalls.Some?)
  }

  lemma {:induction false} BuildIsShaped(m: seq<Message>, entries: seq<Entry>)
    requires Shaped(m)
    ensures Shaped(Extend(m, entries))
    decreases |entries|
  {
    if entries == [] {
    } else if entries[0].skipContext {
      BuildIsShaped(m, entries[1..]);
    } else if IsCall(entries[0]) {
      var n := RunLength(entries);
      BuildIsShaped(Attach(m, RunMessage(entries[..n])), entries[n..]);
    } else {
      BuildIsShaped(m + MessageOf(entries[0]), entries[1..]);
    }
  }

  lemma {:induction false} OneMessage(x: Message)
    ensures TokensIn([x]) == TokensOf(x) && SaidIn([x]) == SaidOf(x)
  {
    assert [x][1..] == [];
  }

  lemma {:induction false} AttachConveys(m: seq<Message>, calls: Message)
    requires Shaped(m) && calls.toolCalls.Some? && calls.content.None? && calls.toolCallId.None?
    ensures !(AnswerLast(m) && calls.role == "tool") ==>
      && TokensIn(Attach(m, calls)) == TokensIn(m) + AskTokens(calls.toolCalls.value)
      && SaidIn(Attach(m, calls)) == SaidIn(m)
    ensures AnswerLast(m) && calls.role == "tool" ==>
      |TokensIn(Attach(m, calls))| < |TokensIn(m)| + |calls.toolCalls.value|
    ensures |TokensIn(Attach(m, calls))| <= |TokensIn(m)| + |calls.toolCalls.value|
  {
    hide TokensIn, SaidIn;
    if m != [] && Mergeable(m[|m| - 1], calls.role) {
      var k := |m| - 1;
      var merged := Attach(m, calls)[k];
      assert m == m[..k] + [m[k]] && Attach(m, calls) == m[..k] + [merged];
      InSplits(m[..k], [m[k]]);
      InSplits(m[..k], [merged]);
      OneMessage(m[k]);
      OneMessage(merged);
    } else {
      InSplits(m, [calls]);
      OneMessage(calls);
    }
  }

  lemma {:induction false} EntryMessage(e: Entry)
    requires !IsCall(e) && !e.skipContext
    ensures TokensIn(MessageOf(e)) == EntryTokens(e) && SaidIn(MessageOf(e)) == EntrySaid(e)
    ensures Shaped(MessageOf(e)) && |MessageOf(e)| <= 1
  {
    if MessageOf(e) != [] {
      OneMessage(MessageOf(e)[0]);
      assert MessageOf(e) == [MessageOf(e)[0]];
    }
  }

  lemma {:induction false} EntryConveys(m: seq<Message>, e: Entry)
    requires !IsCall(e) && !e.skipContext && Shaped(m)
    ensures TokensIn(m + MessageOf(e)) == TokensIn(m) + EntryTokens(e)
    ensures SaidIn(m + MessageOf(e)) == SaidIn(m) + EntrySaid(e)
    ensures Shaped(m + MessageOf(e))
  {
    hide TokensIn, SaidIn, EntryTokens, EntrySaid, MessageOf, ShapedMessage;
    InSplits(m, MessageOf(e));
    EntryMessage(e);
  }

  lemma {:induction false} RunConveys(run: seq<Entry>)
    requires forall i :: 0 <= i < |run| ==> IsCall(run[i])
    ensures TokensFrom(run) == AskTokens(CallsOf(run)) && SaidFrom(run) == []
  {
    if run != [] {
      hide TokensFrom, SaidFrom, CallsOf, AskTokens;
      var front, e := run[1..], run[0];
      assert TokensFrom(run) == EntryTokens(e) + TokensFrom(front);
      assert SaidFrom(run) == EntrySaid(e) + SaidFrom(front);
      RunConveys(front);
      assert CallsOf(run) == (if e.skipContext then [] else e.body.calls) + CallsOf(front);
      AskTokensJoin(if e.skipContext then [] else e.body.calls, CallsOf(front));
      assert EntryTokens(e) == AskTokens(if e.skipContext then [] else e.body.calls);
    }
  }

  lemma {:induction false} AskTokensJoin(a: seq<Call>, b: seq<Call>)
    ensures AskTokens(a + b) == AskTokens(a) + AskTokens(b) && AskTokens([]) == []
  {
  }

  lemma {:induction false} NeverMore(m: seq<Message>, entries: seq<Entry>)
    requires Shaped(m)
    ensures |TokensIn(Extend(m, entries))| <= |TokensIn(m)| + |TokensFrom(entries)|
    decreases |entries|
  {
    hide TokensIn, Attach, MessageOf, ShapedMessage;
    if entries == [] {
    } else if entries[0].skipContext {
      NeverMore(m, entries[1..]);
    } else if IsCall(entries[0]) {
      var message, rest := UnfoldRun(m, entries);
      NeverMore(Attach(m, message), rest);
    } else {
      EntryConveys(m, entries[0]);
      NeverMore(m + MessageOf(entries[0]), entries[1..]);
    }
  }

  lemma {:induction false} UnfoldRun(m: seq<Message>, entries: seq<Entry>) returns (message: Message, rest: seq<Entry>)
    requires Shaped(m) && entries != [] && IsCall(entries[0]) && !entries[0].skipContext
    ensures rest == entries[RunLength(entries)..] && |rest| < |entries|
    ensures message.toolCalls.Some? && message.content.None? && message.toolCallId.None?
    ensures message.role == entries[0].body.role
    ensures Extend(m, entries) == Extend(Attach(m, message), rest) && Shaped(Attach(m, message))
    ensures TokensFrom(entries) == AskTokens(message.toolCalls.value) + TokensFrom(rest)
    ensures SaidFrom(entries) == SaidFrom(rest)
    ensures !AnswerLast(Attach(m, message))
    ensures |TokensIn(Attach(m, message))| <= |TokensIn(m)| + |message.toolCalls.value|
    ensures !(AnswerLast(m) && message.role == "tool") ==>
      && TokensIn(Attach(m, message)) == TokensIn(m) + AskTokens(message.toolCalls.value)
      && SaidIn(Attach(m, message)) == SaidIn(m)
    ensures AnswerLast(m) && message.role == "tool" ==>
      |TokensIn(Attach(m, message))| < |TokensIn(m)| + |message.toolCalls.value|
  {
    hide TokensIn, SaidIn, TokensFrom, SaidFrom, CallsOf, FirstReasoning;
    var n := RunLength(entries);
    message, rest := RunMessage(entries[..n]), entries[n..];
    ExtendRun(m, entries);
    assert entries == entries[..n] + rest;
    FromSplits(entries[..n], rest);
    RunConveys(entries[..n]);
    AttachConveys(m, message);
  }

  /**
   A build adds just the calls, the results and the texts of its visible entries, each once and in their
   order, unless calls in the role of the tools follow a result: their message takes that result's place.
   */
  lemma {:induction false} BuildConveysExactly(m: seq<Message>, entries: seq<Entry>)
    requires Shaped(m)
    ensures TokensIn(Extend(m, entries)) == TokensIn(m) + TokensFrom(entries) <==> !Swallows(AnswerLast(m), entries)
    ensures !Swallows(AnswerLast(m), entries) ==> SaidIn(Extend(m, entries)) == SaidIn(m) + SaidFrom(entries)
    decreases |entries|
  {
    hide TokensIn, SaidIn, Attach, MessageOf, ShapedMessage, EntryTokens, EntrySaid;
    if entries == [] {
      assert TokensIn(m) + TokensFrom([]) == TokensIn(m) && SaidIn(m) + SaidFrom([]) == SaidIn(m);
    } else if entries[0].skipContext {
      HiddenConveysNothing(entries[0], entries[1..]);
      assert entries == [entries[0]] + entries[1..];
      BuildConveysExactly(m, entries[1..]);
    } else if IsCall(entries[0]) {
      BuildConveysRun(m, entries);
    } else {
      BuildConveysEntry(m, entries);
    }
  }

  lemma {:induction false} HiddenConveysNothing(e: Entry, rest: seq<Entry>)
    requires e.skipContext
    ensures TokensFrom([e] + rest) == TokensFrom(rest) && SaidFrom([e] + rest) == SaidFrom(rest)
  {
    assert ([e] + rest)[1..] == rest;
  }

  lemma {:induction false} BuildConveysRun(m: seq<Message>, entries: seq<Entry>)
    requires Shaped(m) && entries != [] && IsCall(entries[0]) && !entries[0].skipContext
    ensures TokensIn(Extend(m, entries)) == TokensIn(m) + TokensFrom(entries) <==> !Swallows(AnswerLast(m), entries)
    ensures !Swallows(AnswerLast(m), entries) ==> SaidIn(Extend(m, entries)) == SaidIn(m) + SaidFrom(entries)
    decreases |entries|, 0
  {
    hide TokensIn, SaidIn, TokensFrom, SaidFrom, Attach, Extend, ShapedMessage, EntryTokens, EntrySaid;
    var message, rest := UnfoldRun(m, entries);
    var next := Attach(m, message);
    BuildConveysExactly(next, rest);
    NeverMore(next, rest);
    var asked := AskTokens(message.toolCalls.value);
    if TokensIn(next) == TokensIn(m) + asked {
      assert TokensIn(next) + TokensFrom(rest) == TokensIn(m) + TokensFrom(entries);
    }
  }

  lemma {:induction false} BuildConveysEntry(m: seq<Message>, entries: seq<Entry>)
    requires Shaped(m) && entries != [] && !IsCall(entries[0]) && !entries[0].skipContext
    ensures TokensIn(Extend(m, entries)) == TokensIn(m) + TokensFrom(entries) <==> !Swallows(AnswerLast(m), entries)
    ensures !Swallows(AnswerLast(m), entries) ==> SaidIn(Extend(m, entries)) == SaidIn(m) + SaidFrom(entries)
    decreases |entries|, 0
  {
    var e, rest, next := entries[0], entries[1..], m + MessageOf(entries[0]);
    hide TokensIn, SaidIn, TokensFrom, SaidFrom, EntryTokens, EntrySaid, MessageOf, Swallows, AnswerLast;
    hide ShapedMessage, Silent;
    SwallowsAfterEntry(m, entries);
    EntryConveys(m, e);
    assert Extend(m, entries) == Extend(next, rest);
    BuildConveysExactly(next, rest);
    FirstOfFrom(entries, TokensIn(m), SaidIn(m));
  }

  lemma {:induction false} FirstOfFrom(entries: seq<Entry>, tokens: seq<Token>, said: seq<(string, string)>)
    requires entries != []
    ensures (tokens + EntryTokens(entries[0])) + TokensFrom(entries[1..]) == tokens + TokensFrom(entries)
    ensures (said + EntrySaid(entries[0])) + SaidFrom(entries[1..]) == said + SaidFrom(entries)
  {
    hide EntryTokens, EntrySaid;
  }

  lemma {:induction false} SwallowsAfterEntry(m: seq<Message>, entries: seq<Entry>)
    requires entries != [] && !IsCall(entries[0]) && !entries[0].skipContext
    ensures Swallows(AnswerLast(m), entries) == Swallows(AnswerLast(m + MessageOf(entries[0])), entries[1..])
  {
    var e := entries[0];
    if Silent(e) {
      assert m + MessageOf(e) == m;
    } else {
      assert (m + MessageOf(e))[|m|] == MessageOf(e)[0];
    }
  }

  // ---------- A request answers the calls that it shows ----------

  function Asked(tokens: seq<Token>, id: string): nat {
    if tokens == [] then 0 else (if tokens[0].Asks? && tokens[0].call.id == id then 1 else 0) + Asked(tokens[1..], id)
  }

  function AnswerCount(tokens: seq<Token>, id: string): nat {
    if tokens == [] then 0
    else (if tokens[0].Answers? && tokens[0].callId == id then 1 else 0) + AnswerCount(tokens[1..], id)
  }

  lemma {:induction false} CountsSplit(a: seq<Token>, b: seq<Token>, id: string)
    ensures Asked(a + b, id) == Asked(a, id) + Asked(b, id)
    ensures AnswerCount(a + b, id) == AnswerCount(a, id) + AnswerCount(b, id)
  {
    if a == [] {
      assert a + b == b;
    } else {
      assert (a + b)[1..] == a[1..] + b;
      CountsSplit(a[1..], b, id);
    }
  }

  lemma {:induction false} AskedByCalls(calls: seq<Call>, id: string)
    ensures Asked(AskTokens(calls), id) == Pending(calls)[id] && AnswerCount(AskTokens(calls), id) == 0
  {
    if calls != [] {
      assert AskTokens(calls)[1..] == AskTokens(calls[1..]);
      AskedByCalls(calls[1..], id);
      assert Ids(calls) == [calls[0].id] + Ids(calls[1..]);
    }
  }

  /** What the first visible entry asks and answers, next to what it does to the debt. */
  lemma {:induction false} EntryCounts(e: Entry, pending: multiset<string>, id: string)
    requires !e.skipContext && (e.body.ToolResult? ==> e.body.callId in pending)
    ensures pending[id] + Asked(EntryTokens(e), id) == After(e, pending)[id] + AnswerCount(EntryTokens(e), id)
    ensures e.body.ToolResult? ==> |EntryTokens(e)| == 1 && Asked(EntryTokens(e), id) == 0
    ensures !e.body.ToolResult? ==> AnswerCount(EntryTokens(e), id) == 0
  {
    match e.body
    case ToolCalls(_, calls, _) => AskedByCalls(calls, id);
    case ToolResult(_, _) => assert EntryTokens(e)[1..] == [];
    case _ =>
  }

  /** The visible entries after the first, and what they ask and answer. */
  lemma {:induction false} FirstVisible(entries: seq<Entry>, pending: multiset<string>)
    requires entries != []
    ensures TokensFrom(entries) == EntryTokens(entries[0]) + TokensFrom(entries[1..])
    ensures entries[0].skipContext ==>
      EntryTokens(entries[0]) == [] && Debt(Visible(entries), pending) == Debt(Visible(entries[1..]), pending)
    ensures !entries[0].skipContext && Debt(Visible(entries), pending).Some? ==>
      && (entries[0].body.ToolResult? ==> entries[0].body.callId in pending)
      && Debt(Visible(entries[1..]), After(entries[0], pending)) == Debt(Visible(entries), pending)
  {
    if entries[0].skipContext {
      assert Visible(entries) == [] + Visible(entries[1..]) == Visible(entries[1..]);
    } else {
      assert Visible(entries)[0] == entries[0] && Visible(entries)[1..] == Visible(entries[1..]);
    }
  }

  lemma {:induction false} NothingCounted(id: string)
    ensures Asked([], id) == 0 && AnswerCount([], id) == 0 && TokensFrom([]) == [] && Visible([]) == []
    ensures Debt([], multiset{}) == Some(multiset{})
  {
  }

  /** On a tape whose debt is paid, what is asked and what was owed is what is answered. */
  lemma {:induction false} PaidInFull(entries: seq<Entry>, pending: multiset<string>, id: string)
    requires Debt(Visible(entries), pending) == Some(multiset{})
    ensures pending[id] + Asked(TokensFrom(entries), id) == AnswerCount(TokensFrom(entries), id)
    decreases |entries|
  {
    hide EntryTokens, After, Asked, AnswerCount, TokensFrom, Visible;
    NothingCounted(id);
    if entries != [] {
      hide Debt;
      var e, rest := entries[0], entries[1..];
      FirstVisible(entries, pending);
      CountsSplit(EntryTokens(e), TokensFrom(rest), id);
      if e.skipContext {
        PaidInFull(rest, pending, id);
      } else {
        EntryCounts(e, pending, id);
        PaidInFull(rest, After(e, pending), id);
      }
    }
  }

  /** And from any point on, no more is asked than is answered. */
  lemma {:induction false} PaidFromAnyPoint(entries: seq<Entry>, pending: multiset<string>, k: nat, id: string)
    requires Debt(Visible(entries), pending) == Some(multiset{}) && k <= |TokensFrom(entries)|
    ensures Asked(TokensFrom(entries)[k..], id) <= AnswerCount(TokensFrom(entries)[k..], id)
    decreases |entries|
  {
    hide EntryTokens, After, Asked, AnswerCount, TokensFrom, Visible, Debt;
    NothingCounted(id);
    if entries == [] {
      assert TokensFrom(entries)[k..] == [];
    } else {
      var e, rest := entries[0], entries[1..];
      var own, more := EntryTokens(e), TokensFrom(rest);
      var owed := if e.skipContext then pending else After(e, pending);
      FirstVisible(entries, pending);
      if k < |own| {
        assert (own + more)[k..] == own[k..] + more;
        PaidInFull(rest, owed, id);
        WithinEntry(e, pending, k, more, id);
      } else {
        assert (own + more)[k..] == more[k - |own|..];
        PaidFromAnyPoint(rest, owed, k - |own|, id);
      }
    }
  }

  /** Inside an entry: the calls that it still makes are answered after it. */
  lemma {:induction false} WithinEntry(e: Entry, pending: multiset<string>, k: nat, more: seq<Token>, id: string)
    requires !e.skipContext && (e.body.ToolResult? ==> e.body.callId in pending) && k < |EntryTokens(e)|
    requires After(e, pending)[id] + Asked(more, id) == AnswerCount(more, id)
    ensures Asked(EntryTokens(e)[k..] + more, id) <= AnswerCount(EntryTokens(e)[k..] + more, id)
  {
    hide EntryTokens, After, Asked, AnswerCount;
    var own := EntryTokens(e);
    EntryCounts(e, pending, id);
    assert own == own[..k] + own[k..];
    CountsSplit(own[..k], own[k..], id);
    CountsSplit(own[k..], more, id);
    if e.body.ToolResult? {
      assert own[k..] == own;
    }
  }

  /** A window changes the order of the anchors only: what is asked and answered is that of its entries. */
  lemma {:induction false} WindowTokens(window: seq<Entry>)
    ensures TokensFrom(Select(window, true)) == [] && TokensFrom(Select(window, false)) == TokensFrom(window)
  {
    if window != [] {
      hide EntryTokens;
      var e, anchors, others := window[0], Select(window[1..], true), Select(window[1..], false);
      WindowTokens(window[1..]);
      if IsHandoffAnchor(e) {
        assert Select(window, true) == [e] + anchors && Select(window, false) == [] + others;
        assert ([e] + anchors)[1..] == anchors && [] + others == others;
        AnchorAsksNothing(e);
      } else {
        assert Select(window, true) == [] + anchors && Select(window, false) == [e] + others;
        assert ([e] + others)[1..] == others && [] + anchors == anchors;
      }
    }
  }

  lemma {:induction false} AnchorAsksNothing(e: Entry)
    requires IsHandoffAnchor(e)
    ensures EntryTokens(e) == []
  {
  }

  lemma {:induction false} ViewTokens(entries: seq<Entry>, windowStart: nat)
    requires windowStart <= |entries|
    ensures TokensFrom(View(entries, windowStart)) == TokensFrom(entries[windowStart..])
    ensures TokensFrom(entries) == TokensFrom(entries[..windowStart]) + TokensFrom(entries[windowStart..])
  {
    hide EntryTokens, EntrySaid, TokensFrom;
    var window := entries[windowStart..];
    WindowTokens(window);
    FromSplits(Select(window, true), Select(window, false));
    assert entries == entries[..windowStart] + window;
    FromSplits(entries[..windowStart], window);
  }

  lemma {:induction false} RequestTokens(prompt: string, entries: seq<Entry>, windowStart: nat, grounding: seq<Message>)
    requires windowStart <= |entries| && TokensIn(grounding) == []
    requires !Swallows(false, View(entries, windowStart))
    ensures TokensIn(Compose(prompt, Core(entries, windowStart), grounding)) == TokensFrom(entries[windowStart..])
  {
    hide TokensIn, TokensFrom, SaidIn, SaidFrom, Extend, View, Swallows;
    var core := Core(entries, windowStart);
    var i := InsertIndex(core);
    NoMessages();
    BuildConveysExactly([], View(entries, windowStart));
    ViewTokens(entries, windowStart);
    InSplits([SystemMessage(prompt)], Splice(core, i, grounding));
    OneMessage(SystemMessage(prompt));
    InSplits(core[..i] + grounding, core[i..]);
    InSplits(core[..i], grounding);
    InSplits(core[..i], core[i..]);
    assert core == core[..i] + core[i..];
  }

  lemma {:induction false} NoMessages()
    ensures TokensIn([]) == [] && SaidIn([]) == [] && Shaped([]) && !AnswerLast([])
    ensures forall tokens: seq<Token> :: [] + tokens == tokens
  {
  }

  predicate IsAnswer(x: Message, id: string) {
    x.toolCallId == Some(id)
  }

  predicate HasCall(x: Message, c: Call) {
    x.toolCalls.Some? && c in x.toolCalls.value
  }

  lemma {:induction false} HeadCounts(x: Message, id: string)
    ensures AnswerCount(TokensOf(x), id) == if IsAnswer(x, id) then 1 else 0
    ensures forall c: Call :: HasCall(x, c) && c.id == id ==> Asked(TokensOf(x), id) > 0
  {
    var asks := if x.toolCalls.Some? then AskTokens(x.toolCalls.value) else [];
    var answer := if x.toolCallId.Some? then [Answers(x.role, x.toolCallId.value, x.content)] else [];
    CountsSplit(asks, answer, id);
    assert answer != [] ==> answer[1..] == [];
    if x.toolCalls.Some? {
      AskedByCalls(x.toolCalls.value, id);
      forall c: Call | c in x.toolCalls.value && c.id == id ensures Pending(x.toolCalls.value)[id] > 0 {
        CallIsPending(x.toolCalls.value, c);
      }
    }
  }

  lemma {:induction false} CallIsPending(calls: seq<Call>, c: Call)
    requires c in calls
    ensures Pending(calls)[c.id] > 0
  {
    assert Ids(calls) == [calls[0].id] + Ids(calls[1..]);
    if calls[0] != c {
      assert c in calls[1..];
      CallIsPending(calls[1..], c);
    }
  }

  lemma {:induction false} AnswerFound(messages: seq<Message>, id: string) returns (j: nat)
    requires AnswerCount(TokensIn(messages), id) > 0
    ensures j < |messages| && IsAnswer(messages[j], id)
  {
    hide TokensOf;
    if messages == [] {
      assert false;
    } else {
      CountsSplit(TokensOf(messages[0]), TokensIn(messages[1..]), id);
      HeadCounts(messages[0], id);
      if IsAnswer(messages[0], id) {
        j := 0;
      } else {
        j := AnswerFound(messages[1..], id);
        j := j + 1;
      }
    }
  }

  lemma {:induction false} AnswersCounted(messages: seq<Message>, id: string, j: nat, k: nat)
    requires k < |messages| && IsAnswer(messages[k], id)
    ensures AnswerCount(TokensIn(messages), id) >= 1
    ensures j < k && IsAnswer(messages[j], id) ==> AnswerCount(TokensIn(messages), id) >= 2
  {
    hide TokensOf;
    CountsSplit(TokensOf(messages[0]), TokensIn(messages[1..]), id);
    HeadCounts(messages[0], id);
    if k > 0 {
      AnswersCounted(messages[1..], id, if j == 0 then 0 else j - 1, k - 1);
    }
  }

  lemma {:induction false} AnswerComesFrom(entries: seq<Entry>, role: string, id: string, content: Option<string>)
      returns (n: nat)
    requires Answers(role, id, content) in TokensFrom(entries)
    ensures n < |entries| && !entries[n].skipContext && role == "tool"
    ensures content.Some? && entries[n].body == ToolResult(id, content.value)
  {
    if Answers(role, id, content) in EntryTokens(entries[0]) {
      n := 0;
    } else {
      n := AnswerComesFrom(entries[1..], role, id, content);
      n := n + 1;
    }
  }

  lemma {:induction false} TokenOfMessage(messages: seq<Message>, x: Message)
    requires x in messages
    ensures forall t :: t in TokensOf(x) ==> t in TokensIn(messages)
  {
    hide TokensOf;
    if messages[0] != x {
      assert x in messages[1..];
      TokenOfMessage(messages[1..], x);
    }
  }

  lemma {:induction false} AskersAnswerNothing(prompt: string, entries: seq<Entry>, windowStart: nat,
                                               grounding: seq<Message>, x: Message)
    requires windowStart <= |entries| && TokensIn(grounding) == []
    requires x in Compose(prompt, Core(entries, windowStart), grounding) && x.toolCalls.Some?
    ensures x.toolCallId.None?
  {
    hide Extend, View, TokensIn;
    var core := Core(entries, windowStart);
    assert core == core[..InsertIndex(core)] + core[InsertIndex(core)..];
    if x in core {
      BuildIsShaped([], View(entries, windowStart));
    } else if x in grounding {
      assert x.toolCallId.Some? ==> Answers(x.role, x.toolCallId.value, x.content) in TokensOf(x);
      TokenOfMessage(grounding, x);
    }
  }

  /**
   On a tape whose visible calls all have their results, a request answers every call that it shows: after
   the message with the call comes a tool message with its id, whose content is that of a visible result
   in the window, and when the tape uses the id for one call only, no other message answers it.
   */
  lemma {:induction false} RequestAnswersItsCalls(prompt: string, entries: seq<Entry>, windowStart: nat,
                                                  grounding: seq<Message>, i: nat, c: Call)
      returns (j: nat, n: nat)
    requires windowStart <= |entries| && PairedAs(entries, false) && TokensIn(grounding) == []
    requires !Swallows(false, View(entries, windowStart))
    requires i < |Compose(prompt, Core(entries, windowStart), grounding)|
    requires HasCall(Compose(prompt, Core(entries, windowStart), grounding)[i], c)
    ensures var request := Compose(prompt, Core(entries, windowStart), grounding);
            && i < j < |request| && request[j].role == "tool" && IsAnswer(request[j], c.id)
            && windowStart <= n < |entries| && !entries[n].skipContext && request[j].content.Some?
            && entries[n].body == ToolResult(c.id, request[j].content.value)
            && (Asked(TokensFrom(entries), c.id) == 1 ==>
                  forall k :: 0 <= k < |request| && IsAnswer(request[k], c.id) ==> k == j)
  {
    hide TokensFrom, TokensIn, TokensOf, Compose, Core, View, Swallows, Debt, PairedAs, Asked;
    var request, window := Compose(prompt, Core(entries, windowStart), grounding), entries[windowStart..];
    RequestTokens(prompt, entries, windowStart, grounding);
    ViewTokens(entries, windowStart);
    var before := TokensFrom(entries[..windowStart]);
    AskersAnswerNothing(prompt, entries, windowStart, grounding, request[i]);
    assert request == request[..i] + request[i..];
    WindowIsPaid(entries, before, request[..i], request[i..], c.id);
    j := AnsweredLater(request, i, c);
    n := AnswerIsOnTape(request, j, c.id, window);
    n := windowStart + n;
    CountsSplit(before, TokensIn(request), c.id);
    if Asked(TokensFrom(entries), c.id) == 1 {
      forall k | 0 <= k < |request| && IsAnswer(request[k], c.id) ensures k == j {
        AnswersCounted(request, c.id, if k < j then k else j, if k < j then j else k);
      }
    }
  }

  /** The calls of a message are answered after it, when they are answered from there on. */
  lemma {:induction false} AnsweredLater(messages: seq<Message>, i: nat, c: Call) returns (j: nat)
    requires i < |messages| && HasCall(messages[i], c) && messages[i].toolCallId.None?
    requires Asked(TokensIn(messages[i..]), c.id) <= AnswerCount(TokensIn(messages[i..]), c.id)
    ensures i < j < |messages| && IsAnswer(messages[j], c.id)
  {
    hide TokensOf, TokensIn, Asked, AnswerCount;
    assert messages[i..] == [messages[i]] + messages[i + 1..];
    InSplits([messages[i]], messages[i + 1..]);
    OneMessage(messages[i]);
    HeadCounts(messages[i], c.id);
    CountsSplit(TokensOf(messages[i]), TokensIn(messages[i + 1..]), c.id);
    j := AnswerFound(messages[i + 1..], c.id);
    j := i + 1 + j;
  }

  lemma {:induction false} WindowIsPaid(entries: seq<Entry>, before: seq<Token>, front: seq<Message>,
                                        back: seq<Message>, id: string)
    requires PairedAs(entries, false) && TokensFrom(entries) == before + TokensIn(front + back)
    ensures Asked(TokensIn(back), id) <= AnswerCount(TokensIn(back), id)
    ensures Asked(TokensFrom(entries), id) == AnswerCount(TokensFrom(entries), id)
  {
    hide TokensFrom, TokensIn, Debt, Asked, AnswerCount;
    InSplits(front, back);
    var k := |before| + |TokensIn(front)|;
    PaidInFull(entries, multiset{}, id);
    PaidFromAnyPoint(entries, multiset{}, k, id);
    assert TokensFrom(entries)[k..] == TokensIn(back);
  }

  lemma {:induction false} AnswerIsOnTape(messages: seq<Message>, j: nat, id: string, window: seq<Entry>)
      returns (n: nat)
    requires TokensIn(messages) == TokensFrom(window) && j < |messages| && IsAnswer(messages[j], id)
    ensures n < |window| && !window[n].skipContext && messages[j].role == "tool" && messages[j].content.Some?
    ensures window[n].body == ToolResult(id, messages[j].content.value)
  {
    hide TokensIn, TokensFrom;
    TokenOfMessage(messages, messages[j]);
    assert Answers(messages[j].role, id, messages[j].content) in TokensOf(messages[j]);
    n := AnswerComesFrom(window, messages[j].role, id, messages[j].content);
  }

  /** After each call of the request comes a tool message with its id, the only one if the tape uses the id once. */
  ghost predicate AnswersItsCalls(request: seq<Message>, entries: seq<Entry>) {
    forall i, c :: 0 <= i < |request| && HasCall(request[i], c) ==>
      && AnsweredAfter(request, i, c.id)
      && (Asked(TokensFrom(entries), c.id) == 1 ==> AtMostOneAnswer(request, c.id))
  }

  ghost predicate AnsweredAfter(request: seq<Message>, i: nat, id: string) {
    exists j :: i < j < |request| && request[j].role == "tool" && IsAnswer(request[j], id)
  }

  ghost predicate AtMostOneAnswer(request: seq<Message>, id: string) {
    forall j, k :: 0 <= j < |request| && 0 <= k < |request| && IsAnswer(request[j], id) && IsAnswer(request[k], id)
      ==> j == k
  }

  /** The grounding block holds no calls and no results, and no calls come in the role of the tools. */
  predicate Plain(entries: seq<Entry>, windowStart: nat, grounding: seq<Message>)
    requires windowStart <= |entries|
  {
    TokensIn(grounding) == [] && !Swallows(false, View(entries, windowStart))
  }

  lemma {:induction false} PairedTapeIsAnswered(prompt: string, entries: seq<Entry>, windowStart: nat,
                                                grounding: seq<Message>)
    requires windowStart <= |entries| && PairedAs(entries, false) && Plain(entries, windowStart, grounding)
    ensures AnswersItsCalls(Compose(prompt, Core(entries, windowStart), grounding), entries)
  {
    hide Compose, Core, View, Swallows, PairedAs, TokensFrom, TokensIn, Asked;
    var request := Compose(prompt, Core(entries, windowStart), grounding);
    forall i, c | 0 <= i < |request| && HasCall(request[i], c)
      ensures AnsweredAfter(request, i, c.id)
      ensures Asked(TokensFrom(entries), c.id) == 1 ==> AtMostOneAnswer(request, c.id)
    {
      var j, n := RequestAnswersItsCalls(prompt, entries, windowStart, grounding, i, c);
    }
  }

  // ---------- Calls in the role of the tools ----------

  lemma {:induction false} OtherRolesSwallowNothing(last: bool, entries: seq<Entry>)
    requires forall e :: e in entries && IsCall(e) && !e.skipContext ==> e.body.role != "tool"
    ensures !Swallows(last, entries)
    decreases |entries|
  {
    if entries != [] {
      assert entries[0] in entries;
      if Silent(entries[0]) {
        OtherRolesSwallowNothing(last, entries[1..]);
      } else if IsCall(entries[0]) {
        OtherRolesSwallowNothing(false, entries[RunLength(entries)..]);
      } else {
        OtherRolesSwallowNothing(entries[0].body.ToolResult? && entries[0].body.content != "", entries[1..]);
      }
    }
  }

  /** Calls in the role of the tools take the place of the result before them, and its call stays unanswered. */
  lemma {:induction false} AnswerIsSwallowed(id: string, content: string, next: Call)
    requires content != ""
    ensures var result := Entry(ToolResult(id, content), false, false, false);
            var calls := Entry(ToolCalls("tool", [next], ""), false, false, false);
            Extend([], [result, calls]) == [Message("tool", Some(content), "", Some([next]), None)]
  {
    var result := Entry(ToolResult(id, content), false, false, false);
    var calls := Entry(ToolCalls("tool", [next], ""), false, false, false);
    var first := Message("tool", Some(content), "", None, Some(id));
    assert [result, calls][1..] == [calls] && [] + MessageOf(result) == [first];
    assert Extend([], [result, calls]) == Extend([first], [calls]);
    assert RunLength([calls]) == 1 && [calls][1..] == [] && [calls][..1] == [calls];
    assert CallsOf([calls]) == [next] + [] == [next] && FirstReasoning([calls]) == FirstReasoning([]) == "";
    var asking := Message("tool", None, "", Some([next]), None);
    assert RunMessage([calls]) == asking;
    assert Extend([first], [calls]) == Extend(Attach([first], asking), []);
  }
}

/**
 Laws of `Extend`: when building from two pieces equals building from the whole, when appending
 leaves the earlier messages alone, and what every build conserves.
 */
module ContextLaws {
  import opened Wrappers
  import opened TapeModel
  import opened ContextBuilder

  // ---------- Locality ----------

  /** Appending touches nothing before the last message. */
  lemma {:induction false} ExtendFrame(x: seq<Message>, y: seq<Message>, c: seq<Entry>)
    requires y != []
    ensures Extend(x + y, c) == x + Extend(y, c)
    decreases |c|
  {
    if c == [] {
    } else if c[0].skipContext {
      ExtendFrame(x, y, c[1..]);
    } else if IsCall(c[0]) {
      var n := RunLength(c);
      var message := RunMessage(c[..n]);
      assert Attach(x + y, message) == x + Attach(y, message);
      ExtendFrame(x, Attach(y, message), c[n..]);
    } else {
      assert (x + y) + MessageOf(c[0]) == x + (y + MessageOf(c[0]));
      ExtendFrame(x, y + MessageOf(c[0]), c[1..]);
    }
  }

  /** The first message that `c` produces is a tool-call message merged into the last of `x`. */
  predicate Absorbs(x: seq<Message>, c: seq<Entry>) {
    && x != []
    && c != []
    && if c[0].skipContext then Absorbs(x, c[1..])
       else if IsCall(c[0]) then Mergeable(x[|x| - 1], c[0].body.role)
       else MessageOf(c[0]) == [] && Absorbs(x, c[1..])
  }

  lemma {:induction false} ToolCallMessageAbsorbsNothing(x: seq<Message>, c: seq<Entry>)
    requires x != [] && x[|x| - 1].toolCalls.Some?
    ensures !Absorbs(x, c)
  {
    if c != [] {
      ToolCallMessageAbsorbsNothing(x, c[1..]);
    }
  }

  lemma {:induction false} AbsorbedLast(x: seq<Message>, c: seq<Entry>)
    requires Absorbs(x, c)
    ensures |Extend(x, c)| >= |x|
    ensures Extend(x, c)[|x| - 1] != x[|x| - 1]
    decreases |c|
  {
    if c[0].skipContext {
      AbsorbedLast(x, c[1..]);
    } else if IsCall(c[0]) {
      var n := RunLength(c);
      var merged := Attach(x, RunMessage(c[..n]));
      var k := |x| - 1;
      assert merged == x[..k] + [merged[k]] && merged[k].toolCalls.Some?;
      ToolCallMessageAbsorbsNothing([merged[k]], c[n..]);
      KeepsPrefix([merged[k]], c[n..]);
      ExtendFrame(x[..k], [merged[k]], c[n..]);
    } else {
      assert x + MessageOf(c[0]) == x;
      AbsorbedLast(x, c[1..]);
    }
  }

  lemma {:induction false} KeepsPrefix(x: seq<Message>, c: seq<Entry>)
    requires !Absorbs(x, c)
    ensures Extend(x, c) == x + Extend([], c)
    decreases |c|
  {
    if c == [] {
      assert x + [] == x;
    } else if c[0].skipContext {
      KeepsPrefix(x, c[1..]);
    } else if IsCall(c[0]) {
      var n := RunLength(c);
      var message := RunMessage(c[..n]);
      assert Attach([], message) == [message];
      assert Attach(x, message) == x + [message];
      ExtendFrame(x, [message], c[n..]);
    } else if MessageOf(c[0]) == [] {
      assert x + MessageOf(c[0]) == x && [] + MessageOf(c[0]) == [];
      KeepsPrefix(x, c[1..]);
    } else {
      assert [] + MessageOf(c[0]) == MessageOf(c[0]);
      ExtendFrame(x, MessageOf(c[0]), c[1..]);
    }
  }

  /** Messages built earlier stay a prefix exactly when no tool-call message merges into the last. */
  lemma {:induction false} PrefixKeptExactly(x: seq<Message>, c: seq<Entry>)
    ensures |x| <= |Extend(x, c)|
    ensures x == Extend(x, c)[..|x|] <==> !Absorbs(x, c)
    ensures !Absorbs(x, c) ==> Extend(x, c) == x + Extend([], c)
  {
    if Absorbs(x, c) {
      AbsorbedLast(x, c);
    } else {
      KeepsPrefix(x, c);
    }
  }

  // ---------- Splitting the tape ----------

  /** `a` ends inside a run of tool calls that already holds a visible call. */
  predicate OpenRun(a: seq<Entry>) {
    a != [] && ((IsCall(a[0]) && !a[0].skipContext && RunLength(a) == |a|) || OpenRun(a[1..]))
  }

  /** `b` starts with tool calls, one of them visible. */
  predicate ContinuesRun(b: seq<Entry>) {
    b != [] && IsCall(b[0]) && (!b[0].skipContext || ContinuesRun(b[1..]))
  }

  lemma {:induction false} OpenRunIsLast(a: seq<Entry>)
    requires RunLength(a) < |a|
    ensures OpenRun(a) == OpenRun(a[RunLength(a)..])
  {
    if a != [] && IsCall(a[0]) {
      OpenRunIsLast(a[1..]);
      assert a[1..][RunLength(a[1..])..] == a[RunLength(a)..];
    }
  }

  lemma {:induction false} RunLengthSplits(a: seq<Entry>, b: seq<Entry>)
    ensures RunLength(a + b) == if RunLength(a) < |a| then RunLength(a) else |a| + RunLength(b)
  {
    if a == [] {
      assert a + b == b;
    } else {
      assert (a + b)[1..] == a[1..] + b;
      RunLengthSplits(a[1..], b);
    }
  }

  /** Tool calls that are all skipped produce nothing. */
  lemma {:induction false} SkippedRun(m: seq<Message>, b: seq<Entry>)
    requires !ContinuesRun(b)
    ensures Extend(m, b) == Extend(m, b[RunLength(b)..])
    ensures CallsOf(b[..RunLength(b)]) == [] && FirstReasoning(b[..RunLength(b)]) == ""
  {
    if b == [] || !IsCall(b[0]) {
      assert b[0..] == b;
    } else {
      SkippedRun(m, b[1..]);
      assert b[1..][RunLength(b[1..])..] == b[RunLength(b)..];
      assert b[..RunLength(b)][1..] == b[1..][..RunLength(b[1..])];
    }
  }

  /** The first visible call of a leading run opens one message for the run. */
  lemma {:induction false} ContinuedRun(m: seq<Message>, b: seq<Entry>) returns (message: Message)
    requires ContinuesRun(b)
    ensures message.toolCalls.Some?
    ensures Extend(m, b) == Extend(Attach(m, message), b[RunLength(b)..])
  {
    if b[0].skipContext {
      message := ContinuedRun(m, b[1..]);
      assert b[1..][RunLength(b[1..])..] == b[RunLength(b)..];
    } else {
      message := RunMessage(b[..RunLength(b)]);
    }
  }

  lemma {:induction false} SplitFaithful(m: seq<Message>, a: seq<Entry>, b: seq<Entry>)
    requires !(OpenRun(a) && ContinuesRun(b))
    ensures Extend(Extend(m, a), b) == Extend(m, a + b)
    decreases |a|
  {
    if a == [] {
      assert a + b == b;
    } else if a[0].skipContext {
      assert (a + b)[1..] == a[1..] + b;
      SplitFaithful(m, a[1..], b);
    } else if !IsCall(a[0]) {
      assert (a + b)[1..] == a[1..] + b;
      SplitFaithful(m + MessageOf(a[0]), a[1..], b);
    } else {
      RunLengthSplits(a, b);
      var n := RunLength(a);
      if n < |a| {
        OpenRunIsLast(a);
        assert (a + b)[..n] == a[..n] && (a + b)[n..] == a[n..] + b;
        SplitFaithful(Attach(m, RunMessage(a[..n])), a[n..], b);
      } else {
        RunCompleted(m, a, b);
      }
    }
  }

  /** One unfolding of `Extend` at a visible tool call. */
  lemma {:induction false} ExtendRun(m: seq<Message>, a: seq<Entry>)
    requires a != [] && IsCall(a[0]) && !a[0].skipContext
    ensures Extend(m, a) == Extend(Attach(m, RunMessage(a[..RunLength(a)])), a[RunLength(a)..])
  {
  }

  lemma {:induction false} RunCompleted(m: seq<Message>, a: seq<Entry>, b: seq<Entry>)
    requires a != [] && IsCall(a[0]) && !a[0].skipContext && RunLength(a) == |a| && !ContinuesRun(b)
    ensures Extend(Extend(m, a), b) == Extend(m, a + b)
  {
    hide Attach;
    var n, k := |a|, RunLength(b);
    var joined := Attach(m, RunMessage(a));
    RunLengthSplits(a, b);
    assert a[..n] == a && a[n..] == [];
    ExtendRun(m, a);
    ExtendRun(m, a + b);
    SkippedRun(joined, b);
    CallsOfSplits(a, b[..k]);
    FirstReasoningSplits(a, b[..k]);
    assert (a + b)[..n + k] == a + b[..k] && (a + b)[n + k..] == b[k..];
    assert RunMessage(a + b[..k]) == RunMessage(a) by {
      assert CallsOf(a) + [] == CallsOf(a);
    }
  }

  lemma {:induction false} SplitSpoils(m: seq<Message>, a: seq<Entry>, b: seq<Entry>)
    requires OpenRun(a) && ContinuesRun(b)
    ensures |Extend(Extend(m, a), b)| == |Extend(m, a + b)| + 1
    decreases |a|
  {
    if a[0].skipContext {
      assert (a + b)[1..] == a[1..] + b;
      SplitSpoils(m, a[1..], b);
    } else if !IsCall(a[0]) {
      assert (a + b)[1..] == a[1..] + b;
      SplitSpoils(m + MessageOf(a[0]), a[1..], b);
    } else {
      RunLengthSplits(a, b);
      var n := RunLength(a);
      if n < |a| {
        OpenRunIsLast(a);
        assert (a + b)[..n] == a[..n] && (a + b)[n..] == a[n..] + b;
        SplitSpoils(Attach(m, RunMessage(a[..n])), a[n..], b);
      } else {
        RunTornApart(m, a, b);
      }
    }
  }

  lemma {:induction false} RunTornApart(m: seq<Message>, a: seq<Entry>, b: seq<Entry>)
    requires a != [] && IsCall(a[0]) && !a[0].skipContext && RunLength(a) == |a| && ContinuesRun(b)
    ensures |Extend(Extend(m, a), b)| == |Extend(m, a + b)| + 1
  {
    hide RunMessage;
    var rest := b[RunLength(b)..];
    var first := WholeRun(m, a);
    var joined := JoinedRun(m, a, b);
    var second := ContinuedRun(Attach(m, first), b);
    ClosedExtend(Attach(m, first) + [second], rest);
    ClosedExtend(Attach(m, joined), rest);
    assert Attach(Attach(m, first), second) == Attach(m, first) + [second];
  }

  lemma {:induction false} WholeRun(m: seq<Message>, a: seq<Entry>) returns (message: Message)
    requires a != [] && IsCall(a[0]) && !a[0].skipContext && RunLength(a) == |a|
    ensures message.toolCalls.Some? && message.role == a[0].body.role
    ensures Extend(m, a) == Attach(m, message)
  {
    ExtendRun(m, a);
    message := RunMessage(a[..|a|]);
  }

  lemma {:induction false} JoinedRun(m: seq<Message>, a: seq<Entry>, b: seq<Entry>) returns (message: Message)
    requires a != [] && IsCall(a[0]) && !a[0].skipContext && RunLength(a) == |a|
    ensures message.toolCalls.Some? && message.role == a[0].body.role
    ensures Extend(m, a + b) == Extend(Attach(m, message), b[RunLength(b)..])
  {
    var k := |a| + RunLength(b);
    RunLengthSplits(a, b);
    ExtendRun(m, a + b);
    message := RunMessage((a + b)[..k]);
    assert (a + b)[k..] == b[RunLength(b)..];
  }

  lemma {:induction false} ClosedExtend(x: seq<Message>, c: seq<Entry>)
    requires x != [] && x[|x| - 1].toolCalls.Some?
    ensures Extend(x, c) == x + Extend([], c)
  {
    ToolCallMessageAbsorbsNothing(x, c);
    KeepsPrefix(x, c);
  }

  /**
   Building from two pieces of a tape equals building from the whole exactly when the split point
   does not lie inside a run of tool calls with visible calls on both sides.
   */
  lemma {:induction false} SplitExactly(m: seq<Message>, a: seq<Entry>, b: seq<Entry>)
    ensures Extend(Extend(m, a), b) == Extend(m, a + b) <==> !(OpenRun(a) && ContinuesRun(b))
  {
    if OpenRun(a) && ContinuesRun(b) {
      SplitSpoils(m, a, b);
    } else {
      SplitFaithful(m, a, b);
    }
  }

  // ---------- What every build conserves ----------

  function CallsIn(messages: seq<Message>): seq<Call> {
    if messages == [] then []
    else (if messages[0].toolCalls.Some? then messages[0].toolCalls.value else []) + CallsIn(messages[1..])
  }

  lemma {:induction false} CallsInSplits(x: seq<Message>, y: seq<Message>)
    ensures CallsIn(x + y) == CallsIn(x) + CallsIn(y)
  {
    if x == [] {
      assert x + y == y;
    } else {
      assert (x + y)[1..] == x[1..] + y;
      CallsInSplits(x[1..], y);
    }
  }

  lemma {:induction false} AttachAddsCalls(m: seq<Message>, message: Message)
    requires message.toolCalls.Some?
    ensures CallsIn(Attach(m, message)) == CallsIn(m) + message.toolCalls.value
  {
    if m != [] && Mergeable(m[|m| - 1], message.role) {
      var k := |m| - 1;
      assert m == m[..k] + [m[k]];
      CallsInSplits(m[..k], [m[k]]);
      CallsInSplits(m[..k], [Attach(m, message)[k]]);
      assert [m[k]][1..] == [] && [Attach(m, message)[k]][1..] == [];
    } else {
      CallsInSplits(m, [message]);
      assert [message][1..] == [];
    }
  }

  lemma {:induction false} MessageHasNoCalls(e: Entry)
    requires !IsCall(e)
    ensures CallsIn(MessageOf(e)) == []
  {
  }

  lemma {:induction false} RunCallsConserved(m: seq<Message>, entries: seq<Entry>)
    requires entries != [] && IsCall(entries[0]) && !entries[0].skipContext
    ensures CallsIn(Extend(m, entries)) == CallsIn(m) + CallsOf(entries)
    decreases |entries|, 0
  {
    hide Attach, CallsIn, CallsOf, Extend, FirstReasoning;
    var n := RunLength(entries);
    var message, rest := RunMessage(entries[..n]), entries[n..];
    ExtendRun(m, entries);
    AttachAddsCalls(m, message);
    CallsConserved(Attach(m, message), rest);
    assert entries == entries[..n] + rest;
    CallsOfSplits(entries[..n], rest);
    assert CallsIn(m) + CallsOf(entries[..n]) + CallsOf(rest) == CallsIn(m) + CallsOf(entries);
  }

  /** The calls of the visible tool-call entries reach the model once each and in tape order. */
  lemma {:induction false} CallsConserved(m: seq<Message>, entries: seq<Entry>)
    ensures CallsIn(Extend(m, entries)) == CallsIn(m) + CallsOf(entries)
    decreases |entries|, 1
  {
    hide Attach, Mergeable, FirstReasoning, MessageOf, CallsIn;
    if entries == [] {
      assert CallsIn(m) + CallsOf([]) == CallsIn(m);
    } else if entries[0].skipContext {
      CallsConserved(m, entries[1..]);
    } else if IsCall(entries[0]) {
      RunCallsConserved(m, entries);
    } else {
      CallsInSplits(m, MessageOf(entries[0]));
      MessageHasNoCalls(entries[0]);
      CallsConserved(m + MessageOf(entries[0]), entries[1..]);
    }
  }

  /** A tool-call message that follows a text of its own role has a text merged into it already. */
  predicate Alternates(messages: seq<Message>) {
    forall i :: 0 < i < |messages| && messages[i].toolCalls.Some? && messages[i].content.None?
      ==> !Mergeable(messages[i - 1], messages[i].role)
  }

  lemma {:induction false} BuildAlternates(m: seq<Message>, entries: seq<Entry>)
    requires Alternates(m)
    ensures Alternates(Extend(m, entries))
    decreases |entries|
  {
    if entries == [] {
    } else if entries[0].skipContext {
      BuildAlternates(m, entries[1..]);
    } else if IsCall(entries[0]) {
      var n := RunLength(entries);
      BuildAlternates(Attach(m, RunMessage(entries[..n])), entries[n..]);
    } else {
      BuildAlternates(m + MessageOf(entries[0]), entries[1..]);
    }
  }
}

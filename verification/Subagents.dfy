/**
 What the subagent tool does to tapes (`coding_agent/tools/subagent.py`): the child starts on a copy of
 its parent's tape without the calls at its end, and its trace goes back to the parent's tape, hidden.
 */
module Subagents {
  import opened Wrappers
  import opened TapeModel
  import opened ToolPairing
  import opened ToolLoop

  // ---------- The child's tape ----------

  function Popped(entries: seq<Entry>): (rest: seq<Entry>)
    ensures rest <= entries
    ensures rest != [] ==> !IsCall(rest[|rest| - 1])
  {
    if entries != [] && IsCall(entries[|entries| - 1]) then Popped(entries[..|entries| - 1]) else entries
  }

  /** `_fork_child_tape`: the child has its own tape. */
  method ForkChildTape(parent: Tape) returns (child: Tape)
    requires parent.Valid()
    ensures fresh(child) && child.entries == Popped(parent.entries) && child.windowStart == parent.windowStart
  {
    var entries := parent.entries;
    while entries != [] && IsCall(entries[|entries| - 1])
      invariant Popped(entries) == Popped(parent.entries)
    {
      entries := entries[..|entries| - 1];
    }
    child := new Tape([], 0);
    child.entries, child.windowStart := entries, parent.windowStart;
  }

  lemma {:induction false} PoppedJoin(a: seq<Entry>, b: seq<Entry>)
    requires Popped(b) != []
    ensures Popped(a + b) == a + Popped(b)
    decreases |b|
  {
    assert (a + b)[..|a + b| - 1] == a + b[..|b| - 1];
    if IsCall(b[|b| - 1]) {
      PoppedJoin(a, b[..|b| - 1]);
    }
  }

  lemma {:induction false} PoppedLast(a: seq<Entry>, e: Entry)
    ensures Popped(a + [e]) == if IsCall(e) then Popped(a) else a + [e]
  {
    assert (a + [e])[..|a|] == a;
  }

  /** On a paired tape the calls at the end name nobody, so that the tape stays paired without them. */
  lemma {:induction false} PoppedStaysPaired(entries: seq<Entry>)
    requires Paired(entries)
    ensures Paired(Popped(entries))
    decreases |entries|
  {
    if entries != [] && IsCall(entries[|entries| - 1]) {
      var front, last := entries[..|entries| - 1], entries[|entries| - 1];
      assert entries == front + [last];
      DebtSplits(front, [last], multiset{});
      assert [last][1..] == [];
      var owed := Debt(front, multiset{}).value;
      assert owed <= owed + Pending(last.body.calls);
      PoppedStaysPaired(front);
    }
  }

  /** No executable call comes before a rejected one. */
  predicate RejectedFirst(steps: seq<Step>) {
    forall i, j :: 0 <= i < j < |steps| && steps[i].verdict.Cleared? ==> steps[j].verdict.Cleared?
  }

  lemma {:induction false} CallEntriesJoin(steps: seq<Step>, reasoning: string)
    requires steps != []
    ensures var n := |steps| - 1;
      CallEntries(steps, reasoning)
      == CallEntries(steps[..n], reasoning) + StepEntries(steps[n], if n == 0 then reasoning else "")
    decreases |steps|
  {
    hide StepEntries;
    var n := |steps| - 1;
    if n > 0 {
      var first, last := StepEntries(steps[0], reasoning), StepEntries(steps[n], "");
      assert steps[1..][..n - 1] == steps[..n][1..];
      CallEntriesJoin(steps[1..], "");
      assert first + (CallEntries(steps[..n][1..], "") + last) == (first + CallEntries(steps[..n][1..], "")) + last;
    }
  }

  lemma {:induction false} ExecutableJoin(steps: seq<Step>)
    requires steps != []
    ensures var n := |steps| - 1;
      Executable(steps) == Executable(steps[..n]) + if steps[n].verdict.Cleared? then [steps[n].call] else []
    decreases |steps|
  {
    var n := |steps| - 1;
    if n > 0 {
      var first := if steps[0].verdict.Cleared? then [steps[0].call] else [];
      var last := if steps[n].verdict.Cleared? then [steps[n].call] else [];
      var between := Executable(steps[..n][1..]);
      assert steps[1..][..n - 1] == steps[..n][1..];
      ExecutableJoin(steps[1..]);
      assert Executable(steps) == first + Executable(steps[1..]) && Executable(steps[..n]) == first + between;
      assert first + (between + last) == (first + between) + last;
    }
  }

  lemma {:induction false} RejectedFirstUnfolds(steps: seq<Step>)
    requires steps != []
    ensures var n := |steps| - 1;
      RejectedFirst(steps)
      <==> RejectedFirst(steps[..n]) && (steps[n].verdict.Cleared? || Executable(steps[..n]) == [])
  {
    var n := |steps| - 1;
    ExecutableMeans(steps[..n]);
    assert RejectedFirst(steps) ==> RejectedFirst(steps[..n]);
    if Executable(steps[..n]) != [] && !steps[n].verdict.Cleared? {
      var i :| 0 <= i < n && steps[..n][i].verdict.Cleared?;
      assert steps[i].verdict.Cleared?;
    }
  }

  lemma {:induction false} ExecutableMeans(steps: seq<Step>)
    ensures Executable(steps) != [] <==> exists i :: 0 <= i < |steps| && steps[i].verdict.Cleared?
    decreases |steps|
  {
    if steps != [] {
      ExecutableMeans(steps[1..]);
      assert forall i :: 0 <= i < |steps[1..]| ==> steps[1..][i] == steps[i + 1];
      if !steps[0].verdict.Cleared? {
        if i :| 0 <= i < |steps| && steps[i].verdict.Cleared? {
          assert steps[1..][i - 1].verdict.Cleared?;
        }
      }
    }
  }

  lemma {:induction false} OwedAfterCalls(before: seq<Entry>, steps: seq<Step>, reasoning: string)
    requires Paired(before)
    ensures Owes(before + CallEntries(steps, reasoning), Pending(Executable(steps)))
  {
    CallsOwed(steps, reasoning, multiset{});
    assert multiset{} + Pending(Executable(steps)) == Pending(Executable(steps));
    OwesAfter(before, CallEntries(steps, reasoning), multiset{}, Pending(Executable(steps)));
  }

  /**
   The child of the first subagent call of a round starts on a tape on which each call has its result
   exactly when no executable call of that round comes before a rejected one: the result of a rejected
   call is recorded at once, and stops the removal of the calls before it.
   */
  lemma {:induction false} ChildStartsPairedExactly(before: seq<Entry>, steps: seq<Step>, reasoning: string)
    requires Paired(before)
    ensures Paired(Popped(before + CallEntries(steps, reasoning))) <==> RejectedFirst(steps)
    decreases |steps|
  {
    hide CallEntries, Executable, RejectedFirst, Paired;
    if steps == [] {
      assert before + CallEntries([], reasoning) == before by { NothingRecorded(before, [], reasoning); }
      PoppedStaysPaired(before);
      NoStepsAreRejectedFirst();
    } else {
      var n := |steps| - 1;
      var front, last := CallEntries(steps[..n], reasoning), StepEntries(steps[n], if n == 0 then reasoning else "");
      CallEntriesJoin(steps, reasoning);
      RejectedFirstUnfolds(steps);
      assert before + CallEntries(steps, reasoning) == (before + front) + last;
      if steps[n].verdict.Cleared? {
        assert last == [last[0]];
        PoppedLast(before + front, last[0]);
        ChildStartsPairedExactly(before, steps[..n], reasoning);
      } else {
        assert (before + front) + last == (before + front + [last[0]]) + [last[1]];
        PoppedLast(before + front + [last[0]], last[1]);
        ExecutableJoin(steps);
        assert Executable(steps[..n]) + [] == Executable(steps[..n]);
        OwedAfterCalls(before, steps, reasoning);
        PairedOwesNothing(before + CallEntries(steps, reasoning), Executable(steps));
        if Executable(steps[..n]) == [] {
          NothingExecutableIsRejectedFirst(steps[..n]);
        }
      }
    }
  }

  lemma {:induction false} NoStepsAreRejectedFirst()
    ensures RejectedFirst([])
  {
  }

  lemma {:induction false} PairedOwesNothing(entries: seq<Entry>, calls: seq<Call>)
    requires Owes(entries, Pending(calls))
    ensures Paired(entries) <==> calls == []
  {
    NothingOwedExactly(calls);
  }

  lemma {:induction false} NothingOwedExactly(calls: seq<Call>)
    ensures Pending(calls) == multiset{} <==> calls == []
  {
    if calls != [] {
      PendingSplits(calls);
      assert calls[0].id in Pending(calls);
    }
  }

  lemma {:induction false} NothingExecutableIsRejectedFirst(steps: seq<Step>)
    requires Executable(steps) == []
    ensures RejectedFirst(steps)
  {
    ExecutableMeans(steps);
  }

  // ---------- The child's trace ----------

  function Traced(entries: seq<Entry>): (traced: seq<Entry>)
    ensures |traced| == |entries|
    ensures forall i :: 0 <= i < |entries| ==> traced[i] == entries[i].(skipContext := true)
  {
    seq(|entries|, i requires 0 <= i < |entries| => entries[i].(skipContext := true))
  }

  /** `_append_child_trace_to_parent`. */
  method AppendChildTrace(parent: Tape, child: Tape, baseLength: nat)
    requires parent.Valid() && parent != child && baseLength <= |child.entries|
    modifies parent`entries
    ensures parent.Valid() && parent.entries == old(parent.entries) + Traced(child.entries[baseLength..])
  {
    var added := child.entries[baseLength..];
    for i := 0 to |added|
      invariant parent.Valid() && child.entries == old(child.entries)
      invariant parent.entries == old(parent.entries) + Traced(added)[..i]
    {
      parent.Append(added[i].(skipContext := true));
    }
  }

  lemma {:induction false} TraceIsHidden(entries: seq<Entry>)
    ensures Visible(Traced(entries)) == []
    decreases |entries|
  {
    if entries != [] {
      assert Traced(entries)[1..] == Traced(entries[1..]);
      TraceIsHidden(entries[1..]);
    }
  }

  lemma {:induction false} TraceOwesAlike(entries: seq<Entry>, pending: multiset<string>)
    ensures Debt(Traced(entries), pending) == Debt(entries, pending)
    decreases |entries|
  {
    if entries != [] {
      assert Traced(entries)[1..] == Traced(entries[1..]);
      TraceOwesAlike(entries[1..], After(entries[0], pending));
    }
  }

  /**
   The trace of a child that started on a paired tape disturbs no round of its parent exactly when
   the child's tape is paired at its end; whether it finished, failed or ran out of time. On what the
   model sees, it never disturbs one.
   */
  lemma {:induction false} TraceSettlesExactly(base: seq<Entry>, trace: seq<Entry>, owed: multiset<string>)
    requires Paired(base)
    ensures Debt(Traced(trace), owed) == Some(owed) && Paired(Traced(trace)) <==> Paired(base + trace)
    ensures Debt(Visible(Traced(trace)), owed) == Some(owed)
  {
    PairedAfterExactly(base, trace);
    TraceOwesAlike(trace, multiset{});
    TraceIsHidden(trace);
    if Paired(Traced(trace)) {
      PairedKeepsDebt(Traced(trace), owed);
    }
  }

  /**
   A later subagent of the same round finds its predecessor's trace at the end of the tape, so that
   nothing of the round is removed: its child starts with every executable call unanswered.
   */
  lemma {:induction false} LaterChildOwes(tape: seq<Entry>, owed: multiset<string>, trace: seq<Entry>)
    requires Owes(tape, owed) && Popped(trace) != [] && Paired(Popped(trace))
    ensures Owes(Popped(tape + Traced(trace)), owed)
    ensures Visible(Popped(tape + Traced(trace))) == Visible(tape)
  {
    PoppedTrace(trace);
    PoppedJoin(tape, Traced(trace));
    var kept := Popped(trace);
    TraceOwesAlike(kept, multiset{});
    PairedKeepsDebt(Traced(kept), owed);
    OwesAfter(tape, Traced(kept), owed, owed);
    TraceIsHidden(kept);
    VisibleJoins(tape, Traced(kept));
    assert Visible(tape) + [] == Visible(tape);
  }

  lemma {:induction false} PoppedTrace(trace: seq<Entry>)
    ensures Popped(Traced(trace)) == Traced(Popped(trace))
    decreases |trace|
  {
    if trace != [] && IsCall(trace[|trace| - 1]) {
      var n := |trace| - 1;
      assert Traced(trace)[..n] == Traced(trace[..n]);
      PoppedTrace(trace[..n]);
    }
  }
}

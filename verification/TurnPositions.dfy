/**
 The extracted turns on the tape: which entries the input, the calls, their results and the final output
 of a turn come from, by position.
 */
module TurnPositions {
  import opened Wrappers
  import opened TapeModel
  import opened TurnExtraction

  predicate CallAt(entries: seq<Entry>, visibility: Visibility, p: int) {
    0 <= p < |entries| && Includes(visibility, entries[p]) && IsCall(entries[p])
  }

  /** The entry at `q` is a result for this id. */
  predicate ResultAt(entries: seq<Entry>, visibility: Visibility, q: int, id: string) {
    && 0 <= q < |entries| && Includes(visibility, entries[q])
    && entries[q].body.ToolResult? && entries[q].body.callId == id
  }

  /** The entry at `r` calls under this id again. */
  predicate TakesOver(entries: seq<Entry>, visibility: Visibility, r: int, id: string) {
    CallAt(entries, visibility, r) && exists t :: 0 <= t < |entries[r].body.calls| && entries[r].body.calls[t].id == id
  }

  predicate LastOfItsId(calls: seq<Call>, j: nat)
    requires j < |calls|
  {
    forall t :: j < t < |calls| ==> calls[t].id != calls[j].id
  }

  /** The result at `q` is for call `j` of the entry at `p`: no later call has taken its id over. */
  ghost predicate Joins(entries: seq<Entry>, visibility: Visibility, p: nat, j: nat, q: int)
    requires CallAt(entries, visibility, p) && j < |entries[p].body.calls|
  {
    var id := entries[p].body.calls[j].id;
    && p < q && ResultAt(entries, visibility, q, id) && id != "" && LastOfItsId(entries[p].body.calls, j)
    && forall r :: p < r < q ==> !TakesOver(entries, visibility, r, id)
  }

  /** The content of the last result before `end` for that call; none when there is none, or it is empty. */
  ghost predicate IsJoined(entries: seq<Entry>, visibility: Visibility, p: nat, j: nat, end: nat,
                           result: Option<string>)
    requires CallAt(entries, visibility, p) && j < |entries[p].body.calls| && end <= |entries|
  {
    || (result.None? && forall q :: q < end ==> !Joins(entries, visibility, p, j, q))
    || (exists q :: && q < end && Joins(entries, visibility, p, j, q)
                    && (forall m :: q < m < end ==> !Joins(entries, visibility, p, j, m))
                    && result == if entries[q].body.content == "" then None else Some(entries[q].body.content))
  }

  /** How many calls the included entries from `from` on make before `to`. */
  function CallsBefore(entries: seq<Entry>, visibility: Visibility, from: nat, until: nat): nat
    requires until <= |entries|
    decreases until
  {
    if until <= from then 0
    else CallsBefore(entries, visibility, from, until - 1)
         + if CallAt(entries, visibility, until - 1) then |entries[until - 1].body.calls| else 0
  }

  predicate SpeaksAt(entries: seq<Entry>, visibility: Visibility, q: int) {
    && 0 <= q < |entries| && Includes(visibility, entries[q]) && entries[q].body.Text?
    && entries[q].body.role == "assistant" && entries[q].body.content != ""
  }

  /** The last text of the assistant between `from` and `end` that is not empty. */
  ghost predicate IsFinal(entries: seq<Entry>, visibility: Visibility, from: nat, end: nat, output: Option<string>) {
    || (output.None? && forall q :: from <= q < end ==> !SpeaksAt(entries, visibility, q))
    || (exists q :: && from <= q < end && SpeaksAt(entries, visibility, q)
                    && (forall m :: q < m < end ==> !SpeaksAt(entries, visibility, m))
                    && output == Some(entries[q].body.content))
  }

  /** The turn that starts with the user message at `start` and ends before `end`, entry by entry. */
  ghost predicate IsTurnAt(entries: seq<Entry>, visibility: Visibility, start: nat, end: nat, turn: Turn)
    requires start < end <= |entries|
  {
    && entries[start].body.Text? && turn.userInput == entries[start].body.content
    && |turn.toolCalls| == CallsBefore(entries, visibility, start + 1, end)
    && (forall p, j :: start < p < end && CallAt(entries, visibility, p) && 0 <= j < |entries[p].body.calls| ==>
          RecordStands(entries, visibility, start, end, p, j, turn.toolCalls))
    && IsFinal(entries, visibility, start + 1, end, turn.finalOutput)
  }

  /** Call `j` of the entry at `p` has its record, behind those of the calls before it, with its own result. */
  ghost predicate RecordStands(entries: seq<Entry>, visibility: Visibility, start: nat, end: nat, p: nat, j: nat,
                               records: seq<Record>)
    requires start < p < end <= |entries| && CallAt(entries, visibility, p) && j < |entries[p].body.calls|
  {
    var n := CallsBefore(entries, visibility, start + 1, p) + j;
    && n < |records| && records[n].call == entries[p].body.calls[j]
    && IsJoined(entries, visibility, p, j, end, records[n].result)
  }

  // ---------- From events back to positions ----------

  function Flow(entries: seq<Entry>, visibility: Visibility, from: nat, until: nat): seq<Event>
    requires from <= until <= |entries|
  {
    Events(Included(entries[from..until], visibility))
  }

  lemma {:induction false} FlowGrows(entries: seq<Entry>, visibility: Visibility, from: nat, until: nat)
    requires from <= until < |entries|
    ensures Flow(entries, visibility, from, until + 1)
         == Flow(entries, visibility, from, until)
            + if Includes(visibility, entries[until]) then EventsOf(entries[until]) else []
  {
    hide Included, EventsOf, Includes;
    IncludedOneMore(entries, from, until, visibility);
    var seen := Included(entries[from..until], visibility);
    assert (seen + [entries[until]])[..|seen|] == seen && seen + [] == seen;
    assert Events(seen) + [] == Events(seen);
  }

  lemma {:induction false} CallEventsAt(calls: seq<Call>)
    ensures |CallEvents(calls)| == |calls|
    ensures forall j :: 0 <= j < |calls| ==> CallEvents(calls)[j] == Called(calls[j])
  {
    if calls != [] {
      CallEventsAt(calls[..|calls| - 1]);
    }
  }

  /** What an entry adds stands in the flow where the flow before it ends. */
  lemma {:induction false} EntryInFlow(entries: seq<Entry>, visibility: Visibility, from: nat, p: nat, until: nat)
    requires from <= p < until <= |entries|
    ensures var before, all := Flow(entries, visibility, from, p), Flow(entries, visibility, from, until);
            var own := if Includes(visibility, entries[p]) then EventsOf(entries[p]) else [];
            && |before| + |own| <= |all| && all[..|before|] == before && all[|before|..|before| + |own|] == own
    decreases until
  {
    hide Flow, Includes, EventsOf;
    FlowGrows(entries, visibility, from, until - 1);
    if p < until - 1 {
      EntryInFlow(entries, visibility, from, p, until - 1);
    }
  }

  lemma {:induction false} ComesFrom(entries: seq<Entry>, visibility: Visibility, from: nat, until: nat, m: nat)
      returns (p: nat, j: nat)
    requires from <= until <= |entries| && m < |Flow(entries, visibility, from, until)|
    ensures from <= p < until && Includes(visibility, entries[p]) && j < |EventsOf(entries[p])|
    ensures m == |Flow(entries, visibility, from, p)| + j
    ensures Flow(entries, visibility, from, until)[m] == EventsOf(entries[p])[j]
    decreases until
  {
    hide Includes, EventsOf, Flow;
    NoFlow(entries, visibility, from);
    FlowGrows(entries, visibility, from, until - 1);
    var before := |Flow(entries, visibility, from, until - 1)|;
    if m < before {
      p, j := ComesFrom(entries, visibility, from, until - 1, m);
    } else {
      p, j := until - 1, m - before;
    }
  }

  lemma {:induction false} NoFlow(entries: seq<Entry>, visibility: Visibility, from: nat)
    requires from <= |entries|
    ensures Flow(entries, visibility, from, from) == []
  {
    assert entries[from..from] == [];
  }

  /** The place of call `j` of the entry at `p` in the flow. */
  lemma {:induction false} CallInFlow(entries: seq<Entry>, visibility: Visibility, from: nat, p: nat, j: nat, end: nat)
    requires from <= p < end <= |entries| && CallAt(entries, visibility, p) && j < |entries[p].body.calls|
    ensures var i, flow := |Flow(entries, visibility, from, p)| + j, Flow(entries, visibility, from, end);
            i < |flow| && flow[i] == Called(entries[p].body.calls[j])
  {
    hide Flow;
    EntryInFlow(entries, visibility, from, p, end);
    CallEventsAt(entries[p].body.calls);
    var before, all := |Flow(entries, visibility, from, p)|, Flow(entries, visibility, from, end);
    var own := CallEvents(entries[p].body.calls);
    assert all[before..before + |own|] == own;
    assert all[before + j] == all[before..before + |own|][j];
  }

  lemma {:induction false} ResultInFlow(entries: seq<Entry>, visibility: Visibility, from: nat, q: nat, end: nat,
                                        id: string)
    requires from <= q < end <= |entries| && ResultAt(entries, visibility, q, id)
    ensures var k, flow := |Flow(entries, visibility, from, q)|, Flow(entries, visibility, from, end);
            k < |flow| && flow[k] == Returned(id, entries[q].body.content)
  {
    hide Flow;
    EntryInFlow(entries, visibility, from, q, end);
    var before, all := |Flow(entries, visibility, from, q)|, Flow(entries, visibility, from, end);
    assert all[before] == all[before..before + 1][0];
  }

  lemma {:induction false} FlowIsOrdered(entries: seq<Entry>, visibility: Visibility, from: nat, p: nat, q: nat)
    requires from <= p < q <= |entries|
    ensures |Flow(entries, visibility, from, p)|
            + (if Includes(visibility, entries[p]) then |EventsOf(entries[p])| else 0)
         <= |Flow(entries, visibility, from, q)|
  {
    hide Flow, Includes, EventsOf;
    EntryInFlow(entries, visibility, from, p, q);
  }

  /** A result that joins a call on the tape answers it in the flow. */
  lemma {:induction false} JoinedIsAnswered(entries: seq<Entry>, visibility: Visibility, from: nat, p: nat, j: nat,
                                            q: nat, end: nat)
    requires from <= p < q < end <= |entries| && CallAt(entries, visibility, p) && j < |entries[p].body.calls|
    requires Joins(entries, visibility, p, j, q)
    ensures Answers(Flow(entries, visibility, from, end), |Flow(entries, visibility, from, p)| + j,
                    |Flow(entries, visibility, from, q)|)
  {
    hide Flow, Includes;
    var flow, calls := Flow(entries, visibility, from, end), entries[p].body.calls;
    var i, k := |Flow(entries, visibility, from, p)| + j, |Flow(entries, visibility, from, q)|;
    CallInFlow(entries, visibility, from, p, j, end);
    ResultInFlow(entries, visibility, from, q, end, calls[j].id);
    CallEventsAt(calls);
    FlowIsOrdered(entries, visibility, from, p, q);
    forall m | i < m < k && flow[m].Called? ensures flow[m].call.id != calls[j].id {
      var r, t := CalledFrom(entries, visibility, from, end, m);
      if r < p {
        FlowIsOrdered(entries, visibility, from, r, p);
        CallEventsAt(entries[r].body.calls);
        assert false;
      } else if r >= q {
        if r > q {
          FlowIsOrdered(entries, visibility, from, q, r);
        }
        assert false;
      } else if r > p {
        assert !TakesOver(entries, visibility, r, calls[j].id);
      }
    }
  }

  lemma {:induction false} CalledFrom(entries: seq<Entry>, visibility: Visibility, from: nat, end: nat, m: nat)
      returns (r: nat, t: nat)
    requires from <= end <= |entries| && m < |Flow(entries, visibility, from, end)|
    requires Flow(entries, visibility, from, end)[m].Called?
    ensures from <= r < end && CallAt(entries, visibility, r) && t < |entries[r].body.calls|
    ensures m == |Flow(entries, visibility, from, r)| + t
    ensures Flow(entries, visibility, from, end)[m] == Called(entries[r].body.calls[t])
  {
    hide Flow;
    r, t := ComesFrom(entries, visibility, from, end, m);
    if IsCall(entries[r]) {
      CallEventsAt(entries[r].body.calls);
    }
  }

  lemma {:induction false} ReturnedFrom(entries: seq<Entry>, visibility: Visibility, from: nat, end: nat, k: nat)
      returns (q: nat)
    requires from <= end <= |entries| && k < |Flow(entries, visibility, from, end)|
    requires Flow(entries, visibility, from, end)[k].Returned?
    ensures from <= q < end && k == |Flow(entries, visibility, from, q)|
    ensures var event := Flow(entries, visibility, from, end)[k];
            ResultAt(entries, visibility, q, event.callId) && entries[q].body.content == event.content
  {
    hide Flow;
    var t;
    q, t := ComesFrom(entries, visibility, from, end, k);
    if IsCall(entries[q]) {
      CallEventsAt(entries[q].body.calls);
    }
  }

  /** And what answers a call in the flow joins it on the tape. */
  lemma {:induction false} AnsweredIsJoined(entries: seq<Entry>, visibility: Visibility, from: nat, p: nat, j: nat,
                                            end: nat, k: nat) returns (q: nat)
    requires from <= p < end <= |entries| && CallAt(entries, visibility, p) && j < |entries[p].body.calls|
    requires Answers(Flow(entries, visibility, from, end), |Flow(entries, visibility, from, p)| + j, k)
    ensures p < q < end && Joins(entries, visibility, p, j, q) && k == |Flow(entries, visibility, from, q)|
    ensures Flow(entries, visibility, from, end)[k] == Returned(entries[p].body.calls[j].id, entries[q].body.content)
  {
    hide Flow, Includes;
    var flow, calls := Flow(entries, visibility, from, end), entries[p].body.calls;
    var i, id := |Flow(entries, visibility, from, p)| + j, calls[j].id;
    CallInFlow(entries, visibility, from, p, j, end);
    CallEventsAt(calls);
    q := ReturnedFrom(entries, visibility, from, end, k);
    if q < p {
      FlowIsOrdered(entries, visibility, from, q, p);
      assert false;
    }
    assert q != p;
    FlowIsOrdered(entries, visibility, from, p, q);
    forall t | j < t < |calls| ensures calls[t].id != id {
      CallInFlow(entries, visibility, from, p, t, end);
    }
    forall r | p < r < q ensures !TakesOver(entries, visibility, r, id) {
      if TakesOver(entries, visibility, r, id) {
        var t :| 0 <= t < |entries[r].body.calls| && entries[r].body.calls[t].id == id;
        CallInFlow(entries, visibility, from, r, t, end);
        CallEventsAt(entries[r].body.calls);
        FlowIsOrdered(entries, visibility, from, p, r);
        FlowIsOrdered(entries, visibility, from, r, q);
        assert false;
      }
    }
  }

  /** So the result of a record is the same read in the flow and on the tape. */
  lemma {:induction false} ResultIsJoined(entries: seq<Entry>, visibility: Visibility, from: nat, p: nat, j: nat,
                                          end: nat, result: Option<string>)
    requires from <= p < end <= |entries| && CallAt(entries, visibility, p) && j < |entries[p].body.calls|
    requires IsResultOf(Flow(entries, visibility, from, end), |Flow(entries, visibility, from, p)| + j, result)
    ensures IsJoined(entries, visibility, p, j, end, result)
  {
    hide Flow, Joins;
    var flow, i := Flow(entries, visibility, from, end), |Flow(entries, visibility, from, p)| + j;
    if k :| && Answers(flow, i, k) && result == Normalized(flow[k].content)
            && forall m :: Answers(flow, i, m) ==> m <= k {
      var q := AnsweredIsJoined(entries, visibility, from, p, j, end, k);
      forall m | q < m < end ensures !Joins(entries, visibility, p, j, m) {
        if Joins(entries, visibility, p, j, m) {
          JoinedIsAnswered(entries, visibility, from, p, j, m, end);
          ResultTakesRoom(entries, visibility, from, p, j, q, m);
          assert false;
        }
      }
    } else {
      forall q | q < end ensures !Joins(entries, visibility, p, j, q) {
        if Joins(entries, visibility, p, j, q) {
          JoinIsLater(entries, visibility, p, j, q);
          JoinedIsAnswered(entries, visibility, from, p, j, q, end);
          assert false;
        }
      }
    }
  }

  lemma {:induction false} JoinIsLater(entries: seq<Entry>, visibility: Visibility, p: nat, j: nat, q: int)
    requires CallAt(entries, visibility, p) && j < |entries[p].body.calls| && Joins(entries, visibility, p, j, q)
    ensures p < q
  {
  }

  lemma {:induction false} ResultTakesRoom(entries: seq<Entry>, visibility: Visibility, from: nat, p: nat, j: nat,
                                           q: nat, m: nat)
    requires from <= q < m <= |entries| && CallAt(entries, visibility, p) && j < |entries[p].body.calls|
    requires Joins(entries, visibility, p, j, q)
    ensures |Flow(entries, visibility, from, q)| < |Flow(entries, visibility, from, m)|
  {
    hide Flow;
    FlowIsOrdered(entries, visibility, from, q, m);
  }

  // ---------- Counting ----------

  lemma {:induction false} CallsInFlow(entries: seq<Entry>, visibility: Visibility, from: nat, until: nat)
    requires from <= until <= |entries|
    ensures CountCalls(Flow(entries, visibility, from, until)) == CallsBefore(entries, visibility, from, until)
    decreases until
  {
    hide Flow, EventsOf, CountCalls, Includes;
    if until == from {
      NoFlow(entries, visibility, from);
      NoCalls();
    } else {
      FlowGrows(entries, visibility, from, until - 1);
      CallsInFlow(entries, visibility, from, until - 1);
      EntryCalls(Flow(entries, visibility, from, until - 1), entries[until - 1]);
    }
  }

  lemma {:induction false} NoCalls()
    ensures CountCalls([]) == 0
  {
  }

  lemma {:induction false} EntryCalls(before: seq<Event>, e: Entry)
    ensures CountCalls(before + EventsOf(e)) == CountCalls(before) + if IsCall(e) then |e.body.calls| else 0
    ensures before + [] == before
  {
    if IsCall(e) {
      CountCallsGrows(before, e.body.calls);
    } else if e.body.ToolResult? {
      assert (before + EventsOf(e))[..|before|] == before;
    } else {
      assert before + EventsOf(e) == before;
    }
  }

  lemma {:induction false} CountCallsGrows(before: seq<Event>, calls: seq<Call>)
    ensures CountCalls(before + CallEvents(calls)) == CountCalls(before) + |calls|
  {
    if calls == [] {
      assert before + [] == before;
    } else {
      var n := |calls| - 1;
      CountCallsGrows(before, calls[..n]);
      var all := before + CallEvents(calls);
      assert all[..|all| - 1] == before + CallEvents(calls[..n]);
    }
  }

  /** The place of a call among the records. */
  lemma {:induction false} RecordPlace(entries: seq<Entry>, visibility: Visibility, from: nat, p: nat, j: nat, end: nat)
    requires from <= p < end <= |entries| && CallAt(entries, visibility, p) && j < |entries[p].body.calls|
    ensures var i, flow := |Flow(entries, visibility, from, p)| + j, Flow(entries, visibility, from, end);
            i <= |flow| && CountCalls(flow[..i]) == CallsBefore(entries, visibility, from, p) + j
  {
    hide Flow, CountCalls, CallEvents, CallsBefore, Includes;
    var before, flow := Flow(entries, visibility, from, p), Flow(entries, visibility, from, end);
    var calls := entries[p].body.calls;
    EntryInFlow(entries, visibility, from, p, end);
    CallEventsAt(calls);
    CallsInFlow(entries, visibility, from, p);
    CountCallsGrows(before, calls[..j]);
    FrontOfFlow(flow, before, calls, j);
  }

  lemma {:induction false} FrontOfFlow(flow: seq<Event>, before: seq<Event>, calls: seq<Call>, j: nat)
    requires |before| + |calls| <= |flow| && flow[..|before|] == before && j <= |calls|
    requires flow[|before|..|before| + |calls|] == CallEvents(calls)
    ensures flow[..|before| + j] == before + CallEvents(calls[..j])
  {
    hide CallEvents;
    CallEventsAt(calls);
    CallEventsAt(calls[..j]);
    forall k | 0 <= k < j ensures flow[|before| + k] == CallEvents(calls[..j])[k] {
      assert flow[|before| + k] == flow[|before|..|before| + |calls|][k];
    }
  }

  // ---------- One turn ----------

  lemma {:induction false} FinalIsLast(entries: seq<Entry>, visibility: Visibility, from: nat, end: nat)
    requires from <= end <= |entries|
    ensures IsFinal(entries, visibility, from, end, FinalOutput(Included(entries[from..end], visibility)))
    decreases end
  {
    hide Included;
    if from == end {
      NothingIncluded(entries, visibility, from);
    } else {
      var e, seen := entries[end - 1], Included(entries[from..end - 1], visibility);
      FinalIsLast(entries, visibility, from, end - 1);
      IncludedOneMore(entries, from, end - 1, visibility);
      FinalOfOneMore(seen, e);
      FinalKept(entries, visibility, from, end, FinalOutput(seen));
    }
  }

  lemma {:induction false} NothingIncluded(entries: seq<Entry>, visibility: Visibility, from: nat)
    requires from <= |entries|
    ensures Included(entries[from..from], visibility) == []
  {
  }

  lemma {:induction false} FinalOfOneMore(seen: seq<Entry>, e: Entry)
    ensures FinalOutput(seen + [e])
         == if e.body.Text? && e.body.role == "assistant" && e.body.content != "" then Some(e.body.content)
            else FinalOutput(seen)
    ensures seen + [] == seen
  {
    assert (seen + [e])[..|seen|] == seen;
  }

  lemma {:induction false} FinalKept(entries: seq<Entry>, visibility: Visibility, from: nat, end: nat,
                                     output: Option<string>)
    requires from < end <= |entries| && IsFinal(entries, visibility, from, end - 1, output)
    ensures !SpeaksAt(entries, visibility, end - 1) ==> IsFinal(entries, visibility, from, end, output)
    ensures SpeaksAt(entries, visibility, end - 1) ==>
      IsFinal(entries, visibility, from, end, Some(entries[end - 1].body.content))
  {
  }

  /** A turn gets its input, its calls with their results, and its final output from just these entries. */
  lemma {:induction false} TurnStands(entries: seq<Entry>, visibility: Visibility, start: nat, end: nat)
    requires start < end <= |entries| && entries[start].body.Text?
    ensures IsTurnAt(entries, visibility, start, end,
                     TurnOf(entries[start], Included(entries[start + 1..end], visibility)))
  {
    hide FinalOutput, CallsBefore, Included, IsFinal, RecordStands, Events, Records, Includes;
    var turn := TurnOf(entries[start], Included(entries[start + 1..end], visibility));
    FinalIsLast(entries, visibility, start + 1, end);
    CallsInFlow(entries, visibility, start + 1, end);
    forall p, j | start < p < end && CallAt(entries, visibility, p) && 0 <= j < |entries[p].body.calls|
      ensures RecordStands(entries, visibility, start, end, p, j, turn.toolCalls)
    {
      FlowRecordStands(entries, visibility, start, end, p, j);
    }
  }

  lemma {:induction false} FlowRecordStands(entries: seq<Entry>, visibility: Visibility, start: nat, end: nat, p: nat,
                                            j: nat)
    requires start < p < end <= |entries| && CallAt(entries, visibility, p) && j < |entries[p].body.calls|
    ensures RecordStands(entries, visibility, start, end, p, j, Records(Flow(entries, visibility, start + 1, end)))
  {
    hide Flow, CallsBefore, IsJoined, IsResultOf, Records, CountCalls, Includes;
    var i, flow := |Flow(entries, visibility, start + 1, p)| + j, Flow(entries, visibility, start + 1, end);
    CallInFlow(entries, visibility, start + 1, p, j, end);
    RecordPlace(entries, visibility, start + 1, p, j, end);
    RecordsAreJoined(flow, i);
    ResultIsJoined(entries, visibility, start + 1, p, j, end,
                   Records(flow)[CallsBefore(entries, visibility, start + 1, p) + j].result);
  }

  // ---------- All turns ----------

  /** How many turns start before `until`. */
  function TurnsBefore(entries: seq<Entry>, visibility: Visibility, until: nat): nat {
    if until == 0 then 0
    else TurnsBefore(entries, visibility, until - 1) + if IsBoundary(entries, visibility, until - 1) then 1 else 0
  }

  predicate IsSpan(entries: seq<Entry>, visibility: Visibility, start: nat, end: nat) {
    && start < end <= |entries| && IsBoundary(entries, visibility, start)
    && (forall i :: start < i < end ==> !IsBoundary(entries, visibility, i))
    && (end < |entries| ==> IsBoundary(entries, visibility, end))
  }

  function UsersIn(entries: seq<Entry>): nat {
    if entries == [] then 0 else (if IsUser(entries[0]) then 1 else 0) + UsersIn(entries[1..])
  }

  lemma {:induction false} OneTurnPerUser(entries: seq<Entry>)
    ensures |Turns(entries)| == UsersIn(entries)
  {
    hide TurnOf;
    if entries != [] {
      OneTurnPerUser(entries[1..]);
    }
  }

  lemma {:induction false} UsersSplit(a: seq<Entry>, b: seq<Entry>)
    ensures UsersIn(a + b) == UsersIn(a) + UsersIn(b)
  {
    if a == [] {
      assert a + b == b;
    } else {
      assert (a + b)[1..] == a[1..] + b;
      UsersSplit(a[1..], b);
    }
  }

  lemma {:induction false} FirstTurns(entries: seq<Entry>, visibility: Visibility, until: nat)
    requires until <= |entries|
    ensures |Extraction(entries[..until], visibility)| == TurnsBefore(entries, visibility, until)
  {
    hide Turns;
    OneTurnPerUser(Included(entries[..until], visibility));
    hide Included;
    if until == 0 {
      NothingIncluded(entries, visibility, 0);
    } else {
      var e, seen := entries[until - 1], Included(entries[..until - 1], visibility);
      FirstTurns(entries, visibility, until - 1);
      OneTurnPerUser(seen);
      IncludedOneMore(entries, 0, until - 1, visibility);
      UsersSplit(seen, [e]);
      assert [e][1..] == [] && seen + [] == seen;
    }
  }

  /**
   Extraction gives one turn for each included user message, in order, and the turn is made of just the
   included entries up to the next of them: its input, every call with its own result, and its final output.
   */
  lemma {:induction false} ExtractionStands(entries: seq<Entry>, visibility: Visibility, start: nat, end: nat)
    requires IsSpan(entries, visibility, start, end)
    ensures |Extraction(entries, visibility)| == TurnsBefore(entries, visibility, |entries|)
    ensures TurnsBefore(entries, visibility, start) < |Extraction(entries, visibility)|
    ensures IsTurnAt(entries, visibility, start, end,
                     Extraction(entries, visibility)[TurnsBefore(entries, visibility, start)])
  {
    hide Turns, Included, TurnOf, IsTurnAt, TurnsBefore;
    var before, after := entries[..start], entries[start..];
    assert entries == before + after && entries[..|entries|] == entries;
    FirstTurns(entries, visibility, |entries|);
    FirstTurns(entries, visibility, start);
    ExtractionSplits(before, after, visibility);
    OneTurn(entries, start, end, visibility);
    TurnStands(entries, visibility, start, end);
  }
}

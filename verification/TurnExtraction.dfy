/**
 Structured turns from a flat tape: turns start at user messages, tool results are joined to their
 calls, and hidden entries may be left out (`agentkit/tape/extract.py`).
 */
module TurnExtraction {
  import opened Wrappers
  import opened TapeModel

  datatype Record = Record(call: Call, result: Option<string>)

  datatype Turn = Turn(userInput: string, toolCalls: seq<Record>, finalOutput: Option<string>)

  datatype Visibility = Visible | Raw

  predicate Includes(visibility: Visibility, e: Entry) {
    visibility.Raw? || !e.skipContext
  }

  predicate IsUser(e: Entry) {
    e.body.Text? && e.body.role == "user"
  }

  function Included(entries: seq<Entry>, visibility: Visibility): seq<Entry> {
    if entries == [] then []
    else (if Includes(visibility, entries[0]) then [entries[0]] else []) + Included(entries[1..], visibility)
  }

  // ---------- Calls and results of one turn ----------

  /** What matters of a turn's entries for the join, in order. */
  datatype Event = Called(call: Call) | Returned(callId: string, content: string)

  function CallEvents(calls: seq<Call>): seq<Event> {
    if calls == [] then [] else CallEvents(calls[..|calls| - 1]) + [Called(calls[|calls| - 1])]
  }

  function EventsOf(e: Entry): seq<Event> {
    match e.body
    case ToolCalls(_, calls, _) => CallEvents(calls)
    case ToolResult(callId, content) => [Returned(callId, content)]
    case _ => []
  }

  function Events(entries: seq<Entry>): seq<Event> {
    if entries == [] then [] else Events(entries[..|entries| - 1]) + EventsOf(entries[|entries| - 1])
  }

  /** Empty content counts as none. */
  function Normalized(content: string): Option<string> {
    if content == "" then None else Some(content)
  }

  function CountCalls(events: seq<Event>): nat {
    if events == [] then 0
    else CountCalls(events[..|events| - 1]) + if events[|events| - 1].Called? then 1 else 0
  }

  /** The record of the latest call with this id; empty ids are never joined. */
  function Latest(events: seq<Event>, id: string): (index: Option<nat>)
    ensures index.Some? ==> id != "" && index.value < CountCalls(events)
  {
    if events == [] || id == "" then None
    else
      var front, last := events[..|events| - 1], events[|events| - 1];
      if last.Called? && last.call.id == id then Some(CountCalls(front)) else Latest(front, id)
  }

  /** One record per call; a result replaces that of the latest call with its id. */
  function Records(events: seq<Event>): (records: seq<Record>)
    ensures |records| == CountCalls(events)
  {
    if events == [] then []
    else
      var front := events[..|events| - 1];
      match events[|events| - 1]
      case Called(call) => Records(front) + [Record(call, None)]
      case Returned(callId, content) =>
        match Latest(front, callId)
        case None => Records(front)
        case Some(i) => Records(front)[i := Record(Records(front)[i].call, Normalized(content))]
  }

  /** The last assistant text that is not empty. */
  function FinalOutput(entries: seq<Entry>): Option<string> {
    if entries == [] then None
    else
      var last := entries[|entries| - 1];
      if last.body.Text? && last.body.role == "assistant" && last.body.content != "" then Some(last.body.content)
      else FinalOutput(entries[..|entries| - 1])
  }

  function TurnOf(user: Entry, body: seq<Entry>): Turn
    requires user.body.Text?
  {
    Turn(user.body.content, Records(Events(body)), FinalOutput(body))
  }

  // ---------- What a record's result is ----------

  /** The result at `k` answers the call at `i`: no later call took the id over before it. */
  predicate Answers(events: seq<Event>, i: int, k: int) {
    && 0 <= i < k < |events|
    && events[i].Called? && events[k].Returned?
    && events[k].callId == events[i].call.id != ""
    && forall m :: i < m < k && events[m].Called? ==> events[m].call.id != events[i].call.id
  }

  /** `result` is the content of the last answer, or none without an answer. */
  ghost predicate IsResultOf(events: seq<Event>, i: nat, result: Option<string>) {
    || (result.None? && forall k :: !Answers(events, i, k))
    || (exists k :: && Answers(events, i, k) && result == Normalized(events[k].content)
                    && forall m :: Answers(events, i, m) ==> m <= k)
  }

  predicate IsLatest(events: seq<Event>, id: string, i: nat) {
    && i < |events| && events[i].Called? && events[i].call.id == id
    && forall m :: i < m < |events| && events[m].Called? ==> events[m].call.id != id
  }

  lemma {:induction false} LatestMeans(events: seq<Event>, id: string)
    ensures Latest(events, id).None? && id != "" ==>
      forall i :: 0 <= i < |events| && events[i].Called? ==> events[i].call.id != id
    ensures Latest(events, id).Some? ==>
      exists i: nat :: IsLatest(events, id, i) && CountCalls(events[..i]) == Latest(events, id).value
    decreases |events|
  {
    hide CountCalls;
    if events != [] && id != "" {
      var n, front, last := |events| - 1, events[..|events| - 1], events[|events| - 1];
      if last.Called? && last.call.id == id {
        assert IsLatest(events, id, n);
      } else {
        LatestMeans(front, id);
        if Latest(front, id).Some? {
          var i: nat :| IsLatest(front, id, i) && CountCalls(front[..i]) == Latest(front, id).value;
          assert events[..i] == front[..i];
          assert IsLatest(events, id, i);
        }
      }
    }
  }

  lemma {:induction false} CountsGrow(events: seq<Event>, i: nat, j: nat)
    requires i < j <= |events|
    ensures CountCalls(events[..i]) + (if events[i].Called? then 1 else 0) <= CountCalls(events[..j])
    decreases j
  {
    if i < j - 1 {
      CountsGrow(events, i, j - 1);
    }
    assert events[..j][..j - 1] == events[..j - 1];
    assert events[..j][j - 1] == events[j - 1];
  }

  /**
   The `n`-th call has the `n`-th record, and the record's result is the last result with the call's
   id that came while no later call had taken the id over.
   */
  lemma {:induction false} RecordsAreJoined(events: seq<Event>, i: nat)
    requires i < |events| && events[i].Called?
    ensures CountCalls(events[..i]) < |Records(events)|
    ensures var record := Records(events)[CountCalls(events[..i])];
            record.call == events[i].call && IsResultOf(events, i, record.result)
    decreases |events|
  {
    CountsGrow(events, i, |events|);
    assert events[..|events|] == events;
    var front, last := events[..|events| - 1], events[|events| - 1];
    if i == |events| - 1 {
      assert events[..i] == front;
      assert forall k :: !Answers(events, i, k);
    } else {
      RecordsAreJoined(front, i);
      assert events[..i] == front[..i];
      var n := CountCalls(events[..i]);
      var before := Records(front)[n].result;
      if last.Called? {
        ResultKept(front, last, i, before);
      } else {
        ResultArrives(front, last, i, before);
      }
      assert front + [last] == events;
    }
  }

  lemma {:induction false} AnswersAreOld(front: seq<Event>, last: Event, i: nat, k: int)
    requires i < |front|
    ensures k < |front| ==> (Answers(front + [last], i, k) <==> Answers(front, i, k))
  {
    var events := front + [last];
    if 0 <= k < |front| {
      assert events[k] == front[k] && events[i] == front[i];
      assert forall m :: i < m < k ==> events[m] == front[m];
    }
  }

  lemma {:induction false} ResultKept(front: seq<Event>, last: Event, i: nat, result: Option<string>)
    requires i < |front| && IsResultOf(front, i, result)
    requires !Answers(front + [last], i, |front|)
    ensures IsResultOf(front + [last], i, result)
  {
    var events := front + [last];
    forall k ensures Answers(events, i, k) <==> Answers(front, i, k) {
      AnswersAreOld(front, last, i, k);
    }
    if k :| && Answers(front, i, k) && result == Normalized(front[k].content)
            && forall m :: Answers(front, i, m) ==> m <= k {
      assert Answers(events, i, k);
    }
  }

  lemma {:induction false} ResultArrives(front: seq<Event>, last: Event, i: nat, result: Option<string>)
    requires i < |front| && front[i].Called? && last.Returned?
    requires CountCalls(front[..i]) < |Records(front)| && Records(front)[CountCalls(front[..i])].result == result
    requires IsResultOf(front, i, result)
    ensures var n := CountCalls(front[..i]);
            var answer := if Latest(front, last.callId) == Some(n) then Normalized(last.content) else result;
            IsResultOf(front + [last], i, answer)
  {
    var events, n := front + [last], CountCalls(front[..i]);
    LatestMeans(front, last.callId);
    if Latest(front, last.callId) == Some(n) {
      var at: nat :| IsLatest(front, last.callId, at) && CountCalls(front[..at]) == n;
      SameCount(front, i, at);
      assert Answers(events, i, |front|);
    } else {
      NotAnswered(front, last, i);
      ResultKept(front, last, i, result);
    }
  }

  lemma {:induction false} SameCount(events: seq<Event>, i: nat, j: nat)
    requires i < |events| && j < |events| && events[i].Called? && events[j].Called?
    requires CountCalls(events[..i]) == CountCalls(events[..j])
    ensures i == j
  {
    if i < j {
      CountsGrow(events, i, j);
    } else if j < i {
      CountsGrow(events, j, i);
    }
  }

  lemma {:induction false} NotAnswered(front: seq<Event>, last: Event, i: nat)
    requires i < |front| && front[i].Called? && last.Returned?
    requires Latest(front, last.callId) != Some(CountCalls(front[..i]))
    ensures !Answers(front + [last], i, |front|)
  {
    var events := front + [last];
    assert forall m :: 0 <= m < |front| ==> events[m] == front[m];
    if Answers(events, i, |front|) {
      NotLatest(front, last.callId, i);
    }
  }

  lemma {:induction false} NotLatest(front: seq<Event>, id: string, i: nat)
    requires i < |front| && front[i].Called? && front[i].call.id == id && id != ""
    requires forall m :: i < m < |front| && front[m].Called? ==> front[m].call.id != id
    ensures Latest(front, id) == Some(CountCalls(front[..i]))
  {
    LatestMeans(front, id);
    var at: nat :| IsLatest(front, id, at) && CountCalls(front[..at]) == Latest(front, id).value;
    assert at == i;
  }

  // ---------- Turns ----------

  function BodyOf(entries: seq<Entry>): seq<Entry> {
    if entries == [] || IsUser(entries[0]) then [] else [entries[0]] + BodyOf(entries[1..])
  }

  /** Extraction that looks at every entry: one turn per user message, up to the next one. */
  function Turns(entries: seq<Entry>): seq<Turn> {
    if entries == [] then []
    else (if IsUser(entries[0]) then [TurnOf(entries[0], BodyOf(entries[1..]))] else []) + Turns(entries[1..])
  }

  lemma {:induction false} BodySplits(a: seq<Entry>, b: seq<Entry>)
    requires b == [] || IsUser(b[0])
    ensures BodyOf(a + b) == BodyOf(a)
  {
    if a == [] {
      assert a + b == b;
    } else {
      assert (a + b)[1..] == a[1..] + b;
      BodySplits(a[1..], b);
    }
  }

  /** Extraction splits at every user message. */
  lemma {:induction false} TurnsSplitAtUser(a: seq<Entry>, b: seq<Entry>)
    requires b == [] || IsUser(b[0])
    ensures Turns(a + b) == Turns(a) + Turns(b)
  {
    hide TurnOf;
    if a == [] {
      assert a + b == b;
    } else {
      assert (a + b)[1..] == a[1..] + b;
      TurnsSplitAtUser(a[1..], b);
      BodySplits(a[1..], b);
    }
  }

  lemma {:induction false} IncludedSplits(a: seq<Entry>, b: seq<Entry>, visibility: Visibility)
    ensures Included(a + b, visibility) == Included(a, visibility) + Included(b, visibility)
  {
    hide Includes;
    if a == [] {
      assert a + b == b;
    } else {
      assert (a + b)[1..] == a[1..] + b;
      IncludedSplits(a[1..], b, visibility);
    }
  }

  lemma {:induction false} NoUsers(a: seq<Entry>)
    requires forall e :: e in a ==> !IsUser(e)
    ensures Turns(a) == [] && BodyOf(a) == a
  {
    if a != [] {
      assert a[0] in a;
      NoUsers(a[1..]);
    }
  }

  lemma {:induction false} IncludedMembers(entries: seq<Entry>, visibility: Visibility)
    ensures forall e :: e in Included(entries, visibility) <==> e in entries && Includes(visibility, e)
  {
    if entries != [] {
      IncludedMembers(entries[1..], visibility);
      assert entries == [entries[0]] + entries[1..];
    }
  }

  lemma {:induction false} RawIncludesAll(entries: seq<Entry>)
    ensures Included(entries, Raw) == entries
  {
    if entries != [] {
      RawIncludesAll(entries[1..]);
    }
  }

  /** What `extract_turns` gives: see `ExtractTurns`. */
  function Extraction(entries: seq<Entry>, visibility: Visibility): seq<Turn> {
    Turns(Included(entries, visibility))
  }

  /** Extraction of the visible turns is raw extraction of the visible entries. */
  lemma {:induction false} VisibleIsRawOfVisible(entries: seq<Entry>)
    ensures Extraction(entries, Visible) == Extraction(Included(entries, Visible), Raw)
  {
    RawIncludesAll(Included(entries, Visible));
  }

  /** A tape that continues with an included user message is extracted piece by piece. */
  lemma {:induction false} ExtractionSplits(a: seq<Entry>, b: seq<Entry>, visibility: Visibility)
    requires b != [] && IsUser(b[0]) && Includes(visibility, b[0])
    ensures Extraction(a + b, visibility) == Extraction(a, visibility) + Extraction(b, visibility)
  {
    IncludedSplits(a, b, visibility);
    TurnsSplitAtUser(Included(a, visibility), Included(b, visibility));
  }

  /** One turn of the two-phase extraction: from a boundary to the next one. */
  lemma {:induction false} OneTurn(entries: seq<Entry>, start: nat, end: nat, visibility: Visibility)
    requires start < end <= |entries| && IsBoundary(entries, visibility, start)
    requires forall i :: start < i < end ==> !IsBoundary(entries, visibility, i)
    requires end < |entries| ==> IsBoundary(entries, visibility, end)
    ensures Turns(Included(entries[start..], visibility))
         == [TurnOf(entries[start], Included(entries[start + 1..end], visibility))]
            + Turns(Included(entries[end..], visibility))
  {
    var body, rest := Included(entries[start + 1..end], visibility), Included(entries[end..], visibility);
    assert entries[start..][1..] == entries[start + 1..end] + entries[end..];
    IncludedSplits(entries[start + 1..end], entries[end..], visibility);
    assert Included(entries[start..], visibility) == [entries[start]] + (body + rest);
    NoIncludedUsers(entries, start + 1, end, visibility);
    OneTurnOf(entries[start], body, rest);
  }

  lemma {:induction false} OneTurnOf(user: Entry, body: seq<Entry>, rest: seq<Entry>)
    requires IsUser(user) && (forall e :: e in body ==> !IsUser(e)) && (rest == [] || IsUser(rest[0]))
    ensures Turns([user] + (body + rest)) == [TurnOf(user, body)] + Turns(rest)
  {
    hide TurnOf;
    assert ([user] + (body + rest))[1..] == body + rest;
    BodySplits(body, rest);
    TurnsSplitAtUser(body, rest);
    NoUsers(body);
    assert [] + Turns(rest) == Turns(rest);
  }

  lemma {:induction false} NoIncludedUsers(entries: seq<Entry>, from: nat, to: nat, visibility: Visibility)
    requires from <= to <= |entries| && forall i :: from <= i < to ==> !IsBoundary(entries, visibility, i)
    ensures forall e :: e in Included(entries[from..to], visibility) ==> !IsUser(e)
  {
    IncludedMembers(entries[from..to], visibility);
    forall e | e in Included(entries[from..to], visibility) ensures !IsUser(e) {
      var i :| 0 <= i < to - from && entries[from..to][i] == e;
      assert !IsBoundary(entries, visibility, from + i);
    }
  }

  // ---------- The extractor ----------

  method FindBoundaries(entries: seq<Entry>, visibility: Visibility) returns (boundaries: seq<nat>)
    ensures forall k :: 0 <= k < |boundaries| ==> boundaries[k] < |entries| && entries[boundaries[k]].body.Text?
    ensures forall k :: 0 <= k < |boundaries| ==> IsBoundary(entries, visibility, boundaries[k])
    ensures forall j, k :: 0 <= j < k < |boundaries| ==> boundaries[j] < boundaries[k]
    ensures forall i :: IsBoundary(entries, visibility, i) ==> i in boundaries
  {
    boundaries := [];
    for i := 0 to |entries|
      invariant forall k :: 0 <= k < |boundaries| ==>
        IsBoundary(entries, visibility, boundaries[k]) && boundaries[k] < i
      invariant forall j, k :: 0 <= j < k < |boundaries| ==> boundaries[j] < boundaries[k]
      invariant forall j :: 0 <= j < i && IsBoundary(entries, visibility, j) ==> j in boundaries
    {
      if Includes(visibility, entries[i]) && IsUser(entries[i]) {
        boundaries := boundaries + [i];
      }
    }
  }

  predicate IsBoundary(entries: seq<Entry>, visibility: Visibility, i: nat) {
    i < |entries| && IsUser(entries[i]) && Includes(visibility, entries[i])
  }

  /** The index from call ids to records agrees with the events read so far. */
  ghost predicate Indexed(events: seq<Event>, index: map<string, nat>) {
    forall id :: Latest(events, id) == if id in index then Some(index[id]) else None
  }

  lemma {:induction false} CalledStep(events: seq<Event>, call: Call, index: map<string, nat>)
    requires Indexed(events, index)
    ensures Records(events + [Called(call)]) == Records(events) + [Record(call, None)]
    ensures Indexed(events + [Called(call)], if call.id != "" then index[call.id := CountCalls(events)] else index)
  {
    assert (events + [Called(call)])[..|events|] == events;
  }

  lemma {:induction false} ReturnedStep(events: seq<Event>, callId: string, content: string, index: map<string, nat>)
    requires Indexed(events, index)
    ensures Indexed(events + [Returned(callId, content)], index)
    ensures callId in index ==> index[callId] < |Records(events)|
    ensures Records(events + [Returned(callId, content)])
         == if callId in index then
              Records(events)[index[callId] := Record(Records(events)[index[callId]].call, Normalized(content))]
            else Records(events)
  {
    assert (events + [Returned(callId, content)])[..|events|] == events;
  }

  /** The loop over the calls of one entry. */
  method JoinCalls(calls: seq<Call>, records: seq<Record>, index: map<string, nat>, ghost events: seq<Event>)
      returns (newRecords: seq<Record>, newIndex: map<string, nat>)
    requires records == Records(events) && Indexed(events, index)
    ensures newRecords == Records(events + CallEvents(calls)) && Indexed(events + CallEvents(calls), newIndex)
  {
    newRecords, newIndex := records, index;
    assert events + CallEvents(calls[..0]) == events;
    for i := 0 to |calls|
      invariant newRecords == Records(events + CallEvents(calls[..i]))
      invariant Indexed(events + CallEvents(calls[..i]), newIndex)
    {
      ghost var seen := events + CallEvents(calls[..i]);
      assert calls[..i + 1][..i] == calls[..i];
      assert events + CallEvents(calls[..i + 1]) == seen + [Called(calls[i])];
      CalledStep(seen, calls[i], newIndex);
      if calls[i].id != "" {
        newIndex := newIndex[calls[i].id := |newRecords|];
      }
      newRecords := newRecords + [Record(calls[i], None)];
    }
    assert calls[..|calls|] == calls;
  }

  /** One entry of a turn. */
  method JoinEntry(entry: Entry, records: seq<Record>, index: map<string, nat>, ghost events: seq<Event>)
      returns (newRecords: seq<Record>, newIndex: map<string, nat>)
    requires records == Records(events) && Indexed(events, index)
    ensures newRecords == Records(events + EventsOf(entry)) && Indexed(events + EventsOf(entry), newIndex)
  {
    newRecords, newIndex := records, index;
    match entry.body {
      case ToolCalls(_, calls, _) =>
        newRecords, newIndex := JoinCalls(calls, records, index, events);
      case ToolResult(callId, content) =>
        ReturnedStep(events, callId, content, index);
        if callId != "" && callId in index {
          var at := index[callId];
          newRecords := records[at := Record(records[at].call, Normalized(content))];
        } else {
          assert callId == "" ==> Latest(events, callId).None?;
        }
      case _ =>
        assert events + [] == events;
    }
  }

  /** The loop over the entries of one turn. */
  method ExtractTurn(entries: seq<Entry>, start: nat, end: nat, visibility: Visibility) returns (turn: Turn)
    requires start < end <= |entries| && entries[start].body.Text?
    ensures turn == TurnOf(entries[start], Included(entries[start + 1..end], visibility))
  {
    hide Records, Latest, EventsOf, Included, Indexed;
    var index: map<string, nat> := map[];
    var records: seq<Record> := [];
    var finalOutput: Option<string> := None;
    ghost var seen: seq<Entry> := [];
    NothingJoined(entries, start + 1, visibility);
    for i := start + 1 to end
      invariant seen == Included(entries[start + 1..i], visibility)
      invariant records == Records(Events(seen)) && Indexed(Events(seen), index)
      invariant finalOutput == FinalOutput(seen)
    {
      var entry := entries[i];
      IncludedOneMore(entries, start + 1, i, visibility);
      if Includes(visibility, entry) {
        assert (seen + [entry])[..|seen|] == seen;
        records, index := JoinEntry(entry, records, index, Events(seen));
        if entry.body.Text? && entry.body.role == "assistant" && entry.body.content != "" {
          finalOutput := Some(entry.body.content);
        }
        seen := seen + [entry];
      } else {
        assert seen + [] == seen;
      }
    }
    return Turn(entries[start].body.content, records, finalOutput);
  }

  lemma {:induction false} NothingJoined(entries: seq<Entry>, from: nat, visibility: Visibility)
    requires from <= |entries|
    ensures Included(entries[from..from], visibility) == []
    ensures Records(Events([])) == [] && Indexed(Events([]), map[])
  {
  }

  lemma {:induction false} IncludedOneMore(entries: seq<Entry>, from: nat, i: nat, visibility: Visibility)
    requires from <= i < |entries|
    ensures Included(entries[from..i + 1], visibility)
         == Included(entries[from..i], visibility) + if Includes(visibility, entries[i]) then [entries[i]] else []
  {
    assert entries[from..i + 1] == entries[from..i] + [entries[i]];
    IncludedSplits(entries[from..i], [entries[i]], visibility);
    assert [entries[i]][1..] == [];
  }

  /**
   `extract_turns`. Extraction that leaves hidden entries out while it walks the tape equals
   extraction of everything from the tape without its hidden entries.
   */
  method ExtractTurns(entries: seq<Entry>, visibility: Visibility) returns (turns: seq<Turn>)
    ensures turns == Extraction(entries, visibility)
  {
    hide Turns, Included, TurnOf, IsBoundary;
    var boundaries := FindBoundaries(entries, visibility);
    NothingLeft(entries, visibility);
    BeforeFirst(entries, if boundaries == [] then |entries| else boundaries[0], visibility);
    if boundaries == [] {
      return [];
    }
    turns := [];
    for k := 0 to |boundaries|
      invariant turns + Turns(Included(entries[if k < |boundaries| then boundaries[k] else |entries|..], visibility))
             == Turns(Included(entries, visibility))
    {
      var start := boundaries[k];
      assert IsBoundary(entries, visibility, start);
      var end := if k + 1 < |boundaries| then boundaries[k + 1] else |entries|;
      forall i | start < i < end ensures !IsBoundary(entries, visibility, i) {
        BetweenBoundaries(boundaries, k, i, end);
      }
      OneTurn(entries, start, end, visibility);
      var turn := ExtractTurn(entries, start, end, visibility);
      turns := turns + [turn];
    }
  }

  lemma {:induction false} NothingLeft(entries: seq<Entry>, visibility: Visibility)
    ensures Turns(Included(entries[|entries|..], visibility)) == []
  {
    assert entries[|entries|..] == [];
  }

  lemma {:induction false} BetweenBoundaries(boundaries: seq<nat>, k: nat, i: nat, end: nat)
    requires k < |boundaries| && boundaries[k] < i < end
    requires forall a, b :: 0 <= a < b < |boundaries| ==> boundaries[a] < boundaries[b]
    requires k + 1 < |boundaries| ==> end == boundaries[k + 1]
    ensures i !in boundaries
  {
    forall j | 0 <= j < |boundaries| ensures boundaries[j] != i {
      if j < k {
        assert boundaries[j] < boundaries[k];
      } else if k + 1 < j {
        assert boundaries[k + 1] < boundaries[j];
      }
    }
  }

  /** Nothing before the first boundary is extracted. */
  lemma {:induction false} BeforeFirst(entries: seq<Entry>, first: nat, visibility: Visibility)
    requires first <= |entries|
    requires forall i :: 0 <= i < first ==> !IsBoundary(entries, visibility, i)
    requires first < |entries| ==> IsBoundary(entries, visibility, first)
    ensures Turns(Included(entries, visibility)) == Turns(Included(entries[first..], visibility))
  {
    var before, after := Included(entries[..first], visibility), Included(entries[first..], visibility);
    assert entries == entries[0..first] + entries[first..] && entries[..first] == entries[0..first];
    IncludedSplits(entries[..first], entries[first..], visibility);
    NoIncludedUsers(entries, 0, first, visibility);
    TurnsSplitAtUser(before, after);
    NoUsers(before);
  }
}

/**
 The append-only tape of a conversation, its context window, and the view of it that the
 context builder reads (`agentkit/tape`).
 */
module TapeModel {
  import opened Wrappers

  datatype AnchorType = Handoff | TopicStart | TopicEnd | Fold | ContextMark

  datatype Call = Call(id: string, name: string, arguments: string)

  /** The kinds of an entry with the payload that each kind reads. */
  datatype Body =
    | Text(role: string, content: string, reasoning: string)
    | ToolCalls(role: string, calls: seq<Call>, reasoning: string)
    | ToolResult(callId: string, content: string)
    | AnchorBody(content: string, prefix: string, anchorType: Option<AnchorType>)
    | Event

  /** `skipContext`, `isHandoff` and `skip` are the entry's metadata flags. */
  datatype Entry = Entry(body: Body, skipContext: bool, isHandoff: bool, skip: bool)

  predicate IsCall(e: Entry) {
    e.body.ToolCalls?
  }

  /** The entries that a windowed view moves to its front. */
  predicate IsHandoffAnchor(e: Entry) {
    e.body.AnchorBody? && e.isHandoff
  }

  /** `windowed`: the entries that satisfy `IsHandoffAnchor`, or those that do not, in order. */
  function Select(entries: seq<Entry>, handoffs: bool): seq<Entry>
  {
    if entries == [] then []
    else (if IsHandoffAnchor(entries[0]) == handoffs then [entries[0]] else []) + Select(entries[1..], handoffs)
  }

  /** `TapeView.from_tape`. */
  function View(entries: seq<Entry>, windowStart: nat): seq<Entry>
    requires windowStart <= |entries|
  {
    if windowStart > 0 then
      Select(entries[windowStart..], true) + Select(entries[windowStart..], false)
    else
      entries
  }

  lemma {:induction false} Selected(entries: seq<Entry>, handoffs: bool)
    ensures forall e :: e in Select(entries, handoffs) <==> e in entries && IsHandoffAnchor(e) == handoffs
  {
    if entries != [] {
      Selected(entries[1..], handoffs);
      assert entries == [entries[0]] + entries[1..];
    }
  }

  lemma {:induction false} SelectSplits(a: seq<Entry>, b: seq<Entry>, handoffs: bool)
    ensures Select(a + b, handoffs) == Select(a, handoffs) + Select(b, handoffs)
  {
    if a == [] {
      assert a + b == b;
    } else {
      assert (a + b)[1..] == a[1..] + b;
      SelectSplits(a[1..], b, handoffs);
    }
  }

  /** Reordering a window loses and invents nothing: both halves together are a permutation of it. */
  lemma {:induction false} ViewPermutes(window: seq<Entry>)
    ensures multiset(Select(window, true) + Select(window, false)) == multiset(window)
    ensures |Select(window, true)| + |Select(window, false)| == |window|
  {
    if window == [] {
    } else {
      ViewPermutes(window[1..]);
      assert window == [window[0]] + window[1..];
    }
  }

  lemma {:induction false} NothingSelected(entries: seq<Entry>, handoffs: bool)
    ensures Select(entries, handoffs) == [] <==> forall e :: e in entries ==> IsHandoffAnchor(e) != handoffs
    ensures Select(entries, handoffs) == [] ==> Select(entries, !handoffs) == entries
  {
    if entries == [] {
    } else {
      NothingSelected(entries[1..], handoffs);
      assert entries == [entries[0]] + entries[1..];
      assert entries[0] in entries;
    }
  }

  /** The new entries extend the reordered window in place. */
  predicate Appendable(window: seq<Entry>, added: seq<Entry>) {
    || (forall e :: e in added ==> !IsHandoffAnchor(e))
    || (&& (forall e :: e in window ==> IsHandoffAnchor(e))
        && Select(added, true) + Select(added, false) == added)
  }

  /** Moving `hNew` in front of `o` changes nothing exactly when one of the two is empty. */
  lemma {:induction false} MovedToFront(h: seq<Entry>, o: seq<Entry>, hNew: seq<Entry>, oNew: seq<Entry>,
                                        added: seq<Entry>)
    requires hNew == [] ==> oNew == added
    requires hNew != [] && o != [] ==> hNew[0] != o[0]
    ensures (h + hNew) + (o + oNew) == (h + o) + added <==> hNew == [] || (o == [] && hNew + oNew == added)
  {
    if hNew == [] {
      assert (h + hNew) + (o + oNew) == (h + o) + added;
    } else if o == [] {
      assert (h + hNew) + (o + oNew) == h + (hNew + oNew);
      assert (h + o) + added == h + added;
      assert (h + (hNew + oNew))[|h|..] == hNew + oNew;
      assert (h + added)[|h|..] == added;
    } else {
      assert ((h + hNew) + (o + oNew))[|h|] == hNew[0];
      assert ((h + o) + added)[|h|] == o[0];
    }
  }

  lemma {:induction false} WindowGrowsExactly(window: seq<Entry>, added: seq<Entry>)
    ensures Select(window + added, true) + Select(window + added, false)
            == (Select(window, true) + Select(window, false)) + added
       <==> Appendable(window, added)
  {
    var o, hNew := Select(window, false), Select(added, true);
    SelectSplits(window, added, true);
    SelectSplits(window, added, false);
    NothingSelected(added, true);
    NothingSelected(window, false);
    if hNew != [] && o != [] {
      Selected(window, false);
      Selected(added, true);
      assert hNew[0] in hNew && o[0] in o;
    }
    MovedToFront(Select(window, true), o, hNew, Select(added, false), added);
  }

  lemma {:induction false} ViewLength(entries: seq<Entry>, windowStart: nat)
    requires windowStart <= |entries|
    ensures |View(entries, windowStart)| == |entries| - windowStart
  {
    ViewPermutes(entries[windowStart..]);
  }

  /**
   Slicing the new view at the number of entries seen before yields the old view and then the
   new entries, exactly when the window starts the tape or no handoff anchor moves in front of
   an entry that was already seen.
   */
  lemma {:induction false} ViewGrowsExactly(entries: seq<Entry>, added: seq<Entry>, windowStart: nat)
    requires windowStart <= |entries|
    ensures View(entries + added, windowStart) == View(entries, windowStart) + added
       <==> windowStart == 0 || Appendable(entries[windowStart..], added)
  {
    assert (entries + added)[windowStart..] == entries[windowStart..] + added;
    WindowGrowsExactly(entries[windowStart..], added);
  }

  class Tape {
    var entries: seq<Entry>
    var windowStart: nat

    ghost predicate Valid()
      reads this
    {
      windowStart <= |entries|
    }

    constructor (initial: seq<Entry>, start: nat)
      requires start <= |initial|
      ensures Valid() && entries == initial && windowStart == start
    {
      entries, windowStart := initial, start;
    }

    method Append(entry: Entry)
      requires Valid()
      modifies this`entries
      ensures Valid() && entries == old(entries) + [entry]
    {
      entries := entries + [entry];
    }

    method AppendAll(added: seq<Entry>)
      requires Valid()
      modifies this`entries
      ensures Valid() && entries == old(entries) + added
    {
      var i := 0;
      while i < |added|
        invariant 0 <= i <= |added|
        invariant entries == old(entries) + added[..i]
      {
        Append(added[i]);
        i := i + 1;
      }
    }

    /** `None` moves the window to the anchor itself. */
    method HandoffTo(anchor: Entry, start: Option<nat>)
      requires Valid()
      requires start.Some? ==> start.value <= |entries| + 1
      modifies this
      ensures Valid() && entries == old(entries) + [anchor]
      ensures windowStart == (if start.Some? then start.value else |old(entries)|)
    {
      entries := entries + [anchor];
      windowStart := if start.Some? then start.value else |entries| - 1;
    }
  }
}

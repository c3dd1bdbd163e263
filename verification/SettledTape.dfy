/** When a tape ends where the next assistant turn starts a message of its own. */
module SettledTape {
  import opened TapeModel
  import opened ContextBuilder
  import opened ContextLaws
  import opened IncrementalContext

  /** The entry ends the view with a message of a role other than the assistant's. */
  predicate Closes(e: Entry) {
    !e.skipContext && !IsCall(e) && MessageOf(e) != [] && MessageOf(e)[0].role != "assistant"
  }

  predicate Settled(view: seq<Entry>) {
    (view != [] && Closes(view[|view| - 1])) || forall e :: e in view ==> IsHandoffAnchor(e)
  }

  /** An assistant text, or a tool call of the assistant. */
  predicate StartsTurn(e: Entry) {
    !e.skipContext && (e.body.Text? || (IsCall(e) && e.body.role == "assistant"))
  }

  lemma {:induction false} OpenRunEndsInCall(a: seq<Entry>)
    requires OpenRun(a)
    ensures IsCall(a[|a| - 1])
  {
    if !(IsCall(a[0]) && !a[0].skipContext && RunLength(a) == |a|) {
      OpenRunEndsInCall(a[1..]);
    }
  }

  lemma {:induction false} AnchorsSpeakAsSystem(m: seq<Message>, entries: seq<Entry>)
    requires forall e :: e in entries ==> IsHandoffAnchor(e)
    requires forall x :: x in m ==> x.role == "system"
    ensures forall x :: x in Extend(m, entries) ==> x.role == "system"
    decreases |entries|
  {
    if entries != [] {
      assert entries[0] in entries;
      AnchorsSpeakAsSystem(if entries[0].skipContext then m else m + MessageOf(entries[0]), entries[1..]);
    }
  }

  lemma {:induction false} LastMessage(view: seq<Entry>)
    requires view != [] && Closes(view[|view| - 1])
    ensures var core := Extend([], view); core != [] && core[|core| - 1].role != "assistant"
  {
    var front, e := view[..|view| - 1], view[|view| - 1];
    assert view == front + [e];
    SplitFaithful([], front, [e]);
    var m := Extend([], front);
    assert Extend(m, [e]) == Extend(m + MessageOf(e), []) by {
      assert [e][1..] == [];
    }
  }

  /** A settled view and a new assistant turn meet at a clean boundary. */
  lemma {:induction false} SettledIsClean(view: seq<Entry>, added: seq<Entry>)
    requires Settled(view)
    requires added != [] ==> StartsTurn(added[0])
    ensures CleanBoundary(view, added)
  {
    if OpenRun(view) {
      OpenRunEndsInCall(view);
      assert view[|view| - 1] in view;
    }
    var core := Extend([], view);
    if view != [] && Closes(view[|view| - 1]) {
      LastMessage(view);
    } else {
      AnchorsSpeakAsSystem([], view);
      if core != [] {
        assert core[|core| - 1] in core;
      }
    }
  }

  lemma {:induction false} SelectLast(window: seq<Entry>, e: Entry)
    ensures Select(window + [e], IsHandoffAnchor(e)) == Select(window, IsHandoffAnchor(e)) + [e]
    ensures Select(window + [e], !IsHandoffAnchor(e)) == Select(window, !IsHandoffAnchor(e))
  {
    SelectSplits(window, [e], true);
    SelectSplits(window, [e], false);
    assert [e][1..] == [];
    assert Select(window, !IsHandoffAnchor(e)) + [] == Select(window, !IsHandoffAnchor(e));
  }

  /** Among the entries of the window that keep their place, the last one closes. */
  predicate OthersClose(window: seq<Entry>) {
    var others := Select(window, false);
    others == [] || Closes(others[|others| - 1])
  }

  predicate SettledAt(entries: seq<Entry>, windowStart: nat)
    requires windowStart <= |entries|
  {
    Settled(View(entries, windowStart)) && OthersClose(entries[windowStart..])
  }

  lemma {:induction false} ClosingEntrySettles(entries: seq<Entry>, e: Entry, windowStart: nat)
    requires Closes(e) && !IsHandoffAnchor(e) && windowStart <= |entries|
    ensures SettledAt(entries + [e], windowStart)
  {
    assert (entries + [e])[windowStart..] == entries[windowStart..] + [e];
    SelectLast(entries[windowStart..], e);
  }

  lemma {:induction false} OthersOfSuffix(window: seq<Entry>, k: nat)
    requires k <= |window| && OthersClose(window)
    ensures OthersClose(window[k..])
  {
    var kept := Select(window[k..], false);
    assert window == window[..k] + window[k..];
    SelectSplits(window[..k], window[k..], false);
    if kept != [] {
      var others := Select(window, false);
      assert others[|others| - 1] == kept[|kept| - 1];
    }
  }

  lemma {:induction false} AnchorKeepsOthersClosed(window: seq<Entry>, anchor: Entry)
    requires OthersClose(window) && Closes(anchor)
    ensures OthersClose(window + [anchor])
  {
    SelectLast(window, anchor);
  }

  lemma {:induction false} ReorderedIsSettled(window: seq<Entry>)
    requires OthersClose(window)
    ensures Settled(Select(window, true) + Select(window, false))
  {
    Selected(window, true);
    var anchors, others := Select(window, true), Select(window, false);
    if others == [] {
      assert anchors + others == anchors;
    } else {
      assert (anchors + others)[|anchors + others| - 1] == others[|others| - 1];
    }
  }

  /** A settled tape stays settled when the window moves and the summary anchor goes to its end. */
  lemma {:induction false} AnchorSettles(entries: seq<Entry>, windowStart: nat, anchor: Entry, start: nat)
    requires windowStart <= |entries| && OthersClose(entries[windowStart..])
    requires 0 < start <= |entries| - windowStart
    requires anchor.body.AnchorBody? && Closes(anchor)
    ensures SettledAt(entries + [anchor], windowStart + start)
  {
    hide OthersClose, Settled, Closes, Select;
    var window := entries[windowStart + start..];
    assert entries[windowStart..][start..] == window;
    OthersOfSuffix(entries[windowStart..], start);
    assert (entries + [anchor])[windowStart + start..] == window + [anchor];
    AnchorKeepsOthersClosed(window, anchor);
    ReorderedIsSettled(window + [anchor]);
  }
}

/** Saving a tape to a file piece by piece and loading it back (`agentkit/tape/tape.py`). */
module TapeFiles {
  import opened Wrappers
  import opened TapeModel

  /** A handoff anchor as loading sees it: by its type, or by its metadata when it has no type. */
  predicate OpensWindow(e: Entry) {
    && e.body.AnchorBody?
    && if e.body.anchorType.Some? then e.body.anchorType.value.Handoff? else e.isHandoff
  }

  /** The last such anchor, or the start of the tape. */
  predicate IsScanned(entries: seq<Entry>, start: nat) {
    && (|| (start < |entries| && OpensWindow(entries[start]))
        || (start == 0 && forall e :: e in entries ==> !OpensWindow(e)))
    && forall i :: start < i < |entries| ==> !OpensWindow(entries[i])
  }

  function Scan(entries: seq<Entry>): (start: nat)
    ensures IsScanned(entries, start)
  {
    if entries == [] then 0
    else
      var last := |entries| - 1;
      if OpensWindow(entries[last]) then last
      else
        ScanSkips(entries);
        Scan(entries[..last])
  }

  lemma {:induction false} ScanSkips(entries: seq<Entry>)
    requires entries != [] && !OpensWindow(entries[|entries| - 1])
    ensures forall start :: IsScanned(entries[..|entries| - 1], start) ==> IsScanned(entries, start)
  {
    assert entries == entries[..|entries| - 1] + [entries[|entries| - 1]];
  }

  lemma {:induction false} ScanIsUnique(entries: seq<Entry>, a: nat, b: nat)
    requires IsScanned(entries, a) && IsScanned(entries, b)
    ensures a == b
  {
    if a < |entries| && OpensWindow(entries[a]) {
      assert entries[a] in entries;
    }
    if b < |entries| && OpensWindow(entries[b]) {
      assert entries[b] in entries;
    }
  }

  /** `_scan_window_start`. */
  method ScanWindowStart(entries: seq<Entry>) returns (start: nat)
    ensures start == Scan(entries)
  {
    start := 0;
    for i := 0 to |entries|
      invariant IsScanned(entries[..i], start)
    {
      assert entries[..i + 1] == entries[..i] + [entries[i]];
      if OpensWindow(entries[i]) {
        start := i;
      }
    }
    assert entries[..|entries|] == entries;
    ScanIsUnique(entries, start, Scan(entries));
  }

  /** A tape together with how much of it was saved. */
  class SavedTape {
    var entries: seq<Entry>
    var windowStart: nat
    var persisted: nat

    constructor ()
      ensures entries == [] && windowStart == 0 && persisted == 0
    {
      entries, windowStart, persisted := [], 0, 0;
    }

    /** The file holds what the tape believes it saved there. */
    ghost predicate InStep(file: Option<seq<Entry>>)
      reads this
    {
      && persisted <= |entries|
      && (file.Some? && persisted > 0 ==> file.value == entries[..persisted])
    }

    method Append(entry: Entry, ghost file: Option<seq<Entry>>)
      requires InStep(file)
      modifies this`entries
      ensures InStep(file) && entries == old(entries) + [entry]
    {
      entries := entries + [entry];
    }

    /** `save_jsonl`: appends the new entries, or writes all of them to a new file. */
    method SaveJsonl(file: Option<seq<Entry>>) returns (saved: seq<Entry>)
      requires persisted <= |entries|
      modifies this`persisted
      ensures persisted == |entries|
      ensures saved == entries <==> !(file.Some? && old(persisted) > 0) || file.value == entries[..old(persisted)]
      ensures saved == entries ==> InStep(Some(saved))
    {
      var start: nat := 0;
      saved := [];
      if file.Some? && persisted > 0 {
        start, saved := persisted, file.value;
      }
      ghost var before := saved;
      for i := start to |entries|
        invariant saved == before + entries[start..i]
      {
        saved := saved + [entries[i]];
      }
      assert entries == entries[..start] + entries[start..];
      if start > 0 && saved == entries {
        assert |before| == start;
        assert saved[..start] == before;
      }
      persisted := |entries|;
    }

    /** `load_jsonl`. */
    constructor LoadJsonl(file: seq<Entry>)
      ensures entries == file && persisted == |file| && InStep(Some(file))
      ensures windowStart == Scan(file)
    {
      entries, persisted := file, |file|;
      var start := ScanWindowStart(file);
      windowStart := start;
    }
  }

  // ---------- What loading makes of the window ----------

  lemma {:induction false} ScanStopsAt(entries: seq<Entry>, anchor: Entry, later: seq<Entry>)
    requires OpensWindow(anchor) && forall e :: e in later ==> !OpensWindow(e)
    ensures Scan(entries + [anchor] + later) == |entries|
  {
    var all := entries + [anchor] + later;
    forall i | |entries| < i < |all| ensures !OpensWindow(all[i]) {
      assert all[i] == later[i - |entries| - 1] && all[i] in later;
    }
    ScanIsUnique(all, Scan(all), |entries|);
  }

  /**
   A handoff to an explicit window start survives saving and loading, whatever is appended later,
   exactly when that start is the position of the anchor itself.
   */
  lemma {:induction false} ReloadKeepsWindowExactly(entries: seq<Entry>, anchor: Entry, later: seq<Entry>,
                                                    windowStart: nat)
    requires OpensWindow(anchor) && forall e :: e in later ==> !OpensWindow(e)
    ensures Scan(entries + [anchor] + later) == windowStart <==> windowStart == |entries|
  {
    ScanStopsAt(entries, anchor, later);
  }

  datatype TapeStep = Appended(entry: Entry) | HandedOff(anchor: Entry, start: Option<nat>)

  function EntriesOf(steps: seq<TapeStep>): seq<Entry> {
    if steps == [] then []
    else
      var last := steps[|steps| - 1];
      EntriesOf(steps[..|steps| - 1]) + [if last.Appended? then last.entry else last.anchor]
  }

  /** `handoff` moves the window to the given start or to its anchor; nothing else moves it. */
  function WindowOf(steps: seq<TapeStep>): nat {
    if steps == [] then 0
    else
      var front, last := steps[..|steps| - 1], steps[|steps| - 1];
      match last
      case Appended(_) => WindowOf(front)
      case HandedOff(_, start) => if start.Some? then start.value else |EntriesOf(front)|
  }

  /** The entries that open a window on loading are the anchors of handoffs. */
  predicate AnchorsAreHandoffs(steps: seq<TapeStep>) {
    forall i :: 0 <= i < |steps| ==>
      if steps[i].Appended? then !OpensWindow(steps[i].entry) else OpensWindow(steps[i].anchor)
  }

  /** The last handoff, if any, put the window at its own anchor. */
  predicate LastHandoffIsPlain(steps: seq<TapeStep>) {
    if steps == [] then true
    else
      var front, last := steps[..|steps| - 1], steps[|steps| - 1];
      match last
      case Appended(_) => LastHandoffIsPlain(front)
      case HandedOff(_, start) => start.None? || start.value == |EntriesOf(front)|
  }

  /** After any life of a tape, saving and loading it keeps the window exactly when the last handoff was plain. */
  lemma {:induction false} LifeReloadsExactly(steps: seq<TapeStep>)
    requires AnchorsAreHandoffs(steps)
    ensures Scan(EntriesOf(steps)) == WindowOf(steps) <==> LastHandoffIsPlain(steps)
  {
    if steps != [] {
      var front, last := steps[..|steps| - 1], steps[|steps| - 1];
      var entries := EntriesOf(front);
      assert EntriesOf(steps)[..|entries|] == entries;
      assert steps[|steps| - 1] == last;
      if last.Appended? {
        LifeReloadsExactly(front);
      }
    }
  }

  /**
   Loading goes by an anchor's type where it has one, the view by the flag alone: the anchor at which
   loading opens the window leads the view exactly when nothing precedes it on the tape, it carries
   the flag, or no later anchor does.
   */
  lemma {:induction false} AnchorLeadsViewExactly(entries: seq<Entry>, anchor: Entry, later: seq<Entry>)
    requires OpensWindow(anchor) && forall e :: e in later ==> !OpensWindow(e)
    ensures Scan(entries + [anchor] + later) <= |entries + [anchor] + later|
    ensures var view := View(entries + [anchor] + later, Scan(entries + [anchor] + later));
            && |view| > 0
            && (view[0] == anchor
                <==> entries == [] || anchor.isHandoff || forall e :: e in later ==> !IsHandoffAnchor(e))
  {
    ScanStopsAt(entries, anchor, later);
    var all := entries + [anchor] + later;
    if entries == [] {
      assert all[0] == anchor;
    } else {
      var window := [anchor] + later;
      assert all[|entries|..] == window;
      assert window[1..] == later;
      NothingSelected(later, true);
      Selected(later, true);
      if !anchor.isHandoff && Select(later, true) != [] {
        assert Select(later, true)[0] in Select(later, true);
      }
    }
  }
}

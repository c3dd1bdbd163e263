/**
 The incremental context cache: the request messages are patched in place instead of being
 rebuilt from the tape (`agentkit/runtime/pipeline.py`, `agentkit/context/builder.py`).
 */
module IncrementalContext {
  import opened Wrappers
  import opened TapeModel
  import opened ContextBuilder
  import opened ContextLaws

  function SystemMessage(prompt: string): Message {
    Message("system", Some(prompt), "", None, None)
  }

  /** The index of the last user message, or the end. */
  predicate IsInsertIndex(core: seq<Message>, index: nat) {
    && index <= |core|
    && (forall i :: index < i < |core| ==> core[i].role != "user")
    && (index < |core| ==> core[index].role == "user")
    && (index == |core| ==> forall i :: 0 <= i < |core| ==> core[i].role != "user")
  }

  function InsertIndex(core: seq<Message>): (index: nat)
    ensures IsInsertIndex(core, index)
  {
    LastUserBefore(core, |core|)
  }

  function LastUserBefore(core: seq<Message>, bound: nat): (index: nat)
    requires bound <= |core|
    requires forall i :: bound <= i < |core| ==> core[i].role != "user"
    ensures IsInsertIndex(core, index)
  {
    if bound == 0 then |core|
    else if core[bound - 1].role == "user" then bound - 1
    else LastUserBefore(core, bound - 1)
  }

  method GroundingInsertIndex(core: seq<Message>) returns (index: nat)
    ensures index == InsertIndex(core)
  {
    var i := |core|;
    while i > 0
      invariant 0 <= i <= |core|
      invariant forall j :: i <= j < |core| ==> core[j].role != "user"
    {
      i := i - 1;
      if core[i].role == "user" {
        return i;
      }
    }
    return |core|;
  }

  function Splice(core: seq<Message>, index: nat, grounding: seq<Message>): seq<Message>
    requires index <= |core|
  {
    core[..index] + grounding + core[index..]
  }

  /** `compose_messages`: the system prompt, and the grounding before the last user message. */
  function Compose(prompt: string, core: seq<Message>, grounding: seq<Message>): seq<Message> {
    [SystemMessage(prompt)] + Splice(core, InsertIndex(core), grounding)
  }

  lemma {:induction false} ComposedLength(prompt: string, core: seq<Message>, grounding: seq<Message>)
    ensures |Compose(prompt, core, grounding)| == 1 + |core| + |grounding|
  {
  }

  predicate PlacedAt(core: seq<Message>, grounding: seq<Message>, start: nat, count: nat) {
    && count == |grounding|
    && start == if grounding == [] then 1 + |core| else 1 + InsertIndex(core)
  }

  /** Composing adds the prompt and the grounding block where `PlacedAt` says, and nothing else. */
  lemma {:induction false} ComposedBlock(prompt: string, core: seq<Message>, grounding: seq<Message>, start: nat,
                                         count: nat)
    requires PlacedAt(core, grounding, start, count)
    ensures start + count <= |Compose(prompt, core, grounding)| == 1 + |core| + count
    ensures var messages := Compose(prompt, core, grounding);
            messages[start..start + count] == grounding
            && messages[..start] + messages[start + count..] == [SystemMessage(prompt)] + core
  {
    var i := InsertIndex(core);
    assert core == core[..i] + core[i..];
    if grounding == [] {
      assert Splice(core, i, grounding) == core;
    }
  }

  function Min(a: nat, b: nat): nat {
    if a <= b then a else b
  }

  /** `messages` was composed from these core messages, with its grounding block where recorded. */
  ghost predicate Composed(messages: seq<Message>, prompt: string, core: seq<Message>, grounding: seq<Message>,
                           start: nat, count: nat) {
    messages == Compose(prompt, core, grounding) && PlacedAt(core, grounding, start, count)
  }

  /** `del messages[start : start + count]`, whose bounds are clamped. */
  function Without(messages: seq<Message>, start: nat, count: nat): seq<Message> {
    messages[..Min(start, |messages|)] + messages[Min(start + count, |messages|)..]
  }

  function WithPrompt(messages: seq<Message>, prompt: string): seq<Message> {
    if messages == [] then [SystemMessage(prompt)] else messages[0 := SystemMessage(prompt)]
  }

  lemma {:induction false} GroundingRemoved(messages: seq<Message>, prompt: string, oldPrompt: string,
                                            past: seq<Message>,
                         block: seq<Message>, start: nat, count: nat)
    requires Composed(messages, oldPrompt, past, block, start, count)
    ensures Without(WithPrompt(messages, prompt), start, count) == [SystemMessage(prompt)] + past
    ensures count == 0 ==> WithPrompt(messages, prompt) == [SystemMessage(prompt)] + past
  {
    ComposedBlock(oldPrompt, past, block, start, count);
    BlockDropped(messages, SystemMessage(oldPrompt), prompt, past, start, count);
  }

  lemma {:induction false} BlockDropped(messages: seq<Message>, head: Message, prompt: string, past: seq<Message>,
                                        start: nat, count: nat)
    requires 0 < start <= start + count <= |messages|
    requires messages[..start] + messages[start + count..] == [head] + past
    ensures Without(WithPrompt(messages, prompt), start, count) == [SystemMessage(prompt)] + past
    ensures count == 0 ==> WithPrompt(messages, prompt) == [SystemMessage(prompt)] + past
  {
    hide SystemMessage;
    var rest := messages[..start] + messages[start + count..];
    var prompted := WithPrompt(messages, prompt);
    assert prompted[..start] + prompted[start + count..] == rest[0 := SystemMessage(prompt)];
    assert rest[0 := SystemMessage(prompt)] == [SystemMessage(prompt)] + past;
    if count == 0 {
      assert prompted == prompted[..start] + prompted[start..];
    }
  }

  lemma {:induction false} GroundingInserted(head: Message, kept: seq<Message>, grounding: seq<Message>, index: nat)
    requires index <= |kept|
    ensures ([head] + kept)[..1 + index] + grounding + ([head] + kept)[1 + index..]
         == [head] + Splice(kept, index, grounding)
    ensures Splice(kept, index, []) == kept
  {
  }

  datatype Patched = Patched(messages: seq<Message>, start: nat, count: nat)

  function Kept(messages: seq<Message>, prompt: string, start: nat, count: nat): (kept: seq<Message>)
    ensures messages == [] && count == 0 ==> |kept| == 1
  {
    if count > 0 then Without(WithPrompt(messages, prompt), start, count) else WithPrompt(messages, prompt)
  }

  function Inserted(patched: seq<Message>, core: seq<Message>, grounding: seq<Message>): Patched {
    if grounding == [] then Patched(patched, |patched|, 0)
    else
      var at := Min(1 + InsertIndex(core), |patched|);
      Patched(patched[..at] + grounding + patched[at..], 1 + InsertIndex(core), |grounding|)
  }

  /** `patch_messages`; `None` is the raised `ValueError`. */
  function Patch(messages: seq<Message>, prompt: string, core: seq<Message>, grounding: seq<Message>,
                 start: nat, count: nat): Option<Patched>
  {
    var kept := Kept(messages, prompt, start, count);
    var existing: nat := if |kept| > 0 then |kept| - 1 else 0;
    if existing > |core| then None else Some(Inserted(kept + core[existing..], core, grounding))
  }

  method PatchMessages(messages: seq<Message>, prompt: string, core: seq<Message>, grounding: seq<Message>,
                       groundingStart: nat, groundingCount: nat) returns (r: Option<Patched>)
    ensures r == Patch(messages, prompt, core, grounding, groundingStart, groundingCount)
  {
    var patched := WithPrompt(messages, prompt);
    if groundingCount > 0 {
      patched := Without(patched, groundingStart, groundingCount);
    }
    assert patched == Kept(messages, prompt, groundingStart, groundingCount);
    hide Kept, Without, WithPrompt, IsInsertIndex, InsertIndex;
    var existing: nat := if |patched| > 0 then |patched| - 1 else 0;
    if existing > |core| {
      return None;
    }
    patched := patched + core[existing..];
    assert Patch(messages, prompt, core, grounding, groundingStart, groundingCount)
        == Some(Inserted(patched, core, grounding));
    hide Patch;
    if grounding == [] {
      return Some(Patched(patched, |patched|, 0));
    }
    var index := GroundingInsertIndex(core);
    var at := Min(1 + index, |patched|);
    return Some(Patched(patched[..at] + grounding + patched[at..], 1 + index, |grounding|));
  }

  lemma {:induction false} InsertedInto(prompt: string, kept: seq<Message>, core: seq<Message>, grounding: seq<Message>)
    requires |kept| == |core|
    ensures var p := Inserted([SystemMessage(prompt)] + kept, core, grounding);
            && p.messages == [SystemMessage(prompt)] + Splice(kept, InsertIndex(core), grounding)
            && PlacedAt(core, grounding, p.start, p.count)
  {
    GroundingInserted(SystemMessage(prompt), kept, grounding, InsertIndex(core));
  }

  lemma {:induction false} SpliceInjective(kept: seq<Message>, core: seq<Message>, index: nat, grounding: seq<Message>)
    requires |kept| == |core| && index <= |core|
    ensures Splice(kept, index, grounding) == Splice(core, index, grounding) <==> kept == core
  {
    var a, b := Splice(kept, index, grounding), Splice(core, index, grounding);
    var j := index + |grounding|;
    assert kept == a[..index] + a[j..] && core == b[..index] + b[j..];
  }

  /** The kept messages compose to the fresh messages exactly when they are the core messages. */
  lemma {:induction false} KeptIsFresh(head: Message, past: seq<Message>, core: seq<Message>, index: nat,
                                       grounding: seq<Message>)
    requires |past| <= |core| && index <= |core|
    ensures var kept := past + core[|past|..];
      [head] + Splice(kept, index, grounding) == [head] + Splice(core, index, grounding)
      <==> past == core[..|past|]
  {
    var kept := past + core[|past|..];
    SpliceInjective(kept, core, index, grounding);
    assert ([head] + Splice(kept, index, grounding))[1..] == Splice(kept, index, grounding);
    assert ([head] + Splice(core, index, grounding))[1..] == Splice(core, index, grounding);
    assert core == core[..|past|] + core[|past|..];
    assert kept[..|past|] == past;
  }

  lemma {:induction false} PatchOfKept(messages: seq<Message>, prompt: string, past: seq<Message>, start: nat,
                                       count: nat,
                    core: seq<Message>, grounding: seq<Message>)
    requires Kept(messages, prompt, start, count) == [SystemMessage(prompt)] + past
    ensures var r := Patch(messages, prompt, core, grounding, start, count);
            && (r.Some? <==> |past| <= |core|)
            && (r.Some? ==> PlacedAt(core, grounding, r.value.start, r.value.count))
            && (r.Some? ==>
                  var kept := past + core[|past|..];
                  r.value.messages == [SystemMessage(prompt)] + Splice(kept, InsertIndex(core), grounding))
  {
    if |past| <= |core| {
      var kept := past + core[|past|..];
      assert ([SystemMessage(prompt)] + past) + core[|past|..] == [SystemMessage(prompt)] + kept;
      InsertedInto(prompt, kept, core, grounding);
    }
  }

  /**
   Patching messages composed from `past` raises exactly when the core shrank; otherwise it keeps
   the messages already there, adds the core messages beyond them and moves the grounding block.
   The outcome is the fresh composition exactly when `past` is still a prefix of the core.
   */
  lemma {:induction false} PatchOfComposed(messages: seq<Message>, oldPrompt: string, past: seq<Message>,
                                           block: seq<Message>,
                        start: nat, count: nat, prompt: string, core: seq<Message>, grounding: seq<Message>)
    requires Composed(messages, oldPrompt, past, block, start, count)
    ensures var r := Patch(messages, prompt, core, grounding, start, count);
            && (r.Some? <==> |past| <= |core|)
            && (r.Some? ==> PlacedAt(core, grounding, r.value.start, r.value.count))
            && (r.Some? ==> (r.value.messages == Compose(prompt, core, grounding) <==> past == core[..|past|]))
  {
    GroundingRemoved(messages, prompt, oldPrompt, past, block, start, count);
    PatchOfKept(messages, prompt, past, start, count, core, grounding);
    if |past| <= |core| {
      KeptIsFresh(SystemMessage(prompt), past, core, InsertIndex(core), grounding);
    }
  }

  // ---------- The cache ----------

  function Core(entries: seq<Entry>, windowStart: nat): seq<Message>
    requires windowStart <= |entries|
  {
    Extend([], View(entries, windowStart))
  }

  /** The new entries neither continue a run of tool calls nor merge into the last message. */
  predicate CleanBoundary(seen: seq<Entry>, added: seq<Entry>) {
    && !(OpenRun(seen) && ContinuesRun(added))
    && !Absorbs(Extend([], seen), added)
  }

  /**
   Extending the cached core messages and keeping the messages already sent agrees with a rebuild
   exactly when the boundary is clean.
   */
  lemma {:induction false} PatchedCoreIsRebuilt(seen: seq<Entry>, added: seq<Entry>)
    ensures var past := Extend([], seen);
            var core := Extend(past, added);
            && |past| <= |core|
            && (past == core[..|past|] && core == Extend([], seen + added) <==> CleanBoundary(seen, added))
  {
    var past := Extend([], seen);
    SplitExactly([], seen, added);
    PrefixKeptExactly(past, added);
  }

  /** The cached fields of the pipeline context. */
  datatype Cache = Cache(messages: seq<Message>, core: seq<Message>, entryCount: nat, windowStart: nat,
                         groundingStart: nat, groundingCount: nat)

  /** What a full rebuild leaves in the cache. */
  function Fresh(prompt: string, entries: seq<Entry>, windowStart: nat, grounding: seq<Message>): Cache
    requires windowStart <= |entries|
  {
    var core := Core(entries, windowStart);
    Cache(Compose(prompt, core, grounding), core, |entries|, windowStart,
          if grounding == [] then 1 + |core| else 1 + InsertIndex(core), |grounding|)
  }

  /** The entries that the incremental path takes for new. */
  function NewEntries(entries: seq<Entry>, windowStart: nat, entryCount: nat): seq<Entry>
    requires windowStart <= |entries| && entryCount <= |entries|
  {
    ViewLength(entries, windowStart);
    View(entries, windowStart)[if entryCount >= windowStart then entryCount - windowStart else 0..]
  }

  /** What the incremental path leaves in the cache; `None` when it raises. */
  function Stepped(c: Cache, prompt: string, entries: seq<Entry>, windowStart: nat,
                   grounding: seq<Message>): Option<Cache>
    requires windowStart <= |entries| && c.entryCount <= |entries|
  {
    var core := Extend(c.core, NewEntries(entries, windowStart, c.entryCount));
    match Patch(c.messages, prompt, core, grounding, c.groundingStart, c.groundingCount)
    case None => None
    case Some(p) => Some(Cache(p.messages, core, |entries|, windowStart, p.start, p.count))
  }

  /** No handoff anchor among the new entries moves in front of an entry already seen. */
  predicate ViewAppends(entries: seq<Entry>, n: nat, windowStart: nat)
    requires windowStart <= n <= |entries|
  {
    windowStart == 0 || Appendable(entries[..n][windowStart..], entries[n..])
  }

  lemma {:induction false} NewEntriesAreAdded(entries: seq<Entry>, n: nat, windowStart: nat)
    requires windowStart <= n <= |entries|
    requires ViewAppends(entries, n, windowStart)
    ensures View(entries, windowStart) == View(entries[..n], windowStart) + entries[n..]
    ensures NewEntries(entries, windowStart, n) == entries[n..]
  {
    hide Select, Appendable;
    ViewLength(entries, windowStart);
    ViewLength(entries[..n], windowStart);
    assert entries[..n] + entries[n..] == entries;
    ViewGrowsExactly(entries[..n], entries[n..], windowStart);
  }

  /** The incremental step never raises: the core messages never shrink. */
  lemma {:induction false} StepNeverRaises(prompt: string, entries: seq<Entry>, n: nat, windowStart: nat,
                                           block: seq<Message>, grounding: seq<Message>)
    requires windowStart <= n <= |entries|
    ensures Stepped(Fresh(prompt, entries[..n], windowStart, block), prompt, entries, windowStart, grounding).Some?
  {
    var c := Fresh(prompt, entries[..n], windowStart, block);
    var newEntries := NewEntries(entries, windowStart, n);
    PrefixKeptExactly(c.core, newEntries);
    PatchOfComposed(c.messages, prompt, c.core, block, c.groundingStart, c.groundingCount, prompt,
                    Extend(c.core, newEntries), grounding);
  }

  lemma {:induction false} PatchedIsFresh(prompt: string, past: seq<Message>, core: seq<Message>,
                                          block: seq<Message>, start: nat, count: nat, grounding: seq<Message>)
    requires |past| <= |core| && PlacedAt(past, block, start, count)
    ensures var r := Patch(Compose(prompt, past, block), prompt, core, grounding, start, count);
      && r.Some?
      && PlacedAt(core, grounding, r.value.start, r.value.count)
      && (r.value.messages == Compose(prompt, core, grounding) <==> past == core[..|past|])
  {
    PatchOfComposed(Compose(prompt, past, block), prompt, past, block, start, count, prompt, core, grounding);
  }

  /**
   Incremental building refines full rebuilding: from the cache of an earlier, shorter tape, one
   incremental step gives every field the value of a fresh rebuild (messages, core messages,
   grounding start and count) exactly when the new entries neither continue a run of tool calls
   nor merge into the last message.
   */
  lemma {:induction false} IncrementalRefinesRebuild(prompt: string, entries: seq<Entry>, n: nat, windowStart: nat,
                                                     block: seq<Message>, grounding: seq<Message>)
    requires windowStart <= n <= |entries|
    requires ViewAppends(entries, n, windowStart)
    ensures Stepped(Fresh(prompt, entries[..n], windowStart, block), prompt, entries, windowStart, grounding)
            == Some(Fresh(prompt, entries, windowStart, grounding))
       <==> CleanBoundary(View(entries[..n], windowStart), entries[n..])
  {
    NewEntriesAreAdded(entries, n, windowStart);
    var c := Fresh(prompt, entries[..n], windowStart, block);
    var core := Extend(c.core, entries[n..]);
    PatchedCoreIsRebuilt(View(entries[..n], windowStart), entries[n..]);
    PatchedIsFresh(prompt, c.core, core, block, c.groundingStart, c.groundingCount, grounding);
    SteppedFromPatch(c, prompt, entries, windowStart, grounding, core);
  }

  lemma {:induction false} SteppedFromPatch(c: Cache, prompt: string, entries: seq<Entry>, windowStart: nat,
                                            grounding: seq<Message>, core: seq<Message>)
    requires windowStart <= |entries| && c.entryCount <= |entries|
    requires core == Extend(c.core, NewEntries(entries, windowStart, c.entryCount))
    requires var r := Patch(c.messages, prompt, core, grounding, c.groundingStart, c.groundingCount);
      r.Some? && PlacedAt(core, grounding, r.value.start, r.value.count)
    ensures Stepped(c, prompt, entries, windowStart, grounding) == Some(Fresh(prompt, entries, windowStart, grounding))
       <==> && core == Core(entries, windowStart)
            && Patch(c.messages, prompt, core, grounding, c.groundingStart, c.groundingCount).value.messages
               == Compose(prompt, core, grounding)
  {
    hide Extend, NewEntries, View, Patch, Compose, InsertIndex;
  }

  datatype WindowAdvice = Unadvised | Advised(start: int, anchor: Option<Entry>)

  /** The advice moves the window, which puts the summary anchor at the end of the tape. */
  predicate MovesWindow(advice: WindowAdvice, entries: seq<Entry>, windowStart: nat) {
    advice.Advised? && advice.anchor.Some? && 0 < advice.start <= |entries| - windowStart
  }

  class PipelineContext {
    const prompt: string
    const incremental: bool
    const interval: nat
    const tape: Tape
    var messages: seq<Message>
    var coreMessages: seq<Message>
    var entryCount: nat
    var windowStart: nat
    var groundingStart: nat
    var groundingCount: nat
    var requiresFullRebuild: bool
    var toolRounds: nat

    constructor (prompt: string, incremental: bool, interval: int, tape: Tape)
      requires tape.Valid()
      ensures this.tape == tape && this.prompt == prompt && this.incremental == incremental
      ensures Consistent() && entryCount == 0 && toolRounds == 0 && !requiresFullRebuild
    {
      this.prompt, this.incremental, this.tape := prompt, incremental, tape;
      this.interval := if interval < 1 then 1 else interval;
      messages, coreMessages := [], [];
      entryCount, windowStart, groundingStart, groundingCount := 0, 0, 0, 0;
      requiresFullRebuild, toolRounds := false, 0;
    }

    function Cached(): Cache
      reads this
    {
      Cache(messages, coreMessages, entryCount, windowStart, groundingStart, groundingCount)
    }

    /** The cache is what a rebuild left when the tape held its first `entryCount` entries. */
    ghost predicate Synced()
      reads this, tape
    {
      && windowStart <= entryCount <= |tape.entries|
      && exists block: seq<Message> :: Cached() == Fresh(prompt, tape.entries[..entryCount], windowStart, block)
    }

    /** Whatever a later build reuses is in step with an earlier tape. */
    ghost predicate Consistent()
      reads this, tape
    {
      tape.Valid() && interval > 0 && (entryCount == 0 || requiresFullRebuild || Synced())
    }

    predicate MustRebuild(forced: bool)
      requires interval > 0
      reads this, tape
    {
      || !incremental
      || forced
      || requiresFullRebuild
      || entryCount == 0
      || entryCount > |tape.entries|
      || windowStart != tape.windowStart
      || toolRounds % interval == 0
    }

    /** The window part of `_stage_build_context`. */
    method ResolveWindow(advice: WindowAdvice) returns (forced: bool)
      requires tape.Valid()
      modifies tape
      ensures tape.Valid()
      ensures forced == MovesWindow(advice, old(tape.entries), old(tape.windowStart))
      ensures tape.entries == if forced then old(tape.entries) + [advice.anchor.value] else old(tape.entries)
      ensures tape.windowStart == if forced then old(tape.windowStart) + advice.start else old(tape.windowStart)
    {
      forced := false;
      if advice.Advised? {
        var visible := tape.entries[tape.windowStart..];
        if 0 <= advice.start <= |visible| && advice.anchor.Some? && advice.start > 0 {
          var start := tape.windowStart + advice.start;
          tape.HandoffTo(advice.anchor.value, Some(start));
          forced := true;
        }
      }
    }

    method RebuildContext(grounding: seq<Message>)
      requires tape.Valid()
      modifies this
      ensures Cached() == Fresh(prompt, tape.entries, tape.windowStart, grounding)
      ensures !requiresFullRebuild && toolRounds == old(toolRounds)
    {
      hide Extend, View, Splice, InsertIndex;
      coreMessages := AppendToCoreMessages([], View(tape.entries, tape.windowStart));
      entryCount := |tape.entries|;
      windowStart := tape.windowStart;
      messages := Compose(prompt, coreMessages, grounding);
      ComposedLength(prompt, coreMessages, grounding);
      if grounding != [] {
        var index := GroundingInsertIndex(coreMessages);
        groundingStart, groundingCount := 1 + index, |grounding|;
      } else {
        groundingStart, groundingCount := |messages|, 0;
      }
      requiresFullRebuild := false;
    }

    /** The incremental path: extends the core messages and patches the message list in place. */
    method PatchContext(grounding: seq<Message>) returns (raised: bool)
      requires tape.Valid() && entryCount <= |tape.entries|
      modifies this
      ensures requiresFullRebuild == old(requiresFullRebuild) && toolRounds == old(toolRounds)
      ensures var r := Stepped(old(Cached()), prompt, tape.entries, tape.windowStart, grounding);
        raised == r.None? && (r.Some? ==> Cached() == r.value)
    {
      var newEntries := NewEntries(tape.entries, tape.windowStart, entryCount);
      coreMessages := AppendToCoreMessages(coreMessages, newEntries);
      entryCount := |tape.entries|;
      windowStart := tape.windowStart;
      var patched := PatchMessages(messages, prompt, coreMessages, grounding, groundingStart, groundingCount);
      if patched.None? {
        return true;
      }
      messages := patched.value.messages;
      groundingStart, groundingCount := patched.value.start, patched.value.count;
      return false;
    }

    /**
     `_stage_build_context` without the legacy summary hook. The cache becomes that of a full
     rebuild whenever the build rebuilds, and on the incremental path exactly when the boundary
     between the entries seen before and the new ones is clean.
     */
    method BuildContext(advice: WindowAdvice, grounding: seq<Message>)
      requires Consistent()
      modifies this, tape
      ensures tape.Valid() && toolRounds == old(toolRounds) && !requiresFullRebuild
      ensures var forced := MovesWindow(advice, old(tape.entries), old(tape.windowStart));
        && tape.entries == (if forced then old(tape.entries) + [advice.anchor.value] else old(tape.entries))
        && tape.windowStart == (if forced then old(tape.windowStart) + advice.start else old(tape.windowStart))
      ensures old(MustRebuild(MovesWindow(advice, tape.entries, tape.windowStart)))
          ==> Cached() == Fresh(prompt, tape.entries, tape.windowStart, grounding)
      ensures
        (&& !old(MustRebuild(MovesWindow(advice, tape.entries, tape.windowStart)))
         && old(ViewAppends(tape.entries, entryCount, windowStart)))
        ==> (Cached() == Fresh(prompt, tape.entries, tape.windowStart, grounding)
             <==> old(CleanBoundary(View(tape.entries[..entryCount], windowStart), tape.entries[entryCount..])))
    {
      var forced := ResolveWindow(advice);
      if MustRebuild(forced) {
        RebuildContext(grounding);
      } else {
        ghost var block :| Cached() == Fresh(prompt, tape.entries[..entryCount], windowStart, block);
        StepNeverRaises(prompt, tape.entries, entryCount, windowStart, block, grounding);
        if ViewAppends(tape.entries, entryCount, windowStart) {
          IncrementalRefinesRebuild(prompt, tape.entries, entryCount, windowStart, block, grounding);
        }
        var raised := PatchContext(grounding);
        assert !raised;
      }
    }
  }
}

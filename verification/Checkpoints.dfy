/**
 Checkpoints on a file system of atomic steps: crash atomicity of save and delete, and the round
 trip of a captured tape (`agentkit/storage/checkpoint_fs.py`, `agentkit/checkpoint/service.py`,
 `agentkit/tape/models.py`).
 */
module Checkpoints {
  import opened Wrappers

  // ---------- Encoded entries ----------

  /** The metadata that decoding looks at, and everything else. */
  datatype Meta = Meta(anchorType: Option<string>, isHandoff: bool, other: map<string, string>)

  const NO_META := Meta(None, false, map[])

  /** `Anchored` is an instance of the `Anchor` class; a plain entry may have any kind. */
  datatype Entry =
    | Plain(kind: string, payload: map<string, string>, id: string, timestamp: real, meta: Meta)
    | Anchored(payload: map<string, string>, id: string, timestamp: real, meta: Meta,
               anchorType: string, sourceIds: seq<string>)

  /** The encoded form: absent fields are `None`. */
  datatype Encoded = Encoded(kind: string, payload: map<string, string>, id: string, timestamp: real,
                             meta: Option<Meta>, anchorType: Option<string>, sourceIds: Option<seq<string>>)

  function EncodedMeta(meta: Meta): Option<Meta> {
    if meta == NO_META then None else Some(meta)
  }

  /** `to_dict`. */
  function Encode(e: Entry): Encoded {
    match e
    case Plain(kind, payload, id, timestamp, meta) =>
      Encoded(kind, payload, id, timestamp, EncodedMeta(meta), None, None)
    case Anchored(payload, id, timestamp, meta, anchorType, sourceIds) =>
      Encoded("anchor", payload, id, timestamp, EncodedMeta(meta), Some(anchorType),
              if sourceIds == [] then None else Some(sourceIds))
  }

  function MetaOf(d: Encoded): Meta {
    if d.meta.Some? then d.meta.value else NO_META
  }

  /** Older names of two anchor types. */
  function Promoted(anchorType: string): string {
    if anchorType == "topic_initial" then "topic_start"
    else if anchorType == "topic_finalized" then "topic_end"
    else anchorType
  }

  /** The anchor type that decoding gives: the field, else the metadata, else by the handoff flag. */
  function DecodedType(d: Encoded): string {
    if d.anchorType.Some? then Promoted(d.anchorType.value)
    else if MetaOf(d).anchorType.Some? then Promoted(MetaOf(d).anchorType.value)
    else if MetaOf(d).isHandoff then "handoff"
    else "context"
  }

  /** `from_dict`: every entry of kind "anchor" becomes an anchor. */
  function Decode(d: Encoded): Entry {
    if d.kind == "anchor" then
      Anchored(d.payload, d.id, d.timestamp, MetaOf(d), DecodedType(d),
               if d.sourceIds.Some? then d.sourceIds.value else [])
    else
      Plain(d.kind, d.payload, d.id, d.timestamp, MetaOf(d))
  }

  predicate Legacy(anchorType: string) {
    anchorType == "topic_initial" || anchorType == "topic_finalized"
  }

  /** Decoding undoes encoding, except for plain entries of kind "anchor" and the older type names. */
  lemma {:induction false} RoundTripExactly(e: Entry)
    ensures Decode(Encode(e)) == e <==> if e.Plain? then e.kind != "anchor" else !Legacy(e.anchorType)
  {
    if e.Anchored? && Legacy(e.anchorType) {
      assert Promoted(e.anchorType) != e.anchorType;
    }
  }

  /**
   What decoding gives. The anchor type is the one in the field, or else the one in the metadata, with
   "topic_initial" read as "topic_start" and "topic_finalized" as "topic_end"; without either, the handoff
   flag decides.
   */
  lemma {:induction false} DecodingMeans(d: Encoded)
    ensures var e, meta := Decode(d), if d.meta.Some? then d.meta.value else Meta(None, false, map[]);
      && e.payload == d.payload && e.id == d.id && e.timestamp == d.timestamp && e.meta == meta
      && (e.Anchored? <==> d.kind == "anchor") && (e.Plain? ==> e.kind == d.kind)
      && (e.Anchored? ==>
            var name := if d.anchorType.Some? then d.anchorType else meta.anchorType;
            && e.sourceIds == (if d.sourceIds.Some? then d.sourceIds.value else [])
            && (name == Some("topic_initial") ==> e.anchorType == "topic_start")
            && (name == Some("topic_finalized") ==> e.anchorType == "topic_end")
            && (name.Some? && name.value !in {"topic_initial", "topic_finalized"} ==> e.anchorType == name.value)
            && (name.None? ==> e.anchorType == if meta.isHandoff then "handoff" else "context"))
  {
  }

  /** Promotion happens once: what was decoded survives every further round trip. */
  lemma {:induction false} PromotionIsIdempotent(d: Encoded)
    ensures Decode(Encode(Decode(d))) == Decode(d)
    ensures Decode(d).Anchored? ==> !Legacy(Decode(d).anchorType)
  {
    RoundTripExactly(Decode(d));
  }

  // ---------- Files ----------

  datatype CheckpointMeta = CheckpointMeta(id: string, tapeId: string, entryCount: nat, windowStart: nat)

  datatype Snapshot = Snapshot(meta: CheckpointMeta, entries: seq<Encoded>, states: map<string, string>)

  /** The three files of each checkpoint. */
  datatype Disk = Disk(entries: map<string, seq<Encoded>>, states: map<string, map<string, string>>,
                       metas: map<string, CheckpointMeta>)

  /** A step that a crash cannot cut in two. */
  datatype Op =
    | WriteEntries(s: Snapshot)
    | WriteStates(s: Snapshot)
    | WriteMeta(s: Snapshot)
    | UnlinkEntries(id: string)
    | UnlinkStates(id: string)
    | UnlinkMeta(id: string)

  function Apply(disk: Disk, op: Op): Disk {
    match op
    case WriteEntries(s) => disk.(entries := disk.entries[s.meta.id := s.entries])
    case WriteStates(s) => disk.(states := disk.states[s.meta.id := s.states])
    case WriteMeta(s) => disk.(metas := disk.metas[s.meta.id := s.meta])
    case UnlinkEntries(id) => disk.(entries := disk.entries - {id})
    case UnlinkStates(id) => disk.(states := disk.states - {id})
    case UnlinkMeta(id) => disk.(metas := disk.metas - {id})
  }

  function Run(disk: Disk, ops: seq<Op>): Disk
    decreases |ops|
  {
    if ops == [] then disk else Run(Apply(disk, ops[0]), ops[1..])
  }

  datatype Loaded = Nothing | Found(snapshot: Snapshot) | Broken

  /** `load`: the meta file decides; without one of the others the load raises. */
  function Load(disk: Disk, id: string): Loaded {
    if id !in disk.metas then Nothing
    else if id !in disk.states || id !in disk.entries then Broken
    else Found(Snapshot(disk.metas[id], disk.entries[id], disk.states[id]))
  }

  predicate Unused(disk: Disk, id: string) {
    id !in disk.metas && id !in disk.states && id !in disk.entries
  }

  // ---------- Save and delete ----------

  /**
   How a save ends when nothing crashes: it succeeds, or the write at `step` raises. A write may
   raise before its file is in place or, on the directory's sync, after that.
   */
  datatype Fault = NoFault | FaultAt(step: nat, replaced: bool)

  function Writes(s: Snapshot): seq<Op> {
    [WriteEntries(s), WriteStates(s), WriteMeta(s)]
  }

  function CleanUp(id: string, published: nat): seq<Op>
    requires published <= 2
  {
    if published == 0 then [] else if published == 1 then [UnlinkEntries(id)] else [UnlinkEntries(id), UnlinkStates(id)]
  }

  /** The steps of a save: the writes up to the fault, and then the clean-up of the published files. */
  function SaveOps(s: Snapshot, fault: Fault): seq<Op>
    requires fault.FaultAt? ==> fault.step <= 2
  {
    match fault
    case NoFault => Writes(s)
    case FaultAt(step, replaced) =>
      Writes(s)[..if replaced then step + 1 else step] + CleanUp(s.meta.id, step)
  }

  /** The meta file leads the deletion. */
  function DeleteOps(id: string): seq<Op> {
    [UnlinkMeta(id), UnlinkEntries(id), UnlinkStates(id)]
  }

  /** The one fault that the clean-up does not undo: the meta file is in place when its write raises. */
  predicate Torn(fault: Fault) {
    fault == FaultAt(2, true)
  }

  lemma {:induction false} RunSplits(disk: Disk, a: seq<Op>, b: seq<Op>)
    ensures Run(disk, a + b) == Run(Run(disk, a), b)
    decreases |a|
  {
    if a == [] {
      assert a + b == b;
    } else {
      assert (a + b)[1..] == a[1..] + b;
      RunSplits(Apply(disk, a[0]), a[1..], b);
    }
  }

  predicate Concerns(op: Op, id: string) {
    match op
    case WriteEntries(s) => s.meta.id == id
    case WriteStates(s) => s.meta.id == id
    case WriteMeta(s) => s.meta.id == id
    case UnlinkEntries(i) => i == id
    case UnlinkStates(i) => i == id
    case UnlinkMeta(i) => i == id
  }

  /** Saving or deleting one checkpoint leaves the others alone, wherever it stops. */
  lemma {:induction false} OthersUntouched(disk: Disk, ops: seq<Op>, id: string)
    requires forall i :: 0 <= i < |ops| ==> !Concerns(ops[i], id)
    ensures Load(Run(disk, ops), id) == Load(disk, id)
    decreases |ops|
  {
    if ops != [] {
      assert !Concerns(ops[0], id);
      OthersUntouched(Apply(disk, ops[0]), ops[1..], id);
    }
  }

  lemma {:induction false} RunOne(disk: Disk, ops: seq<Op>, k: nat)
    requires k < |ops|
    ensures Run(disk, ops[..k + 1]) == Apply(Run(disk, ops[..k]), ops[k])
  {
    assert ops[..k + 1] == ops[..k] + [ops[k]];
    RunSplits(disk, ops[..k], [ops[k]]);
    assert [ops[k]][1..] == [];
  }

  /** The files after the first `k` writes of a save. */
  lemma {:induction false} AfterWrites(disk: Disk, s: Snapshot, k: nat)
    requires k <= 3
    ensures var d := Run(disk, Writes(s)[..k]); var id := s.meta.id;
      && (k > 0 ==> id in d.entries && d.entries[id] == s.entries)
      && (k > 1 ==> id in d.states && d.states[id] == s.states)
      && (k > 2 ==> id in d.metas && d.metas[id] == s.meta)
      && (k <= 2 ==> d.metas == disk.metas)
  {
    if k > 0 {
      AfterWrites(disk, s, k - 1);
      RunOne(disk, Writes(s), k - 1);
    }
  }

  /** A save without a fault: until its last step nothing shows, and then the whole snapshot does. */
  lemma {:induction false} SaveIsAtomic(disk: Disk, s: Snapshot, k: nat)
    requires Unused(disk, s.meta.id) && k <= 3
    ensures Load(Run(disk, SaveOps(s, NoFault)[..k]), s.meta.id) == if k < 3 then Nothing else Found(s)
  {
    AfterWrites(disk, s, k);
  }

  lemma {:induction false} StoppedAt(writes: seq<Op>, undo: seq<Op>, n: nat, k: nat)
    requires n <= |writes| && k <= n + |undo|
    ensures (writes[..n] + undo)[..k] == if k <= n then writes[..k] else writes[..n] + undo[..k - n]
  {
  }

  /** A save that raises, stopped after any of its steps. */
  lemma {:induction false} FaultySave(disk: Disk, s: Snapshot, step: nat, replaced: bool, k: nat)
    requires Unused(disk, s.meta.id) && step <= 2
    requires k <= |SaveOps(s, FaultAt(step, replaced))|
    ensures Load(Run(disk, SaveOps(s, FaultAt(step, replaced))[..k]), s.meta.id)
         == if step < 2 || !replaced || k < 3 then Nothing else if k == 3 then Found(s) else Broken
  {
    hide Run;
    var n := if replaced then step + 1 else step;
    var writes, undo := Writes(s), CleanUp(s.meta.id, step);
    assert SaveOps(s, FaultAt(step, replaced)) == writes[..n] + undo;
    StoppedAt(writes, undo, n, k);
    if k <= n {
      AfterWrites(disk, s, k);
    } else {
      AfterWrites(disk, s, n);
      RunSplits(disk, writes[..n], undo[..k - n]);
      AfterCleanUp(Run(disk, writes[..n]), s.meta.id, step, k - n);
    }
  }

  lemma {:induction false} AfterCleanUp(disk: Disk, id: string, published: nat, k: nat)
    requires published <= 2 && 0 < k <= |CleanUp(id, published)|
    ensures var d := Run(disk, CleanUp(id, published)[..k]); d.metas == disk.metas && id !in d.entries
    decreases k
  {
    RunOne(disk, CleanUp(id, published), k - 1);
    if k > 1 {
      AfterCleanUp(disk, id, published, k - 1);
    }
  }

  /**
   After a crash anywhere in a save of a new checkpoint, a load finds nothing or exactly the saved
   snapshot, unless the write of the meta file raised with the file in place and the clean-up began.
   */
  lemma {:induction false} SaveIsCrashAtomicExactly(disk: Disk, s: Snapshot, fault: Fault, k: nat)
    requires Unused(disk, s.meta.id) && (fault.FaultAt? ==> fault.step <= 2)
    requires k <= |SaveOps(s, fault)|
    ensures var loaded := Load(Run(disk, SaveOps(s, fault)[..k]), s.meta.id);
      loaded == Nothing || loaded == Found(s) <==> !(Torn(fault) && k > 3)
  {
    match fault {
      case NoFault => SaveIsAtomic(disk, s, k);
      case FaultAt(step, replaced) => FaultySave(disk, s, step, replaced, k);
    }
  }

  /** A save that raised leaves no file behind exactly when the file whose write raised was not in place yet. */
  lemma {:induction false} RaisedSaveCleansUpExactly(disk: Disk, s: Snapshot, step: nat, replaced: bool)
    requires Unused(disk, s.meta.id) && step <= 2
    ensures Unused(Run(disk, SaveOps(s, FaultAt(step, replaced))), s.meta.id) <==> !replaced
  {
    var n := if replaced then step + 1 else step;
    var writes, undo := Writes(s)[..n], CleanUp(s.meta.id, step);
    RunSplits(disk, writes, undo);
    WrittenFiles(disk, s, n);
    CleanedUp(Run(disk, writes), s.meta.id, step);
  }

  /** Which files the first writes of a save put in place. */
  lemma {:induction false} WrittenFiles(disk: Disk, s: Snapshot, n: nat)
    requires Unused(disk, s.meta.id) && n <= 3
    ensures var d, id := Run(disk, Writes(s)[..n]), s.meta.id;
      (id in d.entries <==> n > 0) && (id in d.states <==> n > 1) && (id in d.metas <==> n > 2)
  {
    if n > 0 {
      WrittenFiles(disk, s, n - 1);
      RunOne(disk, Writes(s), n - 1);
    }
  }

  lemma {:induction false} CleanedUp(disk: Disk, id: string, published: nat)
    requires published <= 2
    ensures var d := Run(disk, CleanUp(id, published));
      && d.metas == disk.metas
      && (id in d.entries <==> id in disk.entries && published == 0)
      && (id in d.states <==> id in disk.states && published <= 1)
  {
    var ops := CleanUp(id, published);
    assert ops[..|ops|] == ops;
    if published > 0 {
      RunOne(disk, ops, 0);
    }
    if published > 1 {
      RunOne(disk, ops, 1);
    }
  }

  /** A delete that ends leaves no file of the checkpoint behind. */
  lemma {:induction false} DeleteLeavesNothing(disk: Disk, id: string)
    ensures Unused(Run(disk, DeleteOps(id)), id)
  {
    var ops := DeleteOps(id);
    RunOne(disk, ops, 0);
    RunOne(disk, ops, 1);
    RunOne(disk, ops, 2);
    assert ops[..3] == ops;
  }

  /** Saving over a checkpoint that exists is not atomic: a crash mixes the two snapshots. */
  lemma {:induction false} OverwriteMixes(disk: Disk, before: Snapshot, after: Snapshot)
    requires Load(disk, before.meta.id) == Found(before) && after.meta.id == before.meta.id
    ensures Load(Run(disk, SaveOps(after, NoFault)[..1]), before.meta.id)
         == Found(Snapshot(before.meta, after.entries, before.states))
  {
    RunOne(disk, Writes(after), 0);
  }

  /** After a crash anywhere in a delete, a load finds the snapshot or nothing. */
  lemma {:induction false} DeleteIsCrashAtomic(disk: Disk, s: Snapshot, k: nat)
    requires Load(disk, s.meta.id) == Found(s) && k <= 3
    ensures Load(Run(disk, DeleteOps(s.meta.id)[..k]), s.meta.id) == if k == 0 then Found(s) else Nothing
    decreases k
  {
    if k > 0 {
      RunOne(disk, DeleteOps(s.meta.id), k - 1);
      if k > 1 {
        DeleteIsCrashAtomic(disk, s, k - 1);
      }
    }
  }

  class FSCheckpointStore {
    var disk: Disk

    constructor (disk: Disk)
      ensures this.disk == disk
    {
      this.disk := disk;
    }

    method Step(op: Op)
      modifies this
      ensures disk == Apply(old(disk), op)
    {
      disk := Apply(disk, op);
    }

    /** `save`: `published` counts the files whose writes returned. `false` is the raised error. */
    method Save(s: Snapshot, fault: Fault) returns (saved: bool)
      requires fault.FaultAt? ==> fault.step <= 2
      modifies this
      ensures saved <==> fault.NoFault?
      ensures disk == Run(old(disk), SaveOps(s, fault))
    {
      var writes := Writes(s);
      var published: nat := 0;
      while published < 3
        invariant 0 <= published <= 3
        invariant fault.FaultAt? ==> published <= fault.step
        invariant disk == Run(old(disk), writes[..published])
      {
        if fault.FaultAt? && fault.step == published {
          if fault.replaced {
            Step(writes[published]);
            RunOne(old(disk), writes, published);
          }
          ghost var done := writes[..if fault.replaced then published + 1 else published];
          RunSplits(old(disk), done, CleanUp(s.meta.id, published));
          RemovePublished(s.meta.id, published);
          return false;
        }
        Step(writes[published]);
        RunOne(old(disk), writes, published);
        published := published + 1;
      }
      assert writes[..3] == writes;
      return true;
    }

    /** The clean-up loop over the published paths. */
    method RemovePublished(id: string, published: nat)
      requires published <= 2
      modifies this
      ensures disk == Run(old(disk), CleanUp(id, published))
    {
      var ops := CleanUp(id, published);
      var i := 0;
      while i < |ops|
        invariant 0 <= i <= |ops|
        invariant disk == Run(old(disk), ops[..i])
      {
        Step(ops[i]);
        RunOne(old(disk), ops, i);
        i := i + 1;
      }
      assert ops[..|ops|] == ops;
    }

    /** `delete`. */
    method DeleteCheckpoint(id: string)
      modifies this
      ensures disk == Run(old(disk), DeleteOps(id)) && Load(disk, id) == Nothing
    {
      var ops := DeleteOps(id);
      var i := 0;
      while i < 3
        invariant 0 <= i <= 3
        invariant disk == Run(old(disk), ops[..i])
        invariant i > 0 ==> id !in disk.metas
      {
        Step(ops[i]);
        RunOne(old(disk), ops, i);
        i := i + 1;
      }
      assert ops[..3] == ops;
    }
  }

  // ---------- Capture and reconstruct ----------

  function EncodeAll(entries: seq<Entry>): (encoded: seq<Encoded>)
    ensures |encoded| == |entries| && forall i :: 0 <= i < |entries| ==> encoded[i] == Encode(entries[i])
  {
    seq(|entries|, i requires 0 <= i < |entries| => Encode(entries[i]))
  }

  function DecodeAll(encoded: seq<Encoded>): (entries: seq<Entry>)
    ensures |entries| == |encoded| && forall i :: 0 <= i < |encoded| ==> entries[i] == Decode(encoded[i])
  {
    seq(|encoded|, i requires 0 <= i < |encoded| => Decode(encoded[i]))
  }

  /** `capture`. */
  function Capture(id: string, tapeId: string, entries: seq<Entry>, windowStart: nat,
                   states: map<string, string>): Snapshot {
    Snapshot(CheckpointMeta(id, tapeId, |entries|, windowStart), EncodeAll(entries), states)
  }

  /** `reconstruct_tape`: `None` when there is no such checkpoint or its files are broken. */
  function Reconstruct(disk: Disk, id: string): Option<(seq<Entry>, nat)> {
    match Load(disk, id)
    case Found(s) => Some((DecodeAll(s.entries), s.meta.windowStart))
    case _ => None
  }

  /**
   Capturing a tape and reconstructing it gives back its entries and window start exactly when no
   entry is a plain entry of kind "anchor" or an anchor with an older type name.
   */
  lemma {:induction false} ReconstructsExactly(disk: Disk, id: string, tapeId: string, entries: seq<Entry>,
                                               windowStart: nat, states: map<string, string>)
    requires Unused(disk, id)
    ensures var s := Capture(id, tapeId, entries, windowStart, states);
      Reconstruct(Run(disk, SaveOps(s, NoFault)), id) == Some((entries, windowStart))
      <==> forall i :: 0 <= i < |entries| ==>
             if entries[i].Plain? then entries[i].kind != "anchor" else !Legacy(entries[i].anchorType)
  {
    var s := Capture(id, tapeId, entries, windowStart, states);
    SaveIsAtomic(disk, s, 3);
    assert SaveOps(s, NoFault)[..3] == SaveOps(s, NoFault);
    var back := DecodeAll(EncodeAll(entries));
    forall i | 0 <= i < |entries|
      ensures back[i] == entries[i]
         <==> if entries[i].Plain? then entries[i].kind != "anchor" else !Legacy(entries[i].anchorType)
    {
      RoundTripExactly(entries[i]);
    }
    assert back == entries <==> forall i :: 0 <= i < |entries| ==> back[i] == entries[i];
  }
}

/**
 Exact books: while no publication fails half way, reference counts equal uses, every entry has
 its object, and bytes are conserved.
 */
module Exactness {
  import opened Basics
  import opened Model
  import opened Sums
  import opened Chunking
  import opened Dedup
  import opened StoreState
  import opened Invariant
  import opened Publication
  import opened Collection
  import opened CollectionSafety
  import opened RestoreCorrectness
  import Runs
  import Retention
  import Recovery
  import Persistence

  // ----- Bytes in the table -----

  lemma WeightAdd(t: Table, d: Digest, e: DedupEntry)
    requires d !in t
    ensures ReferencedBytes(t[d := e]) == ReferencedBytes(t) + Weight(e)
    ensures UniqueBytes(t[d := e]) == UniqueBytes(t) + e.physicalSize
  {
    SumAdd(WeightMap(t), d, Weight(e));
    assert WeightMap(t[d := e]) == WeightMap(t)[d := Weight(e)];
    SumAdd(SizeMap(t), d, e.physicalSize);
    assert SizeMap(t[d := e]) == SizeMap(t)[d := e.physicalSize];
  }

  lemma WeightChange(t: Table, d: Digest, e: DedupEntry)
    requires d in t && e.physicalSize == t[d].physicalSize
    ensures ReferencedBytes(t[d := e]) == ReferencedBytes(t) - Weight(t[d]) + Weight(e)
    ensures UniqueBytes(t[d := e]) == UniqueBytes(t)
  {
    SumUpdate(WeightMap(t), d, Weight(e));
    assert WeightMap(t[d := e]) == WeightMap(t)[d := Weight(e)];
    assert SizeMap(t[d := e]) == SizeMap(t);
  }

  lemma AddedBytes(t: Table, d: Digest)
    requires d in t
    ensures ReferencedBytes(Added(t, d)) == ReferencedBytes(t) + t[d].physicalSize
    ensures UniqueBytes(Added(t, d)) == UniqueBytes(t)
  {
    hide ReferencedBytes, UniqueBytes;
    var e := t[d].(refcount := t[d].refcount + 1);
    WeightChange(t, d, e);
    assert e.physicalSize * (t[d].refcount + 1) == e.physicalSize * t[d].refcount + e.physicalSize;
  }

  lemma ReleasedBytes(t: Table, d: Digest)
    requires Refs(t, d) > 0
    ensures ReferencedBytes(Released(t, d)) == ReferencedBytes(t) - t[d].physicalSize
  {
    hide ReferencedBytes, UniqueBytes;
    var e := t[d].(refcount := t[d].refcount - 1);
    WeightChange(t, d, e);
    assert e.physicalSize * t[d].refcount == e.physicalSize * (t[d].refcount - 1) + e.physicalSize;
  }

  lemma DroppedBytes(t: Table, d: Digest)
    ensures ReferencedBytes(OrphanDropped(t, d)) == ReferencedBytes(t)
  {
    if d in t && t[d].refcount == 0 {
      SumRemove(WeightMap(t), d);
      assert WeightMap(t - {d}) == WeightMap(t) - {d};
    }
  }

  // ----- The loop over the slices -----

  /** Every entry of the table has its object. */
  ghost predicate AllIntact(hash: Bytes -> Digest, st: Storage)
  {
    forall d :: d in st.dedup ==> Intact(hash, st, d)
  }

  /** When every entry has its object, content is written exactly when the table does not know it. */
  lemma AcquireExact(hash: Bytes -> Digest, st: Storage, slice: Slice, i: nat, f: Faults)
    requires AllIntact(hash, st) && Steady(f) && slice.digest == hash(slice.bytes) && slice.bytes != []
    ensures match Acquire(hash, st, slice, i, f)
      case Refused(_, _) => true
      case Shared(t) =>
        && slice.digest in st.dedup && st.dedup[slice.digest].physicalSize == |slice.bytes|
        && t == st.(dedup := Added(st.dedup, slice.digest))
      case Wrote(t) =>
        && slice.digest !in st.dedup && t.dedup == st.dedup[slice.digest := NewEntry(slice.digest, |slice.bytes|)]
        && AllIntact(hash, t)
  {
    hide Intact, Write, BlobKey, PrefixId;
    var d := slice.digest;
    VerdictMeans(hash, st, d, f.verify(i));
    WriteEffect(hash, st, slice, i, f);
    match Acquire(hash, st, slice, i, f)
    case Wrote(t) =>
      forall e: Digest | e in t.dedup
        ensures Intact(hash, t, e)
      {
        if e != d {
          SameIntact(hash, st, t, e);
        }
      }
    case _ =>
  }

  function SliceBytes(slices: seq<Slice>, n: nat): nat
    requires n <= |slices|
  {
    if n == 0 then 0 else SliceBytes(slices, n - 1) + |slices[n - 1].bytes|
  }

  /** What n slices have added to a table, and how many bytes were written for them. */
  ghost predicate Tallied(hash: Bytes -> Digest, s0: Storage, s: Storage, slices: seq<Slice>, n: nat, written: nat)
    requires n <= |slices|
  {
    && AllIntact(hash, s)
    && CountsUp(s0.dedup, s.dedup, SliceDigests(slices, n))
    && KeepsSizes(s0.dedup, s.dedup) && Sized(s.dedup, slices, n)
    && UniqueBytes(s.dedup) == UniqueBytes(s0.dedup) + written
    && ReferencedBytes(s.dedup) == ReferencedBytes(s0.dedup) + SliceBytes(slices, n)
  }

  ghost predicate CountsUp(t0: Table, t: Table, held: seq<Digest>)
  {
    forall d: Digest :: Refs(t, d) == Refs(t0, d) + multiset(held)[d]
  }

  ghost predicate KeepsSizes(t0: Table, t: Table)
  {
    forall d :: d in t0 ==> SizedAs(t, d, t0[d].physicalSize)
  }

  ghost predicate Sized(t: Table, slices: seq<Slice>, n: nat)
    requires n <= |slices|
  {
    forall i :: 0 <= i < n ==> SizedAs(t, slices[i].digest, |slices[i].bytes|)
  }

  ghost predicate SizedAs(t: Table, d: Digest, size: nat)
  {
    d in t && t[d].physicalSize == size
  }

  /** One more reference to one digest. */
  ghost predicate OneMore(t: Table, u: Table, d: Digest)
  {
    forall e: Digest :: Refs(u, e) == Refs(t, e) + (if e == d then 1 else 0)
  }

  lemma CountsOneMore(t0: Table, t: Table, u: Table, held: seq<Digest>, d: Digest)
    requires CountsUp(t0, t, held) && OneMore(t, u, d)
    ensures CountsUp(t0, u, held + [d])
  {
    hide Refs;
    assert multiset(held + [d]) == multiset(held) + multiset{d};
    forall e: Digest ensures Refs(u, e) == Refs(t0, e) + multiset(held + [d])[e] {
      assert Refs(u, e) == Refs(t, e) + (if e == d then 1 else 0);
    }
  }

  lemma SizesThrough(t0: Table, t: Table, u: Table, slices: seq<Slice>, n: nat)
    requires n < |slices| && KeepsSizes(t0, t) && Sized(t, slices, n) && KeepsSizes(t, u)
    requires SizedAs(u, slices[n].digest, |slices[n].bytes|)
    ensures KeepsSizes(t0, u) && Sized(u, slices, n + 1)
  {
  }

  /** However the reference was obtained, the tally goes up by one slice. */
  lemma TalliedMore(hash: Bytes -> Digest, s0: Storage, s: Storage, t: Storage, slices: seq<Slice>, n: nat,
                    written: nat, more: nat)
    requires n < |slices| && Tallied(hash, s0, s, slices, n, written) && AllIntact(hash, t)
    requires OneMore(s.dedup, t.dedup, slices[n].digest) && KeepsSizes(s.dedup, t.dedup)
    requires SizedAs(t.dedup, slices[n].digest, |slices[n].bytes|)
    requires UniqueBytes(t.dedup) == UniqueBytes(s.dedup) + more
    requires ReferencedBytes(t.dedup) == ReferencedBytes(s.dedup) + |slices[n].bytes|
    ensures Tallied(hash, s0, t, slices, n + 1, written + more)
  {
    hide UniqueBytes, ReferencedBytes, AllIntact, CountsUp, KeepsSizes, Sized, OneMore;
    assert SliceDigests(slices, n + 1) == SliceDigests(slices, n) + [slices[n].digest];
    CountsOneMore(s0.dedup, s.dedup, t.dedup, SliceDigests(slices, n), slices[n].digest);
    SizesThrough(s0.dedup, s.dedup, t.dedup, slices, n);
  }

  lemma TalliedShared(hash: Bytes -> Digest, s0: Storage, s: Storage, slices: seq<Slice>, n: nat, written: nat)
    requires n < |slices| && Tallied(hash, s0, s, slices, n, written)
    requires SizedAs(s.dedup, slices[n].digest, |slices[n].bytes|)
    ensures Tallied(hash, s0, s.(dedup := Added(s.dedup, slices[n].digest)), slices, n + 1, written)
  {
    hide UniqueBytes, ReferencedBytes, BlobKey, Tallied;
    var d := slices[n].digest;
    var t := s.(dedup := Added(s.dedup, d));
    AddedBytes(s.dedup, d);
    TalliedIntact(hash, s0, s, slices, n, written);
    forall e | e in t.dedup ensures Intact(hash, t, e) { assert Intact(hash, s, e); }
    TalliedMore(hash, s0, s, t, slices, n, written, 0);
  }

  lemma TalliedWrote(hash: Bytes -> Digest, s0: Storage, s: Storage, t: Storage, slices: seq<Slice>, n: nat,
                     written: nat)
    requires n < |slices| && Tallied(hash, s0, s, slices, n, written) && AllIntact(hash, t)
    requires var slice := slices[n];
      slice.digest !in s.dedup && t.dedup == s.dedup[slice.digest := NewEntry(slice.digest, |slice.bytes|)]
    ensures Tallied(hash, s0, t, slices, n + 1, written + |slices[n].bytes|)
  {
    hide UniqueBytes, ReferencedBytes, PrefixId, AllIntact, Tallied;
    var d := slices[n].digest;
    WeightAdd(s.dedup, d, NewEntry(d, |slices[n].bytes|));
    TalliedMore(hash, s0, s, t, slices, n, written, |slices[n].bytes|);
  }

  lemma {:induction false} StepsTallied(s: State, slices: seq<Slice>, n: nat, replica: Id, f: Faults)
    requires AllIntact(s.cfg.hash, s.storage) && Steady(f) && Sliced(s.cfg.hash, slices) && n <= |slices|
    ensures var p := Steps(s, slices, n, replica, f);
      p.error.None? ==> Tallied(s.cfg.hash, s.storage, p.s.storage, slices, n, p.draft.written)
  {
    hide StoreState.Step, UniqueBytes, ReferencedBytes, BlobKey;
    if n > 0 {
      StepsTallied(s, slices, n - 1, replica, f);
      Runs.StepsFrame(s, slices, n - 1, replica, f);
      StepTallied(s.cfg.hash, s.storage, Steps(s, slices, n - 1, replica, f), slices, n - 1, replica, f);
    } else {
      assert SliceDigests(slices, 0) == [];
    }
  }

  lemma StepTallied(hash: Bytes -> Digest, s0: Storage, p: Progress, slices: seq<Slice>, n: nat, replica: Id, f: Faults)
    requires Steady(f) && Sliced(hash, slices) && n < |slices| && p.s.cfg.hash == hash
    requires p.error.None? ==> Tallied(hash, s0, p.s.storage, slices, n, p.draft.written)
    ensures var q := StoreState.Step(p, slices[n], n, replica, f);
      q.error.None? ==> Tallied(hash, s0, q.s.storage, slices, n + 1, q.draft.written)
  {
    hide Tallied, Acquire, Note, PrefixId;
    if p.error.None? {
      var st, slice := p.s.storage, slices[n];
      var draft, d := p.draft, slice.digest;
      TalliedIntact(hash, s0, st, slices, n, draft.written);
      AcquireExact(hash, st, slice, n, f);
      match Acquire(hash, st, slice, n, f)
      case Refused(_, _) =>
      case Shared(t) =>
        TalliedShared(hash, s0, st, slices, n, draft.written);
        NoteStorage(p.s, t, draft.(hits := draft.hits + 1), slice,
                    if d in t.dedup then t.dedup[d].blobId else PrefixId(d), replica);
      case Wrote(t) =>
        TalliedWrote(hash, s0, st, t, slices, n, draft.written);
        NoteStorage(p.s, t,
                    draft.(misses := draft.misses + 1, written := draft.written + |slice.bytes|,
                           wrote := draft.wrote + [d]),
                    slice, PrefixId(d), replica);
    }
  }

  lemma NoteStorage(s: State, st: Storage, draft: Draft, slice: Slice, blobId: Id, replica: Id)
    ensures var q := Note(s.(storage := st), draft, slice, blobId, replica);
      q.s.storage == st && q.draft.written == draft.written
  {
    hide NoteBlob, NewChunk, PrefixId, Refs;
  }

  lemma TalliedIntact(hash: Bytes -> Digest, s0: Storage, s: Storage, slices: seq<Slice>, n: nat, written: nat)
    requires n <= |slices| && Tallied(hash, s0, s, slices, n, written)
    ensures AllIntact(hash, s)
  {
  }

  lemma {:induction false} SliceBytesEnd(hash: Bytes -> Digest, data: Bytes, size: nat, slices: seq<Slice>, n: nat)
    requires Tiles(hash, data, size, 0, slices) && n <= |slices|
    ensures SliceBytes(slices, n) == EndOf(slices, n)
    ensures n == |slices| ==> EndOf(slices, n) == |data|
    ensures n < |slices| ==> slices[n].offset == EndOf(slices, n)
  {
    if n > 0 {
      SliceBytesEnd(hash, data, size, slices, n - 1);
      assert TileAt(hash, data, size, slices, n - 1);
    }
  }

  // ----- The ledger -----

  function ChunkBytes(chunks: seq<Chunk>, n: nat): nat
    requires n <= |chunks|
  {
    if n == 0 then 0 else ChunkBytes(chunks, n - 1) + chunks[n - 1].physicalSize
  }

  ghost predicate ChunksSized(t: Table, chunks: seq<Chunk>)
  {
    forall i :: 0 <= i < |chunks| ==> SizedAs(t, chunks[i].digest, chunks[i].physicalSize)
  }

  ghost function LiveSizes(cps: map<Id, Record>): map<Id, nat>
  {
    map id | id in cps && Live(cps[id]) :: cps[id].manifest.logicalSize
  }

  /** The bytes of all checkpoints that are not deleted, as their manifests state them. */
  ghost function LiveBytes(cps: map<Id, Record>): nat { Sum(LiveSizes(cps)) }

  ghost predicate Counted(cps: map<Id, Record>, t: Table)
  {
    forall d: Digest :: Refs(t, d) == Uses(cps, d)
  }

  ghost predicate RecordsSized(cps: map<Id, Record>, t: Table)
  {
    forall id :: id in cps ==>
      && cps[id].manifest.logicalSize == ChunkBytes(cps[id].chunks, |cps[id].chunks|)
      && (Live(cps[id]) ==> ChunksSized(t, cps[id].chunks))
  }

  /** References equal uses, entries have their objects and sizes, and bytes balance. */
  ghost predicate Ledger(hash: Bytes -> Digest, cps: map<Id, Record>, st: Storage)
  {
    && AllIntact(hash, st) && Counted(cps, st.dedup) && RecordsSized(cps, st.dedup)
    && ReferencedBytes(st.dedup) == LiveBytes(cps)
  }

  ghost predicate LedgerOf(s: State) { Ledger(s.cfg.hash, s.checkpoints, s.storage) }

  // ----- Publishing -----

  lemma {:induction false} DraftBytes(s: State, draft: Draft, slices: seq<Slice>, replica: Id, n: nat)
    requires Drafted(s, draft, slices, |slices|, replica) && n <= |slices|
    ensures ChunkBytes(draft.chunks, n) == SliceBytes(slices, n)
  {
    hide ChunkOk;
    if n > 0 {
      DraftBytes(s, draft, slices, replica, n - 1);
    }
  }

  lemma DraftSized(s: State, draft: Draft, slices: seq<Slice>, replica: Id, t: Table)
    requires Drafted(s, draft, slices, |slices|, replica) && Sized(t, slices, |slices|)
    ensures ChunksSized(t, draft.chunks)
  {
    hide ChunkOk;
  }

  lemma LiveBytesAdd(cps: map<Id, Record>, id: Id, r: Record)
    requires id !in cps && Live(r)
    ensures LiveBytes(cps[id := r]) == LiveBytes(cps) + r.manifest.logicalSize
  {
    SumAdd(LiveSizes(cps), id, r.manifest.logicalSize);
    assert LiveSizes(cps[id := r]) == LiveSizes(cps)[id := r.manifest.logicalSize];
  }

  lemma CountedAdd(cps: map<Id, Record>, t0: Table, t: Table, id: Id, r: Record)
    requires Counted(cps, t0) && CountsUp(t0, t, DigestsOf(r.chunks)) && id !in cps && Live(r)
    ensures Counted(cps[id := r], t)
  {
    hide Uses, Refs;
    forall d: Digest ensures Refs(t, d) == Uses(cps[id := r], d) {
      UsesAdd(cps, id, r, d);
      assert Refs(t0, d) == Uses(cps, d);
    }
  }

  lemma RecordsSizedAdd(cps: map<Id, Record>, t0: Table, t: Table, id: Id, r: Record)
    requires RecordsSized(cps, t0) && KeepsSizes(t0, t) && id !in cps && ChunksSized(t, r.chunks)
    requires r.manifest.logicalSize == ChunkBytes(r.chunks, |r.chunks|)
    ensures RecordsSized(cps[id := r], t)
  {
    hide ChunkBytes;
    forall k | k in cps && Live(cps[k]) ensures ChunksSized(t, cps[k].chunks) {
      assert ChunksSized(t0, cps[k].chunks);
    }
  }

  lemma CommitLedger(hash: Bytes -> Digest, cps: map<Id, Record>, s0: Storage, s: Storage, slices: seq<Slice>,
                     written: nat, id: Id, r: Record)
    requires Ledger(hash, cps, s0) && Tallied(hash, s0, s, slices, |slices|, written) && id !in cps && Live(r)
    requires DigestsOf(r.chunks) == SliceDigests(slices, |slices|) && ChunksSized(s.dedup, r.chunks)
    requires r.manifest.logicalSize == ChunkBytes(r.chunks, |r.chunks|) == SliceBytes(slices, |slices|)
    ensures Ledger(hash, cps[id := r], s)
  {
    hide AllIntact, Counted, CountsUp, RecordsSized, KeepsSizes, Sized, ReferencedBytes, LiveBytes, UniqueBytes,
         ChunksSized, ChunkBytes, SliceBytes;
    CountedAdd(cps, s0.dedup, s.dedup, id, r);
    RecordsSizedAdd(cps, s0.dedup, s.dedup, id, r);
    LiveBytesAdd(cps, id, r);
  }

  /** A receipt means the attempt went through every stage. */
  lemma ReceiptMeans(s: State, d: Descriptor, data: Bytes, f: Faults)
    requires StoreState.Publish(s, d, data, f).1.Ok?
    ensures s.cfg.chunkSize > 0 && d.id !in s.checkpoints
    ensures var (t, r) := StoreState.Publish(s, d, data, f);
      var p := PublishSteps(s, data, f);
      && p.error.None? && r.value.written == p.draft.written && r.value.hits == p.draft.hits
      && r.value.misses == p.draft.misses
      && Confirm(p.s, p.draft, data, f).Ok?
      && t == CommitRecord(p.s, d, p.draft, |data|, Confirm(p.s, p.draft, data, f).value, s.nextId)
  {
    hide PublishSteps, Confirm, CommitRecord, NewManifest, Rollback;
  }

  lemma CommittedRecord(s: State, d: Descriptor, draft: Draft, size: nat, digest: Digest, replica: Id)
    requires d.id !in s.checkpoints
    ensures var t := CommitRecord(s, d, draft, size, digest, replica);
      && t.storage == s.storage && d.id in t.checkpoints && t.checkpoints == s.checkpoints[d.id := t.checkpoints[d.id]]
      && t.checkpoints[d.id].chunks == draft.chunks && t.checkpoints[d.id].manifest.logicalSize == size
      && Live(t.checkpoints[d.id]) && t.cfg == s.cfg
  {
    hide SortEntries, Semantics;
  }

  lemma StepsDraft(s: State, p: Progress, slices: seq<Slice>, replica: Id)
    requires Kept(s, p, slices, |slices|, replica) && p.error.None?
    ensures Drafted(p.s, p.draft, slices, |slices|, replica)
    ensures p.s.checkpoints == s.checkpoints && p.s.cfg == s.cfg
  {
    hide Drafted, Held;
  }

  lemma DraftCounts(s: State, draft: Draft, slices: seq<Slice>, n: nat, replica: Id)
    requires Drafted(s, draft, slices, n, replica)
    ensures draft.hits + draft.misses == n && |draft.chunks| == n
  {
  }

  /**
   A publication that returns keeps the ledger, reports as written exactly the growth of the
   unique bytes, and counts every slice of the fixed split once, as a hit or as a miss.
   */
  lemma PublishLedger(s: State, d: Descriptor, data: Bytes, f: Faults)
    requires Safe(s) && LedgerOf(s) && Steady(f) && StoreState.Publish(s, d, data, f).1.Ok?
    ensures s.cfg.chunkSize > 0
    ensures var (t, r) := StoreState.Publish(s, d, data, f);
      && LedgerOf(t)
      && UniqueBytes(t.storage.dedup) == UniqueBytes(s.storage.dedup) + r.value.written
      && r.value.hits + r.value.misses == |Slices(s.cfg.hash, data, s.cfg.chunkSize)|
  {
    hide Safe, Ledger, Steady, StoreState.Publish, PublishSteps, Confirm, CommitRecord, Kept, Drafted, Tallied,
         ChunkBytes, SliceBytes, UniqueBytes, Slices, DigestsOf, SliceDigests, ChunksSized, Sized;
    ReceiptMeans(s, d, data, f);
    var t, p := StoreState.Publish(s, d, data, f).0, PublishSteps(s, data, f);
    var slices, s1 := Slices(s.cfg.hash, data, s.cfg.chunkSize), s.(nextId := s.nextId + 1);
    AfterSteps(s, d, data, f);
    StepsDraft(s1, p, slices, s.nextId);
    CommittedRecord(p.s, d, p.draft, |data|, Confirm(p.s, p.draft, data, f).value, s.nextId);
    PublishTallied(s, data, f);
    DraftCounts(p.s, p.draft, slices, |slices|, s.nextId);
    DraftBytes(p.s, p.draft, slices, s.nextId, |slices|);
    DraftDigests(p.s, p.draft, slices, s.nextId);
    TallySized(s.cfg.hash, s.storage, p.s.storage, slices, p.draft.written);
    DraftSized(p.s, p.draft, slices, s.nextId, p.s.storage.dedup);
    AllSliceBytes(s.cfg.hash, data, s.cfg.chunkSize);
    CommitLedger(s.cfg.hash, s.checkpoints, s.storage, p.s.storage, slices, p.draft.written, d.id, t.checkpoints[d.id]);
  }

  lemma AllSliceBytes(hash: Bytes -> Digest, data: Bytes, size: nat)
    requires size > 0
    ensures SliceBytes(Slices(hash, data, size), |Slices(hash, data, size)|) == |data|
  {
    hide SlicesFrom, SliceBytes, Tiles;
    SlicesTile(hash, data, size, 0);
    SliceBytesEnd(hash, data, size, Slices(hash, data, size), |Slices(hash, data, size)|);
  }

  lemma TallySized(hash: Bytes -> Digest, s0: Storage, s: Storage, slices: seq<Slice>, written: nat)
    requires Tallied(hash, s0, s, slices, |slices|, written)
    ensures Sized(s.dedup, slices, |slices|) && UniqueBytes(s.dedup) == UniqueBytes(s0.dedup) + written
  {
  }

  lemma PublishTallied(s: State, data: Bytes, f: Faults)
    requires LedgerOf(s) && Steady(f) && s.cfg.chunkSize > 0
    ensures var p, slices := PublishSteps(s, data, f), Slices(s.cfg.hash, data, s.cfg.chunkSize);
      p.error.None? ==> Tallied(s.cfg.hash, s.storage, p.s.storage, slices, |slices|, p.draft.written)
  {
    hide Steps, Tallied, AllIntact, SlicesFrom;
    var slices := Slices(s.cfg.hash, data, s.cfg.chunkSize);
    SlicesAreSliced(s.cfg.hash, data, s.cfg.chunkSize);
    StepsTallied(s.(nextId := s.nextId + 1), slices, |slices|, s.nextId, f);
  }

  // ----- Sweeping -----

  lemma {:induction false} ReleaseAllBytes(t: Table, chunks: seq<Chunk>)
    requires ChunksSized(t, chunks) && forall e: Digest :: Refs(t, e) >= Count(chunks, e)
    ensures ReferencedBytes(t) == ReferencedBytes(ReleaseAll(t, chunks)) + ChunkBytes(chunks, |chunks|)
  {
    hide ReferencedBytes, Refs, Released, Count, DigestsOf;
    if chunks != [] {
      var n := |chunks| - 1;
      var d, fewer := chunks[n].digest, chunks[..n];
      forall e: Digest ensures Count(chunks, e) == Count(fewer, e) + (if e == d then 1 else 0) { CountLast(chunks, e); }
      forall e: Digest ensures Refs(t, e) >= Count(fewer, e) {
        assert Refs(t, e) >= Count(chunks, e);
      }
      forall i | 0 <= i < n ensures SizedAs(t, fewer[i].digest, fewer[i].physicalSize) {
        assert SizedAs(t, chunks[i].digest, chunks[i].physicalSize);
      }
      ReleaseAllBytes(t, fewer);
      PrefixBytes(chunks, n);
      ReleaseAllEffect(t, fewer, d);
      assert SizedAs(t, d, chunks[n].physicalSize);
      assert Refs(t, d) >= Count(chunks, d);
      ReleasedBytes(ReleaseAll(t, fewer), d);
    }
  }

  lemma CountLast(chunks: seq<Chunk>, e: Digest)
    requires chunks != []
    ensures Count(chunks, e) == Count(chunks[..|chunks| - 1], e) + (if e == chunks[|chunks| - 1].digest then 1 else 0)
  {
    var n := |chunks| - 1;
    assert DigestsOf(chunks) == DigestsOf(chunks[..n]) + [chunks[n].digest];
  }

  lemma {:induction false} PrefixBytes(chunks: seq<Chunk>, n: nat)
    requires n <= |chunks|
    ensures ChunkBytes(chunks[..n], n) == ChunkBytes(chunks, n)
    decreases n
  {
    if n > 0 {
      PrefixBytes(chunks, n - 1);
      PrefixBytes(chunks[..n], n - 1);
      assert chunks[..n][..n - 1] == chunks[..n - 1];
    }
  }

  lemma LiveBytesDelete(cps: map<Id, Record>, id: Id, r: Record)
    requires id in cps && Live(cps[id]) && !Live(r)
    ensures LiveBytes(cps) == LiveBytes(cps[id := r]) + cps[id].manifest.logicalSize
  {
    SumRemove(LiveSizes(cps), id);
    assert LiveSizes(cps[id := r]) == LiveSizes(cps) - {id};
  }

  lemma SweepLedger(hash: Bytes -> Digest, cps: map<Id, Record>, st: Storage, id: Id, r: Record)
    requires Ledger(hash, cps, st) && id in cps && Live(cps[id]) && !Live(r)
    requires r.manifest == cps[id].manifest && r.chunks == cps[id].chunks
    ensures Ledger(hash, cps[id := r], st.(dedup := ReleaseAll(st.dedup, cps[id].chunks)))
  {
    hide Uses, Count, BlobKey, ReleaseAll, ReferencedBytes, LiveBytes, ChunkBytes, ChunksSized;
    var chunks := cps[id].chunks;
    var u := st.(dedup := ReleaseAll(st.dedup, chunks));
    forall e: Digest
      ensures Refs(u.dedup, e) == Uses(cps[id := r], e) && Refs(st.dedup, e) >= Count(chunks, e)
      ensures e in u.dedup <==> e in st.dedup
      ensures e in u.dedup ==> u.dedup[e].physicalSize == st.dedup[e].physicalSize
    {
      UsesDelete(cps, id, r, e);
      UsesMember(cps, id, e);
      assert Refs(st.dedup, e) == Uses(cps, e);
      ReleaseAllEffect(st.dedup, chunks, e);
    }
    ReleaseAllBytes(st.dedup, chunks);
    LiveBytesDelete(cps, id, r);
    assert KeepsSizes(st.dedup, u.dedup);
    forall k | k in cps && Live(cps[k]) ensures ChunksSized(u.dedup, cps[k].chunks) {
      ChunksStaySized(st.dedup, u.dedup, cps[k].chunks);
    }
    forall e | e in u.dedup ensures Intact(hash, u, e) { assert Intact(hash, st, e); }
  }

  lemma ChunksStaySized(t: Table, u: Table, chunks: seq<Chunk>)
    requires ChunksSized(t, chunks) && KeepsSizes(t, u)
    ensures ChunksSized(u, chunks)
  {
  }

  lemma {:induction false} SweepAllLedger(s: State, ids: seq<Id>)
    requires LedgerOf(s)
    ensures LedgerOf(Sweep(s, ids))
  {
    hide Ledger, ReleaseAll;
    if ids != [] {
      SweepAllLedger(s, ids[..|ids| - 1]);
      var t, id := Sweep(s, ids[..|ids| - 1]), ids[|ids| - 1];
      if id in t.checkpoints && Live(t.checkpoints[id]) {
        SweepLedger(t.cfg.hash, t.checkpoints, t.storage, id, t.checkpoints[id].(lifecycle := LIFE_DELETED));
      }
    }
  }

  // ----- Reclaiming -----

  lemma ReclaimLedger(hash: Bytes -> Digest, cps: map<Id, Record>, s: Storage, t: Storage, d: Digest, removed: bool)
    requires Ledger(hash, cps, s) && Refs(s.dedup, d) == 0
    requires forall e: Digest :: e != d ==> SameObject(s, t, e)
    requires t.dedup == if removed then OrphanDropped(s.dedup, d) else s.dedup
    requires !removed ==> t.backend == s.backend
    ensures Ledger(hash, cps, t)
  {
    hide Uses, BlobKey, Intact, ReferencedBytes, LiveBytes, ChunkBytes, ChunksSized;
    DroppedBytes(s.dedup, d);
    forall e: Digest
      ensures Refs(t.dedup, e) == Refs(s.dedup, e)
      ensures e in t.dedup ==> e in s.dedup && Intact(hash, t, e)
    {
      if e != d || !removed {
        assert SameObject(s, t, e);
        SameIntact(hash, s, t, e);
      }
    }
    forall k | k in cps && Live(cps[k]) ensures ChunksSized(t.dedup, cps[k].chunks) {
      UsedStaySized(cps, k, s.dedup, t.dedup, d);
    }
  }

  lemma UsedStaySized(cps: map<Id, Record>, k: Id, t: Table, u: Table, d: Digest)
    requires k in cps && Live(cps[k]) && Counted(cps, t) && ChunksSized(t, cps[k].chunks) && Refs(t, d) == 0
    requires forall e :: e in t && e != d ==> e in u && u[e] == t[e]
    ensures ChunksSized(u, cps[k].chunks)
  {
    hide Uses, Count;
    var chunks := cps[k].chunks;
    forall i | 0 <= i < |chunks| ensures SizedAs(u, chunks[i].digest, chunks[i].physicalSize) {
      CountMember(chunks, i);
      UsesMember(cps, k, chunks[i].digest);
      assert Refs(t, chunks[i].digest) > 0;
      assert SizedAs(t, chunks[i].digest, chunks[i].physicalSize);
    }
  }

  lemma ReclaimOneLedger(s: State, reachable: set<Id>, bid: Id, b: nat, f: Faults)
    requires LedgerOf(s)
    ensures LedgerOf(ReclaimOne(s, reachable, bid, b, f))
  {
    hide Ledger, RemoveFrom, BlobKey;
    if !(bid in reachable || bid !in s.blobs || Refs(s.storage.dedup, s.blobs[bid].digest) != 0) {
      var t, d := ReclaimOne(s, reachable, bid, b, f), s.blobs[bid].digest;
      var (store, removed) := RemoveFrom(s, BlobKey(d), s.blobs[bid].replicas, b, f);
      RemoveFromEffect(s, d, s.blobs[bid].replicas, b, f, t.storage.dedup);
      ReclaimLedger(s.cfg.hash, s.checkpoints, s.storage, t.storage, d, removed);
    }
  }

  lemma {:induction false} ReclaimAllLedger(s: State, reachable: set<Id>, list: seq<Id>, f: Faults)
    requires LedgerOf(s)
    ensures LedgerOf(Reclaim(s, reachable, list, f))
  {
    hide Ledger, ReclaimOne;
    if list != [] {
      ReclaimAllLedger(s, reachable, list[..|list| - 1], f);
      ReclaimOneLedger(Reclaim(s, reachable, list[..|list| - 1], f), reachable, list[|list| - 1], |list| - 1, f);
    }
  }

  lemma RunLedger(s: State, eligible: seq<Id>, retained: set<Id>, f: Faults)
    requires LedgerOf(s)
    ensures LedgerOf(Run(s, eligible, retained, f))
  {
    hide Ledger, Sweep, Reclaim, Reachable;
    SweepAllLedger(s, eligible);
    ReclaimAllLedger(Sweep(s, eligible), Reachable(s.checkpoints, retained), s.gc.reclaimable, f);
  }

  // ----- Over whole runs -----

  /** Records that use the same chunks in the same way. */
  lemma SameUseLedger(s: State, t: State)
    requires LedgerOf(s) && t.cfg == s.cfg && t.storage.dedup == s.storage.dedup
    requires t.storage.backend.objects == s.storage.backend.objects
    requires t.checkpoints.Keys == s.checkpoints.Keys
    requires forall id :: id in s.checkpoints ==> SameUsed(s.checkpoints[id], t.checkpoints[id])
    ensures LedgerOf(t)
  {
    hide Uses, BlobKey, ReferencedBytes, ChunkBytes, ChunksSized, Live;
    forall d: Digest ensures Uses(t.checkpoints, d) == Uses(s.checkpoints, d) {
      SameUsedUses(s.checkpoints, t.checkpoints, d);
    }
    forall d | d in t.storage.dedup ensures Intact(t.cfg.hash, t.storage, d) {
      assert Intact(s.cfg.hash, s.storage, d);
    }
    assert LiveSizes(t.checkpoints) == LiveSizes(s.checkpoints);
  }

  ghost predicate SameUsed(r: Record, q: Record)
  {
    q.chunks == r.chunks && q.manifest == r.manifest && Live(q) == Live(r)
  }

  lemma SameUsedUses(a: map<Id, Record>, b: map<Id, Record>, d: Digest)
    requires a.Keys == b.Keys && forall id :: id in a ==> SameUsed(a[id], b[id])
    ensures Uses(b, d) == Uses(a, d)
  {
    hide Count;
    forall id | id in a ensures Live(a[id]) == Live(b[id]) && a[id].chunks == b[id].chunks {
      assert SameUsed(a[id], b[id]);
    }
    assert UseMap(b, d) == UseMap(a, d);
  }

  /** The environment is honest and no publication fails once it has been admitted. */
  ghost predicate Tame(s: State, op: Runs.Op)
  {
    && Runs.Honest(op)
    && (op.Publish? ==> Admission(s, op.d).Some? || StoreState.Publish(s, op.d, op.data, op.faults).1.Ok?)
  }

  lemma HealthLedger(s: State, t: State)
    requires LedgerOf(s) && OnlyHealth(s, t)
    ensures LedgerOf(t)
  {
    hide Ledger;
    HealthKeys(s, t);
    SameUseLedger(s, t);
  }

  lemma RetireLedger(s: State, id: Id)
    requires LedgerOf(s)
    ensures LedgerOf(Retention.Retire(s, id).0)
  {
    hide Ledger;
    if id in s.checkpoints && s.checkpoints[id].lifecycle == LIFE_COMMITTED {
      RecordLedger(s, id, s.checkpoints[id].(lifecycle := LIFE_RETIRED));
    }
  }

  lemma RecordLedger(s: State, id: Id, r: Record)
    requires LedgerOf(s) && id in s.checkpoints && SameUsed(s.checkpoints[id], r)
    ensures LedgerOf(s.(checkpoints := s.checkpoints[id := r]))
  {
    hide Ledger;
    SameUseLedger(s, s.(checkpoints := s.checkpoints[id := r]));
  }

  lemma ResetLedger(s: State)
    requires LedgerOf(s)
    ensures LedgerOf(Runs.AuthorityReset(s))
  {
    hide Ledger;
    SameUseLedger(s, Runs.AuthorityReset(s));
  }

  lemma RestartLedger(s: State)
    requires LedgerOf(s)
    ensures LedgerOf(Persistence.Recovered(Runs.Reopened(s), s))
  {
    hide Ledger, Persistence.ImageOf, Persistence.NextAll, Persistence.RaiseBy, Persistence.StartFamilies;
    SameUseLedger(s, Persistence.Recovered(Runs.Reopened(s), s));
  }

  lemma RefusedPublish(s: State, d: Descriptor, data: Bytes, f: Faults)
    requires Admission(s, d).Some?
    ensures StoreState.Publish(s, d, data, f).0 == s
  {
  }

  lemma StepLedger(s: State, op: Runs.Op)
    requires Safe(s) && LedgerOf(s) && Tame(s, op)
    ensures LedgerOf(Runs.Perform(s, op))
  {
    hide Safe, Ledger, Run, Reachable, Collection.MarkedSizes, OnlyHealth, Recovery.Restore,
         Recovery.VerifyCheckpoint, StoreState.Publish, Retention.Protected, Retention.Retire, Persistence.Recovered,
         Runs.AuthorityReset, Steady;
    match op
    case Publish(d, data, f) =>
      if Admission(s, d).Some? {
        RefusedPublish(s, d, data, f);
      } else {
        PublishLedger(s, d, data, f);
      }
    case Retire(id) =>
      RetireLedger(s, id);
    case GcRun(eligible, v, f) =>
      RunLedger(s, eligible, Retention.Protected(s, v), f);
    case Verify(id, f) =>
      VerifyHealth(s, id, f);
      HealthLedger(s, Recovery.VerifyCheckpoint(s, id, f).0);
    case Restore(id, f) =>
      RestoreHealth(s, id, f);
      HealthLedger(s, Recovery.Restore(s, id, f).0);
    case ResetAuthority =>
      ResetLedger(s);
    case Restart =>
      RestartLedger(s);
    case _ =>
  }

  ghost predicate TameRun(w: Runs.World, ops: seq<Runs.Op>)
  {
    forall i :: 0 <= i < |ops| ==> Tame(Runs.After(w, ops[..i]).s, ops[i])
  }

  lemma {:induction false} TameLedger(w: Runs.World, ops: seq<Runs.Op>)
    requires Safe(w.s) && LedgerOf(w.s) && TameRun(w, ops)
    ensures Safe(Runs.After(w, ops).s) && LedgerOf(Runs.After(w, ops).s)
  {
    hide Safe, Ledger, Runs.Perform, Runs.Remember, Tame;
    if ops != [] {
      var n := |ops| - 1;
      forall i | 0 <= i < n ensures Tame(Runs.After(w, ops[..n][..i]).s, ops[..n][i]) {
        assert ops[..n][..i] == ops[..i];
        assert Tame(Runs.After(w, ops[..i]).s, ops[i]);
      }
      TameLedger(w, ops[..n]);
      var s := Runs.After(w, ops[..n]).s;
      assert Tame(s, ops[n]);
      StepLedger(s, ops[n]);
      TameHonest(s, ops[n]);
      Runs.StepSafe(s, ops[n]);
    }
  }

  lemma TameHonest(s: State, op: Runs.Op)
    requires Tame(s, op)
    ensures Runs.Honest(op)
  {
  }

  lemma StartLedger(cfg: Config, boot: Id)
    ensures LedgerOf(Runs.Init(cfg, boot))
  {
    var s := Runs.Init(cfg, boot);
    forall d: Digest ensures Uses(s.checkpoints, d) == 0 { assert UseMap(s.checkpoints, d) == map[]; }
    assert LiveSizes(s.checkpoints) == map[] && WeightMap(s.storage.dedup) == map[];
  }

  /**
   In every run in which no admitted publication fails: each digest has exactly as many references
   as uses by checkpoints that are not deleted, and the bytes referenced are exactly the bytes
   those checkpoints' manifests state.
   */
  lemma BooksBalance(cfg: Config, boot: Id, ops: seq<Runs.Op>, d: Digest)
    requires TameRun(Runs.Start(cfg, boot), ops)
    ensures var s := Runs.After(Runs.Start(cfg, boot), ops).s;
      && Refs(s.storage.dedup, d) == Uses(s.checkpoints, d)
      && ReferencedBytes(s.storage.dedup) == LiveBytes(s.checkpoints)
  {
    hide Runs.After, TameRun, AllIntact, RecordsSized, ReferencedBytes, LiveBytes, Safe;
    Runs.InitSafe(cfg, boot);
    StartLedger(cfg, boot);
    TameLedger(Runs.Start(cfg, boot), ops);
  }
}

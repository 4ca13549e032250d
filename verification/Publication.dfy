/** What publication does to the whole state, committed or rolled back, under any pattern of faults. */
module Publication {
  import opened Basics
  import opened Model
  import opened Chunking
  import opened Dedup
  import opened StoreState
  import opened Invariant
  import Backend

  // ----- Records lead to their content -----

  /** The chunk names its content and leads, through its one placement, to the replica. */
  ghost predicate ChunkOk(placements: map<Id, Placement>, c: Chunk, replica: Id)
  {
    && c.id == PrefixId(c.digest) && c.blobId == PrefixId(c.digest)
    && |c.placements| == 1 && c.placements[0] in placements
    && placements[c.placements[0]].replicaId == replica
  }

  /** The manifest lists the record's chunks in order, all on one replica of the primary backend. */
  ghost predicate RecordOk(primary: Id, placements: map<Id, Placement>, replicas: map<Id, Replica>, id: Id, r: Record)
  {
    && r.descriptor.id == id
    && |r.manifest.chunks| == |r.chunks|
    && (forall i :: 0 <= i < |r.chunks| ==>
          r.manifest.chunks[i] == ManifestEntry(r.chunks[i].id, r.chunks[i].logicalOffset))
    && |r.replicaSet.replicas| == 1
    && r.replicaSet.replicas[0] in replicas && replicas[r.replicaSet.replicas[0]].backendId == primary
    && (forall i :: 0 <= i < |r.chunks| ==> ChunkOk(placements, r.chunks[i], r.replicaSet.replicas[0]))
  }

  ghost predicate RecordsOk(s: State)
  {
    forall id :: id in s.checkpoints ==> RecordOk(s.cfg.primary, s.placements, s.replicas, id, s.checkpoints[id])
  }

  ghost predicate BlobsOk(blobs: map<Id, Blob>)
  {
    forall b :: b in blobs ==> blobs[b].id == b && PrefixId(blobs[b].digest) == b
  }

  /** Identities handed out so far are below the counter. */
  ghost predicate IdsBelow(s: State)
  {
    && (forall p :: p in s.placements ==> p < s.nextId)
    && (forall r :: r in s.replicas ==> r < s.nextId)
  }

  ghost predicate Structured(s: State)
  {
    RecordsOk(s) && BlobsOk(s.blobs) && IdsBelow(s)
  }

  ghost predicate Extends<K, V>(m: map<K, V>, n: map<K, V>)
  {
    forall k :: k in m ==> k in n && n[k] == m[k]
  }

  // ----- The loop over the slices -----

  /** All that the loop may have changed. */
  ghost predicate OnlyStorage(s0: State, s: State)
  {
    && s == s0.(storage := s.storage, blobs := s.blobs, placements := s.placements, nextId := s.nextId)
    && s0.nextId <= s.nextId && Extends(s0.placements, s.placements)
    && (forall p :: p in s.placements ==> p < s.nextId)
    && BlobsOk(s.blobs)
  }

  /** The draft describes the first n slices, in order. */
  ghost predicate Drafted(s: State, draft: Draft, slices: seq<Slice>, n: nat, replica: Id)
  {
    && |draft.chunks| == |draft.entries| == n <= |slices|
    && (forall i :: 0 <= i < n ==>
          && ChunkOk(s.placements, draft.chunks[i], replica)
          && draft.chunks[i].digest == slices[i].digest
          && draft.chunks[i].physicalSize == draft.chunks[i].logicalSize == |slices[i].bytes|
          && draft.chunks[i].logicalOffset == slices[i].offset
          && draft.entries[i] == ManifestEntry(draft.chunks[i].id, slices[i].offset))
    && draft.hits + draft.misses == n
  }

  function SliceDigests(slices: seq<Slice>, n: nat): seq<Digest>
    requires n <= |slices|
  {
    seq(n, i requires 0 <= i < n => slices[i].digest)
  }

  ghost predicate Sliced(hash: Bytes -> Digest, slices: seq<Slice>)
  {
    forall i :: 0 <= i < |slices| ==> slices[i].bytes != [] && slices[i].digest == hash(slices[i].bytes)
  }

  lemma NoteEffect(s0: State, s: State, draft: Draft, slices: seq<Slice>, n: nat, blobId: Id, replica: Id)
    requires n < |slices| && OnlyStorage(s0, s)
    requires Drafted(s, draft.(hits := 0, misses := n), slices, n, replica)
    requires draft.hits + draft.misses == n + 1
    requires blobId == PrefixId(slices[n].digest)
    ensures var p := Note(s, draft, slices[n], blobId, replica);
      && OnlyStorage(s0, p.s) && p.s.storage == s.storage && p.error.None? && p.draft.wrote == draft.wrote
      && Drafted(p.s, p.draft, slices, n + 1, replica)
  {
    hide PrefixId;
  }

  /** After n slices: the draft and its references, or the references a failed attempt holds. */
  ghost predicate Kept(s0: State, p: Progress, slices: seq<Slice>, n: nat, replica: Id)
    requires n <= |slices|
  {
    && OnlyStorage(s0, p.s)
    && (p.error.None? ==> Drafted(p.s, p.draft, slices, n, replica) && Held(s0, p, slices, n))
    && (p.error.Some? ==> exists k :: 0 <= k < n && Held(s0, p, slices, k))
  }

  ghost predicate Held(s0: State, p: Progress, slices: seq<Slice>, k: nat)
    requires k <= |slices|
  {
    Holding(s0.cfg.hash, s0.checkpoints, s0.storage, p.s.storage, SliceDigests(slices, k), p.draft.wrote)
  }

  lemma {:induction false} StepsKeep(s0: State, slices: seq<Slice>, n: nat, replica: Id, f: Faults)
    requires Sound(s0.cfg.hash, s0.checkpoints, s0.storage) && Steady(f) && Sliced(s0.cfg.hash, slices)
    requires n <= |slices| && BlobsOk(s0.blobs) && forall p :: p in s0.placements ==> p < s0.nextId
    ensures Kept(s0, Steps(s0, slices, n, replica, f), slices, n, replica)
  {
    hide Holding, Step;
    if n == 0 {
      HoldingStart(s0.cfg.hash, s0.checkpoints, s0.storage);
      assert SliceDigests(slices, 0) == [];
    } else {
      StepsKeep(s0, slices, n - 1, replica, f);
      StepKeeps(s0, Steps(s0, slices, n - 1, replica, f), slices, n - 1, replica, f);
    }
  }

  lemma StepKeeps(s0: State, p: Progress, slices: seq<Slice>, n: nat, replica: Id, f: Faults)
    requires UsedIntact(s0.cfg.hash, s0.checkpoints, s0.storage) && Steady(f) && Sliced(s0.cfg.hash, slices)
    requires n < |slices| && Kept(s0, p, slices, n, replica)
    ensures Kept(s0, Step(p, slices[n], n, replica, f), slices, n + 1, replica)
  {
    hide Holding, UsedIntact, Acquire, Note, OnlyStorage, Drafted;
    if p.error.None? {
      var slice, held, q := slices[n], SliceDigests(slices, n), Step(p, slices[n], n, replica, f);
      assert p.s.cfg == s0.cfg by {
        SameConfig(s0, p.s);
      }
      AcquireHolds(s0.cfg.hash, s0.checkpoints, s0.storage, p.s.storage, slice, n, f, held, p.draft.wrote);
      assert SliceDigests(slices, n + 1) == held + [slice.digest];
      match Acquire(s0.cfg.hash, p.s.storage, slice, n, f)
      case Refused(st, e) =>
        assert Held(s0, q, slices, n);
        SwapStorage(s0, p.s, st);
      case Shared(st) =>
        EntryBlobId(s0, st, held + [slice.digest], p.draft.wrote, slice.digest);
        SwapStorage(s0, p.s, st);
        DraftedElsewhere(p.s, st, p.draft, p.draft.(hits := 0, misses := n), slices, n, replica);
        NoteEffect(s0, p.s.(storage := st), p.draft.(hits := p.draft.hits + 1), slices, n, PrefixId(slice.digest),
                   replica);
      case Wrote(st) =>
        var more := p.draft.(misses := p.draft.misses + 1, written := p.draft.written + |slice.bytes|,
                             wrote := p.draft.wrote + [slice.digest]);
        SwapStorage(s0, p.s, st);
        DraftedElsewhere(p.s, st, p.draft, more.(hits := 0, misses := n), slices, n, replica);
        NoteEffect(s0, p.s.(storage := st), more, slices, n, PrefixId(slice.digest), replica);
    }
  }

  lemma SameConfig(s0: State, s: State)
    requires OnlyStorage(s0, s)
    ensures s.cfg == s0.cfg
  {
  }

  lemma SwapStorage(s0: State, s: State, st: Storage)
    requires OnlyStorage(s0, s)
    ensures OnlyStorage(s0, s.(storage := st))
  {
  }

  lemma DraftedElsewhere(s: State, st: Storage, draft: Draft, other: Draft, slices: seq<Slice>, n: nat, replica: Id)
    requires Drafted(s, draft, slices, n, replica)
    requires other.chunks == draft.chunks && other.entries == draft.entries && other.hits + other.misses == n
    ensures Drafted(s.(storage := st), other, slices, n, replica)
    ensures draft.hits + draft.misses == n
  {
  }

  lemma EntryBlobId(s0: State, st: Storage, held: seq<Digest>, wrote: seq<Digest>, d: Digest)
    requires Holding(s0.cfg.hash, s0.checkpoints, s0.storage, st, held, wrote) && d in st.dedup
    ensures st.dedup[d].blobId == PrefixId(d)
  {
    hide Uses, PrefixId;
  }

  // ----- Rolling back -----

  lemma {:induction false} RemoveWrittenEffect(b: Backend.Store, wrote: seq<Digest>, f: Faults, t: Table, e: Digest)
    requires e !in wrote
    ensures SameObject(Storage(b, t), Storage(RemoveWritten(b, wrote, f), t), e)
  {
    hide BlobKey;
    if wrote != [] {
      var n := |wrote| - 1;
      RemoveWrittenEffect(b, wrote[..n], f, t, e);
      KeysDiffer(wrote[n]);
    }
  }

  /** Other entries are untouched; a released entry is gone or still referenced. */
  lemma {:induction false} ReleaseWrittenEffect(t: Table, wrote: seq<Digest>, e: Digest)
    ensures var u := ReleaseWritten(t, wrote);
      && (e in u ==> e in t && u[e] == t[e].(refcount := u[e].refcount))
      && (e !in wrote ==> (e in t <==> e in u) && (e in t ==> u[e] == t[e]))
      && (e in wrote && e in u ==> u[e].refcount > 0)
  {
    if wrote != [] {
      ReleaseWrittenEffect(t, wrote[..|wrote| - 1], e);
    }
  }

  /** A failed attempt leaves every used object as it was and the books in order. */
  lemma UndoSound(hash: Bytes -> Digest, cps: map<Id, Record>, s0: Storage, s: Storage,
                  held: seq<Digest>, wrote: seq<Digest>, f: Faults)
    requires Sound(hash, cps, s0) && Holding(hash, cps, s0, s, held, wrote)
    ensures Sound(hash, cps, Undo(s, wrote, f)) && KeepsUsed(cps, s0, Undo(s, wrote, f))
  {
    hide Uses, BlobKey, PrefixId, RemoveWritten, ReleaseWritten, Intact;
    var t := Undo(s, wrote, f);
    forall e: Digest
      ensures e in t.dedup ==> e in s.dedup && t.dedup[e] == s.dedup[e].(refcount := t.dedup[e].refcount)
      ensures e !in wrote ==> SameObject(s, t, e)
      ensures e !in wrote ==> Refs(t.dedup, e) == Refs(s.dedup, e)
      ensures e in wrote ==> Uses(cps, e) == 0 && (e in t.dedup ==> t.dedup[e].refcount > 0)
      ensures Uses(cps, e) > 0 ==> e !in wrote && SameObject(s0, t, e) && Intact(hash, t, e)
    {
      ReleaseWrittenEffect(s.dedup, wrote, e);
      if e !in wrote {
        RemoveWrittenEffect(s.backend, wrote, f, s.dedup, e);
        if Uses(cps, e) > 0 {
          assert SameObject(s0, s, e) && SameObject(s, t, e);
          assert Intact(hash, s0, e);
          SameIntact(hash, s0, t, e);
        }
      }
    }
    forall e: Digest | e in t.dedup && t.dedup[e].refcount == 0
      ensures Intact(hash, t, e)
    {
      assert Refs(t.dedup, e) == Refs(s.dedup, e) == 0;
      SameIntact(hash, s, t, e);
    }
  }

  // ----- Content -----

  function ObjectOf(st: Storage, d: Digest): Bytes
  {
    if BlobKey(d) in st.backend.objects then st.backend.objects[BlobKey(d)] else []
  }

  /** The bytes of the first n chunks, joined in order. */
  function Contents(st: Storage, chunks: seq<Chunk>, n: nat): Bytes
    requires n <= |chunks|
  {
    if n == 0 then [] else Contents(st, chunks, n - 1) + ObjectOf(st, chunks[n - 1].digest)
  }

  function Content(st: Storage, r: Record): Bytes { Contents(st, r.chunks, |r.chunks|) }

  /** The stored bytes of every live checkpoint have the digest its manifest promises. */
  ghost predicate ContentsOk(s: State)
  {
    forall id :: id in s.checkpoints && Live(s.checkpoints[id]) ==>
      s.cfg.hash(Content(s.storage, s.checkpoints[id])) == s.checkpoints[id].manifest.checkpointDigest
  }

  /** The state invariant. */
  ghost predicate Safe(s: State)
  {
    Sound(s.cfg.hash, s.checkpoints, s.storage) && Structured(s) && ContentsOk(s)
  }

  lemma {:induction false} ContentsSame(s: Storage, t: Storage, chunks: seq<Chunk>, n: nat)
    requires n <= |chunks| && forall i :: 0 <= i < n ==> SameObject(s, t, chunks[i].digest)
    ensures Contents(s, chunks, n) == Contents(t, chunks, n)
  {
    hide BlobKey;
    if n > 0 {
      ContentsSame(s, t, chunks, n - 1);
    }
  }

  /** Used objects untouched, every live checkpoint's content is untouched. */
  lemma LiveContentSame(cps: map<Id, Record>, s: Storage, t: Storage, id: Id)
    requires KeepsUsed(cps, s, t) && id in cps && Live(cps[id])
    ensures Content(s, cps[id]) == Content(t, cps[id])
  {
    hide Uses, SameObject, Count;
    var chunks := cps[id].chunks;
    forall i | 0 <= i < |chunks|
      ensures SameObject(s, t, chunks[i].digest)
    {
      CountMember(chunks, i);
      UsesMember(cps, id, chunks[i].digest);
    }
    ContentsSame(s, t, chunks, |chunks|);
  }

  lemma {:induction false} ReadBackIsContent(hash: Bytes -> Digest, st: Storage, chunks: seq<Chunk>, n: nat, f: Faults)
    requires n <= |chunks| && ReadBack(hash, st, chunks, n, f).Ok?
    ensures ReadBack(hash, st, chunks, n, f).value == Contents(st, chunks, n)
  {
    hide BlobKey;
    if n > 0 {
      ReadBackIsContent(hash, st, chunks, n - 1, f);
    }
  }

  // ----- The manifest is already in order -----

  lemma {:induction false} SortedEntriesStay(es: seq<ManifestEntry>)
    requires forall i, j :: 0 <= i < j < |es| ==> es[i].logicalOffset <= es[j].logicalOffset
    ensures SortEntries(es) == es
  {
    if es != [] {
      var n := |es| - 1;
      SortedEntriesStay(es[..n]);
      assert es == es[..n] + [es[n]];
    }
  }

  lemma OffsetsIncrease(hash: Bytes -> Digest, data: Bytes, size: nat, slices: seq<Slice>, i: nat, j: nat)
    requires Tiles(hash, data, size, 0, slices) && i <= j < |slices|
    ensures slices[i].offset <= slices[j].offset
    decreases j - i
  {
    if i < j {
      assert TileAt(hash, data, size, slices, i);
      OffsetsIncrease(hash, data, size, slices, i + 1, j);
    }
  }

  lemma DraftInOrder(s: State, draft: Draft, data: Bytes, replica: Id)
    requires s.cfg.chunkSize > 0
    requires Drafted(s, draft, Slices(s.cfg.hash, data, s.cfg.chunkSize), |draft.chunks|, replica)
    ensures SortEntries(draft.entries) == draft.entries
  {
    hide ChunkOk, Tiles, SlicesFrom;
    var slices := Slices(s.cfg.hash, data, s.cfg.chunkSize);
    SlicesTile(s.cfg.hash, data, s.cfg.chunkSize, 0);
    forall i, j | 0 <= i < j < |draft.entries|
      ensures draft.entries[i].logicalOffset <= draft.entries[j].logicalOffset
    {
      OffsetsIncrease(s.cfg.hash, data, s.cfg.chunkSize, slices, i, j);
    }
    SortedEntriesStay(draft.entries);
  }

  // ----- Committing -----

  /** The references a finished attempt holds are exactly those its record needs. */
  lemma CommitSound(hash: Bytes -> Digest, cps: map<Id, Record>, s0: Storage, s: Storage,
                    held: seq<Digest>, wrote: seq<Digest>, id: Id, r: Record)
    requires Sound(hash, cps, s0) && Holding(hash, cps, s0, s, held, wrote)
    requires id !in cps && Live(r) && DigestsOf(r.chunks) == held
    ensures Sound(hash, cps[id := r], s)
  {
    hide Uses, BlobKey, PrefixId, Intact, SameObject;
    forall e: Digest
      ensures Refs(s.dedup, e) >= Uses(cps[id := r], e)
      ensures Uses(cps[id := r], e) > 0 ==> Intact(hash, s, e)
    {
      UsesAdd(cps, id, r, e);
      if Uses(cps, e) > 0 {
        SameIntact(hash, s0, s, e);
      }
    }
  }

  lemma CommitStructured(s0: State, s: State, d: Descriptor, draft: Draft, slices: seq<Slice>, size: nat,
                         digest: Digest, replica: Id)
    requires Structured(s0) && OnlyStorage(s0, s) && d.id !in s.checkpoints
    requires replica < s0.nextId && replica !in s0.replicas
    requires Drafted(s, draft, slices, |slices|, replica) && SortEntries(draft.entries) == draft.entries
    ensures Structured(CommitRecord(s, d, draft, size, digest, replica))
  {
    hide ChunkOk, SortEntries, Semantics, PrefixId;
    var t := CommitRecord(s, d, draft, size, digest, replica);
    forall id | id in t.checkpoints
      ensures RecordOk(t.cfg.primary, t.placements, t.replicas, id, t.checkpoints[id])
    {
      if id != d.id {
        RecordStays(s0, t, id);
      }
    }
  }

  lemma RecordStays(s0: State, t: State, id: Id)
    requires id in s0.checkpoints && id in t.checkpoints && t.checkpoints[id] == s0.checkpoints[id]
    requires RecordOk(s0.cfg.primary, s0.placements, s0.replicas, id, s0.checkpoints[id])
    requires t.cfg == s0.cfg && Extends(s0.placements, t.placements) && Extends(s0.replicas, t.replicas)
    ensures RecordOk(t.cfg.primary, t.placements, t.replicas, id, t.checkpoints[id])
  {
    hide PrefixId;
    var r := s0.checkpoints[id];
    forall i | 0 <= i < |r.chunks|
      ensures ChunkOk(t.placements, r.chunks[i], r.replicaSet.replicas[0])
    {
      assert ChunkOk(s0.placements, r.chunks[i], r.replicaSet.replicas[0]);
    }
  }

  lemma CommitContents(s0: State, t: State, id: Id)
    requires ContentsOk(s0) && t.cfg == s0.cfg && id !in s0.checkpoints
    requires id in t.checkpoints && t.checkpoints == s0.checkpoints[id := t.checkpoints[id]]
    requires KeepsUsed(s0.checkpoints, s0.storage, t.storage)
    requires s0.cfg.hash(Content(t.storage, t.checkpoints[id])) == t.checkpoints[id].manifest.checkpointDigest
    ensures ContentsOk(t)
  {
    hide KeepsUsed, Content;
    forall k | k in t.checkpoints && Live(t.checkpoints[k])
      ensures t.cfg.hash(Content(t.storage, t.checkpoints[k])) == t.checkpoints[k].manifest.checkpointDigest
    {
      if k != id {
        LiveContentSame(s0.checkpoints, s0.storage, t.storage, k);
      }
    }
  }

  /** What a publication that throws may have changed: not the records, only storage bookkeeping. */
  ghost predicate FailedPublish(s: State, t: State)
  {
    && t == s.(storage := t.storage, blobs := t.blobs, placements := t.placements, nextId := t.nextId)
    && KeepsUsed(s.checkpoints, s.storage, t.storage)
  }

  /** What a publication that returns has done: one new record holding content with the data's digest. */
  ghost predicate DonePublish(s: State, t: State, d: Descriptor, data: Bytes)
  {
    && d.id !in s.checkpoints && d.id in t.checkpoints
    && t.checkpoints == s.checkpoints[d.id := t.checkpoints[d.id]]
    && t.checkpoints[d.id].descriptor == d && t.checkpoints[d.id].lifecycle == LIFE_COMMITTED
    && t.checkpoints[d.id].manifest.checkpointDigest == s.cfg.hash(data)
    && KeepsUsed(s.checkpoints, s.storage, t.storage)
    && t.cfg == s.cfg
  }

  lemma FailedKeepsSafe(s: State, t: State)
    requires Safe(s) && FailedPublish(s, t) && Sound(t.cfg.hash, t.checkpoints, t.storage)
    requires Extends(s.placements, t.placements) && s.nextId <= t.nextId && BlobsOk(t.blobs)
    requires forall p :: p in t.placements ==> p < t.nextId
    ensures Safe(t)
  {
    hide Sound, KeepsUsed, Content, RecordOk;
    forall id | id in t.checkpoints
      ensures RecordOk(t.cfg.primary, t.placements, t.replicas, id, t.checkpoints[id])
      ensures Live(t.checkpoints[id]) ==> Content(s.storage, s.checkpoints[id]) == Content(t.storage, t.checkpoints[id])
    {
      RecordStays(s, t, id);
      if Live(t.checkpoints[id]) {
        LiveContentSame(s.checkpoints, s.storage, t.storage, id);
      }
    }
  }

  lemma SlicesAreSliced(hash: Bytes -> Digest, data: Bytes, size: nat)
    requires size > 0
    ensures Sliced(hash, Slices(hash, data, size))
  {
    hide SlicesFrom;
    SlicesTile(hash, data, size, 0);
    var slices := Slices(hash, data, size);
    forall i | 0 <= i < |slices|
      ensures slices[i].bytes != [] && slices[i].digest == hash(slices[i].bytes)
    {
      assert TileAt(hash, data, size, slices, i);
    }
  }

  lemma AfterSteps(s: State, d: Descriptor, data: Bytes, f: Faults)
    requires Safe(s) && Steady(f) && s.cfg.chunkSize > 0
    ensures var slices := Slices(s.cfg.hash, data, s.cfg.chunkSize);
      Kept(s.(nextId := s.nextId + 1), PublishSteps(s, data, f), slices, |slices|, s.nextId)
  {
    hide Sound, RecordsOk, ContentsOk, Kept, Steps;
    SlicesAreSliced(s.cfg.hash, data, s.cfg.chunkSize);
    var slices := Slices(s.cfg.hash, data, s.cfg.chunkSize);
    StepsKeep(s.(nextId := s.nextId + 1), slices, |slices|, s.nextId, f);
  }

  /** Rolling back any attempt, finished or not, restores the invariant and touches no used object. */
  lemma RollbackKeeps(s: State, p: Progress, slices: seq<Slice>, f: Faults)
    requires Safe(s) && Kept(s.(nextId := s.nextId + 1), p, slices, |slices|, s.nextId)
    ensures Safe(Rollback(p.s, p.draft, f)) && FailedPublish(s, Rollback(p.s, p.draft, f))
  {
    hide Sound, RecordsOk, ContentsOk, Undo, KeepsUsed, Holding, Drafted;
    var s1 := s.(nextId := s.nextId + 1);
    var k := |slices|;
    if p.error.Some? {
      k :| 0 <= k < |slices| && Held(s1, p, slices, k);
    }
    assert Held(s1, p, slices, k);
    UndoSound(s.cfg.hash, s.checkpoints, s.storage, p.s.storage, SliceDigests(slices, k), p.draft.wrote, f);
    FailedKeepsSafe(s, Rollback(p.s, p.draft, f));
  }

  lemma DraftDigests(s: State, draft: Draft, slices: seq<Slice>, replica: Id)
    requires Drafted(s, draft, slices, |slices|, replica)
    ensures DigestsOf(draft.chunks) == SliceDigests(slices, |slices|)
  {
    hide ChunkOk;
  }

  lemma HoldingKeepsUsed(hash: Bytes -> Digest, cps: map<Id, Record>, s0: Storage, s: Storage, held: seq<Digest>,
                         wrote: seq<Digest>)
    requires Holding(hash, cps, s0, s, held, wrote)
    ensures KeepsUsed(cps, s0, s)
  {
  }

  lemma NextIdUnused(s: State)
    requires Structured(s)
    ensures Structured(s.(nextId := s.nextId + 1)) && s.nextId !in s.replicas
  {
    hide RecordOk, BlobsOk;
    assert RecordsOk(s.(nextId := s.nextId + 1));
  }

  /** A confirmed attempt commits a record with everything the invariant asks of it. */
  lemma CommitKeeps(s: State, p: Progress, d: Descriptor, data: Bytes, digest: Digest, f: Faults)
    requires Safe(s) && s.cfg.chunkSize > 0 && d.id !in s.checkpoints && p.error.None?
    requires var slices := Slices(s.cfg.hash, data, s.cfg.chunkSize);
      Kept(s.(nextId := s.nextId + 1), p, slices, |slices|, s.nextId)
    requires Confirm(p.s, p.draft, data, f) == Ok(digest)
    ensures var t := CommitRecord(p.s, d, p.draft, |data|, digest, s.nextId);
      && Safe(t) && DonePublish(s, t, d, data) && t.checkpoints[d.id].chunks == p.draft.chunks
  {
    hide Sound, ContentsOk, KeepsUsed, Holding, Structured, ReadBack, Span, SortEntries, Contents, Drafted, Semantics,
         BlobsOk, SlicesFrom, Extends;
    var s1, slices := s.(nextId := s.nextId + 1), Slices(s.cfg.hash, data, s.cfg.chunkSize);
    var t := CommitRecord(p.s, d, p.draft, |data|, digest, s.nextId);
    assert p.s == s1.(storage := p.s.storage, blobs := p.s.blobs, placements := p.s.placements, nextId := p.s.nextId);
    var r := t.checkpoints[d.id];
    var held := SliceDigests(slices, |slices|);
    ReadBackIsContent(s.cfg.hash, p.s.storage, p.draft.chunks, |p.draft.chunks|, f);
    DraftDigests(p.s, p.draft, slices, s.nextId);
    assert |p.draft.chunks| == |DigestsOf(p.draft.chunks)| == |slices|;
    DraftInOrder(p.s, p.draft, data, s.nextId);
    CommitSound(s.cfg.hash, s.checkpoints, s.storage, p.s.storage, held, p.draft.wrote, d.id, r);
    NextIdUnused(s);
    CommitStructured(s1, p.s, d, p.draft, slices, |data|, digest, s.nextId);
    HoldingKeepsUsed(s.cfg.hash, s.checkpoints, s.storage, p.s.storage, held, p.draft.wrote);
    CommitContents(s, t, d.id);
  }

  /**
   Publication, whatever the environment does: the invariant holds afterwards, an error leaves
   every record and every used object as it was, and a receipt means exactly one new committed
   record whose stored content has the digest of the data.
   */
  lemma PublishKeeps(s: State, d: Descriptor, data: Bytes, f: Faults)
    requires Safe(s) && Steady(f)
    ensures var (t, r) := Publish(s, d, data, f);
      && Safe(t)
      && (r.Err? ==> FailedPublish(s, t))
      && (r.Ok? ==> DonePublish(s, t, d, data))
  {
    hide Safe, FailedPublish, DonePublish, PublishSteps, Confirm, CommitRecord, Rollback, Kept, NewManifest;
    if Admission(s, d).None? {
      AfterSteps(s, d, data, f);
      var p, slices := PublishSteps(s, data, f), Slices(s.cfg.hash, data, s.cfg.chunkSize);
      RollbackKeeps(s, p, slices, f);
      if p.error.None? && Confirm(p.s, p.draft, data, f).Ok? {
        CommitKeeps(s, p, d, data, Confirm(p.s, p.draft, data, f).value, f);
      }
    } else {
      NothingChanged(s);
    }
  }

  lemma NothingChanged(s: State)
    ensures FailedPublish(s, s)
  {
    hide Uses, BlobKey;
  }
}

/** The store as an object (src/store.cpp): each operation updates it in place, step by step. */
module Store {
  import opened Basics
  import opened Model
  import opened Chunking
  import opened Dedup
  import opened StoreState
  import opened Sums
  import Backend
  import Retention
  import Collection
  import Recovery
  import Persistence
  import Runs
  import RestoreCorrectness

  // ----- Loops that only read -----

  /** Walks the manifest entries and adds up where the next one must start. */
  method CheckSpan(entries: seq<ManifestEntry>, sizes: map<Id, nat>) returns (r: Option<nat>)
    ensures r == Span(entries, sizes)
  {
    var expected := 0;
    for n := 0 to |entries|
      invariant Span(entries[..n], sizes) == Some(expected)
    {
      assert entries[..n + 1][..n] == entries[..n];
      if entries[n].logicalOffset != expected || entries[n].chunkId !in sizes {
        assert Span(entries[..n + 1], sizes) == None;
        SpanStops(entries, sizes, n + 1);
        return None;
      }
      expected := expected + sizes[entries[n].chunkId];
    }
    assert entries[..|entries|] == entries;
    return Some(expected);
  }

  lemma {:induction false} SpanStops(entries: seq<ManifestEntry>, sizes: map<Id, nat>, n: nat)
    requires n <= |entries| && Span(entries[..n], sizes).None?
    ensures Span(entries, sizes).None?
  {
    if n < |entries| {
      var m := |entries| - 1;
      assert entries[..m][..n] == entries[..n];
      SpanStops(entries[..m], sizes, n);
    } else {
      assert entries[..n] == entries;
    }
  }

  /** compute_reachable: the blob ids of the retained records' chunks, in whatever order they come. */
  method ComputeReachable(cps: map<Id, Record>, retained: set<Id>) returns (r: set<Id>)
    ensures r == Collection.Reachable(cps, retained)
  {
    r := {};
    var todo := cps.Keys;
    while todo != {}
      invariant todo <= cps.Keys
      invariant r == Collection.Reachable(cps, retained - todo)
      decreases todo
    {
      var id :| id in todo;
      todo := todo - {id};
      if id in retained {
        var own := {};
        for i := 0 to |cps[id].chunks|
          invariant own == set k | 0 <= k < i :: cps[id].chunks[k].blobId
        {
          own := own + {cps[id].chunks[i].blobId};
        }
        ReachableMore(cps, retained, todo, id);
        r := r + own;
      } else {
        assert retained - todo == retained - (todo + {id});
      }
    }
    assert retained - {} == retained;
  }

  lemma ReachableMore(cps: map<Id, Record>, retained: set<Id>, todo: set<Id>, id: Id)
    requires id in cps && id in retained && id !in todo
    ensures Collection.Reachable(cps, retained - todo)
            == Collection.Reachable(cps, retained - (todo + {id})) + set k | 0 <= k < |cps[id].chunks| ::
               cps[id].chunks[k].blobId
  {
    var own := set k | 0 <= k < |cps[id].chunks| :: cps[id].chunks[k].blobId;
    forall b
      ensures b in Collection.Reachable(cps, retained - todo) <==>
              b in Collection.Reachable(cps, retained - (todo + {id})) || b in own
    {
      if b in Collection.Reachable(cps, retained - todo) {
        var k, i :| k in retained - todo && k in cps && 0 <= i < |cps[k].chunks| && cps[k].chunks[i].blobId == b;
        assert k != id ==> k in retained - (todo + {id});
      }
    }
  }

  /** The bytes of the reachable blobs that have a record. */
  method MarkBytes(blobs: map<Id, Blob>, reachable: set<Id>) returns (total: nat)
    ensures total == Sum(Collection.MarkedSizes(blobs, reachable))
  {
    total := 0;
    var left := reachable;
    while left != {}
      invariant left <= reachable
      invariant total + Sum(Collection.MarkedSizes(blobs, left)) == Sum(Collection.MarkedSizes(blobs, reachable))
      decreases left
    {
      var b :| b in left;
      MarkedStep(blobs, left, b);
      if b in blobs {
        total := total + blobs[b].physicalSize;
      }
      left := left - {b};
    }
    SumZero(Collection.MarkedSizes(blobs, {}));
  }

  lemma MarkedStep(blobs: map<Id, Blob>, left: set<Id>, b: Id)
    requires b in left
    ensures Sum(Collection.MarkedSizes(blobs, left)) ==
            Sum(Collection.MarkedSizes(blobs, left - {b})) + (if b in blobs then blobs[b].physicalSize else 0)
  {
    var m, n := Collection.MarkedSizes(blobs, left), Collection.MarkedSizes(blobs, left - {b});
    if b in blobs {
      SumRemove(m, b);
      assert n == m - {b};
    } else {
      assert n == m;
    }
  }

  /** The recorded blobs that are not reachable, in the order the map is walked. */
  method ListReclaimable(s: State, reachable: set<Id>) returns (list: seq<Id>)
    ensures Collection.IsPlan(s, reachable, list)
  {
    list := [];
    var left := s.blobs.Keys;
    while left != {}
      invariant left <= s.blobs.Keys && forall b :: b in list <==> b in s.blobs && b !in reachable && b !in left
      invariant forall i, j :: 0 <= i < j < |list| ==> list[i] != list[j]
      decreases left
    {
      var b :| b in left;
      left := left - {b};
      if b !in reachable {
        list := list + [b];
      }
    }
  }

  /** gc_eligible_checkpoints: committed or retired and not protected. */
  method ListEligible(s: State, v: Retention.View) returns (list: seq<Id>)
    ensures Retention.Enumerates(list, Retention.Eligible(s, v))
  {
    hide Retention.Protected;
    var protected := Retention.ComputeProtected(s, v);
    list := [];
    var left := s.checkpoints.Keys;
    while left != {}
      invariant left <= s.checkpoints.Keys
      invariant forall id :: id in list <==> id in Retention.Eligible(s, v) && id !in left
      invariant forall i, j :: 0 <= i < j < |list| ==> list[i] != list[j]
      decreases left
    {
      var id :| id in left;
      left := left - {id};
      var life := s.checkpoints[id].lifecycle;
      if (life == LIFE_COMMITTED || life == LIFE_RETIRED) && id !in protected {
        list := list + [id];
      }
    }
  }

  class CheckpointStore {
    const cfg: Config
    const dedup: DedupTable
    const backend: Backend.SyntheticBackend
    var bootId: Id
    var epoch: nat
    var registered: bool
    var families: map<Id, Family>
    var checkpoints: map<Id, Record>
    var blobs: map<Id, Blob>
    var replicas: map<Id, Replica>
    var placements: map<Id, Placement>
    var retention: map<Id, Policy>
    var nextGeneration: map<Id, nat>
    var nextFamilyId: Id
    var nextId: nat
    var gc: GcState
    var counters: seq<nat>

    function Stored(): Storage
      reads dedup, backend
    {
      Storage(backend.View(), dedup.entries)
    }

    /** The whole state as a value. */
    function Value(): State
      reads this, dedup, backend
    {
      State(cfg, bootId, epoch, registered, Stored(), families, checkpoints, blobs, replicas, placements, retention,
            nextGeneration, nextFamilyId, nextId, gc, counters)
    }

    constructor (cfg: Config, boot: Id)
      ensures Value() == Runs.Init(cfg, boot) && this.cfg == cfg && fresh(dedup) && fresh(backend)
    {
      this.cfg := cfg;
      dedup := new DedupTable();
      backend := new Backend.SyntheticBackend();
      bootId, epoch, registered := boot, 1, true;
      families, checkpoints, blobs, replicas, placements, retention := map[], map[], map[], map[], map[], map[];
      nextGeneration, nextFamilyId, nextId := map[], 1, 1000;
      gc := GcState(0, 1, GC_IDLE, {}, [], 0, 0, FRESH_UNKNOWN);
      counters := [0, 0, 0, 0, 0, 0, 0];
    }

    method CreateFamily() returns (id: Id)
      modifies this
      ensures Value() == StoreState.CreateFamily(old(Value())) && id == old(nextFamilyId)
    {
      id := nextFamilyId;
      nextFamilyId := id + 1;
      if id !in families {
        families := families[id := Family(id, 1, [])];
      }
      nextGeneration := nextGeneration[id := 1];
    }

    method MakeFullDescriptor(family: Id, owner: Id, size: nat, durability: Byte, now: int)
      returns (r: Result<Descriptor, Error>)
      modifies this
      ensures (Value(), r) == StoreState.MakeDescriptor(old(Value()), family, owner, size, durability, now)
    {
      if family !in nextGeneration {
        return Err(NotFound);
      }
      r := Ok(FullDescriptor(Value(), family, owner, size, durability, now));
      nextId := nextId + 1;
    }

    // ----- Publication -----

    /** Shares an intact object or writes a new one; Ok says whether it was shared. */
    method ObtainReference(slice: Slice, i: nat, f: Faults) returns (r: Result<bool, Error>)
      requires slice.bytes != []
      modifies dedup, backend
      ensures match Acquire(cfg.hash, old(Stored()), slice, i, f)
        case Refused(st, e) => r == Err(e) && Stored() == st
        case Shared(st) => r == Ok(true) && Stored() == st
        case Wrote(st) => r == Ok(false) && Stored() == st
    {
      hide BlobKey, PrefixId;
      var key := BlobKey(slice.digest);
      var found := dedup.Find(slice.digest, |slice.bytes|);
      match found {
        case Reject(e) =>
          return Err(e);
        case Hit(_) =>
          var seen := backend.Verify(cfg.hash, key, slice.digest, f.verify(i));
          if seen == INTEGRITY_VERIFIED {
            r := dedup.AddReference(slice.digest);
            return;
          }
        case Miss =>
      }
      r := WriteObject(slice, i, f);
    }

    method WriteObject(slice: Slice, i: nat, f: Faults) returns (r: Result<bool, Error>)
      requires slice.digest in dedup.entries ==> dedup.entries[slice.digest].physicalSize == |slice.bytes|
      modifies dedup, backend
      ensures match Write(old(Stored()), slice, i, f)
        case Refused(st, e) => r == Err(e) && Stored() == st
        case Shared(_) => true
        case Wrote(st) => r == Ok(false) && Stored() == st
    {
      hide BlobKey, PrefixId;
      var key := BlobKey(slice.digest);
      var failed := backend.Put(key, slice.bytes, f.put(i));
      if failed.Some? {
        return Err(failed.value);
      }
      failed := backend.CommitKey(key, f.commit(i));
      if failed.Some? {
        return Err(failed.value);
      }
      var inserted := dedup.Insert(PrefixId(slice.digest), slice.digest, |slice.bytes|, INTEGRITY_VERIFIED, 1);
      return Ok(false);
    }

    method AddPlacement(id: Id, placed: Placement)
      modifies this`nextId, this`placements
      ensures nextId == old(nextId) + 1
      ensures placements == if id in old(placements) then old(placements) else old(placements)[id := placed]
    {
      nextId := nextId + 1;
      if id !in placements {
        placements := placements[id := placed];
      }
    }

    /** Records the blob, the placement and the chunk of a slice that has its reference. */
    method NoteSlice(draft: Draft, slice: Slice, blobId: Id, replica: Id) returns (more: Draft)
      modifies this
      ensures Progress(Value(), more, None) == Note(old(Value()), draft, slice, blobId, replica)
    {
      hide PrefixId;
      hide NoteBlob, NewChunk, NewPlacement, Note;
      ghost var s := Value();
      var d, size, pid := slice.digest, |slice.bytes|, nextId;
      var placed := NewPlacement(Value(), pid, replica, size);
      AddPlacement(pid, placed);
      blobs := NoteBlob(blobs, blobId, d, size, Refs(dedup.entries, d), replica);
      var chunk := NewChunk(slice, blobId, pid);
      NoteValue(s, Value(), draft, slice, blobId, replica);
      more := draft.(chunks := draft.chunks + [chunk],
                     entries := draft.entries + [ManifestEntry(chunk.id, slice.offset)],
                     sizes := if chunk.id in draft.sizes then draft.sizes else draft.sizes[chunk.id := size]);
    }

    /** The loop over the slices: stops at the first that is refused its reference. */
    method StoreSlices(slices: seq<Slice>, replica: Id, f: Faults) returns (draft: Draft, error: Option<Error>)
      requires forall slice <- slices :: slice.bytes != []
      modifies this, dedup, backend
      ensures Progress(Value(), draft, error) == Steps(old(Value()), slices, |slices|, replica, f)
    {
      hide Acquire, Note, PrefixId;
      ghost var s0 := Value();
      draft, error := NO_DRAFT, None;
      var n := 0;
      while n < |slices| && error.None?
        invariant n <= |slices| && Progress(Value(), draft, error) == Steps(s0, slices, n, replica, f)
      {
        draft, error := StoreSlice(draft, slices[n], n, replica, f);
        n := n + 1;
      }
      StepsStop(s0, slices, n, |slices|, replica, f);
    }

    method StoreSlice(draft: Draft, slice: Slice, i: nat, replica: Id, f: Faults)
      returns (more: Draft, error: Option<Error>)
      requires slice.bytes != []
      modifies this, dedup, backend
      ensures Progress(Value(), more, error) ==
              StoreState.Step(Progress(old(Value()), draft, None), slice, i, replica, f)
    {
      hide Acquire, Note, PrefixId;
      var d := slice.digest;
      var shared := ObtainReference(slice, i, f);
      if shared.Err? {
        return draft, Some(shared.error);
      }
      if shared.value {
        var blobId := if d in dedup.entries then dedup.entries[d].blobId else PrefixId(d);
        more := NoteSlice(draft.(hits := draft.hits + 1), slice, blobId, replica);
      } else {
        var counted := draft.(misses := draft.misses + 1, written := draft.written + |slice.bytes|,
                              wrote := draft.wrote + [d]);
        more := NoteSlice(counted, slice, PrefixId(d), replica);
      }
      error := None;
    }

    /** Reads every chunk back, checks its size and digest, and joins the bytes. */
    method ReadChunks(chunks: seq<Chunk>, f: Faults) returns (r: Result<Bytes, Error>)
      ensures r == ReadBack(cfg.hash, Stored(), chunks, |chunks|, f)
    {
      hide BlobKey;
      var joined: Bytes := [];
      for n := 0 to |chunks|
        invariant ReadBack(cfg.hash, Stored(), chunks, n, f) == Ok(joined)
      {
        var c := chunks[n];
        var rb := backend.Read(BlobKey(c.digest), f.read(n, 0));
        var error :=
          if rb.Err? then Some(rb.error)
          else if |rb.value| != c.physicalSize then Some(Integrity)
          else if cfg.hash(rb.value) != c.digest then Some(DigestMismatch)
          else None;
        if error.Some? {
          assert ReadBack(cfg.hash, Stored(), chunks, n + 1, f) == Err(error.value);
          ReadBackStops(cfg.hash, Stored(), chunks, n + 1, |chunks|, f);
          return Err(error.value);
        }
        joined := joined + rb.value;
      }
      return Ok(joined);
    }

    /** The catch block: removes what was written and releases its references. */
    method RollBack(wrote: seq<Digest>, f: Faults)
      modifies dedup, backend
      ensures Stored() == Undo(old(Stored()), wrote, f)
    {
      hide BlobKey;
      ghost var st := Stored();
      for n := 0 to |wrote|
        modifies backend
        invariant backend.View() == RemoveWritten(st.backend, wrote[..n], f)
      {
        assert wrote[..n + 1][..n] == wrote[..n];
        var removed := backend.RemoveKey(BlobKey(wrote[n]), f.remove(n, 0));
        RemoveAbsent(RemoveWritten(st.backend, wrote[..n], f), BlobKey(wrote[n]));
      }
      for n := 0 to |wrote|
        modifies dedup
        invariant dedup.entries == ReleaseWritten(st.dedup, wrote[..n])
      {
        assert wrote[..n + 1][..n] == wrote[..n];
        var released := dedup.ReleaseReference(wrote[n]);
        var dropped := dedup.ReleaseUntilOrphan(wrote[n]);
      }
      assert wrote[..|wrote|] == wrote;
    }

    method AddRecord(id: Id, record: Record, replica: Id, copy: Replica)
      modifies this`nextId, this`replicas, this`checkpoints
      ensures nextId == old(nextId) + 1
      ensures replicas == if replica in old(replicas) then old(replicas) else old(replicas)[replica := copy]
      ensures checkpoints == if id in old(checkpoints) then old(checkpoints) else old(checkpoints)[id := record]
    {
      nextId := nextId + 1;
      if replica !in replicas {
        replicas := replicas[replica := copy];
      }
      if id !in checkpoints {
        checkpoints := checkpoints[id := record];
      }
    }

    method EnterFamily(d: Descriptor)
      modifies this`families, this`nextGeneration
      ensures families == if d.familyId !in old(families) then old(families) else
                old(families)[d.familyId := old(families)[d.familyId].(checkpointIds :=
                    old(families)[d.familyId].checkpointIds + [d.id])]
      ensures nextGeneration == old(nextGeneration)[d.familyId := d.generation + 1]
    {
      if d.familyId in families {
        var fam := families[d.familyId];
        families := families[d.familyId := fam.(checkpointIds := fam.checkpointIds + [d.id])];
      }
      nextGeneration := nextGeneration[d.familyId := d.generation + 1];
    }

    /** The record, its replica, the family's list and its next generation, all at once. */
    method Commit(d: Descriptor, draft: Draft, size: nat, digest: Digest, replica: Id) returns (manifest: Manifest)
      modifies this
      ensures Value() == CommitRecord(old(Value()), d, draft, size, digest, replica)
      ensures manifest == NewManifest(old(Value()), d, draft, size, digest)
    {
      hide NewManifest, NewRecord, NewReplica, CommitRecord;
      ghost var s := Value();
      manifest := NewManifest(Value(), d, draft, size, digest);
      AddRecord(d.id, NewRecord(d, manifest, draft.chunks, replica), replica,
                NewReplica(Value(), replica, draft.written));
      EnterFamily(d);
      CommitValue(s, Value(), d, draft, size, digest, replica);
    }

    /** What publication checks before it touches anything. */
    method Admit(d: Descriptor) returns (refused: Option<Error>)
      ensures refused == Admission(Value(), d)
    {
      if d.producerBoot != bootId {
        return Some(StaleAuthority);
      }
      if d.id in checkpoints {
        return Some(AlreadyExists);
      }
      if d.familyId !in nextGeneration {
        return Some(NotFound);
      }
      if d.generation != nextGeneration[d.familyId] {
        return Some(StaleGeneration);
      }
      if !ValidChunkSize(cfg.chunkSize) {
        return Some(InvalidArgument);
      }
      if d.kind != KIND_FULL && d.kind != KIND_SYNTHETIC {
        return Some(NotSupported);
      }
      return if registered then None else Some(NotFound);
    }

    /** Reads back, compares digests and checks the manifest for gaps. */
    method ConfirmDraft(draft: Draft, data: Bytes, f: Faults) returns (r: Result<Digest, Error>)
      ensures r == Confirm(Value(), draft, data, f)
    {
      hide ReadBack, Span, SortEntries;
      var joined := ReadChunks(draft.chunks, f);
      if joined.Err? {
        return Err(joined.error);
      }
      if cfg.hash(joined.value) != cfg.hash(data) {
        return Err(DigestMismatch);
      }
      var span := CheckSpan(SortEntries(draft.entries), draft.sizes);
      if span != Some(|data|) {
        return Err(Malformed);
      }
      return Ok(cfg.hash(joined.value));
    }

    /** publish: a receipt, or the error after everything written has been rolled back. */
    method Publish(d: Descriptor, data: Bytes, f: Faults) returns (r: Result<Receipt, Error>)
      modifies this, dedup, backend
      ensures (Value(), r) == StoreState.Publish(old(Value()), d, data, f)
    {
      hide Steps, Confirm, CommitRecord, NewManifest, Undo, Slices;
      var refused := Admit(d);
      if refused.Some? {
        return Err(refused.value);
      }
      var cut := ChunkStream(cfg.hash, data, cfg.chunkSize);
      var slices, replica := cut.value, nextId;
      SlicesNonempty(cfg.hash, data, cfg.chunkSize);
      nextId := nextId + 1;
      var draft, error := StoreSlices(slices, replica, f);
      if error.Some? {
        RollBack(draft.wrote, f);
        return Err(error.value);
      }
      var digest := ConfirmDraft(draft, data, f);
      if digest.Err? {
        RollBack(draft.wrote, f);
        return Err(digest.error);
      }
      var manifest := Commit(d, draft, |data|, digest.value, replica);
      var deduplicated := if |data| >= draft.written then |data| - draft.written else 0;
      return Ok(Receipt(manifest, draft.chunks, draft.written, deduplicated, draft.hits, draft.misses));
    }

    // ----- Retention -----

    method Retire(id: Id) returns (error: Option<Error>)
      modifies this`checkpoints
      ensures (Value(), error) == Retention.Retire(old(Value()), id)
    {
      if id !in checkpoints {
        return Some(NotFound);
      }
      if checkpoints[id].lifecycle != LIFE_COMMITTED {
        return Some(Transaction);
      }
      checkpoints := checkpoints[id := checkpoints[id].(lifecycle := LIFE_RETIRED)];
      return None;
    }

    method SetRetentionPolicy(p: Policy)
      modifies this`retention
      ensures Value() == Retention.SetPolicy(old(Value()), p)
    {
      retention := retention[p.id := p.(generation := 1)];
    }

    // ----- Collection -----

    /** gc_plan: marks what the protected checkpoints reach and lists every other blob. */
    method GcPlan(v: Retention.View)
      modifies this`nextId, this`gc
      ensures var s := old(Value());
        var reachable := Collection.Reachable(s.checkpoints, Retention.Protected(s, v));
        Collection.IsPlan(s, reachable, gc.reclaimable) && Value() == Collection.Plan(s, reachable, gc.reclaimable)
    {
      hide Retention.Protected, Collection.Reachable, Collection.MarkedSizes, Sum, Collection.IsPlan;
      var retained := Retention.ComputeProtected(Value(), v);
      var reachable := ComputeReachable(checkpoints, retained);
      var marked := MarkBytes(blobs, reachable);
      var list := ListReclaimable(Value(), reachable);
      gc := gc.(epoch := nextId, generation := gc.generation + 1, phase := GC_MARKING, reachable := reachable,
                reclaimable := list, markedBytes := marked, freshness := FRESH_CURRENT);
      nextId := nextId + 1;
    }

    /** Releases one reference for each chunk of a record. */
    method ReleaseChunks(chunks: seq<Chunk>)
      modifies dedup
      ensures dedup.entries == Collection.ReleaseAll(old(dedup.entries), chunks)
    {
      ghost var t := dedup.entries;
      for n := 0 to |chunks|
        invariant dedup.entries == Collection.ReleaseAll(t, chunks[..n])
      {
        assert chunks[..n + 1][..n] == chunks[..n];
        var released := dedup.ReleaseReference(chunks[n].digest);
      }
      assert chunks[..|chunks|] == chunks;
    }

    method SweepCheckpoint(id: Id)
      modifies this`checkpoints, dedup
      ensures Value() == Collection.SweepOne(old(Value()), id)
    {
      hide Collection.ReleaseAll;
      if id in checkpoints && Live(checkpoints[id]) {
        ReleaseChunks(checkpoints[id].chunks);
        checkpoints := checkpoints[id := checkpoints[id].(lifecycle := LIFE_DELETED)];
      }
    }

    /** Removes a blob's object once for each of its recorded replicas. */
    method RemoveReplicas(key: string, ids: seq<Id>, b: nat, f: Faults) returns (removed: bool)
      modifies backend
      ensures (backend.View(), removed) == Collection.RemoveFrom(old(Value()), key, ids, b, f)
    {
      ghost var s := Value();
      removed := false;
      for n := 0 to |ids|
        invariant (backend.View(), removed) == Collection.RemoveFrom(s, key, ids[..n], b, f)
      {
        assert ids[..n + 1][..n] == ids[..n];
        if ids[n] in replicas && replicas[ids[n]].backendId == cfg.primary && registered {
          var gone := backend.RemoveKey(key, f.remove(b, n));
          removed := removed || gone;
        }
      }
      assert ids[..|ids|] == ids;
    }

    /** One planned blob: kept while reachable or referenced, otherwise removed and forgotten. */
    method ReclaimBlob(reachable: set<Id>, bid: Id, b: nat, f: Faults)
      modifies this`blobs, dedup, backend
      ensures Value() == Collection.ReclaimOne(old(Value()), reachable, bid, b, f)
    {
      hide Collection.RemoveFrom, BlobKey;
      if bid in reachable || bid !in blobs || Refs(dedup.entries, blobs[bid].digest) != 0 {
        return;
      }
      var blob := blobs[bid];
      var removed := RemoveReplicas(BlobKey(blob.digest), blob.replicas, b, f);
      if removed {
        var dropped := dedup.ReleaseUntilOrphan(blob.digest);
      }
      blobs := blobs - {bid};
    }

    method SweepAll(eligible: seq<Id>)
      modifies this`checkpoints, dedup
      ensures Value() == Collection.Sweep(old(Value()), eligible)
    {
      hide Collection.SweepOne;
      ghost var s := Value();
      for n := 0 to |eligible|
        invariant Value() == Collection.Sweep(s, eligible[..n])
      {
        assert eligible[..n + 1][..n] == eligible[..n];
        SweepCheckpoint(eligible[n]);
      }
      assert eligible[..|eligible|] == eligible;
    }

    method ReclaimAll(reachable: set<Id>, list: seq<Id>, f: Faults)
      modifies this`blobs, dedup, backend
      ensures Value() == Collection.Reclaim(old(Value()), reachable, list, f)
    {
      hide Collection.ReclaimOne;
      ghost var s := Value();
      for n := 0 to |list|
        invariant Value() == Collection.Reclaim(s, reachable, list[..n], f)
      {
        assert list[..n + 1][..n] == list[..n];
        ReclaimBlob(reachable, list[n], n, f);
      }
      assert list[..|list|] == list;
    }

    /** gc_run: looks at the clock once to find what is eligible and again to find what is retained. */
    method GcRun(before: Retention.View, after: Retention.View, f: Faults) returns (eligible: seq<Id>)
      modifies this, dedup, backend
      ensures Retention.Enumerates(eligible, Retention.Eligible(old(Value()), before))
      ensures Value() == Collection.Run(old(Value()), eligible, Retention.Protected(old(Value()), after), f)
    {
      hide Retention.Protected, Retention.Eligible, Collection.Reachable, Collection.Sweep, Collection.Reclaim;
      eligible := ListEligible(Value(), before);
      var retained := Retention.ComputeProtected(Value(), after);
      var reachable := ComputeReachable(checkpoints, retained);
      var list := gc.reclaimable;
      SweepAll(eligible);
      ReclaimAll(reachable, list, f);
      gc := gc.(phase := GC_COMPLETE, reachable := {}, reclaimable := []);
    }

    // ----- Authority -----

    method SetAuthorityBoot(boot: Id)
      modifies this`bootId
      ensures Value() == old(Value()).(bootId := boot)
    {
      bootId := boot;
    }

    method ResetRecords()
      modifies this`checkpoints
      ensures checkpoints == Runs.ResetRecords(old(checkpoints))
    {
      hide Runs.Reset;
      ghost var was := checkpoints;
      var todo := checkpoints.Keys;
      while todo != {}
        invariant todo <= checkpoints.Keys == was.Keys
        invariant forall id :: id in was ==> checkpoints[id] == if id in todo then was[id] else Runs.Reset(was[id])
        decreases todo
      {
        var id :| id in todo;
        checkpoints, todo := checkpoints[id := Runs.Reset(checkpoints[id])], todo - {id};
      }
    }

    method ResetBlobs()
      modifies this`blobs
      ensures blobs == Runs.ResetBlobs(old(blobs))
    {
      hide Runs.ResetBlob;
      ghost var was := blobs;
      var todo := blobs.Keys;
      while todo != {}
        invariant todo <= blobs.Keys == was.Keys
        invariant forall b :: b in was ==> blobs[b] == if b in todo then was[b] else Runs.ResetBlob(was[b])
        decreases todo
      {
        var b :| b in todo;
        blobs, todo := blobs[b := Runs.ResetBlob(blobs[b])], todo - {b};
      }
    }

    method ResetAuthority()
      modifies this`checkpoints, this`blobs, this`gc
      ensures Value() == Runs.AuthorityReset(old(Value()))
    {
      hide Runs.ResetRecords, Runs.ResetBlobs;
      ResetRecords();
      ResetBlobs();
      gc := gc.(phase := GC_IDLE);
    }

    // ----- Restore and verification -----

    /** Tries the candidates in order; one that serves wrong bytes is quarantined. */
    method FetchChunk(id: Id, d: Digest, cand: seq<Id>, e: nat, f: Faults) returns (got: Option<Bytes>)
      requires id in checkpoints
      modifies this`replicas, this`checkpoints
      ensures (Value(), got) == Recovery.FetchChunk(old(Value()), id, d, cand, 0, e, f)
    {
      hide BlobKey, Recovery.Quarantine;
      ghost var s := Value();
      var k := 0;
      while k < |cand|
        invariant k <= |cand| && id in checkpoints
        invariant Recovery.FetchChunk(s, id, d, cand, 0, e, f) == Recovery.FetchChunk(Value(), id, d, cand, k, e, f)
      {
        if Recovery.Reachable(Value(), cand[k]) {
          var rb := backend.Read(BlobKey(d), f.read(e, k));
          if rb.Ok? {
            if cfg.hash(rb.value) == d {
              return Some(rb.value);
            }
            QuarantineReplica(id, cand[k]);
          }
        }
        k := k + 1;
      }
      return None;
    }

    method QuarantineReplica(id: Id, rid: Id)
      requires id in checkpoints && rid in replicas
      modifies this`replicas, this`checkpoints
      ensures Value() == Recovery.Quarantine(old(Value()), id, rid) && id in checkpoints
    {
      if replicas[rid].integrity == INTEGRITY_VERIFIED {
        replicas := replicas[rid := replicas[rid].(integrity := INTEGRITY_CORRUPT, role := ROLE_QUARANTINED)];
        var r := checkpoints[id];
        checkpoints := checkpoints[id := r.(replicaSet := r.replicaSet.(durabilityState := DURABILITY_DEGRADED))];
      }
    }

    method MarkIntegrity(id: Id, integrity: Byte)
      requires id in checkpoints
      modifies this`checkpoints
      ensures Value() == Recovery.SetIntegrity(old(Value()), id, integrity)
    {
      checkpoints := checkpoints[id := checkpoints[id].(integrity := integrity)];
    }

    /** The bytes of the n-th manifest entry appended, or the error thrown. */
    method FetchEntry(id: Id, n: nat, out: Bytes, f: Faults) returns (more: Bytes, error: Option<Error>)
      requires id in checkpoints && n < |checkpoints[id].manifest.chunks|
      modifies this`replicas, this`checkpoints
      ensures Recovery.Assembly(Value(), more, error) ==
              Recovery.FetchEntry(Recovery.Assembly(old(Value()), out, None), id, n, f)
      ensures id in checkpoints
    {
      hide Recovery.FindChunk, Recovery.Candidates, Recovery.FetchChunk, Recovery.SetIntegrity;
      var r := checkpoints[id];
      var c := Recovery.FindChunk(r.chunks, r.manifest.chunks[n].chunkId);
      if c.None? {
        return out, Some(Malformed);
      }
      var got := FetchChunk(id, c.value.digest, Recovery.Candidates(Value(), r, c.value), n, f);
      if got.None? {
        MarkIntegrity(id, INTEGRITY_CORRUPT);
        return out, Some(Error.Corrupt);
      }
      return out + got.value, None;
    }

    /** The loop over the manifest: the bytes joined, or the error at the first entry that fails. */
    method AssembleEntries(id: Id, f: Faults) returns (out: Bytes, error: Option<Error>)
      requires id in checkpoints
      modifies this`replicas, this`checkpoints
      ensures Recovery.Assembly(Value(), out, error)
              == Recovery.Assemble(old(Value()), id, |old(checkpoints)[id].manifest.chunks|, f)
      ensures id in checkpoints
    {
      hide Recovery.FetchEntry, RestoreCorrectness.OnlyHealth;
      ghost var s := Value();
      var n, total := 0, |checkpoints[id].manifest.chunks|;
      out, error := [], None;
      while n < total && error.None?
        invariant n <= total && id in checkpoints
        invariant Recovery.Assembly(Value(), out, error) == Recovery.Assemble(s, id, n, f)
      {
        RestoreCorrectness.AssembleHealth(s, id, n, f);
        RestoreCorrectness.HealthKeys(s, Value());
        out, error := FetchEntry(id, n, out, f);
        n := n + 1;
      }
      if error.Some? {
        AssembleStops(s, id, n, total, f);
      }
    }

    method Restore(id: Id, f: Faults) returns (r: Result<Bytes, Error>)
      modifies this`replicas, this`checkpoints
      ensures (Value(), r) == Recovery.Restore(old(Value()), id, f)
    {
      hide Recovery.Assemble, Recovery.SetIntegrity;
      if id !in checkpoints || !Live(checkpoints[id]) {
        return Err(NotFound);
      }
      var out, error := AssembleEntries(id, f);
      if error.Some? {
        return Err(error.value);
      }
      if cfg.hash(out) != checkpoints[id].manifest.checkpointDigest {
        MarkIntegrity(id, INTEGRITY_CORRUPT);
        return Err(DigestMismatch);
      }
      MarkIntegrity(id, INTEGRITY_VERIFIED);
      return Ok(out);
    }

    /** Whether some replica of the record is on a registered backend. */
    method HasBackend(ids: seq<Id>) returns (found: bool)
      ensures found <==> exists k :: 0 <= k < |ids| && Recovery.Reachable(Value(), ids[k])
    {
      for k := 0 to |ids|
        invariant forall j :: 0 <= j < k ==> !Recovery.Reachable(Value(), ids[j])
      {
        if Recovery.Reachable(Value(), ids[k]) {
          return true;
        }
      }
      return false;
    }

    /** Walks the chunk records: the joined bytes, the state found, or the error thrown. */
    method Scan(chunks: seq<Chunk>, f: Faults) returns (r: Recovery.Scan)
      ensures r == Recovery.ScanChunks(Value(), chunks, |chunks|, f)
    {
      hide BlobKey;
      var joined: Bytes := [];
      for n := 0 to |chunks|
        invariant Recovery.ScanChunks(Value(), chunks, n, f) == Recovery.Joined(joined)
      {
        var key := BlobKey(chunks[n].digest);
        r := Recovery.Found(INTEGRITY_MISSING);
        if key in backend.objects {
          var v := backend.Verify(cfg.hash, key, chunks[n].digest, f.verify(n));
          var rb := backend.Read(key, f.read(n, 0));
          r := if v == INTEGRITY_CORRUPT || v == INTEGRITY_MISSING then Recovery.Found(INTEGRITY_CORRUPT)
               else if rb.Err? then Recovery.Threw(rb.error) else Recovery.Joined(joined + rb.value);
        }
        assert Recovery.ScanChunks(Value(), chunks, n + 1, f) == r;
        if !r.Joined? {
          ScanStops(Value(), chunks, n + 1, |chunks|, f);
          return;
        }
        joined := r.bytes;
      }
      return Recovery.Joined(joined);
    }

    method VerifyCheckpoint(id: Id, f: Faults) returns (r: Result<Byte, Error>)
      modifies this`checkpoints
      ensures (Value(), r) == Recovery.VerifyCheckpoint(old(Value()), id, f)
    {
      hide Recovery.ScanChunks, Recovery.SetIntegrity, Recovery.Reachable;
      if id !in checkpoints {
        return Err(NotFound);
      }
      var record := checkpoints[id];
      var found := HasBackend(record.replicaSet.replicas);
      var v := INTEGRITY_MISSING;
      if found {
        var scan := Scan(record.chunks, f);
        match scan {
          case Threw(e) =>
            return Err(e);
          case Found(seen) =>
            v := seen;
          case Joined(bytes) =>
            v := if cfg.hash(bytes) == record.manifest.checkpointDigest then INTEGRITY_VERIFIED else INTEGRITY_CORRUPT;
        }
      }
      MarkIntegrity(id, v);
      return Ok(v);
    }

    // ----- Persistence -----

    method SaveState() returns (raw: Bytes)
      ensures raw == Persistence.Save(Value())
    {
      raw := Persistence.SaveState(Value());
    }

    /** A file whose frame is refused changes nothing. */
    method LoadState(raw: Bytes) returns (error: Option<Error>)
      modifies this, dedup
      ensures match Persistence.Load(old(Value()), raw)
        case Ok(t) => error == None && Value() == t
        case Err(e) => error == Some(e) && (Persistence.Unframe(cfg.hash, raw).Err? ==> Value() == old(Value()))
    {
      hide Persistence.Unframe, Persistence.GetTables, Persistence.NextAll, Persistence.RaiseBy,
           Persistence.StartFamilies;
      var loaded := Persistence.Load(Value(), raw);
      if loaded.Err? {
        return Some(loaded.error);
      }
      Adopt(loaded.value);
      return None;
    }

    method Adopt(t: State)
      requires t.cfg == cfg && t.registered == registered && t.storage.backend == backend.View()
      requires t.nextFamilyId == nextFamilyId
      modifies this, dedup
      ensures Value() == t
    {
      AdoptRecords(t);
      AdoptCounters(t);
      dedup.entries := t.storage.dedup;
    }

    method AdoptRecords(t: State)
      modifies this`families, this`checkpoints, this`blobs, this`replicas, this`placements, this`retention
      ensures families == t.families && checkpoints == t.checkpoints && blobs == t.blobs
      ensures replicas == t.replicas && placements == t.placements && retention == t.retention
    {
      families, checkpoints, blobs := t.families, t.checkpoints, t.blobs;
      replicas, placements, retention := t.replicas, t.placements, t.retention;
    }

    method AdoptCounters(t: State)
      modifies this`bootId, this`epoch, this`nextId, this`counters, this`nextGeneration, this`gc
      ensures bootId == t.bootId && epoch == t.epoch && nextId == t.nextId && counters == t.counters
      ensures nextGeneration == t.nextGeneration && gc == t.gc
    {
      bootId, epoch, nextId, counters := t.bootId, t.epoch, t.nextId, t.counters;
      nextGeneration, gc := t.nextGeneration, t.gc;
    }
  }

  // ----- States compared field by field -----

  ghost predicate OthersSame(s: State, t: State)
  {
    t.cfg == s.cfg && t.bootId == s.bootId && t.epoch == s.epoch && t.registered == s.registered
      && t.storage == s.storage
    && t.retention == s.retention && t.nextFamilyId == s.nextFamilyId && t.gc == s.gc && t.counters == s.counters
  }

  lemma CommitValue(s: State, t: State, d: Descriptor, draft: Draft, size: nat, digest: Digest, replica: Id)
    requires OthersSame(s, t) && t.blobs == s.blobs && t.placements == s.placements && t.nextId == s.nextId + 1
    requires t.replicas == if replica in s.replicas then s.replicas
             else s.replicas[replica := NewReplica(s, replica, draft.written)]
    requires t.checkpoints == if d.id in s.checkpoints then s.checkpoints
                              else s.checkpoints[d.id := NewRecord(d, NewManifest(s, d, draft, size, digest),
                                                                   draft.chunks, replica)]
    requires t.families == if d.familyId !in s.families then s.families else
               s.families[d.familyId := s.families[d.familyId].(checkpointIds := s.families[d.familyId].checkpointIds
                                                                + [d.id])]
    requires t.nextGeneration == s.nextGeneration[d.familyId := d.generation + 1]
    ensures t == CommitRecord(s, d, draft, size, digest, replica)
  {
    hide NewManifest, NewRecord, NewReplica;
  }

  lemma NoteValue(s: State, t: State, draft: Draft, slice: Slice, blobId: Id, replica: Id)
    requires OthersSame(s, t) && t.replicas == s.replicas && t.checkpoints == s.checkpoints && t.families == s.families
    requires t.nextGeneration == s.nextGeneration && t.nextId == s.nextId + 1
    requires t.blobs == NoteBlob(s.blobs, blobId, slice.digest, |slice.bytes|, Refs(s.storage.dedup, slice.digest),
                                 replica)
    requires t.placements == if s.nextId in s.placements then s.placements
                             else s.placements[s.nextId := NewPlacement(s, s.nextId, replica, |slice.bytes|)]
    ensures var chunk := NewChunk(slice, blobId, s.nextId);
      Note(s, draft, slice, blobId, replica) ==
        Progress(t, draft.(chunks := draft.chunks + [chunk],
                           entries := draft.entries + [ManifestEntry(chunk.id, slice.offset)],
                           sizes := if chunk.id in draft.sizes then draft.sizes
                             else draft.sizes[chunk.id := |slice.bytes|]), None)
  {
    hide NoteBlob, NewChunk, NewPlacement;
  }

  lemma {:induction false} StepsStop(s: State, slices: seq<Slice>, n: nat, m: nat, replica: Id, f: Faults)
    requires n <= m <= |slices| && (n == m || Steps(s, slices, n, replica, f).error.Some?)
    ensures Steps(s, slices, m, replica, f) == Steps(s, slices, n, replica, f)
  {
    hide Acquire, Note;
    if n < m {
      StepsStop(s, slices, n, m - 1, replica, f);
    }
  }

  lemma {:induction false} ReadBackStops(hash: Bytes -> Digest, st: Storage, chunks: seq<Chunk>, n: nat, m: nat,
                                         f: Faults)
    requires n <= m <= |chunks| && ReadBack(hash, st, chunks, n, f).Err?
    ensures ReadBack(hash, st, chunks, m, f) == ReadBack(hash, st, chunks, n, f)
  {
    hide ReadObject;
    if n < m {
      ReadBackStops(hash, st, chunks, n, m - 1, f);
    }
  }

  lemma {:induction false} AssembleStops(s: State, id: Id, n: nat, m: nat, f: Faults)
    requires id in s.checkpoints && n <= m <= |s.checkpoints[id].manifest.chunks|
    requires Recovery.Assemble(s, id, n, f).error.Some?
    ensures Recovery.Assemble(s, id, m, f) == Recovery.Assemble(s, id, n, f)
  {
    hide Recovery.FetchEntry;
    if n < m {
      AssembleStops(s, id, n, m - 1, f);
    }
  }

  lemma {:induction false} ScanStops(s: State, chunks: seq<Chunk>, n: nat, m: nat, f: Faults)
    requires n <= m <= |chunks| && !Recovery.ScanChunks(s, chunks, n, f).Joined?
    ensures Recovery.ScanChunks(s, chunks, m, f) == Recovery.ScanChunks(s, chunks, n, f)
  {
    hide BlobKey, ReadObject, Backend.VerifyObject;
    if n < m {
      ScanStops(s, chunks, n, m - 1, f);
    }
  }

  lemma RemoveAbsent(b: Backend.Store, key: string)
    ensures key !in b.objects ==> Backend.Remove(b, key) == b
  {
    assert key !in b.objects ==> b.objects - {key} == b.objects;
  }

  lemma SlicesNonempty(hash: Bytes -> Digest, data: Bytes, size: nat)
    requires size > 0
    ensures forall slice <- Slices(hash, data, size) :: slice.bytes != []
  {
    hide SlicesFrom;
    SlicesTile(hash, data, size, 0);
    var slices := Slices(hash, data, size);
    forall slice <- slices ensures slice.bytes != [] {
      var i :| 0 <= i < |slices| && slices[i] == slice;
      assert TileAt(hash, data, size, slices, i);
    }
  }
}

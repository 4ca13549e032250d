/** A collection in a fault-free run leaves nothing behind that no protected checkpoint refers to. */
module Completeness {
  import opened Basics
  import opened Model
  import opened Chunking
  import opened Dedup
  import opened StoreState
  import opened Invariant
  import opened Publication
  import opened Collection
  import opened CollectionSafety
  import opened CollectionGuards
  import opened RestoreCorrectness
  import opened Exactness
  import opened Sums
  import Runs
  import Retention
  import Recovery
  import Persistence
  import Backend

  // ----- Objects, entries and blob records belong together -----

  ghost predicate ObjectsKnown(st: Storage)
  {
    forall k :: k in st.backend.objects ==> exists d :: d in st.dedup && k == BlobKey(d)
  }

  ghost predicate EntriesRecorded(t: Table, blobs: map<Id, Blob>)
  {
    forall d :: d in t ==> t[d].blobId == PrefixId(d) && PrefixId(d) in blobs
  }

  /** The replica is recorded on the primary backend, or is the one being written. */
  ghost predicate ReplicaOk(primary: Id, replicas: map<Id, Replica>, writing: Option<Id>, r: Id)
  {
    writing == Some(r) || (r in replicas && replicas[r].backendId == primary)
  }

  ghost predicate BlobKnown(primary: Id, replicas: map<Id, Replica>, writing: Option<Id>, t: Table, b: Blob)
  {
    b.digest in t && b.replicas != [] && forall r <- b.replicas :: ReplicaOk(primary, replicas, writing, r)
  }

  ghost predicate BlobsKnown(s: State, writing: Option<Id>)
  {
    forall b :: b in s.blobs ==> BlobKnown(s.cfg.primary, s.replicas, writing, s.storage.dedup, s.blobs[b])
  }

  /** Every object has its entry, every entry its blob record, every blob record its entry and replicas. */
  ghost predicate Tidy(s: State, writing: Option<Id>)
  {
    ObjectsKnown(s.storage) && EntriesRecorded(s.storage.dedup, s.blobs) && BlobsKnown(s, writing)
  }

  // ----- The loop over the slices -----

  /** The storage after one slice has obtained its reference. */
  ghost predicate Gained(st: Storage, t: Storage, d: Digest)
  {
    && d in t.dedup && t.dedup[d].blobId == PrefixId(d)
    && (forall e :: e in t.dedup <==> e in st.dedup || e == d)
    && (forall e :: e in st.dedup && e != d ==> t.dedup[e] == st.dedup[e])
    && (forall k :: k in t.backend.objects ==> k in st.backend.objects || k == BlobKey(d))
  }

  lemma AcquireGains(hash: Bytes -> Digest, st: Storage, slice: Slice, i: nat, f: Faults)
    requires AllIntact(hash, st) && Steady(f) && slice.digest == hash(slice.bytes) && slice.bytes != []
    requires forall d :: d in st.dedup ==> st.dedup[d].blobId == PrefixId(d)
    ensures var q := Acquire(hash, st, slice, i, f); !q.Refused? ==> Gained(st, q.st, slice.digest)
  {
    hide Intact, BlobKey, PrefixId;
    AcquireExact(hash, st, slice, i, f);
    WroteObjects(hash, st, slice, i, f);
  }

  lemma WroteObjects(hash: Bytes -> Digest, st: Storage, slice: Slice, i: nat, f: Faults)
    ensures var q := Acquire(hash, st, slice, i, f);
      q.Wrote? ==> forall k :: k in q.st.backend.objects ==> k in st.backend.objects || k == BlobKey(slice.digest)
  {
    hide BlobKey, PrefixId, Inserted, Backend.Holds;
  }

  lemma GainedObjects(st: Storage, t: Storage, d: Digest)
    requires ObjectsKnown(st) && Gained(st, t, d)
    ensures ObjectsKnown(t)
  {
    hide BlobKey, PrefixId;
    forall k | k in t.backend.objects ensures exists e :: e in t.dedup && k == BlobKey(e) {
      if k in st.backend.objects {
        var e :| e in st.dedup && k == BlobKey(e);
        assert e in t.dedup;
      }
    }
  }

  /** Recording the slice gives the digest a blob record that names the replica. */
  lemma NoteTidy(s: State, st: Storage, draft: Draft, slice: Slice, replica: Id)
    requires Tidy(s, Some(replica)) && Gained(s.storage, st, slice.digest)
    ensures Tidy(Note(s.(storage := st), draft, slice, PrefixId(slice.digest), replica).s, Some(replica))
  {
    hide PrefixId, BlobKey, NewChunk, Refs, ObjectsKnown;
    GainedObjects(s.storage, st, slice.digest);
    var t := Note(s.(storage := st), draft, slice, PrefixId(slice.digest), replica).s;
    assert t.storage == st && t.cfg == s.cfg && t.replicas == s.replicas;
    var b := PrefixId(slice.digest);
    assert t.blobs == NoteBlob(s.blobs, b, slice.digest, |slice.bytes|, Refs(st.dedup, slice.digest), replica);
    NotedBlobs(s, st, slice, Refs(st.dedup, slice.digest), replica);
  }

  lemma NotedBlobs(s: State, st: Storage, slice: Slice, refs: nat, replica: Id)
    requires EntriesRecorded(s.storage.dedup, s.blobs) && BlobsKnown(s, Some(replica))
    requires Gained(s.storage, st, slice.digest)
    ensures var blobs := NoteBlob(s.blobs, PrefixId(slice.digest), slice.digest, |slice.bytes|, refs, replica);
      && EntriesRecorded(st.dedup, blobs)
      && forall b :: b in blobs ==> BlobKnown(s.cfg.primary, s.replicas, Some(replica), st.dedup, blobs[b])
  {
    hide PrefixId, BlobKey, BlobKnown;
    var blobs := NoteBlob(s.blobs, PrefixId(slice.digest), slice.digest, |slice.bytes|, refs, replica);
    forall b | b in blobs ensures BlobKnown(s.cfg.primary, s.replicas, Some(replica), st.dedup, blobs[b]) {
      if b in s.blobs {
        StillKnown(s.cfg.primary, s.replicas, replica, s.storage.dedup, st.dedup, s.blobs[b]);
      } else {
        NewlyKnown(s.cfg.primary, s.replicas, replica, st.dedup, blobs[b]);
      }
    }
  }

  lemma StillKnown(primary: Id, replicas: map<Id, Replica>, replica: Id, t: Table, u: Table, b: Blob)
    requires BlobKnown(primary, replicas, Some(replica), t, b) && forall d :: d in t ==> d in u
    ensures BlobKnown(primary, replicas, Some(replica), u, b)
    ensures BlobKnown(primary, replicas, Some(replica), u, b.(replicas := b.replicas + [replica]))
  {
  }

  lemma NewlyKnown(primary: Id, replicas: map<Id, Replica>, replica: Id, t: Table, b: Blob)
    requires b.digest in t && b.replicas == [replica]
    ensures BlobKnown(primary, replicas, Some(replica), t, b)
  {
  }

  lemma StepTidy(p: Progress, slice: Slice, i: nat, replica: Id, f: Faults)
    requires p.error.None? ==> Tidy(p.s, Some(replica)) && AllIntact(p.s.cfg.hash, p.s.storage)
    requires Steady(f) && slice.digest == p.s.cfg.hash(slice.bytes) && slice.bytes != []
    ensures var q := StoreState.Step(p, slice, i, replica, f); q.error.None? ==> Tidy(q.s, Some(replica))
  {
    hide Tidy, Acquire, Note, PrefixId, AllIntact, Steady, Gained;
    if p.error.None? {
      var st, draft, d := p.s.storage, p.draft, slice.digest;
      TidyIds(p.s, Some(replica));
      AcquireGains(p.s.cfg.hash, st, slice, i, f);
      match Acquire(p.s.cfg.hash, st, slice, i, f)
      case Refused(_, _) =>
      case Shared(t) =>
        GainedId(st, t, d);
        NoteTidy(p.s, t, draft.(hits := draft.hits + 1), slice, replica);
      case Wrote(t) =>
        NoteTidy(p.s, t, draft.(misses := draft.misses + 1, written := draft.written + |slice.bytes|,
                                wrote := draft.wrote + [d]),
                 slice, replica);
    }
  }

  lemma TidyIds(s: State, writing: Option<Id>)
    requires Tidy(s, writing)
    ensures forall d :: d in s.storage.dedup ==> s.storage.dedup[d].blobId == PrefixId(d)
  {
    hide PrefixId, ObjectsKnown, BlobsKnown;
  }

  lemma GainedId(st: Storage, t: Storage, d: Digest)
    requires Gained(st, t, d)
    ensures d in t.dedup && t.dedup[d].blobId == PrefixId(d)
  {
  }

  lemma {:induction false} StepsTidy(s: State, slices: seq<Slice>, n: nat, replica: Id, f: Faults)
    requires Tidy(s, Some(replica)) && AllIntact(s.cfg.hash, s.storage) && Steady(f) && Sliced(s.cfg.hash, slices)
    requires n <= |slices|
    ensures var p := Steps(s, slices, n, replica, f); p.error.None? ==> Tidy(p.s, Some(replica))
  {
    hide Tidy, StoreState.Step, AllIntact, Steady;
    if n > 0 {
      var p := Steps(s, slices, n - 1, replica, f);
      StepsTidy(s, slices, n - 1, replica, f);
      StepsTallied(s, slices, n - 1, replica, f);
      Runs.StepsFrame(s, slices, n - 1, replica, f);
      if p.error.None? {
        TalliedIntact(s.cfg.hash, s.storage, p.s.storage, slices, n - 1, p.draft.written);
      }
      StepTidy(p, slices[n - 1], n - 1, replica, f);
    }
  }

  /** Blob records stay known when what their replicas refer to does. */
  lemma TidySwap(s: State, writing: Option<Id>, t: State, after: Option<Id>)
    requires Tidy(s, writing) && t.storage == s.storage && t.blobs == s.blobs && t.cfg == s.cfg
    requires forall r :: ReplicaOk(s.cfg.primary, s.replicas, writing, r) ==>
             ReplicaOk(t.cfg.primary, t.replicas, after, r)
    ensures Tidy(t, after)
  {
    hide PrefixId, ObjectsKnown;
    forall b | b in t.blobs ensures BlobKnown(t.cfg.primary, t.replicas, after, t.storage.dedup, t.blobs[b]) {
      assert BlobKnown(s.cfg.primary, s.replicas, writing, s.storage.dedup, s.blobs[b]);
    }
  }

  /** Committing records the replica that was being written. */
  lemma CommitTidy(s: State, d: Descriptor, draft: Draft, size: nat, digest: Digest, replica: Id)
    requires Tidy(s, Some(replica)) && replica !in s.replicas
    ensures Tidy(CommitRecord(s, d, draft, size, digest, replica), None)
  {
    hide Tidy, NewManifest, NewRecord;
    TidySwap(s, Some(replica), CommitRecord(s, d, draft, size, digest, replica), None);
  }

  lemma TidyWriting(s: State, replica: Id)
    requires Tidy(s, None)
    ensures Tidy(s.(nextId := s.nextId + 1), Some(replica))
  {
    hide Tidy;
    TidySwap(s, None, s.(nextId := s.nextId + 1), Some(replica));
  }

  lemma PublishTidy(s: State, d: Descriptor, data: Bytes, f: Faults)
    requires Safe(s) && LedgerOf(s) && Tidy(s, None) && Steady(f) && StoreState.Publish(s, d, data, f).1.Ok?
    ensures Tidy(StoreState.Publish(s, d, data, f).0, None)
  {
    hide Sound, RecordsOk, BlobsOk, ContentsOk, Tidy, Steady, StoreState.Publish, Steps, Confirm, CommitRecord,
         AllIntact, Counted, RecordsSized, ReferencedBytes, LiveBytes, Slices;
    ReceiptMeans(s, d, data, f);
    var p, slices := PublishSteps(s, data, f), Slices(s.cfg.hash, data, s.cfg.chunkSize);
    SlicesAreSliced(s.cfg.hash, data, s.cfg.chunkSize);
    TidyWriting(s, s.nextId);
    StepsTidy(s.(nextId := s.nextId + 1), slices, |slices|, s.nextId, f);
    Runs.StepsFrame(s.(nextId := s.nextId + 1), slices, |slices|, s.nextId, f);
    CommitTidy(p.s, d, p.draft, |data|, Confirm(p.s, p.draft, data, f).value, s.nextId);
  }

  // ----- Collecting -----

  /** Blob ids tell the entries of the table apart. */
  ghost predicate PrefixInjective(t: Table)
  {
    forall d, e :: d in t && e in t && PrefixId(d) == PrefixId(e) ==> d == e
  }

  ghost predicate Removes(f: Faults)
  {
    forall b, n :: f.remove(b, n)
  }

  /** All that reclaiming relies on. */
  ghost predicate InOrder(s: State)
  {
    Safe(s) && LedgerOf(s) && Tidy(s, None) && s.registered && PrefixInjective(s.storage.dedup)
  }

  lemma {:induction false} RemoveFromAll(s: State, key: string, replicas: seq<Id>, b: nat, f: Faults)
    requires s.registered && Removes(f) && replicas != [] && key in s.storage.backend.objects
    requires forall r <- replicas :: ReplicaOk(s.cfg.primary, s.replicas, None, r)
    ensures RemoveFrom(s, key, replicas, b, f) == (Backend.Remove(s.storage.backend, key), true)
  {
    var n := |replicas| - 1;
    assert ReplicaOk(s.cfg.primary, s.replicas, None, replicas[n]);
    if n > 0 {
      forall r <- replicas[..n] ensures ReplicaOk(s.cfg.primary, s.replicas, None, r) { assert r in replicas; }
      RemoveFromAll(s, key, replicas[..n], b, f);
    }
  }

  ghost predicate Reclaims(s: State, reachable: set<Id>, bid: Id)
  {
    bid !in reachable && bid in s.blobs && Refs(s.storage.dedup, s.blobs[bid].digest) == 0
  }

  lemma ReclaimedOne(s: State, reachable: set<Id>, bid: Id, b: nat, f: Faults)
    requires Safe(s) && LedgerOf(s) && Tidy(s, None) && s.registered && Removes(f) && Reclaims(s, reachable, bid)
    ensures var d := s.blobs[bid].digest;
      ReclaimOne(s, reachable, bid, b, f) ==
        s.(storage := Storage(Backend.Remove(s.storage.backend, BlobKey(d)), s.storage.dedup - {d}),
           blobs := s.blobs - {bid})
  {
    hide Sound, RecordsOk, ContentsOk, IdsBelow, Counted, RecordsSized, ReferencedBytes, LiveBytes, PrefixId, BlobKey,
         ObjectsKnown, EntriesRecorded, Removes;
    var blob := s.blobs[bid];
    assert BlobKnown(s.cfg.primary, s.replicas, None, s.storage.dedup, blob);
    assert Intact(s.cfg.hash, s.storage, blob.digest);
    RemoveFromAll(s, BlobKey(blob.digest), blob.replicas, b, f);
  }

  lemma {:induction false} RemovedExactly(s: State, key: string, replicas: seq<Id>, b: nat, f: Faults)
    requires s.registered && key in s.storage.backend.objects
    requires forall r <- replicas :: ReplicaOk(s.cfg.primary, s.replicas, None, r)
    ensures var (store, removed) := RemoveFrom(s, key, replicas, b, f);
      && (removed <==> exists n :: 0 <= n < |replicas| && f.remove(b, n))
      && (!removed ==> store == s.storage.backend)
  {
    if replicas != [] {
      var n := |replicas| - 1;
      assert ReplicaOk(s.cfg.primary, s.replicas, None, replicas[n]);
      forall r <- replicas[..n] ensures ReplicaOk(s.cfg.primary, s.replicas, None, r) { assert r in replicas; }
      RemovedExactly(s, key, replicas[..n], b, f);
    }
  }

  /**
   A candidate that is reclaimed loses its blob record in any case. Its entry, and with it the
   object, goes if and only if the removal from some replica goes through.
   */
  lemma ReclaimedExactly(s: State, reachable: set<Id>, bid: Id, b: nat, f: Faults)
    requires Safe(s) && LedgerOf(s) && Tidy(s, None) && s.registered && Reclaims(s, reachable, bid)
    ensures var t, d := ReclaimOne(s, reachable, bid, b, f), s.blobs[bid].digest;
      && bid !in t.blobs
      && (d !in t.storage.dedup <==> exists n :: 0 <= n < |s.blobs[bid].replicas| && f.remove(b, n))
      && (d in t.storage.dedup ==> t.storage == s.storage)
  {
    hide Sound, RecordsOk, ContentsOk, IdsBelow, Counted, RecordsSized, ReferencedBytes, LiveBytes, PrefixId, BlobKey,
         ObjectsKnown, EntriesRecorded, RemoveFrom;
    var blob := s.blobs[bid];
    assert BlobKnown(s.cfg.primary, s.replicas, None, s.storage.dedup, blob);
    assert Intact(s.cfg.hash, s.storage, blob.digest);
    RemovedExactly(s, BlobKey(blob.digest), blob.replicas, b, f);
  }

  lemma ReclaimOneTidy(s: State, reachable: set<Id>, bid: Id, b: nat, f: Faults)
    requires InOrder(s) && Removes(f)
    ensures Tidy(ReclaimOne(s, reachable, bid, b, f), None)
  {
    hide Safe, Ledger, Tidy, ReclaimOne, Removes;
    if Reclaims(s, reachable, bid) {
      ReclaimedOne(s, reachable, bid, b, f);
      forall b | b in s.blobs ensures PrefixId(s.blobs[b].digest) == b { SafeBlob(s, b); }
      TidyWithout(s, bid);
    } else {
      Skipped(s, reachable, bid, b, f);
    }
  }

  lemma Skipped(s: State, reachable: set<Id>, bid: Id, b: nat, f: Faults)
    requires !Reclaims(s, reachable, bid)
    ensures ReclaimOne(s, reachable, bid, b, f) == s
  {
  }

  lemma SafeBlob(s: State, bid: Id)
    requires Safe(s) && bid in s.blobs
    ensures PrefixId(s.blobs[bid].digest) == bid
  {
    hide Sound, RecordsOk, ContentsOk, PrefixId;
  }

  lemma TidyWithout(s: State, bid: Id)
    requires Tidy(s, None) && PrefixInjective(s.storage.dedup) && bid in s.blobs
    requires forall b :: b in s.blobs ==> PrefixId(s.blobs[b].digest) == b
    ensures var d := s.blobs[bid].digest;
      Tidy(s.(storage := Storage(Backend.Remove(s.storage.backend, BlobKey(d)), s.storage.dedup - {d}),
              blobs := s.blobs - {bid}),
           None)
  {
    hide PrefixId, BlobKey, ObjectsKnown, BlobKnown;
    var d := s.blobs[bid].digest;
    var t := s.(storage := Storage(Backend.Remove(s.storage.backend, BlobKey(d)), s.storage.dedup - {d}),
                blobs := s.blobs - {bid});
    KnownDigest(s, bid);
    ObjectsWithout(s.storage, d);
    forall b | b in t.blobs ensures BlobKnown(t.cfg.primary, t.replicas, None, t.storage.dedup, t.blobs[b]) {
      KnownDigest(s, b);
      KnownWithout(s.cfg.primary, s.replicas, s.storage.dedup, s.blobs[b], d);
    }
  }

  lemma KnownDigest(s: State, b: Id)
    requires BlobsKnown(s, None) && b in s.blobs
    ensures s.blobs[b].digest in s.storage.dedup
    ensures BlobKnown(s.cfg.primary, s.replicas, None, s.storage.dedup, s.blobs[b])
  {
  }

  lemma KnownWithout(primary: Id, replicas: map<Id, Replica>, t: Table, b: Blob, d: Digest)
    requires BlobKnown(primary, replicas, None, t, b) && b.digest != d
    ensures BlobKnown(primary, replicas, None, t - {d}, b)
  {
  }

  lemma ObjectsWithout(st: Storage, d: Digest)
    requires ObjectsKnown(st)
    ensures ObjectsKnown(Storage(Backend.Remove(st.backend, BlobKey(d)), st.dedup - {d}))
  {
    hide BlobKey;
    var t := Storage(Backend.Remove(st.backend, BlobKey(d)), st.dedup - {d});
    forall k | k in t.backend.objects ensures exists e :: e in t.dedup && k == BlobKey(e) {
      var e :| e in st.dedup && k == BlobKey(e);
      assert e in t.dedup;
    }
  }

  /** Reclaiming only takes entries away. */
  ghost predicate Shrinks(t: Table, u: Table)
  {
    forall d :: d in u ==> d in t && u[d] == t[d]
  }

  lemma ReclaimOneShrinks(s: State, reachable: set<Id>, bid: Id, b: nat, f: Faults)
    ensures Shrinks(s.storage.dedup, ReclaimOne(s, reachable, bid, b, f).storage.dedup)
  {
    hide RemoveFrom, BlobKey;
  }

  lemma ReclaimOneInOrder(s: State, reachable: set<Id>, bid: Id, b: nat, f: Faults)
    requires InOrder(s) && Removes(f)
    ensures InOrder(ReclaimOne(s, reachable, bid, b, f))
  {
    hide Safe, Ledger, Tidy, Removes, PrefixId, RemoveFrom, BlobKey;
    ReclaimOneTidy(s, reachable, bid, b, f);
    ReclaimOneKeeps(s, reachable, bid, b, f);
    ReclaimOneLedger(s, reachable, bid, b, f);
    ReclaimOneShrinks(s, reachable, bid, b, f);
  }

  lemma {:induction false} ReclaimInOrder(s: State, reachable: set<Id>, list: seq<Id>, f: Faults)
    requires InOrder(s) && Removes(f)
    ensures var t := Reclaim(s, reachable, list, f); InOrder(t) && Shrinks(s.storage.dedup, t.storage.dedup)
  {
    hide InOrder, ReclaimOne, Removes;
    if list != [] {
      var n := |list| - 1;
      var t := Reclaim(s, reachable, list[..n], f);
      ReclaimInOrder(s, reachable, list[..n], f);
      ReclaimOneInOrder(t, reachable, list[n], n, f);
      ReclaimOneShrinks(t, reachable, list[n], n, f);
    }
  }

  /** The candidate of an unreferenced entry takes the entry with it. */
  lemma ReclaimOneDrops(s: State, reachable: set<Id>, b: nat, f: Faults, d: Digest)
    requires InOrder(s) && Removes(f) && Refs(s.storage.dedup, d) == 0 && PrefixId(d) !in reachable
    ensures d !in ReclaimOne(s, reachable, PrefixId(d), b, f).storage.dedup
  {
    hide Safe, Ledger, Removes, PrefixId, ReclaimOne, ObjectsKnown;
    var bid := PrefixId(d);
    if d in s.storage.dedup {
      assert bid in s.blobs;
      SafeBlob(s, bid);
      assert BlobKnown(s.cfg.primary, s.replicas, None, s.storage.dedup, s.blobs[bid]);
      assert s.blobs[bid].digest == d;
      ReclaimedOne(s, reachable, bid, b, f);
    } else {
      ReclaimOneShrinks(s, reachable, bid, b, f);
    }
  }

  lemma {:induction false} ReclaimDrops(s: State, reachable: set<Id>, list: seq<Id>, f: Faults, d: Digest)
    requires InOrder(s) && Removes(f) && Refs(s.storage.dedup, d) == 0 && PrefixId(d) !in reachable
    requires PrefixId(d) in list
    ensures d !in Reclaim(s, reachable, list, f).storage.dedup
  {
    hide InOrder, ReclaimOne, Removes, PrefixId;
    var n := |list| - 1;
    var t := Reclaim(s, reachable, list[..n], f);
    ReclaimInOrder(s, reachable, list[..n], f);
    if PrefixId(d) in list[..n] {
      ReclaimDrops(s, reachable, list[..n], f, d);
      ReclaimOneShrinks(t, reachable, list[n], n, f);
    } else {
      assert list[n] == PrefixId(d);
      ReclaimOneDrops(t, reachable, n, f, d);
    }
  }

  // ----- Sweeping before it -----

  /** The same entries, up to their counts. */
  ghost predicate SameEntries(t: Table, u: Table)
  {
    forall d :: (d in u <==> d in t) && (d in t ==> u[d].blobId == t[d].blobId)
  }

  lemma {:induction false} ReleaseAllEntries(t: Table, chunks: seq<Chunk>)
    ensures SameEntries(t, ReleaseAll(t, chunks))
  {
    if chunks != [] {
      ReleaseAllEntries(t, chunks[..|chunks| - 1]);
    }
  }

  lemma {:induction false} SweepEntries(s: State, ids: seq<Id>)
    ensures var t := Sweep(s, ids);
      && SameEntries(s.storage.dedup, t.storage.dedup) && t.storage.backend == s.storage.backend
      && t.blobs == s.blobs && t.replicas == s.replicas && t.cfg == s.cfg && t.registered == s.registered
  {
    hide ReleaseAll;
    if ids != [] {
      var t, id := Sweep(s, ids[..|ids| - 1]), ids[|ids| - 1];
      SweepEntries(s, ids[..|ids| - 1]);
      if id in t.checkpoints {
        ReleaseAllEntries(t.storage.dedup, t.checkpoints[id].chunks);
      }
    }
  }

  lemma EntriesTidy(s: State, t: State)
    requires Tidy(s, None) && SameEntries(s.storage.dedup, t.storage.dedup)
    requires t.storage.backend.objects == s.storage.backend.objects
    requires t.cfg == s.cfg && t.blobs.Keys == s.blobs.Keys
    requires forall b :: b in s.blobs ==>
             t.blobs[b].digest == s.blobs[b].digest && t.blobs[b].replicas == s.blobs[b].replicas
    requires forall r :: ReplicaOk(s.cfg.primary, s.replicas, None, r) ==> ReplicaOk(t.cfg.primary, t.replicas, None, r)
    ensures Tidy(t, None)
  {
    hide PrefixId, ReplicaOk, BlobKnown, ObjectsKnown;
    ObjectsAgain(s.storage, t.storage);
    forall b | b in t.blobs ensures BlobKnown(t.cfg.primary, t.replicas, None, t.storage.dedup, t.blobs[b]) {
      KnownDigest(s, b);
      KnownAgain(s, t, b);
    }
  }

  lemma ObjectsAgain(st: Storage, t: Storage)
    requires ObjectsKnown(st) && SameEntries(st.dedup, t.dedup) && t.backend.objects == st.backend.objects
    ensures ObjectsKnown(t)
  {
    hide BlobKey;
    forall k | k in t.backend.objects ensures exists e :: e in t.dedup && k == BlobKey(e) {
      var e :| e in st.dedup && k == BlobKey(e);
      assert e in t.dedup;
    }
  }

  lemma KnownAgain(s: State, t: State, b: Id)
    requires b in s.blobs && b in t.blobs && BlobKnown(s.cfg.primary, s.replicas, None, s.storage.dedup, s.blobs[b])
    requires SameEntries(s.storage.dedup, t.storage.dedup)
    requires t.blobs[b].digest == s.blobs[b].digest && t.blobs[b].replicas == s.blobs[b].replicas
    requires forall r :: ReplicaOk(s.cfg.primary, s.replicas, None, r) ==> ReplicaOk(t.cfg.primary, t.replicas, None, r)
    ensures BlobKnown(t.cfg.primary, t.replicas, None, t.storage.dedup, t.blobs[b])
  {
    hide ReplicaOk;
  }

  lemma SweepInOrder(s: State, ids: seq<Id>)
    requires InOrder(s)
    ensures InOrder(Sweep(s, ids))
  {
    hide Safe, Ledger, Tidy, Sweep, PrefixId;
    SweepKeeps(s, ids);
    SweepAllLedger(s, ids);
    SweepEntries(s, ids);
    EntriesTidy(s, Sweep(s, ids));
  }

  // ----- Planned and run at one reading of the clock -----

  ghost predicate ChunkAt(cps: map<Id, Record>, id: Id, i: nat, d: Digest)
  {
    id in cps && i < |cps[id].chunks| && cps[id].chunks[i].digest == d
  }

  /** Some checkpoint of the set has a chunk with the digest. */
  ghost predicate NeededBy(cps: map<Id, Record>, retained: set<Id>, d: Digest)
  {
    exists id, i :: id in retained && ChunkAt(cps, id, i, d)
  }

  /** No two digests known to the store, stored or recorded, share a blob id. */
  ghost predicate NoBlobIdCollisions(s: State)
  {
    forall d: Digest, e: Digest :: KnownTo(s, d) && KnownTo(s, e) && PrefixId(d) == PrefixId(e) ==> d == e
  }

  ghost predicate KnownTo(s: State, d: Digest)
  {
    d in s.storage.dedup || NeededBy(s.checkpoints, s.checkpoints.Keys, d)
  }

  /** What a fault-free run keeps. */
  ghost predicate Orderly(s: State)
  {
    && Safe(s) && LedgerOf(s) && Tidy(s, None) && s.registered
    && forall id :: id in s.checkpoints ==> Settled(s.checkpoints[id])
  }

  lemma ProtectedSame(s: State, t: State, v: Retention.View)
    requires t.checkpoints == s.checkpoints && t.families == s.families && t.retention == s.retention
    ensures Retention.Protected(t, v) == Retention.Protected(s, v)
  {
    forall id | id in s.checkpoints ensures Retention.Direct(t, v, id) == Retention.Direct(s, v, id) { }
    forall path ensures Retention.Descent(t, v, path) == Retention.Descent(s, v, path) { }
    forall id ensures Retention.Descends(t, v, id) == Retention.Descends(s, v, id) {
      if Retention.Descends(s, v, id) {
        var path :| Retention.Descent(s, v, path) && path[|path| - 1] == id;
        assert Retention.Descent(t, v, path);
      }
      if Retention.Descends(t, v, id) {
        var path :| Retention.Descent(t, v, path) && path[|path| - 1] == id;
        assert Retention.Descent(s, v, path);
      }
    }
  }

  /** After the sweep nobody uses a digest that no retained checkpoint needs. */
  lemma UnneededUnused(s: State, eligible: seq<Id>, retained: set<Id>, d: Digest)
    requires !NeededBy(s.checkpoints, retained, d)
    requires forall id :: id in s.checkpoints ==> id in retained || id in eligible || !Live(s.checkpoints[id])
    ensures Uses(Sweep(s, eligible).checkpoints, d) == 0
  {
    hide Sweep, Count;
    var t := Sweep(s, eligible);
    SweepKeys(s, eligible);
    var m := UseMap(t.checkpoints, d);
    forall id | id in m ensures m[id] == 0 {
      SweepDeletes(s, eligible, id);
      NotNeededCount(s.checkpoints, retained, d, id);
    }
    SumZero(m);
  }

  lemma NotNeededCount(cps: map<Id, Record>, retained: set<Id>, d: Digest, id: Id)
    requires id in cps && id in retained && !NeededBy(cps, retained, d)
    ensures Count(cps[id].chunks, d) == 0
  {
    var ds := DigestsOf(cps[id].chunks);
    forall i | 0 <= i < |ds| ensures ds[i] != d { assert !ChunkAt(cps, id, i, d); }
    assert d !in ds;
  }

  lemma {:induction false} SweepKeys(s: State, ids: seq<Id>)
    ensures Sweep(s, ids).checkpoints.Keys == s.checkpoints.Keys
  {
    hide ReleaseAll;
    if ids != [] {
      SweepKeys(s, ids[..|ids| - 1]);
    }
  }

  lemma UnneededUnreached(s: State, retained: set<Id>, d: Digest)
    requires Safe(s) && NoBlobIdCollisions(s) && d in s.storage.dedup && !NeededBy(s.checkpoints, retained, d)
    ensures PrefixId(d) !in Reachable(s.checkpoints, retained)
  {
    hide Sound, ContentsOk, PrefixId;
    forall id, i | id in retained && id in s.checkpoints && 0 <= i < |s.checkpoints[id].chunks|
      ensures s.checkpoints[id].chunks[i].blobId != PrefixId(d)
    {
      var r := s.checkpoints[id];
      assert RecordOk(s.cfg.primary, s.placements, s.replicas, id, r);
      assert ChunkOk(s.placements, r.chunks[i], r.replicaSet.replicas[0]);
      assert ChunkAt(s.checkpoints, id, i, r.chunks[i].digest);
      assert KnownTo(s, r.chunks[i].digest) && KnownTo(s, d);
    }
  }

  lemma UnneededGone(s: State, eligible: seq<Id>, retained: set<Id>, f: Faults, d: Digest)
    requires InOrder(s) && NoBlobIdCollisions(s) && Removes(f)
    requires forall id :: id in s.checkpoints ==> id in retained || id in eligible || !Live(s.checkpoints[id])
    requires IsPlan(s, Reachable(s.checkpoints, retained), s.gc.reclaimable)
    requires d in s.storage.dedup && !NeededBy(s.checkpoints, retained, d)
    ensures d !in Run(s, eligible, retained, f).storage.dedup
  {
    hide Safe, Tidy, Sweep, Reclaim, Reachable, NoBlobIdCollisions, Removes, PrefixId, Uses, NeededBy, AllIntact,
         RecordsSized, ReferencedBytes, LiveBytes, InOrder;
    InOrderParts(s, d);
    var swept := Sweep(s, eligible);
    SweepInOrder(s, eligible);
    InOrderCounts(swept, d);
    UnneededUnused(s, eligible, retained, d);
    UnneededUnreached(s, retained, d);
    ReclaimDrops(swept, Reachable(s.checkpoints, retained), s.gc.reclaimable, f, d);
  }

  lemma InOrderParts(s: State, d: Digest)
    requires InOrder(s) && d in s.storage.dedup
    ensures Safe(s) && PrefixId(d) in s.blobs
  {
    hide Safe, Ledger, PrefixId, PrefixInjective, ObjectsKnown;
  }

  lemma InOrderCounts(s: State, d: Digest)
    requires InOrder(s)
    ensures Refs(s.storage.dedup, d) == Uses(s.checkpoints, d)
  {
    hide Safe, Tidy, PrefixInjective, Uses, AllIntact, RecordsSized, ReferencedBytes, LiveBytes;
  }

  lemma RunInOrder(s: State, eligible: seq<Id>, retained: set<Id>, f: Faults)
    requires InOrder(s) && Removes(f)
    ensures var t := Run(s, eligible, retained, f);
      Tidy(t, None) && forall d :: d in t.storage.dedup ==> d in s.storage.dedup
  {
    hide InOrder, Sweep, Reclaim, Reachable, Removes;
    var swept, reachable := Sweep(s, eligible), Reachable(s.checkpoints, retained);
    SweepInOrder(s, eligible);
    SweepEntries(s, eligible);
    ReclaimInOrder(swept, reachable, s.gc.reclaimable, f);
    GcTidy(Reclaim(swept, reachable, s.gc.reclaimable, f), Run(s, eligible, retained, f));
  }

  lemma GcTidy(s: State, t: State)
    requires InOrder(s) && t == s.(gc := t.gc)
    ensures Tidy(t, None)
  {
    hide Safe, Ledger, PrefixId, ObjectsKnown, BlobKnown;
  }

  lemma InOrderFrom(s: State)
    requires Orderly(s) && NoBlobIdCollisions(s)
    ensures InOrder(s)
  {
    hide Safe, Ledger, Tidy, PrefixId, Settled;
    forall d, e | d in s.storage.dedup && e in s.storage.dedup && PrefixId(d) == PrefixId(e) ensures d == e {
      assert KnownTo(s, d) && KnownTo(s, e);
    }
  }

  lemma PlanInOrder(s: State, reachable: set<Id>, list: seq<Id>)
    requires InOrder(s) && NoBlobIdCollisions(s)
    ensures var p := Plan(s, reachable, list); InOrder(p) && NoBlobIdCollisions(p)
  {
    hide Sound, RecordOk, Content, Ledger, PrefixId, ObjectsKnown, BlobKnown, MarkedSizes;
    var p := Plan(s, reachable, list);
    OtherFields(s, p);
    forall d: Digest ensures KnownTo(p, d) == KnownTo(s, d) { }
  }

  /**
   gc_plan and, straight after it, gc_run at the same reading of the clock, in a fault-free run
   without blob-id collisions: every entry that remains is needed by a protected checkpoint, and
   every object and blob record that remains belongs to such an entry.
   */
  lemma CollectionIsComplete(s: State, v: Retention.View, list: seq<Id>, eligible: seq<Id>, f: Faults)
    requires Orderly(s) && NoBlobIdCollisions(s) && Removes(f)
    requires IsPlan(s, Reachable(s.checkpoints, Retention.Protected(s, v)), list)
    requires forall e <- Retention.Eligible(s, v) :: e in eligible
    ensures var p := Plan(s, Reachable(s.checkpoints, Retention.Protected(s, v)), list);
      var t := Run(p, eligible, Retention.Protected(p, v), f);
      && (forall d :: d in t.storage.dedup ==> NeededBy(s.checkpoints, Retention.Protected(s, v), d))
      && (forall k :: k in t.storage.backend.objects ==> exists d :: d in t.storage.dedup && k == BlobKey(d))
      && (forall b :: b in t.blobs ==> t.blobs[b].digest in t.storage.dedup)
  {
    hide Safe, Ledger, Tidy, InOrder, Reachable, NoBlobIdCollisions, Removes, BlobKey, NeededBy, Run, MarkedSizes,
         Retention.Protected;
    var retained := Retention.Protected(s, v);
    var p := Plan(s, Reachable(s.checkpoints, retained), list);
    InOrderFrom(s);
    PlanInOrder(s, Reachable(s.checkpoints, retained), list);
    ProtectedSame(s, p, v);
    RunInOrder(p, eligible, retained, f);
    forall id | id in s.checkpoints ensures id in retained || id in eligible || !Live(s.checkpoints[id]) {
      assert Settled(s.checkpoints[id]);
    }
    forall d | d in p.storage.dedup && !NeededBy(s.checkpoints, retained, d)
      ensures d !in Run(p, eligible, retained, f).storage.dedup
    {
      UnneededGone(p, eligible, retained, f, d);
    }
    TidyMeans(Run(p, eligible, retained, f));
  }

  lemma TidyMeans(s: State)
    requires Tidy(s, None)
    ensures forall k :: k in s.storage.backend.objects ==> exists d :: d in s.storage.dedup && k == BlobKey(d)
    ensures forall b :: b in s.blobs ==> s.blobs[b].digest in s.storage.dedup
  {
    hide BlobKey, PrefixId;
    forall b | b in s.blobs ensures s.blobs[b].digest in s.storage.dedup { KnownDigest(s, b); }
  }

  /** When nothing is protected nothing remains. */
  lemma NothingProtectedNothingLeft(s: State, v: Retention.View, list: seq<Id>, eligible: seq<Id>, f: Faults)
    requires Orderly(s) && NoBlobIdCollisions(s) && Removes(f) && Retention.Protected(s, v) == {}
    requires IsPlan(s, {}, list) && forall e <- Retention.Eligible(s, v) :: e in eligible
    ensures var p := Plan(s, {}, list);
      var t := Run(p, eligible, Retention.Protected(p, v), f);
      t.storage.dedup == map[] && t.blobs == map[] && t.storage.backend.objects == map[]
  {
    hide Orderly, NoBlobIdCollisions, Removes, BlobKey, Run, MarkedSizes, Retention.Protected;
    assert Reachable(s.checkpoints, {}) == {};
    CollectionIsComplete(s, v, list, eligible, f);
    var t := Run(Plan(s, {}, list), eligible, Retention.Protected(Plan(s, {}, list), v), f);
    assert forall d :: !NeededBy(s.checkpoints, {}, d);
    assert t.storage.dedup == map[];
  }

  // ----- Every fault-free run is orderly -----

  ghost predicate AllSettled(s: State)
  {
    forall id :: id in s.checkpoints ==> Settled(s.checkpoints[id])
  }

  lemma {:induction false} SweepSettled(s: State, ids: seq<Id>)
    requires AllSettled(s)
    ensures AllSettled(Sweep(s, ids))
  {
    hide ReleaseAll;
    if ids != [] {
      SweepSettled(s, ids[..|ids| - 1]);
    }
  }

  lemma RunSettled(s: State, eligible: seq<Id>, retained: set<Id>, f: Faults)
    requires AllSettled(s)
    ensures AllSettled(Run(s, eligible, retained, f))
  {
    hide Sweep, Reclaim, Reachable;
    SweepSettled(s, eligible);
    ReclaimRecords(Sweep(s, eligible), Reachable(s.checkpoints, retained), s.gc.reclaimable, f);
  }

  lemma HealthSettled(s: State, t: State)
    requires AllSettled(s) && OnlyHealth(s, t)
    ensures AllSettled(t)
  {
    HealthKeys(s, t);
  }

  lemma RetireSettled(s: State, id: Id)
    requires AllSettled(s)
    ensures AllSettled(Retention.Retire(s, id).0)
  {
    var t := Retention.Retire(s, id).0;
    assert t.checkpoints == if id in s.checkpoints && s.checkpoints[id].lifecycle == LIFE_COMMITTED
                            then s.checkpoints[id := s.checkpoints[id].(lifecycle := LIFE_RETIRED)] else s.checkpoints;
  }

  lemma RestartSettled(s: State)
    requires AllSettled(s)
    ensures AllSettled(Persistence.Recovered(Runs.Reopened(s), s)) && AllSettled(Runs.AuthorityReset(s))
  {
    hide Persistence.ImageOf, Persistence.NextAll, Persistence.RaiseBy, Persistence.StartFamilies;
  }

  /** Whatever fails, the store's operations leave checkpoints committed, retired or deleted. */
  lemma StepSettled(s: State, op: Runs.Op)
    requires AllSettled(s)
    ensures AllSettled(Runs.Perform(s, op))
  {
    hide AllSettled, Run, Reachable, MarkedSizes, OnlyHealth, Recovery.Restore, Recovery.VerifyCheckpoint,
         StoreState.Publish, Retention.Protected, Retention.Retire, Persistence.Recovered, Runs.AuthorityReset;
    match op
    case Publish(d, data, f) =>
      PublishSettled(s, d, data, f);
    case Retire(id) =>
      RetireSettled(s, id);
    case GcRun(eligible, v, f) =>
      RunSettled(s, eligible, Retention.Protected(s, v), f);
    case Verify(id, f) =>
      VerifyHealth(s, id, f);
      HealthSettled(s, Recovery.VerifyCheckpoint(s, id, f).0);
    case Restore(id, f) =>
      RestoreHealth(s, id, f);
      HealthSettled(s, Recovery.Restore(s, id, f).0);
    case ResetAuthority =>
      RestartSettled(s);
    case Restart =>
      RestartSettled(s);
    case _ =>
      SameSettled(s, Runs.Perform(s, op));
  }

  lemma SameSettled(s: State, t: State)
    requires AllSettled(s) && t.checkpoints == s.checkpoints
    ensures AllSettled(t)
  {
  }

  lemma PublishSettled(s: State, d: Descriptor, data: Bytes, f: Faults)
    requires AllSettled(s)
    ensures AllSettled(StoreState.Publish(s, d, data, f).0)
  {
    hide StoreState.Publish;
    Runs.PublishPromises(s, d, data, f);
  }

  /** Nothing that the order of storage depends on has changed. */
  ghost predicate SameShelves(s: State, t: State)
  {
    && t.cfg == s.cfg && t.storage.dedup == s.storage.dedup && t.storage.backend.objects == s.storage.backend.objects
    && t.blobs.Keys == s.blobs.Keys && t.replicas.Keys == s.replicas.Keys
    && (forall b :: b in s.blobs ==>
          t.blobs[b].digest == s.blobs[b].digest && t.blobs[b].replicas == s.blobs[b].replicas)
    && (forall r :: r in s.replicas ==> t.replicas[r].backendId == s.replicas[r].backendId)
  }

  lemma ShelvesTidy(s: State, t: State)
    requires Tidy(s, None) && SameShelves(s, t)
    ensures Tidy(t, None)
  {
    hide Tidy;
    EntriesTidy(s, t);
  }

  lemma HealthShelves(s: State, t: State)
    requires OnlyHealth(s, t)
    ensures SameShelves(s, t)
  {
  }

  lemma RestartShelves(s: State)
    ensures SameShelves(s, Persistence.Recovered(Runs.Reopened(s), s)) && SameShelves(s, Runs.AuthorityReset(s))
  {
    hide Persistence.ImageOf, Persistence.NextAll, Persistence.RaiseBy, Persistence.StartFamilies,
         Persistence.ReloadedMap, Runs.Reset;
  }

  lemma RetireShelves(s: State, id: Id)
    ensures SameShelves(s, Retention.Retire(s, id).0)
  {
    var t := Retention.Retire(s, id).0;
    assert t == s.(checkpoints := t.checkpoints);
  }

  lemma PlainShelves(s: State, t: State)
    requires t.cfg == s.cfg && t.storage == s.storage && t.blobs == s.blobs && t.replicas == s.replicas
    ensures SameShelves(s, t)
  {
  }

  /** Fault-free: the environment is honest, admitted publications succeed and removals go through. */
  ghost predicate Smooth(s: State, op: Runs.Op)
  {
    Tame(s, op) && (op.GcRun? ==> Removes(op.faults))
  }

  lemma StepTidied(s: State, op: Runs.Op)
    requires Orderly(s) && NoBlobIdCollisions(s) && Smooth(s, op)
    ensures Tidy(Runs.Perform(s, op), None)
  {
    hide Safe, Ledger, Tidy, SameShelves, InOrder, NoBlobIdCollisions, Settled, Removes, Run, Reachable, MarkedSizes,
         OnlyHealth, Recovery.Restore, Recovery.VerifyCheckpoint, StoreState.Publish, Retention.Protected,
         Retention.Retire, Persistence.Recovered, Runs.AuthorityReset, Steady;
    var t := Runs.Perform(s, op);
    match op
    case Publish(d, data, f) =>
      if Admission(s, d).Some? {
        RefusedPublish(s, d, data, f);
      } else {
        PublishTidy(s, d, data, f);
      }
    case GcRun(eligible, v, f) =>
      InOrderFrom(s);
      RunInOrder(s, eligible, Retention.Protected(s, v), f);
    case Verify(id, f) =>
      VerifyHealth(s, id, f);
      HealthShelves(s, t);
      ShelvesTidy(s, t);
    case Restore(id, f) =>
      RestoreHealth(s, id, f);
      HealthShelves(s, t);
      ShelvesTidy(s, t);
    case ResetAuthority =>
      RestartShelves(s);
      ShelvesTidy(s, t);
    case Restart =>
      RestartShelves(s);
      ShelvesTidy(s, t);
    case Retire(id) =>
      RetireShelves(s, id);
      ShelvesTidy(s, t);
    case _ =>
      PlainShelves(s, t);
      ShelvesTidy(s, t);
  }

  lemma StepOrderly(s: State, op: Runs.Op)
    requires Orderly(s) && NoBlobIdCollisions(s) && Smooth(s, op)
    ensures Orderly(Runs.Perform(s, op))
  {
    hide Safe, Ledger, Tidy, NoBlobIdCollisions, Settled, Removes, Runs.Perform, Runs.Honest;
    StepTidied(s, op);
    StepLedger(s, op);
    TameHonest(s, op);
    Runs.StepSafe(s, op);
    StepSettled(s, op);
    StepRegistered(s, op);
  }

  lemma StepRegistered(s: State, op: Runs.Op)
    ensures Runs.Perform(s, op).registered == s.registered
  {
    hide Runs.Perform, StoreState.Publish;
    if op.Publish? {
      Runs.PublishPromises(s, op.d, op.data, op.faults);
      Runs.PublishStep(s, op);
    } else {
      Runs.OthersKeepManifests(s, op);
    }
  }

  ghost predicate SmoothRun(w: Runs.World, ops: seq<Runs.Op>)
  {
    forall i :: 0 <= i < |ops| ==>
      NoBlobIdCollisions(Runs.After(w, ops[..i]).s) && Smooth(Runs.After(w, ops[..i]).s, ops[i])
  }

  lemma {:induction false} RunOrderly(cfg: Config, boot: Id, ops: seq<Runs.Op>)
    requires SmoothRun(Runs.Start(cfg, boot), ops)
    ensures Orderly(Runs.After(Runs.Start(cfg, boot), ops).s)
  {
    hide Orderly, NoBlobIdCollisions, Smooth, Runs.Perform, Runs.Remember;
    var w := Runs.Start(cfg, boot);
    if ops == [] {
      StartOrderly(cfg, boot);
    } else {
      var n := |ops| - 1;
      forall i | 0 <= i < n
        ensures NoBlobIdCollisions(Runs.After(w, ops[..n][..i]).s)
        ensures Smooth(Runs.After(w, ops[..n][..i]).s, ops[..n][i])
      {
        assert ops[..n][..i] == ops[..i];
      }
      RunOrderly(cfg, boot, ops[..n]);
      StepOrderly(Runs.After(w, ops[..n]).s, ops[n]);
    }
  }

  lemma StartOrderly(cfg: Config, boot: Id)
    ensures Orderly(Runs.Init(cfg, boot))
  {
    hide Safe, Ledger, PrefixId, BlobKey;
    Runs.InitSafe(cfg, boot);
    StartLedger(cfg, boot);
  }

  /** After any fault-free run, a collection leaves only what protected checkpoints need. */
  lemma FaultFreeCollection(cfg: Config, boot: Id, ops: seq<Runs.Op>, v: Retention.View, list: seq<Id>,
                            eligible: seq<Id>, f: Faults)
    requires var s := Runs.After(Runs.Start(cfg, boot), ops).s;
      && SmoothRun(Runs.Start(cfg, boot), ops) && NoBlobIdCollisions(s) && Removes(f)
      && IsPlan(s, Reachable(s.checkpoints, Retention.Protected(s, v)), list)
      && forall e <- Retention.Eligible(s, v) :: e in eligible
    ensures var s := Runs.After(Runs.Start(cfg, boot), ops + [Runs.GcPlan(v, list)]).s;
      var t := Runs.After(Runs.Start(cfg, boot), ops + [Runs.GcPlan(v, list), Runs.GcRun(eligible, v, f)]).s;
      && (forall d :: d in t.storage.dedup ==> NeededBy(s.checkpoints, Retention.Protected(s, v), d))
      && (forall k :: k in t.storage.backend.objects ==> exists d :: d in t.storage.dedup && k == BlobKey(d))
      && (forall b :: b in t.blobs ==> t.blobs[b].digest in t.storage.dedup)
  {
    hide Orderly, SmoothRun, NoBlobIdCollisions, Removes, Retention.Protected, Run, NeededBy, BlobKey, IsPlan, Plan,
         Runs.Remember, Runs.Perform;
    var w, plan, run := Runs.Start(cfg, boot), Runs.GcPlan(v, list), Runs.GcRun(eligible, v, f);
    var s := Runs.After(w, ops).s;
    assert (ops + [plan])[..|ops|] == ops && (ops + [plan, run])[..|ops| + 1] == ops + [plan];
    RunOrderly(cfg, boot, ops);
    CollectionIsComplete(s, v, list, eligible, f);
    GcSteps(s, v, list, eligible, f);
    var p := Plan(s, Reachable(s.checkpoints, Retention.Protected(s, v)), list);
    PlanRecords(s, Reachable(s.checkpoints, Retention.Protected(s, v)), list);
    ProtectedSame(s, p, v);
  }

  lemma PlanRecords(s: State, reachable: set<Id>, list: seq<Id>)
    ensures var p := Plan(s, reachable, list);
      p.checkpoints == s.checkpoints && p.families == s.families && p.retention == s.retention
  {
    hide MarkedSizes;
  }

  lemma GcSteps(s: State, v: Retention.View, list: seq<Id>, eligible: seq<Id>, f: Faults)
    ensures Runs.Perform(s, Runs.GcPlan(v, list)) == Plan(s, Reachable(s.checkpoints, Retention.Protected(s, v)), list)
    ensures forall p :: Runs.Perform(p, Runs.GcRun(eligible, v, f)) == Run(p, eligible, Retention.Protected(p, v), f)
  {
    hide StoreState.Publish, Recovery.Restore, Recovery.VerifyCheckpoint, Run, Plan, Reachable, Persistence.Recovered,
         Retention.Protected;
  }
}

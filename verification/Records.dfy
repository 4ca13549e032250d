/** The records operations leave behind, field by field, with the numbers of the source's enumerators. */
module Records {
  import opened Basics
  import opened Model
  import opened Chunking
  import opened StoreState
  import opened Collection
  import opened Failure
  import opened Commits
  import Dedup
  import Persistence
  import Retention
  import Sums
  import Runs

  // ----- A commit -----

  /** The chunk of a slice: stored whole, not compressed, in the encoding "identity", at one placement. */
  ghost predicate ChunkOf(c: Chunk, slice: Slice, placement: Id)
  {
    var size := |slice.bytes|;
    c == Chunk(PrefixId(slice.digest), 1, slice.offset, size, size, slice.digest, c.blobId, [placement], 0, 0, 2,
               false, [105, 100, 101, 110, 116, 105, 116, 121])
  }

  ghost predicate PlacementOf(s: State, t: State, pid: Id, replica: Id, size: nat)
  {
    && pid in t.placements
    && (pid !in s.placements ==> t.placements[pid] == Placement(pid, 1, replica, 1, s.cfg.primary, 1, 1, size, 0, 0))
  }

  /** After n slices of an attempt that began in s: their chunks and placements, numbered one after another. */
  ghost predicate Laid(s: State, p: Progress, slices: seq<Slice>, n: nat, replica: Id)
    requires n <= |slices|
  {
    && |p.draft.chunks| == n && p.s.nextId == s.nextId + n && p.s.cfg == s.cfg
    && (forall q :: q in p.s.placements ==> q in s.placements || s.nextId <= q < s.nextId + n)
    && forall i :: 0 <= i < n ==>
         && ChunkOf(p.draft.chunks[i], slices[i], s.nextId + i)
         && PlacementOf(s, p.s, s.nextId + i, replica, |slices[i].bytes|)
  }

  lemma LaidNext(s: State, p: Progress, st: Storage, draft: Draft, slices: seq<Slice>, n: nat, blobId: Id, replica: Id)
    requires n < |slices| && Laid(s, p, slices, n, replica) && draft.chunks == p.draft.chunks
    ensures Laid(s, Note(p.s.(storage := st), draft, slices[n], blobId, replica), slices, n + 1, replica)
  {
    hide NoteBlob, PrefixId;
  }

  lemma StepLaid(s: State, p: Progress, slices: seq<Slice>, n: nat, replica: Id, f: Faults)
    requires n < |slices| && Laid(s, p, slices, n, replica)
    ensures var q := StoreState.Step(p, slices[n], n, replica, f);
      q.error.None? ==> Laid(s, q, slices, n + 1, replica)
  {
    hide Acquire, Note, PrefixId, Laid;
    var d, draft := slices[n].digest, p.draft;
    match Acquire(p.s.cfg.hash, p.s.storage, slices[n], n, f)
    case Refused(_, _) =>
    case Shared(st) =>
      LaidNext(s, p, st, draft.(hits := draft.hits + 1), slices, n,
               if d in st.dedup then st.dedup[d].blobId else PrefixId(d), replica);
    case Wrote(st) =>
      LaidNext(s, p, st,
               draft.(misses := draft.misses + 1, written := draft.written + |slices[n].bytes|,
                      wrote := draft.wrote + [d]),
               slices, n, PrefixId(d), replica);
  }

  lemma {:induction false} StepsLaid(s: State, slices: seq<Slice>, n: nat, replica: Id, f: Faults)
    requires n <= |slices| && Reached(s, slices, n, replica, f)
    ensures Laid(s, Steps(s, slices, n, replica, f), slices, n, replica)
  {
    hide StoreState.Step, Acquire;
    if n > 0 {
      hide Laid;
      var p := Steps(s, slices, n - 1, replica, f);
      StepTurn(p, slices[n - 1], n - 1, replica, f);
      StepsLaid(s, slices, n - 1, replica, f);
      StepLaid(s, p, slices, n - 1, replica, f);
    }
  }

  // ----- The blobs of an attempt -----

  /** A blob that was there before: as it was, except that it may have gained the replica. */
  ghost predicate BlobGained(was: Blob, now: Blob, replica: Id)
  {
    now == was || (replica !in was.replicas && now == was.(replicas := was.replicas + [replica]))
  }

  /** A blob recorded for one of the first n slices: measured (0), verified (2), on the new replica. */
  ghost predicate BlobOf(o: Blob, b: Id, slices: seq<Slice>, n: nat, replica: Id)
    requires n <= |slices|
  {
    exists k :: 0 <= k < n &&
      o == Blob(b, 1, |slices[k].bytes|, slices[k].digest, o.refcount, 0, 0, 0, 2, 3, [replica])
  }

  /** After n slices: each chunk's blob is recorded on the replica, and nothing else has changed. */
  ghost predicate Shelved(s: State, p: Progress, slices: seq<Slice>, n: nat, replica: Id)
    requires n <= |slices|
  {
    && (forall c <- p.draft.chunks :: c.blobId in p.s.blobs && replica in p.s.blobs[c.blobId].replicas)
    && (forall b :: b in s.blobs ==> b in p.s.blobs && BlobGained(s.blobs[b], p.s.blobs[b], replica))
    && forall b :: b in p.s.blobs && b !in s.blobs ==> BlobOf(p.s.blobs[b], b, slices, n, replica)
  }

  lemma NotedBlob(blobs: map<Id, Blob>, blobId: Id, slice: Slice, refs: nat, replica: Id)
    ensures var now := NoteBlob(blobs, blobId, slice.digest, |slice.bytes|, refs, replica);
      && blobId in now && replica in now[blobId].replicas
      && (forall b :: b in blobs ==> b in now && BlobGained(blobs[b], now[b], replica))
      && (forall b :: b in now && b !in blobs ==>
            b == blobId && now[b] == Blob(b, 1, |slice.bytes|, slice.digest, refs, 0, 0, 0, 2, 3, [replica]))
  {
  }

  lemma ShelvedNext(s: State, p: Progress, st: Storage, draft: Draft, slices: seq<Slice>, n: nat, blobId: Id,
                    replica: Id)
    requires n < |slices| && Shelved(s, p, slices, n, replica) && draft.chunks == p.draft.chunks
    ensures Shelved(s, Note(p.s.(storage := st), draft, slices[n], blobId, replica), slices, n + 1, replica)
  {
    hide NoteBlob, PrefixId;
    var q := Note(p.s.(storage := st), draft, slices[n], blobId, replica);
    NotedBlob(p.s.blobs, blobId, slices[n], Dedup.Refs(st.dedup, slices[n].digest), replica);
    forall c | c in q.draft.chunks ensures c.blobId in q.s.blobs && replica in q.s.blobs[c.blobId].replicas {
      if c in p.draft.chunks {
        assert BlobGained(p.s.blobs[c.blobId], q.s.blobs[c.blobId], replica);
      }
    }
    forall b | b in s.blobs ensures b in q.s.blobs && BlobGained(s.blobs[b], q.s.blobs[b], replica) {
      assert BlobGained(s.blobs[b], p.s.blobs[b], replica) && BlobGained(p.s.blobs[b], q.s.blobs[b], replica);
    }
    forall b | b in q.s.blobs && b !in s.blobs ensures BlobOf(q.s.blobs[b], b, slices, n + 1, replica) {
      if b in p.s.blobs {
        assert BlobOf(p.s.blobs[b], b, slices, n, replica);
        assert BlobGained(p.s.blobs[b], q.s.blobs[b], replica);
        var k :| 0 <= k < n && p.s.blobs[b] == Blob(b, 1, |slices[k].bytes|, slices[k].digest,
                                                    p.s.blobs[b].refcount, 0, 0, 0, 2, 3, [replica]);
      }
    }
  }

  lemma StepShelved(s: State, p: Progress, slices: seq<Slice>, n: nat, replica: Id, f: Faults)
    requires n < |slices| && Shelved(s, p, slices, n, replica)
    ensures var q := StoreState.Step(p, slices[n], n, replica, f);
      q.error.None? ==> Shelved(s, q, slices, n + 1, replica)
  {
    hide Acquire, Note, PrefixId, Shelved;
    var d, draft := slices[n].digest, p.draft;
    match Acquire(p.s.cfg.hash, p.s.storage, slices[n], n, f)
    case Refused(_, _) =>
    case Shared(st) =>
      ShelvedNext(s, p, st, draft.(hits := draft.hits + 1), slices, n,
                  if d in st.dedup then st.dedup[d].blobId else PrefixId(d), replica);
    case Wrote(st) =>
      ShelvedNext(s, p, st,
                  draft.(misses := draft.misses + 1, written := draft.written + |slices[n].bytes|,
                         wrote := draft.wrote + [d]),
                  slices, n, PrefixId(d), replica);
  }

  lemma {:induction false} StepsShelved(s: State, slices: seq<Slice>, n: nat, replica: Id, f: Faults)
    requires n <= |slices| && Reached(s, slices, n, replica, f)
    ensures Shelved(s, Steps(s, slices, n, replica, f), slices, n, replica)
  {
    hide StoreState.Step, Acquire;
    if n > 0 {
      hide Shelved;
      var p := Steps(s, slices, n - 1, replica, f);
      StepTurn(p, slices[n - 1], n - 1, replica, f);
      StepsShelved(s, slices, n - 1, replica, f);
      StepShelved(s, p, slices, n - 1, replica, f);
    }
  }

  /** A publication that returns has every chunk's blob recorded on its replica, and every other as it was. */
  lemma CommittedBlobs(s: State, d: Descriptor, data: Bytes, f: Faults)
    requires StoreState.Publish(s, d, data, f).1.Ok?
    ensures s.cfg.chunkSize > 0 && d.id in StoreState.Publish(s, d, data, f).0.checkpoints
    ensures var t, slices := StoreState.Publish(s, d, data, f).0, Slices(s.cfg.hash, data, s.cfg.chunkSize);
      && (forall c <- t.checkpoints[d.id].chunks :: c.blobId in t.blobs && s.nextId in t.blobs[c.blobId].replicas)
      && (forall b :: b in s.blobs ==> b in t.blobs && BlobGained(s.blobs[b], t.blobs[b], s.nextId))
      && forall b :: b in t.blobs && b !in s.blobs ==> BlobOf(t.blobs[b], b, slices, |slices|, s.nextId)
  {
    hide StoreState.Publish, Steps, Confirm, NewManifest, Slices;
    OkMeans(s, d, data, f);
    var slices := Slices(s.cfg.hash, data, s.cfg.chunkSize);
    Runs.StepsFrame(Begun(s), slices, |slices|, s.nextId, f);
    StepsShelved(Begun(s), slices, |slices|, s.nextId, f);
  }

  // ----- The record of an attempt that commits -----

  /** The record of a commit: committed (3), verified (2), current (0), healthy (1) unless it wants more replicas. */
  ghost predicate RecordOf(s: State, r: Record, d: Descriptor, data: Bytes, slices: seq<Slice>)
  {
    && r.descriptor == d && r.lifecycle == 3 && r.integrity == 2 && r.freshness == 0
    && r.replicaSet == ReplicaSet(d.id, d.generation, d.requiredReplicaCount, [s.nextId],
                                  if d.requiredReplicaCount <= 1 then 1 else 0, 1, 0)
    && |r.chunks| == |slices| == |r.manifest.chunks|
    && (forall i :: 0 <= i < |slices| ==>
          && ChunkOf(r.chunks[i], slices[i], s.nextId + 1 + i)
          && r.manifest.chunks[i] == ManifestEntry(PrefixId(slices[i].digest), slices[i].offset))
    && ManifestOf(s, r.manifest, d, data)
  }

  ghost predicate ManifestOf(s: State, m: Manifest, d: Descriptor, data: Bytes)
  {
    && m == Manifest(m.id, 1, d.id, d.generation, m.chunks, |data|, s.cfg.hash(data), d.lineage, d.parent, d.base,
                     d.provenance, d.durability, d.requiredReplicaCount, m.semanticDigest)
    && m.semanticDigest == s.cfg.hash(Semantics(m))
  }

  /** The authoritative local replica a commit adds, with the bytes that were written for it. */
  ghost predicate ReplicaOf(s: State, t: State, written: nat)
  {
    t.replicas == if s.nextId in s.replicas then s.replicas
                  else s.replicas[s.nextId := Replica(s.nextId, 1, s.cfg.primary, 0, 0, 2, 0, written, 0)]
  }

  lemma SemanticsAlike(m: Manifest, digest: Digest)
    ensures Semantics(m.(semanticDigest := digest)) == Semantics(m)
  {
    hide EntryBytes;
  }

  lemma CommitWrites(s: State, t: State, d: Descriptor, draft: Draft, data: Bytes, replica: Id)
    requires d.id !in s.checkpoints && t == CommitRecord(s, d, draft, |data|, s.cfg.hash(data), replica)
    ensures d.id in t.checkpoints
    ensures var r := t.checkpoints[d.id];
      && r.descriptor == d && r.lifecycle == 3 && r.integrity == 2 && r.freshness == 0 && r.chunks == draft.chunks
      && r.replicaSet == ReplicaSet(d.id, d.generation, d.requiredReplicaCount, [replica],
                                    if d.requiredReplicaCount <= 1 then 1 else 0, 1, 0)
      && r.manifest.chunks == SortEntries(draft.entries) && ManifestOf(s, r.manifest, d, data)
      && t.placements == s.placements
      && t.replicas == if replica in s.replicas then s.replicas
                       else s.replicas[replica := Replica(replica, 1, s.cfg.primary, 0, 0, 2, 0, draft.written, 0)]
  {
    hide SortEntries, Semantics;
    var m := Manifest(s.nextId, 1, d.id, d.generation, SortEntries(draft.entries), |data|, s.cfg.hash(data),
                      d.lineage, d.parent, d.base, d.provenance, d.durability, d.requiredReplicaCount,
                      s.cfg.hash(data));
    SemanticsAlike(m, s.cfg.hash(Semantics(m)));
  }

  lemma OkMeans(s: State, d: Descriptor, data: Bytes, f: Faults)
    requires StoreState.Publish(s, d, data, f).1.Ok?
    ensures s.cfg.chunkSize > 0 && d.id !in s.checkpoints && PublishSteps(s, data, f).error.None?
    ensures var p := PublishSteps(s, data, f);
      && Confirm(p.s, p.draft, data, f).Ok?
      && StoreState.Publish(s, d, data, f) ==
         (CommitRecord(p.s, d, p.draft, |data|, Confirm(p.s, p.draft, data, f).value, s.nextId),
          Ok(Receipt(NewManifest(p.s, d, p.draft, |data|, Confirm(p.s, p.draft, data, f).value), p.draft.chunks,
                     p.draft.written, if |data| >= p.draft.written then |data| - p.draft.written else 0,
                     p.draft.hits, p.draft.misses)))
  {
    hide PublishSteps, Confirm, CommitRecord, NewManifest, Rollback;
  }

  lemma ConfirmedDigest(s: State, draft: Draft, data: Bytes, f: Faults)
    requires Confirm(s, draft, data, f).Ok?
    ensures Confirm(s, draft, data, f).value == s.cfg.hash(data)
  {
    hide ReadBack, Span, SortEntries;
  }

  /** What an attempt has drafted by the end of its loop. */
  ghost predicate Drawn(s: State, p: Progress, slices: seq<Slice>)
  {
    && p.s.cfg == s.cfg && p.s.replicas == s.replicas && p.s.checkpoints == s.checkpoints
    && |p.draft.chunks| == |slices| == |SortEntries(p.draft.entries)|
    && forall i :: 0 <= i < |slices| ==>
         && ChunkOf(p.draft.chunks[i], slices[i], s.nextId + 1 + i)
         && PlacementOf(s, p.s, s.nextId + 1 + i, s.nextId, |slices[i].bytes|)
         && SortEntries(p.draft.entries)[i] == ManifestEntry(PrefixId(slices[i].digest), slices[i].offset)
  }

  lemma AttemptDraws(s: State, data: Bytes, f: Faults)
    requires s.cfg.chunkSize > 0 && PublishSteps(s, data, f).error.None?
    ensures Drawn(s, PublishSteps(s, data, f), Slices(s.cfg.hash, data, s.cfg.chunkSize))
  {
    hide Steps, Slices, ChunkOf, Tiles, PrefixId, SortEntries;
    var slices, p := Slices(s.cfg.hash, data, s.cfg.chunkSize), PublishSteps(s, data, f);
    Runs.StepsFrame(Begun(s), slices, |slices|, s.nextId, f);
    StepsLaid(Begun(s), slices, |slices|, s.nextId, f);
    StepsNoted(Begun(s), slices, |slices|, s.nextId, f);
    SlicesAreTiles(s.cfg.hash, data, s.cfg.chunkSize);
    EntriesInOrder(s.cfg.hash, data, s.cfg.chunkSize, slices, p.draft.entries);
  }

  /** What a publication that returns has recorded: the checkpoint, its chunks and placements, its replica. */
  lemma CommitShape(s: State, d: Descriptor, data: Bytes, f: Faults)
    requires StoreState.Publish(s, d, data, f).1.Ok?
    ensures s.cfg.chunkSize > 0
    ensures var (t, receipt) := StoreState.Publish(s, d, data, f);
      var slices := Slices(s.cfg.hash, data, s.cfg.chunkSize);
      && d.id in t.checkpoints && RecordOf(s, t.checkpoints[d.id], d, data, slices)
      && ReplicaOf(s, t, receipt.value.written)
      && (forall i :: 0 <= i < |slices| ==> PlacementOf(s, t, s.nextId + 1 + i, s.nextId, |slices[i].bytes|))
      && receipt.value.manifest == t.checkpoints[d.id].manifest && receipt.value.chunks == t.checkpoints[d.id].chunks
      && (receipt.value.written <= |data| ==> receipt.value.written + receipt.value.deduplicated == |data|)
  {
    hide StoreState.Publish, PublishSteps, Confirm, CommitRecord, NewManifest, Slices, ChunkOf, ManifestOf, PrefixId,
         SortEntries;
    OkMeans(s, d, data, f);
    var p, t := PublishSteps(s, data, f), StoreState.Publish(s, d, data, f).0;
    AttemptDraws(s, data, f);
    ConfirmedDigest(p.s, p.draft, data, f);
    CommitWrites(p.s, t, d, p.draft, data, s.nextId);
    NewManifestIs(p.s, t, d, p.draft, |data|, s.cfg.hash(data), s.nextId);
    ManifestAlike(s, p.s, t.checkpoints[d.id].manifest, d, data);
  }

  lemma ManifestAlike(s: State, t: State, m: Manifest, d: Descriptor, data: Bytes)
    requires t.cfg == s.cfg && ManifestOf(t, m, d, data)
    ensures ManifestOf(s, m, d, data)
  {
    hide Semantics;
  }

  lemma NewManifestIs(s: State, t: State, d: Descriptor, draft: Draft, size: nat, digest: Digest, replica: Id)
    requires d.id !in s.checkpoints && t == CommitRecord(s, d, draft, size, digest, replica)
    ensures d.id in t.checkpoints && t.checkpoints[d.id].manifest == NewManifest(s, d, draft, size, digest)
  {
    hide NewManifest;
  }

  // ----- Retirement, authority and the collector -----

  /** A new family is empty at generation 1, expects generation 1 first, and uses up its id; a known one is kept. */
  lemma FamilyCreated(s: State)
    ensures var t, id := StoreState.CreateFamily(s), s.nextFamilyId;
      && t == s.(nextFamilyId := id + 1, families := t.families, nextGeneration := s.nextGeneration[id := 1])
      && t.families == if id in s.families then s.families else s.families[id := Family(id, 1, [])]
  {
  }

  /** Only a committed checkpoint (3) is retired (8), and nothing else changes. */
  lemma RetireExactly(s: State, id: Id)
    ensures var (t, e) := Retention.Retire(s, id);
      if id in s.checkpoints && s.checkpoints[id].lifecycle == 3 then
        e.None? && t == s.(checkpoints := s.checkpoints[id := s.checkpoints[id].(lifecycle := 8)])
      else t == s && e == Some(if id in s.checkpoints then Transaction else NotFound)
  {
  }

  /**
   After a reset nothing is being created (0) or written (1): such checkpoints have failed (11). No blob
   counts as verified: each must be revalidated (2), and is unverified (1) unless known to be corrupt (3).
   */
  lemma ResetExactly(s: State)
    ensures var t := Runs.AuthorityReset(s);
      && t.checkpoints.Keys == s.checkpoints.Keys && t.blobs.Keys == s.blobs.Keys
      && t == s.(checkpoints := t.checkpoints, blobs := t.blobs, gc := s.gc.(phase := 0))
      && (forall id :: id in s.checkpoints ==>
            var life := s.checkpoints[id].lifecycle;
            t.checkpoints[id] == s.checkpoints[id].(lifecycle := if life == 0 || life == 1 then 11 else life))
      && forall b :: b in s.blobs ==>
           t.blobs[b] == s.blobs[b].(freshness := 2, integrity := if s.blobs[b].integrity == 3 then 3 else 1)
  {
  }

  /** A plan marks (2) under a new epoch and generation; a run completes (4) and forgets what was planned. */
  lemma CollectorMarks(s: State, reachable: set<Id>, list: seq<Id>, eligible: seq<Id>, retained: set<Id>, f: Faults)
    ensures var t := Plan(s, reachable, list);
      && t.gc.epoch == s.nextId && t.nextId == s.nextId + 1 && t.gc.generation == s.gc.generation + 1
      && t.gc.phase == 2 && t.gc.freshness == 0 && t.gc.reachable == reachable && t.gc.reclaimable == list
      && t.gc.markedBytes == Sums.Sum(MarkedSizes(s.blobs, reachable)) && t.gc.reclaimedBytes == s.gc.reclaimedBytes
      && t == s.(nextId := t.nextId, gc := t.gc)
    ensures var t := Run(s, eligible, retained, f);
      t.gc == s.gc.(phase := 4, reachable := {}, reclaimable := [])
  {
    hide Sweep, Reclaim, Reachable, MarkedSizes;
    SweepKeepsCollector(s, eligible);
    ReclaimKeepsCollector(Sweep(s, eligible), Reachable(s.checkpoints, retained), s.gc.reclaimable, f);
  }

  /** A restarted collector keeps its epoch, generation, phase and totals but no plan; its freshness is unknown (3). */
  lemma RestartForgetsPlan(s: State)
    ensures Persistence.Recovered(Runs.Reopened(s), s).gc ==
            s.gc.(reachable := {}, reclaimable := [], freshness := 3)
  {
    hide Persistence.ImageOf, Persistence.RaiseBy, Persistence.StartFamilies, Persistence.NextAll;
  }

  lemma {:induction false} SweepKeepsCollector(s: State, ids: seq<Id>)
    ensures Sweep(s, ids).gc == s.gc
  {
    hide ReleaseAll;
    if ids != [] {
      SweepKeepsCollector(s, ids[..|ids| - 1]);
    }
  }

  lemma {:induction false} ReclaimKeepsCollector(s: State, reachable: set<Id>, list: seq<Id>, f: Faults)
    ensures Reclaim(s, reachable, list, f).gc == s.gc
  {
    hide RemoveFrom, BlobKey;
    if list != [] {
      ReclaimKeepsCollector(s, reachable, list[..|list| - 1], f);
    }
  }
}

/** Restore returns the published bytes, verify tells the truth about it, and neither loses anything. */
module RestoreCorrectness {
  import opened Basics
  import opened Model
  import opened Chunking
  import opened StoreState
  import opened Invariant
  import opened Publication
  import opened Recovery

  // ----- What restore and verify may change -----

  ghost predicate HealthOnly(r: Record, q: Record)
  {
    q == r.(integrity := q.integrity, replicaSet := r.replicaSet.(durabilityState := q.replicaSet.durabilityState))
  }

  /** Only integrity marks, replica roles and durability states may differ. */
  ghost predicate OnlyHealth(s: State, t: State)
  {
    && t == s.(checkpoints := t.checkpoints, replicas := t.replicas)
    && t.checkpoints.Keys == s.checkpoints.Keys && t.replicas.Keys == s.replicas.Keys
    && (forall id :: id in s.checkpoints ==> HealthOnly(s.checkpoints[id], t.checkpoints[id]))
    && (forall r :: r in s.replicas ==>
          t.replicas[r] == s.replicas[r].(integrity := t.replicas[r].integrity, role := t.replicas[r].role))
  }

  lemma HealthTransitive(r: State, s: State, t: State)
    requires OnlyHealth(r, s) && OnlyHealth(s, t)
    ensures OnlyHealth(r, t)
  {
    forall id | id in r.checkpoints
      ensures HealthOnly(r.checkpoints[id], t.checkpoints[id])
    {
      assert HealthOnly(r.checkpoints[id], s.checkpoints[id]) && HealthOnly(s.checkpoints[id], t.checkpoints[id]);
    }
  }

  lemma SetIntegrityHealth(s: State, id: Id, v: Byte)
    requires id in s.checkpoints
    ensures OnlyHealth(s, SetIntegrity(s, id, v))
  {
  }

  lemma ReplicaHealth(s: State, rid: Id, integrity: Byte, role: Byte)
    requires rid in s.replicas
    ensures OnlyHealth(s, s.(replicas := s.replicas[rid := s.replicas[rid].(integrity := integrity, role := role)]))
  {
  }

  lemma DurabilityHealth(s: State, id: Id, v: Byte)
    requires id in s.checkpoints
    ensures var r := s.checkpoints[id];
      OnlyHealth(s, s.(checkpoints := s.checkpoints[id := r.(replicaSet := r.replicaSet.(durabilityState := v))]))
  {
  }

  lemma QuarantineHealth(s: State, id: Id, rid: Id)
    requires id in s.checkpoints && rid in s.replicas
    ensures OnlyHealth(s, Quarantine(s, id, rid))
  {
    hide OnlyHealth;
    SameHealth(s);
    ReplicaHealth(s, rid, INTEGRITY_CORRUPT, ROLE_QUARANTINED);
    var quarantined := s.replicas[rid].(integrity := INTEGRITY_CORRUPT, role := ROLE_QUARANTINED);
    var t := s.(replicas := s.replicas[rid := quarantined]);
    DurabilityHealth(t, id, DURABILITY_DEGRADED);
    var r := s.checkpoints[id];
    var degraded := r.(replicaSet := r.replicaSet.(durabilityState := DURABILITY_DEGRADED));
    HealthTransitive(s, t, t.(checkpoints := t.checkpoints[id := degraded]));
  }

  lemma SameHealth(s: State)
    ensures OnlyHealth(s, s)
  {
  }

  lemma {:induction false} FetchHealth(s: State, id: Id, d: Digest, cand: seq<Id>, k: nat, e: nat, f: Faults)
    requires id in s.checkpoints && k <= |cand|
    ensures OnlyHealth(s, FetchChunk(s, id, d, cand, k, e, f).0)
    decreases |cand| - k
  {
    hide OnlyHealth, Quarantine, ReadObject;
    SameHealth(s);
    if k < |cand| {
      FetchHealth(s, id, d, cand, k + 1, e, f);
      if Reachable(s, cand[k]) {
        var q := Quarantine(s, id, cand[k]);
        QuarantineHealth(s, id, cand[k]);
        HealthKeys(s, q);
        FetchHealth(q, id, d, cand, k + 1, e, f);
        HealthTransitive(s, q, FetchChunk(q, id, d, cand, k + 1, e, f).0);
      }
    }
  }

  lemma HealthKeys(s: State, t: State)
    requires OnlyHealth(s, t)
    ensures t.checkpoints.Keys == s.checkpoints.Keys && t.cfg == s.cfg && t.storage == s.storage
    ensures t.placements == s.placements && t.registered == s.registered && t.replicas.Keys == s.replicas.Keys
    ensures forall id :: id in s.checkpoints ==>
      && t.checkpoints[id].manifest == s.checkpoints[id].manifest
      && t.checkpoints[id].chunks == s.checkpoints[id].chunks
      && t.checkpoints[id].lifecycle == s.checkpoints[id].lifecycle
      && t.checkpoints[id].replicaSet.replicas == s.checkpoints[id].replicaSet.replicas
  {
  }

  lemma {:induction false} AssembleHealth(s: State, id: Id, n: nat, f: Faults)
    requires id in s.checkpoints && n <= |s.checkpoints[id].manifest.chunks|
    ensures OnlyHealth(s, Assemble(s, id, n, f).s)
  {
    hide OnlyHealth, FetchChunk, Candidates, FindChunk;
    if n == 0 {
      SameHealth(s);
    } else {
      AssembleHealth(s, id, n - 1, f);
      var a := Assemble(s, id, n - 1, f);
      HealthKeys(s, a.s);
      if a.error.None? {
        FetchEntryHealth(a, id, n - 1, f);
        HealthTransitive(s, a.s, FetchEntry(a, id, n - 1, f).s);
      }
    }
  }

  lemma FetchEntryHealth(a: Assembly, id: Id, n: nat, f: Faults)
    requires id in a.s.checkpoints && n < |a.s.checkpoints[id].manifest.chunks|
    ensures OnlyHealth(a.s, FetchEntry(a, id, n, f).s)
  {
    hide OnlyHealth, FetchChunk, Candidates, FindChunk;
    SameHealth(a.s);
    var r := a.s.checkpoints[id];
    match FindChunk(r.chunks, r.manifest.chunks[n].chunkId)
    case None =>
    case Some(c) =>
      var cand := Candidates(a.s, r, c);
      FetchHealth(a.s, id, c.digest, cand, 0, n, f);
      var t := FetchChunk(a.s, id, c.digest, cand, 0, n, f).0;
      SetIntegrityHealth(t, id, INTEGRITY_CORRUPT);
      HealthTransitive(a.s, t, SetIntegrity(t, id, INTEGRITY_CORRUPT));
  }

  lemma RestoreHealth(s: State, id: Id, f: Faults)
    ensures OnlyHealth(s, Restore(s, id, f).0)
  {
    hide OnlyHealth, Assemble;
    SameHealth(s);
    if id in s.checkpoints && Live(s.checkpoints[id]) {
      var n := |s.checkpoints[id].manifest.chunks|;
      var a := Assemble(s, id, n, f);
      AssembleHealth(s, id, n, f);
      SetIntegrityHealth(a.s, id, INTEGRITY_CORRUPT);
      SetIntegrityHealth(a.s, id, INTEGRITY_VERIFIED);
      HealthTransitive(s, a.s, SetIntegrity(a.s, id, INTEGRITY_CORRUPT));
      HealthTransitive(s, a.s, SetIntegrity(a.s, id, INTEGRITY_VERIFIED));
    }
  }

  lemma VerifyHealth(s: State, id: Id, f: Faults)
    ensures OnlyHealth(s, VerifyCheckpoint(s, id, f).0)
  {
    hide OnlyHealth, ScanChunks;
    SameHealth(s);
    if id in s.checkpoints {
      forall v: Byte
        ensures OnlyHealth(s, SetIntegrity(s, id, v))
      {
        SetIntegrityHealth(s, id, v);
      }
    }
  }

  /** Health marks are outside the invariant. */
  lemma HealthKeepsSafe(s: State, t: State)
    requires Safe(s) && OnlyHealth(s, t)
    ensures Safe(t)
  {
    hide Uses, ChunkOk, BlobsOk, Content, BlobKey, PrefixId;
    forall d: Digest
      ensures Uses(t.checkpoints, d) == Uses(s.checkpoints, d)
    {
      UsesHealth(s, t, d);
    }
    forall id | id in t.checkpoints
      ensures RecordOk(t.cfg.primary, t.placements, t.replicas, id, t.checkpoints[id])
      ensures Live(t.checkpoints[id]) ==> Content(t.storage, t.checkpoints[id]) == Content(s.storage, s.checkpoints[id])
    {
      assert HealthOnly(s.checkpoints[id], t.checkpoints[id]);
      assert RecordOk(s.cfg.primary, s.placements, s.replicas, id, s.checkpoints[id]);
      SameContent(s.storage, s.checkpoints[id], t.checkpoints[id]);
    }
  }

  lemma SameContent(st: Storage, r: Record, q: Record)
    requires q.chunks == r.chunks
    ensures Content(st, q) == Content(st, r)
  {
  }

  lemma UsesHealth(s: State, t: State, d: Digest)
    requires OnlyHealth(s, t)
    ensures Uses(t.checkpoints, d) == Uses(s.checkpoints, d)
  {
    HealthKeys(s, t);
    assert UseMap(t.checkpoints, d) == UseMap(s.checkpoints, d);
  }

  // ----- Reading everything back -----

  /** Nothing fails: the backend answers every call. */
  ghost predicate AllUp(f: Faults)
  {
    (forall i :: f.verify(i)) && (forall i, k :: f.read(i, k))
  }

  /** Within one checkpoint the eight-byte chunk ids tell the digests apart. */
  ghost predicate IdsFaithful(chunks: seq<Chunk>)
  {
    forall i, j :: 0 <= i < |chunks| && 0 <= j < |chunks| && chunks[i].id == chunks[j].id ==>
           chunks[i].digest == chunks[j].digest
  }

  ghost predicate IntactUpTo(s: State, chunks: seq<Chunk>, n: nat)
    requires n <= |chunks|
  {
    forall i :: 0 <= i < n ==> Intact(s.cfg.hash, s.storage, chunks[i].digest)
  }

  lemma {:induction false} FindChunkFinds(chunks: seq<Chunk>, i: nat)
    requires i < |chunks|
    ensures FindChunk(chunks, chunks[i].id).Some?
    ensures FindChunk(chunks, chunks[i].id).value in chunks && FindChunk(chunks, chunks[i].id).value.id == chunks[i].id
  {
    if chunks[0].id != chunks[i].id {
      FindChunkFinds(chunks[1..], i - 1);
    }
  }

  /** What a lookup by chunk id makes of a list of chunks: each becomes the first with its id. */
  ghost function Resolve(chunks: seq<Chunk>): (r: seq<Chunk>)
    ensures |r| == |chunks|
    ensures forall i :: 0 <= i < |chunks| ==> FindChunk(chunks, chunks[i].id) == Some(r[i])
  {
    assert forall i :: 0 <= i < |chunks| ==> FindChunk(chunks, chunks[i].id).Some? by {
      forall i | 0 <= i < |chunks| ensures FindChunk(chunks, chunks[i].id).Some? { FindChunkFinds(chunks, i); }
    }
    seq(|chunks|, i requires 0 <= i < |chunks| => FindChunk(chunks, chunks[i].id).value)
  }

  /** The lookup by id ends at a chunk with the same id, on the record's one replica. */
  lemma FoundChunk(s: State, id: Id, r: Record, i: nat)
    requires RecordOk(s.cfg.primary, s.placements, s.replicas, id, r) && i < |r.chunks|
    ensures var c := FindChunk(r.chunks, r.manifest.chunks[i].chunkId);
      c == Some(Resolve(r.chunks)[i]) && Candidates(s, r, c.value) == r.replicaSet.replicas
  {
    hide PrefixId;
    FindChunkFinds(r.chunks, i);
    var c := FindChunk(r.chunks, r.chunks[i].id).value;
    var j :| 0 <= j < |r.chunks| && r.chunks[j] == c;
    assert ChunkOk(s.placements, r.chunks[j], r.replicaSet.replicas[0]);
    assert c.placements[1..] == [];
    assert PlacedReplicas(s.placements, c.placements) == [r.replicaSet.replicas[0]];
    assert [r.replicaSet.replicas[0]] == r.replicaSet.replicas;
  }

  /** One entry, read from the one replica: its bytes if the object is intact, an error otherwise. */
  lemma FetchOne(a: Assembly, id: Id, n: nat, f: Faults)
    requires id in a.s.checkpoints && a.s.registered && AllUp(f)
    requires RecordOk(a.s.cfg.primary, a.s.placements, a.s.replicas, id, a.s.checkpoints[id])
    requires n < |a.s.checkpoints[id].chunks| && a.error.None?
    ensures var b, d := FetchEntry(a, id, n, f), Resolve(a.s.checkpoints[id].chunks)[n].digest;
      && (Intact(a.s.cfg.hash, a.s.storage, d) ==> b == Assembly(a.s, a.out + ObjectOf(a.s.storage, d), None))
      && (!Intact(a.s.cfg.hash, a.s.storage, d) ==> b.error.Some?)
  {
    hide BlobKey, FindChunk, Candidates, Resolve, ChunkOk;
    var r := a.s.checkpoints[id];
    FoundChunk(a.s, id, r, n);
    var d := Resolve(r.chunks)[n].digest;
    var rid := r.replicaSet.replicas;
    assert FetchChunk(a.s, id, d, rid, 0, n, f).1 ==
           if Intact(a.s.cfg.hash, a.s.storage, d) then Some(ObjectOf(a.s.storage, d)) else None;
  }

  lemma {:induction false} AssembleAll(s: State, id: Id, n: nat, f: Faults)
    requires id in s.checkpoints && s.registered && AllUp(f)
    requires RecordOk(s.cfg.primary, s.placements, s.replicas, id, s.checkpoints[id]) && n <= |s.checkpoints[id].chunks|
    ensures var a, chunks := Assemble(s, id, n, f), Resolve(s.checkpoints[id].chunks);
      && (IntactUpTo(s, chunks, n) ==> a == Assembly(s, Contents(s.storage, chunks, n), None))
      && (!IntactUpTo(s, chunks, n) ==> a.error.Some?)
  {
    hide Intact, FetchEntry, Resolve, ChunkOk, ObjectOf, AllUp;
    if n > 0 {
      AssembleAll(s, id, n - 1, f);
      var a, chunks := Assemble(s, id, n - 1, f), Resolve(s.checkpoints[id].chunks);
      if IntactUpTo(s, chunks, n - 1) {
        FetchOne(a, id, n - 1, f);
      }
    }
  }

  /** Every chunk is stored intact and together they have the manifest's digest. */
  ghost predicate Whole(s: State, r: Record)
  {
    IntactUpTo(s, r.chunks, |r.chunks|) && s.cfg.hash(Content(s.storage, r)) == r.manifest.checkpointDigest
  }

  ghost function Resolved(r: Record): Record { r.(chunks := Resolve(r.chunks)) }

  /**
   With the backend up, restore succeeds exactly when the chunks its lookups by id find are whole,
   and returns their content.
   */
  lemma RestoreResolves(s: State, id: Id, f: Faults)
    requires id in s.checkpoints && Live(s.checkpoints[id]) && s.registered && AllUp(f)
    requires RecordOk(s.cfg.primary, s.placements, s.replicas, id, s.checkpoints[id])
    ensures var r := Resolved(s.checkpoints[id]);
      if Whole(s, r) then Restore(s, id, f).1 == Ok(Content(s.storage, r)) else Restore(s, id, f).1.Err?
  {
    hide Intact, Resolve, ChunkOk, Assemble, AllUp, Contents;
    AssembleAll(s, id, |s.checkpoints[id].chunks|, f);
  }

  lemma {:induction false} SameDigestsContents(st: Storage, a: seq<Chunk>, b: seq<Chunk>, n: nat)
    requires n <= |a| && n <= |b| && forall i :: 0 <= i < n ==> a[i].digest == b[i].digest
    ensures Contents(st, a, n) == Contents(st, b, n)
  {
    hide ObjectOf;
    if n > 0 {
      SameDigestsContents(st, a, b, n - 1);
    }
  }

  lemma FaithfulResolve(chunks: seq<Chunk>)
    ensures IdsFaithful(chunks) <==> forall i :: 0 <= i < |chunks| ==> Resolve(chunks)[i].digest == chunks[i].digest
  {
    var r := Resolve(chunks);
    forall i | 0 <= i < |chunks|
      ensures r[i] in chunks && r[i].id == chunks[i].id
    {
      FindChunkFinds(chunks, i);
    }
    if forall i :: 0 <= i < |chunks| ==> r[i].digest == chunks[i].digest {
      forall i, j | 0 <= i < |chunks| && 0 <= j < |chunks| && chunks[i].id == chunks[j].id
        ensures chunks[i].digest == chunks[j].digest
      {
        assert r[i] == r[j];
      }
    }
  }

  lemma FaithfulWhole(s: State, r: Record)
    requires IdsFaithful(r.chunks)
    ensures Content(s.storage, Resolved(r)) == Content(s.storage, r) && (Whole(s, Resolved(r)) <==> Whole(s, r))
  {
    hide Resolve, IdsFaithful, Contents, Intact;
    FaithfulResolve(r.chunks);
    SameDigestsContents(s.storage, Resolve(r.chunks), r.chunks, |r.chunks|);
  }

  /** With the backend up, restore succeeds exactly when the checkpoint is whole, and returns its content. */
  lemma RestoreExact(s: State, id: Id, f: Faults)
    requires id in s.checkpoints && Live(s.checkpoints[id]) && s.registered && AllUp(f)
    requires RecordOk(s.cfg.primary, s.placements, s.replicas, id, s.checkpoints[id])
    requires IdsFaithful(s.checkpoints[id].chunks)
    ensures Restore(s, id, f).1.Ok? <==> Whole(s, s.checkpoints[id])
    ensures Restore(s, id, f).1.Ok? ==> Restore(s, id, f).1.value == Content(s.storage, s.checkpoints[id])
  {
    hide IdsFaithful, Restore, AllUp, Whole, Content, Resolved, RecordOk;
    RestoreResolves(s, id, f);
    FaithfulWhole(s, s.checkpoints[id]);
  }

  lemma {:induction false} ScanAll(s: State, chunks: seq<Chunk>, n: nat, f: Faults)
    requires n <= |chunks| && AllUp(f)
    ensures if IntactUpTo(s, chunks, n)
      then ScanChunks(s, chunks, n, f) == Joined(Contents(s.storage, chunks, n))
      else ScanChunks(s, chunks, n, f) == Found(INTEGRITY_MISSING)
           || ScanChunks(s, chunks, n, f) == Found(INTEGRITY_CORRUPT)
  {
    hide BlobKey;
    if n > 0 {
      ScanAll(s, chunks, n - 1, f);
    }
  }

  lemma VerifyExact(s: State, id: Id, f: Faults)
    requires id in s.checkpoints && s.registered && AllUp(f)
    requires RecordOk(s.cfg.primary, s.placements, s.replicas, id, s.checkpoints[id])
    ensures VerifyCheckpoint(s, id, f).1 == Ok(INTEGRITY_VERIFIED) <==> Whole(s, s.checkpoints[id])
  {
    hide Intact, ChunkOk, ScanChunks, AllUp, Contents;
    var r := s.checkpoints[id];
    ScanAll(s, r.chunks, |r.chunks|, f);
    assert Reachable(s, r.replicaSet.replicas[0]);
  }

  /**
   Verify walks the chunk records and restore the manifest with a lookup by chunk id; with the
   backend up they agree about every checkpoint that is not deleted.
   */
  lemma VerifyAgreesWithRestore(s: State, id: Id, f: Faults)
    requires id in s.checkpoints && Live(s.checkpoints[id]) && s.registered && AllUp(f)
    requires RecordsOk(s) && IdsFaithful(s.checkpoints[id].chunks)
    ensures VerifyCheckpoint(s, id, f).1 == Ok(INTEGRITY_VERIFIED) <==> Restore(s, id, f).1.Ok?
  {
    hide Whole, Restore, VerifyCheckpoint, RecordOk, IdsFaithful;
    RestoreExact(s, id, f);
    VerifyExact(s, id, f);
  }

  /** Whatever is stored and whatever fails, restored bytes have the digest of the manifest. */
  lemma RestoreNeverLies(s: State, id: Id, f: Faults)
    requires Restore(s, id, f).1.Ok?
    ensures id in s.checkpoints && Live(s.checkpoints[id])
    ensures s.cfg.hash(Restore(s, id, f).1.value) == s.checkpoints[id].manifest.checkpointDigest
  {
    hide Assemble, OnlyHealth;
    var n := |s.checkpoints[id].manifest.chunks|;
    AssembleHealth(s, id, n, f);
    HealthKeys(s, Assemble(s, id, n, f).s);
  }

  /** In a state that satisfies the invariant every live checkpoint is whole. */
  lemma SafeIsWhole(s: State, id: Id)
    requires Safe(s) && id in s.checkpoints && Live(s.checkpoints[id])
    ensures Whole(s, s.checkpoints[id])
  {
    hide Uses, Count, Intact, Contents, RecordsOk;
    var chunks := s.checkpoints[id].chunks;
    forall i | 0 <= i < |chunks|
      ensures Intact(s.cfg.hash, s.storage, chunks[i].digest)
    {
      CountMember(chunks, i);
      UsesMember(s.checkpoints, id, chunks[i].digest);
    }
  }

  // ----- Exactly when restore returns the published bytes -----

  /** The chunks are the slices of the data and their objects hold the slices' own bytes. */
  ghost predicate StoredAs(st: Storage, chunks: seq<Chunk>, slices: seq<Slice>)
  {
    |chunks| == |slices| && forall i :: 0 <= i < |slices| ==> StoredAt(st, chunks[i], slices[i])
  }

  ghost predicate StoredAt(st: Storage, c: Chunk, slice: Slice)
  {
    c.digest == slice.digest && ObjectOf(st, c.digest) == slice.bytes
  }

  /** Where the first n slices end. */
  function EndOf(slices: seq<Slice>, n: nat): nat
    requires n <= |slices|
  {
    if n == 0 then 0 else slices[n - 1].offset + |slices[n - 1].bytes|
  }

  lemma {:induction false} StoredContents(hash: Bytes -> Digest, data: Bytes, size: nat, st: Storage,
                                          chunks: seq<Chunk>, slices: seq<Slice>, n: nat)
    requires Tiles(hash, data, size, 0, slices) && StoredAs(st, chunks, slices) && n <= |slices|
    ensures EndOf(slices, n) <= |data| && Contents(st, chunks, n) == data[..EndOf(slices, n)]
    ensures n == |slices| ==> EndOf(slices, n) == |data|
    ensures n < |slices| ==> slices[n].offset == EndOf(slices, n)
  {
    hide ObjectOf;
    if n > 0 {
      StoredContents(hash, data, size, st, chunks, slices, n - 1);
      assert TileAt(hash, data, size, slices, n - 1) && StoredAt(st, chunks[n - 1], slices[n - 1]);
      assert data[..EndOf(slices, n)] == data[..EndOf(slices, n - 1)] + slices[n - 1].bytes;
    }
  }

  lemma {:induction false} ContentsPrefix(st: Storage, chunks: seq<Chunk>, m: nat, n: nat)
    requires m <= n <= |chunks|
    ensures Contents(st, chunks, m) <= Contents(st, chunks, n)
  {
    hide ObjectOf;
    if m < n {
      ContentsPrefix(st, chunks, m, n - 1);
    }
  }

  lemma {:induction false} FindsEarlier(chunks: seq<Chunk>, i: nat) returns (j: nat)
    requires i < |chunks|
    ensures j <= i && FindChunk(chunks, chunks[i].id) == Some(chunks[j])
  {
    if chunks[0].id == chunks[i].id {
      j := 0;
    } else {
      j := FindsEarlier(chunks[1..], i - 1);
      j := j + 1;
    }
  }

  /** Where the chunk found is another one, other bytes come back: at that place, or past the end. */
  lemma UnfaithfulDiffers(hash: Bytes -> Digest, data: Bytes, size: nat, st: Storage, chunks: seq<Chunk>,
                          slices: seq<Slice>, i: nat)
    requires Tiles(hash, data, size, 0, slices) && StoredAs(st, chunks, slices) && i < |slices|
    requires Resolve(chunks)[i].digest != chunks[i].digest
    requires forall k :: 0 <= k < i ==> Resolve(chunks)[k].digest == chunks[k].digest
    ensures Contents(st, Resolve(chunks), |chunks|) != data
  {
    hide ObjectOf, Resolve, StoredAs, Tiles, FindChunk;
    StoredHere(hash, data, size, st, chunks, slices, i);
    var r, n := Resolve(chunks), |chunks|;
    var j := FindsEarlier(chunks, i);
    assert r[i] == chunks[j] && j < i;
    SameDigestsContents(st, r, chunks, i);
    StoredContents(hash, data, size, st, chunks, slices, i);
    ContentsPrefix(st, r, i + 1, n);
    StoredHere(hash, data, size, st, chunks, slices, j);
    var at, got := slices[i].offset, slices[j].bytes;
    assert Contents(st, r, i + 1) == data[..at] + got;
    assert slices[i].digest != slices[j].digest;
    assert Contents(st, r, n)[at..at + |got|] == got;
    if at + |got| <= |data| {
      assert data[at..at + |got|] == slices[i].bytes;
    }
  }

  lemma StoredHere(hash: Bytes -> Digest, data: Bytes, size: nat, st: Storage, chunks: seq<Chunk>,
                   slices: seq<Slice>, i: nat)
    requires Tiles(hash, data, size, 0, slices) && StoredAs(st, chunks, slices) && i < |slices|
    ensures TileAt(hash, data, size, slices, i) && StoredAt(st, chunks[i], slices[i]) && |chunks| == |slices|
  {
  }

  lemma {:induction false} FirstMismatch(chunks: seq<Chunk>, n: nat) returns (i: nat)
    requires n <= |chunks| && exists k :: 0 <= k < n && Resolve(chunks)[k].digest != chunks[k].digest
    ensures i < n && Resolve(chunks)[i].digest != chunks[i].digest
    ensures forall k :: 0 <= k < i ==> Resolve(chunks)[k].digest == chunks[k].digest
  {
    hide Resolve;
    if k :| 0 <= k < n - 1 && Resolve(chunks)[k].digest != chunks[k].digest {
      i := FirstMismatch(chunks, n - 1);
    } else {
      i := n - 1;
    }
  }

  /**
   A live checkpoint of a state with the invariant, whose objects hold the very slices of the
   data, restores to the data if and only if its chunk ids tell its slices apart; verification
   does not look at chunk ids and calls it verified either way.
   */
  lemma RestoreReturnsData(s: State, id: Id, data: Bytes, f: Faults)
    requires Safe(s) && id in s.checkpoints && Live(s.checkpoints[id]) && s.registered && AllUp(f)
    requires s.cfg.chunkSize > 0
    requires StoredAs(s.storage, s.checkpoints[id].chunks, Slices(s.cfg.hash, data, s.cfg.chunkSize))
    ensures Restore(s, id, f).1 == Ok(data) <==> IdsFaithful(s.checkpoints[id].chunks)
    ensures VerifyCheckpoint(s, id, f).1 == Ok(INTEGRITY_VERIFIED)
  {
    hide Sound, ContentsOk, Restore, VerifyCheckpoint, AllUp, Whole, Contents, Resolve, RecordOk, IdsFaithful,
         StoredAs, Tiles, SlicesFrom, Slices;
    var r, hash, size := s.checkpoints[id], s.cfg.hash, s.cfg.chunkSize;
    var slices := Slices(hash, data, size);
    SlicesCover(hash, data, size);
    StoredContents(hash, data, size, s.storage, r.chunks, slices, |slices|);
    assert data[..|data|] == data;
    assert |r.chunks| == |slices| by { StoredCount(s.storage, r.chunks, slices); }
    SafeIsWhole(s, id);
    VerifyExact(s, id, f);
    RestoreResolves(s, id, f);
    FaithfulResolve(r.chunks);
    if IdsFaithful(r.chunks) {
      RestoreExact(s, id, f);
    } else {
      var i := FirstMismatch(r.chunks, |r.chunks|);
      UnfaithfulDiffers(hash, data, size, s.storage, r.chunks, slices, i);
    }
  }

  lemma SlicesCover(hash: Bytes -> Digest, data: Bytes, size: nat)
    requires size > 0
    ensures Tiles(hash, data, size, 0, Slices(hash, data, size))
  {
    SlicesTile(hash, data, size, 0);
  }

  lemma StoredCount(st: Storage, chunks: seq<Chunk>, slices: seq<Slice>)
    requires StoredAs(st, chunks, slices)
    ensures |chunks| == |slices|
  {
  }
}

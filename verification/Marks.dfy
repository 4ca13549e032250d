/** Which marks verification and restore leave behind, outcome by outcome. */
module Marks {
  import opened Basics
  import opened Model
  import opened StoreState
  import opened Publication
  import opened Recovery
  import opened RestoreCorrectness

  // ----- Verification -----

  /** The first chunk whose object is not good. */
  ghost predicate FirstBad(s: State, chunks: seq<Chunk>, k: nat)
  {
    k < |chunks| && IntactUpTo(s, chunks, k) && !Intact(s.cfg.hash, s.storage, chunks[k].digest)
  }

  ghost predicate Present(s: State, d: Digest) { BlobKey(d) in s.storage.backend.objects }

  lemma {:induction false} ScanStops(s: State, chunks: seq<Chunk>, n: nat, k: nat, f: Faults)
    requires AllUp(f) && FirstBad(s, chunks, k) && k < n <= |chunks|
    ensures ScanChunks(s, chunks, n, f) == Found(if Present(s, chunks[k].digest) then 3 else 4)
  {
    hide BlobKey;
    if n - 1 == k {
      ScanAll(s, chunks, k, f);
    } else {
      ScanStops(s, chunks, n - 1, k, f);
    }
  }

  /** Verification changes the integrity mark of the one checkpoint, to what it returns, and nothing else. */
  lemma VerifyMarks(s: State, id: Id, f: Faults)
    ensures var (t, v) := VerifyCheckpoint(s, id, f);
      if v.Err? then t == s
      else
        && id in s.checkpoints
        && t == s.(checkpoints := s.checkpoints[id := s.checkpoints[id].(integrity := v.value)])
  {
    hide ScanChunks;
  }

  ghost predicate SomeReachable(s: State, r: Record)
  {
    exists k :: 0 <= k < |r.replicaSet.replicas| && Reachable(s, r.replicaSet.replicas[k])
  }

  /**
   On a backend that answers, verification says missing (4) when no replica is reachable or the first
   object that is not good is absent, corrupt (3) when it is present or the whole has another digest
   than the manifest, and verified (2) otherwise.
   */
  lemma VerdictExactly(s: State, id: Id, f: Faults)
    requires id in s.checkpoints && AllUp(f)
    ensures var r, v := s.checkpoints[id], VerifyCheckpoint(s, id, f).1;
      if !SomeReachable(s, r) then v == Ok(4)
      else if IntactUpTo(s, r.chunks, |r.chunks|) then
        v == Ok(if s.cfg.hash(Content(s.storage, r)) == r.manifest.checkpointDigest then 2 else 3)
      else
        exists k: nat :: FirstBad(s, r.chunks, k) && v == Ok(if Present(s, r.chunks[k].digest) then 3 else 4)
  {
    hide ScanChunks, Intact, Contents, AllUp, Present;
    var r := s.checkpoints[id];
    ScanAll(s, r.chunks, |r.chunks|, f);
    if SomeReachable(s, r) && !IntactUpTo(s, r.chunks, |r.chunks|) {
      var k := FindBad(s, r.chunks, |r.chunks|);
      ScanStops(s, r.chunks, |r.chunks|, k, f);
    }
  }

  lemma {:induction false} FindBad(s: State, chunks: seq<Chunk>, n: nat) returns (k: nat)
    requires n <= |chunks| && !IntactUpTo(s, chunks, n)
    ensures FirstBad(s, chunks, k) && k < n
  {
    hide Intact;
    if IntactUpTo(s, chunks, n - 1) {
      k := n - 1;
    } else {
      k := FindBad(s, chunks, n - 1);
    }
  }

  /** What stops a scan at the i-th chunk, if anything does. */
  ghost function ScanFault(s: State, c: Chunk, i: nat, f: Faults): Option<Scan>
  {
    if !Present(s, c.digest) then Some(Found(4))
    else if f.verify(i) && !Intact(s.cfg.hash, s.storage, c.digest) then Some(Found(3))
    else if !f.read(i, 0) then Some(Threw(BackendUnavailable))
    else None
  }

  /** Whatever fails, verification joins the content of the chunks, or stops at the first that stops it. */
  lemma {:induction false} ScanExactly(s: State, chunks: seq<Chunk>, n: nat, f: Faults)
    requires n <= |chunks|
    ensures (forall i :: 0 <= i < n ==> ScanFault(s, chunks[i], i, f).None?) ==>
              ScanChunks(s, chunks, n, f) == Joined(Contents(s.storage, chunks, n))
    ensures forall k :: 0 <= k < n && ScanFault(s, chunks[k], k, f).Some?
                        && (forall i :: 0 <= i < k ==> ScanFault(s, chunks[i], i, f).None?) ==>
              ScanChunks(s, chunks, n, f) == ScanFault(s, chunks[k], k, f).value
  {
    hide BlobKey;
    if n > 0 {
      ScanExactly(s, chunks, n - 1, f);
    }
  }

  // ----- Restore -----

  /** Replicas may have become corrupt and quarantined (3 and 3), and the checkpoint degraded (2) with them. */
  ghost predicate Suspected(s: State, t: State, id: Id)
  {
    && id in s.checkpoints && id in t.checkpoints && t.replicas.Keys == s.replicas.Keys
    && (forall r :: r in s.replicas ==> SameOrQuarantined(s.replicas[r], t.replicas[r]))
    && var was, now := s.checkpoints[id].replicaSet.durabilityState, t.checkpoints[id].replicaSet.durabilityState;
       now == if t.replicas == s.replicas then was else 2
  }

  ghost predicate SameOrQuarantined(a: Replica, b: Replica)
  {
    b == a || (a.integrity == 2 && b == a.(integrity := 3, role := 3))
  }

  lemma SuspectedThrough(r: State, s: State, t: State, id: Id)
    requires Suspected(r, s, id) && Suspected(s, t, id)
    ensures Suspected(r, t, id)
  {
    forall k | k in r.replicas ensures SameOrQuarantined(r.replicas[k], t.replicas[k]) {
      assert SameOrQuarantined(r.replicas[k], s.replicas[k]) && SameOrQuarantined(s.replicas[k], t.replicas[k]);
    }
    if s.replicas != r.replicas {
      var k :| k in r.replicas && s.replicas[k] != r.replicas[k];
      assert SameOrQuarantined(r.replicas[k], s.replicas[k]) && SameOrQuarantined(s.replicas[k], t.replicas[k]);
      assert t.replicas[k] != r.replicas[k];
    }
  }

  lemma QuarantineSuspects(s: State, id: Id, rid: Id)
    requires id in s.checkpoints && rid in s.replicas
    ensures Suspected(s, Quarantine(s, id, rid), id)
    ensures Quarantine(s, id, rid).checkpoints[id].integrity == s.checkpoints[id].integrity
  {
    var t := Quarantine(s, id, rid);
    if s.replicas[rid].integrity == 2 {
      assert t.replicas[rid] != s.replicas[rid];
    }
  }

  lemma {:induction false} FetchSuspects(s: State, id: Id, d: Digest, cand: seq<Id>, k: nat, e: nat, f: Faults)
    requires id in s.checkpoints && k <= |cand|
    ensures var t := FetchChunk(s, id, d, cand, k, e, f).0;
      Suspected(s, t, id) && t.checkpoints[id].integrity == s.checkpoints[id].integrity
    decreases |cand| - k
  {
    hide Suspected, Quarantine, ReadObject;
    SameSuspects(s, id);
    if k < |cand| {
      FetchSuspects(s, id, d, cand, k + 1, e, f);
      if Reachable(s, cand[k]) {
        var q := Quarantine(s, id, cand[k]);
        QuarantineSuspects(s, id, cand[k]);
        QuarantineHealth(s, id, cand[k]);
        HealthKeys(s, q);
        FetchSuspects(q, id, d, cand, k + 1, e, f);
        SuspectedThrough(s, q, FetchChunk(q, id, d, cand, k + 1, e, f).0, id);
      }
    }
  }

  lemma SameSuspects(s: State, id: Id)
    requires id in s.checkpoints
    ensures Suspected(s, s, id)
  {
  }

  lemma MarkSuspects(s: State, t: State, id: Id, v: Byte)
    requires Suspected(s, t, id)
    ensures Suspected(s, SetIntegrity(t, id, v), id)
  {
  }

  /** The marks of an assembly: untouched so far, or corrupt after the error that says so. */
  ghost predicate Assembled(s: State, a: Assembly, id: Id)
  {
    && Suspected(s, a.s, id)
    && a.s.checkpoints[id].integrity == (if a.error == Some(Error.Corrupt) then 3 else s.checkpoints[id].integrity)
    && (a.error.Some? ==> a.error.value == Error.Corrupt || a.error.value == Malformed)
  }

  lemma EntryAssembled(s: State, a: Assembly, id: Id, n: nat, f: Faults)
    requires Assembled(s, a, id) && a.error.None? && n < |a.s.checkpoints[id].manifest.chunks|
    ensures Assembled(s, FetchEntry(a, id, n, f), id)
  {
    hide Suspected, FetchChunk, FindChunk, Candidates;
    InRecords(s, a, id);
    var r := a.s.checkpoints[id];
    match FindChunk(r.chunks, r.manifest.chunks[n].chunkId)
    case None =>
    case Some(c) =>
      var cand := Candidates(a.s, r, c);
      FetchSuspects(a.s, id, c.digest, cand, 0, n, f);
      var t := FetchChunk(a.s, id, c.digest, cand, 0, n, f).0;
      SuspectedThrough(s, a.s, t, id);
      MarkSuspects(s, t, id, INTEGRITY_CORRUPT);
  }

  lemma InRecords(s: State, a: Assembly, id: Id)
    requires Suspected(s, a.s, id)
    ensures id in s.checkpoints && id in a.s.checkpoints
  {
  }

  lemma {:induction false} AssemblyMarks(s: State, id: Id, n: nat, f: Faults)
    requires id in s.checkpoints && n <= |s.checkpoints[id].manifest.chunks|
    ensures Assembled(s, Assemble(s, id, n, f), id)
  {
    hide Suspected, FetchEntry;
    if n == 0 {
      SameSuspects(s, id);
    } else {
      AssemblyMarks(s, id, n - 1, f);
      var a := Assemble(s, id, n - 1, f);
      if a.error.None? && n - 1 < |a.s.checkpoints[id].manifest.chunks| {
        hide Assembled;
        EntryAssembled(s, a, id, n - 1, f);
      }
    }
  }

  /**
   Whatever fails: a restore that returns leaves the checkpoint verified (2), one that finds bytes
   corrupt or of the wrong digest leaves it corrupt (3), one whose manifest names no chunk leaves it as it
   was, and one of a checkpoint that is eligible (9) or deleted (10) changes nothing. Replicas are only
   ever quarantined.
   */
  lemma RestoreMarks(s: State, id: Id, f: Faults)
    ensures var (t, r) := Restore(s, id, f);
      if id !in s.checkpoints || s.checkpoints[id].lifecycle == 9 || s.checkpoints[id].lifecycle == 10 then
        t == s && r == Err(NotFound)
      else
        && Suspected(s, t, id)
        && (r.Ok? || r.error == Error.Corrupt || r.error == DigestMismatch || r.error == Malformed)
        && t.checkpoints[id].integrity ==
           if r.Ok? then 2 else if r.error == Malformed then s.checkpoints[id].integrity else 3
  {
    hide Assemble, Suspected;
    if id in s.checkpoints && Live(s.checkpoints[id]) {
      var n := |s.checkpoints[id].manifest.chunks|;
      AssemblyMarks(s, id, n, f);
      var a := Assemble(s, id, n, f);
      InRecords(s, a, id);
      MarkSuspects(s, a.s, id, INTEGRITY_CORRUPT);
      MarkSuspects(s, a.s, id, INTEGRITY_VERIFIED);
    }
  }

  // ----- Where restore looks -----

  lemma {:induction false} PlacedExactly(placements: map<Id, Placement>, ids: seq<Id>, rid: Id)
    ensures rid in PlacedReplicas(placements, ids) <==>
            exists p :: p in ids && p in placements && placements[p].replicaId == rid
  {
    if ids != [] {
      PlacedExactly(placements, ids[1..], rid);
      assert ids == [ids[0]] + ids[1..];
    }
  }

  lemma {:induction false} PlacedNone(placements: map<Id, Placement>, ids: seq<Id>)
    ensures PlacedReplicas(placements, ids) == [] <==> forall p :: p in ids ==> p !in placements
  {
    if ids != [] {
      PlacedNone(placements, ids[1..]);
      assert ids == [ids[0]] + ids[1..];
    }
  }

  /** The replicas of the chunk's recorded placements, or the checkpoint's own if none is recorded. */
  lemma CandidatesExactly(s: State, r: Record, c: Chunk, rid: Id)
    ensures rid in Candidates(s, r, c) <==>
            if exists p :: p in c.placements && p in s.placements
            then exists p :: p in c.placements && p in s.placements && s.placements[p].replicaId == rid
            else rid in r.replicaSet.replicas
  {
    hide PlacedReplicas;
    PlacedExactly(s.placements, c.placements, rid);
    PlacedNone(s.placements, c.placements);
  }

  /** One of the candidates from the k-th on is reachable and answers. */
  ghost predicate SomeAnswers(s: State, cand: seq<Id>, k: nat, e: nat, f: Faults)
  {
    exists j :: k <= j < |cand| && Reachable(s, cand[j]) && f.read(e, j)
  }

  lemma SameAnswers(s: State, t: State, cand: seq<Id>, k: nat, e: nat, f: Faults)
    requires OnlyHealth(s, t)
    ensures SomeAnswers(s, cand, k, e, f) <==> SomeAnswers(t, cand, k, e, f)
  {
    assert forall j :: 0 <= j < |cand| ==> Reachable(s, cand[j]) == Reachable(t, cand[j]);
  }

  /** Whatever fails, a chunk is found if and only if its object is good and some candidate answers. */
  lemma {:induction false} FetchExactly(s: State, id: Id, d: Digest, cand: seq<Id>, k: nat, e: nat, f: Faults)
    requires id in s.checkpoints && k <= |cand|
    ensures FetchChunk(s, id, d, cand, k, e, f).1 ==
            if Intact(s.cfg.hash, s.storage, d) && SomeAnswers(s, cand, k, e, f) then Some(ObjectOf(s.storage, d))
            else None
    decreases |cand| - k
  {
    hide BlobKey, Quarantine, OnlyHealth;
    if k < |cand| {
      FetchExactly(s, id, d, cand, k + 1, e, f);
      if Reachable(s, cand[k]) {
        var q := Quarantine(s, id, cand[k]);
        QuarantineHealth(s, id, cand[k]);
        HealthKeys(s, q);
        SameAnswers(s, q, cand, k + 1, e, f);
        FetchExactly(q, id, d, cand, k + 1, e, f);
      }
    }
  }

  // ----- Exactly when a restore returns -----

  /** The chunk the i-th manifest entry names is recorded, its object is good, and some candidate answers. */
  ghost predicate EntryServed(s: State, r: Record, i: nat, f: Faults)
    requires i < |r.manifest.chunks|
  {
    match FindChunk(r.chunks, r.manifest.chunks[i].chunkId)
    case None => false
    case Some(c) => Intact(s.cfg.hash, s.storage, c.digest) && SomeAnswers(s, Candidates(s, r, c), 0, i, f)
  }

  /** The objects of the first n entries, joined. */
  ghost function Served(s: State, r: Record, n: nat): Bytes
    requires n <= |r.manifest.chunks|
  {
    if n == 0 then []
    else
      match FindChunk(r.chunks, r.manifest.chunks[n - 1].chunkId)
      case None => []
      case Some(c) => Served(s, r, n - 1) + ObjectOf(s.storage, c.digest)
  }

  lemma EntryExactly(s: State, a: Assembly, id: Id, n: nat, f: Faults)
    requires OnlyHealth(s, a.s) && id in s.checkpoints && id in a.s.checkpoints && a.error.None?
    requires n < |s.checkpoints[id].manifest.chunks| == |a.s.checkpoints[id].manifest.chunks|
    ensures var b, r := FetchEntry(a, id, n, f), s.checkpoints[id];
      && (b.error.None? <==> EntryServed(s, r, n, f))
      && (b.error.None? ==>
            b.out == a.out + ObjectOf(s.storage, FindChunk(r.chunks, r.manifest.chunks[n].chunkId).value.digest))
  {
    hide OnlyHealth, FetchChunk, FindChunk, SomeAnswers, ObjectOf, PlacedReplicas, Intact;
    HealthKeys(s, a.s);
    var r, q := s.checkpoints[id], a.s.checkpoints[id];
    match FindChunk(q.chunks, q.manifest.chunks[n].chunkId)
    case None =>
    case Some(c) =>
      var cand := Candidates(a.s, q, c);
      assert cand == Candidates(s, r, c);
      FetchExactly(a.s, id, c.digest, cand, 0, n, f);
      SameAnswers(s, a.s, cand, 0, n, f);
  }

  lemma {:induction false} AssembledExactly(s: State, id: Id, n: nat, f: Faults)
    requires id in s.checkpoints && n <= |s.checkpoints[id].manifest.chunks|
    ensures var a, r := Assemble(s, id, n, f), s.checkpoints[id];
      && (a.error.None? <==> forall i :: 0 <= i < n ==> EntryServed(s, r, i, f))
      && (a.error.None? ==> a.out == Served(s, r, n))
  {
    hide OnlyHealth, FetchEntry, EntryServed, ObjectOf, FindChunk;
    if n > 0 {
      AssembledExactly(s, id, n - 1, f);
      var a := Assemble(s, id, n - 1, f);
      AssembleHealth(s, id, n - 1, f);
      HealthKeys(s, a.s);
      if a.error.None? {
        EntryExactly(s, a, id, n - 1, f);
        if EntryServed(s, s.checkpoints[id], n - 1, f) {
          ServedNext(s, s.checkpoints[id], n, f);
        }
      }
    }
  }

  lemma ServedNext(s: State, r: Record, n: nat, f: Faults)
    requires 0 < n <= |r.manifest.chunks| && EntryServed(s, r, n - 1, f)
    ensures FindChunk(r.chunks, r.manifest.chunks[n - 1].chunkId).Some?
    ensures Served(s, r, n) ==
            Served(s, r, n - 1)
            + ObjectOf(s.storage, FindChunk(r.chunks, r.manifest.chunks[n - 1].chunkId).value.digest)
  {
    hide Intact, SomeAnswers, Candidates, ObjectOf, FindChunk;
  }

  /**
   Whatever fails and whatever is stored: a restore of a live checkpoint returns if and only if every entry
   of its manifest is served and what is served has the manifest's digest, and it returns just that.
   */
  lemma RestoreWhateverFails(s: State, id: Id, f: Faults)
    requires id in s.checkpoints && Live(s.checkpoints[id])
    ensures var r, got := s.checkpoints[id], Restore(s, id, f).1;
      var n := |r.manifest.chunks|;
      && (got.Ok? <==>
            && (forall i :: 0 <= i < n ==> EntryServed(s, r, i, f))
            && s.cfg.hash(Served(s, r, n)) == r.manifest.checkpointDigest)
      && (got.Ok? ==> got.value == Served(s, r, n))
  {
    hide Assemble, OnlyHealth, EntryServed, Served;
    var n := |s.checkpoints[id].manifest.chunks|;
    AssembledExactly(s, id, n, f);
    AssembleHealth(s, id, n, f);
    HealthKeys(s, Assemble(s, id, n, f).s);
  }

  // ----- Exactly when a replica is quarantined -----

  lemma FetchBad(s: State, id: Id, d: Digest, rid: Id, e: nat, f: Faults)
    requires id in s.checkpoints && Reachable(s, rid) && AllUp(f) && !Intact(s.cfg.hash, s.storage, d)
    ensures var (t, got) := FetchChunk(s, id, d, [rid], 0, e, f);
      got.None? && t == if Present(s, d) then Quarantine(s, id, rid) else s
  {
    hide BlobKey, Quarantine;
    var q := Quarantine(s, id, rid);
    QuarantineHealth(s, id, rid);
    assert FetchChunk(s, id, d, [rid], 1, e, f) == (s, None);
    assert FetchChunk(q, id, d, [rid], 1, e, f) == (q, None);
  }

  lemma {:induction false} AssemblyStops(s: State, id: Id, m: nat, n: nat, f: Faults)
    requires id in s.checkpoints && m <= n <= |s.checkpoints[id].manifest.chunks| && Assemble(s, id, m, f).error.Some?
    ensures Assemble(s, id, n, f) == Assemble(s, id, m, f)
  {
    hide FetchEntry;
    if m < n {
      AssemblyStops(s, id, m, n - 1, f);
    }
  }

  /**
   On a backend that answers, a restore that meets an object that is not good fails as corrupt, and takes
   the replica out of service and degrades the checkpoint exactly when the object was there to be read.
   */
  lemma BadObjectQuarantines(s: State, id: Id, k: nat, f: Faults)
    requires id in s.checkpoints && Live(s.checkpoints[id]) && s.registered && AllUp(f)
    requires RecordOk(s.cfg.primary, s.placements, s.replicas, id, s.checkpoints[id])
    requires FirstBad(s, Resolve(s.checkpoints[id].chunks), k)
    requires s.replicas[s.checkpoints[id].replicaSet.replicas[0]].integrity == 2
    ensures var (t, r) := Restore(s, id, f);
      var rid := s.checkpoints[id].replicaSet.replicas[0];
      && r == Err(Error.Corrupt) && t.checkpoints[id].integrity == 3
      && if Present(s, Resolve(s.checkpoints[id].chunks)[k].digest) then
           && t.replicas == s.replicas[rid := s.replicas[rid].(integrity := 3, role := 3)]
           && t.checkpoints[id].replicaSet.durabilityState == 2
         else t.replicas == s.replicas && t.checkpoints[id].replicaSet == s.checkpoints[id].replicaSet
  {
    hide Intact, Resolve, ChunkOk, AllUp, Contents, FindChunk, Candidates, FetchChunk, Present;
    var r, chunks := s.checkpoints[id], Resolve(s.checkpoints[id].chunks);
    AssembleAll(s, id, k, f);
    FoundChunk(s, id, r, k);
    var rid := r.replicaSet.replicas[0];
    assert r.replicaSet.replicas == [rid];
    FetchBad(s, id, chunks[k].digest, rid, k, f);
    var a := Assemble(s, id, k, f);
    assert Assemble(s, id, k + 1, f) == FetchEntry(a, id, k, f);
    AssemblyStops(s, id, k + 1, |r.manifest.chunks|, f);
  }
}

/** A store that saves its state and is opened again answers every restore as before. */
module Restart {
  import opened Basics
  import opened Model
  import opened Chunking
  import opened Dedup
  import opened StoreState
  import opened Collection
  import opened RestoreCorrectness
  import Runs
  import Recovery
  import Retention
  import Persistence
  import Backend

  // ----- Restoring does not look at what a restart changes -----

  /** Equal in everything a restore reads or writes. */
  ghost predicate Alike(s: State, t: State)
  {
    && t.cfg == s.cfg && t.registered == s.registered && t.placements == s.placements && t.replicas == s.replicas
    && t.storage.backend.objects == s.storage.backend.objects && t.checkpoints.Keys == s.checkpoints.Keys
    && forall id :: id in s.checkpoints ==> SameButName(s.checkpoints[id], t.checkpoints[id])
  }

  ghost predicate SameButName(r: Record, q: Record)
  {
    q == r.(descriptor := q.descriptor)
  }

  lemma UpdateAlike(s: State, t: State, id: Id, r: Record, q: Record, replicas: map<Id, Replica>)
    requires Alike(s, t) && id in s.checkpoints && SameButName(r, q)
    ensures Alike(s.(replicas := replicas, checkpoints := s.checkpoints[id := r]),
                  t.(replicas := replicas, checkpoints := t.checkpoints[id := q]))
  {
  }

  lemma QuarantineAlike(s: State, t: State, id: Id, rid: Id)
    requires Alike(s, t) && id in s.checkpoints && id in t.checkpoints && rid in s.replicas && rid in t.replicas
    ensures Alike(Recovery.Quarantine(s, id, rid), Recovery.Quarantine(t, id, rid))
  {
    hide Alike;
    AlikeKeys(s, t, id);
    var r, q := s.checkpoints[id], t.checkpoints[id];
    UpdateAlike(s, t, id, r.(replicaSet := r.replicaSet.(durabilityState := DURABILITY_DEGRADED)),
                q.(replicaSet := q.replicaSet.(durabilityState := DURABILITY_DEGRADED)),
                s.replicas[rid := s.replicas[rid].(integrity := INTEGRITY_CORRUPT, role := ROLE_QUARANTINED)]);
  }

  lemma IntegrityAlike(s: State, t: State, id: Id, v: Byte)
    requires Alike(s, t) && id in s.checkpoints && id in t.checkpoints
    ensures Alike(Recovery.SetIntegrity(s, id, v), Recovery.SetIntegrity(t, id, v))
  {
    hide Alike;
    AlikeKeys(s, t, id);
    UpdateAlike(s, t, id, s.checkpoints[id].(integrity := v), t.checkpoints[id].(integrity := v), s.replicas);
  }

  lemma {:induction false} FetchAlike(s: State, t: State, id: Id, d: Digest, cand: seq<Id>, k: nat, e: nat, f: Faults)
    requires Alike(s, t) && id in s.checkpoints && k <= |cand|
    ensures var (s', got) := Recovery.FetchChunk(s, id, d, cand, k, e, f);
      var (t', same) := Recovery.FetchChunk(t, id, d, cand, k, e, f);
      Alike(s', t') && got == same
    decreases |cand| - k
  {
    hide Alike, Recovery.Quarantine, BlobKey;
    AlikeKeys(s, t, id);
    if k < |cand| {
      FetchAlike(s, t, id, d, cand, k + 1, e, f);
      if Recovery.Reachable(s, cand[k]) {
        QuarantineAlike(s, t, id, cand[k]);
        var q := Recovery.Quarantine(s, id, cand[k]);
        QuarantineKeys(s, id, cand[k]);
        FetchAlike(q, Recovery.Quarantine(t, id, cand[k]), id, d, cand, k + 1, e, f);
      }
    }
  }

  lemma QuarantineKeys(s: State, id: Id, rid: Id)
    requires id in s.checkpoints && rid in s.replicas
    ensures id in Recovery.Quarantine(s, id, rid).checkpoints
  {
  }

  lemma AlikeKeys(s: State, t: State, id: Id)
    requires Alike(s, t) && id in s.checkpoints
    ensures id in t.checkpoints && SameButName(s.checkpoints[id], t.checkpoints[id])
    ensures t.cfg == s.cfg && t.registered == s.registered && t.placements == s.placements && t.replicas == s.replicas
    ensures t.storage.backend.objects == s.storage.backend.objects
  {
  }

  lemma EntryAlike(a: Recovery.Assembly, b: Recovery.Assembly, id: Id, n: nat, f: Faults)
    requires Alike(a.s, b.s) && a.out == b.out && a.error == b.error && id in a.s.checkpoints
    requires n < |a.s.checkpoints[id].manifest.chunks| && id in b.s.checkpoints
    requires n < |b.s.checkpoints[id].manifest.chunks|
    ensures var a', b' := Recovery.FetchEntry(a, id, n, f), Recovery.FetchEntry(b, id, n, f);
      Alike(a'.s, b'.s) && a'.out == b'.out && a'.error == b'.error
  {
    hide Alike, Recovery.FindChunk, Recovery.FetchChunk, Recovery.PlacedReplicas, Recovery.SetIntegrity;
    AlikeKeys(a.s, b.s, id);
    var r := a.s.checkpoints[id];
    var c := Recovery.FindChunk(r.chunks, r.manifest.chunks[n].chunkId);
    if c.Some? {
      var cand := Recovery.Candidates(a.s, r, c.value);
      FetchAlike(a.s, b.s, id, c.value.digest, cand, 0, n, f);
      IntegrityAlike(Recovery.FetchChunk(a.s, id, c.value.digest, cand, 0, n, f).0,
                     Recovery.FetchChunk(b.s, id, c.value.digest, cand, 0, n, f).0, id, INTEGRITY_CORRUPT);
    }
  }

  lemma {:induction false} AssembleAlike(s: State, t: State, id: Id, n: nat, f: Faults)
    requires Alike(s, t) && id in s.checkpoints && id in t.checkpoints
    requires n <= |s.checkpoints[id].manifest.chunks| && n <= |t.checkpoints[id].manifest.chunks|
    ensures var a, b := Recovery.Assemble(s, id, n, f), Recovery.Assemble(t, id, n, f);
      Alike(a.s, b.s) && a.out == b.out && a.error == b.error
  {
    hide Alike, Recovery.FetchEntry;
    if n > 0 {
      AssembleAlike(s, t, id, n - 1, f);
      var a, b := Recovery.Assemble(s, id, n - 1, f), Recovery.Assemble(t, id, n - 1, f);
      AlikeKeys(a.s, b.s, id);
      if a.error.None? && n - 1 < |a.s.checkpoints[id].manifest.chunks| {
        EntryAlike(a, b, id, n - 1, f);
      }
    }
  }

  lemma RestoreAlike(s: State, t: State, id: Id, f: Faults)
    requires Alike(s, t)
    ensures Recovery.Restore(s, id, f).1 == Recovery.Restore(t, id, f).1
  {
    hide Alike, Recovery.Assemble, Recovery.SetIntegrity;
    if id in s.checkpoints {
      AlikeKeys(s, t, id);
      var n := |s.checkpoints[id].manifest.chunks|;
      AssembleAlike(s, t, id, n, f);
      AlikeKeys(Recovery.Assemble(s, id, n, f).s, Recovery.Assemble(t, id, n, f).s, id);
    } else {
      AbsentAlike(s, t, id);
    }
  }

  lemma AbsentAlike(s: State, t: State, id: Id)
    requires Alike(s, t) && id !in s.checkpoints
    ensures id !in t.checkpoints
  {
  }

  /** After a restart every checkpoint, damaged or not, restores to the same bytes or the same error. */
  lemma RestoresAsBefore(s: State, id: Id, f: Faults)
    ensures Recovery.Restore(Persistence.Recovered(Runs.Reopened(s), s), id, f).1 == Recovery.Restore(s, id, f).1
  {
    hide Recovery.Restore;
    RecoveredAlike(s);
    RestoreAlike(s, Persistence.Recovered(Runs.Reopened(s), s), id, f);
  }

  lemma RecoveredAlike(s: State)
    ensures Alike(s, Persistence.Recovered(Runs.Reopened(s), s))
  {
    hide Persistence.ImageOf, Persistence.NextAll, Persistence.RaiseBy, Persistence.StartFamilies;
  }

  // ----- Records sit under their own identities in every run -----

  lemma AcquireKeyed(hash: Bytes -> Digest, st: Storage, slice: Slice, i: nat, f: Faults)
    requires Persistence.KeyedBy(Persistence.DedupKey, st.dedup)
    ensures Persistence.KeyedBy(Persistence.DedupKey, Acquire(hash, st, slice, i, f).st.dedup)
  {
    hide BlobKey, PrefixId, Backend.VerifyObject;
  }

  /** What the loop over the slices may change, keyed. */
  ghost predicate ShelvesKeyed(s: State)
  {
    && Persistence.KeyedBy(Persistence.DedupKey, s.storage.dedup)
    && Persistence.KeyedBy(Persistence.BlobRecordKey, s.blobs)
    && Persistence.KeyedBy(Persistence.PlacementKey, s.placements)
  }

  lemma NoteKeyed(s: State, st: Storage, draft: Draft, slice: Slice, blobId: Id, replica: Id)
    requires ShelvesKeyed(s) && Persistence.KeyedBy(Persistence.DedupKey, st.dedup)
    ensures ShelvesKeyed(Note(s.(storage := st), draft, slice, blobId, replica).s)
  {
    hide PrefixId, NewChunk, Refs;
  }

  lemma SwapKeyed(s: State, st: Storage)
    requires ShelvesKeyed(s) && Persistence.KeyedBy(Persistence.DedupKey, st.dedup)
    ensures ShelvesKeyed(s.(storage := st))
  {
  }

  lemma StepKeyed(p: Progress, slice: Slice, i: nat, replica: Id, f: Faults)
    requires ShelvesKeyed(p.s)
    ensures ShelvesKeyed(StoreState.Step(p, slice, i, replica, f).s)
  {
    hide ShelvesKeyed, Acquire, Note, PrefixId, Persistence.KeyedBy;
    if p.error.None? {
      var d, draft := slice.digest, p.draft;
      KeyedTable(p.s);
      AcquireKeyed(p.s.cfg.hash, p.s.storage, slice, i, f);
      match Acquire(p.s.cfg.hash, p.s.storage, slice, i, f)
      case Refused(st, _) =>
        SwapKeyed(p.s, st);
      case Shared(st) =>
        NoteKeyed(p.s, st, draft.(hits := draft.hits + 1), slice,
                  if d in st.dedup then st.dedup[d].blobId else PrefixId(d), replica);
      case Wrote(st) =>
        NoteKeyed(p.s, st,
                  draft.(misses := draft.misses + 1, written := draft.written + |slice.bytes|,
                         wrote := draft.wrote + [d]),
                  slice, PrefixId(d), replica);
    }
  }

  lemma KeyedTable(s: State)
    requires ShelvesKeyed(s)
    ensures Persistence.KeyedBy(Persistence.DedupKey, s.storage.dedup)
  {
  }

  lemma {:induction false} StepsKeyed(s: State, slices: seq<Slice>, n: nat, replica: Id, f: Faults)
    requires n <= |slices| && ShelvesKeyed(s)
    ensures ShelvesKeyed(Steps(s, slices, n, replica, f).s)
  {
    hide ShelvesKeyed, StoreState.Step;
    if n > 0 {
      StepsKeyed(s, slices, n - 1, replica, f);
      StepKeyed(Steps(s, slices, n - 1, replica, f), slices[n - 1], n - 1, replica, f);
    }
  }

  lemma {:induction false} ReleaseWrittenKeyed(t: Table, wrote: seq<Digest>)
    requires Persistence.KeyedBy(Persistence.DedupKey, t)
    ensures Persistence.KeyedBy(Persistence.DedupKey, ReleaseWritten(t, wrote))
  {
    if wrote != [] {
      ReleaseWrittenKeyed(t, wrote[..|wrote| - 1]);
    }
  }

  /** The other tables. */
  ghost predicate RecordsKeyed(s: State)
  {
    && Persistence.KeyedBy(Persistence.FamilyKey, s.families)
    && Persistence.KeyedBy(Persistence.RecordKey, s.checkpoints)
    && Persistence.KeyedBy(Persistence.ReplicaKey, s.replicas)
    && Persistence.KeyedBy(Persistence.PolicyKey, s.retention)
  }

  lemma Both(s: State)
    ensures Persistence.KeysMatch(s) <==> ShelvesKeyed(s) && RecordsKeyed(s)
  {
    hide Persistence.KeyedBy;
  }

  lemma CommitKeyed(s: State, d: Descriptor, draft: Draft, size: nat, digest: Digest, replica: Id)
    requires ShelvesKeyed(s) && RecordsKeyed(s)
    ensures var t := CommitRecord(s, d, draft, size, digest, replica); ShelvesKeyed(t) && RecordsKeyed(t)
  {
    hide NewManifest, SortEntries;
  }

  lemma RollbackKeyed(s: State, draft: Draft, f: Faults)
    requires ShelvesKeyed(s) && RecordsKeyed(s)
    ensures ShelvesKeyed(Rollback(s, draft, f)) && RecordsKeyed(Rollback(s, draft, f))
  {
    hide RemoveWritten, ReleaseWritten;
    ReleaseWrittenKeyed(s.storage.dedup, draft.wrote);
  }

  lemma PublishKeyed(s: State, d: Descriptor, data: Bytes, f: Faults)
    requires ShelvesKeyed(s) && RecordsKeyed(s)
    ensures var t := StoreState.Publish(s, d, data, f).0; ShelvesKeyed(t) && RecordsKeyed(t)
  {
    hide ShelvesKeyed, RecordsKeyed, Steps, Confirm, CommitRecord, Rollback, NewManifest, Slices;
    if Admission(s, d).None? {
      var slices, s1 := Slices(s.cfg.hash, data, s.cfg.chunkSize), s.(nextId := s.nextId + 1);
      var p := Steps(s1, slices, |slices|, s.nextId, f);
      PlainKeyed(s, s1);
      StepsKeyed(s1, slices, |slices|, s.nextId, f);
      Runs.StepsFrame(s1, slices, |slices|, s.nextId, f);
      FrameKeyed(s1, p.s);
      RollbackKeyed(p.s, p.draft, f);
      if p.error.None? && Confirm(p.s, p.draft, data, f).Ok? {
        CommitKeyed(p.s, d, p.draft, |data|, Confirm(p.s, p.draft, data, f).value, s.nextId);
      }
    }
  }

  lemma PlainKeyed(s: State, t: State)
    requires ShelvesKeyed(s) && RecordsKeyed(s) && t.storage.dedup == s.storage.dedup && t.blobs == s.blobs
    requires t.placements == s.placements && t.families == s.families && t.checkpoints == s.checkpoints
    requires t.replicas == s.replicas && t.retention == s.retention
    ensures ShelvesKeyed(t) && RecordsKeyed(t)
  {
    hide Persistence.KeyedBy;
  }

  lemma FrameKeyed(s: State, t: State)
    requires RecordsKeyed(s) && Runs.Frames(s, t)
    ensures RecordsKeyed(t)
  {
    hide Persistence.KeyedBy;
  }

  lemma {:induction false} ReleaseAllKeyed(t: Table, chunks: seq<Chunk>)
    requires Persistence.KeyedBy(Persistence.DedupKey, t)
    ensures Persistence.KeyedBy(Persistence.DedupKey, ReleaseAll(t, chunks))
  {
    if chunks != [] {
      ReleaseAllKeyed(t, chunks[..|chunks| - 1]);
    }
  }

  lemma SweepOneKeyed(s: State, id: Id)
    requires ShelvesKeyed(s) && RecordsKeyed(s)
    ensures ShelvesKeyed(SweepOne(s, id)) && RecordsKeyed(SweepOne(s, id))
  {
    hide ReleaseAll, ShelvesKeyed, RecordsKeyed;
    if id in s.checkpoints && Live(s.checkpoints[id]) {
      KeyedTable(s);
      ReleaseAllKeyed(s.storage.dedup, s.checkpoints[id].chunks);
      SwapKeyed(s, s.storage.(dedup := ReleaseAll(s.storage.dedup, s.checkpoints[id].chunks)));
      RecordKeyed(s, SweepOne(s, id).storage, id, s.checkpoints[id].(lifecycle := LIFE_DELETED));
    }
  }

  lemma RecordKeyed(s: State, st: Storage, id: Id, r: Record)
    requires ShelvesKeyed(s.(storage := st)) && RecordsKeyed(s) && id in s.checkpoints
    requires r.descriptor == s.checkpoints[id].descriptor
    ensures var t := s.(storage := st, checkpoints := s.checkpoints[id := r]); ShelvesKeyed(t) && RecordsKeyed(t)
  {
  }

  lemma {:induction false} SweepKeyed(s: State, ids: seq<Id>)
    requires ShelvesKeyed(s) && RecordsKeyed(s)
    ensures ShelvesKeyed(Sweep(s, ids)) && RecordsKeyed(Sweep(s, ids))
  {
    hide ShelvesKeyed, RecordsKeyed, SweepOne;
    if ids != [] {
      SweepKeyed(s, ids[..|ids| - 1]);
      SweepOneKeyed(Sweep(s, ids[..|ids| - 1]), ids[|ids| - 1]);
    }
  }

  lemma ReclaimOneKeyed(s: State, reachable: set<Id>, bid: Id, b: nat, f: Faults)
    requires ShelvesKeyed(s) && RecordsKeyed(s)
    ensures var t := ReclaimOne(s, reachable, bid, b, f); ShelvesKeyed(t) && RecordsKeyed(t)
  {
    hide RemoveFrom, BlobKey;
  }

  lemma {:induction false} ReclaimKeyed(s: State, reachable: set<Id>, list: seq<Id>, f: Faults)
    requires ShelvesKeyed(s) && RecordsKeyed(s)
    ensures var t := Reclaim(s, reachable, list, f); ShelvesKeyed(t) && RecordsKeyed(t)
  {
    hide ShelvesKeyed, RecordsKeyed, ReclaimOne;
    if list != [] {
      var n := |list| - 1;
      ReclaimKeyed(s, reachable, list[..n], f);
      ReclaimOneKeyed(Reclaim(s, reachable, list[..n], f), reachable, list[n], n, f);
    }
  }

  lemma RunKeyed(s: State, eligible: seq<Id>, retained: set<Id>, f: Faults)
    requires ShelvesKeyed(s) && RecordsKeyed(s)
    ensures var t := Run(s, eligible, retained, f); ShelvesKeyed(t) && RecordsKeyed(t)
  {
    hide ShelvesKeyed, RecordsKeyed, Sweep, Reclaim, Reachable;
    var swept, reachable := Sweep(s, eligible), Reachable(s.checkpoints, retained);
    SweepKeyed(s, eligible);
    ReclaimKeyed(swept, reachable, s.gc.reclaimable, f);
    PlainKeyed(Reclaim(swept, reachable, s.gc.reclaimable, f), Run(s, eligible, retained, f));
  }

  lemma HealthKeyed(s: State, t: State)
    requires ShelvesKeyed(s) && RecordsKeyed(s) && OnlyHealth(s, t)
    ensures ShelvesKeyed(t) && RecordsKeyed(t)
  {
    forall id | id in t.checkpoints ensures t.checkpoints[id].descriptor.id == id {
      assert HealthOnly(s.checkpoints[id], t.checkpoints[id]);
    }
  }

  lemma ReopenKeyed(s: State)
    requires ShelvesKeyed(s) && RecordsKeyed(s)
    ensures var t := Persistence.Recovered(Runs.Reopened(s), s); ShelvesKeyed(t) && RecordsKeyed(t)
  {
    hide Persistence.ImageOf, Persistence.NextAll, Persistence.RaiseBy, Persistence.StartFamilies;
  }

  lemma ResetKeyed(s: State)
    requires ShelvesKeyed(s) && RecordsKeyed(s)
    ensures ShelvesKeyed(Runs.AuthorityReset(s)) && RecordsKeyed(Runs.AuthorityReset(s))
  {
  }

  lemma RetireKeyed(s: State, id: Id)
    requires ShelvesKeyed(s) && RecordsKeyed(s)
    ensures ShelvesKeyed(Retention.Retire(s, id).0) && RecordsKeyed(Retention.Retire(s, id).0)
  {
    var t := Retention.Retire(s, id).0;
    assert t == s.(checkpoints := t.checkpoints);
  }

  lemma BooksKeyed(s: State, p: Policy)
    requires ShelvesKeyed(s) && RecordsKeyed(s)
    ensures ShelvesKeyed(StoreState.CreateFamily(s)) && RecordsKeyed(StoreState.CreateFamily(s))
    ensures ShelvesKeyed(Retention.SetPolicy(s, p)) && RecordsKeyed(Retention.SetPolicy(s, p))
  {
  }

  lemma PerformKeyed(s: State, op: Runs.Op)
    requires ShelvesKeyed(s) && RecordsKeyed(s)
    ensures ShelvesKeyed(Runs.Perform(s, op)) && RecordsKeyed(Runs.Perform(s, op))
  {
    hide ShelvesKeyed, RecordsKeyed, Run, Reachable, MarkedSizes, OnlyHealth, Recovery.Restore,
         Recovery.VerifyCheckpoint, StoreState.Publish, Retention.Protected, Retention.Retire, Persistence.Recovered,
         Runs.AuthorityReset, StoreState.CreateFamily, Retention.SetPolicy;
    match op
    case Publish(d, data, f) =>
      PublishKeyed(s, d, data, f);
    case Retire(id) =>
      RetireKeyed(s, id);
    case GcRun(eligible, v, f) =>
      RunKeyed(s, eligible, Retention.Protected(s, v), f);
    case Verify(id, f) =>
      VerifyHealth(s, id, f);
      HealthKeyed(s, Recovery.VerifyCheckpoint(s, id, f).0);
    case Restore(id, f) =>
      RestoreHealth(s, id, f);
      HealthKeyed(s, Recovery.Restore(s, id, f).0);
    case ResetAuthority =>
      ResetKeyed(s);
    case Restart =>
      ReopenKeyed(s);
    case CreateFamily =>
      BooksKeyed(s, Policy(0, 0, 0, 0, 0, false, false, false, 0, 0));
    case SetPolicy(p) =>
      BooksKeyed(s, p);
    case _ =>
      PlainKeyed(s, Runs.Perform(s, op));
  }

  /** In every run, whatever fails, each table is keyed by its records' own identities. */
  lemma {:induction false} RunKeysMatch(cfg: Config, boot: Id, ops: seq<Runs.Op>)
    ensures Persistence.KeysMatch(Runs.After(Runs.Start(cfg, boot), ops).s)
  {
    hide Runs.Perform, Runs.Remember, Persistence.KeysMatch, ShelvesKeyed, RecordsKeyed;
    if ops == [] {
      StartKeyed(cfg, boot);
      Both(Runs.Init(cfg, boot));
    } else {
      var n := |ops| - 1;
      var s := Runs.After(Runs.Start(cfg, boot), ops[..n]).s;
      RunKeysMatch(cfg, boot, ops[..n]);
      Both(s);
      PerformKeyed(s, ops[n]);
      Both(Runs.Perform(s, ops[n]));
    }
  }

  lemma StartKeyed(cfg: Config, boot: Id)
    ensures ShelvesKeyed(Runs.Init(cfg, boot)) && RecordsKeyed(Runs.Init(cfg, boot))
  {
  }

  /**
   Saving in any reachable state that fits the format and loading into a new process over the same
   objects succeeds, gives the restart of the run model, saves to the same bytes again, and leaves
   every restore as it was.
   */
  lemma ReachableStatesReload(cfg: Config, boot: Id, ops: seq<Runs.Op>, id: Id, f: Faults)
    requires var i := Persistence.ImageOf(Runs.After(Runs.Start(cfg, boot), ops).s);
      Persistence.FitsImage(i) && |Persistence.PutImage(i)| <= Persistence.MAX_BODY
    ensures var s := Runs.After(Runs.Start(cfg, boot), ops).s;
      var t := Runs.After(Runs.Start(cfg, boot), ops + [Runs.Restart]).s;
      && Persistence.Load(Runs.Reopened(s), Persistence.Save(s)) == Ok(t)
      && Persistence.Save(t) == Persistence.Save(s)
      && Recovery.Restore(t, id, f).1 == Recovery.Restore(s, id, f).1
  {
    hide Persistence.ImageOf, Persistence.FitsImage, Persistence.PutImage, Persistence.Load, Persistence.Save,
         Recovery.Restore, Runs.Perform, Runs.Remember, Persistence.KeysMatch, Persistence.Recovered, Runs.Reopened;
    var s := Runs.After(Runs.Start(cfg, boot), ops).s;
    assert (ops + [Runs.Restart])[..|ops|] == ops;
    RunKeysMatch(cfg, boot, ops);
    Runs.RestartLoads(s);
    RestoresAsBefore(s, id, f);
    RestartIs(s);
    Persistence.SaveAgain(Runs.Reopened(s), s);
  }

  lemma RestartIs(s: State)
    ensures Runs.Perform(s, Runs.Restart) == Persistence.Recovered(Runs.Reopened(s), s)
    ensures Runs.Reopened(s).cfg == s.cfg
  {
    hide StoreState.Publish, Recovery.Restore, Recovery.VerifyCheckpoint, Run, Persistence.Recovered;
  }
}

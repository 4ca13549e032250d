/** A collection never takes what a live checkpoint needs. */
module CollectionSafety {
  import opened Basics
  import opened Model
  import opened Dedup
  import opened StoreState
  import opened Invariant
  import opened Publication
  import opened Collection

  // ----- Sweeping -----

  /** Releasing covered references takes exactly one per chunk and never underflows. */
  lemma {:induction false} ReleaseAllEffect(t: Table, chunks: seq<Chunk>, e: Digest)
    requires Refs(t, e) >= Count(chunks, e)
    ensures var u := ReleaseAll(t, chunks);
      && Refs(u, e) == Refs(t, e) - Count(chunks, e)
      && (e in u <==> e in t) && (e in t ==> u[e] == t[e].(refcount := u[e].refcount))
  {
    if chunks != [] {
      var n := |chunks| - 1;
      assert DigestsOf(chunks) == DigestsOf(chunks[..n]) + [chunks[n].digest];
      assert Count(chunks, e) == Count(chunks[..n], e) + (if chunks[n].digest == e then 1 else 0);
      ReleaseAllEffect(t, chunks[..n], e);
    }
  }

  lemma SweepSound(hash: Bytes -> Digest, cps: map<Id, Record>, st: Storage, id: Id, r: Record)
    requires Sound(hash, cps, st) && id in cps && Live(cps[id]) && !Live(r)
    ensures Sound(hash, cps[id := r], st.(dedup := ReleaseAll(st.dedup, cps[id].chunks)))
  {
    hide Uses, Count, BlobKey, PrefixId, ReleaseAll;
    var u := st.(dedup := ReleaseAll(st.dedup, cps[id].chunks));
    forall e: Digest
      ensures Refs(u.dedup, e) >= Uses(cps[id := r], e)
      ensures Uses(cps[id := r], e) > 0 ==> Uses(cps, e) > 0
      ensures e in u.dedup ==> e in st.dedup && u.dedup[e] == st.dedup[e].(refcount := u.dedup[e].refcount)
      ensures Uses(cps, e) == 0 ==> Refs(u.dedup, e) == Refs(st.dedup, e)
    {
      UsesDelete(cps, id, r, e);
      UsesMember(cps, id, e);
      ReleaseAllEffect(st.dedup, cps[id].chunks, e);
    }
    forall e: Digest | e in u.dedup && u.dedup[e].refcount == 0
      ensures Intact(hash, u, e)
    {
      assert Refs(u.dedup, e) == 0;
      assert Intact(hash, st, e);
    }
  }

  /** Changing one record's lifecycle, integrity or durability keeps the structure. */
  lemma RecordChange(s: State, id: Id, r: Record, st: Storage)
    requires Structured(s) && id in s.checkpoints
    requires r == s.checkpoints[id].(lifecycle := r.lifecycle, integrity := r.integrity, freshness := r.freshness,
                                     replicaSet := s.checkpoints[id].replicaSet.(durabilityState :=
                                                                                 r.replicaSet.durabilityState))
    ensures Structured(s.(checkpoints := s.checkpoints[id := r], storage := st))
  {
    hide ChunkOk, BlobsOk;
    var t := s.(checkpoints := s.checkpoints[id := r], storage := st);
    forall k | k in t.checkpoints
      ensures RecordOk(t.cfg.primary, t.placements, t.replicas, k, t.checkpoints[k])
    {
      assert RecordOk(s.cfg.primary, s.placements, s.replicas, k, s.checkpoints[k]);
    }
  }

  lemma ContentsFewer(s: State, t: State)
    requires ContentsOk(s) && t.cfg == s.cfg && KeepsUsed(t.checkpoints, s.storage, t.storage)
    requires forall id :: id in t.checkpoints && Live(t.checkpoints[id]) ==>
      id in s.checkpoints && Live(s.checkpoints[id])
      && t.checkpoints[id].chunks == s.checkpoints[id].chunks
      && t.checkpoints[id].manifest == s.checkpoints[id].manifest
    ensures ContentsOk(t)
  {
    hide KeepsUsed;
    forall id | id in t.checkpoints && Live(t.checkpoints[id])
      ensures t.cfg.hash(Content(t.storage, t.checkpoints[id])) == t.checkpoints[id].manifest.checkpointDigest
    {
      LiveContentSame(t.checkpoints, s.storage, t.storage, id);
    }
  }

  lemma SameBackendKeepsUsed(cps: map<Id, Record>, s: Storage, t: Storage)
    requires s.backend.objects == t.backend.objects
    ensures KeepsUsed(cps, s, t)
  {
    hide Uses, BlobKey;
  }

  lemma SweepOneKeeps(s: State, id: Id)
    requires Safe(s)
    ensures Safe(SweepOne(s, id))
  {
    hide Sound, Structured, ContentsOk, ReleaseAll;
    if id in s.checkpoints && Live(s.checkpoints[id]) {
      var t, r := SweepOne(s, id), s.checkpoints[id].(lifecycle := LIFE_DELETED);
      SweepSound(s.cfg.hash, s.checkpoints, s.storage, id, r);
      RecordChange(s, id, r, t.storage);
      SameBackendKeepsUsed(t.checkpoints, s.storage, t.storage);
      ContentsFewer(s, t);
    }
  }

  lemma {:induction false} SweepKeeps(s: State, ids: seq<Id>)
    requires Safe(s)
    ensures Safe(Sweep(s, ids))
    ensures Sweep(s, ids) == s.(storage := Sweep(s, ids).storage, checkpoints := Sweep(s, ids).checkpoints)
    ensures Sweep(s, ids).storage.backend == s.storage.backend
  {
    hide Safe, ReleaseAll;
    if ids != [] {
      SweepKeeps(s, ids[..|ids| - 1]);
      SweepOneKeeps(Sweep(s, ids[..|ids| - 1]), ids[|ids| - 1]);
    }
  }

  // ----- Reclaiming -----

  lemma {:induction false} RemoveFromEffect(s: State, d: Digest, replicas: seq<Id>, b: nat, f: Faults, t: Table)
    ensures var (store, removed) := RemoveFrom(s, BlobKey(d), replicas, b, f);
      && (forall e: Digest :: e != d ==> SameObject(s.storage, Storage(store, t), e))
      && (!removed ==> store == s.storage.backend)
      && (removed ==> BlobKey(d) !in store.objects)
  {
    hide BlobKey;
    KeysDiffer(d);
    if replicas != [] {
      RemoveFromEffect(s, d, replicas[..|replicas| - 1], b, f, t);
    }
  }

  /** An unreferenced digest may lose its object: the entry goes with it. */
  lemma ReclaimSound(hash: Bytes -> Digest, cps: map<Id, Record>, s: Storage, t: Storage, d: Digest, removed: bool)
    requires Sound(hash, cps, s) && Refs(s.dedup, d) == 0
    requires forall e: Digest :: e != d ==> SameObject(s, t, e)
    requires t.dedup == if removed then OrphanDropped(s.dedup, d) else s.dedup
    requires !removed ==> t.backend == s.backend
    ensures Sound(hash, cps, t) && KeepsUsed(cps, s, t)
  {
    hide Uses, BlobKey, PrefixId, Intact;
    assert Uses(cps, d) == 0;
    forall e: Digest
      ensures Refs(t.dedup, e) == Refs(s.dedup, e)
      ensures e != d || !removed ==> SameObject(s, t, e) && Intact(hash, s, e) == Intact(hash, t, e)
    {
      if e != d || !removed {
        assert SameObject(s, t, e);
        SameIntact(hash, s, t, e);
      }
    }
  }

  lemma ReclaimOneKeeps(s: State, reachable: set<Id>, bid: Id, b: nat, f: Faults)
    requires Safe(s)
    ensures Safe(ReclaimOne(s, reachable, bid, b, f))
    ensures KeepsUsed(s.checkpoints, s.storage, ReclaimOne(s, reachable, bid, b, f).storage)
  {
    hide Sound, ContentsOk, RecordsOk, KeepsUsed, RemoveFrom;
    var t := ReclaimOne(s, reachable, bid, b, f);
    SameBackendKeepsUsed(s.checkpoints, s.storage, s.storage);
    if t != s {
      var d := s.blobs[bid].digest;
      var (store, removed) := RemoveFrom(s, BlobKey(d), s.blobs[bid].replicas, b, f);
      RemoveFromEffect(s, d, s.blobs[bid].replicas, b, f, t.storage.dedup);
      ReclaimSound(s.cfg.hash, s.checkpoints, s.storage, t.storage, d, removed);
      SameRecords(s, t);
      ContentsFewer(s, t);
    }
  }

  lemma SameRecords(s: State, t: State)
    requires RecordsOk(s) && t.cfg == s.cfg && t.checkpoints == s.checkpoints
    requires t.placements == s.placements && t.replicas == s.replicas
    ensures RecordsOk(t)
  {
    hide RecordOk;
  }

  lemma KeepsUsedTransitive(cps: map<Id, Record>, r: Storage, s: Storage, t: Storage)
    requires KeepsUsed(cps, r, s) && KeepsUsed(cps, s, t)
    ensures KeepsUsed(cps, r, t)
  {
    hide Uses, SameObject;
    KeepsUsedThrough(cps, r, s, t);
  }

  lemma {:induction false} ReclaimKeeps(s: State, reachable: set<Id>, list: seq<Id>, f: Faults)
    requires Safe(s)
    ensures Safe(Reclaim(s, reachable, list, f))
    ensures Reclaim(s, reachable, list, f) == s.(storage := Reclaim(s, reachable, list, f).storage,
                                                 blobs := Reclaim(s, reachable, list, f).blobs)
    ensures KeepsUsed(s.checkpoints, s.storage, Reclaim(s, reachable, list, f).storage)
  {
    hide Safe, KeepsUsed, RemoveFrom;
    if list == [] {
      SameBackendKeepsUsed(s.checkpoints, s.storage, s.storage);
    } else {
      var n := |list| - 1;
      var t := Reclaim(s, reachable, list[..n], f);
      ReclaimKeeps(s, reachable, list[..n], f);
      ReclaimOneKeeps(t, reachable, list[n], n, f);
      KeepsUsedTransitive(s.checkpoints, s.storage, t.storage, ReclaimOne(t, reachable, list[n], n, f).storage);
    }
  }

  /**
   A collection keeps the invariant and every object a checkpoint still live after it uses,
   whatever list of checkpoints it sweeps, whatever was planned and whatever it takes to be
   retained: the reference counts alone protect them, even when the clock moved in between.
   */
  lemma RunKeeps(s: State, eligible: seq<Id>, retained: set<Id>, f: Faults)
    requires Safe(s)
    ensures var t := Run(s, eligible, retained, f);
      && Safe(t) && KeepsUsed(t.checkpoints, s.storage, t.storage)
      && t == s.(storage := t.storage, checkpoints := t.checkpoints, blobs := t.blobs, gc := t.gc)
      && t.checkpoints == Sweep(s, eligible).checkpoints
  {
    hide Safe, KeepsUsed, Sweep, Reclaim, Reachable;
    var swept := Sweep(s, eligible);
    var reachable := Reachable(s.checkpoints, retained);
    var done := Reclaim(swept, reachable, s.gc.reclaimable, f);
    SweepKeeps(s, eligible);
    ReclaimKeeps(swept, reachable, s.gc.reclaimable, f);
    SameBackendKeepsUsed(done.checkpoints, s.storage, swept.storage);
    KeepsUsedTransitive(done.checkpoints, s.storage, swept.storage, done.storage);
    OtherFields(done, done.(gc := done.gc.(phase := GC_COMPLETE, reachable := {}, reclaimable := [])));
  }

  /** The invariant does not look at the collector, the policies, the clock or the authority. */
  lemma OtherFields(s: State, t: State)
    requires Safe(s) && t.cfg == s.cfg && t.storage == s.storage && t.checkpoints == s.checkpoints
    requires t.blobs == s.blobs && t.replicas == s.replicas && t.placements == s.placements && s.nextId <= t.nextId
    ensures Safe(t)
  {
    hide Sound, RecordOk, Content;
    SameRecords(s, t);
  }
}

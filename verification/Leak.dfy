/** What becomes of an object whose removal a collection was refused: its blob record is gone. */
module Leak {
  import opened Basics
  import opened Model
  import opened Chunking
  import opened Dedup
  import opened StoreState
  import opened Invariant
  import opened Publication
  import opened Collection
  import opened CollectionSafety
  import opened RestoreCorrectness
  import opened Exactness
  import opened Completeness
  import Runs
  import Retention
  import Recovery
  import Persistence
  import Backend

  /** Entries and blob records are named after their digests. */
  ghost predicate Named(t: Table, blobs: map<Id, Blob>)
  {
    BlobsOk(blobs) && forall d :: d in t ==> t[d].blobId == PrefixId(d)
  }

  /** Stored and in the table, but without the blob record a plan would find it by. */
  ghost predicate Stranded(s: State, d: Digest)
  {
    && Named(s.storage.dedup, s.blobs) && PrefixId(d) !in s.blobs
    && d in s.storage.dedup && BlobKey(d) in s.storage.backend.objects
  }

  /** The operation publishes content whose blob id is the given one. */
  ghost predicate Notes(cfg: Config, op: Runs.Op, bid: Id)
  {
    op.Publish? && cfg.chunkSize > 0 && SlicesNote(Slices(cfg.hash, op.data, cfg.chunkSize), bid)
  }

  ghost predicate SlicesNote(slices: seq<Slice>, bid: Id)
  {
    exists i :: 0 <= i < |slices| && PrefixId(slices[i].digest) == bid
  }

  // ----- A whole collection -----

  /** Stored, in the table and recorded under its blob id. */
  ghost predicate Filed(s: State, d: Digest)
  {
    && Named(s.storage.dedup, s.blobs) && PrefixId(d) in s.blobs && s.blobs[PrefixId(d)].digest == d
    && d in s.storage.dedup && BlobKey(d) in s.storage.backend.objects
  }

  /** Neither stored nor in the table. */
  ghost predicate Gone(s: State, d: Digest)
  {
    d !in s.storage.dedup && BlobKey(d) !in s.storage.backend.objects
  }

  /** Some removal of the blob's object goes through: its replica is on the backend and the call is not refused. */
  ghost predicate SomeRemoval(s: State, replicas: seq<Id>, b: nat, f: Faults)
  {
    exists n :: 0 <= n < |replicas| && Recovery.Reachable(s, replicas[n]) && f.remove(b, n)
  }

  lemma {:induction false} RemovesExactly(s: State, d: Digest, replicas: seq<Id>, b: nat, f: Faults)
    requires BlobKey(d) in s.storage.backend.objects
    ensures var (store, removed) := RemoveFrom(s, BlobKey(d), replicas, b, f);
      && (removed <==> SomeRemoval(s, replicas, b, f)) && (!removed ==> store == s.storage.backend)
  {
    hide BlobKey;
    if replicas != [] {
      var n := |replicas| - 1;
      RemovesExactly(s, d, replicas[..n], b, f);
      if SomeRemoval(s, replicas[..n], b, f) {
        var k :| 0 <= k < n && Recovery.Reachable(s, replicas[..n][k]) && f.remove(b, k);
        assert Recovery.Reachable(s, replicas[k]);
      }
      if k :| 0 <= k < |replicas| && Recovery.Reachable(s, replicas[k]) && f.remove(b, k) {
        assert k < n ==> Recovery.Reachable(s, replicas[..n][k]);
      }
    }
  }

  /** At its turn the content goes, or is stranded, as its removals decide. */
  lemma TurnDecides(s: State, reachable: set<Id>, b: nat, f: Faults, d: Digest)
    requires Filed(s, d) && PrefixId(d) !in reachable && Refs(s.storage.dedup, d) == 0
    ensures var t := ReclaimOne(s, reachable, PrefixId(d), b, f);
      if SomeRemoval(s, s.blobs[PrefixId(d)].replicas, b, f) then Gone(t, d) else Stranded(t, d)
  {
    hide PrefixId, BlobKey, RemoveFrom, SomeRemoval;
    var blob := s.blobs[PrefixId(d)];
    RemovesExactly(s, d, blob.replicas, b, f);
    RemoveFromEffect(s, d, blob.replicas, b, f, s.storage.dedup);
  }

  /** Everything about the content is as it was, and so is what its removals depend on. */
  ghost predicate Untouched(s: State, t: State, d: Digest)
  {
    && Filed(t, d) && PrefixId(d) in s.blobs && t.blobs[PrefixId(d)] == s.blobs[PrefixId(d)]
    && Refs(t.storage.dedup, d) == Refs(s.storage.dedup, d)
    && t.replicas == s.replicas && t.cfg == s.cfg && t.registered == s.registered
  }

  lemma LessStillFiled(s: State, t: State, bid: Id, e: Digest, d: Digest)
    requires Filed(s, d) && bid != PrefixId(d) && e != d
    requires t.storage.dedup == s.storage.dedup || t.storage.dedup == s.storage.dedup - {e}
    requires t == s.(storage := t.storage, blobs := s.blobs - {bid}) && SameObject(s.storage, t.storage, d)
    ensures Untouched(s, t, d)
  {
    hide PrefixId, BlobKey;
  }

  /** The turn of another blob leaves everything about the content alone. */
  lemma OtherTurn(s: State, reachable: set<Id>, bid: Id, b: nat, f: Faults, d: Digest)
    requires Filed(s, d) && bid != PrefixId(d)
    ensures Untouched(s, ReclaimOne(s, reachable, bid, b, f), d)
  {
    hide PrefixId, BlobKey, RemoveFrom, SameObject;
    var t := ReclaimOne(s, reachable, bid, b, f);
    if t != s {
      hide Filed, Untouched;
      var e := s.blobs[bid].digest;
      OtherDigest(s, bid, d);
      RemoveFromEffect(s, e, s.blobs[bid].replicas, b, f, t.storage.dedup);
      LessStillFiled(s, t, bid, e, d);
    }
  }

  lemma OtherDigest(s: State, bid: Id, d: Digest)
    requires Filed(s, d) && bid in s.blobs && bid != PrefixId(d)
    ensures s.blobs[bid].digest != d
  {
    hide PrefixId, BlobKey;
  }

  lemma GoneStays(s: State, reachable: set<Id>, bid: Id, b: nat, f: Faults, d: Digest)
    requires Gone(s, d)
    ensures Gone(ReclaimOne(s, reachable, bid, b, f), d)
  {
    hide BlobKey, RemoveFrom;
    ReclaimOneShrinks(s, reachable, bid, b, f);
    if bid in s.blobs {
      RemoveFromShrinks(s, BlobKey(s.blobs[bid].digest), s.blobs[bid].replicas, b, f);
    }
  }

  lemma {:induction false} RemoveFromShrinks(s: State, key: string, replicas: seq<Id>, b: nat, f: Faults)
    ensures forall k :: k in RemoveFrom(s, key, replicas, b, f).0.objects ==> k in s.storage.backend.objects
  {
    if replicas != [] {
      RemoveFromShrinks(s, key, replicas[..|replicas| - 1], b, f);
    }
  }

  /** After n candidates: untouched before its own turn, decided by it afterwards. */
  lemma {:induction false} ReclaimDecides(s: State, reachable: set<Id>, list: seq<Id>, n: nat, k: nat, f: Faults,
                                          d: Digest)
    requires Filed(s, d) && PrefixId(d) !in reachable && Refs(s.storage.dedup, d) == 0
    requires n <= |list| && k < |list| && list[k] == PrefixId(d) && PrefixId(d) !in list[..k]
    ensures var t := Reclaim(s, reachable, list[..n], f);
      if n <= k then Untouched(s, t, d)
      else if SomeRemoval(s, s.blobs[PrefixId(d)].replicas, k, f) then Gone(t, d)
      else Stranded(t, d)
  {
    hide Filed, Gone, Stranded, SomeRemoval, ReclaimOne, PrefixId;
    FiledRecord(s, d);
    if n == 0 {
      assert list[..0] == [];
    } else {
      var t := Reclaim(s, reachable, list[..n - 1], f);
      assert list[..n][..n - 1] == list[..n - 1];
      ReclaimDecides(s, reachable, list, n - 1, k, f, d);
      if n - 1 < k {
        assert list[n - 1] in list[..k];
        OtherTurn(t, reachable, list[n - 1], n - 1, f, d);
      } else if n - 1 == k {
        FiledRecord(t, d);
        TurnDecides(t, reachable, k, f, d);
        SameRemovals(s, t, s.blobs[PrefixId(d)].replicas, k, f);
      } else if SomeRemoval(s, s.blobs[PrefixId(d)].replicas, k, f) {
        GoneStays(t, reachable, list[n - 1], n - 1, f, d);
      } else {
        ReclaimOneStranded(t, reachable, list[n - 1], n - 1, f, d);
      }
    }
  }

  lemma FiledRecord(s: State, d: Digest)
    requires Filed(s, d)
    ensures PrefixId(d) in s.blobs
  {
  }

  lemma SameRemovals(s: State, t: State, replicas: seq<Id>, b: nat, f: Faults)
    requires t.replicas == s.replicas && t.cfg == s.cfg && t.registered == s.registered
    ensures SomeRemoval(s, replicas, b, f) == SomeRemoval(t, replicas, b, f)
  {
    assert forall r :: Recovery.Reachable(s, r) == Recovery.Reachable(t, r);
  }

  /**
   A collection that comes to unreferenced, unreachable content it planned strands it if and only
   if none of its removals goes through; otherwise entry and object are gone. Nothing is asked of
   the state but that blob records and entries are named after their digests.
   */
  lemma CollectionStrandsExactly(s: State, eligible: seq<Id>, retained: set<Id>, f: Faults, d: Digest, k: nat)
    requires Filed(s, d) && PrefixId(d) !in Reachable(s.checkpoints, retained)
    requires Refs(Sweep(s, eligible).storage.dedup, d) == 0
    requires k < |s.gc.reclaimable| && s.gc.reclaimable[k] == PrefixId(d) && PrefixId(d) !in s.gc.reclaimable[..k]
    ensures var t := Run(s, eligible, retained, f);
      if SomeRemoval(s, s.blobs[PrefixId(d)].replicas, k, f) then Gone(t, d) && !Stranded(t, d) else Stranded(t, d)
  {
    hide Stranded, SomeRemoval, Sweep, Reclaim, Reachable, PrefixId, BlobKey, Named;
    var swept, list := Sweep(s, eligible), s.gc.reclaimable;
    SweepEntries(s, eligible);
    SweptNamed(s, swept);
    SameRemovals(s, swept, s.blobs[PrefixId(d)].replicas, k, f);
    assert list[..|list|] == list;
    ReclaimDecides(swept, Reachable(s.checkpoints, retained), list, |list|, k, f, d);
    var done := Reclaim(swept, Reachable(s.checkpoints, retained), list, f);
    var t := Run(s, eligible, retained, f);
    if SomeRemoval(s, s.blobs[PrefixId(d)].replicas, k, f) {
      GoneNotStranded(t, d);
    } else {
      SameStranded(done, t, d);
    }
  }

  lemma SweptNamed(s: State, t: State)
    requires Named(s.storage.dedup, s.blobs) && SameEntries(s.storage.dedup, t.storage.dedup) && t.blobs == s.blobs
    ensures Named(t.storage.dedup, t.blobs)
  {
    hide PrefixId, BlobsOk;
  }

  lemma GoneNotStranded(s: State, d: Digest)
    requires Gone(s, d)
    ensures !Stranded(s, d)
  {
    hide BlobKey, PrefixId;
  }

  // ----- Publication of other content -----

  /** Storage changed only for another digest. */
  ghost predicate OnlyOther(st: Storage, t: Storage, e: Digest)
  {
    && (forall d: Digest :: d != e ==> SameObject(st, t, d))
    && (forall d :: d != e ==> (d in t.dedup <==> d in st.dedup) && (d in st.dedup ==> t.dedup[d] == st.dedup[d]))
    && (e in t.dedup ==> t.dedup[e].blobId == PrefixId(e) || (e in st.dedup && t.dedup[e].blobId == st.dedup[e].blobId))
  }

  lemma AcquireOther(hash: Bytes -> Digest, st: Storage, slice: Slice, i: nat, f: Faults)
    requires slice.digest == hash(slice.bytes)
    ensures OnlyOther(st, Acquire(hash, st, slice, i, f).st, slice.digest)
  {
    hide BlobKey, PrefixId, Backend.VerifyObject, Write;
    WriteEffect(hash, st, slice, i, f);
  }

  lemma OtherStranded(s: State, st: Storage, d: Digest, e: Digest)
    requires Stranded(s, d) && OnlyOther(s.storage, st, e) && e != d
    ensures Stranded(s.(storage := st), d)
  {
    hide BlobKey, PrefixId;
    assert SameObject(s.storage, st, d);
  }

  lemma NoteStranded(s: State, draft: Draft, slice: Slice, replica: Id, d: Digest)
    requires Stranded(s, d) && PrefixId(slice.digest) != PrefixId(d)
    ensures Stranded(Note(s, draft, slice, PrefixId(slice.digest), replica).s, d)
  {
    hide PrefixId, BlobKey, NewChunk, Refs;
  }

  lemma StepStranded(p: Progress, slice: Slice, i: nat, replica: Id, f: Faults, d: Digest)
    requires Stranded(p.s, d) && d !in p.draft.wrote && slice.digest == p.s.cfg.hash(slice.bytes)
    requires PrefixId(slice.digest) != PrefixId(d)
    ensures var q := StoreState.Step(p, slice, i, replica, f); Stranded(q.s, d) && d !in q.draft.wrote
  {
    hide Stranded, Acquire, PrefixId, OnlyOther, Note;
    if p.error.None? {
      var e, draft := slice.digest, p.draft;
      AcquireOther(p.s.cfg.hash, p.s.storage, slice, i, f);
      var st := Acquire(p.s.cfg.hash, p.s.storage, slice, i, f).st;
      OtherStranded(p.s, st, d, e);
      match Acquire(p.s.cfg.hash, p.s.storage, slice, i, f)
      case Refused(_, _) =>
      case Shared(_) =>
        StrandedNames(p.s.(storage := st), d);
        NoteStranded(p.s.(storage := st), draft.(hits := draft.hits + 1), slice, replica, d);
        NoteWrote(p.s.(storage := st), draft.(hits := draft.hits + 1), slice, PrefixId(e), replica);
      case Wrote(_) =>
        var more := draft.(misses := draft.misses + 1, written := draft.written + |slice.bytes|,
                           wrote := draft.wrote + [e]);
        NoteStranded(p.s.(storage := st), more, slice, replica, d);
        NoteWrote(p.s.(storage := st), more, slice, PrefixId(e), replica);
    }
  }

  lemma StrandedNames(s: State, d: Digest)
    requires Stranded(s, d)
    ensures forall e :: e in s.storage.dedup ==> s.storage.dedup[e].blobId == PrefixId(e)
  {
  }

  lemma NoteWrote(s: State, draft: Draft, slice: Slice, blobId: Id, replica: Id)
    ensures Note(s, draft, slice, blobId, replica).draft.wrote == draft.wrote
  {
    hide PrefixId, NewChunk, NoteBlob, Refs;
  }

  lemma {:induction false} StepsStranded(s: State, slices: seq<Slice>, n: nat, replica: Id, f: Faults, d: Digest)
    requires Stranded(s, d) && Sliced(s.cfg.hash, slices) && n <= |slices| && !SlicesNote(slices, PrefixId(d))
    ensures var p := Steps(s, slices, n, replica, f); Stranded(p.s, d) && d !in p.draft.wrote
  {
    hide Stranded, StoreState.Step, PrefixId;
    if n > 0 {
      StepsStranded(s, slices, n - 1, replica, f, d);
      Runs.StepsFrame(s, slices, n - 1, replica, f);
      StepStranded(Steps(s, slices, n - 1, replica, f), slices[n - 1], n - 1, replica, f, d);
    }
  }

  lemma UndoStranded(s: State, draft: Draft, f: Faults, d: Digest)
    requires Stranded(s, d) && d !in draft.wrote
    ensures Stranded(Rollback(s, draft, f), d)
  {
    hide RemoveWritten, ReleaseWritten, PrefixId, BlobKey;
    var t := Rollback(s, draft, f);
    RemoveWrittenEffect(s.storage.backend, draft.wrote, f, s.storage.dedup, d);
    forall e: Digest
      ensures e in t.storage.dedup ==> e in s.storage.dedup && t.storage.dedup[e].blobId == s.storage.dedup[e].blobId
      ensures e == d ==> e in t.storage.dedup
    {
      ReleaseWrittenEffect(s.storage.dedup, draft.wrote, e);
    }
  }

  /** Two states with the same shelves are alike in what is stranded. */
  lemma SameStranded(s: State, t: State, d: Digest)
    requires Stranded(s, d) && t.storage.dedup == s.storage.dedup
    requires t.storage.backend.objects == s.storage.backend.objects
    requires t.blobs.Keys == s.blobs.Keys
    requires forall b :: b in s.blobs ==> t.blobs[b].id == s.blobs[b].id && t.blobs[b].digest == s.blobs[b].digest
    ensures Stranded(t, d)
  {
    hide PrefixId, BlobKey;
  }

  lemma PublishStranded(s: State, d: Descriptor, data: Bytes, f: Faults, e: Digest)
    requires Stranded(s, e)
    requires s.cfg.chunkSize > 0 ==> !SlicesNote(Slices(s.cfg.hash, data, s.cfg.chunkSize), PrefixId(e))
    ensures Stranded(StoreState.Publish(s, d, data, f).0, e)
  {
    hide Stranded, Steps, Confirm, CommitRecord, Rollback, NewManifest, Slices, PrefixId, SlicesNote;
    if Admission(s, d).None? {
      var slices, s1 := Slices(s.cfg.hash, data, s.cfg.chunkSize), s.(nextId := s.nextId + 1);
      var p := Steps(s1, slices, |slices|, s.nextId, f);
      SlicesAreSliced(s.cfg.hash, data, s.cfg.chunkSize);
      SameStranded(s, s1, e);
      StepsStranded(s1, slices, |slices|, s.nextId, f, e);
      UndoStranded(p.s, p.draft, f, e);
      if p.error.None? && Confirm(p.s, p.draft, data, f).Ok? {
        CommitShelves(p.s, d, p.draft, |data|, Confirm(p.s, p.draft, data, f).value, s.nextId);
        SameStranded(p.s, CommitRecord(p.s, d, p.draft, |data|, Confirm(p.s, p.draft, data, f).value, s.nextId), e);
      }
    }
  }

  lemma CommitShelves(s: State, d: Descriptor, draft: Draft, size: nat, digest: Digest, replica: Id)
    ensures var t := CommitRecord(s, d, draft, size, digest, replica); t.storage == s.storage && t.blobs == s.blobs
  {
    hide NewManifest, NewRecord;
  }

  // ----- Collections -----

  lemma SweepStranded(s: State, ids: seq<Id>, d: Digest)
    requires Stranded(s, d)
    ensures Stranded(Sweep(s, ids), d)
  {
    hide Sweep, PrefixId, BlobKey;
    SweepEntries(s, ids);
  }

  lemma ReclaimOneStranded(s: State, reachable: set<Id>, bid: Id, b: nat, f: Faults, d: Digest)
    requires Stranded(s, d)
    ensures Stranded(ReclaimOne(s, reachable, bid, b, f), d)
  {
    hide PrefixId, BlobKey, RemoveFrom;
    var t := ReclaimOne(s, reachable, bid, b, f);
    if bid in s.blobs {
      RemoveFromEffect(s, s.blobs[bid].digest, s.blobs[bid].replicas, b, f, t.storage.dedup);
      assert s.blobs[bid].digest != d;
      var store := RemoveFrom(s, BlobKey(s.blobs[bid].digest), s.blobs[bid].replicas, b, f).0;
      assert SameObject(s.storage, Storage(store, t.storage.dedup), d);
    }
  }

  lemma {:induction false} ReclaimStranded(s: State, reachable: set<Id>, list: seq<Id>, f: Faults, d: Digest)
    requires Stranded(s, d)
    ensures Stranded(Reclaim(s, reachable, list, f), d)
  {
    hide Stranded, ReclaimOne;
    if list != [] {
      var n := |list| - 1;
      ReclaimStranded(s, reachable, list[..n], f, d);
      ReclaimOneStranded(Reclaim(s, reachable, list[..n], f), reachable, list[n], n, f, d);
    }
  }

  lemma RunStranded(s: State, eligible: seq<Id>, retained: set<Id>, f: Faults, d: Digest)
    requires Stranded(s, d)
    ensures Stranded(Run(s, eligible, retained, f), d)
  {
    hide Stranded, Sweep, Reclaim, Reachable;
    var swept, reachable := Sweep(s, eligible), Reachable(s.checkpoints, retained);
    SweepStranded(s, eligible, d);
    ReclaimStranded(swept, reachable, s.gc.reclaimable, f, d);
    SameStranded(Reclaim(swept, reachable, s.gc.reclaimable, f), Run(s, eligible, retained, f), d);
  }

  // ----- Whole runs -----

  lemma PerformStranded(s: State, op: Runs.Op, d: Digest)
    requires Stranded(s, d) && !op.Tamper? && !Notes(s.cfg, op, PrefixId(d))
    ensures Stranded(Runs.Perform(s, op), d)
  {
    hide Stranded, SlicesNote, PrefixId, Run, Reachable, MarkedSizes, OnlyHealth, Recovery.Restore,
         Recovery.VerifyCheckpoint, StoreState.Publish, Retention.Protected, Retention.Retire, Persistence.Recovered,
         Runs.AuthorityReset, Slices;
    var t := Runs.Perform(s, op);
    match op
    case Publish(p, data, f) =>
      PublishStranded(s, p, data, f, d);
    case GcRun(eligible, v, f) =>
      RunStranded(s, eligible, Retention.Protected(s, v), f, d);
    case Verify(id, f) =>
      VerifyHealth(s, id, f);
      HealthStranded(s, t, d);
    case Restore(id, f) =>
      RestoreHealth(s, id, f);
      HealthStranded(s, t, d);
    case ResetAuthority =>
      ReopenStranded(s, d);
    case Restart =>
      ReopenStranded(s, d);
    case Retire(id) =>
      RetireShelves(s, id);
      RetireStranded(s, id, d);
    case _ =>
      SameStranded(s, t, d);
  }

  lemma HealthStranded(s: State, t: State, d: Digest)
    requires Stranded(s, d) && OnlyHealth(s, t)
    ensures Stranded(t, d)
  {
    hide Stranded;
    SameStranded(s, t, d);
  }

  lemma RetireStranded(s: State, id: Id, d: Digest)
    requires Stranded(s, d)
    ensures Stranded(Retention.Retire(s, id).0, d)
  {
    hide Stranded;
    var t := Retention.Retire(s, id).0;
    assert t == s.(checkpoints := t.checkpoints);
    SameStranded(s, t, d);
  }

  lemma ReopenStranded(s: State, d: Digest)
    requires Stranded(s, d)
    ensures Stranded(Persistence.Recovered(Runs.Reopened(s), s), d) && Stranded(Runs.AuthorityReset(s), d)
  {
    hide Stranded, Persistence.ImageOf, Persistence.NextAll, Persistence.RaiseBy, Persistence.StartFamilies,
         Persistence.ReloadedMap, Runs.ResetRecords;
    SameStranded(s, Persistence.Recovered(Runs.Reopened(s), s), d);
    SameStranded(s, Runs.AuthorityReset(s), d);
  }

  lemma StepConfig(s: State, op: Runs.Op)
    ensures Runs.Perform(s, op).cfg == s.cfg
  {
    hide Runs.Perform, StoreState.Publish, Runs.SameBooks;
    if op.Publish? {
      Runs.PublishPromises(s, op.d, op.data, op.faults);
      Runs.PublishStep(s, op);
    } else {
      Runs.OthersKeepManifests(s, op);
    }
  }

  /**
   Over every continuation in which nobody outside touches the objects and no publication notes the
   blob id, a stranded object stays stored, stays without a blob record, and is on no plan.
   */
  lemma {:induction false} StrandedForGood(w: Runs.World, ops: seq<Runs.Op>, d: Digest)
    requires Stranded(w.s, d) && forall op <- ops :: !op.Tamper? && !Notes(w.s.cfg, op, PrefixId(d))
    ensures var s := Runs.After(w, ops).s;
      && Stranded(s, d) && s.cfg == w.s.cfg
      && forall reachable, list :: IsPlan(s, reachable, list) ==> PrefixId(d) !in list
  {
    hide Stranded, Notes, Runs.Perform, Runs.Remember, PrefixId;
    if ops != [] {
      var n := |ops| - 1;
      var s := Runs.After(w, ops[..n]).s;
      StrandedForGood(w, ops[..n], d);
      PerformStranded(s, ops[n], d);
      StepConfig(s, ops[n]);
    }
    NotPlanned(Runs.After(w, ops).s, d);
  }

  lemma NotPlanned(s: State, d: Digest)
    requires Stranded(s, d)
    ensures forall reachable, list :: IsPlan(s, reachable, list) ==> PrefixId(d) !in list
  {
    hide PrefixId, BlobKey;
  }

  // ----- Publishing the content again brings the record back -----

  lemma StepNotes(p: Progress, slice: Slice, i: nat, replica: Id, f: Faults)
    requires Named(p.s.storage.dedup, p.s.blobs) && slice.digest == p.s.cfg.hash(slice.bytes)
    ensures var q := StoreState.Step(p, slice, i, replica, f);
      && Named(q.s.storage.dedup, q.s.blobs)
      && (q.error.None? ==> q.s.blobs.Keys == p.s.blobs.Keys + {PrefixId(slice.digest)})
  {
    hide Acquire, PrefixId, OnlyOther, Note, Named;
    if p.error.None? {
      var e, draft := slice.digest, p.draft;
      AcquireOther(p.s.cfg.hash, p.s.storage, slice, i, f);
      AcquiredKnown(p.s.cfg.hash, p.s.storage, slice, i, f);
      var st := Acquire(p.s.cfg.hash, p.s.storage, slice, i, f).st;
      OtherNamed(p.s, st, e);
      match Acquire(p.s.cfg.hash, p.s.storage, slice, i, f)
      case Refused(_, _) =>
      case Shared(_) =>
        NamedEntry(st.dedup, p.s.blobs, e);
        NoteNamed(p.s, st, draft.(hits := draft.hits + 1), slice, replica);
      case Wrote(_) =>
        NoteNamed(p.s, st, draft.(misses := draft.misses + 1, written := draft.written + |slice.bytes|,
                                  wrote := draft.wrote + [e]),
                  slice, replica);
    }
  }

  lemma AcquiredKnown(hash: Bytes -> Digest, st: Storage, slice: Slice, i: nat, f: Faults)
    ensures Acquire(hash, st, slice, i, f).Shared? ==> slice.digest in Acquire(hash, st, slice, i, f).st.dedup
  {
    hide BlobKey, PrefixId, Backend.VerifyObject;
  }

  lemma OtherNamed(s: State, st: Storage, e: Digest)
    requires Named(s.storage.dedup, s.blobs) && OnlyOther(s.storage, st, e)
    ensures Named(st.dedup, s.blobs)
  {
    hide PrefixId, SameObject, BlobsOk;
  }

  lemma NamedEntry(t: Table, blobs: map<Id, Blob>, e: Digest)
    requires Named(t, blobs) && e in t
    ensures t[e].blobId == PrefixId(e)
  {
  }

  lemma NoteNamed(s: State, st: Storage, draft: Draft, slice: Slice, replica: Id)
    requires Named(st.dedup, s.blobs)
    ensures var q := Note(s.(storage := st), draft, slice, PrefixId(slice.digest), replica);
      && Named(q.s.storage.dedup, q.s.blobs) && q.s.blobs.Keys == s.blobs.Keys + {PrefixId(slice.digest)}
      && q.error.None?
  {
    hide PrefixId, NewChunk, Refs;
  }

  lemma {:induction false} StepsNote(s: State, slices: seq<Slice>, n: nat, replica: Id, f: Faults)
    requires Named(s.storage.dedup, s.blobs) && Sliced(s.cfg.hash, slices) && n <= |slices|
    ensures var p := Steps(s, slices, n, replica, f);
      && Named(p.s.storage.dedup, p.s.blobs)
      && (p.error.None? ==> forall i :: 0 <= i < n ==> PrefixId(slices[i].digest) in p.s.blobs)
  {
    hide Named, StoreState.Step, PrefixId;
    if n > 0 {
      var p := Steps(s, slices, n - 1, replica, f);
      StepsNote(s, slices, n - 1, replica, f);
      Runs.StepsFrame(s, slices, n - 1, replica, f);
      StepNotes(p, slices[n - 1], n - 1, replica, f);
      StepErrors(p, slices[n - 1], n - 1, replica, f);
    }
  }

  lemma StepErrors(p: Progress, slice: Slice, i: nat, replica: Id, f: Faults)
    ensures StoreState.Step(p, slice, i, replica, f).error.None? ==> p.error.None?
  {
    hide Acquire, Note, PrefixId;
  }

  /** A publication that returns has given every blob id it notes a record again. */
  lemma RepublishingRelists(s: State, d: Descriptor, data: Bytes, f: Faults, bid: Id)
    requires Named(s.storage.dedup, s.blobs) && StoreState.Publish(s, d, data, f).1.Ok?
    requires Notes(s.cfg, Runs.Op.Publish(d, data, f), bid)
    ensures bid in StoreState.Publish(s, d, data, f).0.blobs
  {
    hide Named, StoreState.Publish, Steps, Confirm, CommitRecord, Slices, PrefixId;
    ReceiptMeans(s, d, data, f);
    var p, slices := PublishSteps(s, data, f), Slices(s.cfg.hash, data, s.cfg.chunkSize);
    SlicesAreSliced(s.cfg.hash, data, s.cfg.chunkSize);
    StepsNote(s.(nextId := s.nextId + 1), slices, |slices|, s.nextId, f);
    CommitShelves(p.s, d, p.draft, |data|, Confirm(p.s, p.draft, data, f).value, s.nextId);
  }
}

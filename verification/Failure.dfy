/** Exactly what a publication that throws does to content in use and to the reference counts. */
module Failure {
  import opened Basics
  import opened Model
  import opened Chunking
  import opened Dedup
  import opened StoreState
  import opened Invariant
  import opened Publication
  import opened Exactness
  import opened Flicker
  import opened RestoreCorrectness
  import CollectionSafety
  import Generations
  import Recovery
  import Runs
  import Backend

  // ----- The course of an attempt, slice by slice -----

  /** No slice before the i-th was refused its reference. */
  ghost predicate Reached(s: State, slices: seq<Slice>, i: nat, replica: Id, f: Faults)
    requires i <= |slices|
  {
    Steps(s, slices, i, replica, f).error.None?
  }

  /** How the i-th slice fared when its turn came. */
  ghost function Turn(s: State, slices: seq<Slice>, i: nat, replica: Id, f: Faults): Obtained
    requires i < |slices|
  {
    var p := Steps(s, slices, i, replica, f);
    Acquire(p.s.cfg.hash, p.s.storage, slices[i], i, f)
  }

  /** The i-th slice was written, as number Place of the slices written. */
  ghost predicate WrittenAt(s: State, slices: seq<Slice>, i: nat, replica: Id, f: Faults)
    requires i < |slices|
  {
    Reached(s, slices, i, replica, f) && Turn(s, slices, i, replica, f).Wrote?
  }

  ghost function Place(s: State, slices: seq<Slice>, i: nat, replica: Id, f: Faults): nat
    requires i <= |slices|
  {
    |Steps(s, slices, i, replica, f).draft.wrote|
  }

  /** One step in terms of the turn taken. */
  lemma StepTurn(p: Progress, slice: Slice, i: nat, replica: Id, f: Faults)
    ensures var q, turn := StoreState.Step(p, slice, i, replica, f), Acquire(p.s.cfg.hash, p.s.storage, slice, i, f);
      if p.error.Some? then q == p
      else
        && q.s.storage == turn.st && (q.error.None? <==> !turn.Refused?)
        && q.draft.wrote == p.draft.wrote + (if turn.Wrote? then [slice.digest] else [])
        && q.draft.hits == p.draft.hits + (if turn.Shared? then 1 else 0)
  {
    hide Acquire, Note, PrefixId;
    var d, draft := slice.digest, p.draft;
    match Acquire(p.s.cfg.hash, p.s.storage, slice, i, f)
    case Refused(_, _) =>
      assert p.error.None? ==> draft.wrote + [] == draft.wrote;
    case Shared(st) =>
      NoteDraft(p.s, st, draft.(hits := draft.hits + 1), slice,
                if d in st.dedup then st.dedup[d].blobId else PrefixId(d), replica);
      assert draft.wrote + [] == draft.wrote;
    case Wrote(st) =>
      NoteDraft(p.s, st, draft.(misses := draft.misses + 1, written := draft.written + |slice.bytes|,
                                wrote := draft.wrote + [d]),
                slice, PrefixId(d), replica);
  }

  lemma NoteDraft(s: State, st: Storage, draft: Draft, slice: Slice, blobId: Id, replica: Id)
    ensures var q := Note(s.(storage := st), draft, slice, blobId, replica);
      q.s.storage == st && q.draft.wrote == draft.wrote && q.draft.hits == draft.hits && q.error.None?
  {
    hide NoteBlob, NewChunk, PrefixId, Refs;
  }

  /** The i-th slice is the k-th that was written, and has the digest d. */
  ghost predicate WrittenAs(s: State, slices: seq<Slice>, i: nat, replica: Id, f: Faults, k: nat, d: Digest)
    requires i < |slices|
  {
    WrittenAt(s, slices, i, replica, f) && Place(s, slices, i, replica, f) == k && slices[i].digest == d
  }

  /** The list of written digests only grows. */
  lemma {:induction false} WroteGrows(s: State, slices: seq<Slice>, i: nat, n: nat, replica: Id, f: Faults)
    requires i <= n <= |slices|
    ensures Steps(s, slices, i, replica, f).draft.wrote <= Steps(s, slices, n, replica, f).draft.wrote
  {
    hide StoreState.Step, Acquire;
    if i < n {
      WroteGrows(s, slices, i, n - 1, replica, f);
      StepTurn(Steps(s, slices, n - 1, replica, f), slices[n - 1], n - 1, replica, f);
    }
  }

  /** Every written slice is on the list, at its place. */
  lemma WrittenIsListed(s: State, slices: seq<Slice>, i: nat, n: nat, replica: Id, f: Faults)
    requires i < n <= |slices| && WrittenAt(s, slices, i, replica, f)
    ensures var wrote, k := Steps(s, slices, n, replica, f).draft.wrote, Place(s, slices, i, replica, f);
      k < |wrote| && wrote[k] == slices[i].digest
  {
    hide StoreState.Step, Acquire;
    StepTurn(Steps(s, slices, i, replica, f), slices[i], i, replica, f);
    WroteGrows(s, slices, i + 1, n, replica, f);
  }

  /** Everything on the list is a written slice, at its place. */
  lemma {:induction false} ListedIsWritten(s: State, slices: seq<Slice>, n: nat, replica: Id, f: Faults, k: nat)
    returns (i: nat)
    requires n <= |slices| && k < |Steps(s, slices, n, replica, f).draft.wrote|
    ensures i < n && WrittenAs(s, slices, i, replica, f, k, Steps(s, slices, n, replica, f).draft.wrote[k])
  {
    hide StoreState.Step, Acquire;
    var p := Steps(s, slices, n - 1, replica, f);
    StepTurn(p, slices[n - 1], n - 1, replica, f);
    if k < |p.draft.wrote| {
      i := ListedIsWritten(s, slices, n - 1, replica, f, k);
    } else {
      i := n - 1;
    }
  }

  // ----- Objects through the loop and the rollback -----

  lemma AcquireKeepsIntact(hash: Bytes -> Digest, st: Storage, slice: Slice, i: nat, f: Faults, e: Digest)
    requires slice.digest == hash(slice.bytes) && Intact(hash, st, e)
    ensures Intact(hash, Acquire(hash, st, slice, i, f).st, e)
  {
    hide BlobKey, PrefixId, Write, Backend.VerifyObject;
    WriteEffect(hash, st, slice, i, f);
    var t := Write(st, slice, i, f);
    if t.Refused? || e != slice.digest {
      assert SameObject(st, t.st, e);
    }
  }

  lemma {:induction false} StepsKeepIntact(s: State, slices: seq<Slice>, n: nat, replica: Id, f: Faults, e: Digest)
    requires Sliced(s.cfg.hash, slices) && n <= |slices| && Intact(s.cfg.hash, s.storage, e)
    ensures Intact(s.cfg.hash, Steps(s, slices, n, replica, f).s.storage, e)
  {
    hide StoreState.Step, Acquire, Intact;
    if n > 0 {
      var p := Steps(s, slices, n - 1, replica, f);
      StepsKeepIntact(s, slices, n - 1, replica, f, e);
      Runs.StepsFrame(s, slices, n - 1, replica, f);
      StepTurn(p, slices[n - 1], n - 1, replica, f);
      AcquireKeepsIntact(s.cfg.hash, p.s.storage, slices[n - 1], n - 1, f, e);
    }
  }

  /** The rollback takes away an object exactly when one of its removals goes through. */
  ghost predicate RolledBack(wrote: seq<Digest>, f: Faults, e: Digest)
  {
    exists n :: 0 <= n < |wrote| && wrote[n] == e && f.remove(n, 0)
  }

  lemma {:induction false} RemovedExactly(b: Backend.Store, wrote: seq<Digest>, f: Faults, e: Digest)
    ensures var r := RemoveWritten(b, wrote, f);
      && (BlobKey(e) in r.objects <==> BlobKey(e) in b.objects && !RolledBack(wrote, f, e))
      && (BlobKey(e) in r.objects ==> r.objects[BlobKey(e)] == b.objects[BlobKey(e)])
  {
    hide BlobKey;
    if wrote != [] {
      var n := |wrote| - 1;
      RemovedExactly(b, wrote[..n], f, e);
      KeysDiffer(wrote[n]);
      if RolledBack(wrote[..n], f, e) {
        var k :| 0 <= k < n && wrote[..n][k] == e && f.remove(k, 0);
        assert wrote[k] == e;
      }
      if k :| 0 <= k < |wrote| && wrote[k] == e && f.remove(k, 0) {
        assert k < n ==> wrote[..n][k] == e;
      }
    }
  }

  lemma UndoIntactExactly(hash: Bytes -> Digest, st: Storage, wrote: seq<Digest>, f: Faults, e: Digest)
    requires Intact(hash, st, e)
    ensures Intact(hash, Undo(st, wrote, f), e) <==> !RolledBack(wrote, f, e)
  {
    hide BlobKey, ReleaseWritten, RemoveWritten, RolledBack;
    RemovedExactly(st.backend, wrote, f, e);
  }

  // ----- Exactly when content in use is lost -----

  /** Publication has taken an id for the new replica. */
  ghost function Begun(s: State): State { s.(nextId := s.nextId + 1) }

  lemma ThrowMeans(s: State, d: Descriptor, data: Bytes, f: Faults)
    requires Admission(s, d).None? && StoreState.Publish(s, d, data, f).1.Err?
    ensures s.cfg.chunkSize > 0
    ensures var p := PublishSteps(s, data, f); StoreState.Publish(s, d, data, f).0 == Rollback(p.s, p.draft, f)
  {
    hide PublishSteps, Confirm, CommitRecord, NewManifest, Rollback;
  }

  lemma {:induction false} StepsRecords(s: State, slices: seq<Slice>, n: nat, replica: Id, f: Faults)
    requires n <= |slices|
    ensures Steps(s, slices, n, replica, f).s.checkpoints == s.checkpoints
    ensures Steps(s, slices, n, replica, f).s.cfg == s.cfg
  {
    Runs.StepsFrame(s, slices, n, replica, f);
  }

  /**
   A publication that throws leaves all content in use intact if and only if its rollback removes
   nothing that is in use, whatever the environment did.
   */
  lemma LossExactly(s: State, d: Descriptor, data: Bytes, f: Faults)
    requires Safe(s) && Admission(s, d).None? && StoreState.Publish(s, d, data, f).1.Err?
    ensures s.cfg.chunkSize > 0
    ensures var t, wrote := StoreState.Publish(s, d, data, f).0, PublishSteps(s, data, f).draft.wrote;
      && t.checkpoints == s.checkpoints
      && (UsedIntact(s.cfg.hash, t.checkpoints, t.storage) <==>
            forall n :: 0 <= n < |wrote| && f.remove(n, 0) ==> Uses(s.checkpoints, wrote[n]) == 0)
  {
    hide Structured, ContentsOk, RefsCover, EntriesOk, OrphansIntact, StoreState.Publish, Steps, Undo, Uses, Intact,
         Slices;
    ThrowMeans(s, d, data, f);
    var t, p := StoreState.Publish(s, d, data, f).0, PublishSteps(s, data, f);
    var slices, s1, wrote := Slices(s.cfg.hash, data, s.cfg.chunkSize), s.(nextId := s.nextId + 1), p.draft.wrote;
    StepsRecords(s1, slices, |slices|, s.nextId, f);
    SlicesAreSliced(s.cfg.hash, data, s.cfg.chunkSize);
    forall e: Digest | Uses(s.checkpoints, e) > 0
      ensures Intact(s.cfg.hash, t.storage, e) <==> !RolledBack(wrote, f, e)
    {
      StepsKeepIntact(s1, slices, |slices|, s.nextId, f, e);
      UndoIntactExactly(s.cfg.hash, p.s.storage, wrote, f, e);
    }
    if n :| 0 <= n < |wrote| && f.remove(n, 0) && Uses(s.checkpoints, wrote[n]) > 0 {
      assert RolledBack(wrote, f, wrote[n]);
    }
  }

  /** The entry keeps its size and standing. */
  ghost predicate KeepsEntry(t: Table, u: Table, e: Digest)
  {
    e in t ==> e in u && u[e].physicalSize == t[e].physicalSize && u[e].integrity == t[e].integrity
  }

  lemma AcquireKeepsEntry(hash: Bytes -> Digest, st: Storage, slice: Slice, i: nat, f: Faults, e: Digest)
    ensures KeepsEntry(st.dedup, Acquire(hash, st, slice, i, f).st.dedup, e)
  {
    hide BlobKey, PrefixId, Backend.VerifyObject;
  }

  lemma {:induction false} StepsKeepEntry(s: State, slices: seq<Slice>, n: nat, replica: Id, f: Faults, e: Digest)
    requires n <= |slices|
    ensures KeepsEntry(s.storage.dedup, Steps(s, slices, n, replica, f).s.storage.dedup, e)
  {
    hide StoreState.Step, Acquire;
    if n > 0 {
      var p := Steps(s, slices, n - 1, replica, f);
      StepsKeepEntry(s, slices, n - 1, replica, f, e);
      StepTurn(p, slices[n - 1], n - 1, replica, f);
      AcquireKeepsEntry(p.s.cfg.hash, p.s.storage, slices[n - 1], n - 1, f, e);
    }
  }

  /** Known, intact content is written again exactly when the verification is not answered and the write is accepted. */
  lemma RewrittenExactly(hash: Bytes -> Digest, st: Storage, slice: Slice, i: nat, f: Faults)
    requires slice.bytes != [] && slice.digest in st.dedup && Intact(hash, st, slice.digest)
    requires st.dedup[slice.digest].integrity != INTEGRITY_CORRUPT
    ensures Acquire(hash, st, slice, i, f).Wrote? <==>
            st.dedup[slice.digest].physicalSize == |slice.bytes| && !f.verify(i) && f.put(i) && f.commit(i)
  {
    hide BlobKey, PrefixId, Intact, Backend.VerifyObject;
    VerdictMeans(hash, st, slice.digest, f.verify(i));
  }

  /**
   Over the inputs: the i-th slice is reached, its content is in use under an entry of its size,
   its verification is not answered, its write is accepted, and its removal goes through.
   */
  ghost predicate Destroys(s: State, slices: seq<Slice>, i: nat, replica: Id, f: Faults)
    requires i < |slices|
  {
    && Reached(s, slices, i, replica, f) && Uses(s.checkpoints, slices[i].digest) > 0
    && SizedAs(s.storage.dedup, slices[i].digest, |slices[i].bytes|)
    && !f.verify(i) && f.put(i) && f.commit(i) && f.remove(Place(s, slices, i, replica, f), 0)
  }

  lemma UsedWrittenExactly(s: State, slices: seq<Slice>, i: nat, replica: Id, f: Faults)
    requires Sound(s.cfg.hash, s.checkpoints, s.storage) && Sliced(s.cfg.hash, slices) && i < |slices|
    requires Uses(s.checkpoints, slices[i].digest) > 0
    ensures WrittenAt(s, slices, i, replica, f) && f.remove(Place(s, slices, i, replica, f), 0) <==>
            Destroys(s, slices, i, replica, f)
  {
    hide Steps, Acquire, Intact, Uses, PrefixId;
    var d, p := slices[i].digest, Steps(s, slices, i, replica, f);
    assert Refs(s.storage.dedup, d) > 0;
    StepsRecords(s, slices, i, replica, f);
    StepsKeepIntact(s, slices, i, replica, f, d);
    StepsKeepEntry(s, slices, i, replica, f, d);
    RewrittenExactly(s.cfg.hash, p.s.storage, slices[i], i, f);
  }

  /**
   Exactly which publications that throw lose content in use: those with a slice that destroys it.
   A flicker on content nobody uses, and one whose removal is refused, do no harm.
   */
  lemma LossOverInputs(s: State, d: Descriptor, data: Bytes, f: Faults)
    requires Safe(s) && Admission(s, d).None? && StoreState.Publish(s, d, data, f).1.Err?
    ensures s.cfg.chunkSize > 0
    ensures var t, slices := StoreState.Publish(s, d, data, f).0, Slices(s.cfg.hash, data, s.cfg.chunkSize);
      UsedIntact(s.cfg.hash, t.checkpoints, t.storage) <==>
        forall i :: 0 <= i < |slices| ==> !Destroys(Begun(s), slices, i, s.nextId, f)
  {
    hide Structured, ContentsOk, UsedIntact, Sound, StoreState.Publish, Steps, Uses, Slices, Destroys, WrittenAt,
         Place;
    LossExactly(s, d, data, f);
    var slices, s1 := Slices(s.cfg.hash, data, s.cfg.chunkSize), Begun(s);
    var wrote, m := PublishSteps(s, data, f).draft.wrote, |slices|;
    SlicesAreSliced(s.cfg.hash, data, s.cfg.chunkSize);
    if i :| 0 <= i < m && Destroys(s1, slices, i, s.nextId, f) {
      DestroysUsed(s1, slices, i, s.nextId, f);
      UsedWrittenExactly(s1, slices, i, s.nextId, f);
      WrittenIsListed(s1, slices, i, m, s.nextId, f);
    }
    if n :| 0 <= n < |wrote| && f.remove(n, 0) && Uses(s.checkpoints, wrote[n]) > 0 {
      var i := ListedIsWritten(s1, slices, m, s.nextId, f, n);
      UsedWrittenExactly(s1, slices, i, s.nextId, f);
    }
  }

  lemma DestroysUsed(s: State, slices: seq<Slice>, i: nat, replica: Id, f: Faults)
    requires i < |slices| && Destroys(s, slices, i, replica, f)
    ensures Uses(s.checkpoints, slices[i].digest) > 0
  {
  }

  // ----- Exactly when references are left behind -----

  /** The digests shared among the first n slices. */
  ghost function SharedList(s: State, slices: seq<Slice>, n: nat, replica: Id, f: Faults): seq<Digest>
    requires n <= |slices|
  {
    if n == 0 then []
    else
      Extended(SharedList(s, slices, n - 1, replica, f), slices[n - 1].digest, SharedAt(s, slices, n - 1, replica, f))
  }

  function Extended(ds: seq<Digest>, d: Digest, more: bool): seq<Digest> { if more then ds + [d] else ds }

  ghost predicate SharedAt(s: State, slices: seq<Slice>, i: nat, replica: Id, f: Faults)
    requires i < |slices|
  {
    Reached(s, slices, i, replica, f) && Turn(s, slices, i, replica, f).Shared?
  }

  lemma {:induction false} SharedNone(s: State, slices: seq<Slice>, n: nat, replica: Id, f: Faults)
    requires n <= |slices|
    ensures SharedList(s, slices, n, replica, f) == [] <==>
            forall i :: 0 <= i < n ==> !SharedAt(s, slices, i, replica, f)
  {
    hide SharedAt;
    if n > 0 {
      SharedNone(s, slices, n - 1, replica, f);
    }
  }

  /** Every reference added is for a slice written or a slice shared. */
  ghost predicate Split(t0: Table, t: Table, wrote: seq<Digest>, shared: seq<Digest>)
  {
    && (forall e: Digest :: Refs(t, e) == Refs(t0, e) + multiset(wrote)[e] + multiset(shared)[e])
    && (forall i, j :: 0 <= i < j < |wrote| ==> wrote[i] != wrote[j])
    && (forall e <- wrote :: e !in t0 && e in t) && (forall e :: e in t0 ==> e in t)
  }

  lemma SplitShared(t0: Table, t: Table, wrote: seq<Digest>, shared: seq<Digest>, d: Digest)
    requires Split(t0, t, wrote, shared) && d in t
    ensures Split(t0, Added(t, d), wrote, shared + [d])
  {
    assert multiset(shared + [d]) == multiset(shared) + multiset{d};
    forall e: Digest ensures Refs(Added(t, d), e) == Refs(t, e) + (if e == d then 1 else 0) { }
  }

  lemma SplitWrote(t0: Table, t: Table, wrote: seq<Digest>, shared: seq<Digest>, d: Digest, entry: DedupEntry)
    requires Split(t0, t, wrote, shared) && d !in t && entry.refcount == 1
    ensures Split(t0, t[d := entry], wrote + [d], shared)
  {
    assert multiset(wrote + [d]) == multiset(wrote) + multiset{d};
    forall e: Digest ensures Refs(t[d := entry], e) == Refs(t, e) + (if e == d then 1 else 0) { }
  }

  lemma RefusedKeepsTable(hash: Bytes -> Digest, st: Storage, slice: Slice, i: nat, f: Faults)
    ensures Acquire(hash, st, slice, i, f).Refused? ==> Acquire(hash, st, slice, i, f).st.dedup == st.dedup
  {
    hide BlobKey, PrefixId, Backend.VerifyObject;
  }

  lemma TurnIntact(hash: Bytes -> Digest, st: Storage, slice: Slice, i: nat, f: Faults)
    requires AllIntact(hash, st) && Steady(f) && slice.digest == hash(slice.bytes) && slice.bytes != []
    ensures AllIntact(hash, Acquire(hash, st, slice, i, f).st)
  {
    hide Acquire, Intact, Steady;
    AcquireExact(hash, st, slice, i, f);
    RefusedKeepsTable(hash, st, slice, i, f);
    var t := Acquire(hash, st, slice, i, f).st;
    forall e | e in st.dedup ensures Intact(hash, t, e) { AcquireKeepsIntact(hash, st, slice, i, f, e); }
  }

  lemma StepSplit(hash: Bytes -> Digest, t0: Table, p: Progress, slice: Slice, i: nat, replica: Id, f: Faults,
                  shared: seq<Digest>)
    requires AllIntact(hash, p.s.storage) && Steady(f) && slice.digest == hash(slice.bytes) && slice.bytes != []
    requires p.s.cfg.hash == hash && p.error.None? && Split(t0, p.s.storage.dedup, p.draft.wrote, shared)
    ensures var q, turn := StoreState.Step(p, slice, i, replica, f), Acquire(hash, p.s.storage, slice, i, f);
      Split(t0, q.s.storage.dedup, q.draft.wrote, shared + if turn.Shared? then [slice.digest] else [])
  {
    hide StoreState.Step, Acquire, AllIntact, Steady, Split;
    StepTurn(p, slice, i, replica, f);
    AcquireExact(hash, p.s.storage, slice, i, f);
    RefusedKeepsTable(hash, p.s.storage, slice, i, f);
    assert shared + [] == shared && p.draft.wrote + [] == p.draft.wrote;
    match Acquire(hash, p.s.storage, slice, i, f)
    case Refused(_, _) =>
    case Shared(_) =>
      SplitShared(t0, p.s.storage.dedup, p.draft.wrote, shared, slice.digest);
    case Wrote(_) =>
      OneReference(slice.digest, |slice.bytes|);
      SplitWrote(t0, p.s.storage.dedup, p.draft.wrote, shared, slice.digest, NewEntry(slice.digest, |slice.bytes|));
  }

  /** The state of an attempt after some slices, failed or not, with the digests shared so far. */
  ghost predicate Accounted(hash: Bytes -> Digest, t0: Table, p: Progress, shared: seq<Digest>)
  {
    AllIntact(hash, p.s.storage) && p.draft.hits == |shared| && Split(t0, p.s.storage.dedup, p.draft.wrote, shared)
  }

  lemma StepAccounted(hash: Bytes -> Digest, t0: Table, p: Progress, slice: Slice, i: nat, replica: Id, f: Faults,
                      shared: seq<Digest>)
    requires Accounted(hash, t0, p, shared) && Steady(f) && slice.digest == hash(slice.bytes) && slice.bytes != []
    requires p.s.cfg.hash == hash
    ensures var turn := Acquire(hash, p.s.storage, slice, i, f);
      Accounted(hash, t0, StoreState.Step(p, slice, i, replica, f),
                shared + if p.error.None? && turn.Shared? then [slice.digest] else [])
  {
    hide StoreState.Step, Acquire, AllIntact, Steady, Split;
    StepTurn(p, slice, i, replica, f);
    TurnIntact(hash, p.s.storage, slice, i, f);
    if p.error.None? {
      StepSplit(hash, t0, p, slice, i, replica, f, shared);
    } else {
      assert shared + [] == shared;
    }
  }

  lemma {:induction false} StepsSplit(s: State, slices: seq<Slice>, n: nat, replica: Id, f: Faults)
    requires AllIntact(s.cfg.hash, s.storage) && Steady(f) && Sliced(s.cfg.hash, slices) && n <= |slices|
    ensures Accounted(s.cfg.hash, s.storage.dedup, Steps(s, slices, n, replica, f),
                      SharedList(s, slices, n, replica, f))
  {
    hide StoreState.Step, Acquire, AllIntact, Steady;
    if n > 0 {
      hide Accounted;
      StepsSplit(s, slices, n - 1, replica, f);
      StepsRecords(s, slices, n - 1, replica, f);
      StepAccounted(s.cfg.hash, s.storage.dedup, Steps(s, slices, n - 1, replica, f), slices[n - 1], n - 1, replica, f,
                    SharedList(s, slices, n - 1, replica, f));
    }
  }

  lemma OneReference(d: Digest, size: nat)
    ensures NewEntry(d, size).refcount == 1
  {
  }

  /** The rollback takes back exactly one reference for each slice written. */
  lemma {:induction false} ReleasedExactly(t: Table, wrote: seq<Digest>, e: Digest)
    requires forall i, j :: 0 <= i < j < |wrote| ==> wrote[i] != wrote[j]
    requires e in wrote ==> Refs(t, e) >= 1
    ensures Refs(ReleaseWritten(t, wrote), e) == Refs(t, e) - (if e in wrote then 1 else 0)
  {
    if wrote != [] {
      var n := |wrote| - 1;
      assert wrote == wrote[..n] + [wrote[n]];
      ReleasedExactly(t, wrote[..n], e);
    }
  }

  lemma {:induction false} DistinctCounts(ds: seq<Digest>, e: Digest)
    requires forall i, j :: 0 <= i < j < |ds| ==> ds[i] != ds[j]
    ensures multiset(ds)[e] == if e in ds then 1 else 0
  {
    if ds != [] {
      var n := |ds| - 1;
      assert ds == ds[..n] + [ds[n]];
      DistinctCounts(ds[..n], e);
    }
  }

  /** After the rollback what remains counted beyond the uses is what was shared. */
  lemma UndoneCounts(t0: Table, t: Table, wrote: seq<Digest>, shared: seq<Digest>, e: Digest)
    requires Split(t0, t, wrote, shared)
    ensures Refs(ReleaseWritten(t, wrote), e) == Refs(t0, e) + multiset(shared)[e]
  {
    hide ReleaseWritten;
    DistinctCounts(wrote, e);
    assert e in wrote ==> Refs(t, e) >= 1;
    ReleasedExactly(t, wrote, e);
  }

  /** A slice that got its reference was shared exactly when its content was known before its turn. */
  lemma SharedIsKnown(s: State, slices: seq<Slice>, i: nat, replica: Id, f: Faults)
    requires AllIntact(s.cfg.hash, s.storage) && Steady(f) && Sliced(s.cfg.hash, slices) && i < |slices|
    ensures SharedAt(s, slices, i, replica, f) <==>
            Reached(s, slices, i + 1, replica, f) && KnownBefore(s.storage.dedup, slices, i)
  {
    hide StoreState.Step, Acquire, AllIntact, Steady, SliceDigests;
    var p := Steps(s, slices, i, replica, f);
    StepsShort(s, slices, i, replica, f);
    StepsSplit(s, slices, i, replica, f);
    StepsRecords(s, slices, i, replica, f);
    StepTurn(p, slices[i], i, replica, f);
    AcquireExact(s.cfg.hash, p.s.storage, slices[i], i, f);
  }

  /** Some slice that got its reference had content that was known before its turn. */
  ghost predicate SharesSome(s: State, slices: seq<Slice>, replica: Id, f: Faults)
  {
    exists i :: 0 <= i < |slices| && Reached(s, slices, i + 1, replica, f) && KnownBefore(s.storage.dedup, slices, i)
  }

  /**
   From exact books and under steady answers, a publication that throws leaves exact books if and
   only if it had shared nothing: no slice that got its reference had content known before.
   */
  lemma LeakExactly(s: State, d: Descriptor, data: Bytes, f: Faults)
    requires LedgerOf(s) && Steady(f) && Admission(s, d).None? && StoreState.Publish(s, d, data, f).1.Err?
    ensures s.cfg.chunkSize > 0
    ensures var t, p := StoreState.Publish(s, d, data, f).0, PublishSteps(s, data, f);
      && t.checkpoints == s.checkpoints
      && (Counted(t.checkpoints, t.storage.dedup) <==> p.draft.hits == 0)
      && (Counted(t.checkpoints, t.storage.dedup) <==>
            !SharesSome(Begun(s), Slices(s.cfg.hash, data, s.cfg.chunkSize), s.nextId, f))
  {
    hide AllIntact, RecordsSized, ReferencedBytes, LiveBytes, StoreState.Publish, Steps, Slices, Uses, Steady,
         SharedList, ReleaseWritten, RemoveWritten, SharedAt, Reached, KnownBefore, Split;
    ThrowMeans(s, d, data, f);
    var t, p := StoreState.Publish(s, d, data, f).0, PublishSteps(s, data, f);
    var slices, s1 := Slices(s.cfg.hash, data, s.cfg.chunkSize), Begun(s);
    var n := |slices|;
    var shared := SharedList(s1, slices, n, s.nextId, f);
    SlicesAreSliced(s.cfg.hash, data, s.cfg.chunkSize);
    StepsRecords(s1, slices, n, s.nextId, f);
    StepsSplit(s1, slices, n, s.nextId, f);
    forall e: Digest ensures Refs(t.storage.dedup, e) == Uses(s.checkpoints, e) + multiset(shared)[e] {
      UndoneCounts(s.storage.dedup, p.s.storage.dedup, p.draft.wrote, shared, e);
    }
    if shared != [] {
      assert multiset(shared)[shared[0]] > 0;
    }
    SharedNone(s1, slices, n, s.nextId, f);
    forall i | 0 <= i < n
      ensures SharedAt(s1, slices, i, s.nextId, f) <==>
              Reached(s1, slices, i + 1, s.nextId, f) && KnownBefore(s.storage.dedup, slices, i)
    {
      SharedIsKnown(s1, slices, i, s.nextId, f);
    }
  }

  // ----- The counts whatever fails -----

  /** The slices written although the table knew their content, or those whose content it did not know. */
  ghost function WroteList(s: State, slices: seq<Slice>, n: nat, replica: Id, f: Faults, known: bool): seq<Digest>
    requires n <= |slices|
  {
    if n == 0 then []
    else
      var d := slices[n - 1].digest;
      Extended(WroteList(s, slices, n - 1, replica, f, known), d,
               WrittenAt(s, slices, n - 1, replica, f)
               && (known <==> d in Steps(s, slices, n - 1, replica, f).s.storage.dedup))
  }

  ghost function Rewritten(s: State, slices: seq<Slice>, replica: Id, f: Faults): multiset<Digest>
  {
    multiset(WroteList(s, slices, |slices|, replica, f, true))
  }

  ghost function SharedOf(s: State, slices: seq<Slice>, replica: Id, f: Faults): multiset<Digest>
  {
    multiset(SharedList(s, slices, |slices|, replica, f))
  }

  /** References come from slices shared and slices newly written; rewritten slices get none. */
  ghost predicate Sorted(t0: Table, t: Table, wrote: seq<Digest>, shared: seq<Digest>, novel: seq<Digest>,
                         again: seq<Digest>)
  {
    && (forall e: Digest :: Refs(t, e) == Refs(t0, e) + multiset(shared)[e] + multiset(novel)[e])
    && multiset(wrote) == multiset(novel) + multiset(again)
  }

  lemma SortedTurn(hash: Bytes -> Digest, t0: Table, st: Storage, slice: Slice, i: nat, f: Faults,
                   wrote: seq<Digest>, shared: seq<Digest>, novel: seq<Digest>, again: seq<Digest>)
    requires Sorted(t0, st.dedup, wrote, shared, novel, again) && slice.digest == hash(slice.bytes)
    ensures var turn, d := Acquire(hash, st, slice, i, f), slice.digest;
      match turn
      case Refused(_, _) => turn.st.dedup == st.dedup
      case Shared(_) => Sorted(t0, turn.st.dedup, wrote, shared + [d], novel, again)
      case Wrote(_) =>
        if d in st.dedup then Sorted(t0, turn.st.dedup, wrote + [d], shared, novel, again + [d])
        else Sorted(t0, turn.st.dedup, wrote + [d], shared, novel + [d], again)
  {
    hide BlobKey, PrefixId, Backend.VerifyObject, Write, Sorted;
    var d := slice.digest;
    WriteEffect(hash, st, slice, i, f);
    RefusedKeepsTable(hash, st, slice, i, f);
    match Acquire(hash, st, slice, i, f)
    case Refused(_, _) =>
    case Shared(_) =>
      SortedShared(t0, st.dedup, wrote, shared, novel, again, d);
    case Wrote(_) =>
      SortedWrote(t0, st.dedup, wrote, shared, novel, again, d, NewEntry(d, |slice.bytes|));
  }

  lemma SortedShared(t0: Table, t: Table, wrote: seq<Digest>, shared: seq<Digest>, novel: seq<Digest>,
                     again: seq<Digest>, d: Digest)
    requires Sorted(t0, t, wrote, shared, novel, again) && d in t
    ensures Sorted(t0, Added(t, d), wrote, shared + [d], novel, again)
  {
    assert multiset(shared + [d]) == multiset(shared) + multiset{d};
    forall e: Digest ensures Refs(Added(t, d), e) == Refs(t, e) + (if e == d then 1 else 0) { }
  }

  lemma SortedWrote(t0: Table, t: Table, wrote: seq<Digest>, shared: seq<Digest>, novel: seq<Digest>,
                    again: seq<Digest>,
                    d: Digest, entry: DedupEntry)
    requires Sorted(t0, t, wrote, shared, novel, again) && entry.digest == d
    ensures if d in t then Sorted(t0, Inserted(t, entry), wrote + [d], shared, novel, again + [d])
            else Sorted(t0, Inserted(t, entry), wrote + [d], shared, novel + [d], again)
  {
    assert multiset(wrote + [d]) == multiset(wrote) + multiset{d};
    assert multiset(novel + [d]) == multiset(novel) + multiset{d};
    assert multiset(again + [d]) == multiset(again) + multiset{d};
    forall e: Digest ensures Refs(Inserted(t, entry), e) == Refs(t, e) + (if e == d && d !in t then 1 else 0) { }
  }

  lemma StepSorted(t0: Table, p: Progress, slice: Slice, i: nat, replica: Id, f: Faults,
                   shared: seq<Digest>, novel: seq<Digest>, again: seq<Digest>)
    requires Sorted(t0, p.s.storage.dedup, p.draft.wrote, shared, novel, again)
    requires slice.digest == p.s.cfg.hash(slice.bytes)
    ensures var q, turn := StoreState.Step(p, slice, i, replica, f), Acquire(p.s.cfg.hash, p.s.storage, slice, i, f);
      var d, on, known := slice.digest, p.error.None?, slice.digest in p.s.storage.dedup;
      Sorted(t0, q.s.storage.dedup, q.draft.wrote, Extended(shared, d, on && turn.Shared?),
             Extended(novel, d, on && turn.Wrote? && !known), Extended(again, d, on && turn.Wrote? && known))
  {
    hide StoreState.Step, Acquire, Sorted;
    StepTurn(p, slice, i, replica, f);
    SortedTurn(p.s.cfg.hash, t0, p.s.storage, slice, i, f, p.draft.wrote, shared, novel, again);
    assert p.draft.wrote + [] == p.draft.wrote;
  }

  lemma SortedStart(t: Table)
    ensures Sorted(t, t, [], [], [], [])
  {
  }

  lemma {:induction false} StepsSorted(s: State, slices: seq<Slice>, n: nat, replica: Id, f: Faults)
    requires Sliced(s.cfg.hash, slices) && n <= |slices|
    ensures var p := Steps(s, slices, n, replica, f);
      Sorted(s.storage.dedup, p.s.storage.dedup, p.draft.wrote, SharedList(s, slices, n, replica, f),
             WroteList(s, slices, n, replica, f, false), WroteList(s, slices, n, replica, f, true))
  {
    hide StoreState.Step, Acquire, Sorted, Extended, Refs;
    if n == 0 {
      SortedStart(s.storage.dedup);
    } else {
      StepsSorted(s, slices, n - 1, replica, f);
      StepsRecords(s, slices, n - 1, replica, f);
      var p, d, turn := Steps(s, slices, n - 1, replica, f), slices[n - 1].digest, Turn(s, slices, n - 1, replica, f);
      var shared, novel, again := SharedList(s, slices, n - 1, replica, f),
          WroteList(s, slices, n - 1, replica, f, false), WroteList(s, slices, n - 1, replica, f, true);
      StepSorted(s.storage.dedup, p, slices[n - 1], n - 1, replica, f, shared, novel, again);
      var on, known := p.error.None?, d in p.s.storage.dedup;
      assert SharedList(s, slices, n, replica, f) == Extended(shared, d, on && turn.Shared?);
      assert WroteList(s, slices, n, replica, f, false) == Extended(novel, d, on && turn.Wrote? && !known);
      assert WroteList(s, slices, n, replica, f, true) == Extended(again, d, on && turn.Wrote? && known);
    }
  }

  function Minus(a: nat, b: nat): nat { if a > b then a - b else 0 }

  /** The rollback releases once for every entry on the list, as far as there are references. */
  lemma {:induction false} ReleasedWhatever(t: Table, wrote: seq<Digest>, e: Digest)
    ensures Refs(ReleaseWritten(t, wrote), e) == Minus(Refs(t, e), multiset(wrote)[e])
  {
    if wrote != [] {
      var n := |wrote| - 1;
      assert wrote == wrote[..n] + [wrote[n]];
      ReleasedWhatever(t, wrote[..n], e);
    }
  }

  /**
   Whatever fails, after a publication that throws each digest has its old references, one more for
   every slice shared and one less, down to zero, for every slice rewritten.
   */
  lemma CountsAfterThrow(s: State, d: Descriptor, data: Bytes, f: Faults, e: Digest)
    requires Admission(s, d).None? && StoreState.Publish(s, d, data, f).1.Err?
    ensures s.cfg.chunkSize > 0
    ensures var slices := Slices(s.cfg.hash, data, s.cfg.chunkSize);
      Refs(StoreState.Publish(s, d, data, f).0.storage.dedup, e) ==
        Minus(Refs(s.storage.dedup, e) + SharedOf(Begun(s), slices, s.nextId, f)[e],
              Rewritten(Begun(s), slices, s.nextId, f)[e])
  {
    hide StoreState.Publish, Steps, Slices, SharedList, WroteList, ReleaseWritten, RemoveWritten, Refs;
    ThrowMeans(s, d, data, f);
    var p, slices := PublishSteps(s, data, f), Slices(s.cfg.hash, data, s.cfg.chunkSize);
    SlicesAreSliced(s.cfg.hash, data, s.cfg.chunkSize);
    StepsSorted(Begun(s), slices, |slices|, s.nextId, f);
    ReleasedWhatever(p.s.storage.dedup, p.draft.wrote, e);
  }

  /**
   From exact books and whatever fails, a publication that throws leaves exact books if and only if
   each digest was shared as often as it was rewritten, or is unused and was rewritten more often.
   */
  lemma LeakWhateverFails(s: State, d: Descriptor, data: Bytes, f: Faults)
    requires Counted(s.checkpoints, s.storage.dedup) && Admission(s, d).None?
    requires StoreState.Publish(s, d, data, f).1.Err?
    ensures s.cfg.chunkSize > 0
    ensures var t, slices := StoreState.Publish(s, d, data, f).0, Slices(s.cfg.hash, data, s.cfg.chunkSize);
      Counted(t.checkpoints, t.storage.dedup) <==>
        forall e: Digest :: Evened(s.checkpoints, SharedOf(Begun(s), slices, s.nextId, f),
                                   Rewritten(Begun(s), slices, s.nextId, f), e)
  {
    hide StoreState.Publish, Slices, SharedOf, Rewritten, Uses, Refs;
    var t := StoreState.Publish(s, d, data, f).0;
    ThrowMeans(s, d, data, f);
    ThrownRecords(s, d, data, f);
    var slices := Slices(s.cfg.hash, data, s.cfg.chunkSize);
    var shared, again := SharedOf(Begun(s), slices, s.nextId, f), Rewritten(Begun(s), slices, s.nextId, f);
    forall e: Digest
      ensures Refs(t.storage.dedup, e) == Uses(s.checkpoints, e) <==> Evened(s.checkpoints, shared, again, e)
    {
      CountsAfterThrow(s, d, data, f, e);
      assert Refs(s.storage.dedup, e) == Uses(s.checkpoints, e);
    }
  }

  ghost predicate Evened(cps: map<Id, Record>, shared: multiset<Digest>, again: multiset<Digest>, e: Digest)
  {
    shared[e] == again[e] || (Uses(cps, e) == 0 && shared[e] < again[e])
  }

  lemma ThrownRecords(s: State, d: Descriptor, data: Bytes, f: Faults)
    requires Admission(s, d).None? && StoreState.Publish(s, d, data, f).1.Err?
    ensures StoreState.Publish(s, d, data, f).0.checkpoints == s.checkpoints
  {
    hide StoreState.Publish;
    Runs.PublishPromises(s, d, data, f);
  }

  // ----- Two runs from an empty store -----

  const WELL: Faults := Generations.ALL_GOES_WELL

  /** The one slice of the data was stored and noted: reading it back confirms the attempt. */
  lemma OneSliceConfirms(s: State, draft: Draft, data: Bytes, c: Chunk)
    requires data != [] && c.digest == s.cfg.hash(data) && c.physicalSize == |data| && draft.chunks == [c]
    requires draft.entries == [ManifestEntry(c.id, 0)] && draft.sizes == map[c.id := |data|]
    requires BlobKey(c.digest) in s.storage.backend.objects && s.storage.backend.objects[BlobKey(c.digest)] == data
    ensures Confirm(s, draft, data, WELL).Ok?
  {
    hide BlobKey;
    assert ReadBack(s.cfg.hash, s.storage, draft.chunks, 0, WELL) == Ok([]);
    assert [] + data == data;
    assert draft.entries[..0] == [] && SortEntries([]) == [];
    assert SortEntries(draft.entries) == InsertEntry([], draft.entries[0]) == draft.entries;
    assert Span([], draft.sizes) == Some(0);
  }

  /** Content the store does not know, on a backend that answers everything, commits. */
  lemma OneSliceCommits(s: State, d: Descriptor, data: Bytes)
    requires Admission(s, d).None? && 0 < |data| <= s.cfg.chunkSize && s.storage.dedup == map[]
    ensures StoreState.Publish(s, d, data, WELL).1.Ok?
  {
    hide BlobKey, PrefixId, NoteBlob, Slices, Confirm, CommitRecord, NewManifest, Rollback;
    var digest := s.cfg.hash(data);
    OneSlice(s.cfg.hash, data, s.cfg.chunkSize);
    var slice, p0 := Slice(0, data, digest), Progress(Begun(s), NO_DRAFT, None);
    assert Steps(Begun(s), [slice], 0, s.nextId, WELL) == p0;
    var p := PublishSteps(s, data, WELL);
    assert p == StoreState.Step(p0, slice, 0, s.nextId, WELL);
    WrittenFirst(s.cfg.hash, s.storage, slice);
    FirstNote(Begun(s), Acquire(s.cfg.hash, s.storage, slice, 0, WELL).st, slice, s.nextId);
    OneSliceConfirms(p.s, p.draft, data, p.draft.chunks[0]);
  }

  lemma WrittenFirst(hash: Bytes -> Digest, st: Storage, slice: Slice)
    requires st.dedup == map[] && slice.bytes != []
    ensures var turn := Acquire(hash, st, slice, 0, WELL);
      turn.Wrote? && BlobKey(slice.digest) in turn.st.backend.objects
        && turn.st.backend.objects[BlobKey(slice.digest)] == slice.bytes
  {
    hide BlobKey, PrefixId;
  }

  lemma FirstNote(s: State, st: Storage, slice: Slice, replica: Id)
    ensures var draft := NO_DRAFT.(misses := 1, written := |slice.bytes|, wrote := [slice.digest]);
      var q := Note(s.(storage := st), draft, slice, PrefixId(slice.digest), replica);
      && q.error.None? && q.s.storage == st && q.s.cfg == s.cfg && |q.draft.chunks| == 1
      && q.draft.chunks[0].digest == slice.digest && q.draft.chunks[0].physicalSize == |slice.bytes|
      && q.draft.entries == [ManifestEntry(q.draft.chunks[0].id, slice.offset)]
      && q.draft.sizes == map[q.draft.chunks[0].id := |slice.bytes|] && q.draft.chunks == [q.draft.chunks[0]]
  {
    hide PrefixId, NoteBlob, Refs;
  }

  /** The second checkpoint of family 1. */
  function Second(boot: Id): Descriptor { Generations.Plain(8, boot).(generation := 2) }

  /** A family, a checkpoint, and a second publication of the same data under the given faults. */
  function TwiceRun(boot: Id, data: Bytes, f: Faults): seq<Runs.Op>
  {
    [Runs.CreateFamily, Runs.Op.Publish(Generations.Plain(7, boot), data, WELL), Runs.Op.Publish(Second(boot), data, f)]
  }

  /** One checkpoint, number 7, of one slice, in an exact and safe store that awaits generation 2 of family 1. */
  ghost predicate HoldsOne(s: State, boot: Id, data: Bytes)
  {
    && Safe(s) && LedgerOf(s) && s.registered && Admission(s, Second(boot)).None?
    && SizedAs(s.storage.dedup, s.cfg.hash(data), |data|) && Refs(s.storage.dedup, s.cfg.hash(data)) == 1
    && 7 in s.checkpoints && s.checkpoints[7].lifecycle == LIFE_COMMITTED
    && |s.checkpoints[7].chunks| == 1 && s.checkpoints[7].chunks[0].digest == s.cfg.hash(data)
  }

  lemma WellIsHonest(d: Descriptor, data: Bytes)
    ensures Runs.Honest(Runs.Op.Publish(d, data, WELL)) && Steady(WELL)
  {
  }

  lemma FirstCommitHolds(cfg: Config, boot: Id, data: Bytes)
    requires ValidChunkSize(cfg.chunkSize) && 0 < |data| <= cfg.chunkSize
    ensures var s := StoreState.CreateFamily(Runs.Init(cfg, boot));
      HoldsOne(StoreState.Publish(s, Generations.Plain(7, boot), data, WELL).0, boot, data)
  {
    hide Safe, Ledger, StoreState.Publish, Uses, Steady, Slices;
    var s, d := StoreState.CreateFamily(Runs.Init(cfg, boot)), Generations.Plain(7, boot);
    var t := StoreState.Publish(s, d, data, WELL).0;
    WellIsHonest(d, data);
    Runs.InitSafe(cfg, boot);
    StartLedger(cfg, boot);
    CreatedSafe(Runs.Init(cfg, boot));
    OneSliceCommits(s, d, data);
    PublishKeeps(s, d, data, WELL);
    PublishLedger(s, d, data, WELL);
    Runs.PublishPromises(s, d, data, WELL);
    OneSlice(cfg.hash, data, cfg.chunkSize);
    CommittedEntry(s, d, data);
    OneUse(s, t);
    PublishKeepsBoot(s, d, data);
  }

  lemma CreatedSafe(s: State)
    requires Safe(s) && LedgerOf(s)
    ensures Safe(StoreState.CreateFamily(s)) && LedgerOf(StoreState.CreateFamily(s))
  {
    hide Safe, Ledger;
    CollectionSafety.OtherFields(s, StoreState.CreateFamily(s));
  }

  lemma CommittedEntry(s: State, d: Descriptor, data: Bytes)
    requires LedgerOf(s) && StoreState.Publish(s, d, data, WELL).1.Ok? && 0 < |data| <= s.cfg.chunkSize
    ensures SizedAs(StoreState.Publish(s, d, data, WELL).0.storage.dedup, s.cfg.hash(data), |data|)
  {
    hide Ledger, StoreState.Publish, Steps, Confirm, CommitRecord, Slices, Tallied, Steady, UniqueBytes;
    ReceiptMeans(s, d, data, WELL);
    var p, slices := PublishSteps(s, data, WELL), Slices(s.cfg.hash, data, s.cfg.chunkSize);
    WellIsHonest(d, data);
    PublishTallied(s, data, WELL);
    OneSlice(s.cfg.hash, data, s.cfg.chunkSize);
    TallySized(s.cfg.hash, s.storage, p.s.storage, slices, p.draft.written);
    StepsRecords(Begun(s), slices, |slices|, s.nextId, WELL);
    CommittedRecord(p.s, d, p.draft, |data|, Confirm(p.s, p.draft, data, WELL).value, s.nextId);
    assert SizedAs(p.s.storage.dedup, slices[0].digest, |slices[0].bytes|);
  }

  lemma OneUse(s: State, t: State)
    requires s.checkpoints == map[] && 7 in t.checkpoints && t.checkpoints == s.checkpoints[7 := t.checkpoints[7]]
    requires t.checkpoints[7].lifecycle == LIFE_COMMITTED && |t.checkpoints[7].chunks| == 1 && LedgerOf(t)
    ensures Refs(t.storage.dedup, t.checkpoints[7].chunks[0].digest) == 1
  {
    hide AllIntact, RecordsSized, ReferencedBytes, LiveBytes, Uses;
    var r := t.checkpoints[7];
    var d := r.chunks[0].digest;
    UsesAdd(s.checkpoints, 7, r, d);
    NoUses(d);
    assert DigestsOf(r.chunks) == [d];
  }

  lemma NoUses(d: Digest)
    ensures Uses(map[], d) == 0
  {
    assert UseMap(map[], d) == map[];
  }

  lemma PublishKeepsBoot(s: State, d: Descriptor, data: Bytes)
    ensures StoreState.Publish(s, d, data, WELL).0.bootId == s.bootId
  {
    hide Steps, Confirm, NewManifest, Undo, Slices;
    if Admission(s, d).None? {
      var slices := Slices(s.cfg.hash, data, s.cfg.chunkSize);
      Runs.StepsFrame(Begun(s), slices, |slices|, s.nextId, WELL);
    }
  }

  lemma TwiceStates(cfg: Config, boot: Id, data: Bytes, f: Faults)
    requires ValidChunkSize(cfg.chunkSize) && 0 < |data| <= cfg.chunkSize
    ensures var ops, w := TwiceRun(boot, data, f), Runs.Start(cfg, boot);
      var s := Runs.After(w, ops[..2]).s;
      && HoldsOne(s, boot, data) && s.cfg == cfg
      && Runs.After(w, ops).s == StoreState.Publish(s, Second(boot), data, f).0
  {
    hide HoldsOne, Runs.Perform, Runs.Remember, Runs.After, StoreState.Publish;
    var ops, w := TwiceRun(boot, data, f), Runs.Start(cfg, boot);
    FirstCommitHolds(cfg, boot, data);
    Generations.AfterNone(w);
    Generations.AfterOne(w, ops, 0);
    Generations.AfterOne(w, ops, 1);
    Generations.AfterOne(w, ops, 2);
    assert ops[..0] == [] && ops[..3] == ops;
    Generations.RestartStep(w.s);
    var c := StoreState.CreateFamily(w.s);
    Runs.PublishStep(c, ops[1]);
    Runs.PublishPromises(c, Generations.Plain(7, boot), data, WELL);
    Runs.PublishStep(Runs.After(w, ops[..2]).s, ops[2]);
  }

  /** A run from an empty store after which a live checkpoint no longer restores. */
  lemma FlickerRunLoses(cfg: Config, boot: Id, data: Bytes, f: Faults, up: Faults)
    requires ValidChunkSize(cfg.chunkSize) && 0 < |data| <= cfg.chunkSize && FlickersOnce(f) && AllUp(up)
    ensures var ops, w := TwiceRun(boot, data, f), Runs.Start(cfg, boot);
      var s, t := Runs.After(w, ops[..2]).s, Runs.After(w, ops).s;
      && Recovery.Restore(s, 7, up).1.Ok?
      && 7 in t.checkpoints && Live(t.checkpoints[7]) && Recovery.Restore(t, 7, up).1.Err?
  {
    hide Safe, Ledger, Runs.After, StoreState.Publish, Recovery.Restore, AllUp, FlickersOnce;
    TwiceStates(cfg, boot, data, f);
    var s := Runs.After(Runs.Start(cfg, boot), TwiceRun(boot, data, f)[..2]).s;
    FlickerLosesContent(s, Second(boot), data, f, 7, up);
  }

  // ----- And one after which a reference is left over -----

  /** Everything is answered but the data cannot be read back. */
  const UNREADABLE: Faults := WELL.(read := (i, k) => false)

  lemma KnownIsShared(hash: Bytes -> Digest, st: Storage, slice: Slice, f: Faults)
    requires Intact(hash, st, slice.digest) && SizedAs(st.dedup, slice.digest, |slice.bytes|) && slice.bytes != []
    requires f.verify(0)
    requires st.dedup[slice.digest].integrity == INTEGRITY_VERIFIED && Refs(st.dedup, slice.digest) == 1
    ensures Acquire(hash, st, slice, 0, f).Shared?
  {
    hide BlobKey, PrefixId, Intact, Backend.VerifyObject;
    VerdictMeans(hash, st, slice.digest, f.verify(0));
  }

  lemma SharedOnce(s: State, boot: Id, data: Bytes)
    requires HoldsOne(s, boot, data) && 0 < |data| <= s.cfg.chunkSize
    ensures var p := PublishSteps(s, data, UNREADABLE); p.error.None? && p.draft.hits == 1 && |p.draft.chunks| == 1
  {
    hide Structured, ContentsOk, RefsCover, UsedIntact, OrphansIntact, Counted, RecordsSized, ReferencedBytes,
         LiveBytes, Intact, Slices, StoreState.Step, Acquire, PrefixId;
    OneSlice(s.cfg.hash, data, s.cfg.chunkSize);
    var slice, p0 := Slice(0, data, s.cfg.hash(data)), Progress(Begun(s), NO_DRAFT, None);
    assert Steps(Begun(s), [slice], 0, s.nextId, UNREADABLE) == p0;
    KnownIsShared(s.cfg.hash, s.storage, slice, UNREADABLE);
    StepTurn(p0, slice, 0, s.nextId, UNREADABLE);
    Runs.StepFrame(p0, slice, 0, s.nextId, UNREADABLE);
  }

  /** A run from an empty store after which the only checkpoint's content has two references and one use. */
  lemma FailedRunLeaks(cfg: Config, boot: Id, data: Bytes)
    requires ValidChunkSize(cfg.chunkSize) && 0 < |data| <= cfg.chunkSize
    ensures var t := Runs.After(Runs.Start(cfg, boot), TwiceRun(boot, data, UNREADABLE)).s;
      !Counted(t.checkpoints, t.storage.dedup)
  {
    hide Safe, Ledger, Runs.After, PublishSteps, Confirm, CommitRecord, NewManifest, Rollback, Counted, SharesSome;
    TwiceStates(cfg, boot, data, UNREADABLE);
    var s := Runs.After(Runs.Start(cfg, boot), TwiceRun(boot, data, UNREADABLE)[..2]).s;
    SharedOnce(s, boot, data);
    var p := PublishSteps(s, data, UNREADABLE);
    Unread(p.s, p.draft, data, UNREADABLE);
    LeakExactly(s, Second(boot), data, UNREADABLE);
  }
}

/**
 What happens when the backend fails to answer a verification and then accepts a write: shared
 content is rewritten without a reference, and a failing publication removes it.
 */
module Flicker {
  import opened Basics
  import opened Model
  import opened Chunking
  import opened Dedup
  import opened StoreState
  import opened Invariant
  import opened Publication
  import opened RestoreCorrectness
  import opened Exactness
  import Recovery
  import Runs

  // ----- A publication that fails takes shared content with it -----

  /** The backend does not answer the verification, accepts the write, and cannot read it back. */
  ghost predicate FlickersOnce(f: Faults)
  {
    !f.verify(0) && f.put(0) && f.commit(0) && !f.read(0, 0) && f.remove(0, 0)
  }

  lemma OneSlice(hash: Bytes -> Digest, data: Bytes, size: nat)
    requires 0 < |data| <= size
    ensures Slices(hash, data, size) == [Slice(0, data, hash(data))]
  {
    assert data[0..|data|] == data;
    assert SlicesFrom(hash, data, size, |data|) == [];
  }

  /** The write goes through over the known entry. */
  lemma Overwritten(s: State, data: Bytes, f: Faults)
    requires FlickersOnce(f) && 0 < |data| <= s.cfg.chunkSize && SizedAs(s.storage.dedup, s.cfg.hash(data), |data|)
    requires s.storage.dedup[s.cfg.hash(data)].integrity != INTEGRITY_CORRUPT
    ensures var p, d := PublishSteps(s, data, f), s.cfg.hash(data);
      && p.error.None? && p.draft.wrote == [d] && |p.draft.chunks| == 1 && p.s.cfg == s.cfg
      && Extends(s.placements, p.s.placements) && p.s.checkpoints == s.checkpoints && p.s.replicas == s.replicas
      && p.s.registered == s.registered
  {
    hide BlobKey, PrefixId, NoteBlob, Slices;
    var d := s.cfg.hash(data);
    OneSlice(s.cfg.hash, data, s.cfg.chunkSize);
    var slice, s1 := Slice(0, data, d), s.(nextId := s.nextId + 1);
    var p0 := Progress(s1, NO_DRAFT, None);
    assert Steps(s1, [slice], 0, s.nextId, f) == p0;
    assert Acquire(s.cfg.hash, s.storage, slice, 0, f).Wrote?;
    assert PublishSteps(s, data, f) == StoreState.Step(p0, slice, 0, s.nextId, f);
  }

  /**
   Publishing content that a live checkpoint already shares, while the backend flickers and then
   fails, leaves the store without that content: the live checkpoint no longer restores.
   */
  lemma FlickerLosesContent(s: State, d: Descriptor, data: Bytes, f: Faults, id: Id, up: Faults)
    requires Safe(s) && s.registered && Admission(s, d).None? && FlickersOnce(f) && AllUp(up)
    requires 0 < |data| <= s.cfg.chunkSize && SizedAs(s.storage.dedup, s.cfg.hash(data), |data|)
    requires id in s.checkpoints && Live(s.checkpoints[id]) && IdsFaithful(s.checkpoints[id].chunks)
    requires s.checkpoints[id].chunks != [] && s.checkpoints[id].chunks[0].digest == s.cfg.hash(data)
    ensures Recovery.Restore(s, id, up).1.Ok?
    ensures var t := StoreState.Publish(s, d, data, f).0;
      id in t.checkpoints && Live(t.checkpoints[id]) && Recovery.Restore(t, id, up).1.Err?
  {
    hide Recovery.Restore, AllUp, IdsFaithful, ContentsOk, RecordOk, PublishSteps, BlobKey, Whole, Undo, Confirm,
         CommitRecord, NewManifest, Uses;
    SafeIsWhole(s, id);
    RestoreExact(s, id, up);
    Overwritten(s, data, f);
    var p, t := PublishSteps(s, data, f), StoreState.Publish(s, d, data, f).0;
    Unread(p.s, p.draft, data, f);
    assert t == Rollback(p.s, p.draft, f);
    RecordStays(s, t, id);
    RolledAway(p.s.storage, s.cfg.hash(data), f);
    NotWhole(t, id);
    RestoreExact(t, id, up);
  }

  lemma Unread(s: State, draft: Draft, data: Bytes, f: Faults)
    requires |draft.chunks| == 1 && !f.read(0, 0)
    ensures Confirm(s, draft, data, f).Err?
  {
    hide BlobKey, Span, SortEntries;
    assert ReadBack(s.cfg.hash, s.storage, draft.chunks, 0, f) == Ok([]);
    assert ReadObject(s.storage, draft.chunks[0].digest, f.read(0, 0)).Err?;
  }

  lemma RolledAway(st: Storage, d: Digest, f: Faults)
    requires FlickersOnce(f)
    ensures BlobKey(d) !in Undo(st, [d], f).backend.objects
  {
    hide BlobKey, ReleaseWritten;
    assert [d][..0] == [];
    assert RemoveWritten(st.backend, [], f) == st.backend;
  }

  lemma NotWhole(s: State, id: Id)
    requires id in s.checkpoints && s.checkpoints[id].chunks != []
    requires BlobKey(s.checkpoints[id].chunks[0].digest) !in s.storage.backend.objects
    ensures !Whole(s, s.checkpoints[id])
  {
    hide BlobKey, Contents;
    assert !Intact(s.cfg.hash, s.storage, s.checkpoints[id].chunks[0].digest);
  }

  // ----- A publication that returns has miscounted exactly the slices that flickered -----

  /** The i-th slice's content was known before its turn: to the store, or from an earlier slice. */
  ghost predicate KnownBefore(t: Table, slices: seq<Slice>, i: nat)
    requires i < |slices|
  {
    slices[i].digest in t || slices[i].digest in SliceDigests(slices, i)
  }

  /** What obtaining a reference does when every entry has its object, whatever fails. */
  lemma AcquireAny(hash: Bytes -> Digest, st: Storage, slice: Slice, i: nat, f: Faults)
    requires AllIntact(hash, st) && slice.digest == hash(slice.bytes) && slice.bytes != []
    ensures match Acquire(hash, st, slice, i, f)
      case Refused(_, _) => true
      case Shared(t) => f.verify(i) && slice.digest in st.dedup && t == st.(dedup := Added(st.dedup, slice.digest))
      case Wrote(t) =>
        && AllIntact(hash, t) && (slice.digest in st.dedup ==> !f.verify(i))
        && t.dedup == Inserted(st.dedup, NewEntry(slice.digest, |slice.bytes|))
  {
    hide Intact, Write, BlobKey, PrefixId;
    VerdictMeans(hash, st, slice.digest, f.verify(i));
    WriteEffect(hash, st, slice, i, f);
    match Acquire(hash, st, slice, i, f)
    case Wrote(t) =>
      forall e: Digest | e in t.dedup
        ensures Intact(hash, t, e)
      {
        if e != slice.digest {
          SameIntact(hash, st, t, e);
        }
      }
    case _ =>
  }

  /** The digests among the first n slices that were known and written again, without a reference. */
  ghost function Missed(t: Table, slices: seq<Slice>, n: nat, f: Faults): seq<Digest>
    requires n <= |slices|
  {
    if n == 0 then []
    else
      Missed(t, slices, n - 1, f)
      + (if KnownBefore(t, slices, n - 1) && !f.verify(n - 1) then [slices[n - 1].digest] else [])
  }

  /** References obtained and references missed add up to the slices. */
  ghost predicate Short(t0: Table, t: Table, slices: seq<Slice>, n: nat, f: Faults)
    requires n <= |slices|
  {
    && KeysGrow(t0, t, SliceDigests(slices, n))
    && Adds(t0, t, SliceDigests(slices, n), Missed(t0, slices, n, f))
  }

  ghost predicate KeysGrow(t0: Table, t: Table, held: seq<Digest>)
  {
    forall e :: e in t <==> e in t0 || e in held
  }

  ghost predicate Adds(t0: Table, t: Table, held: seq<Digest>, missed: seq<Digest>)
  {
    forall e: Digest :: Refs(t, e) + multiset(missed)[e] == Refs(t0, e) + multiset(held)[e]
  }

  lemma AddsOne(t0: Table, t: Table, u: Table, held: seq<Digest>, missed: seq<Digest>, d: Digest)
    requires Adds(t0, t, held, missed) && OneMore(t, u, d)
    ensures Adds(t0, u, held + [d], missed)
  {
    hide Refs;
    assert multiset(held + [d]) == multiset(held) + multiset{d};
    forall e: Digest ensures Refs(u, e) + multiset(missed)[e] == Refs(t0, e) + multiset(held + [d])[e] {
      assert Refs(u, e) == Refs(t, e) + (if e == d then 1 else 0);
    }
  }

  lemma AddsMissed(t0: Table, t: Table, held: seq<Digest>, missed: seq<Digest>, d: Digest)
    requires Adds(t0, t, held, missed)
    ensures Adds(t0, t, held + [d], missed + [d])
  {
    hide Refs;
    assert multiset(held + [d]) == multiset(held) + multiset{d};
    assert multiset(missed + [d]) == multiset(missed) + multiset{d};
  }

  lemma ShortShared(t0: Table, t: Table, slices: seq<Slice>, n: nat, f: Faults)
    requires n < |slices| && Short(t0, t, slices, n, f) && slices[n].digest in t && f.verify(n)
    ensures Short(t0, Added(t, slices[n].digest), slices, n + 1, f)
  {
    hide KnownBefore, Adds;
    var d := slices[n].digest;
    assert SliceDigests(slices, n + 1) == SliceDigests(slices, n) + [d];
    assert Missed(t0, slices, n + 1, f) == Missed(t0, slices, n, f);
    AddsOne(t0, t, Added(t, d), SliceDigests(slices, n), Missed(t0, slices, n, f), d);
  }

  lemma ShortWrote(t0: Table, t: Table, slices: seq<Slice>, n: nat, f: Faults, entry: DedupEntry)
    requires n < |slices| && Short(t0, t, slices, n, f) && entry.digest == slices[n].digest
    requires slices[n].digest in t ==> !f.verify(n)
    ensures Short(t0, Inserted(t, entry), slices, n + 1, f)
  {
    hide Adds;
    var d, u, held, missed := slices[n].digest, Inserted(t, entry), SliceDigests(slices, n), Missed(t0, slices, n, f);
    assert SliceDigests(slices, n + 1) == held + [d];
    assert KnownBefore(t0, slices, n) <==> d in t;
    if d in t {
      AddsMissed(t0, t, held, missed, d);
    } else {
      AddsOne(t0, t, u, held, missed, d);
      assert missed + [] == missed;
    }
  }

  lemma StepShort(hash: Bytes -> Digest, t0: Table, p: Progress, slices: seq<Slice>, n: nat, replica: Id, f: Faults)
    requires Sliced(hash, slices) && n < |slices| && p.s.cfg.hash == hash
    requires p.error.None? ==> AllIntact(hash, p.s.storage) && Short(t0, p.s.storage.dedup, slices, n, f)
    ensures var q := StoreState.Step(p, slices[n], n, replica, f);
      q.error.None? ==> AllIntact(hash, q.s.storage) && Short(t0, q.s.storage.dedup, slices, n + 1, f)
  {
    hide Short, Acquire, Note, PrefixId, BlobKey;
    if p.error.None? {
      var st, slice, draft := p.s.storage, slices[n], p.draft;
      var d := slice.digest;
      AcquireAny(hash, st, slice, n, f);
      match Acquire(hash, st, slice, n, f)
      case Refused(_, _) =>
      case Shared(t) =>
        ShortShared(t0, st.dedup, slices, n, f);
        NoteStorage(p.s, t, draft.(hits := draft.hits + 1), slice,
                    if d in t.dedup then t.dedup[d].blobId else PrefixId(d), replica);
        StillIntact(hash, st, t);
      case Wrote(t) =>
        ShortWrote(t0, st.dedup, slices, n, f, NewEntry(d, |slice.bytes|));
        NoteStorage(p.s, t,
                    draft.(misses := draft.misses + 1, written := draft.written + |slice.bytes|,
                           wrote := draft.wrote + [d]),
                    slice, PrefixId(d), replica);
    }
  }

  lemma StillIntact(hash: Bytes -> Digest, st: Storage, t: Storage)
    requires AllIntact(hash, st) && t.backend == st.backend && t.dedup.Keys == st.dedup.Keys
    ensures AllIntact(hash, t)
  {
    hide BlobKey;
    forall e | e in t.dedup ensures Intact(hash, t, e) { assert e in st.dedup && Intact(hash, st, e); }
  }

  lemma {:induction false} StepsShort(s: State, slices: seq<Slice>, n: nat, replica: Id, f: Faults)
    requires AllIntact(s.cfg.hash, s.storage) && Sliced(s.cfg.hash, slices) && n <= |slices|
    ensures var p := Steps(s, slices, n, replica, f);
      p.error.None? ==> AllIntact(s.cfg.hash, p.s.storage) && Short(s.storage.dedup, p.s.storage.dedup, slices, n, f)
  {
    hide StoreState.Step, AllIntact;
    if n == 0 {
      assert SliceDigests(slices, 0) == [];
    } else {
      hide Short;
      StepsShort(s, slices, n - 1, replica, f);
      Runs.StepsFrame(s, slices, n - 1, replica, f);
      StepShort(s.cfg.hash, s.storage.dedup, Steps(s, slices, n - 1, replica, f), slices, n - 1, replica, f);
    }
  }

  lemma {:induction false} NoneMissed(t: Table, slices: seq<Slice>, n: nat, f: Faults)
    requires n <= |slices|
    ensures Missed(t, slices, n, f) == [] <==> forall i :: 0 <= i < n && KnownBefore(t, slices, i) ==> f.verify(i)
  {
    hide KnownBefore;
    if n > 0 {
      NoneMissed(t, slices, n - 1, f);
    }
  }

  lemma CountsExactly(cps: map<Id, Record>, t0: Table, t: Table, id: Id, r: Record, missed: seq<Digest>)
    requires Counted(cps, t0) && id !in cps && Live(r)
    requires forall e: Digest :: Refs(t, e) + multiset(missed)[e] == Refs(t0, e) + Count(r.chunks, e)
    ensures Counted(cps[id := r], t) <==> missed == []
  {
    hide Uses, Refs, Count;
    forall e: Digest ensures Refs(t, e) + multiset(missed)[e] == Uses(cps[id := r], e) {
      UsesAdd(cps, id, r, e);
      assert Refs(t0, e) == Uses(cps, e);
    }
    if missed != [] {
      assert missed[0] in missed;
      assert multiset(missed)[missed[0]] > 0;
    }
  }

  /**
   From exact books, a publication that returns leaves exact books if and only if the backend
   answered the verification of every slice whose content was already known.
   */
  lemma FlickerMiscounts(s: State, d: Descriptor, data: Bytes, f: Faults)
    requires Counted(s.checkpoints, s.storage.dedup) && AllIntact(s.cfg.hash, s.storage)
    requires StoreState.Publish(s, d, data, f).1.Ok?
    ensures s.cfg.chunkSize > 0
    ensures var t, slices := StoreState.Publish(s, d, data, f).0, Slices(s.cfg.hash, data, s.cfg.chunkSize);
      Counted(t.checkpoints, t.storage.dedup) <==>
        forall i :: 0 <= i < |slices| && KnownBefore(s.storage.dedup, slices, i) ==> f.verify(i)
  {
    hide StoreState.Publish, Steps, Confirm, CommitRecord, AllIntact, Counted, Slices, KnownBefore, Missed, Count,
         Refs;
    ReceiptMeans(s, d, data, f);
    var t, p := StoreState.Publish(s, d, data, f).0, PublishSteps(s, data, f);
    var slices, s1 := Slices(s.cfg.hash, data, s.cfg.chunkSize), s.(nextId := s.nextId + 1);
    SlicesAreSliced(s.cfg.hash, data, s.cfg.chunkSize);
    StepsShort(s1, slices, |slices|, s.nextId, f);
    Runs.StepsFrame(s1, slices, |slices|, s.nextId, f);
    CommittedRecord(p.s, d, p.draft, |data|, Confirm(p.s, p.draft, data, f).value, s.nextId);
    NoneMissed(s.storage.dedup, slices, |slices|, f);
    SameDigests(p.draft.chunks, slices);
    CountsExactly(s.checkpoints, s.storage.dedup, t.storage.dedup, d.id, t.checkpoints[d.id],
                  Missed(s.storage.dedup, slices, |slices|, f));
  }

  lemma SameDigests(chunks: seq<Chunk>, slices: seq<Slice>)
    requires |chunks| == |slices| && forall i :: 0 <= i < |slices| ==> chunks[i].digest == slices[i].digest
    ensures forall e: Digest :: Count(chunks, e) == multiset(SliceDigests(slices, |slices|))[e]
  {
    assert DigestsOf(chunks) == SliceDigests(slices, |slices|);
  }
}

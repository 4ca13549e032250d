/**
 The course of a publication over its inputs alone: which slices pass, which of them share and which
 are written, by the store at the start, the slices and the answers of the environment.
 */
module Course {
  import opened Basics
  import opened Model
  import opened Chunking
  import opened Dedup
  import opened StoreState
  import opened Invariant
  import opened Publication
  import opened Exactness
  import opened Flicker
  import opened Failure
  import Backend

  // ----- The account of a slice -----

  /** The content is known, its verification is answered, and its object is good from the start or an earlier slice. */
  ghost predicate Shares(hash: Bytes -> Digest, st: Storage, slices: seq<Slice>, i: nat, f: Faults)
    requires i < |slices|
  {
    var d := slices[i].digest;
    KnownBefore(st.dedup, slices, i) && f.verify(i) && (Intact(hash, st, d) || d in SliceDigests(slices, i))
  }

  /** The references of a digest once n slices have passed: one more for each that shares or is new. */
  ghost function Granted(hash: Bytes -> Digest, st: Storage, slices: seq<Slice>, n: nat, f: Faults, e: Digest): nat
    requires n <= |slices|
  {
    if n == 0 then Refs(st.dedup, e)
    else
      Granted(hash, st, slices, n - 1, f, e)
      + (if slices[n - 1].digest == e
            && (Shares(hash, st, slices, n - 1, f) || !KnownBefore(st.dedup, slices, n - 1)) then 1 else 0)
  }

  /** The known content has the size of the slice: by its entry, or by the earlier slices. */
  ghost predicate SizedBefore(t: Table, slices: seq<Slice>, i: nat)
    requires i < |slices|
  {
    var d, size := slices[i].digest, |slices[i].bytes|;
    if d in t then t[d].physicalSize == size
    else forall k :: 0 <= k < i && slices[k].digest == d ==> |slices[k].bytes| == size
  }

  ghost predicate Passes(hash: Bytes -> Digest, st: Storage, slices: seq<Slice>, i: nat, f: Faults)
    requires i < |slices|
  {
    var d := slices[i].digest;
    if !KnownBefore(st.dedup, slices, i) then f.put(i) && f.commit(i)
    else
      && SizedBefore(st.dedup, slices, i) && (d in st.dedup ==> st.dedup[d].integrity != INTEGRITY_CORRUPT)
      && if Shares(hash, st, slices, i, f) then Granted(hash, st, slices, i, f, d) != MAX_REFCOUNT
         else f.put(i) && f.commit(i)
  }

  ghost predicate AllPass(hash: Bytes -> Digest, st: Storage, slices: seq<Slice>, n: nat, f: Faults)
    requires n <= |slices|
  {
    forall j :: 0 <= j < n ==> Passes(hash, st, slices, j, f)
  }

  /** The number of the first n slices that do not share. */
  ghost function Writes(hash: Bytes -> Digest, st: Storage, slices: seq<Slice>, n: nat, f: Faults): nat
    requires n <= |slices|
  {
    if n == 0 then 0
    else Writes(hash, st, slices, n - 1, f) + (if Shares(hash, st, slices, n - 1, f) then 0 else 1)
  }

  // ----- The storage after n slices, one digest at a time -----

  ghost predicate EntryTraced(t0: Table, t: Table, slices: seq<Slice>, n: nat, e: Digest)
    requires n <= |slices|
  {
    && (e in t <==> e in t0 || e in SliceDigests(slices, n))
    && KeepsEntry(t0, t, e)
    && (e !in t0 && e in t ==>
          && t[e].integrity == INTEGRITY_VERIFIED
          && forall k :: 0 <= k < n && slices[k].digest == e ==> |slices[k].bytes| == t[e].physicalSize)
  }

  ghost predicate Traced(hash: Bytes -> Digest, st0: Storage, st: Storage, slices: seq<Slice>, n: nat, f: Faults,
                         e: Digest)
    requires n <= |slices|
  {
    && EntryTraced(st0.dedup, st.dedup, slices, n, e)
    && Refs(st.dedup, e) == Granted(hash, st0, slices, n, f, e)
    && (Intact(hash, st, e) <==> Intact(hash, st0, e) || e in SliceDigests(slices, n))
  }

  lemma SeenAt(slices: seq<Slice>, n: nat, e: Digest)
    requires n <= |slices|
    ensures e in SliceDigests(slices, n) <==> exists k :: 0 <= k < n && slices[k].digest == e
  {
    var ds := SliceDigests(slices, n);
    assert forall k :: 0 <= k < n ==> ds[k] == slices[k].digest;
    if k :| 0 <= k < n && slices[k].digest == e {
      assert ds[k] == e;
    }
  }

  lemma SeenNext(slices: seq<Slice>, n: nat, e: Digest)
    requires n < |slices|
    ensures e in SliceDigests(slices, n + 1) <==> e in SliceDigests(slices, n) || slices[n].digest == e
  {
    assert SliceDigests(slices, n + 1) == SliceDigests(slices, n) + [slices[n].digest];
  }

  /** With the storage as traced, the turn goes as the account says. */
  lemma TurnExactly(hash: Bytes -> Digest, st0: Storage, st: Storage, slices: seq<Slice>, i: nat, f: Faults)
    requires Sliced(hash, slices) && i < |slices| && Traced(hash, st0, st, slices, i, f, slices[i].digest)
    ensures var turn := Acquire(hash, st, slices[i], i, f);
      && (!turn.Refused? <==> Passes(hash, st0, slices, i, f))
      && (!turn.Refused? ==> (turn.Shared? <==> Shares(hash, st0, slices, i, f)))
  {
    hide BlobKey, PrefixId, Intact, Granted, SliceDigests, Backend.VerifyObject;
    var d := slices[i].digest;
    VerdictMeans(hash, st, d, f.verify(i));
    SeenAt(slices, i, d);
  }

  /** What the turn does to the storage, seen at one digest. */
  ghost predicate Turned(hash: Bytes -> Digest, st: Storage, u: Storage, shares: bool, slice: Slice, e: Digest)
  {
    if e != slice.digest then
      (e in u.dedup <==> e in st.dedup) && (e in st.dedup ==> u.dedup[e] == st.dedup[e])
      && (Intact(hash, u, e) <==> Intact(hash, st, e))
    else
      && e in u.dedup && Intact(hash, u, e) && KeepsEntry(st.dedup, u.dedup, e)
      && (e !in st.dedup ==> u.dedup[e].physicalSize == |slice.bytes| && u.dedup[e].integrity == INTEGRITY_VERIFIED)
      && Refs(u.dedup, e) == Refs(st.dedup, e) + (if shares || e !in st.dedup then 1 else 0)
  }

  lemma TurnDoes(hash: Bytes -> Digest, st: Storage, slice: Slice, i: nat, f: Faults, e: Digest)
    requires slice.digest == hash(slice.bytes) && !Acquire(hash, st, slice, i, f).Refused?
    ensures var turn := Acquire(hash, st, slice, i, f); Turned(hash, st, turn.st, turn.Shared?, slice, e)
  {
    hide BlobKey, PrefixId, Write, Backend.VerifyObject;
    WriteEffect(hash, st, slice, i, f);
    VerdictMeans(hash, st, slice.digest, f.verify(i));
    var w := Write(st, slice, i, f);
    if e != slice.digest {
      assert SameObject(st, w.st, e);
    }
  }

  lemma EntryTracedNext(hash: Bytes -> Digest, st0: Storage, st: Storage, u: Storage, shares: bool,
                        slices: seq<Slice>, i: nat, e: Digest)
    requires i < |slices| && EntryTraced(st0.dedup, st.dedup, slices, i, e) && Turned(hash, st, u, shares, slices[i], e)
    requires slices[i].digest in st.dedup ==> st.dedup[slices[i].digest].physicalSize == |slices[i].bytes|
    ensures EntryTraced(st0.dedup, u.dedup, slices, i + 1, e)
  {
    hide SliceDigests, Intact;
    SeenNext(slices, i, e);
    SeenAt(slices, i, e);
  }

  lemma TracedNext(hash: Bytes -> Digest, st0: Storage, st: Storage, slices: seq<Slice>, i: nat, f: Faults, e: Digest)
    requires Sliced(hash, slices) && i < |slices| && Traced(hash, st0, st, slices, i, f, e)
    requires Traced(hash, st0, st, slices, i, f, slices[i].digest) && !Acquire(hash, st, slices[i], i, f).Refused?
    ensures Traced(hash, st0, Acquire(hash, st, slices[i], i, f).st, slices, i + 1, f, e)
  {
    hide EntryTraced, Acquire, Intact, SliceDigests, Shares, Passes;
    var turn, d := Acquire(hash, st, slices[i], i, f), slices[i].digest;
    TurnExactly(hash, st0, st, slices, i, f);
    TurnDoes(hash, st, slices[i], i, f, e);
    SeenNext(slices, i, e);
    PassedSize(hash, st, slices[i], i, f);
    EntryTracedNext(hash, st0, st, turn.st, turn.Shared?, slices, i, e);
    KnownInTable(st0.dedup, st.dedup, slices, i);
  }

  lemma KnownInTable(t0: Table, t: Table, slices: seq<Slice>, i: nat)
    requires i < |slices| && EntryTraced(t0, t, slices, i, slices[i].digest)
    ensures KnownBefore(t0, slices, i) <==> slices[i].digest in t
  {
  }

  lemma PassedSize(hash: Bytes -> Digest, st: Storage, slice: Slice, i: nat, f: Faults)
    requires slice.bytes != [] && !Acquire(hash, st, slice, i, f).Refused?
    ensures slice.digest in st.dedup ==> st.dedup[slice.digest].physicalSize == |slice.bytes|
  {
    hide BlobKey, PrefixId, Backend.VerifyObject, Write;
  }

  // ----- The whole course -----

  lemma {:induction false} StepsTraced(s: State, slices: seq<Slice>, n: nat, replica: Id, f: Faults, e: Digest)
    requires Sliced(s.cfg.hash, slices) && n <= |slices| && Reached(s, slices, n, replica, f)
    ensures Traced(s.cfg.hash, s.storage, Steps(s, slices, n, replica, f).s.storage, slices, n, f, e)
  {
    hide StoreState.Step, Acquire, Intact;
    if n > 0 {
      hide Traced;
      var p := Steps(s, slices, n - 1, replica, f);
      StepTurn(p, slices[n - 1], n - 1, replica, f);
      StepsRecords(s, slices, n - 1, replica, f);
      StepsTraced(s, slices, n - 1, replica, f, e);
      StepsTraced(s, slices, n - 1, replica, f, slices[n - 1].digest);
      TracedNext(s.cfg.hash, s.storage, p.s.storage, slices, n - 1, f, e);
    }
  }

  /** A slice is reached exactly when all slices before it pass, and as many were written as do not share. */
  lemma {:induction false} ReachedExactly(s: State, slices: seq<Slice>, n: nat, replica: Id, f: Faults)
    requires Sliced(s.cfg.hash, slices) && n <= |slices|
    ensures Reached(s, slices, n, replica, f) <==> AllPass(s.cfg.hash, s.storage, slices, n, f)
    ensures Reached(s, slices, n, replica, f) ==>
            Place(s, slices, n, replica, f) == Writes(s.cfg.hash, s.storage, slices, n, f)
  {
    hide StoreState.Step, Acquire, Passes, Shares;
    if n > 0 {
      var p := Steps(s, slices, n - 1, replica, f);
      ReachedExactly(s, slices, n - 1, replica, f);
      StepTurn(p, slices[n - 1], n - 1, replica, f);
      StepsRecords(s, slices, n - 1, replica, f);
      if p.error.None? {
        hide Traced;
        StepsTraced(s, slices, n - 1, replica, f, slices[n - 1].digest);
        TurnExactly(s.cfg.hash, s.storage, p.s.storage, slices, n - 1, f);
      }
    }
  }

  /** How a slice fares, over the inputs: written, shared, and whether its content was known. */
  lemma FaresExactly(s: State, slices: seq<Slice>, i: nat, replica: Id, f: Faults)
    requires Sliced(s.cfg.hash, slices) && i < |slices|
    ensures var passed := AllPass(s.cfg.hash, s.storage, slices, i + 1, f);
      && (SharedAt(s, slices, i, replica, f) <==> passed && Shares(s.cfg.hash, s.storage, slices, i, f))
      && (WrittenAt(s, slices, i, replica, f) <==> passed && !Shares(s.cfg.hash, s.storage, slices, i, f))
    ensures Reached(s, slices, i, replica, f) ==>
      (slices[i].digest in Steps(s, slices, i, replica, f).s.storage.dedup <==> KnownBefore(s.storage.dedup, slices, i))
  {
    hide Steps, Acquire, Passes, Shares, KnownBefore;
    var p := Steps(s, slices, i, replica, f);
    ReachedExactly(s, slices, i, replica, f);
    StepsRecords(s, slices, i, replica, f);
    if p.error.None? {
      StepsTraced(s, slices, i, replica, f, slices[i].digest);
      KnownInTable(s.storage.dedup, p.s.storage.dedup, slices, i);
      TurnExactly(s.cfg.hash, s.storage, p.s.storage, slices, i, f);
    }
  }

  // ----- The loss of content in use, over the inputs alone -----

  /**
   All earlier slices pass, the content is in use under an entry of its size, the verification is not
   answered, the write is accepted, and the removal with the number of the writes before goes through.
   */
  ghost predicate Loses(s: State, slices: seq<Slice>, i: nat, f: Faults)
    requires i < |slices|
  {
    && AllPass(s.cfg.hash, s.storage, slices, i, f) && Uses(s.checkpoints, slices[i].digest) > 0
    && SizedAs(s.storage.dedup, slices[i].digest, |slices[i].bytes|)
    && !f.verify(i) && f.put(i) && f.commit(i) && f.remove(Writes(s.cfg.hash, s.storage, slices, i, f), 0)
  }

  /** Exactly which publications that throw lose content in use, by the store, the data and the answers. */
  lemma LossByAnswers(s: State, d: Descriptor, data: Bytes, f: Faults)
    requires Safe(s) && Admission(s, d).None? && StoreState.Publish(s, d, data, f).1.Err?
    ensures s.cfg.chunkSize > 0
    ensures var t, slices := StoreState.Publish(s, d, data, f).0, Slices(s.cfg.hash, data, s.cfg.chunkSize);
      UsedIntact(s.cfg.hash, t.checkpoints, t.storage) <==> forall i :: 0 <= i < |slices| ==> !Loses(s, slices, i, f)
  {
    hide Safe, UsedIntact, StoreState.Publish, Slices, Destroys, Loses;
    LossOverInputs(s, d, data, f);
    var slices := Slices(s.cfg.hash, data, s.cfg.chunkSize);
    SlicesAreSliced(s.cfg.hash, data, s.cfg.chunkSize);
    forall i | 0 <= i < |slices| ensures Destroys(Begun(s), slices, i, s.nextId, f) <==> Loses(s, slices, i, f) {
      DestroysIsLoses(s, slices, i, f);
    }
  }

  lemma DestroysIsLoses(s: State, slices: seq<Slice>, i: nat, f: Faults)
    requires Sliced(s.cfg.hash, slices) && i < |slices|
    ensures Destroys(Begun(s), slices, i, s.nextId, f) <==> Loses(s, slices, i, f)
  {
    hide Steps, Uses, AllPass, Writes, Reached, Place;
    ReachedExactly(Begun(s), slices, i, s.nextId, f);
  }

  // ----- The references left behind, over the inputs alone -----

  /** How often, among the first n slices, a digest is shared, or written although its content is known. */
  ghost function Times(hash: Bytes -> Digest, st: Storage, slices: seq<Slice>, n: nat, f: Faults, e: Digest,
                       shared: bool): nat
    requires n <= |slices|
  {
    if n == 0 then 0
    else
      Times(hash, st, slices, n - 1, f, e, shared)
      + (if slices[n - 1].digest == e && AllPass(hash, st, slices, n, f) && KnownBefore(st.dedup, slices, n - 1)
            && (shared <==> Shares(hash, st, slices, n - 1, f)) then 1 else 0)
  }

  lemma ExtendedCount(ds: seq<Digest>, d: Digest, more: bool, e: Digest)
    ensures multiset(Extended(ds, d, more))[e] == multiset(ds)[e] + (if more && d == e then 1 else 0)
  {
    assert multiset(ds + [d]) == multiset(ds) + multiset{d};
  }

  lemma {:induction false} TimesExactly(s: State, slices: seq<Slice>, n: nat, replica: Id, f: Faults, e: Digest)
    requires Sliced(s.cfg.hash, slices) && n <= |slices|
    ensures multiset(SharedList(s, slices, n, replica, f))[e] == Times(s.cfg.hash, s.storage, slices, n, f, e, true)
    ensures multiset(WroteList(s, slices, n, replica, f, true))[e] ==
            Times(s.cfg.hash, s.storage, slices, n, f, e, false)
  {
    hide Steps, AllPass, KnownBefore, Extended, SharedAt, WrittenAt, Shares;
    if n > 0 {
      var i, d := n - 1, slices[n - 1].digest;
      TimesExactly(s, slices, i, replica, f, e);
      FaresExactly(s, slices, i, replica, f);
      SharesKnown(s.cfg.hash, s.storage, slices, i, f);
      var shared, wrote := SharedAt(s, slices, i, replica, f), WrittenAt(s, slices, i, replica, f);
      ExtendedCount(SharedList(s, slices, i, replica, f), d, shared, e);
      var again := wrote && d in Steps(s, slices, i, replica, f).s.storage.dedup;
      WrittenIsReached(s, slices, i, replica, f);
      ExtendedCount(WroteList(s, slices, i, replica, f, true), d, again, e);
    }
  }

  lemma SharesKnown(hash: Bytes -> Digest, st: Storage, slices: seq<Slice>, i: nat, f: Faults)
    requires i < |slices|
    ensures Shares(hash, st, slices, i, f) ==> KnownBefore(st.dedup, slices, i)
  {
  }

  lemma WrittenIsReached(s: State, slices: seq<Slice>, i: nat, replica: Id, f: Faults)
    requires i < |slices|
    ensures WrittenAt(s, slices, i, replica, f) ==> Reached(s, slices, i, replica, f)
  {
  }

  /** Shared as often as rewritten, or unused and rewritten more often. */
  ghost predicate Balanced(s: State, slices: seq<Slice>, f: Faults, e: Digest)
  {
    var shared := Times(s.cfg.hash, s.storage, slices, |slices|, f, e, true);
    var again := Times(s.cfg.hash, s.storage, slices, |slices|, f, e, false);
    shared == again || (Uses(s.checkpoints, e) == 0 && shared < again)
  }

  /** Exactly which publications that throw leave exact books exact, by the store, the data and the answers. */
  lemma LeakByAnswers(s: State, d: Descriptor, data: Bytes, f: Faults)
    requires Counted(s.checkpoints, s.storage.dedup) && Admission(s, d).None?
    requires StoreState.Publish(s, d, data, f).1.Err?
    ensures s.cfg.chunkSize > 0
    ensures var t, slices := StoreState.Publish(s, d, data, f).0, Slices(s.cfg.hash, data, s.cfg.chunkSize);
      Counted(t.checkpoints, t.storage.dedup) <==> forall e: Digest :: Balanced(s, slices, f, e)
  {
    hide Counted, StoreState.Publish, Slices, Uses, Times, SharedList, WroteList;
    LeakWhateverFails(s, d, data, f);
    var slices := Slices(s.cfg.hash, data, s.cfg.chunkSize);
    SlicesAreSliced(s.cfg.hash, data, s.cfg.chunkSize);
    var shared, again := SharedOf(Begun(s), slices, s.nextId, f), Rewritten(Begun(s), slices, s.nextId, f);
    forall e: Digest ensures Evened(s.checkpoints, shared, again, e) <==> Balanced(s, slices, f, e) {
      TimesExactly(Begun(s), slices, |slices|, s.nextId, f, e);
    }
  }

  // ----- What a receipt counts -----

  /** The bytes of the first n slices that do not share. */
  ghost function WrittenBytes(hash: Bytes -> Digest, st: Storage, slices: seq<Slice>, n: nat, f: Faults): nat
    requires n <= |slices|
  {
    if n == 0 then 0
    else
      WrittenBytes(hash, st, slices, n - 1, f)
      + (if Shares(hash, st, slices, n - 1, f) then 0 else |slices[n - 1].bytes|)
  }

  lemma NoteCounts(s: State, st: Storage, draft: Draft, slice: Slice, blobId: Id, replica: Id)
    ensures var q := Note(s.(storage := st), draft, slice, blobId, replica).draft;
      q.hits == draft.hits && q.misses == draft.misses && q.written == draft.written
  {
    hide NoteBlob, NewChunk, PrefixId, Refs;
  }

  lemma StepCounts(p: Progress, slice: Slice, i: nat, replica: Id, f: Faults)
    ensures var q, turn := StoreState.Step(p, slice, i, replica, f), Acquire(p.s.cfg.hash, p.s.storage, slice, i, f);
      p.error.None? && !turn.Refused? ==>
        && q.draft.hits == p.draft.hits + (if turn.Shared? then 1 else 0)
        && q.draft.misses == p.draft.misses + (if turn.Shared? then 0 else 1)
        && q.draft.written == p.draft.written + (if turn.Shared? then 0 else |slice.bytes|)
  {
    hide Acquire, Note, PrefixId;
    var d, draft := slice.digest, p.draft;
    match Acquire(p.s.cfg.hash, p.s.storage, slice, i, f)
    case Refused(_, _) =>
    case Shared(st) =>
      NoteCounts(p.s, st, draft.(hits := draft.hits + 1), slice,
                 if d in st.dedup then st.dedup[d].blobId else PrefixId(d), replica);
    case Wrote(st) =>
      NoteCounts(p.s, st,
                 draft.(misses := draft.misses + 1, written := draft.written + |slice.bytes|,
                        wrote := draft.wrote + [d]),
                 slice, PrefixId(d), replica);
  }

  /** Counted exactly: hits are the slices that share, misses those that do not, written the bytes of these. */
  ghost predicate CountedAs(draft: Draft, hash: Bytes -> Digest, st: Storage, slices: seq<Slice>, n: nat, f: Faults)
    requires n <= |slices|
  {
    && draft.misses == Writes(hash, st, slices, n, f) && draft.hits + draft.misses == n
    && draft.written == WrittenBytes(hash, st, slices, n, f)
  }

  lemma {:induction false} StepsCount(s: State, slices: seq<Slice>, n: nat, replica: Id, f: Faults)
    requires Sliced(s.cfg.hash, slices) && n <= |slices| && Reached(s, slices, n, replica, f)
    ensures CountedAs(Steps(s, slices, n, replica, f).draft, s.cfg.hash, s.storage, slices, n, f)
  {
    hide StoreState.Step, Acquire, Shares, Passes;
    if n > 0 {
      var p := Steps(s, slices, n - 1, replica, f);
      StepTurn(p, slices[n - 1], n - 1, replica, f);
      StepCounts(p, slices[n - 1], n - 1, replica, f);
      StepsCount(s, slices, n - 1, replica, f);
      StepsRecords(s, slices, n - 1, replica, f);
      hide Traced;
      StepsTraced(s, slices, n - 1, replica, f, slices[n - 1].digest);
      TurnExactly(s.cfg.hash, s.storage, p.s.storage, slices, n - 1, f);
    }
  }

  /** A receipt's hits, misses and written bytes, by the store, the data and the answers alone. */
  lemma ReceiptExactly(s: State, d: Descriptor, data: Bytes, f: Faults)
    requires StoreState.Publish(s, d, data, f).1.Ok?
    ensures s.cfg.chunkSize > 0
    ensures var r, slices := StoreState.Publish(s, d, data, f).1.value, Slices(s.cfg.hash, data, s.cfg.chunkSize);
      && r.misses == Writes(s.cfg.hash, s.storage, slices, |slices|, f) && r.hits + r.misses == |slices|
      && r.written == WrittenBytes(s.cfg.hash, s.storage, slices, |slices|, f)
  {
    hide Steps, Slices, Confirm, CommitRecord, NewManifest, Rollback, Writes, WrittenBytes;
    var slices := Slices(s.cfg.hash, data, s.cfg.chunkSize);
    SlicesAreSliced(s.cfg.hash, data, s.cfg.chunkSize);
    StepsCount(Begun(s), slices, |slices|, s.nextId, f);
  }
}

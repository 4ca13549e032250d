/** Exactly which publications commit when every backend call goes through, whatever their size. */
module Commits {
  import opened Basics
  import opened Model
  import opened Chunking
  import opened Dedup
  import opened StoreState
  import opened Invariant
  import opened Publication
  import opened Flicker
  import opened Failure
  import opened Course
  import Backend

  // ----- The conditions, on the store at the start, the slices and nothing else -----

  ghost predicate Answering(f: Faults)
  {
    (forall i :: f.verify(i)) && (forall i :: f.put(i)) && (forall i :: f.commit(i)) && (forall i, k :: f.read(i, k))
  }

  /** Equal digests come from equal bytes, among the slices and the good objects stored for them. */
  ghost predicate NoClash(hash: Bytes -> Digest, st: Storage, slices: seq<Slice>)
  {
    && (forall i, j :: 0 <= i < |slices| && 0 <= j < |slices| && slices[i].digest == slices[j].digest ==>
          slices[i].bytes == slices[j].bytes)
    && forall i :: 0 <= i < |slices| && Intact(hash, st, slices[i].digest) ==>
         ObjectOf(st, slices[i].digest) == slices[i].bytes
  }

  /** The reference counters are numbers of 64 bits. */
  ghost predicate CountersFit(t: Table)
  {
    forall e :: e in t ==> t[e].refcount <= 0xFFFF_FFFF_FFFF_FFFF
  }

  /** What the table knows of a slice has the slice's length and is not marked corrupt (integrity 3). */
  ghost predicate EntriesAgree(t: Table, slices: seq<Slice>)
  {
    forall i :: 0 <= i < |slices| && slices[i].digest in t ==>
      t[slices[i].digest].physicalSize == |slices[i].bytes| && t[slices[i].digest].integrity != 3
  }

  function Occurs(slices: seq<Slice>, n: nat, e: Digest): nat
    requires n <= |slices|
  {
    if n == 0 then 0 else Occurs(slices, n - 1, e) + (if slices[n - 1].digest == e then 1 else 0)
  }

  /** One reference for each slice, except that restoring a lost object of a known digest adds none. */
  ghost function Needed(hash: Bytes -> Digest, st: Storage, slices: seq<Slice>, n: nat, e: Digest): nat
    requires n <= |slices|
  {
    var k := Occurs(slices, n, e);
    if k > 0 && e in st.dedup && !Intact(hash, st, e) then k - 1 else k
  }

  /** The counters have room for the references needed. */
  ghost predicate RoomFor(hash: Bytes -> Digest, st: Storage, slices: seq<Slice>)
  {
    forall e: Digest :: Refs(st.dedup, e) + Needed(hash, st, slices, |slices|, e) <= 0xFFFF_FFFF_FFFF_FFFF
  }

  /** Slices with one chunk id have one length. */
  ghost predicate IdsSized(slices: seq<Slice>)
  {
    forall i, j :: 0 <= i < j < |slices| && PrefixId(slices[i].digest) == PrefixId(slices[j].digest) ==>
      |slices[i].bytes| == |slices[j].bytes|
  }

  // ----- The loop passes -----

  lemma {:induction false} OccursSeen(slices: seq<Slice>, n: nat, e: Digest)
    requires n <= |slices|
    ensures Occurs(slices, n, e) > 0 <==> e in SliceDigests(slices, n)
  {
    if n > 0 {
      OccursSeen(slices, n - 1, e);
      SeenNext(slices, n - 1, e);
    }
  }

  lemma {:induction false} GrantedIsNeeded(hash: Bytes -> Digest, st: Storage, slices: seq<Slice>, n: nat, f: Faults,
                                           e: Digest)
    requires n <= |slices| && Answering(f)
    ensures Granted(hash, st, slices, n, f, e) == Refs(st.dedup, e) + Needed(hash, st, slices, n, e)
  {
    hide Intact, SliceDigests;
    if n > 0 {
      GrantedIsNeeded(hash, st, slices, n - 1, f, e);
      OccursSeen(slices, n - 1, e);
    }
  }

  lemma {:induction false} GrantedGrows(hash: Bytes -> Digest, st: Storage, slices: seq<Slice>, m: nat, n: nat,
                                        f: Faults,
                                        e: Digest)
    requires m <= n <= |slices|
    ensures Granted(hash, st, slices, m, f, e) <= Granted(hash, st, slices, n, f, e)
  {
    hide Shares, KnownBefore;
    if m < n {
      GrantedGrows(hash, st, slices, m, n - 1, f, e);
    }
  }

  /** The same room, asked for slice by slice. */
  ghost predicate NeverFull(hash: Bytes -> Digest, st: Storage, slices: seq<Slice>, n: nat, f: Faults)
    requires n <= |slices|
  {
    forall i :: 0 <= i < n && Shares(hash, st, slices, i, f) ==>
      Granted(hash, st, slices, i, f, slices[i].digest) != 0xFFFF_FFFF_FFFF_FFFF
  }

  lemma {:induction false} NeverFullBounds(hash: Bytes -> Digest, st: Storage, slices: seq<Slice>, n: nat, f: Faults,
                                           e: Digest)
    requires n <= |slices| && CountersFit(st.dedup) && NeverFull(hash, st, slices, n, f)
    ensures Granted(hash, st, slices, n, f, e) <= 0xFFFF_FFFF_FFFF_FFFF
  {
    hide Shares, KnownBefore;
    if n > 0 {
      NeverFullBounds(hash, st, slices, n - 1, f, e);
      if slices[n - 1].digest == e && !KnownBefore(st.dedup, slices, n - 1) {
        UnknownHasNone(hash, st, slices, n - 1, f);
      }
    }
  }

  lemma UnknownHasNone(hash: Bytes -> Digest, st: Storage, slices: seq<Slice>, i: nat, f: Faults)
    requires i < |slices| && !KnownBefore(st.dedup, slices, i)
    ensures Granted(hash, st, slices, i, f, slices[i].digest) == 0
  {
    hide SliceDigests;
    UnseenKeeps(hash, st, slices, i, f, slices[i].digest);
  }

  lemma {:induction false} UnseenKeeps(hash: Bytes -> Digest, st: Storage, slices: seq<Slice>, n: nat, f: Faults,
                                       e: Digest)
    requires n <= |slices| && e !in SliceDigests(slices, n)
    ensures Granted(hash, st, slices, n, f, e) == Refs(st.dedup, e)
  {
    hide Shares, KnownBefore, SliceDigests;
    if n > 0 {
      SeenNext(slices, n - 1, e);
      UnseenKeeps(hash, st, slices, n - 1, f, e);
    }
  }

  lemma RoomExactly(hash: Bytes -> Digest, st: Storage, slices: seq<Slice>, f: Faults)
    requires CountersFit(st.dedup) && Answering(f)
    ensures RoomFor(hash, st, slices) <==> NeverFull(hash, st, slices, |slices|, f)
  {
    hide CountersFit, Answering, Needed, Shares, KnownBefore, Granted;
    var n := |slices|;
    forall e: Digest
      ensures Granted(hash, st, slices, n, f, e) == Refs(st.dedup, e) + Needed(hash, st, slices, n, e)
    {
      GrantedIsNeeded(hash, st, slices, n, f, e);
    }
    if NeverFull(hash, st, slices, n, f) {
      forall e: Digest ensures Granted(hash, st, slices, n, f, e) <= 0xFFFF_FFFF_FFFF_FFFF {
        NeverFullBounds(hash, st, slices, n, f, e);
      }
    }
    if RoomFor(hash, st, slices) {
      forall i | 0 <= i < n && Shares(hash, st, slices, i, f)
        ensures Granted(hash, st, slices, i, f, slices[i].digest) != 0xFFFF_FFFF_FFFF_FFFF
      {
        SharedTakesOne(hash, st, slices, i, f);
        GrantedGrows(hash, st, slices, i + 1, n, f, slices[i].digest);
        assert Refs(st.dedup, slices[i].digest) + Needed(hash, st, slices, n, slices[i].digest)
               <= 0xFFFF_FFFF_FFFF_FFFF;
      }
    }
  }

  lemma SharedTakesOne(hash: Bytes -> Digest, st: Storage, slices: seq<Slice>, i: nat, f: Faults)
    requires i < |slices| && Shares(hash, st, slices, i, f)
    ensures var d := slices[i].digest;
      Granted(hash, st, slices, i + 1, f, d) == Granted(hash, st, slices, i, f, d) + 1
  {
    hide Shares, KnownBefore;
  }

  /** A slice passes exactly when what is known of it agrees and its counter is not full. */
  lemma PassesExactly(hash: Bytes -> Digest, st: Storage, slices: seq<Slice>, i: nat, f: Faults)
    requires i < |slices| && Answering(f) && NoClash(hash, st, slices)
    ensures Passes(hash, st, slices, i, f) <==>
            && (slices[i].digest in st.dedup ==>
                  && st.dedup[slices[i].digest].physicalSize == |slices[i].bytes|
                  && st.dedup[slices[i].digest].integrity != 3)
            && (Shares(hash, st, slices, i, f) ==>
                  Granted(hash, st, slices, i, f, slices[i].digest) != 0xFFFF_FFFF_FFFF_FFFF)
  {
    hide Intact, SliceDigests, Granted, ObjectOf;
    SeenAt(slices, i, slices[i].digest);
  }

  lemma LoopPassesExactly(hash: Bytes -> Digest, st: Storage, slices: seq<Slice>, f: Faults)
    requires Answering(f) && NoClash(hash, st, slices) && CountersFit(st.dedup)
    ensures AllPass(hash, st, slices, |slices|, f) <==> EntriesAgree(st.dedup, slices) && RoomFor(hash, st, slices)
  {
    hide Answering, NoClash, CountersFit, Passes, Shares, Granted, RoomFor;
    RoomExactly(hash, st, slices, f);
    forall i | 0 <= i < |slices| ensures
      Passes(hash, st, slices, i, f) <==>
            && (slices[i].digest in st.dedup ==>
                  && st.dedup[slices[i].digest].physicalSize == |slices[i].bytes|
                  && st.dedup[slices[i].digest].integrity != 3)
            && (Shares(hash, st, slices, i, f) ==>
                  Granted(hash, st, slices, i, f, slices[i].digest) != 0xFFFF_FFFF_FFFF_FFFF)
    {
      PassesExactly(hash, st, slices, i, f);
    }
  }

  // ----- Every slice can be read back -----

  ghost predicate HoldsBytes(st: Storage, d: Digest, bytes: Bytes)
  {
    BlobKey(d) in st.backend.objects && st.backend.objects[BlobKey(d)] == bytes
  }

  /** The object is the one from the start or the bytes of one of the first n slices. */
  ghost predicate FromSlices(st0: Storage, st: Storage, slices: seq<Slice>, n: nat, e: Digest)
    requires n <= |slices|
  {
    SameObject(st0, st, e) || exists k :: 0 <= k < n && slices[k].digest == e && HoldsBytes(st, e, slices[k].bytes)
  }

  lemma TurnStores(hash: Bytes -> Digest, st: Storage, slice: Slice, i: nat, f: Faults, e: Digest)
    ensures var turn := Acquire(hash, st, slice, i, f);
      if turn.Wrote? && e == slice.digest then HoldsBytes(turn.st, e, slice.bytes) else SameObject(st, turn.st, e)
  {
    hide BlobKey, PrefixId, Backend.VerifyObject;
    KeysDiffer(slice.digest);
    Backend.PutThenCommit(st.backend, BlobKey(slice.digest), slice.bytes);
  }

  lemma FromSlicesNext(hash: Bytes -> Digest, st0: Storage, st: Storage, slices: seq<Slice>, n: nat, f: Faults,
                       e: Digest)
    requires n < |slices| && FromSlices(st0, st, slices, n, e)
    ensures FromSlices(st0, Acquire(hash, st, slices[n], n, f).st, slices, n + 1, e)
  {
    hide Acquire, BlobKey;
    TurnStores(hash, st, slices[n], n, f, e);
    var turn := Acquire(hash, st, slices[n], n, f);
    if !(turn.Wrote? && e == slices[n].digest) && !SameObject(st0, st, e) {
      var k :| 0 <= k < n && slices[k].digest == e && HoldsBytes(st, e, slices[k].bytes);
      assert HoldsBytes(turn.st, e, slices[k].bytes);
    }
  }

  lemma {:induction false} StepsFromSlices(s: State, slices: seq<Slice>, n: nat, replica: Id, f: Faults, e: Digest)
    requires n <= |slices|
    ensures FromSlices(s.storage, Steps(s, slices, n, replica, f).s.storage, slices, n, e)
  {
    hide StoreState.Step, Acquire, BlobKey;
    if n > 0 {
      var p := Steps(s, slices, n - 1, replica, f);
      StepsFromSlices(s, slices, n - 1, replica, f, e);
      StepTurn(p, slices[n - 1], n - 1, replica, f);
      if p.error.None? {
        hide FromSlices;
        FromSlicesNext(p.s.cfg.hash, s.storage, p.s.storage, slices, n - 1, f, e);
      } else if !SameObject(s.storage, p.s.storage, e) {
        var k :| 0 <= k < n - 1 && slices[k].digest == e && HoldsBytes(p.s.storage, e, slices[k].bytes);
      }
    }
  }

  lemma StepsHold(s: State, slices: seq<Slice>, replica: Id, f: Faults, i: nat)
    requires Sliced(s.cfg.hash, slices) && i < |slices| && Reached(s, slices, |slices|, replica, f)
    requires NoClash(s.cfg.hash, s.storage, slices)
    ensures HoldsBytes(Steps(s, slices, |slices|, replica, f).s.storage, slices[i].digest, slices[i].bytes)
  {
    hide Steps, EntryTraced, BlobKey, Granted, SliceDigests;
    var n, d, st := |slices|, slices[i].digest, Steps(s, slices, |slices|, replica, f).s.storage;
    StepsTraced(s, slices, n, replica, f, d);
    SeenAt(slices, n, d);
    StepsFromSlices(s, slices, n, replica, f, d);
    assert Intact(s.cfg.hash, st, d);
    if SameObject(s.storage, st, d) {
      assert Intact(s.cfg.hash, s.storage, d);
      assert ObjectOf(s.storage, d) == slices[i].bytes;
    }
  }

  // ----- The draft -----

  /** The draft lists the first n slices, and has for each chunk id the length of one of them. */
  ghost predicate Noted(draft: Draft, slices: seq<Slice>, n: nat)
    requires n <= |slices|
  {
    && |draft.chunks| == |draft.entries| == n
    && (forall i :: 0 <= i < n ==>
          && draft.chunks[i].digest == slices[i].digest && draft.chunks[i].physicalSize == |slices[i].bytes|
          && draft.entries[i] == ManifestEntry(PrefixId(slices[i].digest), slices[i].offset)
          && PrefixId(slices[i].digest) in draft.sizes)
    && forall id :: id in draft.sizes ==> HasLength(slices, n, id, draft.sizes[id])
  }

  ghost predicate HasLength(slices: seq<Slice>, n: nat, id: Id, length: nat)
    requires n <= |slices|
  {
    exists k :: 0 <= k < n && PrefixId(slices[k].digest) == id && |slices[k].bytes| == length
  }

  lemma NotedNext(s: State, draft: Draft, slices: seq<Slice>, n: nat, blobId: Id, replica: Id)
    requires n < |slices| && Noted(draft, slices, n)
    ensures Noted(Note(s, draft, slices[n], blobId, replica).draft, slices, n + 1)
  {
    hide PrefixId, NoteBlob;
    var next := Note(s, draft, slices[n], blobId, replica).draft;
    forall id | id in next.sizes ensures HasLength(slices, n + 1, id, next.sizes[id]) {
      if id in draft.sizes {
        var k :| 0 <= k < n && PrefixId(slices[k].digest) == id && |slices[k].bytes| == draft.sizes[id];
      }
    }
  }

  lemma NotedAlike(draft: Draft, other: Draft, slices: seq<Slice>, n: nat)
    requires n <= |slices| && Noted(draft, slices, n)
    requires other.chunks == draft.chunks && other.entries == draft.entries && other.sizes == draft.sizes
    ensures Noted(other, slices, n)
  {
  }

  lemma StepNoted(p: Progress, slices: seq<Slice>, n: nat, replica: Id, f: Faults)
    requires n < |slices| && Noted(p.draft, slices, n)
    ensures var q := StoreState.Step(p, slices[n], n, replica, f); q.error.None? ==> Noted(q.draft, slices, n + 1)
  {
    hide Acquire, Note, PrefixId, Noted;
    var d, draft := slices[n].digest, p.draft;
    match Acquire(p.s.cfg.hash, p.s.storage, slices[n], n, f)
    case Refused(_, _) =>
    case Shared(st) =>
      var more := draft.(hits := draft.hits + 1);
      NotedAlike(draft, more, slices, n);
      NotedNext(p.s.(storage := st), more, slices, n, if d in st.dedup then st.dedup[d].blobId
                else PrefixId(d), replica);
    case Wrote(st) =>
      var more := draft.(misses := draft.misses + 1, written := draft.written + |slices[n].bytes|,
                         wrote := draft.wrote + [d]);
      NotedAlike(draft, more, slices, n);
      NotedNext(p.s.(storage := st), more, slices, n, PrefixId(d), replica);
  }

  lemma {:induction false} StepsNoted(s: State, slices: seq<Slice>, n: nat, replica: Id, f: Faults)
    requires n <= |slices| && Reached(s, slices, n, replica, f)
    ensures Noted(Steps(s, slices, n, replica, f).draft, slices, n)
  {
    hide StoreState.Step, Acquire;
    if n > 0 {
      hide Noted;
      var p := Steps(s, slices, n - 1, replica, f);
      StepTurn(p, slices[n - 1], n - 1, replica, f);
      StepsNoted(s, slices, n - 1, replica, f);
      StepNoted(p, slices, n - 1, replica, f);
    }
  }

  // ----- Reading back, whatever fails -----

  /** Why the i-th chunk does not read back, if it does not. */
  ghost function ReadFault(hash: Bytes -> Digest, st: Storage, c: Chunk, i: nat, f: Faults): Option<Error>
  {
    if !f.read(i, 0) then Some(BackendUnavailable)
    else if BlobKey(c.digest) !in st.backend.objects then Some(NotFound)
    else if |ObjectOf(st, c.digest)| != c.physicalSize then Some(Integrity)
    else if hash(ObjectOf(st, c.digest)) != c.digest then Some(DigestMismatch)
    else None
  }

  /** Reading back succeeds if and only if every chunk does, with their content; else the first fault is thrown. */
  lemma {:induction false} ReadBackExactly(hash: Bytes -> Digest, st: Storage, chunks: seq<Chunk>, n: nat, f: Faults)
    requires n <= |chunks|
    ensures (forall i :: 0 <= i < n ==> ReadFault(hash, st, chunks[i], i, f).None?) ==>
              ReadBack(hash, st, chunks, n, f) == Ok(Contents(st, chunks, n))
    ensures forall k :: 0 <= k < n && ReadFault(hash, st, chunks[k], k, f).Some?
                        && (forall i :: 0 <= i < k ==> ReadFault(hash, st, chunks[i], i, f).None?) ==>
              ReadBack(hash, st, chunks, n, f) == Err(ReadFault(hash, st, chunks[k], k, f).value)
  {
    hide BlobKey;
    if n > 0 {
      ReadBackExactly(hash, st, chunks, n - 1, f);
    }
  }

  // ----- The checks before the commit -----

  /** Where the n-th slice begins, or the data ends. */
  function OffsetOf(data: Bytes, slices: seq<Slice>, n: nat): nat
    requires n <= |slices|
  {
    if n == |slices| then |data| else slices[n].offset
  }

  lemma TileStep(hash: Bytes -> Digest, data: Bytes, size: nat, slices: seq<Slice>, i: nat)
    requires Tiles(hash, data, size, 0, slices) && i < |slices|
    ensures OffsetOf(data, slices, 0) == 0 && OffsetOf(data, slices, i + 1) == slices[i].offset + |slices[i].bytes|
    ensures slices[i].offset + |slices[i].bytes| <= |data|
    ensures slices[i].bytes == data[slices[i].offset..slices[i].offset + |slices[i].bytes|]
  {
    assert TileAt(hash, data, size, slices, i);
  }

  lemma {:induction false} ReadsBack(hash: Bytes -> Digest, st: Storage, data: Bytes, size: nat, slices: seq<Slice>,
                                     chunks: seq<Chunk>, n: nat, f: Faults)
    requires Tiles(hash, data, size, 0, slices) && Sliced(hash, slices) && Answering(f) && n <= |slices| == |chunks|
    requires forall i :: 0 <= i < |slices| ==>
               && chunks[i].digest == slices[i].digest && chunks[i].physicalSize == |slices[i].bytes|
               && HoldsBytes(st, slices[i].digest, slices[i].bytes)
    ensures OffsetOf(data, slices, n) <= |data|
    ensures ReadBack(hash, st, chunks, n, f) == Ok(data[..OffsetOf(data, slices, n)])
  {
    hide BlobKey, Tiles;
    if n == 0 {
      TilesFromStart(hash, data, size, slices);
      assert data[..0] == [];
    } else {
      ReadsBack(hash, st, data, size, slices, chunks, n - 1, f);
      TileStep(hash, data, size, slices, n - 1);
      var a, b := slices[n - 1].offset, OffsetOf(data, slices, n);
      assert HoldsBytes(st, slices[n - 1].digest, slices[n - 1].bytes);
      assert data[..a] + data[a..b] == data[..b];
    }
  }

  lemma TilesFromStart(hash: Bytes -> Digest, data: Bytes, size: nat, slices: seq<Slice>)
    requires Tiles(hash, data, size, 0, slices)
    ensures OffsetOf(data, slices, 0) == 0
  {
  }

  /** The walk over the entries ends at the n-th slice exactly when the lengths on file are the slices' own. */
  lemma {:induction false} SpanExactly(hash: Bytes -> Digest, data: Bytes, size: nat, slices: seq<Slice>,
                                       entries: seq<ManifestEntry>, sizes: map<Id, nat>, n: nat)
    requires Tiles(hash, data, size, 0, slices) && n <= |slices| == |entries|
    requires forall i :: 0 <= i < |slices| ==>
               && entries[i] == ManifestEntry(PrefixId(slices[i].digest), slices[i].offset)
               && PrefixId(slices[i].digest) in sizes
    ensures Span(entries[..n], sizes) == Some(OffsetOf(data, slices, n)) <==>
            forall i :: 0 <= i < n ==> sizes[PrefixId(slices[i].digest)] == |slices[i].bytes|
  {
    hide PrefixId, Tiles;
    if n == 0 {
      TilesFromStart(hash, data, size, slices);
    } else {
      SpanExactly(hash, data, size, slices, entries, sizes, n - 1);
      TileStep(hash, data, size, slices, n - 1);
      assert entries[..n][..n - 1] == entries[..n - 1];
      assert OffsetOf(data, slices, n - 1) == slices[n - 1].offset;
    }
  }

  lemma SizesAgreeExactly(draft: Draft, slices: seq<Slice>)
    requires Noted(draft, slices, |slices|)
    ensures (forall i :: 0 <= i < |slices| ==> draft.sizes[PrefixId(slices[i].digest)] == |slices[i].bytes|) <==>
            IdsSized(slices)
  {
    hide PrefixId;
    if IdsSized(slices) {
      forall i | 0 <= i < |slices| ensures draft.sizes[PrefixId(slices[i].digest)] == |slices[i].bytes| {
        var id := PrefixId(slices[i].digest);
        assert HasLength(slices, |slices|, id, draft.sizes[id]);
        var k :| 0 <= k < |slices| && PrefixId(slices[k].digest) == id && |slices[k].bytes| == draft.sizes[id];
        assert k < i || k == i || i < k;
      }
    }
  }

  lemma EntriesInOrder(hash: Bytes -> Digest, data: Bytes, size: nat, slices: seq<Slice>, entries: seq<ManifestEntry>)
    requires Tiles(hash, data, size, 0, slices) && |slices| == |entries|
    requires forall i :: 0 <= i < |slices| ==> entries[i].logicalOffset == slices[i].offset
    ensures SortEntries(entries) == entries
  {
    hide Tiles, SortEntries;
    forall i, j | 0 <= i < j < |slices| ensures slices[i].offset <= slices[j].offset {
      OffsetsGrow(hash, data, size, slices, i, j);
    }
    SortedEntriesStay(entries);
  }

  lemma {:induction false} OffsetsGrow(hash: Bytes -> Digest, data: Bytes, size: nat, slices: seq<Slice>, i: nat,
                                       j: nat)
    requires Tiles(hash, data, size, 0, slices) && i <= j < |slices|
    ensures slices[i].offset <= slices[j].offset
  {
    hide Tiles;
    if i < j {
      OffsetsGrow(hash, data, size, slices, i, j - 1);
      TileStep(hash, data, size, slices, j - 1);
    }
  }

  lemma ConfirmsExactly(s: State, draft: Draft, data: Bytes, slices: seq<Slice>, f: Faults)
    requires Tiles(s.cfg.hash, data, s.cfg.chunkSize, 0, slices) && Sliced(s.cfg.hash, slices) && Answering(f)
    requires Noted(draft, slices, |slices|)
    requires forall i :: 0 <= i < |slices| ==> HoldsBytes(s.storage, slices[i].digest, slices[i].bytes)
    ensures Confirm(s, draft, data, f).Ok? <==> IdsSized(slices)
  {
    hide Tiles, HoldsBytes, PrefixId, ReadBack, Span, SortEntries, IdsSized, Answering;
    var n := |slices|;
    ReadsBack(s.cfg.hash, s.storage, data, s.cfg.chunkSize, slices, draft.chunks, n, f);
    assert data[..|data|] == data;
    EntriesInOrder(s.cfg.hash, data, s.cfg.chunkSize, slices, draft.entries);
    SpanExactly(s.cfg.hash, data, s.cfg.chunkSize, slices, draft.entries, draft.sizes, n);
    assert draft.entries[..n] == draft.entries;
    SizesAgreeExactly(draft, slices);
  }

  // ----- The theorem -----

  /**
   When every backend call goes through and no two strings in play share a digest, an admitted
   publication of any number of slices returns if and only if the table's entries agree with the
   slices, the reference counters have room, and no chunk id stands for slices of two lengths.
   */
  lemma CommitsExactly(s: State, d: Descriptor, data: Bytes, f: Faults)
    requires Admission(s, d).None? && Answering(f) && CountersFit(s.storage.dedup)
    requires s.cfg.chunkSize > 0
    requires NoClash(s.cfg.hash, s.storage, Slices(s.cfg.hash, data, s.cfg.chunkSize))
    ensures var slices := Slices(s.cfg.hash, data, s.cfg.chunkSize);
      StoreState.Publish(s, d, data, f).1.Ok? <==>
        && EntriesAgree(s.storage.dedup, slices) && RoomFor(s.cfg.hash, s.storage, slices) && IdsSized(slices)
  {
    hide Answering, CountersFit, NoClash, Slices, Steps, Confirm, EntriesAgree, RoomFor, IdsSized, AllPass, Tiles,
         Noted, HoldsBytes, CommitRecord, NewManifest, Rollback;
    var slices, s1 := Slices(s.cfg.hash, data, s.cfg.chunkSize), Begun(s);
    var p := PublishSteps(s, data, f);
    SlicesAreSliced(s.cfg.hash, data, s.cfg.chunkSize);
    ReachedExactly(s1, slices, |slices|, s.nextId, f);
    LoopPassesExactly(s.cfg.hash, s.storage, slices, f);
    if p.error.None? {
      SlicesAreTiles(s.cfg.hash, data, s.cfg.chunkSize);
      StepsRecords(s1, slices, |slices|, s.nextId, f);
      StepsNoted(s1, slices, |slices|, s.nextId, f);
      forall i | 0 <= i < |slices| ensures HoldsBytes(p.s.storage, slices[i].digest, slices[i].bytes) {
        StepsHold(s1, slices, s.nextId, f, i);
      }
      ConfirmsExactly(p.s, p.draft, data, slices, f);
    }
  }

  lemma SlicesAreTiles(hash: Bytes -> Digest, data: Bytes, size: nat)
    requires size > 0
    ensures Tiles(hash, data, size, 0, Slices(hash, data, size))
  {
    hide Tiles, SlicesFrom;
    SlicesTile(hash, data, size, 0);
  }
}

/**
 What every step of the store keeps: references cover uses, used content is intact, and every
 record leads to its bytes.
 */
module Invariant {
  import opened Basics
  import opened Model
  import opened Chunking
  import opened Dedup
  import opened StoreState
  import opened Sums
  import Backend

  // ----- Uses of a digest by live checkpoints -----

  function DigestsOf(chunks: seq<Chunk>): seq<Digest>
  {
    seq(|chunks|, i requires 0 <= i < |chunks| => chunks[i].digest)
  }

  function Count(chunks: seq<Chunk>, d: Digest): nat
  {
    multiset(DigestsOf(chunks))[d]
  }

  ghost function UseMap(cps: map<Id, Record>, d: Digest): map<Id, nat>
  {
    map id | id in cps && Live(cps[id]) :: Count(cps[id].chunks, d)
  }

  /** How often the chunks of live checkpoints refer to a digest, with multiplicity. */
  ghost function Uses(cps: map<Id, Record>, d: Digest): nat
  {
    Sum(UseMap(cps, d))
  }

  lemma CountMember(chunks: seq<Chunk>, i: nat)
    requires i < |chunks|
    ensures Count(chunks, chunks[i].digest) > 0
  {
    assert DigestsOf(chunks)[i] in DigestsOf(chunks);
  }

  lemma UsesAdd(cps: map<Id, Record>, id: Id, r: Record, d: Digest)
    requires id !in cps && Live(r)
    ensures Uses(cps[id := r], d) == Uses(cps, d) + Count(r.chunks, d)
  {
    SumAdd(UseMap(cps, d), id, Count(r.chunks, d));
    assert UseMap(cps[id := r], d) == UseMap(cps, d)[id := Count(r.chunks, d)];
  }

  lemma UsesDelete(cps: map<Id, Record>, id: Id, r: Record, d: Digest)
    requires id in cps && Live(cps[id]) && !Live(r)
    ensures Uses(cps, d) == Uses(cps[id := r], d) + Count(cps[id].chunks, d)
  {
    SumRemove(UseMap(cps, d), id);
    assert UseMap(cps[id := r], d) == UseMap(cps, d) - {id};
  }

  lemma UsesMember(cps: map<Id, Record>, id: Id, d: Digest)
    requires id in cps && Live(cps[id])
    ensures Uses(cps, d) >= Count(cps[id].chunks, d)
  {
    SumMember(UseMap(cps, d), id);
  }

  // ----- The invariant on content: references, table entries and stored objects -----

  ghost predicate EntriesOk(t: Table)
  {
    forall d :: d in t ==> t[d].digest == d && t[d].integrity == INTEGRITY_VERIFIED && t[d].blobId == PrefixId(d)
  }

  /** Every live use of a digest is covered by a reference. */
  ghost predicate RefsCover(cps: map<Id, Record>, st: Storage)
  {
    forall d: Digest :: Refs(st.dedup, d) >= Uses(cps, d)
  }

  /** Every digest a live checkpoint uses is stored intact. */
  ghost predicate UsedIntact(hash: Bytes -> Digest, cps: map<Id, Record>, st: Storage)
  {
    forall d: Digest :: Uses(cps, d) > 0 ==> Intact(hash, st, d)
  }

  /** An entry nobody refers to still has its object: publishing that content again may share it. */
  ghost predicate OrphansIntact(hash: Bytes -> Digest, st: Storage)
  {
    forall d :: d in st.dedup && st.dedup[d].refcount == 0 ==> Intact(hash, st, d)
  }

  ghost predicate Sound(hash: Bytes -> Digest, cps: map<Id, Record>, st: Storage)
  {
    EntriesOk(st.dedup) && RefsCover(cps, st) && UsedIntact(hash, cps, st) && OrphansIntact(hash, st)
  }

  /** The two storages hold the same bytes, or nothing, for a digest. */
  ghost predicate SameObject(s: Storage, t: Storage, d: Digest)
  {
    && (BlobKey(d) in s.backend.objects <==> BlobKey(d) in t.backend.objects)
    && (BlobKey(d) in s.backend.objects ==> s.backend.objects[BlobKey(d)] == t.backend.objects[BlobKey(d)])
  }

  /** The objects of used digests are untouched. */
  ghost predicate KeepsUsed(cps: map<Id, Record>, s: Storage, t: Storage)
  {
    forall d: Digest :: Uses(cps, d) > 0 ==> SameObject(s, t, d)
  }

  lemma KeepsUsedThrough(cps: map<Id, Record>, r: Storage, s: Storage, t: Storage)
    requires KeepsUsed(cps, r, s)
    requires forall d: Digest :: Uses(cps, d) > 0 ==> SameObject(s, t, d)
    ensures KeepsUsed(cps, r, t)
  {
    hide Uses, BlobKey;
    forall d: Digest | Uses(cps, d) > 0
      ensures SameObject(r, t, d)
    {
      assert SameObject(r, s, d) && SameObject(s, t, d);
    }
  }

  lemma SameIntact(hash: Bytes -> Digest, s: Storage, t: Storage, d: Digest)
    requires SameObject(s, t, d)
    ensures Intact(hash, s, d) == Intact(hash, t, d)
  {
    hide BlobKey;
  }

  lemma KeysDiffer(d: Digest)
    ensures forall e: Digest :: e != d ==> BlobKey(e) != BlobKey(d)
  {
    forall e: Digest | e != d
      ensures BlobKey(e) != BlobKey(d)
    {
      if BlobKey(e) == BlobKey(d) {
        BlobKeyInjective(e, d);
      }
    }
  }

  // ----- Publication in flight -----

  /** `held` are the digests of the slices that have their reference, `wrote` those newly written. */
  ghost predicate Holding(hash: Bytes -> Digest, cps: map<Id, Record>, s0: Storage, s: Storage,
                          held: seq<Digest>, wrote: seq<Digest>)
  {
    && EntriesOk(s.dedup) && OrphansIntact(hash, s) && KeepsUsed(cps, s0, s)
    && (forall d: Digest :: Refs(s.dedup, d) >= Uses(cps, d) + multiset(held)[d])
    && (forall d <- held :: Intact(hash, s, d))
    && (forall i, j :: 0 <= i < j < |wrote| ==> wrote[i] != wrote[j])
    && (forall d <- wrote :: Uses(cps, d) == 0 && d in held)
  }

  lemma HoldingStart(hash: Bytes -> Digest, cps: map<Id, Record>, s0: Storage)
    requires Sound(hash, cps, s0)
    ensures Holding(hash, cps, s0, s0, [], [])
  {
    hide Uses, BlobKey;
  }

  /** Content that cannot be shared is used by no checkpoint and held by no slice. */
  lemma UnsharedIsUnused(hash: Bytes -> Digest, cps: map<Id, Record>, s0: Storage, s: Storage,
                         held: seq<Digest>, wrote: seq<Digest>, d: Digest)
    requires UsedIntact(hash, cps, s0) && Holding(hash, cps, s0, s, held, wrote)
    requires d !in s.dedup || !Intact(hash, s, d)
    ensures Uses(cps, d) == 0 && d !in held
  {
    hide Uses, BlobKey, Intact, SameObject;
    if d !in s.dedup {
      assert Refs(s.dedup, d) == 0;
    } else if Uses(cps, d) > 0 {
      SameIntact(hash, s0, s, d);
    }
  }

  /** A write that goes through stores the slice under its digest and touches no other object. */
  lemma WriteEffect(hash: Bytes -> Digest, st: Storage, slice: Slice, i: nat, f: Faults)
    requires slice.digest == hash(slice.bytes)
    ensures var q := Write(st, slice, i, f);
      && !q.Shared?
      && (forall e: Digest :: q.Refused? || e != slice.digest ==> SameObject(st, q.st, e))
      && (q.Refused? ==> q.st.dedup == st.dedup)
      && (q.Wrote? ==>
            && f.put(i) && Intact(hash, q.st, slice.digest)
            && q.st.dedup == Inserted(st.dedup, NewEntry(slice.digest, |slice.bytes|)))
  {
    hide BlobKey, NewEntry, Inserted;
    KeysDiffer(slice.digest);
  }

  /** Holding survives a change of one object nobody uses, once the digest has its reference. */
  lemma HoldingAfterWrite(hash: Bytes -> Digest, cps: map<Id, Record>, s0: Storage, s: Storage, t: Storage,
                          held: seq<Digest>, wrote: seq<Digest>, d: Digest, size: nat)
    requires Holding(hash, cps, s0, s, held, wrote)
    requires Uses(cps, d) == 0 && d !in held && Intact(hash, t, d)
    requires d in s.dedup ==> !Intact(hash, s, d)
    requires t.dedup == Inserted(s.dedup, NewEntry(d, size))
    requires forall e: Digest :: e != d ==> SameObject(s, t, e)
    ensures Holding(hash, cps, s0, t, held + [d], wrote + [d])
  {
    hide Uses, BlobKey, PrefixId, Intact;
    assert multiset(held + [d]) == multiset(held) + multiset{d};
    assert Refs(t.dedup, d) >= 1 && multiset(held)[d] == 0;
    forall e: Digest
      ensures Refs(t.dedup, e) >= Uses(cps, e) + multiset(held + [d])[e]
    {
      assert e != d ==> Refs(t.dedup, e) == Refs(s.dedup, e);
    }
    forall e: Digest | e != d
      ensures Intact(hash, s, e) == Intact(hash, t, e)
    {
      SameIntact(hash, s, t, e);
    }
    KeepsUsedThrough(cps, s0, s, t);
  }

  lemma HoldingSame(hash: Bytes -> Digest, cps: map<Id, Record>, s0: Storage, s: Storage, t: Storage,
                    held: seq<Digest>, wrote: seq<Digest>)
    requires Holding(hash, cps, s0, s, held, wrote) && t.dedup == s.dedup
    requires forall e: Digest :: SameObject(s, t, e)
    ensures Holding(hash, cps, s0, t, held, wrote)
  {
    hide Uses, BlobKey, PrefixId, Intact;
    forall e: Digest
      ensures Intact(hash, s, e) == Intact(hash, t, e)
    {
      SameIntact(hash, s, t, e);
    }
    KeepsUsedThrough(cps, s0, s, t);
  }

  lemma HoldingAfterShare(hash: Bytes -> Digest, cps: map<Id, Record>, s0: Storage, s: Storage,
                          held: seq<Digest>, wrote: seq<Digest>, d: Digest)
    requires Holding(hash, cps, s0, s, held, wrote) && d in s.dedup && Intact(hash, s, d)
    ensures Holding(hash, cps, s0, s.(dedup := Added(s.dedup, d)), held + [d], wrote)
  {
    hide Uses, BlobKey, PrefixId, Intact;
    var t := s.(dedup := Added(s.dedup, d));
    assert multiset(held + [d]) == multiset(held) + multiset{d};
    forall e: Digest
      ensures Intact(hash, s, e) == Intact(hash, t, e)
    {
      SameIntact(hash, s, t, e);
    }
    forall e: Digest
      ensures Refs(t.dedup, e) >= Uses(cps, e) + multiset(held + [d])[e]
    {
      assert Refs(t.dedup, e) == Refs(s.dedup, e) + (if e == d then 1 else 0);
    }
  }

  /** A verify that fails to answer is not followed by a write that succeeds. */
  ghost predicate Steady(f: Faults)
  {
    forall i :: f.put(i) ==> f.verify(i)
  }

  /** Obtaining a reference keeps everything that is used or held. */
  lemma AcquireHolds(hash: Bytes -> Digest, cps: map<Id, Record>, s0: Storage, s: Storage,
                     slice: Slice, i: nat, f: Faults, held: seq<Digest>, wrote: seq<Digest>)
    requires UsedIntact(hash, cps, s0) && Holding(hash, cps, s0, s, held, wrote) && Steady(f)
    requires slice.digest == hash(slice.bytes) && slice.bytes != []
    ensures var q := Acquire(hash, s, slice, i, f);
      match q
      case Refused(t, _) => Holding(hash, cps, s0, t, held, wrote)
      case Shared(t) => Holding(hash, cps, s0, t, held + [slice.digest], wrote) && slice.digest in t.dedup
      case Wrote(t) =>
        Holding(hash, cps, s0, t, held + [slice.digest], wrote + [slice.digest]) && slice.digest in t.dedup
  {
    hide Holding, Uses, BlobKey, Intact, UsedIntact, Write, NewEntry;
    var d := slice.digest;
    var q := Acquire(hash, s, slice, i, f);
    VerdictMeans(hash, s, d, f.verify(i));
    match LookupIn(s.dedup, d, |slice.bytes|)
    case Reject(_) =>
    case Hit(_) =>
      if f.verify(i) && Intact(hash, s, d) {
        HoldingAfterShare(hash, cps, s0, s, held, wrote, d);
      } else {
        WriteHolds(hash, cps, s0, s, slice, i, f, held, wrote);
      }
    case Miss =>
      WriteHolds(hash, cps, s0, s, slice, i, f, held, wrote);
  }

  lemma VerdictMeans(hash: Bytes -> Digest, s: Storage, d: Digest, up: bool)
    ensures Backend.VerifyObject(hash, s.backend, BlobKey(d), d, up) == INTEGRITY_VERIFIED <==> up && Intact(hash, s, d)
  {
  }

  lemma WriteHolds(hash: Bytes -> Digest, cps: map<Id, Record>, s0: Storage, s: Storage,
                   slice: Slice, i: nat, f: Faults, held: seq<Digest>, wrote: seq<Digest>)
    requires UsedIntact(hash, cps, s0) && Holding(hash, cps, s0, s, held, wrote)
    requires slice.digest == hash(slice.bytes)
    requires f.put(i) ==> slice.digest !in s.dedup || !Intact(hash, s, slice.digest)
    ensures var q := Write(s, slice, i, f);
      match q
      case Refused(t, _) => Holding(hash, cps, s0, t, held, wrote)
      case Shared(_) => false
      case Wrote(t) =>
        Holding(hash, cps, s0, t, held + [slice.digest], wrote + [slice.digest]) && slice.digest in t.dedup
  {
    hide Holding, Uses, BlobKey, Intact, UsedIntact, Write, NewEntry;
    var d := slice.digest;
    WriteEffect(hash, s, slice, i, f);
    match Write(s, slice, i, f)
    case Refused(t, _) =>
      HoldingSame(hash, cps, s0, s, t, held, wrote);
    case Wrote(t) =>
      UnsharedIsUnused(hash, cps, s0, s, held, wrote, d);
      HoldingAfterWrite(hash, cps, s0, s, t, held, wrote, d, |slice.bytes|);
      assert NewEntry(d, |slice.bytes|).digest == d by {
        EntryDigest(d, |slice.bytes|);
      }
  }

  lemma EntryDigest(d: Digest, size: nat)
    ensures NewEntry(d, size).digest == d
  {
  }
}

/** The deduplication table (src/dedup.cpp): reference-counted entries by content digest. */
module Dedup {
  import opened Basics
  import opened Model
  import opened Sums

  type Table = map<Digest, DedupEntry>

  const MAX_REFCOUNT: nat := 0xFFFF_FFFF_FFFF_FFFF

  datatype Lookup = Miss | Hit(blobId: Id) | Reject(error: Error)

  function Refs(t: Table, d: Digest): nat
  {
    if d in t then t[d].refcount else 0
  }

  function LookupIn(t: Table, d: Digest, size: nat): Lookup
  {
    if size == 0 then Miss
    else if d !in t then Miss
    else if t[d].physicalSize != size then Reject(Conflict)
    else if t[d].integrity == INTEGRITY_CORRUPT then Reject(Error.Corrupt)
    else Hit(t[d].blobId)
  }

  /** A new entry starts at one reference; an existing entry of the same size is left alone. */
  function Inserted(t: Table, e: DedupEntry): Table
  {
    if e.digest in t then t else t[e.digest := e.(refcount := 1)]
  }

  function Added(t: Table, d: Digest): Table
    requires d in t
  {
    t[d := t[d].(refcount := t[d].refcount + 1)]
  }

  function Released(t: Table, d: Digest): Table
  {
    if d in t && t[d].refcount > 0 then t[d := t[d].(refcount := t[d].refcount - 1)] else t
  }

  function OrphanDropped(t: Table, d: Digest): Table
  {
    if d in t && t[d].refcount == 0 then t - {d} else t
  }

  ghost function SizeMap(t: Table): map<Digest, nat>
  {
    map d | d in t :: t[d].physicalSize
  }

  /** Unique physical bytes: every entry's size once. */
  ghost function UniqueBytes(t: Table): nat
  {
    Sum(SizeMap(t))
  }

  lemma UniqueStep(t: Table, d: Digest)
    requires d in t
    ensures UniqueBytes(t) == t[d].physicalSize + UniqueBytes(t - {d})
  {
    SumRemove(SizeMap(t), d);
    assert SizeMap(t - {d}) == SizeMap(t) - {d};
  }

  lemma UniqueNone()
    ensures UniqueBytes(map[]) == 0
  {
    SumZero(SizeMap(map[]));
  }

  /** Referenced bytes: every entry's size as often as it is referenced. */
  ghost function ReferencedBytes(t: Table): nat
  {
    Sum(WeightMap(t))
  }

  ghost function WeightMap(t: Table): map<Digest, nat>
  {
    map d | d in t :: Weight(t[d])
  }

  function Weight(e: DedupEntry): nat { e.physicalSize * e.refcount }

  class DedupTable {
    var entries: Table

    constructor ()
      ensures entries == map[]
    {
      entries := map[];
    }

    method Find(d: Digest, size: nat) returns (r: Lookup)
      ensures r == LookupIn(entries, d, size)
    {
      if size == 0 {
        return Miss;
      }
      if d !in entries {
        return Miss;
      }
      var e := entries[d];
      if e.physicalSize != size {
        return Reject(Conflict);
      }
      if e.integrity == INTEGRITY_CORRUPT {
        return Reject(Error.Corrupt);
      }
      return Hit(e.blobId);
    }

    /** Error on a size that disagrees with an existing entry; otherwise whether the entry is new. */
    method Insert(id: Id, d: Digest, size: nat, integrity: Byte, generation: nat)
      returns (r: Result<bool, Error>)
      modifies this
      ensures var e := DedupEntry(id, d, size, 1, integrity, generation);
        if d in old(entries) && old(entries)[d].physicalSize != size
        then r == Err(Conflict) && entries == old(entries)
        else r == Ok(d !in old(entries)) && entries == Inserted(old(entries), e)
    {
      if d in entries {
        if entries[d].physicalSize == size {
          return Ok(false);
        }
        return Err(Conflict);
      }
      entries := entries[d := DedupEntry(id, d, size, 1, integrity, generation)];
      return Ok(true);
    }

    method AddReference(d: Digest) returns (r: Result<bool, Error>)
      modifies this
      ensures d !in old(entries) ==> r == Ok(false) && entries == old(entries)
      ensures d in old(entries) ==>
        if old(entries)[d].integrity == INTEGRITY_CORRUPT then r == Err(Error.Corrupt) && entries == old(entries)
        else if old(entries)[d].refcount == MAX_REFCOUNT then r == Err(Overflow) && entries == old(entries)
        else r == Ok(true) && entries == Added(old(entries), d)
    {
      if d !in entries {
        return Ok(false);
      }
      var e := entries[d];
      if e.integrity == INTEGRITY_CORRUPT {
        return Err(Error.Corrupt);
      }
      if e.refcount == MAX_REFCOUNT {
        return Err(Overflow);
      }
      entries := entries[d := e.(refcount := e.refcount + 1)];
      return Ok(true);
    }

    /** A release without a reference is refused: the count never underflows. */
    method ReleaseReference(d: Digest) returns (ok: bool)
      modifies this
      ensures entries == Released(old(entries), d)
      ensures ok <==> Refs(old(entries), d) > 0
      ensures forall x: Digest :: Refs(entries, x) == Refs(old(entries), x) - (if ok && x == d then 1 else 0)
    {
      if d !in entries {
        return false;
      }
      var e := entries[d];
      if e.refcount == 0 {
        return false;
      }
      entries := entries[d := e.(refcount := e.refcount - 1)];
      return true;
    }

    method ReleaseUntilOrphan(d: Digest) returns (dropped: bool)
      modifies this
      ensures entries == OrphanDropped(old(entries), d)
      ensures dropped <==> d in old(entries) && d !in entries
      ensures forall x: Digest :: Refs(entries, x) == Refs(old(entries), x)
    {
      if d !in entries {
        return false;
      }
      if entries[d].refcount > 0 {
        return false;
      }
      entries := entries - {d};
      return true;
    }

    /** The sum does not depend on the order in which the table is walked. */
    method UniquePhysicalBytes() returns (total: nat)
      ensures total == UniqueBytes(entries)
    {
      hide UniqueBytes;
      total := 0;
      var left := entries;
      while left != map[]
        invariant total + UniqueBytes(left) == UniqueBytes(entries)
        decreases left.Keys
      {
        var d :| d in left;
        UniqueStep(left, d);
        total := total + left[d].physicalSize;
        left := left - {d};
      }
      UniqueNone();
    }
  }
}

/**
 Where every field of the state file stands (the write functions of src/persistence.cpp and src/binformat.cpp).
 Numbers are little-endian; positions count bytes from the beginning of the file, the body or the record.
 */
module Layout {
  import opened Basics
  import opened Binary
  import opened Model
  import opened Codec
  import opened RecordCodec
  import opened Persistence
  import opened StoreState
  import opened Ordering
  import Crc32

  // ----- Fields -----

  /** From position p on the bytes are the given ones. */
  ghost predicate From(b: Bytes, p: nat, rest: Bytes) { p <= |b| && b[p..] == rest }

  ghost predicate U64At(b: Bytes, p: nat, n: int) { p + 8 <= |b| && Value(b[p..p + 8]) == n }

  ghost predicate U32At(b: Bytes, p: nat, n: nat) { p + 4 <= |b| && Value(b[p..p + 4]) == n }

  ghost predicate ByteAt(b: Bytes, p: nat, v: Byte) { p < |b| && b[p] == v }

  ghost predicate BytesAt(b: Bytes, p: nat, v: Bytes) { p + |v| <= |b| && b[p..p + |v|] == v }

  /** A length of eight bytes, then the bytes. */
  ghost predicate StringAt(b: Bytes, p: nat, v: Bytes) { U64At(b, p, |v|) && BytesAt(b, p + 8, v) }

  /** A count of four bytes, then eight for each identity. */
  ghost predicate IdsAt(b: Bytes, p: nat, ids: seq<Id>)
  {
    U32At(b, p, |ids|) && forall i :: 0 <= i < |ids| ==> U64At(b, p + 4 + 8 * i, ids[i])
  }

  /** A zero byte, or a one and the identity. */
  ghost predicate OptionAt(b: Bytes, p: nat, o: Option<Id>)
  {
    ByteAt(b, p, if o.Some? then 1 else 0) && (o.Some? ==> U64At(b, p + 1, o.value))
  }

  function OptionSize(o: Option<Id>): nat { if o.Some? then 9 else 1 }

  /** A count of four bytes, then sixteen for each entry: the chunk's id and its offset. */
  ghost predicate EntriesAt(b: Bytes, p: nat, es: seq<ManifestEntry>)
  {
    && U32At(b, p, |es|)
    && forall i :: 0 <= i < |es| ==>
         U64At(b, p + 4 + 16 * i, es[i].chunkId) && U64At(b, p + 4 + 16 * i + 8, es[i].logicalOffset)
  }

  function TwosComplement(v: int): int { if v >= 0 then v else 0x1_0000_0000_0000_0000 + v }

  lemma Splits(b: Bytes, p: nat, front: Bytes, rest: Bytes)
    requires From(b, p, front + rest)
    ensures p + |front| <= |b| && b[p..p + |front|] == front && From(b, p + |front|, rest)
  {
    assert b[p..][..|front|] == b[p..p + |front|] && b[p..][|front|..] == b[p + |front|..];
    assert (front + rest)[..|front|] == front && (front + rest)[|front|..] == rest;
  }

  lemma IdStands(b: Bytes, p: nat, n: Id, rest: Bytes)
    requires FitsId(n) && From(b, p, PutId(n, rest))
    ensures U64At(b, p, n) && From(b, p + 8, rest)
  {
    hide LittleEndian, Value, From;
    Splits(b, p, LittleEndian(n, 8), rest);
    Widths();
    ValueOfLittleEndian(n, 8);
  }

  lemma CountStands(b: Bytes, p: nat, n: nat, rest: Bytes)
    requires n <= MAX_RECORDS && From(b, p, PutUint(n, 4, rest))
    ensures U32At(b, p, n) && From(b, p + 4, rest)
  {
    hide LittleEndian, Value, From;
    Splits(b, p, LittleEndian(n, 4), rest);
    Widths();
    ValueOfLittleEndian(n, 4);
  }

  lemma ByteStands(b: Bytes, p: nat, v: Byte, rest: Bytes)
    requires From(b, p, PutU8(v, rest))
    ensures ByteAt(b, p, v) && From(b, p + 1, rest)
  {
    hide From;
    Splits(b, p, [v], rest);
    assert b[p..p + 1][0] == v;
  }

  lemma StringStands(b: Bytes, p: nat, v: Bytes, rest: Bytes)
    requires FitsId(|v|) && From(b, p, PutBytes(v, rest))
    ensures StringAt(b, p, v) && From(b, p + 8 + |v|, rest)
  {
    hide From, U64At, PutUint;
    IdStands(b, p, |v|, v + rest);
    Splits(b, p + 8, v, rest);
  }

  lemma {:induction false} AllIdsStand(b: Bytes, p: nat, ids: seq<Id>, rest: Bytes)
    requires (forall id <- ids :: FitsId(id)) && From(b, p, PutAll(PutId, ids, rest))
    ensures forall i :: 0 <= i < |ids| ==> U64At(b, p + 8 * i, ids[i])
    ensures From(b, p + 8 * |ids|, rest)
    decreases |ids|
  {
    hide From, U64At, FitsId, PutId;
    if ids != [] {
      IdStands(b, p, ids[0], PutAll(PutId, ids[1..], rest));
      AllIdsStand(b, p + 8, ids[1..], rest);
      forall i | 0 <= i < |ids| ensures U64At(b, p + 8 * i, ids[i]) {
        if i > 0 {
          assert ids[1..][i - 1] == ids[i] && p + 8 + 8 * (i - 1) == p + 8 * i;
        }
      }
    }
  }

  lemma IdsStand(b: Bytes, p: nat, ids: seq<Id>, rest: Bytes)
    requires FitsIds(ids) && From(b, p, PutList(PutId, ids, rest))
    ensures IdsAt(b, p, ids) && From(b, p + 4 + 8 * |ids|, rest)
  {
    hide From, U64At, U32At, FitsId, PutId, PutUint, PutAll;
    CountStands(b, p, |ids|, PutAll(PutId, ids, rest));
    AllIdsStand(b, p + 4, ids, rest);
  }

  lemma OptionStands(b: Bytes, p: nat, o: Option<Id>, rest: Bytes)
    requires FitsOption(o) && From(b, p, PutOption(o, rest))
    ensures OptionAt(b, p, o) && From(b, p + OptionSize(o), rest)
  {
    hide From, U64At, ByteAt, PutId, PutU8;
    match o
    case None =>
      ByteStands(b, p, 0, rest);
    case Some(id) =>
      ByteStands(b, p, 1, PutId(id, rest));
      IdStands(b, p + 1, id, rest);
  }

  lemma {:induction false} AllEntriesStand(b: Bytes, p: nat, es: seq<ManifestEntry>, rest: Bytes)
    requires (forall e <- es :: FitsId(e.chunkId) && FitsId(e.logicalOffset)) && From(b, p, PutAll(PutEntry, es, rest))
    ensures forall i :: 0 <= i < |es| ==>
              U64At(b, p + 16 * i, es[i].chunkId) && U64At(b, p + 16 * i + 8, es[i].logicalOffset)
    ensures From(b, p + 16 * |es|, rest)
    decreases |es|
  {
    hide From, U64At, FitsId, PutId;
    if es != [] {
      var more := PutAll(PutEntry, es[1..], rest);
      IdStands(b, p, es[0].chunkId, PutId(es[0].logicalOffset, more));
      IdStands(b, p + 8, es[0].logicalOffset, more);
      AllEntriesStand(b, p + 16, es[1..], rest);
      forall i | 0 <= i < |es|
        ensures U64At(b, p + 16 * i, es[i].chunkId) && U64At(b, p + 16 * i + 8, es[i].logicalOffset)
      {
        if i > 0 {
          assert es[1..][i - 1] == es[i] && p + 16 + 16 * (i - 1) == p + 16 * i;
        }
      }
    }
  }

  lemma EntriesStand(b: Bytes, p: nat, es: seq<ManifestEntry>, rest: Bytes)
    requires FitsEntries(es) && From(b, p, PutList(PutEntry, es, rest))
    ensures EntriesAt(b, p, es) && From(b, p + 4 + 16 * |es|, rest)
  {
    hide From, U64At, U32At, FitsId, PutEntry, PutUint, PutAll;
    CountStands(b, p, |es|, PutAll(PutEntry, es, rest));
    AllEntriesStand(b, p + 4, es, rest);
  }

  /** Every kind of field stands where it was put, with the next one after it. */
  lemma FieldsStand()
    ensures forall b, p: nat, n: Id, rest :: FitsId(n) && From(b, p, PutId(n, rest)) ==>
              U64At(b, p, n) && From(b, p + 8, rest)
    ensures forall b, p: nat, v: Byte, rest :: From(b, p, PutU8(v, rest)) ==> ByteAt(b, p, v) && From(b, p + 1, rest)
    ensures forall b, p: nat, v, rest :: From(b, p, PutBool(v, rest)) ==>
              ByteAt(b, p, if v then 1 else 0) && From(b, p + 1, rest)
    ensures forall b, p: nat, v, rest :: From(b, p, PutFixed(v, rest)) ==> BytesAt(b, p, v) && From(b, p + |v|, rest)
    ensures forall b, p: nat, v, rest :: FitsId(|v|) && From(b, p, PutBytes(v, rest)) ==>
              StringAt(b, p, v) && From(b, p + 8 + |v|, rest)
    ensures forall b, p: nat, ids, rest :: FitsIds(ids) && From(b, p, PutList(PutId, ids, rest)) ==>
              IdsAt(b, p, ids) && From(b, p + 4 + 8 * |ids|, rest)
    ensures forall b, p: nat, o, rest :: FitsOption(o) && From(b, p, PutOption(o, rest)) ==>
              OptionAt(b, p, o) && From(b, p + OptionSize(o), rest)
    ensures forall b, p: nat, es, rest :: FitsEntries(es) && From(b, p, PutList(PutEntry, es, rest)) ==>
              EntriesAt(b, p, es) && From(b, p + 4 + 16 * |es|, rest)
    ensures forall v :: FitsSigned(v) ==> Unsigned(v) == TwosComplement(v) && FitsId(Unsigned(v))
  {
    hide PutId, PutU8, PutBytes, PutOption, PutList, From, U64At, ByteAt, StringAt, IdsAt, OptionAt, EntriesAt,
         OptionSize, FitsIds, FitsOption, FitsEntries;
    forall b, p: nat, n: Id, rest | FitsId(n) && From(b, p, PutId(n, rest))
      ensures U64At(b, p, n) && From(b, p + 8, rest)
    {
      IdStands(b, p, n, rest);
    }
    forall b, p: nat, v: Byte, rest | From(b, p, PutU8(v, rest)) ensures ByteAt(b, p, v) && From(b, p + 1, rest) {
      ByteStands(b, p, v, rest);
    }
    forall b, p: nat, v, rest | From(b, p, PutFixed(v, rest)) ensures BytesAt(b, p, v) && From(b, p + |v|, rest) {
      Splits(b, p, v, rest);
    }
    forall b, p: nat, v, rest | FitsId(|v|) && From(b, p, PutBytes(v, rest))
      ensures StringAt(b, p, v) && From(b, p + 8 + |v|, rest)
    {
      StringStands(b, p, v, rest);
    }
    forall b, p: nat, ids, rest | FitsIds(ids) && From(b, p, PutList(PutId, ids, rest))
      ensures IdsAt(b, p, ids) && From(b, p + 4 + 8 * |ids|, rest)
    {
      IdsStand(b, p, ids, rest);
    }
    forall b, p: nat, o, rest | FitsOption(o) && From(b, p, PutOption(o, rest))
      ensures OptionAt(b, p, o) && From(b, p + OptionSize(o), rest)
    {
      OptionStands(b, p, o, rest);
    }
    forall b, p: nat, es, rest | FitsEntries(es) && From(b, p, PutList(PutEntry, es, rest))
      ensures EntriesAt(b, p, es) && From(b, p + 4 + 16 * |es|, rest)
    {
      EntriesStand(b, p, es, rest);
    }
  }

  // ----- Records -----

  ghost predicate DescriptorAt(b: Bytes, p: nat, d: Descriptor)
  {
    && U64At(b, p, d.id) && U64At(b, p + 8, d.familyId) && U64At(b, p + 16, d.generation) && ByteAt(b, p + 24, d.kind)
    && U64At(b, p + 25, d.logicalSize) && U64At(b, p + 33, TwosComplement(Millis(d.createdAt)))
    && U64At(b, p + 41, d.ownerId) && U64At(b, p + 49, d.producerBoot) && U64At(b, p + 57, d.producerGeneration)
    && OptionAt(b, p + 65, d.parent)
    && var q := p + 65 + OptionSize(d.parent);
    && OptionAt(b, q, d.base)
    && var u := q + OptionSize(d.base);
    && IdsAt(b, u, d.lineage)
    && var w := u + 4 + 8 * |d.lineage|;
    && IdsAt(b, w, d.references)
    && var x := w + 4 + 8 * |d.references|;
    && StringAt(b, x, d.compatibility)
    && var z := x + 8 + |d.compatibility|;
    && ByteAt(b, z, d.retention) && ByteAt(b, z + 1, d.durability) && ByteAt(b, z + 2, d.restorePriority)
    && ByteAt(b, z + 3, d.provenance) && U64At(b, z + 4, d.policyGeneration)
    && U64At(b, z + 12, d.requiredReplicaCount)
  }

  function DescriptorSize(d: Descriptor): nat
  {
    101 + OptionSize(d.parent) + OptionSize(d.base) + 8 * |d.lineage| + 8 * |d.references| + |d.compatibility|
  }

  lemma DescriptorStands(b: Bytes, p: nat, d: Descriptor, rest: Bytes)
    requires FitsDescriptor(d) && From(b, p, PutDescriptor(d, rest))
    ensures DescriptorAt(b, p, d) && From(b, p + DescriptorSize(d), rest)
  {
    hide PutId, PutU8, PutBool, PutFixed, PutBytes, PutOption, PutList, From, U64At, ByteAt, BytesAt, StringAt, IdsAt,
         OptionAt, EntriesAt, Unsigned, TwosComplement, Millis, OptionSize, FitsId, FitsIds, FitsOption, FitsEntries;
    FieldsStand();
  }

  ghost predicate ManifestAt(b: Bytes, p: nat, m: Manifest)
  {
    && U64At(b, p, m.id) && U64At(b, p + 8, m.generation) && U64At(b, p + 16, m.checkpointId)
    && U64At(b, p + 24, m.checkpointGeneration) && EntriesAt(b, p + 32, m.chunks)
    && var q := p + 36 + 16 * |m.chunks|;
    && U64At(b, q, m.logicalSize) && BytesAt(b, q + 8, m.checkpointDigest) && IdsAt(b, q + 40, m.lineage)
    && var u := q + 44 + 8 * |m.lineage|;
    && OptionAt(b, u, m.parent)
    && var w := u + OptionSize(m.parent);
    && OptionAt(b, w, m.base)
    && var x := w + OptionSize(m.base);
    && ByteAt(b, x, m.provenance) && ByteAt(b, x + 1, m.durability) && U64At(b, x + 2, m.requiredReplicaCount)
    && BytesAt(b, x + 10, m.semanticDigest)
  }

  function ManifestSize(m: Manifest): nat
  {
    122 + 16 * |m.chunks| + 8 * |m.lineage| + OptionSize(m.parent) + OptionSize(m.base)
  }

  lemma ManifestStands(b: Bytes, p: nat, m: Manifest, rest: Bytes)
    requires FitsManifest(m) && From(b, p, PutManifest(m, rest))
    ensures ManifestAt(b, p, m) && From(b, p + ManifestSize(m), rest)
  {
    hide PutId, PutU8, PutBool, PutFixed, PutBytes, PutOption, PutList, From, U64At, ByteAt, BytesAt, StringAt, IdsAt,
         OptionAt, EntriesAt, Unsigned, TwosComplement, Millis, OptionSize, FitsId, FitsIds, FitsOption, FitsEntries;
    FieldsStand();
  }

  ghost predicate ChunkAt(b: Bytes, p: nat, c: Chunk)
  {
    && U64At(b, p, c.id) && U64At(b, p + 8, c.generation) && U64At(b, p + 16, c.logicalOffset)
    && U64At(b, p + 24, c.logicalSize) && U64At(b, p + 32, c.physicalSize) && BytesAt(b, p + 40, c.digest)
    && U64At(b, p + 72, c.blobId) && IdsAt(b, p + 80, c.placements)
    && var q := p + 84 + 8 * |c.placements|;
    && U64At(b, q, c.refcount) && ByteAt(b, q + 8, c.provenance) && ByteAt(b, q + 9, c.integrity)
    && ByteAt(b, q + 10, if c.compressed then 1 else 0) && StringAt(b, q + 11, c.payloadEncoding)
  }

  function ChunkSize(c: Chunk): nat { 103 + 8 * |c.placements| + |c.payloadEncoding| }

  lemma ChunkStands(b: Bytes, p: nat, c: Chunk, rest: Bytes)
    requires FitsChunk(c) && From(b, p, PutChunk(c, rest))
    ensures ChunkAt(b, p, c) && From(b, p + ChunkSize(c), rest)
  {
    hide PutId, PutU8, PutBool, PutFixed, PutBytes, PutOption, PutList, From, U64At, ByteAt, BytesAt, StringAt, IdsAt,
         OptionAt, EntriesAt, Unsigned, TwosComplement, Millis, OptionSize, FitsId, FitsIds, FitsOption, FitsEntries;
    FieldsStand();
  }

  ghost predicate ReplicaSetAt(b: Bytes, p: nat, s: ReplicaSet)
  {
    && U64At(b, p, s.checkpointId) && U64At(b, p + 8, s.generation) && U64At(b, p + 16, s.requiredReplicaCount)
    && IdsAt(b, p + 24, s.replicas)
    && var q := p + 28 + 8 * |s.replicas|;
    && ByteAt(b, q, s.durabilityState) && U64At(b, q + 1, s.placementGeneration) && ByteAt(b, q + 9, s.provenance)
  }

  function ReplicaSetSize(s: ReplicaSet): nat { 38 + 8 * |s.replicas| }

  lemma ReplicaSetStands(b: Bytes, p: nat, s: ReplicaSet, rest: Bytes)
    requires FitsReplicaSet(s) && From(b, p, PutReplicaSet(s, rest))
    ensures ReplicaSetAt(b, p, s) && From(b, p + ReplicaSetSize(s), rest)
  {
    hide PutId, PutU8, PutBool, PutFixed, PutBytes, PutOption, PutList, From, U64At, ByteAt, BytesAt, StringAt, IdsAt,
         OptionAt, EntriesAt, Unsigned, TwosComplement, Millis, OptionSize, FitsId, FitsIds, FitsOption, FitsEntries;
    FieldsStand();
  }

  ghost predicate BlobAt(b: Bytes, p: nat, o: Blob)
  {
    && U64At(b, p, o.id) && U64At(b, p + 8, o.generation) && U64At(b, p + 16, o.physicalSize)
    && BytesAt(b, p + 24, o.digest) && U64At(b, p + 56, o.refcount) && U64At(b, p + 64, o.byteReferences)
    && ByteAt(b, p + 72, o.tier) && ByteAt(b, p + 73, o.provenance) && ByteAt(b, p + 74, o.integrity)
    && ByteAt(b, p + 75, o.freshness) && IdsAt(b, p + 76, o.replicas)
  }

  function BlobSize(o: Blob): nat { 80 + 8 * |o.replicas| }

  lemma BlobStands(b: Bytes, p: nat, o: Blob, rest: Bytes)
    requires FitsBlob(o) && From(b, p, PutBlob(o, rest))
    ensures BlobAt(b, p, o) && From(b, p + BlobSize(o), rest)
  {
    hide PutId, PutU8, PutBool, PutFixed, PutBytes, PutOption, PutList, From, U64At, ByteAt, BytesAt, StringAt, IdsAt,
         OptionAt, EntriesAt, Unsigned, TwosComplement, Millis, OptionSize, FitsId, FitsIds, FitsOption, FitsEntries;
    FieldsStand();
  }

  ghost predicate ReplicaAt(b: Bytes, p: nat, r: Replica)
  {
    && U64At(b, p, r.id) && U64At(b, p + 8, r.generation) && U64At(b, p + 16, r.backendId)
    && ByteAt(b, p + 24, r.sourceKind) && ByteAt(b, p + 25, r.tier) && ByteAt(b, p + 26, r.integrity)
    && ByteAt(b, p + 27, r.role) && U64At(b, p + 28, r.physicalSize) && ByteAt(b, p + 36, r.provenance)
  }

  function ReplicaSize(r: Replica): nat { 37 }

  lemma ReplicaStands(b: Bytes, p: nat, r: Replica, rest: Bytes)
    requires FitsReplica(r) && From(b, p, PutReplica(r, rest))
    ensures ReplicaAt(b, p, r) && From(b, p + ReplicaSize(r), rest)
  {
    hide PutId, PutU8, PutBool, PutFixed, PutBytes, PutOption, PutList, From, U64At, ByteAt, BytesAt, StringAt, IdsAt,
         OptionAt, EntriesAt, Unsigned, TwosComplement, Millis, OptionSize, FitsId, FitsIds, FitsOption, FitsEntries;
    FieldsStand();
  }

  ghost predicate PlacementAt(b: Bytes, p: nat, l: Placement)
  {
    && U64At(b, p, l.id) && U64At(b, p + 8, l.generation) && U64At(b, p + 16, l.replicaId)
    && U64At(b, p + 24, l.tierId) && U64At(b, p + 32, l.backendId) && U64At(b, p + 40, l.nodeId)
    && U64At(b, p + 48, l.volumeId) && U64At(b, p + 56, l.bytes) && ByteAt(b, p + 64, l.provenance)
    && ByteAt(b, p + 65, l.freshness)
  }

  function PlacementSize(l: Placement): nat { 66 }

  lemma PlacementStands(b: Bytes, p: nat, l: Placement, rest: Bytes)
    requires FitsPlacement(l) && From(b, p, PutPlacement(l, rest))
    ensures PlacementAt(b, p, l) && From(b, p + PlacementSize(l), rest)
  {
    hide PutId, PutU8, PutBool, PutFixed, PutBytes, PutOption, PutList, From, U64At, ByteAt, BytesAt, StringAt, IdsAt,
         OptionAt, EntriesAt, Unsigned, TwosComplement, Millis, OptionSize, FitsId, FitsIds, FitsOption, FitsEntries;
    FieldsStand();
  }

  ghost predicate PolicyAt(b: Bytes, p: nat, y: Policy)
  {
    && U64At(b, p, y.id) && U64At(b, p + 8, y.familyId) && ByteAt(b, p + 16, y.retentionClass)
    && U64At(b, p + 17, y.latestN) && U64At(b, p + 25, TwosComplement(y.ttl))
    && ByteAt(b, p + 33, if y.protectAncestry then 1 else 0) && ByteAt(b, p + 34, if y.recomputable then 1 else 0)
    && ByteAt(b, p + 35, if y.policyProtected then 1 else 0) && U64At(b, p + 36, y.generation)
    && ByteAt(b, p + 44, y.provenance)
  }

  function PolicySize(y: Policy): nat { 45 }

  lemma PolicyStands(b: Bytes, p: nat, y: Policy, rest: Bytes)
    requires FitsPolicy(y) && From(b, p, PutPolicy(y, rest))
    ensures PolicyAt(b, p, y) && From(b, p + PolicySize(y), rest)
  {
    hide PutId, PutU8, PutBool, PutFixed, PutBytes, PutOption, PutList, From, U64At, ByteAt, BytesAt, StringAt, IdsAt,
         OptionAt, EntriesAt, Unsigned, TwosComplement, Millis, OptionSize, FitsId, FitsIds, FitsOption, FitsEntries;
    FieldsStand();
  }

  ghost predicate FamilyAt(b: Bytes, p: nat, f: Family)
  {
    && U64At(b, p, f.id) && U64At(b, p + 8, f.generation) && IdsAt(b, p + 16, f.checkpointIds)
  }

  function FamilySize(f: Family): nat { 20 + 8 * |f.checkpointIds| }

  lemma FamilyStands(b: Bytes, p: nat, f: Family, rest: Bytes)
    requires FitsFamily(f) && From(b, p, PutFamily(f, rest))
    ensures FamilyAt(b, p, f) && From(b, p + FamilySize(f), rest)
  {
    hide PutId, PutU8, PutBool, PutFixed, PutBytes, PutOption, PutList, From, U64At, ByteAt, BytesAt, StringAt, IdsAt,
         OptionAt, EntriesAt, Unsigned, TwosComplement, Millis, OptionSize, FitsId, FitsIds, FitsOption, FitsEntries;
    FieldsStand();
  }

  ghost predicate DedupAt(b: Bytes, p: nat, e: DedupEntry)
  {
    && BytesAt(b, p, e.digest) && U64At(b, p + 32, e.physicalSize) && U64At(b, p + 40, e.refcount)
    && ByteAt(b, p + 48, e.integrity) && U64At(b, p + 49, e.blobId) && U64At(b, p + 57, e.generation)
  }

  function DedupSize(e: DedupEntry): nat { 65 }

  lemma DedupStands(b: Bytes, p: nat, e: DedupEntry, rest: Bytes)
    requires FitsDedup(e) && From(b, p, PutDedup(e, rest))
    ensures DedupAt(b, p, e) && From(b, p + DedupSize(e), rest)
  {
    hide PutId, PutU8, PutBool, PutFixed, PutBytes, PutOption, PutList, From, U64At, ByteAt, BytesAt, StringAt, IdsAt,
         OptionAt, EntriesAt, Unsigned, TwosComplement, Millis, OptionSize, FitsId, FitsIds, FitsOption, FitsEntries;
    FieldsStand();
  }

  // ----- The canonical bytes of a manifest -----

  lemma {:induction false} EntryBytesArePut(es: seq<ManifestEntry>, rest: Bytes)
    ensures EntryBytes(es) + rest == PutAll(PutEntry, es, rest)
  {
    hide LittleEndian;
    if es != [] {
      EntryBytesArePut(es[1..], rest);
      var a, b, c := LittleEndian(es[0].chunkId, 8), LittleEndian(es[0].logicalOffset, 8), EntryBytes(es[1..]);
      assert a + b + c + rest == a + (b + (c + rest));
    }
  }

  lemma SemanticsArePut(m: Manifest)
    ensures Semantics(m) ==
            PutId(m.id, PutId(m.generation, PutId(m.checkpointId, PutId(m.checkpointGeneration,
            PutList(PutEntry, m.chunks, PutId(m.logicalSize, PutFixed(m.checkpointDigest, PutU8(m.provenance,
            PutU8(m.durability, PutId(m.requiredReplicaCount, []))))))))))
  {
    hide LittleEndian, PutAll, EntryBytes;
    var last := LittleEndian(m.requiredReplicaCount, 8);
    var marks := [m.provenance] + ([m.durability] + last);
    var tail := LittleEndian(m.logicalSize, 8) + (m.checkpointDigest + marks);
    assert last + [] == last;
    EntryBytesArePut(m.chunks, tail);
    var head := LittleEndian(m.id, 8) + LittleEndian(m.generation, 8) + LittleEndian(m.checkpointId, 8)
                + LittleEndian(m.checkpointGeneration, 8) + LittleEndian(|m.chunks|, 4);
    assert Semantics(m) == head + (EntryBytes(m.chunks) + tail);
    var counted := LittleEndian(|m.chunks|, 4) + PutAll(PutEntry, m.chunks, tail);
    assert head + PutAll(PutEntry, m.chunks, tail) ==
           LittleEndian(m.id, 8) + (LittleEndian(m.generation, 8)
           + (LittleEndian(m.checkpointId, 8) + (LittleEndian(m.checkpointGeneration, 8) + counted)));
  }

  /** The semantic digest of a manifest covers its identity, its entries, its size, its digest and its durability. */
  lemma SemanticsStand(m: Manifest)
    requires FitsManifest(m)
    ensures var b := Semantics(m);
      && U64At(b, 0, m.id) && U64At(b, 8, m.generation) && U64At(b, 16, m.checkpointId)
      && U64At(b, 24, m.checkpointGeneration) && EntriesAt(b, 32, m.chunks)
      && var q := 36 + 16 * |m.chunks|;
      && U64At(b, q, m.logicalSize) && BytesAt(b, q + 8, m.checkpointDigest) && ByteAt(b, q + 40, m.provenance)
      && ByteAt(b, q + 41, m.durability) && U64At(b, q + 42, m.requiredReplicaCount) && |b| == q + 50
  {
    hide PutId, PutU8, PutFixed, PutList, From, U64At, ByteAt, BytesAt, EntriesAt, FitsId, FitsEntries, FitsIds,
         FitsOption, Semantics;
    var b := Semantics(m);
    SemanticsArePut(m);
    Begins(b);
    FieldsStand();
    Ends(b, 36 + 16 * |m.chunks| + 50);
  }

  // ----- Tables -----

  /** The bytes the first n values take. */
  ghost function Total<T>(size: T -> nat, xs: seq<T>, n: nat): nat
    requires n <= |xs|
  {
    if n == 0 then 0 else Total(size, xs, n - 1) + size(xs[n - 1])
  }

  ghost function TableSize<T>(size: T -> nat, xs: seq<T>): nat { 4 + Total(size, xs, |xs|) }

  /** A count of four bytes, then the values one after another. */
  ghost predicate TableAt<T>(at: (Bytes, nat, T) -> bool, size: T -> nat, b: Bytes, p: nat, xs: seq<T>)
  {
    U32At(b, p, |xs|) && forall i :: 0 <= i < |xs| ==> at(b, p + 4 + Total(size, xs, i), xs[i])
  }

  /** Wherever the value is put, its fields stand and the next one follows. */
  ghost predicate Stands<T>(put: (T, Bytes) -> Bytes, at: (Bytes, nat, T) -> bool, size: T -> nat, x: T)
  {
    forall b, p: nat, rest :: From(b, p, put(x, rest)) ==> at(b, p, x) && From(b, p + size(x), rest)
  }

  lemma {:induction false} AllStand<T>(put: (T, Bytes) -> Bytes, at: (Bytes, nat, T) -> bool, size: T -> nat,
                                       b: Bytes, p: nat, xs: seq<T>, rest: Bytes, n: nat)
    requires n <= |xs| && (forall x <- xs :: Stands(put, at, size, x)) && From(b, p, PutAll(put, xs, rest))
    ensures From(b, p + Total(size, xs, n), PutAll(put, xs[n..], rest))
    ensures n < |xs| ==> at(b, p + Total(size, xs, n), xs[n])
  {
    hide From;
    if n == 0 {
      assert xs[0..] == xs;
    } else {
      AllStand(put, at, size, b, p, xs, rest, n - 1);
      assert xs[n - 1..][1..] == xs[n..];
      assert Stands(put, at, size, xs[n - 1]);
    }
    if n < |xs| {
      assert Stands(put, at, size, xs[n]);
      assert PutAll(put, xs[n..], rest) == put(xs[n], PutAll(put, xs[n..][1..], rest));
    }
  }

  lemma TableStands<T>(put: (T, Bytes) -> Bytes, at: (Bytes, nat, T) -> bool, size: T -> nat,
                       b: Bytes, p: nat, xs: seq<T>, rest: Bytes)
    requires |xs| <= MAX_RECORDS && (forall x <- xs :: Stands(put, at, size, x)) && From(b, p, PutList(put, xs, rest))
    ensures TableAt(at, size, b, p, xs) && From(b, p + TableSize(size, xs), rest)
  {
    hide From, U32At, PutAll, PutUint, Stands, Total;
    CountStands(b, p, |xs|, PutAll(put, xs, rest));
    forall i | 0 <= i < |xs| ensures at(b, p + 4 + Total(size, xs, i), xs[i]) {
      AllStand(put, at, size, b, p + 4, xs, rest, i);
    }
    AllStand(put, at, size, b, p + 4, xs, rest, |xs|);
    NothingMore(put, xs[|xs|..], rest);
  }

  lemma NothingMore<T>(put: (T, Bytes) -> Bytes, xs: seq<T>, rest: Bytes)
    requires xs == []
    ensures PutAll(put, xs, rest) == rest
  {
  }

  /** A checkpoint: descriptor, manifest, chunks, replica set, then lifecycle, integrity and freshness. */
  ghost predicate RecordAt(b: Bytes, p: nat, r: Record)
  {
    && DescriptorAt(b, p, r.descriptor)
    && var q := p + DescriptorSize(r.descriptor);
    && ManifestAt(b, q, r.manifest)
    && var u := q + ManifestSize(r.manifest);
    && TableAt(ChunkAt, ChunkSize, b, u, r.chunks)
    && var w := u + TableSize(ChunkSize, r.chunks);
    && ReplicaSetAt(b, w, r.replicaSet)
    && var x := w + ReplicaSetSize(r.replicaSet);
    && ByteAt(b, x, r.lifecycle) && ByteAt(b, x + 1, r.integrity) && ByteAt(b, x + 2, r.freshness)
  }

  ghost function RecordSize(r: Record): nat
  {
    DescriptorSize(r.descriptor) + ManifestSize(r.manifest) + TableSize(ChunkSize, r.chunks)
    + ReplicaSetSize(r.replicaSet) + 3
  }

  lemma RecordStands(b: Bytes, p: nat, r: Record, rest: Bytes)
    requires FitsRecord(r) && From(b, p, PutRecord(r, rest))
    ensures RecordAt(b, p, r) && From(b, p + RecordSize(r), rest)
  {
    hide From, PutDescriptor, PutManifest, PutChunk, PutReplicaSet, PutU8, PutList, DescriptorAt, ManifestAt, ChunkAt,
         ReplicaSetAt, ByteAt, TableAt, TableSize, DescriptorSize, ManifestSize, ChunkSize, ReplicaSetSize,
         FitsDescriptor, FitsManifest, FitsChunk, FitsReplicaSet, Stands;
    var a := PutU8(r.freshness, rest);
    var l := PutU8(r.lifecycle, PutU8(r.integrity, a));
    var chunks := PutList(PutChunk, r.chunks, PutReplicaSet(r.replicaSet, l));
    DescriptorStands(b, p, r.descriptor, PutManifest(r.manifest, chunks));
    var q := p + DescriptorSize(r.descriptor);
    ManifestStands(b, q, r.manifest, chunks);
    var u := q + ManifestSize(r.manifest);
    ChunksStand(b, u, r.chunks, PutReplicaSet(r.replicaSet, l));
    var w := u + TableSize(ChunkSize, r.chunks);
    ReplicaSetStands(b, w, r.replicaSet, l);
    var x := w + ReplicaSetSize(r.replicaSet);
    ByteStands(b, x, r.lifecycle, PutU8(r.integrity, a));
    ByteStands(b, x + 1, r.integrity, a);
    ByteStands(b, x + 2, r.freshness, rest);
  }

  lemma ChunksStand(b: Bytes, p: nat, xs: seq<Chunk>, rest: Bytes)
    requires |xs| <= MAX_RECORDS && (forall x <- xs :: FitsChunk(x)) && From(b, p, PutList(PutChunk, xs, rest))
    ensures TableAt(ChunkAt, ChunkSize, b, p, xs) && From(b, p + TableSize(ChunkSize, xs), rest)
  {
    hide From, PutList, PutChunk, FitsChunk, ChunkAt, ChunkSize, TableAt, TableSize;
    forall x <- xs ensures Stands(PutChunk, ChunkAt, ChunkSize, x) {
      forall b, p: nat, rest | From(b, p, PutChunk(x, rest))
        ensures ChunkAt(b, p, x) && From(b, p + ChunkSize(x), rest)
      {
        ChunkStands(b, p, x, rest);
      }
    }
    TableStands(PutChunk, ChunkAt, ChunkSize, b, p, xs, rest);
  }

  lemma FamiliesStand(b: Bytes, p: nat, xs: seq<Family>, rest: Bytes)
    requires |xs| <= MAX_RECORDS && (forall x <- xs :: FitsFamily(x)) && From(b, p, PutList(PutFamily, xs, rest))
    ensures TableAt(FamilyAt, FamilySize, b, p, xs) && From(b, p + TableSize(FamilySize, xs), rest)
  {
    hide From, PutList, PutFamily, FitsFamily, FamilyAt, FamilySize, TableAt, TableSize;
    forall x <- xs ensures Stands(PutFamily, FamilyAt, FamilySize, x) {
      forall b, p: nat, rest | From(b, p, PutFamily(x, rest))
        ensures FamilyAt(b, p, x) && From(b, p + FamilySize(x), rest)
      {
        FamilyStands(b, p, x, rest);
      }
    }
    TableStands(PutFamily, FamilyAt, FamilySize, b, p, xs, rest);
  }

  lemma RecordsStand(b: Bytes, p: nat, xs: seq<Record>, rest: Bytes)
    requires |xs| <= MAX_RECORDS && (forall x <- xs :: FitsRecord(x)) && From(b, p, PutList(PutRecord, xs, rest))
    ensures TableAt(RecordAt, RecordSize, b, p, xs) && From(b, p + TableSize(RecordSize, xs), rest)
  {
    hide From, PutList, PutRecord, FitsRecord, RecordAt, RecordSize, TableAt, TableSize;
    forall x <- xs ensures Stands(PutRecord, RecordAt, RecordSize, x) {
      forall b, p: nat, rest | From(b, p, PutRecord(x, rest))
        ensures RecordAt(b, p, x) && From(b, p + RecordSize(x), rest)
      {
        RecordStands(b, p, x, rest);
      }
    }
    TableStands(PutRecord, RecordAt, RecordSize, b, p, xs, rest);
  }

  lemma BlobsStand(b: Bytes, p: nat, xs: seq<Blob>, rest: Bytes)
    requires |xs| <= MAX_RECORDS && (forall x <- xs :: FitsBlob(x)) && From(b, p, PutList(PutBlob, xs, rest))
    ensures TableAt(BlobAt, BlobSize, b, p, xs) && From(b, p + TableSize(BlobSize, xs), rest)
  {
    hide From, PutList, PutBlob, FitsBlob, BlobAt, BlobSize, TableAt, TableSize;
    forall x <- xs ensures Stands(PutBlob, BlobAt, BlobSize, x) {
      forall b, p: nat, rest | From(b, p, PutBlob(x, rest))
        ensures BlobAt(b, p, x) && From(b, p + BlobSize(x), rest)
      {
        BlobStands(b, p, x, rest);
      }
    }
    TableStands(PutBlob, BlobAt, BlobSize, b, p, xs, rest);
  }

  lemma ReplicasStand(b: Bytes, p: nat, xs: seq<Replica>, rest: Bytes)
    requires |xs| <= MAX_RECORDS && (forall x <- xs :: FitsReplica(x)) && From(b, p, PutList(PutReplica, xs, rest))
    ensures TableAt(ReplicaAt, ReplicaSize, b, p, xs) && From(b, p + TableSize(ReplicaSize, xs), rest)
  {
    hide From, PutList, PutReplica, FitsReplica, ReplicaAt, ReplicaSize, TableAt, TableSize;
    forall x <- xs ensures Stands(PutReplica, ReplicaAt, ReplicaSize, x) {
      forall b, p: nat, rest | From(b, p, PutReplica(x, rest))
        ensures ReplicaAt(b, p, x) && From(b, p + ReplicaSize(x), rest)
      {
        ReplicaStands(b, p, x, rest);
      }
    }
    TableStands(PutReplica, ReplicaAt, ReplicaSize, b, p, xs, rest);
  }

  lemma PlacementsStand(b: Bytes, p: nat, xs: seq<Placement>, rest: Bytes)
    requires |xs| <= MAX_RECORDS && (forall x <- xs :: FitsPlacement(x)) && From(b, p, PutList(PutPlacement, xs, rest))
    ensures TableAt(PlacementAt, PlacementSize, b, p, xs) && From(b, p + TableSize(PlacementSize, xs), rest)
  {
    hide From, PutList, PutPlacement, FitsPlacement, PlacementAt, PlacementSize, TableAt, TableSize;
    forall x <- xs ensures Stands(PutPlacement, PlacementAt, PlacementSize, x) {
      forall b, p: nat, rest | From(b, p, PutPlacement(x, rest))
        ensures PlacementAt(b, p, x) && From(b, p + PlacementSize(x), rest)
      {
        PlacementStands(b, p, x, rest);
      }
    }
    TableStands(PutPlacement, PlacementAt, PlacementSize, b, p, xs, rest);
  }

  lemma PoliciesStand(b: Bytes, p: nat, xs: seq<Policy>, rest: Bytes)
    requires |xs| <= MAX_RECORDS && (forall x <- xs :: FitsPolicy(x)) && From(b, p, PutList(PutPolicy, xs, rest))
    ensures TableAt(PolicyAt, PolicySize, b, p, xs) && From(b, p + TableSize(PolicySize, xs), rest)
  {
    hide From, PutList, PutPolicy, FitsPolicy, PolicyAt, PolicySize, TableAt, TableSize;
    forall x <- xs ensures Stands(PutPolicy, PolicyAt, PolicySize, x) {
      forall b, p: nat, rest | From(b, p, PutPolicy(x, rest))
        ensures PolicyAt(b, p, x) && From(b, p + PolicySize(x), rest)
      {
        PolicyStands(b, p, x, rest);
      }
    }
    TableStands(PutPolicy, PolicyAt, PolicySize, b, p, xs, rest);
  }

  lemma DedupsStand(b: Bytes, p: nat, xs: seq<DedupEntry>, rest: Bytes)
    requires |xs| <= MAX_RECORDS && (forall x <- xs :: FitsDedup(x)) && From(b, p, PutList(PutDedup, xs, rest))
    ensures TableAt(DedupAt, DedupSize, b, p, xs) && From(b, p + TableSize(DedupSize, xs), rest)
  {
    hide From, PutList, PutDedup, FitsDedup, DedupAt, DedupSize, TableAt, TableSize;
    forall x <- xs ensures Stands(PutDedup, DedupAt, DedupSize, x) {
      forall b, p: nat, rest | From(b, p, PutDedup(x, rest))
        ensures DedupAt(b, p, x) && From(b, p + DedupSize(x), rest)
      {
        DedupStands(b, p, x, rest);
      }
    }
    TableStands(PutDedup, DedupAt, DedupSize, b, p, xs, rest);
  }

  // ----- The body -----

  ghost function FamiliesSize(i: Image): nat { TableSize(FamilySize, i.families) }
  ghost function RecordsSize(i: Image): nat { TableSize(RecordSize, i.records) }
  ghost function BlobsSize(i: Image): nat { TableSize(BlobSize, i.blobs) }
  ghost function ReplicasSize(i: Image): nat { TableSize(ReplicaSize, i.replicas) }
  ghost function PlacementsSize(i: Image): nat { TableSize(PlacementSize, i.placements) }
  ghost function PoliciesSize(i: Image): nat { TableSize(PolicySize, i.policies) }
  ghost function EntriesSize(i: Image): nat { TableSize(DedupSize, i.entries) }

  /**
   Epoch, boot, next id and seven counters; then the tables of families, checkpoints, blobs, replicas,
   placements and policies; then the collector's state; then the deduplication entries.
   */
  ghost predicate BodyAt(b: Bytes, i: Image)
  {
    && U64At(b, 0, i.epoch) && U64At(b, 8, i.bootId) && U64At(b, 16, i.nextId)
    && |i.counters| == 7 && (forall k :: 0 <= k < 7 ==> U64At(b, 24 + 8 * k, i.counters[k]))
    && TableAt(FamilyAt, FamilySize, b, 80, i.families)
    && var p := 80 + FamiliesSize(i);
    && TableAt(RecordAt, RecordSize, b, p, i.records)
    && var q := p + RecordsSize(i);
    && TableAt(BlobAt, BlobSize, b, q, i.blobs)
    && var u := q + BlobsSize(i);
    && TableAt(ReplicaAt, ReplicaSize, b, u, i.replicas)
    && var w := u + ReplicasSize(i);
    && TableAt(PlacementAt, PlacementSize, b, w, i.placements)
    && var x := w + PlacementsSize(i);
    && TableAt(PolicyAt, PolicySize, b, x, i.policies)
    && var z := x + PoliciesSize(i);
    && U64At(b, z, i.gcEpoch) && U64At(b, z + 8, i.gcGeneration) && ByteAt(b, z + 16, i.gcPhase)
    && U64At(b, z + 17, i.gcMarked) && U64At(b, z + 25, i.gcReclaimed)
    && TableAt(DedupAt, DedupSize, b, z + 33, i.entries)
    && |b| == z + 33 + EntriesSize(i)
  }

  /** The body of the state file has exactly this layout. */
  lemma BodyStands(i: Image)
    requires FitsImage(i)
    ensures BodyAt(PutImage(i), i)
  {
    hide From, PutId, PutU8, PutAll, PutList, U64At, ByteAt, TableAt, TableSize, FitsId, FitsFamily, FitsRecord,
         FitsBlob, FitsReplica, FitsPlacement, FitsPolicy, FitsDedup, DistinctKeys;
    var b := PutImage(i);
    var entries := PutList(PutDedup, i.entries, []);
    var marks := PutId(i.gcMarked, PutId(i.gcReclaimed, entries));
    var gc := PutId(i.gcEpoch, PutId(i.gcGeneration, PutU8(i.gcPhase, marks)));
    var policies := PutList(PutPolicy, i.policies, gc);
    var placements := PutList(PutPlacement, i.placements, policies);
    var replicas := PutList(PutReplica, i.replicas, placements);
    var blobs := PutList(PutBlob, i.blobs, replicas);
    var records := PutList(PutRecord, i.records, blobs);
    var families := PutList(PutFamily, i.families, records);
    var counters := PutAll(PutId, i.counters, families);
    Begins(b);
    IdStands(b, 0, i.epoch, PutId(i.bootId, PutId(i.nextId, counters)));
    IdStands(b, 8, i.bootId, PutId(i.nextId, counters));
    IdStands(b, 16, i.nextId, counters);
    AllIdsStand(b, 24, i.counters, families);
    FamiliesStand(b, 80, i.families, records);
    var p := 80 + FamiliesSize(i);
    RecordsStand(b, p, i.records, blobs);
    var q := p + RecordsSize(i);
    BlobsStand(b, q, i.blobs, replicas);
    var u := q + BlobsSize(i);
    ReplicasStand(b, u, i.replicas, placements);
    var w := u + ReplicasSize(i);
    PlacementsStand(b, w, i.placements, policies);
    var x := w + PlacementsSize(i);
    PoliciesStand(b, x, i.policies, gc);
    var z := x + PoliciesSize(i);
    IdStands(b, z, i.gcEpoch, PutId(i.gcGeneration, PutU8(i.gcPhase, marks)));
    IdStands(b, z + 8, i.gcGeneration, PutU8(i.gcPhase, marks));
    ByteStands(b, z + 16, i.gcPhase, marks);
    IdStands(b, z + 17, i.gcMarked, PutId(i.gcReclaimed, entries));
    IdStands(b, z + 25, i.gcReclaimed, entries);
    DedupsStand(b, z + 33, i.entries, []);
    Ends(b, z + 33 + EntriesSize(i));
  }

  lemma Begins(b: Bytes)
    ensures From(b, 0, b)
  {
  }

  lemma Ends(b: Bytes, p: nat)
    requires From(b, p, [])
    ensures |b| == p
  {
  }

  // ----- The file -----

  /** The magic "CPST", version 1, the length, the body, its CRC-32 and its digest. */
  ghost predicate FileAt(hash: Bytes -> Digest, raw: Bytes, body: Bytes)
  {
    var n := |body|;
    && |raw| == 48 + n && BytesAt(raw, 0, [67, 80, 83, 84]) && U32At(raw, 4, 1) && U32At(raw, 8, n)
    && BytesAt(raw, 12, body) && U32At(raw, 12 + n, Crc32.Crc(body, 0) as int) && BytesAt(raw, 16 + n, hash(body))
  }

  lemma FileStands(hash: Bytes -> Digest, body: Bytes)
    requires |body| < 0x1_0000_0000
    ensures FileAt(hash, Frame(hash, body), body)
  {
    hide LittleEndian, Value, Crc32.Crc, Checksum;
    var raw, n := Frame(hash, body), |body|;
    Widths();
    ValueOfLittleEndian(1, 4);
    ValueOfLittleEndian(n, 4);
    ChecksumBound(body);
    ValueOfLittleEndian(Checksum(body), 4);
    assert raw[0..4] == MAGIC && raw[4..8] == LittleEndian(1, 4) && raw[8..12] == LittleEndian(n, 4);
    assert raw[12..12 + n] == body && raw[12 + n..16 + n] == LittleEndian(Checksum(body), 4);
    assert raw[16 + n..48 + n] == hash(body);
    ChecksumIs(body);
  }

  lemma ChecksumIs(body: Bytes)
    ensures Checksum(body) == Crc32.Crc(body, 0) as int
  {
    hide Crc32.Crc;
  }

  /** The file a store saves: the magic and the checks around the body, and the body table by table. */
  lemma SavedFile(s: State)
    requires InBounds(s)
    ensures var body := PutImage(ImageOf(s)); FileAt(s.cfg.hash, Save(s), body) && BodyAt(body, ImageOf(s))
  {
    hide FileAt, BodyAt, PutImage, ImageOf, FitsImage, Frame;
    BodyStands(ImageOf(s));
    FileStands(s.cfg.hash, PutImage(ImageOf(s)));
  }

  // ----- The order of the tables' rows -----

  ghost predicate Ascending<V>(key: V -> Id, xs: seq<V>)
  {
    forall i, j :: 0 <= i < j < |xs| ==> key(xs[i]) < key(xs[j])
  }

  lemma InIdOrder<V>(key: V -> Id, m: map<Id, V>)
    requires KeyedBy(key, m)
    ensures var l := Listing(ById, m.Keys); (forall k <- l :: k in m) && Ascending(key, ValuesAt(m, l))
  {
    ByIdTotal();
    ListingLists(ById, m.Keys);
    var l := Listing(ById, m.Keys);
    forall i | 0 <= i < |l| ensures key(ValuesAt(m, l)[i]) == l[i] {
      assert l[i] in l;
    }
  }

  /** At the first place where two strings differ the first has the smaller character. */
  ghost predicate Precedes(a: string, b: string)
  {
    exists i :: 0 <= i < |a| && i < |b| && a[..i] == b[..i] && a[i] < b[i]
  }

  lemma {:induction false} LexMeans(a: string, b: string)
    requires |a| == |b| && Lex(a, b)
    ensures Precedes(a, b)
  {
    if a[0] != b[0] {
      assert a[..0] == b[..0];
    } else {
      LexMeans(a[1..], b[1..]);
      var i :| 0 <= i < |a[1..]| && i < |b[1..]| && a[1..][..i] == b[1..][..i] && a[1..][i] < b[1..][i];
      assert a[..i + 1] == [a[0]] + a[1..][..i] && b[..i + 1] == [b[0]] + b[1..][..i];
    }
  }

  lemma InHexOrder(t: map<Digest, DedupEntry>)
    requires KeyedBy(DedupKey, t)
    ensures var l := Listing(ByHex, t.Keys);
      && (forall k <- l :: k in t)
      && forall i, j :: 0 <= i < j < |l| ==> Precedes(Hex(ValuesAt(t, l)[i].digest), Hex(ValuesAt(t, l)[j].digest))
  {
    hide Hex, Lex;
    ByHexTotal();
    ListingLists(ByHex, t.Keys);
    var l := Listing(ByHex, t.Keys);
    forall i | 0 <= i < |l| ensures ValuesAt(t, l)[i].digest == l[i] {
      assert l[i] in l && DedupKey(t[l[i]]) == l[i];
    }
    forall i, j | 0 <= i < j < |l| ensures Precedes(Hex(l[i]), Hex(l[j])) {
      HexLength(l[i]);
      HexLength(l[j]);
      assert ByHex(l[i], l[j]);
      LexMeans(Hex(l[i]), Hex(l[j]));
    }
  }

  /** Every table is written in ascending order of identities, the entries in that of their digests' digits. */
  lemma SavedInOrder(s: State)
    requires KeysMatch(s)
    ensures var i := ImageOf(s);
      && Ascending(FamilyKey, i.families) && Ascending(RecordKey, i.records) && Ascending(BlobRecordKey, i.blobs)
      && Ascending(ReplicaKey, i.replicas) && Ascending(PlacementKey, i.placements)
      && Ascending(PolicyKey, i.policies)
      && forall j, k :: 0 <= j < k < |i.entries| ==> Precedes(Hex(i.entries[j].digest), Hex(i.entries[k].digest))
  {
    hide Ascending, Precedes, Hex, KeyedBy;
    InIdOrder(FamilyKey, s.families);
    InIdOrder(RecordKey, s.checkpoints);
    InIdOrder(BlobRecordKey, s.blobs);
    InIdOrder(ReplicaKey, s.replicas);
    InIdOrder(PlacementKey, s.placements);
    InIdOrder(PolicyKey, s.retention);
    InHexOrder(s.storage.dedup);
  }
}

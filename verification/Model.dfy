/**
 The records of include/checkpointstore/model.hpp, src/impl.hpp and storage/dedup.hpp. An
 enumeration is its underlying number, as the source casts freely between the two. Identities
 and generations are numbers; times are nanoseconds, durations seconds.
 */
module Model {
  import opened Basics

  // ----- Enumerators the store's logic tests for -----

  const KIND_FULL: Byte := 0
  const KIND_SYNTHETIC: Byte := 4

  const LIFE_CREATING: Byte := 0
  const LIFE_WRITING: Byte := 1
  const LIFE_COMMITTED: Byte := 3
  const LIFE_RETIRED: Byte := 8
  const LIFE_GC_ELIGIBLE: Byte := 9
  const LIFE_DELETED: Byte := 10
  const LIFE_FAILED: Byte := 11

  const INTEGRITY_UNKNOWN: Byte := 0
  const INTEGRITY_UNVERIFIED: Byte := 1
  const INTEGRITY_VERIFIED: Byte := 2
  const INTEGRITY_CORRUPT: Byte := 3
  const INTEGRITY_MISSING: Byte := 4

  const RETAIN_PINNED: Byte := 0
  const RETAIN_LATEST_N: Byte := 1
  const RETAIN_TTL: Byte := 2
  const RETAIN_RESTORE_POINT: Byte := 4

  const DURABILITY_UNDER_REPLICATED: Byte := 0
  const DURABILITY_HEALTHY: Byte := 1
  const DURABILITY_DEGRADED: Byte := 2

  const ROLE_AUTHORITATIVE: Byte := 0
  const ROLE_QUARANTINED: Byte := 3

  const FRESH_CURRENT: Byte := 0
  const FRESH_REVALIDATION_REQUIRED: Byte := 2
  const FRESH_UNKNOWN: Byte := 3

  const PROVENANCE_MEASURED: Byte := 0

  const GC_IDLE: Byte := 0
  const GC_MARKING: Byte := 2
  const GC_COMPLETE: Byte := 4

  // ----- Records -----

  datatype Descriptor = Descriptor(
    id: Id, familyId: Id, generation: nat, kind: Byte, logicalSize: nat, createdAt: int,
    ownerId: Id, producerBoot: Id, producerGeneration: nat,
    parent: Option<Id>, base: Option<Id>, lineage: seq<Id>, references: seq<Id>,
    compatibility: Bytes, retention: Byte, durability: Byte, restorePriority: Byte,
    provenance: Byte, policyGeneration: nat, requiredReplicaCount: nat)

  datatype ManifestEntry = ManifestEntry(chunkId: Id, logicalOffset: nat)

  datatype Manifest = Manifest(
    id: Id, generation: nat, checkpointId: Id, checkpointGeneration: nat,
    chunks: seq<ManifestEntry>, logicalSize: nat, checkpointDigest: Digest,
    lineage: seq<Id>, parent: Option<Id>, base: Option<Id>,
    provenance: Byte, durability: Byte, requiredReplicaCount: nat, semanticDigest: Digest)

  datatype Chunk = Chunk(
    id: Id, generation: nat, logicalOffset: nat, logicalSize: nat, physicalSize: nat,
    digest: Digest, blobId: Id, placements: seq<Id>, refcount: nat,
    provenance: Byte, integrity: Byte, compressed: bool, payloadEncoding: Bytes)

  datatype ReplicaSet = ReplicaSet(
    checkpointId: Id, generation: nat, requiredReplicaCount: nat, replicas: seq<Id>,
    durabilityState: Byte, placementGeneration: nat, provenance: Byte)

  datatype Record = Record(
    descriptor: Descriptor, manifest: Manifest, chunks: seq<Chunk>, replicaSet: ReplicaSet,
    lifecycle: Byte, integrity: Byte, freshness: Byte)

  datatype Family = Family(id: Id, generation: nat, checkpointIds: seq<Id>)

  datatype Blob = Blob(
    id: Id, generation: nat, physicalSize: nat, digest: Digest, refcount: nat, byteReferences: nat,
    tier: Byte, provenance: Byte, integrity: Byte, freshness: Byte, replicas: seq<Id>)

  datatype Replica = Replica(
    id: Id, generation: nat, backendId: Id, sourceKind: Byte, tier: Byte, integrity: Byte,
    role: Byte, physicalSize: nat, provenance: Byte)

  datatype Placement = Placement(
    id: Id, generation: nat, replicaId: Id, tierId: Id, backendId: Id, nodeId: Id, volumeId: Id,
    bytes: nat, provenance: Byte, freshness: Byte)

  datatype Policy = Policy(
    id: Id, familyId: Id, retentionClass: Byte, latestN: nat, ttl: int,
    protectAncestry: bool, recomputable: bool, policyProtected: bool, generation: nat, provenance: Byte)

  datatype GcState = GcState(
    epoch: Id, generation: nat, phase: Byte, reachable: set<Id>, reclaimable: seq<Id>,
    markedBytes: nat, reclaimedBytes: nat, freshness: Byte)

  datatype DedupEntry = DedupEntry(
    blobId: Id, digest: Digest, physicalSize: nat, refcount: nat, integrity: Byte, generation: nat)

  datatype Error =
    | StaleAuthority | AlreadyExists | NotFound | StaleGeneration | InvalidArgument | NotSupported
    | BackendUnavailable | Missing | Conflict | Corrupt | Overflow | Integrity | DigestMismatch
    | Malformed | Transaction | Truncated | BadMagic | UnsupportedVersion | ChecksumMismatch

  /** A checkpoint a restore still accepts and a sweep has not released. */
  predicate Live(r: Record)
  {
    r.lifecycle != LIFE_GC_ELIGIBLE && r.lifecycle != LIFE_DELETED
  }

  // ----- Addresses derived from content -----

  /** The first eight bytes of a digest, most significant first, with 0 reserved. */
  function PrefixId(d: Digest): (id: Id)
  {
    var v := BigEndian(d[..8]);
    if v == 0 then 1 else v
  }

  function BigEndian(b: Bytes): nat
  {
    if b == [] then 0 else BigEndian(b[..|b| - 1]) * 256 + b[|b| - 1]
  }

  /** Lower-case hexadecimal. */
  function HexDigit(n: nat): char
    requires n < 16
  {
    "0123456789abcdef"[n]
  }

  function Hex(b: Bytes): string
  {
    if b == [] then "" else Hex(b[..|b| - 1]) + [HexDigit(b[|b| - 1] / 16), HexDigit(b[|b| - 1] % 16)]
  }

  function BlobKey(d: Digest): string
  {
    HexLength(d);
    "blobs/" + Hex(d)[..2] + "/" + Hex(d)
  }

  lemma {:induction false} HexLength(b: Bytes)
    ensures |Hex(b)| == 2 * |b|
  {
    if b != [] {
      HexLength(b[..|b| - 1]);
    }
  }

  function Nibble(c: char): nat
  {
    if '0' <= c <= '9' then (c as int) - ('0' as int)
    else if 'a' <= c <= 'f' then (c as int) - ('a' as int) + 10
    else 0
  }

  lemma NibbleBack(n: nat)
    requires n < 16
    ensures Nibble(HexDigit(n)) == n
  {
  }

  lemma {:induction false} HexInjective(a: Bytes, b: Bytes)
    requires Hex(a) == Hex(b)
    ensures a == b
  {
    HexLength(a);
    HexLength(b);
    if a != [] {
      var m, n := |a| - 1, |b| - 1;
      assert Hex(a)[..2 * m] == Hex(a[..m]) && Hex(b)[..2 * n] == Hex(b[..n]) by {
        HexLength(a[..m]);
        HexLength(b[..n]);
      }
      HexInjective(a[..m], b[..n]);
      NibbleBack(a[m] / 16);
      NibbleBack(a[m] % 16);
      NibbleBack(b[n] / 16);
      NibbleBack(b[n] % 16);
      assert Hex(a)[2 * m] == Hex(b)[2 * n] && Hex(a)[2 * m + 1] == Hex(b)[2 * n + 1] by {
        HexLength(a[..m]);
        HexLength(b[..n]);
      }
      assert a == a[..m] + [a[m]] && b == b[..n] + [b[n]];
    }
  }

  /** Two lower-case digits for each byte, high half first. */
  lemma {:induction false} HexAt(b: Bytes, i: nat)
    requires i < |b|
    ensures |Hex(b)| == 2 * |b|
    ensures Hex(b)[2 * i] == "0123456789abcdef"[b[i] / 16] && Hex(b)[2 * i + 1] == "0123456789abcdef"[b[i] % 16]
  {
    var n := |b| - 1;
    HexLength(b);
    HexLength(b[..n]);
    if i < n {
      HexAt(b[..n], i);
    }
  }

  /** The key of a blob: "blobs/", the first two digits of its digest, a slash, all sixty-four. */
  lemma KeyShape(d: Digest)
    ensures |Hex(d)| == 64 && |BlobKey(d)| == 73
    ensures BlobKey(d)[..6] == "blobs/" && BlobKey(d)[6..8] == Hex(d)[..2] && BlobKey(d)[8] == '/'
    ensures BlobKey(d)[9..] == Hex(d)
  {
    hide Hex;
    HexLength(d);
  }

  lemma {:induction false} BigEndianInjective(a: Bytes, b: Bytes)
    requires |a| == |b| && BigEndian(a) == BigEndian(b)
    ensures a == b
  {
    if a != [] {
      var n := |a| - 1;
      assert a == a[..n] + [a[n]] && b == b[..n] + [b[n]];
      BigEndianInjective(a[..n], b[..n]);
    }
  }

  lemma BigEndianNext(b: Bytes, v: Byte)
    ensures BigEndian(b + [v]) == BigEndian(b) * 256 + v
  {
    assert (b + [v])[..|b|] == b;
  }

  /** The id a digest gives a chunk and its blob: its first eight bytes as a number, or 1 for zero. */
  lemma PrefixIdIs(d: Digest)
    ensures var v: int := d[0];
      var v := ((v * 256 + d[1]) * 256 + d[2]) * 256 + d[3];
      var v := (((v * 256 + d[4]) * 256 + d[5]) * 256 + d[6]) * 256 + d[7];
      PrefixId(d) == if v == 0 then 1 else v
  {
    hide BigEndian;
    BigEndianNext([], d[0]);
    BigEndianNext([d[0]], d[1]);
    BigEndianNext([d[0], d[1]], d[2]);
    BigEndianNext([d[0], d[1], d[2]], d[3]);
    BigEndianNext([d[0], d[1], d[2], d[3]], d[4]);
    BigEndianNext([d[0], d[1], d[2], d[3], d[4]], d[5]);
    BigEndianNext([d[0], d[1], d[2], d[3], d[4], d[5]], d[6]);
    BigEndianNext([d[0], d[1], d[2], d[3], d[4], d[5], d[6]], d[7]);
    BigEndianNone();
    assert [] + [d[0]] == [d[0]] && [d[0]] + [d[1]] == [d[0], d[1]] && [d[0], d[1]] + [d[2]] == [d[0], d[1], d[2]];
    assert [d[0], d[1], d[2]] + [d[3]] == [d[0], d[1], d[2], d[3]];
    assert [d[0], d[1], d[2], d[3]] + [d[4]] == [d[0], d[1], d[2], d[3], d[4]];
    assert [d[0], d[1], d[2], d[3], d[4]] + [d[5]] == [d[0], d[1], d[2], d[3], d[4], d[5]];
    assert [d[0], d[1], d[2], d[3], d[4], d[5]] + [d[6]] == [d[0], d[1], d[2], d[3], d[4], d[5], d[6]];
    assert d[..8] == [d[0], d[1], d[2], d[3], d[4], d[5], d[6]] + [d[7]];
  }

  lemma BigEndianNone()
    ensures BigEndian([]) == 0
  {
  }

  /** Two digests have one id exactly when their first eight bytes agree, or are the numbers 0 and 1. */
  lemma SameIdExactly(d: Digest, e: Digest)
    ensures PrefixId(d) == PrefixId(e) <==>
            d[..8] == e[..8] || (BigEndian(d[..8]) <= 1 && BigEndian(e[..8]) <= 1)
  {
    hide BigEndian;
    if BigEndian(d[..8]) == BigEndian(e[..8]) {
      BigEndianInjective(d[..8], e[..8]);
    }
  }

  /** Distinct digests have distinct backend keys: removing one blob's object never touches another's. */
  lemma BlobKeyInjective(d: Digest, e: Digest)
    requires BlobKey(d) == BlobKey(e)
    ensures d == e
  {
    HexLength(d);
    HexLength(e);
    assert BlobKey(d)[9..] == Hex(d) && BlobKey(e)[9..] == Hex(e);
    HexInjective(d, e);
  }
}

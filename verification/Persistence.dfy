/**
 Saving and loading the authoritative state (src/persistence.cpp): the framed body, its checks,
 and the state a fresh store recovers from it.
 */
module Persistence {
  import opened Basics
  import opened Binary
  import opened Model
  import opened StoreState
  import opened Codec
  import opened RecordCodec
  import opened Ordering
  import Crc32

  const FORMAT_VERSION: nat := 1
  const MAX_BODY: nat := 0x8000_0000
  const MAGIC: Bytes := [67, 80, 83, 84]

  // ----- Checkpoint records and dedup entries -----

  function PutRecord(r: Record, rest: Bytes): Bytes
  {
    PutDescriptor(r.descriptor, PutManifest(r.manifest, PutList(PutChunk, r.chunks, PutReplicaSet(r.replicaSet,
    PutU8(r.lifecycle, PutU8(r.integrity, PutU8(r.freshness, rest)))))))
  }

  function GetRecord(b: Bytes): Parsed<Record>
  {
    var (descriptor, b) :- GetDescriptor(b);
    var (manifest, b) :- GetManifest(b);
    var (chunks, b) :- GetList(GetChunk, b);
    var (replicaSet, b) :- GetReplicaSet(b);
    var (lifecycle, b) :- GetU8(b);
    var (integrity, b) :- GetU8(b);
    var (freshness, b) :- GetU8(b);
    Got(Record(descriptor, manifest, chunks, replicaSet, lifecycle, integrity, freshness), b)
  }

  predicate FitsRecord(r: Record)
  {
    && FitsDescriptor(r.descriptor) && FitsManifest(r.manifest) && FitsReplicaSet(r.replicaSet)
    && |r.chunks| <= MAX_RECORDS && forall c <- r.chunks :: FitsChunk(c)
  }

  /** What a saved record reads back as: its creation time in whole milliseconds. */
  function Reloaded(r: Record): Record
  {
    r.(descriptor := r.descriptor.(createdAt := WholeMillis(r.descriptor.createdAt)))
  }

  lemma ChunksBack(chunks: seq<Chunk>, rest: Bytes)
    requires |chunks| <= MAX_RECORDS && forall c <- chunks :: FitsChunk(c)
    ensures GetList(GetChunk, PutList(PutChunk, chunks, rest)) == Got(chunks, rest)
  {
    hide PutChunk, GetChunk, PutList, GetList, FitsChunk;
    forall c <- chunks
      ensures Cancels(PutChunk, GetChunk, c)
    {
      forall rest: Bytes
        ensures GetChunk(PutChunk(c, rest)) == Got(c, rest)
      {
        ChunkBack(c, rest);
      }
    }
    ListBack(PutChunk, GetChunk, chunks, rest);
  }

  lemma RecordBack(r: Record, rest: Bytes)
    requires FitsRecord(r)
    ensures GetRecord(PutRecord(r, rest)) == Got(Reloaded(r), rest)
  {
    hide PutDescriptor, GetDescriptor, PutManifest, GetManifest, PutChunk, GetChunk, PutReplicaSet, GetReplicaSet,
         PutU8, GetU8, PutList, GetList, FitsDescriptor, FitsManifest, FitsReplicaSet, FitsChunk, WholeMillis;
    var b := rest;
    U8Back(r.freshness, b);
    b := PutU8(r.freshness, b);
    U8Back(r.integrity, b);
    b := PutU8(r.integrity, b);
    U8Back(r.lifecycle, b);
    b := PutU8(r.lifecycle, b);
    ReplicaSetBack(r.replicaSet, b);
    b := PutReplicaSet(r.replicaSet, b);
    ChunksBack(r.chunks, b);
    b := PutList(PutChunk, r.chunks, b);
    ManifestBack(r.manifest, b);
    b := PutManifest(r.manifest, b);
    DescriptorBack(r.descriptor, b);
  }

  function PutDedup(e: DedupEntry, rest: Bytes): Bytes
  {
    PutFixed(e.digest,
      PutId(e.physicalSize, PutId(e.refcount, PutU8(e.integrity, PutId(e.blobId, PutId(e.generation, rest))))))
  }

  function GetDedup(b: Bytes): Parsed<DedupEntry>
  {
    var (digest, b) :- GetDigest(b);
    var (physicalSize, b) :- GetId(b);
    var (refcount, b) :- GetId(b);
    var (integrity, b) :- GetU8(b);
    var (blobId, b) :- GetId(b);
    var (generation, b) :- GetId(b);
    Got(DedupEntry(blobId, digest, physicalSize, refcount, integrity, generation), b)
  }

  predicate FitsDedup(e: DedupEntry)
  {
    FitsId(e.physicalSize) && FitsId(e.refcount) && FitsId(e.blobId) && FitsId(e.generation)
  }

  lemma DedupBack(e: DedupEntry, rest: Bytes)
    requires FitsDedup(e)
    ensures GetDedup(PutDedup(e, rest)) == Got(e, rest)
  {
    hide PutId, GetId, PutU8, GetU8, PutFixed, GetDigest, FitsId;
    FieldsBack();
  }

  // ----- Counted tables -----

  /** Reads n values into a map by key; a key that is already there is malformed. */
  function GetTable<K(==), V>(get: Bytes -> Parsed<V>, key: V -> K, n: nat, b: Bytes, m: map<K, V>, l: seq<V>)
    : Parsed<(map<K, V>, seq<V>)>
  {
    if n == 0 then Got((m, l), b)
    else
      var (x, b) :- get(b);
      if key(x) in m then Bad(Malformed)
      else GetTable(get, key, n - 1, b, m[key(x) := x], l + [x])
  }

  function GetCounted<K(==), V>(get: Bytes -> Parsed<V>, key: V -> K, b: Bytes, m: map<K, V>)
    : Parsed<(map<K, V>, seq<V>)>
  {
    var (n, b) :- GetCount(b);
    GetTable(get, key, n, b, m, [])
  }

  /** The reader turns what the writer put for x into y. */
  ghost predicate ReadsAs<V>(put: (V, Bytes) -> Bytes, get: Bytes -> Parsed<V>, x: V, y: V)
  {
    forall rest: Bytes :: get(put(x, rest)) == Got(y, rest)
  }

  ghost predicate AllReadAs<V>(put: (V, Bytes) -> Bytes, get: Bytes -> Parsed<V>, xs: seq<V>, ys: seq<V>)
  {
    |xs| == |ys| && forall i :: 0 <= i < |xs| ==> ReadsAs(put, get, xs[i], ys[i])
  }

  function Keyed<K, V>(key: V -> K, ys: seq<V>): map<K, V>
  {
    if ys == [] then map[] else map[key(ys[0]) := ys[0]] + Keyed(key, ys[1..])
  }

  ghost predicate DistinctKeys<K, V>(key: V -> K, ys: seq<V>)
  {
    forall i, j :: 0 <= i < j < |ys| ==> key(ys[i]) != key(ys[j])
  }

  lemma {:induction false} KeyedKeys<K, V>(key: V -> K, ys: seq<V>, k: K)
    ensures k in Keyed(key, ys) <==> exists i :: 0 <= i < |ys| && key(ys[i]) == k
  {
    if ys != [] {
      KeyedKeys(key, ys[1..], k);
      if k in Keyed(key, ys[1..]) {
        var i :| 0 <= i < |ys[1..]| && key(ys[1..][i]) == k;
        assert key(ys[i + 1]) == k;
      }
      if i :| 0 <= i < |ys| && key(ys[i]) == k {
        assert i > 0 ==> key(ys[1..][i - 1]) == k;
      }
    }
  }

  lemma {:induction false} TableBack<K, V>(put: (V, Bytes) -> Bytes, get: Bytes -> Parsed<V>, key: V -> K,
                                           xs: seq<V>, ys: seq<V>, rest: Bytes, m: map<K, V>, l: seq<V>)
    requires AllReadAs(put, get, xs, ys) && DistinctKeys(key, ys)
    requires forall y <- ys :: key(y) !in m
    ensures GetTable(get, key, |xs|, PutAll(put, xs, rest), m, l) == Got((m + Keyed(key, ys), l + ys), rest)
    decreases |xs|
  {
    if xs == [] {
      assert m + map[] == m && l + ys == l;
    } else {
      assert ReadsAs(put, get, xs[0], ys[0]);
      var m', l' := m[key(ys[0]) := ys[0]], l + [ys[0]];
      assert forall i :: 0 <= i < |xs| - 1 ==> xs[1..][i] == xs[i + 1] && ys[1..][i] == ys[i + 1];
      forall y | y in ys[1..]
        ensures key(y) !in m'
      {
        var i :| 0 <= i < |ys[1..]| && ys[1..][i] == y;
        assert key(ys[0]) != key(ys[i + 1]);
      }
      TableBack(put, get, key, xs[1..], ys[1..], rest, m', l');
      assert l' + ys[1..] == l + ys;
      KeyedOnce(key, ys, m);
    }
  }

  lemma KeyedOnce<K, V>(key: V -> K, ys: seq<V>, m: map<K, V>)
    requires ys != [] && DistinctKeys(key, ys)
    ensures m[key(ys[0]) := ys[0]] + Keyed(key, ys[1..]) == m + Keyed(key, ys)
  {
    KeyedKeys(key, ys[1..], key(ys[0]));
  }

  lemma CountedBack<K, V>(put: (V, Bytes) -> Bytes, get: Bytes -> Parsed<V>, key: V -> K,
                          xs: seq<V>, ys: seq<V>, rest: Bytes)
    requires |xs| <= MAX_RECORDS && AllReadAs(put, get, xs, ys) && DistinctKeys(key, ys)
    ensures GetCounted(get, key, PutList(put, xs, rest), map[]) == Got((Keyed(key, ys), ys), rest)
  {
    hide PutUint, GetCount, PutAll, GetTable, AllReadAs, DistinctKeys, Keyed;
    CountBack(|xs|, PutAll(put, xs, rest));
    TableBack(put, get, key, xs, ys, rest, map[], []);
    assert map[] + Keyed(key, ys) == Keyed(key, ys) && [] + ys == ys;
  }

  /** A key that is already taken makes the whole table malformed. */
  lemma {:induction false} TableClash<K, V>(put: (V, Bytes) -> Bytes, get: Bytes -> Parsed<V>, key: V -> K,
                                            xs: seq<V>, ys: seq<V>, rest: Bytes, m: map<K, V>, l: seq<V>, i: nat)
    requires AllReadAs(put, get, xs, ys) && i < |ys| && key(ys[i]) in m
    ensures GetTable(get, key, |xs|, PutAll(put, xs, rest), m, l) == Bad(Malformed)
    decreases |xs|
  {
    assert ReadsAs(put, get, xs[0], ys[0]);
    if key(ys[0]) !in m {
      assert forall j :: 0 <= j < |xs| - 1 ==> xs[1..][j] == xs[j + 1] && ys[1..][j] == ys[j + 1];
      TableClash(put, get, key, xs[1..], ys[1..], rest, m[key(ys[0]) := ys[0]], l + [ys[0]], i - 1);
    }
  }

  /** A counted table read into a map that may already hold something. */
  lemma CountedInto<K, V>(put: (V, Bytes) -> Bytes, get: Bytes -> Parsed<V>, key: V -> K,
                          xs: seq<V>, ys: seq<V>, rest: Bytes, m: map<K, V>)
    requires |xs| <= MAX_RECORDS && AllReadAs(put, get, xs, ys) && DistinctKeys(key, ys)
    ensures GetCounted(get, key, PutList(put, xs, rest), m) ==
            if forall y <- ys :: key(y) !in m then Got((m + Keyed(key, ys), ys), rest) else Bad(Malformed)
  {
    hide PutUint, GetCount, PutAll, GetTable, AllReadAs, DistinctKeys, Keyed;
    CountBack(|xs|, PutAll(put, xs, rest));
    if forall y <- ys :: key(y) !in m {
      TableBack(put, get, key, xs, ys, rest, m, []);
      assert [] + ys == ys;
    } else {
      var i :| 0 <= i < |ys| && key(ys[i]) in m;
      TableClash(put, get, key, xs, ys, rest, m, [], i);
    }
  }

  // ----- Maps as sorted tables -----

  function ValuesAt<K, V>(m: map<K, V>, l: seq<K>): seq<V>
    requires forall k <- l :: k in m
  {
    seq(|l|, i requires 0 <= i < |l| => m[l[i]])
  }

  ghost predicate KeyedBy<K, V>(key: V -> K, m: map<K, V>)
  {
    forall k <- m :: key(m[k]) == k
  }

  /** A map keyed by its values' own keys is rebuilt from the values in listing order. */
  lemma KeyedValues<K(!new), V>(before: (K, K) -> bool, key: V -> K, m: map<K, V>, l: seq<K>)
    requires StrictTotal(before) && IsListing(before, m.Keys, l) && KeyedBy(key, m)
    ensures DistinctKeys(key, ValuesAt(m, l)) && Keyed(key, ValuesAt(m, l)) == m
  {
    var ys := ValuesAt(m, l);
    forall i | 0 <= i < |ys|
      ensures key(ys[i]) == l[i]
    {
      assert l[i] in l;
    }
    forall k
      ensures k in Keyed(key, ys) <==> k in m
    {
      KeyedKeys(key, ys, k);
      if k in m {
        var i :| 0 <= i < |l| && l[i] == k;
        assert key(ys[i]) == k;
      }
    }
    forall k | k in m
      ensures Keyed(key, ys)[k] == m[k]
    {
      var i :| 0 <= i < |l| && l[i] == k;
      KeyedAt(key, ys, i);
    }
  }

  lemma {:induction false} KeyedAt<K, V>(key: V -> K, ys: seq<V>, i: nat)
    requires DistinctKeys(key, ys) && i < |ys|
    ensures key(ys[i]) in Keyed(key, ys) && Keyed(key, ys)[key(ys[i])] == ys[i]
  {
    if i == 0 {
      KeyedKeys(key, ys[1..], key(ys[0]));
    } else {
      KeyedAt(key, ys[1..], i - 1);
    }
  }

  // ----- The body -----

  function FamilyKey(f: Family): Id { f.id }
  function RecordKey(r: Record): Id { r.descriptor.id }
  function BlobRecordKey(b: Blob): Id { b.id }
  function ReplicaKey(r: Replica): Id { r.id }
  function PlacementKey(p: Placement): Id { p.id }
  function PolicyKey(p: Policy): Id { p.id }
  function DedupKey(e: DedupEntry): Digest { e.digest }

  /** Dedup entries are ordered by the hexadecimal form of their digest. */
  predicate ByHex(a: Digest, b: Digest) { Lex(Hex(a), Hex(b)) }

  lemma ByHexTotal()
    ensures StrictTotal(ByHex)
  {
    hide Lex, Hex;
    forall a: Digest ensures !ByHex(a, a) { LexIrreflexive(Hex(a)); }
    forall a: Digest, b: Digest, c: Digest | ByHex(a, b) && ByHex(b, c) ensures ByHex(a, c) {
      LexTransitive(Hex(a), Hex(b), Hex(c));
    }
    forall a: Digest, b: Digest | a != b ensures ByHex(a, b) || ByHex(b, a) {
      if Hex(a) == Hex(b) {
        HexInjective(a, b);
      }
      LexConnected(Hex(a), Hex(b));
    }
  }

  /** What is written, in the order it is written. */
  datatype Image = Image(
    epoch: nat, bootId: Id, nextId: nat, counters: seq<nat>,
    families: seq<Family>, records: seq<Record>, blobs: seq<Blob>, replicas: seq<Replica>,
    placements: seq<Placement>, policies: seq<Policy>,
    gcEpoch: Id, gcGeneration: nat, gcPhase: Byte, gcMarked: nat, gcReclaimed: nat,
    entries: seq<DedupEntry>)

  function PutImage(i: Image): Bytes
  {
    PutId(i.epoch, PutId(i.bootId, PutId(i.nextId, PutAll(PutId, i.counters,
    PutList(PutFamily, i.families, PutList(PutRecord, i.records, PutList(PutBlob, i.blobs,
    PutList(PutReplica, i.replicas, PutList(PutPlacement, i.placements, PutList(PutPolicy, i.policies,
    PutId(i.gcEpoch, PutId(i.gcGeneration, PutU8(i.gcPhase, PutId(i.gcMarked, PutId(i.gcReclaimed,
    PutList(PutDedup, i.entries, []))))))))))))))))
  }

  /** What is read: every table as a map, and the family and checkpoint lists in file order. */
  datatype Tables = Tables(
    epoch: nat, bootId: Id, nextId: nat, counters: seq<nat>,
    families: (map<Id, Family>, seq<Family>), records: (map<Id, Record>, seq<Record>),
    blobs: (map<Id, Blob>, seq<Blob>), replicas: (map<Id, Replica>, seq<Replica>),
    placements: (map<Id, Placement>, seq<Placement>), policies: (map<Id, Policy>, seq<Policy>),
    gcEpoch: Id, gcGeneration: nat, gcPhase: Byte, gcMarked: nat, gcReclaimed: nat,
    entries: (map<Digest, DedupEntry>, seq<DedupEntry>))

  /** The dedup table is not cleared before a load: its entries are added to `known`. */
  function GetTables(b: Bytes, known: map<Digest, DedupEntry>): Parsed<Tables>
  {
    var (epoch, b) :- GetId(b);
    var (bootId, b) :- GetId(b);
    var (nextId, b) :- GetId(b);
    var (counters, b) :- GetMany(GetId, 7, b);
    var (families, b) :- GetCounted(GetFamily, FamilyKey, b, map[]);
    var (records, b) :- GetCounted(GetRecord, RecordKey, b, map[]);
    var (blobs, b) :- GetCounted(GetBlob, BlobRecordKey, b, map[]);
    var (replicas, b) :- GetCounted(GetReplica, ReplicaKey, b, map[]);
    var (placements, b) :- GetCounted(GetPlacement, PlacementKey, b, map[]);
    var (policies, b) :- GetCounted(GetPolicy, PolicyKey, b, map[]);
    var (gcEpoch, b) :- GetId(b);
    var (gcGeneration, b) :- GetId(b);
    var (gcPhase, b) :- GetU8(b);
    var (gcMarked, b) :- GetId(b);
    var (gcReclaimed, b) :- GetId(b);
    var (entries, b) :- GetCounted(GetDedup, DedupKey, b, known);
    Got(Tables(epoch, bootId, nextId, counters, families, records, blobs, replicas, placements, policies,
               gcEpoch, gcGeneration, gcPhase, gcMarked, gcReclaimed, entries), b)
  }

  /** Each table of the image fits its fields and names no key twice. */
  ghost predicate FitsImage(i: Image)
  {
    && FitsId(i.epoch) && FitsId(i.bootId) && FitsId(i.nextId)
    && |i.counters| == 7 && (forall c <- i.counters :: FitsId(c))
    && |i.families| <= MAX_RECORDS && (forall x <- i.families :: FitsFamily(x)) && DistinctKeys(FamilyKey, i.families)
    && |i.records| <= MAX_RECORDS && (forall x <- i.records :: FitsRecord(x)) && DistinctKeys(RecordKey, i.records)
    && |i.blobs| <= MAX_RECORDS && (forall x <- i.blobs :: FitsBlob(x)) && DistinctKeys(BlobRecordKey, i.blobs)
    && |i.replicas| <= MAX_RECORDS && (forall x <- i.replicas :: FitsReplica(x)) && DistinctKeys(ReplicaKey, i.replicas)
    && |i.placements| <= MAX_RECORDS && (forall x <- i.placements :: FitsPlacement(x))
    && DistinctKeys(PlacementKey, i.placements)
    && |i.policies| <= MAX_RECORDS && (forall x <- i.policies :: FitsPolicy(x)) && DistinctKeys(PolicyKey, i.policies)
    && FitsId(i.gcEpoch) && FitsId(i.gcGeneration) && FitsId(i.gcMarked) && FitsId(i.gcReclaimed)
    && |i.entries| <= MAX_RECORDS && (forall x <- i.entries :: FitsDedup(x)) && DistinctKeys(DedupKey, i.entries)
  }

  function ReloadedAll(rs: seq<Record>): seq<Record>
  {
    seq(|rs|, i requires 0 <= i < |rs| => Reloaded(rs[i]))
  }

  function ReloadedMap(m: map<Id, Record>): map<Id, Record>
  {
    map id | id in m :: Reloaded(m[id])
  }

  function TablesOf(i: Image): Tables
  {
    var records := ReloadedAll(i.records);
    Tables(i.epoch, i.bootId, i.nextId, i.counters,
           (Keyed(FamilyKey, i.families), i.families), (Keyed(RecordKey, records), records),
           (Keyed(BlobRecordKey, i.blobs), i.blobs), (Keyed(ReplicaKey, i.replicas), i.replicas),
           (Keyed(PlacementKey, i.placements), i.placements), (Keyed(PolicyKey, i.policies), i.policies),
           i.gcEpoch, i.gcGeneration, i.gcPhase, i.gcMarked, i.gcReclaimed,
           (Keyed(DedupKey, i.entries), i.entries))
  }

  // Each table reads back, whatever follows it.

  lemma FamiliesBack(xs: seq<Family>, rest: Bytes)
    requires |xs| <= MAX_RECORDS && (forall x <- xs :: FitsFamily(x)) && DistinctKeys(FamilyKey, xs)
    ensures GetCounted(GetFamily, FamilyKey, PutList(PutFamily, xs, rest), map[]) ==
            Got((Keyed(FamilyKey, xs), xs), rest)
  {
    hide PutFamily, GetFamily, FitsFamily, PutList, GetCounted, Keyed, DistinctKeys;
    forall x, rest: Bytes | x in xs ensures GetFamily(PutFamily(x, rest)) == Got(x, rest) { FamilyBack(x, rest); }
    CountedBack(PutFamily, GetFamily, FamilyKey, xs, xs, rest);
  }

  lemma RecordsBack(xs: seq<Record>, rest: Bytes)
    requires |xs| <= MAX_RECORDS && (forall x <- xs :: FitsRecord(x)) && DistinctKeys(RecordKey, xs)
    ensures var ys := ReloadedAll(xs);
      GetCounted(GetRecord, RecordKey, PutList(PutRecord, xs, rest), map[]) == Got((Keyed(RecordKey, ys), ys), rest)
  {
    hide PutRecord, GetRecord, FitsRecord, PutList, GetCounted, Keyed;
    var ys := ReloadedAll(xs);
    forall i, rest: Bytes | 0 <= i < |xs| ensures GetRecord(PutRecord(xs[i], rest)) == Got(ys[i], rest) {
      RecordBack(xs[i], rest);
    }
    CountedBack(PutRecord, GetRecord, RecordKey, xs, ys, rest);
  }

  lemma BlobsBack(xs: seq<Blob>, rest: Bytes)
    requires |xs| <= MAX_RECORDS && (forall x <- xs :: FitsBlob(x)) && DistinctKeys(BlobRecordKey, xs)
    ensures GetCounted(GetBlob, BlobRecordKey, PutList(PutBlob, xs, rest), map[]) ==
            Got((Keyed(BlobRecordKey, xs), xs), rest)
  {
    hide PutBlob, GetBlob, FitsBlob, PutList, GetCounted, Keyed, DistinctKeys;
    forall x, rest: Bytes | x in xs ensures GetBlob(PutBlob(x, rest)) == Got(x, rest) { BlobBack(x, rest); }
    CountedBack(PutBlob, GetBlob, BlobRecordKey, xs, xs, rest);
  }

  lemma ReplicasBack(xs: seq<Replica>, rest: Bytes)
    requires |xs| <= MAX_RECORDS && (forall x <- xs :: FitsReplica(x)) && DistinctKeys(ReplicaKey, xs)
    ensures GetCounted(GetReplica, ReplicaKey, PutList(PutReplica, xs, rest), map[]) ==
            Got((Keyed(ReplicaKey, xs), xs), rest)
  {
    hide PutReplica, GetReplica, FitsReplica, PutList, GetCounted, Keyed, DistinctKeys;
    forall x, rest: Bytes | x in xs ensures GetReplica(PutReplica(x, rest)) == Got(x, rest) { ReplicaBack(x, rest); }
    CountedBack(PutReplica, GetReplica, ReplicaKey, xs, xs, rest);
  }

  lemma PlacementsBack(xs: seq<Placement>, rest: Bytes)
    requires |xs| <= MAX_RECORDS && (forall x <- xs :: FitsPlacement(x)) && DistinctKeys(PlacementKey, xs)
    ensures GetCounted(GetPlacement, PlacementKey, PutList(PutPlacement, xs, rest), map[])
            == Got((Keyed(PlacementKey, xs), xs), rest)
  {
    hide PutPlacement, GetPlacement, FitsPlacement, PutList, GetCounted, Keyed, DistinctKeys;
    forall x, rest: Bytes | x in xs ensures GetPlacement(PutPlacement(x, rest)) == Got(x, rest) {
      PlacementBack(x, rest);
    }
    CountedBack(PutPlacement, GetPlacement, PlacementKey, xs, xs, rest);
  }

  lemma PoliciesBack(xs: seq<Policy>, rest: Bytes)
    requires |xs| <= MAX_RECORDS && (forall x <- xs :: FitsPolicy(x)) && DistinctKeys(PolicyKey, xs)
    ensures GetCounted(GetPolicy, PolicyKey, PutList(PutPolicy, xs, rest), map[]) ==
            Got((Keyed(PolicyKey, xs), xs), rest)
  {
    hide PutPolicy, GetPolicy, FitsPolicy, PutList, GetCounted, Keyed, DistinctKeys;
    forall x, rest: Bytes | x in xs ensures GetPolicy(PutPolicy(x, rest)) == Got(x, rest) { PolicyBack(x, rest); }
    CountedBack(PutPolicy, GetPolicy, PolicyKey, xs, xs, rest);
  }

  lemma EntriesTableBack(xs: seq<DedupEntry>, rest: Bytes, known: map<Digest, DedupEntry>)
    requires |xs| <= MAX_RECORDS && (forall x <- xs :: FitsDedup(x)) && DistinctKeys(DedupKey, xs)
    ensures GetCounted(GetDedup, DedupKey, PutList(PutDedup, xs, rest), known) ==
            if forall x <- xs :: DedupKey(x) !in known then Got((known + Keyed(DedupKey, xs), xs), rest)
            else Bad(Malformed)
  {
    hide PutDedup, GetDedup, FitsDedup, PutList, GetCounted, Keyed, DistinctKeys, DedupKey;
    forall x, rest: Bytes | x in xs ensures GetDedup(PutDedup(x, rest)) == Got(x, rest) { DedupBack(x, rest); }
    CountedInto(PutDedup, GetDedup, DedupKey, xs, xs, rest, known);
  }

  lemma CountersBack(xs: seq<nat>, rest: Bytes)
    requires |xs| == 7 && forall x <- xs :: FitsId(x)
    ensures GetMany(GetId, 7, PutAll(PutId, xs, rest)) == Got(xs, rest)
  {
    hide PutUint, GetUint, GetMany, PutAll;
    forall x <- xs ensures Cancels(PutId, GetId, x) { IdBack(x); }
    ManyBack(PutId, GetId, xs, rest);
  }

  /** The tables read into a store that already knows some entries. */
  function TablesInto(i: Image, known: map<Digest, DedupEntry>): Tables
  {
    TablesOf(i).(entries := (known + Keyed(DedupKey, i.entries), i.entries))
  }

  /**
   Reading an image back gives every table of it with nothing left over, its entries added to the
   known ones, unless one of them is known already.
   */
  lemma ImageInto(i: Image, known: map<Digest, DedupEntry>)
    requires FitsImage(i)
    ensures GetTables(PutImage(i), known) ==
            if forall x <- i.entries :: DedupKey(x) !in known then Got(TablesInto(i, known), []) else Bad(Malformed)
  {
    hide PutId, GetId, PutU8, GetU8, PutList, GetCounted, GetMany, PutAll, Keyed, DistinctKeys, ReloadedAll, FitsId,
         FitsFamily, FitsRecord, FitsBlob, FitsReplica, FitsPlacement, FitsPolicy, FitsDedup, DedupKey;
    FieldsBack();
    var b: Bytes := [];
    EntriesTableBack(i.entries, b, known);
    b := PutId(i.gcEpoch, PutId(i.gcGeneration, PutU8(i.gcPhase, PutId(i.gcMarked, PutId(i.gcReclaimed,
         PutList(PutDedup, i.entries, b))))));
    PoliciesBack(i.policies, b);
    b := PutList(PutPolicy, i.policies, b);
    PlacementsBack(i.placements, b);
    b := PutList(PutPlacement, i.placements, b);
    ReplicasBack(i.replicas, b);
    b := PutList(PutReplica, i.replicas, b);
    BlobsBack(i.blobs, b);
    b := PutList(PutBlob, i.blobs, b);
    RecordsBack(i.records, b);
    b := PutList(PutRecord, i.records, b);
    FamiliesBack(i.families, b);
    b := PutList(PutFamily, i.families, b);
    CountersBack(i.counters, b);
  }

  // ----- The frame around the body -----

  function Checksum(body: Bytes): nat { Crc32.Crc(body, 0) as int }

  function Frame(hash: Bytes -> Digest, body: Bytes): Bytes
  {
    MAGIC + LittleEndian(FORMAT_VERSION, 4) + LittleEndian(|body|, 4) + body
    + LittleEndian(Checksum(body), 4) + hash(body)
  }

  function Unframe(hash: Bytes -> Digest, raw: Bytes): Result<Bytes, Error>
  {
    if |raw| < 48 then Err(Truncated)
    else if raw[..4] != MAGIC then Err(BadMagic)
    else if Value(raw[4..8]) != FORMAT_VERSION then Err(UnsupportedVersion)
    else
      var n := Value(raw[8..12]);
      if n > MAX_BODY then Err(Malformed)
      else if |raw| < 48 + n then Err(Truncated)
      else if |raw| != 48 + n then Err(Malformed)
      else
        var body := raw[12..12 + n];
        if Checksum(body) != Value(raw[12 + n..16 + n]) then Err(ChecksumMismatch)
        else if hash(body) != raw[16 + n..48 + n] then Err(DigestMismatch)
        else Ok(body)
  }

  lemma ChecksumBound(body: Bytes)
    ensures Checksum(body) < 0x1_0000_0000
  {
    hide Crc32.Crc;
  }

  lemma FramePasses(hash: Bytes -> Digest, body: Bytes)
    requires |body| <= MAX_BODY
    ensures Unframe(hash, Frame(hash, body)) == Ok(body)
  {
    hide LittleEndian, Value, Checksum;
    var raw, n := Frame(hash, body), |body|;
    Widths();
    ValueOfLittleEndian(FORMAT_VERSION, 4);
    ValueOfLittleEndian(n, 4);
    ChecksumBound(body);
    ValueOfLittleEndian(Checksum(body), 4);
    assert raw[..4] == MAGIC;
    assert raw[4..8] == LittleEndian(FORMAT_VERSION, 4);
    assert raw[8..12] == LittleEndian(n, 4);
    assert raw[12..12 + n] == body;
    assert raw[12 + n..16 + n] == LittleEndian(Checksum(body), 4);
    assert raw[16 + n..48 + n] == hash(body);
  }

  /** A state file that passes the checks is, byte for byte, the frame of the body it yields. */
  lemma FrameUnframe(hash: Bytes -> Digest, raw: Bytes, body: Bytes)
    requires Unframe(hash, raw) == Ok(body)
    ensures raw == Frame(hash, body) && |body| <= MAX_BODY
  {
    hide LittleEndian, Value, Checksum;
    var n := |body|;
    LittleEndianOfValue(raw[4..8]);
    LittleEndianOfValue(raw[8..12]);
    LittleEndianOfValue(raw[12 + n..16 + n]);
    assert raw == raw[..4] + raw[4..8] + raw[8..12] + raw[12..12 + n] + raw[12 + n..16 + n] + raw[16 + n..48 + n];
  }

  /** The frame of a body passes all checks and yields the body, exactly for bodies within the limit. */
  lemma UnframeFrame(hash: Bytes -> Digest, body: Bytes)
    ensures Unframe(hash, Frame(hash, body)) == Ok(body) <==> |body| <= 0x8000_0000
  {
    hide Frame, Unframe;
    if |body| <= MAX_BODY {
      FramePasses(hash, body);
    } else if Unframe(hash, Frame(hash, body)) == Ok(body) {
      FrameUnframe(hash, Frame(hash, body), body);
    }
  }

  /** Why a file is refused before its body is looked at, by its bytes; otherwise it is the frame of its body. */
  lemma RefusedExactly(hash: Bytes -> Digest, raw: Bytes)
    ensures var r := Unframe(hash, raw);
      if |raw| < 48 then r == Err(Truncated)
      else if raw[..4] != [67, 80, 83, 84] then r == Err(BadMagic)
      else if Value(raw[4..8]) != 1 then r == Err(UnsupportedVersion)
      else
        var n := Value(raw[8..12]);
        if n > 0x8000_0000 then r == Err(Malformed)
        else if |raw| != 48 + n then r == Err(if |raw| < 48 + n then Truncated else Malformed)
        else if Crc32.Crc(raw[12..12 + n], 0) as int != Value(raw[12 + n..16 + n]) then r == Err(ChecksumMismatch)
        else if hash(raw[12..12 + n]) != raw[16 + n..] then r == Err(DigestMismatch)
        else r.Ok? && raw == Frame(hash, r.value)
  {
    hide LittleEndian, Value, Crc32.Crc, Frame;
    if |raw| >= 48 && |raw| == 48 + Value(raw[8..12]) {
      var n := Value(raw[8..12]);
      assert raw[16 + n..48 + n] == raw[16 + n..];
    }
    if Unframe(hash, raw).Ok? {
      FrameUnframe(hash, raw, Unframe(hash, raw).value);
    }
  }

  // ----- Generations -----

  /** Every loaded family starts at generation 1. */
  function StartFamilies(g: map<Id, nat>, fs: seq<Family>): map<Id, nat>
  {
    if fs == [] then g else StartFamilies(g, fs[..|fs| - 1])[fs[|fs| - 1].id := 1]
  }

  /** Every loaded checkpoint raises its family's generation to its own. */
  function RaiseBy(g: map<Id, nat>, rs: seq<Record>): map<Id, nat>
  {
    if rs == [] then g
    else
      var h, d := RaiseBy(g, rs[..|rs| - 1]), rs[|rs| - 1].descriptor;
      var now := if d.familyId in h then h[d.familyId] else 1;
      h[d.familyId := if now < d.generation then d.generation else now]
  }

  function NextAll(g: map<Id, nat>): map<Id, nat>
  {
    map f | f in g :: g[f] + 1
  }

  // ----- Save and load -----

  ghost function ImageOf(s: State): Image
  {
    ByIdTotal();
    ByHexTotal();
    ListingLists(ById, s.families.Keys);
    ListingLists(ById, s.checkpoints.Keys);
    ListingLists(ById, s.blobs.Keys);
    ListingLists(ById, s.replicas.Keys);
    ListingLists(ById, s.placements.Keys);
    ListingLists(ById, s.retention.Keys);
    ListingLists(ByHex, s.storage.dedup.Keys);
    Image(s.epoch, s.bootId, s.nextId, s.counters,
          ValuesAt(s.families, Listing(ById, s.families.Keys)),
          ValuesAt(s.checkpoints, Listing(ById, s.checkpoints.Keys)),
          ValuesAt(s.blobs, Listing(ById, s.blobs.Keys)),
          ValuesAt(s.replicas, Listing(ById, s.replicas.Keys)),
          ValuesAt(s.placements, Listing(ById, s.placements.Keys)),
          ValuesAt(s.retention, Listing(ById, s.retention.Keys)),
          s.gc.epoch, s.gc.generation, s.gc.phase, s.gc.markedBytes, s.gc.reclaimedBytes,
          ValuesAt(s.storage.dedup, Listing(ByHex, s.storage.dedup.Keys)))
  }

  /** The bytes save_state writes. */
  ghost function Save(s: State): Bytes { Frame(s.cfg.hash, PutImage(ImageOf(s))) }

  /** The state of a store s0 after it has taken over the tables of a state file. */
  function Adopt(s0: State, t: Tables): State
  {
    s0.(epoch := t.epoch, bootId := t.bootId, nextId := t.nextId, counters := t.counters,
        families := t.families.0, checkpoints := t.records.0, blobs := t.blobs.0, replicas := t.replicas.0,
        placements := t.placements.0, retention := t.policies.0,
        nextGeneration := NextAll(RaiseBy(StartFamilies(s0.nextGeneration, t.families.1), t.records.1)),
        gc := GcState(t.gcEpoch, t.gcGeneration, t.gcPhase, {}, [], t.gcMarked, t.gcReclaimed, FRESH_UNKNOWN),
        storage := s0.storage.(dedup := t.entries.0))
  }

  /** load_state into a store s0: the new state, or the reason the file is refused. */
  function Load(s0: State, raw: Bytes): Result<State, Error>
  {
    match Unframe(s0.cfg.hash, raw)
    case Err(e) => Err(e)
    case Ok(body) =>
      match GetTables(body, s0.storage.dedup)
      case Bad(e) => Err(e)
      case Got(t, rest) => if rest != [] then Err(Malformed) else Ok(Adopt(s0, t))
  }

  /** Records sit under their own identities. */
  ghost predicate KeysMatch(s: State)
  {
    && KeyedBy(FamilyKey, s.families) && KeyedBy(RecordKey, s.checkpoints) && KeyedBy(BlobRecordKey, s.blobs)
    && KeyedBy(ReplicaKey, s.replicas) && KeyedBy(PlacementKey, s.placements) && KeyedBy(PolicyKey, s.retention)
    && KeyedBy(DedupKey, s.storage.dedup)
  }

  /** The state is within the bounds of the format. */
  ghost predicate InBounds(s: State)
  {
    KeysMatch(s) && FitsImage(ImageOf(s)) && |PutImage(ImageOf(s))| <= MAX_BODY
  }

  /** What a fresh store s0 recovers of a saved state s. */
  ghost function Recovered(s0: State, s: State): State
  {
    s0.(epoch := s.epoch, bootId := s.bootId, nextId := s.nextId, counters := s.counters,
        families := s.families,
        checkpoints := ReloadedMap(s.checkpoints),
        blobs := s.blobs, replicas := s.replicas, placements := s.placements, retention := s.retention,
        nextGeneration := NextAll(RaiseBy(StartFamilies(map[], ImageOf(s).families), ReloadedAll(ImageOf(s).records))),
        gc := GcState(s.gc.epoch, s.gc.generation, s.gc.phase, {}, [], s.gc.markedBytes, s.gc.reclaimedBytes,
                      FRESH_UNKNOWN),
        storage := s0.storage.(dedup := s.storage.dedup))
  }

  /** A store nothing has been done to yet. */
  ghost predicate Fresh(s0: State)
  {
    s0.storage.dedup == map[] && s0.nextGeneration == map[]
  }

  lemma ReloadedKeys(m: map<Id, Record>, l: seq<Id>)
    requires KeyedBy(RecordKey, m) && IsListing(ById, m.Keys, l)
    ensures var n := ReloadedMap(m);
      && KeyedBy(RecordKey, n) && (forall k <- l :: k in m) && (forall k <- l :: k in n)
      && ReloadedAll(ValuesAt(m, l)) == ValuesAt(n, l)
  {
    var n := ReloadedMap(m);
    assert n.Keys == m.Keys;
  }

  lemma TablesOfState(s: State)
    requires KeysMatch(s)
    ensures var t := TablesOf(ImageOf(s));
      && t.families.0 == s.families && t.blobs.0 == s.blobs && t.replicas.0 == s.replicas
      && t.placements.0 == s.placements && t.policies.0 == s.retention && t.entries.0 == s.storage.dedup
      && t.records.0 == ReloadedMap(s.checkpoints)
  {
    hide Keyed, DistinctKeys, ReloadedAll, Listing, StrictTotal, IsListing, KeyedBy, Reloaded;
    ByIdTotal();
    ByHexTotal();
    ListingLists(ById, s.families.Keys);
    KeyedValues(ById, FamilyKey, s.families, Listing(ById, s.families.Keys));
    ListingLists(ById, s.blobs.Keys);
    KeyedValues(ById, BlobRecordKey, s.blobs, Listing(ById, s.blobs.Keys));
    ListingLists(ById, s.replicas.Keys);
    KeyedValues(ById, ReplicaKey, s.replicas, Listing(ById, s.replicas.Keys));
    ListingLists(ById, s.placements.Keys);
    KeyedValues(ById, PlacementKey, s.placements, Listing(ById, s.placements.Keys));
    ListingLists(ById, s.retention.Keys);
    KeyedValues(ById, PolicyKey, s.retention, Listing(ById, s.retention.Keys));
    ListingLists(ByHex, s.storage.dedup.Keys);
    KeyedValues(ByHex, DedupKey, s.storage.dedup, Listing(ByHex, s.storage.dedup.Keys));
    RecordsOfState(s);
  }

  lemma RecordsOfState(s: State)
    requires KeyedBy(RecordKey, s.checkpoints)
    ensures Keyed(RecordKey, ReloadedAll(ImageOf(s).records)) == ReloadedMap(s.checkpoints)
  {
    hide Keyed, DistinctKeys, ReloadedAll, Listing, StrictTotal, Reloaded;
    ByIdTotal();
    ListingLists(ById, s.checkpoints.Keys);
    var l, n := Listing(ById, s.checkpoints.Keys), ReloadedMap(s.checkpoints);
    ReloadedKeys(s.checkpoints, l);
    assert n.Keys == s.checkpoints.Keys;
    KeyedValues(ById, RecordKey, n, l);
  }

  /** What a store s0 that is not fresh makes of a saved state: old entries and counters shine through. */
  ghost function RecoveredInto(s0: State, s: State): State
  {
    Recovered(s0, s).(
      nextGeneration := NextAll(RaiseBy(StartFamilies(s0.nextGeneration, ImageOf(s).families),
                                        ReloadedAll(ImageOf(s).records))),
      storage := s0.storage.(dedup := s0.storage.dedup + s.storage.dedup))
  }

  /**
   Loading what was saved succeeds exactly when the store knows none of the saved digests, whatever
   else it holds: the deduplication table is not cleared first.
   */
  lemma LoadExactly(s0: State, s: State)
    requires InBounds(s) && s0.cfg.hash == s.cfg.hash
    ensures Load(s0, Save(s)) ==
            if s0.storage.dedup.Keys !! s.storage.dedup.Keys then Ok(RecoveredInto(s0, s)) else Err(Malformed)
  {
    hide PutImage, GetTables, ImageOf, TablesOf, Frame, Unframe, FitsImage, KeysMatch, RaiseBy, StartFamilies,
         NextAll, Keyed;
    var i, known := ImageOf(s), s0.storage.dedup;
    UnframeFrame(s.cfg.hash, PutImage(i));
    ImageInto(i, known);
    TablesOfState(s);
    ImageFields(s);
    EntriesAre(i, s.storage.dedup);
    assert (forall x <- i.entries :: DedupKey(x) !in known) <==> known.Keys !! s.storage.dedup.Keys;
  }

  lemma EntriesAre(i: Image, t: map<Digest, DedupEntry>)
    requires TablesOf(i).entries.0 == t
    ensures Keyed(DedupKey, i.entries) == t
    ensures forall d :: d in t <==> exists x :: x in i.entries && DedupKey(x) == d
  {
    hide ReloadedAll;
    forall d ensures d in t <==> exists x :: x in i.entries && DedupKey(x) == d {
      KeyedKeys(DedupKey, i.entries, d);
      if d in t {
        var k :| 0 <= k < |i.entries| && DedupKey(i.entries[k]) == d;
        assert i.entries[k] in i.entries;
      }
    }
  }

  /** Loading what was saved into a fresh store recovers every persisted record. */
  lemma LoadSave(s0: State, s: State)
    requires Fresh(s0) && InBounds(s) && s0.cfg.hash == s.cfg.hash
    ensures Load(s0, Save(s)) == Ok(Recovered(s0, s))
  {
    hide Load, Save, InBounds, ImageOf, RaiseBy, StartFamilies, NextAll;
    LoadExactly(s0, s);
    assert s0.storage.dedup + s.storage.dedup == s.storage.dedup;
  }

  /** A store that holds any entry refuses the file it has just written. */
  lemma NoReloadInPlace(s: State)
    requires InBounds(s)
    ensures Load(s, Save(s)).Ok? <==> s.storage.dedup == map[]
  {
    hide Load, Save, InBounds, RecoveredInto;
    LoadExactly(s, s);
    if s.storage.dedup != map[] {
      var d :| d in s.storage.dedup;
      assert d in s.storage.dedup.Keys;
    }
  }

  lemma ImageFields(s: State)
    ensures var i, t := ImageOf(s), TablesOf(ImageOf(s));
      && i.epoch == s.epoch && i.bootId == s.bootId && i.nextId == s.nextId && i.counters == s.counters
      && i.gcEpoch == s.gc.epoch && i.gcGeneration == s.gc.generation && i.gcPhase == s.gc.phase
      && i.gcMarked == s.gc.markedBytes && i.gcReclaimed == s.gc.reclaimedBytes
      && t.epoch == i.epoch && t.bootId == i.bootId && t.nextId == i.nextId && t.counters == i.counters
      && t.gcEpoch == i.gcEpoch && t.gcGeneration == i.gcGeneration && t.gcPhase == i.gcPhase
      && t.gcMarked == i.gcMarked && t.gcReclaimed == i.gcReclaimed
      && t.families.1 == i.families && t.records.1 == ReloadedAll(i.records)
  {
    hide Keyed, ReloadedAll, Listing, ValuesAt;
  }

  // ----- The bytes are canonical -----

  lemma MillisAgain(t: int)
    ensures Millis(WholeMillis(t)) == Millis(t)
  {
  }

  /** A time that survives saving unchanged is one in whole milliseconds. */
  lemma WholeTimesSurvive(t: int)
    ensures WholeMillis(t) == t <==> t % 1_000_000 == 0
  {
    if t < 0 {
      assert -t == 1_000_000 * ((-t) / 1_000_000) + (-t) % 1_000_000;
      assert t == 1_000_000 * (t / 1_000_000) + t % 1_000_000;
    }
  }

  lemma PutReloaded(r: Record, rest: Bytes)
    ensures PutRecord(Reloaded(r), rest) == PutRecord(r, rest)
  {
    hide PutManifest, PutChunk, PutReplicaSet, PutU8, PutList, PutId, PutOption, PutBytes, Millis, WholeMillis;
    MillisAgain(r.descriptor.createdAt);
  }

  lemma {:induction false} PutAllReloaded(rs: seq<Record>, rest: Bytes)
    ensures PutAll(PutRecord, ReloadedAll(rs), rest) == PutAll(PutRecord, rs, rest)
  {
    hide PutRecord, Reloaded;
    if rs != [] {
      assert ReloadedAll(rs)[1..] == ReloadedAll(rs[1..]);
      PutAllReloaded(rs[1..], rest);
      PutReloaded(rs[0], PutAll(PutRecord, rs[1..], rest));
    }
  }

  /** Saving a recovered store writes the same bytes again. */
  lemma SaveAgain(s0: State, s: State)
    requires KeysMatch(s) && s0.cfg.hash == s.cfg.hash
    ensures Save(Recovered(s0, s)) == Save(s)
  {
    hide PutUint, PutAll, Frame, PutId, PutU8, PutRecord, PutFamily, PutBlob, PutReplica, PutPlacement, PutPolicy,
         PutDedup;
    var t := Recovered(s0, s);
    var i, j := ImageOf(s), ImageOf(t);
    SameImage(s0, s);
    forall rest: Bytes
      ensures PutList(PutRecord, j.records, rest) == PutList(PutRecord, i.records, rest)
    {
      PutAllReloaded(i.records, rest);
    }
  }

  lemma SameImage(s0: State, s: State)
    requires KeysMatch(s)
    ensures ImageOf(Recovered(s0, s)) == ImageOf(s).(records := ReloadedAll(ImageOf(s).records))
  {
    hide Listing, Reloaded, NextAll, RaiseBy, StartFamilies;
    ByIdTotal();
    ListingLists(ById, s.checkpoints.Keys);
    ReloadedKeys(s.checkpoints, Listing(ById, s.checkpoints.Keys));
    assert ReloadedMap(s.checkpoints).Keys == s.checkpoints.Keys;
  }

  /** save_state walks each map in whatever order it comes, sorts, and always writes the same bytes. */
  method SaveState(s: State) returns (raw: Bytes)
    ensures raw == Save(s)
  {
    hide PutImage, Frame, Listing;
    ByIdTotal();
    ByHexTotal();
    ListingLists(ById, s.families.Keys);
    var fams := SortKeys(ById, s.families.Keys);
    ListingLists(ById, s.checkpoints.Keys);
    var cps := SortKeys(ById, s.checkpoints.Keys);
    ListingLists(ById, s.blobs.Keys);
    var blobs := SortKeys(ById, s.blobs.Keys);
    ListingLists(ById, s.replicas.Keys);
    var reps := SortKeys(ById, s.replicas.Keys);
    ListingLists(ById, s.placements.Keys);
    var pls := SortKeys(ById, s.placements.Keys);
    ListingLists(ById, s.retention.Keys);
    var rets := SortKeys(ById, s.retention.Keys);
    ListingLists(ByHex, s.storage.dedup.Keys);
    var dd := SortKeys(ByHex, s.storage.dedup.Keys);
    var image := Image(s.epoch, s.bootId, s.nextId, s.counters,
                       ValuesAt(s.families, fams), ValuesAt(s.checkpoints, cps), ValuesAt(s.blobs, blobs),
                       ValuesAt(s.replicas, reps), ValuesAt(s.placements, pls), ValuesAt(s.retention, rets),
                       s.gc.epoch, s.gc.generation, s.gc.phase, s.gc.markedBytes, s.gc.reclaimedBytes,
                       ValuesAt(s.storage.dedup, dd));
    raw := Frame(s.cfg.hash, PutImage(image));
  }

  // ----- Generations after a load -----

  /** The larger of a starting point and the generations of a family's checkpoints. */
  ghost predicate Highest(cps: map<Id, Record>, family: Id, start: nat, g: nat)
  {
    && g >= start
    && (forall id :: id in cps && cps[id].descriptor.familyId == family ==> cps[id].descriptor.generation <= g)
    && (g == start
        || exists id :: id in cps && cps[id].descriptor.familyId == family && cps[id].descriptor.generation == g)
  }

  ghost predicate HighestOf(rs: seq<Record>, family: Id, start: nat, g: nat)
  {
    && g >= start
    && (forall i :: 0 <= i < |rs| && rs[i].descriptor.familyId == family ==> rs[i].descriptor.generation <= g)
    && (g == start
        || exists i :: 0 <= i < |rs| && rs[i].descriptor.familyId == family && rs[i].descriptor.generation == g)
  }

  /** Raising leaves every family at the highest of where it started and its checkpoints' generations. */
  lemma {:induction false} RaisedExactly(g: map<Id, nat>, rs: seq<Record>, f: Id)
    ensures f in RaiseBy(g, rs) <==> f in g || exists i :: 0 <= i < |rs| && rs[i].descriptor.familyId == f
    ensures f in RaiseBy(g, rs) ==> HighestOf(rs, f, if f in g then g[f] else 1, RaiseBy(g, rs)[f])
  {
    if rs != [] {
      var n := |rs| - 1;
      var h := RaiseBy(g, rs[..n]);
      RaisedExactly(g, rs[..n], f);
      if i :| 0 <= i < n && rs[..n][i].descriptor.familyId == f {
        assert rs[i].descriptor.familyId == f;
      }
      assert forall i :: 0 <= i < n ==> rs[..n][i] == rs[i];
      if f in h && h[f] != (if f in g then g[f] else 1) {
        var i :| 0 <= i < n && rs[..n][i].descriptor.familyId == f && rs[..n][i].descriptor.generation == h[f];
        assert rs[i].descriptor.familyId == f && rs[i].descriptor.generation == h[f];
      }
      if rs[n].descriptor.familyId == f {
        assert rs[n].descriptor.generation <= RaiseBy(g, rs)[f];
      }
    }
  }

  lemma {:induction false} StartedExactly(g: map<Id, nat>, fs: seq<Family>, f: Id)
    ensures var h := StartFamilies(g, fs);
      if exists i :: 0 <= i < |fs| && fs[i].id == f then f in h && h[f] == 1
      else (f in h <==> f in g) && (f in g ==> h[f] == g[f])
  {
    if fs != [] {
      StartedExactly(g, fs[..|fs| - 1], f);
    }
  }

  /** Where a load starts a family's counter: at 1 if it is in the file, else where the store had it. */
  function StartOf(s0: State, s: State, f: Id): nat
  {
    if f in s.families then 1 else if f in s0.nextGeneration then s0.nextGeneration[f] else 1
  }

  /**
   After a load a family's next generation is exactly one past the highest of its starting point
   and its saved checkpoints; families that are in the store and not in the file move up by one.
   */
  lemma NextExactly(s0: State, s: State, f: Id)
    requires KeyedBy(FamilyKey, s.families)
    ensures var next := RecoveredInto(s0, s).nextGeneration;
      && (f in next <==> f in s.families || f in s0.nextGeneration
                         || exists id :: id in s.checkpoints && s.checkpoints[id].descriptor.familyId == f)
      && (f in next ==> next[f] >= 1 && Highest(s.checkpoints, f, StartOf(s0, s, f), next[f] - 1))
  {
    hide ImageOf, RaiseBy, StartFamilies, ReloadedAll, ReloadedMap, HighestOf, Highest;
    var i, rs := ImageOf(s), ReloadedAll(ImageOf(s).records);
    var g := StartFamilies(s0.nextGeneration, i.families);
    FamilyListed(s, f);
    StartedExactly(s0.nextGeneration, i.families, f);
    RaisedExactly(g, rs, f);
    MemberListed(s, f);
    if f in RaiseBy(g, rs) {
      HighestListed(s, f, StartOf(s0, s, f), RaiseBy(g, rs)[f]);
    }
  }

  lemma FamilyListed(s: State, f: Id)
    requires KeyedBy(FamilyKey, s.families)
    ensures f in s.families <==> exists k :: 0 <= k < |ImageOf(s).families| && ImageOf(s).families[k].id == f
  {
    hide Listing;
    ByIdTotal();
    ListingLists(ById, s.families.Keys);
    var l := Listing(ById, s.families.Keys);
    if f in s.families {
      var k :| 0 <= k < |l| && l[k] == f;
      assert ImageOf(s).families[k].id == f;
    }
    if k :| 0 <= k < |ImageOf(s).families| && ImageOf(s).families[k].id == f {
      assert l[k] in s.families;
    }
  }

  /** The saved records are the store's, in some order, with nothing changed that a counter looks at. */
  ghost predicate Lists(cps: map<Id, Record>, l: seq<Id>, rs: seq<Record>)
  {
    && |l| == |rs| && (forall id :: id in cps <==> id in l)
    && forall k :: 0 <= k < |l| ==> SameFamily(cps, l[k], rs[k])
  }

  ghost predicate SameFamily(cps: map<Id, Record>, id: Id, q: Record)
  {
    id in cps && cps[id].descriptor.familyId == q.descriptor.familyId
      && cps[id].descriptor.generation == q.descriptor.generation
  }

  lemma RecordsListed(s: State) returns (l: seq<Id>)
    ensures Lists(s.checkpoints, l, ReloadedAll(ImageOf(s).records))
  {
    hide Listing, WholeMillis;
    ByIdTotal();
    ListingLists(ById, s.checkpoints.Keys);
    l := Listing(ById, s.checkpoints.Keys);
    var rs := ReloadedAll(ImageOf(s).records);
    forall k | 0 <= k < |l| ensures SameFamily(s.checkpoints, l[k], rs[k]) {
      assert l[k] in s.checkpoints;
    }
  }

  lemma MemberListed(s: State, f: Id)
    ensures (exists id :: id in s.checkpoints && s.checkpoints[id].descriptor.familyId == f) <==>
            var rs := ReloadedAll(ImageOf(s).records); exists k :: 0 <= k < |rs| && rs[k].descriptor.familyId == f
  {
    hide ImageOf, ReloadedAll;
    var l := RecordsListed(s);
    var rs := ReloadedAll(ImageOf(s).records);
    if id :| id in s.checkpoints && s.checkpoints[id].descriptor.familyId == f {
      var k :| 0 <= k < |l| && l[k] == id;
      assert SameFamily(s.checkpoints, l[k], rs[k]);
    }
    if k :| 0 <= k < |rs| && rs[k].descriptor.familyId == f {
      assert SameFamily(s.checkpoints, l[k], rs[k]);
    }
  }

  lemma HighestListed(s: State, f: Id, start: nat, g: nat)
    requires HighestOf(ReloadedAll(ImageOf(s).records), f, start, g)
    ensures Highest(s.checkpoints, f, start, g)
  {
    hide ImageOf, ReloadedAll;
    var l := RecordsListed(s);
    var rs := ReloadedAll(ImageOf(s).records);
    forall id | id in s.checkpoints && s.checkpoints[id].descriptor.familyId == f
      ensures s.checkpoints[id].descriptor.generation <= g
    {
      var k :| 0 <= k < |l| && l[k] == id;
      assert SameFamily(s.checkpoints, l[k], rs[k]);
    }
    if g != start {
      var k :| 0 <= k < |rs| && rs[k].descriptor.familyId == f && rs[k].descriptor.generation == g;
      assert SameFamily(s.checkpoints, l[k], rs[k]);
    }
  }

  /** A recovered store continues every family exactly one past its highest generation, an empty one at 2. */
  lemma GenerationsRecovered(s0: State, s: State, f: Id)
    requires KeyedBy(FamilyKey, s.families)
    ensures var next := Recovered(s0, s).nextGeneration;
      && (f in next <==>
            f in s.families || exists id :: id in s.checkpoints && s.checkpoints[id].descriptor.familyId == f)
      && (f in next ==> next[f] >= 2 && Highest(s.checkpoints, f, 1, next[f] - 1))
  {
    hide RaiseBy, StartFamilies, NextAll, ImageOf, ReloadedMap, ReloadedAll, Highest;
    var fresh0 := s0.(nextGeneration := map[]);
    NextExactly(fresh0, s, f);
    assert RecoveredInto(fresh0, s).nextGeneration == Recovered(s0, s).nextGeneration;
    if f in Recovered(s0, s).nextGeneration {
      HighestStart(s.checkpoints, f, 1, Recovered(s0, s).nextGeneration[f] - 1);
    }
  }

  lemma HighestStart(cps: map<Id, Record>, f: Id, start: nat, g: nat)
    requires Highest(cps, f, start, g)
    ensures g >= start
  {
  }
}

/** The write/read pairs of src/persistence.cpp, record by record, in the order of their fields. */
module RecordCodec {
  import opened Basics
  import opened Model
  import opened Codec

  function PutEntry(e: ManifestEntry, rest: Bytes): Bytes
  {
    PutId(e.chunkId, PutId(e.logicalOffset, rest))
  }

  function GetEntry(b: Bytes): Parsed<ManifestEntry>
  {
    var (chunkId, b) :- GetId(b);
    var (logicalOffset, b) :- GetId(b);
    Got(ManifestEntry(chunkId, logicalOffset), b)
  }

  predicate FitsEntries(es: seq<ManifestEntry>)
  {
    |es| <= MAX_RECORDS && forall e <- es :: FitsId(e.chunkId) && FitsId(e.logicalOffset)
  }

  lemma EntriesBack(es: seq<ManifestEntry>, rest: Bytes)
    requires FitsEntries(es)
    ensures GetList(GetEntry, PutList(PutEntry, es, rest)) == Got(es, rest)
  {
    hide PutUint, GetUint, PutList, GetList;
    forall e <- es
      ensures Cancels(PutEntry, GetEntry, e)
    {
      forall rest: Bytes
        ensures GetEntry(PutEntry(e, rest)) == Got(e, rest)
      {
        U64Back(e.logicalOffset, rest);
        U64Back(e.chunkId, PutId(e.logicalOffset, rest));
      }
    }
    ListBack(PutEntry, GetEntry, es, rest);
  }

  // ----- Descriptor -----

  function PutDescriptor(d: Descriptor, rest: Bytes): Bytes
  {
    PutId(d.id, PutId(d.familyId, PutId(d.generation, PutU8(d.kind, PutId(d.logicalSize,
    PutId(Unsigned(Millis(d.createdAt)), PutId(d.ownerId, PutId(d.producerBoot, PutId(d.producerGeneration,
    PutOption(d.parent, PutOption(d.base, PutList(PutId, d.lineage, PutList(PutId, d.references,
    PutBytes(d.compatibility, PutU8(d.retention, PutU8(d.durability, PutU8(d.restorePriority,
    PutU8(d.provenance, PutId(d.policyGeneration, PutId(d.requiredReplicaCount, rest))))))))))))))))))))
  }

  function GetDescriptor(b: Bytes): Parsed<Descriptor>
  {
    var (id, b) :- GetId(b);
    var (familyId, b) :- GetId(b);
    var (generation, b) :- GetId(b);
    var (kind, b) :- GetU8(b);
    var (logicalSize, b) :- GetId(b);
    var (createdAt, b) :- GetId(b);
    var (ownerId, b) :- GetId(b);
    var (producerBoot, b) :- GetId(b);
    var (producerGeneration, b) :- GetId(b);
    var (parent, b) :- GetOption(b);
    var (base, b) :- GetOption(b);
    var (lineage, b) :- GetList(GetId, b);
    var (references, b) :- GetList(GetId, b);
    var (compatibility, b) :- GetBytes(b);
    var (retention, b) :- GetU8(b);
    var (durability, b) :- GetU8(b);
    var (restorePriority, b) :- GetU8(b);
    var (provenance, b) :- GetU8(b);
    var (policyGeneration, b) :- GetId(b);
    var (requiredReplicaCount, b) :- GetId(b);
    Got(Descriptor(id, familyId, generation, kind, logicalSize, Signed(createdAt) * 1_000_000, ownerId,
          producerBoot, producerGeneration, parent, base, lineage, references, compatibility, retention,
          durability, restorePriority, provenance, policyGeneration, requiredReplicaCount), b)
  }

  predicate FitsDescriptor(d: Descriptor)
  {
    && FitsId(d.id) && FitsId(d.familyId) && FitsId(d.generation) && FitsId(d.logicalSize)
    && FitsSigned(Millis(d.createdAt)) && FitsId(d.ownerId) && FitsId(d.producerBoot)
    && FitsId(d.producerGeneration) && FitsOption(d.parent) && FitsOption(d.base) && FitsIds(d.lineage)
    && FitsIds(d.references) && FitsId(|d.compatibility|) && FitsId(d.policyGeneration)
    && FitsId(d.requiredReplicaCount)
  }

  lemma DescriptorBack(d: Descriptor, rest: Bytes)
    requires FitsDescriptor(d)
    ensures GetDescriptor(PutDescriptor(d, rest)) == Got(d.(createdAt := WholeMillis(d.createdAt)), rest)
  {
    hide PutId, GetId, PutU8, GetU8, PutBool, GetBool, PutFixed, GetDigest, PutBytes, GetBytes, PutOption, GetOption,
         PutList, GetList, Unsigned, Signed, FitsId, FitsIds, FitsOption;
    FieldsBack();
  }

  // ----- Manifest -----

  function PutManifest(m: Manifest, rest: Bytes): Bytes
  {
    PutId(m.id, PutId(m.generation, PutId(m.checkpointId, PutId(m.checkpointGeneration,
    PutList(PutEntry, m.chunks, PutId(m.logicalSize, PutFixed(m.checkpointDigest, PutList(PutId, m.lineage,
    PutOption(m.parent, PutOption(m.base, PutU8(m.provenance, PutU8(m.durability, PutId(m.requiredReplicaCount,
    PutFixed(m.semanticDigest, rest))))))))))))))
  }

  function GetManifest(b: Bytes): Parsed<Manifest>
  {
    var (id, b) :- GetId(b);
    var (generation, b) :- GetId(b);
    var (checkpointId, b) :- GetId(b);
    var (checkpointGeneration, b) :- GetId(b);
    var (chunks, b) :- GetList(GetEntry, b);
    var (logicalSize, b) :- GetId(b);
    var (checkpointDigest, b) :- GetDigest(b);
    var (lineage, b) :- GetList(GetId, b);
    var (parent, b) :- GetOption(b);
    var (base, b) :- GetOption(b);
    var (provenance, b) :- GetU8(b);
    var (durability, b) :- GetU8(b);
    var (requiredReplicaCount, b) :- GetId(b);
    var (semanticDigest, b) :- GetDigest(b);
    Got(Manifest(id, generation, checkpointId, checkpointGeneration, chunks, logicalSize, checkpointDigest,
          lineage, parent, base, provenance, durability, requiredReplicaCount, semanticDigest), b)
  }

  predicate FitsManifest(m: Manifest)
  {
    && FitsId(m.id) && FitsId(m.generation) && FitsId(m.checkpointId) && FitsId(m.checkpointGeneration)
    && FitsEntries(m.chunks) && FitsId(m.logicalSize) && FitsIds(m.lineage) && FitsOption(m.parent)
    && FitsOption(m.base) && FitsId(m.requiredReplicaCount)
  }

  lemma ManifestBack(m: Manifest, rest: Bytes)
    requires FitsManifest(m)
    ensures GetManifest(PutManifest(m, rest)) == Got(m, rest)
  {
    hide PutId, GetId, PutU8, GetU8, PutBool, GetBool, PutFixed, GetDigest, PutBytes, GetBytes, PutOption, GetOption,
         PutList, GetList, Unsigned, Signed, FitsId, FitsIds, FitsOption;
    forall b: Bytes
      ensures GetList(GetEntry, PutList(PutEntry, m.chunks, b)) == Got(m.chunks, b)
    {
      EntriesBack(m.chunks, b);
    }
    FieldsBack();
  }

  // ----- Chunk -----

  function PutChunk(c: Chunk, rest: Bytes): Bytes
  {
    PutId(c.id, PutId(c.generation, PutId(c.logicalOffset, PutId(c.logicalSize, PutId(c.physicalSize,
    PutFixed(c.digest, PutId(c.blobId, PutList(PutId, c.placements, PutId(c.refcount, PutU8(c.provenance,
    PutU8(c.integrity, PutBool(c.compressed, PutBytes(c.payloadEncoding, rest)))))))))))))
  }

  function GetChunk(b: Bytes): Parsed<Chunk>
  {
    var (id, b) :- GetId(b);
    var (generation, b) :- GetId(b);
    var (logicalOffset, b) :- GetId(b);
    var (logicalSize, b) :- GetId(b);
    var (physicalSize, b) :- GetId(b);
    var (digest, b) :- GetDigest(b);
    var (blobId, b) :- GetId(b);
    var (placements, b) :- GetList(GetId, b);
    var (refcount, b) :- GetId(b);
    var (provenance, b) :- GetU8(b);
    var (integrity, b) :- GetU8(b);
    var (compressed, b) :- GetBool(b);
    var (payloadEncoding, b) :- GetBytes(b);
    Got(Chunk(id, generation, logicalOffset, logicalSize, physicalSize, digest, blobId, placements, refcount,
          provenance, integrity, compressed, payloadEncoding), b)
  }

  predicate FitsChunk(c: Chunk)
  {
    && FitsId(c.id) && FitsId(c.generation) && FitsId(c.logicalOffset) && FitsId(c.logicalSize)
    && FitsId(c.physicalSize) && FitsId(c.blobId) && FitsIds(c.placements) && FitsId(c.refcount)
    && FitsId(|c.payloadEncoding|)
  }

  lemma ChunkBack(c: Chunk, rest: Bytes)
    requires FitsChunk(c)
    ensures GetChunk(PutChunk(c, rest)) == Got(c, rest)
  {
    hide PutId, GetId, PutU8, GetU8, PutBool, GetBool, PutFixed, GetDigest, PutBytes, GetBytes, PutOption, GetOption,
         PutList, GetList, Unsigned, Signed, FitsId, FitsIds, FitsOption;
    FieldsBack();
  }

  // ----- ReplicaSet -----

  function PutReplicaSet(s: ReplicaSet, rest: Bytes): Bytes
  {
    PutId(s.checkpointId, PutId(s.generation, PutId(s.requiredReplicaCount, PutList(PutId, s.replicas,
    PutU8(s.durabilityState, PutId(s.placementGeneration, PutU8(s.provenance, rest)))))))
  }

  function GetReplicaSet(b: Bytes): Parsed<ReplicaSet>
  {
    var (checkpointId, b) :- GetId(b);
    var (generation, b) :- GetId(b);
    var (requiredReplicaCount, b) :- GetId(b);
    var (replicas, b) :- GetList(GetId, b);
    var (durabilityState, b) :- GetU8(b);
    var (placementGeneration, b) :- GetId(b);
    var (provenance, b) :- GetU8(b);
    Got(ReplicaSet(checkpointId, generation, requiredReplicaCount, replicas, durabilityState, placementGeneration,
          provenance), b)
  }

  predicate FitsReplicaSet(s: ReplicaSet)
  {
    && FitsId(s.checkpointId) && FitsId(s.generation) && FitsId(s.requiredReplicaCount)
    && FitsIds(s.replicas) && FitsId(s.placementGeneration)
  }

  lemma ReplicaSetBack(s: ReplicaSet, rest: Bytes)
    requires FitsReplicaSet(s)
    ensures GetReplicaSet(PutReplicaSet(s, rest)) == Got(s, rest)
  {
    hide PutId, GetId, PutU8, GetU8, PutBool, GetBool, PutFixed, GetDigest, PutBytes, GetBytes, PutOption, GetOption,
         PutList, GetList, Unsigned, Signed, FitsId, FitsIds, FitsOption;
    FieldsBack();
  }

  // ----- Blob -----

  function PutBlob(o: Blob, rest: Bytes): Bytes
  {
    PutId(o.id, PutId(o.generation, PutId(o.physicalSize, PutFixed(o.digest, PutId(o.refcount,
    PutId(o.byteReferences, PutU8(o.tier, PutU8(o.provenance, PutU8(o.integrity, PutU8(o.freshness,
    PutList(PutId, o.replicas, rest)))))))))))
  }

  function GetBlob(b: Bytes): Parsed<Blob>
  {
    var (id, b) :- GetId(b);
    var (generation, b) :- GetId(b);
    var (physicalSize, b) :- GetId(b);
    var (digest, b) :- GetDigest(b);
    var (refcount, b) :- GetId(b);
    var (byteReferences, b) :- GetId(b);
    var (tier, b) :- GetU8(b);
    var (provenance, b) :- GetU8(b);
    var (integrity, b) :- GetU8(b);
    var (freshness, b) :- GetU8(b);
    var (replicas, b) :- GetList(GetId, b);
    Got(Blob(id, generation, physicalSize, digest, refcount, byteReferences, tier, provenance, integrity,
          freshness, replicas), b)
  }

  predicate FitsBlob(o: Blob)
  {
    && FitsId(o.id) && FitsId(o.generation) && FitsId(o.physicalSize) && FitsId(o.refcount)
    && FitsId(o.byteReferences) && FitsIds(o.replicas)
  }

  lemma BlobBack(o: Blob, rest: Bytes)
    requires FitsBlob(o)
    ensures GetBlob(PutBlob(o, rest)) == Got(o, rest)
  {
    hide PutId, GetId, PutU8, GetU8, PutBool, GetBool, PutFixed, GetDigest, PutBytes, GetBytes, PutOption, GetOption,
         PutList, GetList, Unsigned, Signed, FitsId, FitsIds, FitsOption;
    FieldsBack();
  }

  // ----- Replica -----

  function PutReplica(r: Replica, rest: Bytes): Bytes
  {
    PutId(r.id, PutId(r.generation, PutId(r.backendId, PutU8(r.sourceKind, PutU8(r.tier, PutU8(r.integrity,
    PutU8(r.role, PutId(r.physicalSize, PutU8(r.provenance, rest)))))))))
  }

  function GetReplica(b: Bytes): Parsed<Replica>
  {
    var (id, b) :- GetId(b);
    var (generation, b) :- GetId(b);
    var (backendId, b) :- GetId(b);
    var (sourceKind, b) :- GetU8(b);
    var (tier, b) :- GetU8(b);
    var (integrity, b) :- GetU8(b);
    var (role, b) :- GetU8(b);
    var (physicalSize, b) :- GetId(b);
    var (provenance, b) :- GetU8(b);
    Got(Replica(id, generation, backendId, sourceKind, tier, integrity, role, physicalSize, provenance), b)
  }

  predicate FitsReplica(r: Replica)
  {
    && FitsId(r.id) && FitsId(r.generation) && FitsId(r.backendId) && FitsId(r.physicalSize)
  }

  lemma ReplicaBack(r: Replica, rest: Bytes)
    requires FitsReplica(r)
    ensures GetReplica(PutReplica(r, rest)) == Got(r, rest)
  {
    hide PutId, GetId, PutU8, GetU8, PutBool, GetBool, PutFixed, GetDigest, PutBytes, GetBytes, PutOption, GetOption,
         PutList, GetList, Unsigned, Signed, FitsId, FitsIds, FitsOption;
    FieldsBack();
  }

  // ----- Placement -----

  function PutPlacement(p: Placement, rest: Bytes): Bytes
  {
    PutId(p.id, PutId(p.generation, PutId(p.replicaId, PutId(p.tierId, PutId(p.backendId, PutId(p.nodeId,
    PutId(p.volumeId, PutId(p.bytes, PutU8(p.provenance, PutU8(p.freshness, rest))))))))))
  }

  function GetPlacement(b: Bytes): Parsed<Placement>
  {
    var (id, b) :- GetId(b);
    var (generation, b) :- GetId(b);
    var (replicaId, b) :- GetId(b);
    var (tierId, b) :- GetId(b);
    var (backendId, b) :- GetId(b);
    var (nodeId, b) :- GetId(b);
    var (volumeId, b) :- GetId(b);
    var (bytes, b) :- GetId(b);
    var (provenance, b) :- GetU8(b);
    var (freshness, b) :- GetU8(b);
    Got(Placement(id, generation, replicaId, tierId, backendId, nodeId, volumeId, bytes, provenance, freshness), b)
  }

  predicate FitsPlacement(p: Placement)
  {
    && FitsId(p.id) && FitsId(p.generation) && FitsId(p.replicaId) && FitsId(p.tierId)
    && FitsId(p.backendId) && FitsId(p.nodeId) && FitsId(p.volumeId) && FitsId(p.bytes)
  }

  lemma PlacementBack(p: Placement, rest: Bytes)
    requires FitsPlacement(p)
    ensures GetPlacement(PutPlacement(p, rest)) == Got(p, rest)
  {
    hide PutId, GetId, PutU8, GetU8, PutBool, GetBool, PutFixed, GetDigest, PutBytes, GetBytes, PutOption, GetOption,
         PutList, GetList, Unsigned, Signed, FitsId, FitsIds, FitsOption;
    FieldsBack();
  }

  // ----- Policy -----

  function PutPolicy(p: Policy, rest: Bytes): Bytes
  {
    PutId(p.id, PutId(p.familyId, PutU8(p.retentionClass, PutId(p.latestN, PutId(Unsigned(p.ttl),
    PutBool(p.protectAncestry, PutBool(p.recomputable, PutBool(p.policyProtected, PutId(p.generation,
    PutU8(p.provenance, rest))))))))))
  }

  function GetPolicy(b: Bytes): Parsed<Policy>
  {
    var (id, b) :- GetId(b);
    var (familyId, b) :- GetId(b);
    var (retentionClass, b) :- GetU8(b);
    var (latestN, b) :- GetId(b);
    var (ttl, b) :- GetId(b);
    var (protectAncestry, b) :- GetBool(b);
    var (recomputable, b) :- GetBool(b);
    var (policyProtected, b) :- GetBool(b);
    var (generation, b) :- GetId(b);
    var (provenance, b) :- GetU8(b);
    Got(Policy(id, familyId, retentionClass, latestN, Signed(ttl), protectAncestry, recomputable,
          policyProtected, generation, provenance), b)
  }

  predicate FitsPolicy(p: Policy)
  {
    && FitsId(p.id) && FitsId(p.familyId) && FitsId(p.latestN) && FitsSigned(p.ttl)
    && FitsId(p.generation)
  }

  lemma PolicyBack(p: Policy, rest: Bytes)
    requires FitsPolicy(p)
    ensures GetPolicy(PutPolicy(p, rest)) == Got(p, rest)
  {
    hide PutId, GetId, PutU8, GetU8, PutBool, GetBool, PutFixed, GetDigest, PutBytes, GetBytes, PutOption, GetOption,
         PutList, GetList, Unsigned, Signed, FitsId, FitsIds, FitsOption;
    FieldsBack();
  }

  // ----- Family -----

  function PutFamily(f: Family, rest: Bytes): Bytes
  {
    PutId(f.id, PutId(f.generation, PutList(PutId, f.checkpointIds, rest)))
  }

  function GetFamily(b: Bytes): Parsed<Family>
  {
    var (id, b) :- GetId(b);
    var (generation, b) :- GetId(b);
    var (checkpointIds, b) :- GetList(GetId, b);
    Got(Family(id, generation, checkpointIds), b)
  }

  predicate FitsFamily(f: Family)
  {
    && FitsId(f.id) && FitsId(f.generation) && FitsIds(f.checkpointIds)
  }

  lemma FamilyBack(f: Family, rest: Bytes)
    requires FitsFamily(f)
    ensures GetFamily(PutFamily(f, rest)) == Got(f, rest)
  {
    hide PutId, GetId, PutU8, GetU8, PutBool, GetBool, PutFixed, GetDigest, PutBytes, GetBytes, PutOption, GetOption,
         PutList, GetList, Unsigned, Signed, FitsId, FitsIds, FitsOption;
    FieldsBack();
  }
}

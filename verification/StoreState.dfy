/**
 The state of a checkpoint store (src/impl.hpp) and the steps of publication, as functions of
 values. The content hash is a parameter of the store: nothing here depends on which hash it is.
 */
module StoreState {
  import opened Basics
  import opened Binary
  import opened Model
  import opened Chunking
  import opened Dedup
  import Backend

  datatype Config = Config(hash: Bytes -> Digest, chunkSize: nat, requiredReplicaCount: nat, primary: Id)

  /** Where content lives: the backend's objects and the table of references to them. */
  datatype Storage = Storage(backend: Backend.Store, dedup: Table)

  datatype State = State(
    cfg: Config,
    bootId: Id,
    epoch: nat,
    registered: bool,
    storage: Storage,
    families: map<Id, Family>,
    checkpoints: map<Id, Record>,
    blobs: map<Id, Blob>,
    replicas: map<Id, Replica>,
    placements: map<Id, Placement>,
    retention: map<Id, Policy>,
    nextGeneration: map<Id, nat>,
    nextFamilyId: Id,
    nextId: nat,
    gc: GcState,
    counters: seq<nat>)

  /** Which backend calls of one store operation the environment lets through, by position. */
  datatype Faults = Faults(
    verify: nat -> bool, put: nat -> bool, commit: nat -> bool, read: (nat, nat) -> bool, remove: (nat, nat) -> bool)

  // ----- Families and descriptors -----

  function CreateFamily(s: State): State
  {
    var id := s.nextFamilyId;
    s.(nextFamilyId := id + 1,
       families := if id in s.families then s.families else s.families[id := Family(id, 1, [])],
       nextGeneration := s.nextGeneration[id := 1])
  }

  function FullDescriptor(s: State, family: Id, owner: Id, size: nat, durability: Byte, now: int): Descriptor
    requires family in s.nextGeneration
  {
    var g := s.nextGeneration[family];
    Descriptor(s.nextId, family, g, KIND_FULL, size, now, owner, s.bootId, g, None, None, [], [], [],
               RETAIN_LATEST_N, durability, 2, PROVENANCE_MEASURED, 1, s.cfg.requiredReplicaCount)
  }

  function MakeDescriptor(s: State, family: Id, owner: Id, size: nat, durability: Byte, now: int)
    : (State, Result<Descriptor, Error>)
  {
    if family !in s.nextGeneration then (s, Err(NotFound))
    else (s.(nextId := s.nextId + 1), Ok(FullDescriptor(s, family, owner, size, durability, now)))
  }

  // ----- Publication: one slice -----

  /** What the publication loop has built so far. `wrote` are the digests it wrote an object for. */
  datatype Draft = Draft(
    chunks: seq<Chunk>, entries: seq<ManifestEntry>, sizes: map<Id, nat>, wrote: seq<Digest>,
    written: nat, hits: nat, misses: nat)

  const NO_DRAFT: Draft := Draft([], [], map[], [], 0, 0, 0)

  datatype Progress = Progress(s: State, draft: Draft, error: Option<Error>)

  /** The object stored for a digest has that digest. */
  predicate Intact(hash: Bytes -> Digest, st: Storage, d: Digest)
  {
    Backend.Holds(hash, st.backend.objects, BlobKey(d), d)
  }

  function NewEntry(d: Digest, size: nat): DedupEntry
  {
    DedupEntry(PrefixId(d), d, size, 1, INTEGRITY_VERIFIED, 1)
  }

  /** How a slice got its stored reference, or why it did not. */
  datatype Obtained = Shared(st: Storage) | Wrote(st: Storage) | Refused(st: Storage, error: Error)

  /** Obtains one stored reference for the i-th slice: share an intact object or write a new one. */
  function Acquire(hash: Bytes -> Digest, st: Storage, slice: Slice, i: nat, f: Faults): Obtained
  {
    var d := slice.digest;
    match LookupIn(st.dedup, d, |slice.bytes|)
    case Reject(e) => Refused(st, e)
    case Hit(_) =>
      if Backend.VerifyObject(hash, st.backend, BlobKey(d), d, f.verify(i)) == INTEGRITY_VERIFIED then
        if st.dedup[d].refcount == MAX_REFCOUNT then Refused(st, Overflow)
        else Shared(st.(dedup := Added(st.dedup, d)))
      else Write(st, slice, i, f)
    case Miss => Write(st, slice, i, f)
  }

  function Write(st: Storage, slice: Slice, i: nat, f: Faults): Obtained
  {
    var d, key := slice.digest, BlobKey(slice.digest);
    if !f.put(i) then Refused(st, BackendUnavailable)
    else
      var staged := Backend.PutTemp(st.backend, key, slice.bytes);
      if !f.commit(i) then Refused(st.(backend := staged), BackendUnavailable)
      else Wrote(Storage(Backend.Commit(staged, key), Inserted(st.dedup, NewEntry(d, |slice.bytes|))))
  }

  /** The blob record gains the replica, or is created for it. */
  function NoteBlob(blobs: map<Id, Blob>, blobId: Id, d: Digest, size: nat, refs: nat, replica: Id): map<Id, Blob>
  {
    if blobId !in blobs then
      blobs[blobId := Blob(blobId, 1, size, d, refs, 0, 0, PROVENANCE_MEASURED, INTEGRITY_VERIFIED, FRESH_UNKNOWN,
                           [replica])]
    else if replica in blobs[blobId].replicas then blobs
    else blobs[blobId := blobs[blobId].(replicas := blobs[blobId].replicas + [replica])]
  }

  function NewChunk(slice: Slice, blobId: Id, placement: Id): Chunk
  {
    Chunk(PrefixId(slice.digest), 1, slice.offset, |slice.bytes|, |slice.bytes|, slice.digest, blobId,
          [placement], 0, PROVENANCE_MEASURED, INTEGRITY_VERIFIED, false, IDENTITY)
  }

  /** The payload encoding "identity". */
  const IDENTITY: Bytes := [105, 100, 101, 110, 116, 105, 116, 121]

  function NewPlacement(s: State, id: Id, replica: Id, size: nat): Placement
  {
    Placement(id, 1, replica, 1, s.cfg.primary, 1, 1, size, PROVENANCE_MEASURED, FRESH_CURRENT)
  }

  /** Records the slice whose reference has been obtained. */
  function Note(s: State, draft: Draft, slice: Slice, blobId: Id, replica: Id): Progress
  {
    var d, size, pid := slice.digest, |slice.bytes|, s.nextId;
    var chunk := NewChunk(slice, blobId, pid);
    Progress(
      s.(blobs := NoteBlob(s.blobs, blobId, d, size, Refs(s.storage.dedup, d), replica),
         placements := if pid in s.placements then s.placements
                       else s.placements[pid := NewPlacement(s, pid, replica, size)],
         nextId := pid + 1),
      draft.(chunks := draft.chunks + [chunk],
             entries := draft.entries + [ManifestEntry(chunk.id, slice.offset)],
             sizes := if chunk.id in draft.sizes then draft.sizes else draft.sizes[chunk.id := size]),
      None)
  }

  function Step(p: Progress, slice: Slice, i: nat, replica: Id, f: Faults): Progress
  {
    if p.error.Some? then p
    else
      var d, draft := slice.digest, p.draft;
      match Acquire(p.s.cfg.hash, p.s.storage, slice, i, f)
      case Refused(st, e) => Progress(p.s.(storage := st), draft, Some(e))
      case Shared(st) =>
        var blobId := if d in st.dedup then st.dedup[d].blobId else PrefixId(d);
        Note(p.s.(storage := st), draft.(hits := draft.hits + 1), slice, blobId, replica)
      case Wrote(st) =>
        var more := draft.(misses := draft.misses + 1, written := draft.written + |slice.bytes|,
                           wrote := draft.wrote + [d]);
        Note(p.s.(storage := st), more, slice, PrefixId(d), replica)
  }

  /** The first n slices. */
  function Steps(s: State, slices: seq<Slice>, n: nat, replica: Id, f: Faults): Progress
    requires n <= |slices|
  {
    if n == 0 then Progress(s, NO_DRAFT, None)
    else Step(Steps(s, slices, n - 1, replica, f), slices[n - 1], n - 1, replica, f)
  }

  // ----- Publication: read back, manifest, commit or roll back -----

  function ReadObject(st: Storage, d: Digest, up: bool): Result<Bytes, Error>
  {
    if !up then Err(BackendUnavailable)
    else if BlobKey(d) in st.backend.objects then Ok(st.backend.objects[BlobKey(d)])
    else Err(NotFound)
  }

  /** Reads the first n chunks back, checking size and digest, and joins them. */
  function ReadBack(hash: Bytes -> Digest, st: Storage, chunks: seq<Chunk>, n: nat, f: Faults): Result<Bytes, Error>
    requires n <= |chunks|
  {
    if n == 0 then Ok([])
    else
      match ReadBack(hash, st, chunks, n - 1, f)
      case Err(e) => Err(e)
      case Ok(sofar) =>
        var c := chunks[n - 1];
        match ReadObject(st, c.digest, f.read(n - 1, 0))
        case Err(e) => Err(e)
        case Ok(rb) =>
          if |rb| != c.physicalSize then Err(Integrity)
          else if hash(rb) != c.digest then Err(DigestMismatch)
          else Ok(sofar + rb)
  }

  /** Inserts by offset after every entry with the same or a smaller offset. */
  function InsertEntry(es: seq<ManifestEntry>, e: ManifestEntry): seq<ManifestEntry>
  {
    if es == [] || es[|es| - 1].logicalOffset <= e.logicalOffset then es + [e]
    else InsertEntry(es[..|es| - 1], e) + [es[|es| - 1]]
  }

  function SortEntries(es: seq<ManifestEntry>): seq<ManifestEntry>
  {
    if es == [] then [] else InsertEntry(SortEntries(es[..|es| - 1]), es[|es| - 1])
  }

  /** Walks the sorted entries: the expected next offset, or a gap, an overlap or an unknown chunk. */
  function Span(es: seq<ManifestEntry>, sizes: map<Id, nat>): Option<nat>
  {
    if es == [] then Some(0)
    else
      var e := es[|es| - 1];
      match Span(es[..|es| - 1], sizes)
      case None => None
      case Some(expected) =>
        if e.logicalOffset != expected || e.chunkId !in sizes then None
        else Some(expected + sizes[e.chunkId])
  }

  /** The canonical bytes whose hash is the manifest's semantic digest. */
  function Semantics(m: Manifest): Bytes
  {
    LittleEndian(m.id, 8) + LittleEndian(m.generation, 8) + LittleEndian(m.checkpointId, 8)
    + LittleEndian(m.checkpointGeneration, 8) + LittleEndian(|m.chunks|, 4) + EntryBytes(m.chunks)
    + LittleEndian(m.logicalSize, 8) + m.checkpointDigest + [m.provenance] + [m.durability]
    + LittleEndian(m.requiredReplicaCount, 8)
  }

  function EntryBytes(es: seq<ManifestEntry>): Bytes
  {
    if es == [] then []
    else LittleEndian(es[0].chunkId, 8) + LittleEndian(es[0].logicalOffset, 8) + EntryBytes(es[1..])
  }

  function NewManifest(s: State, d: Descriptor, draft: Draft, size: nat, digest: Digest): Manifest
  {
    var m := Manifest(s.nextId, 1, d.id, d.generation, SortEntries(draft.entries), size, digest,
                      d.lineage, d.parent, d.base, d.provenance, d.durability, d.requiredReplicaCount, digest);
    m.(semanticDigest := s.cfg.hash(Semantics(m)))
  }

  function NewReplica(s: State, replica: Id, written: nat): Replica
  {
    Replica(replica, 1, s.cfg.primary, 0, 0, INTEGRITY_VERIFIED, ROLE_AUTHORITATIVE, written, PROVENANCE_MEASURED)
  }

  function NewRecord(d: Descriptor, m: Manifest, chunks: seq<Chunk>, replica: Id): Record
  {
    Record(d, m, chunks,
           ReplicaSet(d.id, d.generation, d.requiredReplicaCount, [replica],
                      if d.requiredReplicaCount <= 1 then DURABILITY_HEALTHY else DURABILITY_UNDER_REPLICATED,
                      1, PROVENANCE_MEASURED),
           LIFE_COMMITTED, INTEGRITY_VERIFIED, FRESH_CURRENT)
  }

  function CommitRecord(s: State, d: Descriptor, draft: Draft, size: nat, digest: Digest, replica: Id): State
  {
    var m := NewManifest(s, d, draft, size, digest);
    s.(nextId := s.nextId + 1,
       replicas := if replica in s.replicas then s.replicas
         else s.replicas[replica := NewReplica(s, replica, draft.written)],
       checkpoints := if d.id in s.checkpoints then s.checkpoints
                      else s.checkpoints[d.id := NewRecord(d, m, draft.chunks, replica)],
       families := if d.familyId in s.families
                   then s.families[d.familyId := s.families[d.familyId].(checkpointIds :=
                                                                         s.families[d.familyId].checkpointIds + [d.id])]
                   else s.families,
       nextGeneration := s.nextGeneration[d.familyId := d.generation + 1])
  }

  /** Removes the objects written by the attempt, as far as the environment lets it. */
  function RemoveWritten(b: Backend.Store, wrote: seq<Digest>, f: Faults): Backend.Store
  {
    if wrote == [] then b
    else
      var n := |wrote| - 1;
      var r := RemoveWritten(b, wrote[..n], f);
      if f.remove(n, 0) then Backend.Remove(r, BlobKey(wrote[n])) else r
  }

  function ReleaseWritten(t: Table, wrote: seq<Digest>): Table
  {
    if wrote == [] then t
    else
      var n := |wrote| - 1;
      OrphanDropped(Released(ReleaseWritten(t, wrote[..n]), wrote[n]), wrote[n])
  }

  function Undo(st: Storage, wrote: seq<Digest>, f: Faults): Storage
  {
    Storage(RemoveWritten(st.backend, wrote, f), ReleaseWritten(st.dedup, wrote))
  }

  function Rollback(s: State, draft: Draft, f: Faults): State
  {
    s.(storage := Undo(s.storage, draft.wrote, f))
  }

  /** The checks publish makes before it touches anything. */
  function Admission(s: State, d: Descriptor): Option<Error>
  {
    if d.producerBoot != s.bootId then Some(StaleAuthority)
    else if d.id in s.checkpoints then Some(AlreadyExists)
    else if d.familyId !in s.nextGeneration then Some(NotFound)
    else if d.generation != s.nextGeneration[d.familyId] then Some(StaleGeneration)
    else if !ValidChunkSize(s.cfg.chunkSize) then Some(InvalidArgument)
    else if d.kind != KIND_FULL && d.kind != KIND_SYNTHETIC then Some(NotSupported)
    else if !s.registered then Some(NotFound)
    else None
  }

  /** The checks between the last write and the commit: the joined bytes read back, or an error. */
  function Confirm(s: State, draft: Draft, data: Bytes, f: Faults): Result<Digest, Error>
  {
    match ReadBack(s.cfg.hash, s.storage, draft.chunks, |draft.chunks|, f)
    case Err(e) => Err(e)
    case Ok(joined) =>
      if s.cfg.hash(joined) != s.cfg.hash(data) then Err(DigestMismatch)
      else if Span(SortEntries(draft.entries), draft.sizes) != Some(|data|) then Err(Malformed)
      else Ok(s.cfg.hash(joined))
  }

  datatype Receipt = Receipt(manifest: Manifest, chunks: seq<Chunk>, written: nat, deduplicated: nat, hits: nat,
                             misses: nat)

  function PublishSteps(s: State, data: Bytes, f: Faults): Progress
    requires s.cfg.chunkSize > 0
  {
    var slices := Slices(s.cfg.hash, data, s.cfg.chunkSize);
    Steps(s.(nextId := s.nextId + 1), slices, |slices|, s.nextId, f)
  }

  /** publish: the new state, and a receipt or the error thrown. */
  function Publish(s: State, d: Descriptor, data: Bytes, f: Faults): (State, Result<Receipt, Error>)
  {
    match Admission(s, d)
    case Some(e) => (s, Err(e))
    case None =>
      var p := PublishSteps(s, data, f);
      match p.error
      case Some(e) => (Rollback(p.s, p.draft, f), Err(e))
      case None =>
        match Confirm(p.s, p.draft, data, f)
        case Err(e) => (Rollback(p.s, p.draft, f), Err(e))
        case Ok(digest) =>
          (CommitRecord(p.s, d, p.draft, |data|, digest, s.nextId),
           Ok(Receipt(NewManifest(p.s, d, p.draft, |data|, digest), p.draft.chunks, p.draft.written,
                      if |data| >= p.draft.written then |data| - p.draft.written else 0,
                      p.draft.hits, p.draft.misses)))
  }
}

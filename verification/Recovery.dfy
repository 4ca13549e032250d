/** Restore and verification of one checkpoint (src/restore.cpp), as functions of values. */
module Recovery {
  import opened Basics
  import opened Model
  import opened StoreState
  import Backend

  /** The first chunk record with the given id. */
  function FindChunk(chunks: seq<Chunk>, id: Id): Option<Chunk>
  {
    if chunks == [] then None
    else if chunks[0].id == id then Some(chunks[0])
    else FindChunk(chunks[1..], id)
  }

  /** The replicas of the chunk's placements that are still recorded. */
  function PlacedReplicas(placements: map<Id, Placement>, ids: seq<Id>): seq<Id>
  {
    if ids == [] then []
    else if ids[0] in placements then [placements[ids[0]].replicaId] + PlacedReplicas(placements, ids[1..])
    else PlacedReplicas(placements, ids[1..])
  }

  function Candidates(s: State, r: Record, c: Chunk): seq<Id>
  {
    var placed := PlacedReplicas(s.placements, c.placements);
    if placed == [] then r.replicaSet.replicas else placed
  }

  /** The replica's backend is the registered primary. */
  predicate Reachable(s: State, rid: Id)
  {
    rid in s.replicas && s.replicas[rid].backendId == s.cfg.primary && s.registered
  }

  /** A replica that served bytes of the wrong digest is quarantined and the checkpoint degraded. */
  function Quarantine(s: State, id: Id, rid: Id): State
    requires id in s.checkpoints && rid in s.replicas
  {
    if s.replicas[rid].integrity != INTEGRITY_VERIFIED then s
    else
      var r := s.checkpoints[id];
      s.(replicas := s.replicas[rid := s.replicas[rid].(integrity := INTEGRITY_CORRUPT, role := ROLE_QUARANTINED)],
         checkpoints := s.checkpoints[id := r.(replicaSet := r.replicaSet.(durabilityState := DURABILITY_DEGRADED))])
  }

  /** Tries the candidates in order: the first bytes with the chunk's digest win. */
  function FetchChunk(s: State, id: Id, d: Digest, cand: seq<Id>, k: nat, e: nat,
                      f: Faults): (r: (State, Option<Bytes>))
    requires id in s.checkpoints && k <= |cand|
    ensures id in r.0.checkpoints
    decreases |cand| - k
  {
    if k == |cand| then (s, None)
    else if !Reachable(s, cand[k]) then FetchChunk(s, id, d, cand, k + 1, e, f)
    else
      match ReadObject(s.storage, d, f.read(e, k))
      case Err(_) => FetchChunk(s, id, d, cand, k + 1, e, f)
      case Ok(rb) =>
        if s.cfg.hash(rb) == d then (s, Some(rb))
        else FetchChunk(Quarantine(s, id, cand[k]), id, d, cand, k + 1, e, f)
  }

  function SetIntegrity(s: State, id: Id, integrity: Byte): State
    requires id in s.checkpoints
  {
    s.(checkpoints := s.checkpoints[id := s.checkpoints[id].(integrity := integrity)])
  }

  datatype Assembly = Assembly(s: State, out: Bytes, error: Option<Error>)

  /** Fetches the chunk the n-th manifest entry names. */
  function FetchEntry(a: Assembly, id: Id, n: nat, f: Faults): (b: Assembly)
    requires id in a.s.checkpoints && n < |a.s.checkpoints[id].manifest.chunks|
    ensures id in b.s.checkpoints
  {
    var r := a.s.checkpoints[id];
    match FindChunk(r.chunks, r.manifest.chunks[n].chunkId)
    case None => a.(error := Some(Malformed))
    case Some(c) =>
      var (t, got) := FetchChunk(a.s, id, c.digest, Candidates(a.s, r, c), 0, n, f);
      match got
      case None => Assembly(SetIntegrity(t, id, INTEGRITY_CORRUPT), a.out, Some(Error.Corrupt))
      case Some(rb) => Assembly(t, a.out + rb, None)
  }

  /** The first n manifest entries. */
  function Assemble(s: State, id: Id, n: nat, f: Faults): (a: Assembly)
    requires id in s.checkpoints && n <= |s.checkpoints[id].manifest.chunks|
    ensures id in a.s.checkpoints
  {
    if n == 0 then Assembly(s, [], None)
    else
      var a := Assemble(s, id, n - 1, f);
      if a.error.Some? || n - 1 >= |a.s.checkpoints[id].manifest.chunks| then a
      else FetchEntry(a, id, n - 1, f)
  }

  /** restore: the new state, and the bytes or the error thrown. */
  function Restore(s: State, id: Id, f: Faults): (State, Result<Bytes, Error>)
  {
    if id !in s.checkpoints || !Live(s.checkpoints[id]) then (s, Err(NotFound))
    else
      var a := Assemble(s, id, |s.checkpoints[id].manifest.chunks|, f);
      match a.error
      case Some(e) => (a.s, Err(e))
      case None =>
        if s.cfg.hash(a.out) != a.s.checkpoints[id].manifest.checkpointDigest
        then (SetIntegrity(a.s, id, INTEGRITY_CORRUPT), Err(DigestMismatch))
        else (SetIntegrity(a.s, id, INTEGRITY_VERIFIED), Ok(a.out))
  }

  // ----- Verification walks the chunk records instead -----

  /** The first n chunks: their joined bytes, the integrity state found, or the error thrown. */
  datatype Scan = Joined(bytes: Bytes) | Found(integrity: Byte) | Threw(error: Error)

  function ScanChunks(s: State, chunks: seq<Chunk>, n: nat, f: Faults): Scan
    requires n <= |chunks|
  {
    if n == 0 then Joined([])
    else
      var prior := ScanChunks(s, chunks, n - 1, f);
      if !prior.Joined? then prior
      else
        var d := chunks[n - 1].digest;
        var key := BlobKey(d);
        if key !in s.storage.backend.objects then Found(INTEGRITY_MISSING)
        else
          var v := Backend.VerifyObject(s.cfg.hash, s.storage.backend, key, d, f.verify(n - 1));
          if v == INTEGRITY_CORRUPT || v == INTEGRITY_MISSING then Found(INTEGRITY_CORRUPT)
          else
            match ReadObject(s.storage, d, f.read(n - 1, 0))
            case Err(e) => Threw(e)
            case Ok(rb) => Joined(prior.bytes + rb)
  }

  /** verify_checkpoint: the new state, and the integrity state returned or the error thrown. */
  function VerifyCheckpoint(s: State, id: Id, f: Faults): (State, Result<Byte, Error>)
  {
    if id !in s.checkpoints then (s, Err(NotFound))
    else
      var r := s.checkpoints[id];
      if !exists k :: 0 <= k < |r.replicaSet.replicas| && Reachable(s, r.replicaSet.replicas[k])
      then (SetIntegrity(s, id, INTEGRITY_MISSING), Ok(INTEGRITY_MISSING))
      else
        match ScanChunks(s, r.chunks, |r.chunks|, f)
        case Threw(e) => (s, Err(e))
        case Found(v) => (SetIntegrity(s, id, v), Ok(v))
        case Joined(bytes) =>
          var v := if s.cfg.hash(bytes) == r.manifest.checkpointDigest then INTEGRITY_VERIFIED else INTEGRITY_CORRUPT;
          (SetIntegrity(s, id, v), Ok(v))
  }
}

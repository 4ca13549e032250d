/** Garbage collection (src/gc.cpp): mark, sweep and reclaim, as functions of values. */
module Collection {
  import opened Basics
  import opened Model
  import opened Dedup
  import opened StoreState
  import opened Sums
  import Backend

  /** The blobs the retained checkpoints' chunks name. */
  function Reachable(cps: map<Id, Record>, retained: set<Id>): set<Id>
  {
    set id, i | id in retained && id in cps && 0 <= i < |cps[id].chunks| :: cps[id].chunks[i].blobId
  }

  ghost function MarkedSizes(blobs: map<Id, Blob>, reachable: set<Id>): map<Id, nat>
  {
    map b | b in blobs && b in reachable :: blobs[b].physicalSize
  }

  /** The reclaimable list is some walk over the blobs that are not reachable. */
  ghost predicate IsPlan(s: State, reachable: set<Id>, list: seq<Id>)
  {
    && (forall b :: b in list <==> b in s.blobs && b !in reachable)
    && (forall i, j :: 0 <= i < j < |list| ==> list[i] != list[j])
  }

  /** gc_plan changes the collector's own state and nothing else. */
  ghost function Plan(s: State, reachable: set<Id>, list: seq<Id>): State
  {
    s.(nextId := s.nextId + 1,
       gc := s.gc.(epoch := s.nextId, generation := s.gc.generation + 1, phase := GC_MARKING,
                   reachable := reachable, reclaimable := list,
                   markedBytes := Sum(MarkedSizes(s.blobs, reachable)), freshness := FRESH_CURRENT))
  }

  /** Releases one reference per chunk. */
  function ReleaseAll(t: Table, chunks: seq<Chunk>): Table
  {
    if chunks == [] then t
    else Released(ReleaseAll(t, chunks[..|chunks| - 1]), chunks[|chunks| - 1].digest)
  }

  /** Sweeps one checkpoint, unless it is unknown or already swept. */
  function SweepOne(s: State, id: Id): State
  {
    if id in s.checkpoints && Live(s.checkpoints[id]) then
      s.(storage := s.storage.(dedup := ReleaseAll(s.storage.dedup, s.checkpoints[id].chunks)),
         checkpoints := s.checkpoints[id := s.checkpoints[id].(lifecycle := LIFE_DELETED)])
    else s
  }

  function Sweep(s: State, ids: seq<Id>): State
  {
    if ids == [] then s else SweepOne(Sweep(s, ids[..|ids| - 1]), ids[|ids| - 1])
  }

  /** Removes a blob's object once for each replica record on a registered backend. */
  function RemoveFrom(s: State, key: string, replicas: seq<Id>, b: nat, f: Faults): (Backend.Store, bool)
  {
    if replicas == [] then (s.storage.backend, false)
    else
      var n := |replicas| - 1;
      var (store, removed) := RemoveFrom(s, key, replicas[..n], b, f);
      if replicas[n] in s.replicas && s.replicas[replicas[n]].backendId == s.cfg.primary && s.registered
         && f.remove(b, n) && key in store.objects
      then (Backend.Remove(store, key), true)
      else (store, removed)
  }

  /** One candidate: kept while reachable or referenced, otherwise removed and forgotten. */
  function ReclaimOne(s: State, reachable: set<Id>, bid: Id, b: nat, f: Faults): State
  {
    if bid in reachable || bid !in s.blobs || Refs(s.storage.dedup, s.blobs[bid].digest) != 0 then s
    else
      var d := s.blobs[bid].digest;
      var (store, removed) := RemoveFrom(s, BlobKey(d), s.blobs[bid].replicas, b, f);
      s.(storage := Storage(store, if removed then OrphanDropped(s.storage.dedup, d) else s.storage.dedup),
         blobs := s.blobs - {bid})
  }

  function Reclaim(s: State, reachable: set<Id>, list: seq<Id>, f: Faults): State
  {
    if list == [] then s
    else
      var n := |list| - 1;
      ReclaimOne(Reclaim(s, reachable, list[..n], f), reachable, list[n], n, f)
  }

  /**
   gc_run: sweep the eligible checkpoints, then reclaim the planned blobs that the retained
   checkpoints, found by a second computation, do not reach.
   */
  function Run(s: State, eligible: seq<Id>, retained: set<Id>, f: Faults): State
  {
    var reachable := Reachable(s.checkpoints, retained);
    var swept := Sweep(s, eligible);
    var done := Reclaim(swept, reachable, s.gc.reclaimable, f);
    done.(gc := done.gc.(phase := GC_COMPLETE, reachable := {}, reclaimable := []))
  }
}

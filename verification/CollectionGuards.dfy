/** The second guard of a collection: what a retained checkpoint reaches is kept, whatever the counts say. */
module CollectionGuards {
  import opened Basics
  import opened Model
  import opened Dedup
  import opened StoreState
  import opened Invariant
  import opened Publication
  import opened Collection
  import opened CollectionSafety
  import opened Retention

  lemma {:induction false} SweepDeletes(s: State, ids: seq<Id>, id: Id)
    requires id in s.checkpoints
    ensures var t := Sweep(s, ids);
      && id in t.checkpoints && t.storage.backend == s.storage.backend && t.blobs == s.blobs
      && t.checkpoints[id] == (if id in ids && Live(s.checkpoints[id])
                               then s.checkpoints[id].(lifecycle := LIFE_DELETED) else s.checkpoints[id])
  {
    hide ReleaseAll;
    if ids != [] {
      SweepDeletes(s, ids[..|ids| - 1], id);
      assert ids == ids[..|ids| - 1] + [ids[|ids| - 1]];
    }
  }

  lemma ReclaimOneSpares(s: State, reachable: set<Id>, bid: Id, b: nat, f: Faults, d: Digest)
    requires BlobsOk(s.blobs) && PrefixId(d) in reachable
    ensures BlobsOk(ReclaimOne(s, reachable, bid, b, f).blobs)
    ensures SameObject(s.storage, ReclaimOne(s, reachable, bid, b, f).storage, d)
  {
    hide PrefixId, RemoveFrom, BlobKey;
    var t := ReclaimOne(s, reachable, bid, b, f);
    if bid !in reachable && bid in s.blobs && Refs(s.storage.dedup, s.blobs[bid].digest) == 0 {
      RemoveFromEffect(s, s.blobs[bid].digest, s.blobs[bid].replicas, b, f, t.storage.dedup);
    }
  }

  /** A content whose blob id is reachable keeps its object. */
  lemma {:induction false} ReclaimSpares(s: State, reachable: set<Id>, list: seq<Id>, f: Faults, d: Digest)
    requires BlobsOk(s.blobs) && PrefixId(d) in reachable
    ensures BlobsOk(Reclaim(s, reachable, list, f).blobs)
    ensures SameObject(s.storage, Reclaim(s, reachable, list, f).storage, d)
  {
    hide PrefixId, ReclaimOne, BlobKey, BlobsOk;
    if list != [] {
      var n := |list| - 1;
      var t := Reclaim(s, reachable, list[..n], f);
      ReclaimSpares(s, reachable, list[..n], f, d);
      ReclaimOneSpares(t, reachable, list[n], n, f, d);
    }
  }

  /** The lifecycles the store's operations leave behind. */
  predicate Settled(r: Record)
  {
    r.lifecycle == LIFE_COMMITTED || r.lifecycle == LIFE_RETIRED || r.lifecycle == LIFE_DELETED
  }

  lemma ReachesOwn(cps: map<Id, Record>, retained: set<Id>, id: Id, i: nat)
    requires id in retained && id in cps && i < |cps[id].chunks|
    ensures cps[id].chunks[i].blobId in Reachable(cps, retained)
  {
  }

  /**
   With one reading of the clock, a collection spares every object of every checkpoint that is
   live after it by reachability alone: nothing is asked of the reference counts, of the plan or
   of the objects.
   */
  lemma ReachabilitySuffices(s: State, v: View, eligible: seq<Id>, f: Faults, id: Id, i: nat)
    requires BlobsOk(s.blobs) && (forall e <- Eligible(s, v) :: e in eligible)
    requires id in s.checkpoints && Settled(s.checkpoints[id]) && i < |s.checkpoints[id].chunks|
    requires s.checkpoints[id].chunks[i].blobId == PrefixId(s.checkpoints[id].chunks[i].digest)
    ensures var t := Run(s, eligible, Protected(s, v), f);
      && id in t.checkpoints
      && (Live(t.checkpoints[id]) ==> SameObject(s.storage, t.storage, s.checkpoints[id].chunks[i].digest))
  {
    hide PrefixId, Sweep, Reclaim, BlobKey, Reachable, Protected;
    var reachable := Reachable(s.checkpoints, Protected(s, v));
    var swept := Sweep(s, eligible);
    SweepDeletes(s, eligible, id);
    ReclaimRecords(swept, reachable, s.gc.reclaimable, f);
    if Live(swept.checkpoints[id]) {
      assert id in Protected(s, v);
      ReachesOwn(s.checkpoints, Protected(s, v), id, i);
      ReclaimSpares(swept, reachable, s.gc.reclaimable, f, s.checkpoints[id].chunks[i].digest);
    }
  }

  lemma {:induction false} ReclaimRecords(s: State, reachable: set<Id>, list: seq<Id>, f: Faults)
    ensures Reclaim(s, reachable, list, f).checkpoints == s.checkpoints
  {
    hide RemoveFrom, BlobKey;
    if list != [] {
      ReclaimRecords(s, reachable, list[..|list| - 1], f);
    }
  }
}

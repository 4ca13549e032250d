/** Loading a state file that is older than the objects on disk. */
module StaleLoad {
  import opened Basics
  import opened Model
  import opened Chunking
  import opened StoreState
  import opened Publication
  import opened RestoreCorrectness
  import opened Failure
  import opened Leak
  import opened FailingRuns
  import Collection
  import Completeness
  import Retention
  import Invariant
  import Persistence
  import Recovery
  import Runs

  /** A new process over the objects of one state that loads the file another state saved. */
  ghost function LoadedOver(saved: State, disk: State): State
  {
    Persistence.Recovered(Runs.Reopened(disk), saved)
  }

  /** Within the bounds of the format that is what loading the older file gives. */
  lemma LoadsOver(saved: State, disk: State)
    requires Persistence.InBounds(saved) && saved.cfg == disk.cfg
    ensures Persistence.Load(Runs.Reopened(disk), Persistence.Save(saved)) == Ok(LoadedOver(saved, disk))
  {
    hide Persistence.InBounds, Persistence.Load, Persistence.Save, Persistence.Recovered;
    Persistence.LoadSave(Runs.Reopened(disk), saved);
  }

  // ----- A committed record keeps its chunks and manifest for ever -----

  // ----- Exactly when everything loaded is whole -----

  /** Wholeness looks at the objects, the chunks and the manifest alone. */
  lemma WholeAlike(s: State, r: Record, t: State, q: Record)
    requires t.cfg == s.cfg && t.storage.backend.objects == s.storage.backend.objects && Runs.SameContents(r, q)
    ensures Whole(s, r) == Whole(t, q)
  {
    hide BlobKey;
    ContentsSame(s.storage, t.storage, r.chunks, |r.chunks|);
    forall i | 0 <= i < |r.chunks|
      ensures Invariant.SameObject(s.storage, t.storage, r.chunks[i].digest)
    {
    }
  }

  lemma LoadedRecords(saved: State, disk: State)
    ensures var t := LoadedOver(saved, disk);
      && t.cfg == disk.cfg && t.storage.backend.objects == disk.storage.backend.objects
      && t.checkpoints.Keys == saved.checkpoints.Keys
      && forall id :: id in saved.checkpoints ==>
           && Runs.SameContents(saved.checkpoints[id], t.checkpoints[id])
           && Live(t.checkpoints[id]) == Live(saved.checkpoints[id])
  {
    hide Persistence.ImageOf, Persistence.NextAll, Persistence.RaiseBy, Persistence.StartFamilies;
  }

  /** Every live checkpoint of the loaded store is whole. */
  ghost predicate LoadsWhole(saved: State, disk: State)
  {
    var t := LoadedOver(saved, disk);
    forall id :: id in t.checkpoints && Live(t.checkpoints[id]) ==> Whole(t, t.checkpoints[id])
  }

  /** Every checkpoint deleted since the file was saved still has its objects. */
  ghost predicate DeletedStillWhole(saved: State, disk: State)
  {
    forall id ::
      && id in saved.checkpoints && Live(saved.checkpoints[id])
      && id in disk.checkpoints && !Live(disk.checkpoints[id]) ==>
      Whole(disk, saved.checkpoints[id])
  }

  /** That is: every checkpoint the file has as live is whole over the objects on disk. */
  lemma LoadsWholeMeans(saved: State, disk: State)
    ensures LoadsWhole(saved, disk) <==>
            forall id :: id in saved.checkpoints && Live(saved.checkpoints[id]) ==> Whole(disk, saved.checkpoints[id])
  {
    hide Whole, LoadedOver;
    LoadedRecords(saved, disk);
    var t := LoadedOver(saved, disk);
    forall id | id in saved.checkpoints
      ensures Whole(disk, saved.checkpoints[id]) == Whole(t, t.checkpoints[id])
    {
      WholeAlike(disk, saved.checkpoints[id], t, t.checkpoints[id]);
    }
  }

  /**
   A file saved after n operations of an honest run and loaded after all of them gives a store whose
   live checkpoints are all whole if and only if those deleted in between still have their objects;
   those that are live on both occasions always do.
   */
  lemma StaleLoadExactly(cfg: Config, boot: Id, ops: seq<Runs.Op>, n: nat)
    requires n <= |ops| && forall op <- ops :: Runs.Honest(op)
    ensures var saved, disk := Runs.After(Runs.Start(cfg, boot), ops[..n]).s, Runs.After(Runs.Start(cfg, boot), ops).s;
      LoadsWhole(saved, disk) <==> DeletedStillWhole(saved, disk)
  {
    hide Runs.After, Runs.Honest, Safe, Whole, LoadsWhole;
    var w := Runs.Start(cfg, boot);
    var saved, disk := Runs.After(w, ops[..n]).s, Runs.After(w, ops).s;
    LoadsWholeMeans(saved, disk);
    Runs.InitSafe(cfg, boot);
    Runs.RunSafe(w, ops);
    forall id | id in saved.checkpoints && Live(saved.checkpoints[id])
      ensures id in disk.checkpoints
      ensures Live(disk.checkpoints[id]) ==> Whole(disk, saved.checkpoints[id])
    {
      Runs.RunKeepsContents(w, ops, n, id);
      if Live(disk.checkpoints[id]) {
        SafeIsWhole(disk, id);
        WholeAlike(disk, disk.checkpoints[id], disk, saved.checkpoints[id]);
      }
    }
  }

  // ----- A run at which it is not -----

  lemma RemovalGoesThrough(s: State, boot: Id, data: Bytes)
    requires Single(s, boot, data)
    ensures var d := s.cfg.hash(data); PrefixId(d) in s.blobs && SomeRemoval(s, s.blobs[PrefixId(d)].replicas, 0, WELL)
  {
    hide HoldsOne, PrefixId, Completeness.ObjectsKnown, Completeness.EntriesRecorded, Filed;
    var d := s.cfg.hash(data);
    SingleRecords(s, boot, data);
    HeldCommitted(s, boot, data);
    FiledRecord(s, d);
    Completeness.KnownDigest(s, PrefixId(d));
    var replicas := s.blobs[PrefixId(d)].replicas;
    assert Completeness.ReplicaOk(s.cfg.primary, s.replicas, None, replicas[0]);
    assert Recovery.Reachable(s, replicas[0]) && WELL.remove(0, 0);
  }

  /**
   Save after a commit, retire and collect it, crash, and load: the loaded store has the checkpoint
   as live and cannot restore it, although the running store never lost a live checkpoint.
   */
  lemma StaleLoadLoses(cfg: Config, boot: Id, data: Bytes, now: int)
    requires ValidChunkSize(cfg.chunkSize) && 0 < |data| <= cfg.chunkSize
    ensures var w, ops := Runs.Start(cfg, boot), Collected(boot, data, PrefixId(cfg.hash(data)), now, WELL);
      var saved, disk := Runs.After(w, ops[..2]).s, Runs.After(w, ops).s;
      && 7 in saved.checkpoints && Live(saved.checkpoints[7]) && !Whole(disk, saved.checkpoints[7])
      && !LoadsWhole(saved, disk)
  {
    hide Runs.After, Single, Swept, PrefixId, Whole, HoldsOne, Collection.IsPlan, Retention.Eligible, LoadsWhole;
    var bid := PrefixId(cfg.hash(data));
    var w, ops := Runs.Start(cfg, boot), Collected(boot, data, bid, now, WELL);
    var saved, disk := Runs.After(w, ops[..2]).s, Runs.After(w, ops).s;
    CollectedLeads(cfg, boot, data, now, WELL);
    SweptLoses(saved, boot, data, now);
    LoadsWholeMeans(saved, disk);
  }

  lemma SweptLoses(s: State, boot: Id, data: Bytes, now: int)
    requires Single(s, boot, data)
    ensures var t := Swept(s, PrefixId(s.cfg.hash(data)), now, WELL);
      7 in s.checkpoints && Live(s.checkpoints[7]) && !Whole(t, s.checkpoints[7])
  {
    hide Single, Swept, PrefixId, SomeRemoval, Whole, HoldsOne;
    SingleHolds(s, boot, data);
    HeldCommitted(s, boot, data);
    RemovalGoesThrough(s, boot, data);
    SweptDecides(s, boot, data, now, WELL);
    Unwhole(Swept(s, PrefixId(s.cfg.hash(data)), now, WELL), s.checkpoints[7]);
  }

  lemma SingleHolds(s: State, boot: Id, data: Bytes)
    requires Single(s, boot, data)
    ensures HoldsOne(s, boot, data)
  {
  }

  lemma Unwhole(s: State, r: Record)
    requires |r.chunks| == 1 && BlobKey(r.chunks[0].digest) !in s.storage.backend.objects
    ensures !Whole(s, r)
  {
    hide BlobKey, Contents;
    assert !Intact(s.cfg.hash, s.storage, r.chunks[0].digest);
  }
}

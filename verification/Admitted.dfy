/** Which descriptors publication takes, and what every run keeps so that those the store makes are taken. */
module Admitted {
  import opened Basics
  import opened Model
  import opened Dedup
  import opened StoreState
  import opened Collection
  import opened RestoreCorrectness
  import opened Failure
  import opened Commits
  import Backend
  import Chunking
  import Retention
  import Recovery
  import Persistence
  import Runs

  // ----- Admission -----

  /**
   A publication is taken up if and only if it comes from the store's boot, under a new id, for the next
   generation of a known family, as a full or synthetic checkpoint (kinds 0 and 4), in a store with a
   backend and a chunk size up to 64 MiB; otherwise nothing changes.
   */
  lemma AdmittedExactly(s: State, d: Descriptor, data: Bytes, f: Faults)
    ensures Admission(s, d).None? <==>
            && d.producerBoot == s.bootId && d.id !in s.checkpoints
            && d.familyId in s.nextGeneration && d.generation == s.nextGeneration[d.familyId]
            && 1 <= s.cfg.chunkSize <= 67_108_864 && (d.kind == 0 || d.kind == 4) && s.registered
    ensures Admission(s, d).Some? ==> StoreState.Publish(s, d, data, f) == (s, Err(Admission(s, d).value))
    ensures d.producerBoot != s.bootId ==> StoreState.Publish(s, d, data, f) == (s, Err(StaleAuthority))
    ensures d.producerBoot == s.bootId && d.id in s.checkpoints ==>
              StoreState.Publish(s, d, data, f) == (s, Err(AlreadyExists))
    ensures d.producerBoot == s.bootId && d.id !in s.checkpoints && d.familyId in s.nextGeneration
            && d.generation != s.nextGeneration[d.familyId] ==>
              StoreState.Publish(s, d, data, f) == (s, Err(StaleGeneration))
  {
    hide PublishSteps, Confirm, CommitRecord, NewManifest, Rollback;
  }

  /**
   A full checkpoint (kind 0) of the family's next generation under a new id, produced by the store's boot at
   the given time, without ancestors, kept under latest-N (class 1).
   */
  ghost predicate MadeFor(s: State, d: Descriptor, family: Id, owner: Id, size: nat, durability: Byte, now: int)
  {
    && family in s.nextGeneration
    && var g := s.nextGeneration[family];
    && d.id == s.nextId && d.familyId == family && d.generation == g && d.kind == 0 && d.retention == 1
    && d.logicalSize == size && d.createdAt == now && d.ownerId == owner
    && d.producerBoot == s.bootId && d.producerGeneration == g
    && d.parent == None && d.base == None && d.lineage == [] && d.references == [] && d.compatibility == []
    && d.durability == durability && d.restorePriority == 2 && d.provenance == 0 && d.policyGeneration == 1
    && d.requiredReplicaCount == s.cfg.requiredReplicaCount
  }

  /** A descriptor the store has just made is taken up, unless somebody else took its id. */
  lemma MadeIsAdmitted(s: State, family: Id, owner: Id, size: nat, durability: Byte, now: int)
    ensures var (t, made) := StoreState.MakeDescriptor(s, family, owner, size, durability, now);
      && (made.Ok? <==> family in s.nextGeneration) && (made.Err? ==> t == s)
      && (made.Ok? ==>
            && t == s.(nextId := s.nextId + 1)
            && MadeFor(s, made.value, family, owner, size, durability, now)
            && (Admission(t, made.value).None? <==>
                  s.nextId !in s.checkpoints && Chunking.ValidChunkSize(s.cfg.chunkSize) && s.registered))
  {
  }

  // ----- Identities -----

  /** Every checkpoint has an id the store has handed out. */
  ghost predicate Issued(s: State)
  {
    forall id :: id in s.checkpoints ==> id < s.nextId
  }

  lemma NextIdGrows(s: State, op: Runs.Op)
    ensures Runs.Perform(s, op).nextId >= s.nextId
  {
    hide StoreState.Publish, Run, Reachable, MarkedSizes, OnlyHealth, Recovery.Restore, Recovery.VerifyCheckpoint,
         Retention.Protected, Persistence.ImageOf, Persistence.RaiseBy, Persistence.StartFamilies,
         Persistence.NextAll;
    match op
    case Publish(d, data, f) =>
      PublishNextId(s, d, data, f);
    case GcRun(eligible, v, f) =>
      RunNextId(s, eligible, Retention.Protected(s, v), f);
    case Verify(c, f) =>
      VerifyHealth(s, c, f);
      HealthNextId(s, Recovery.VerifyCheckpoint(s, c, f).0);
    case Restore(c, f) =>
      RestoreHealth(s, c, f);
      HealthNextId(s, Recovery.Restore(s, c, f).0);
    case _ =>
  }

  lemma HealthNextId(s: State, t: State)
    requires OnlyHealth(s, t)
    ensures t.nextId == s.nextId
  {
  }

  lemma PublishNextId(s: State, d: Descriptor, data: Bytes, f: Faults)
    ensures StoreState.Publish(s, d, data, f).0.nextId >= s.nextId
  {
    hide Steps, Confirm, NewManifest, Undo, Chunking.Slices;
    if Admission(s, d).None? {
      var slices := Chunking.Slices(s.cfg.hash, data, s.cfg.chunkSize);
      StepsNextId(Begun(s), slices, |slices|, s.nextId, f);
    }
  }

  lemma NoteNextId(s: State, st: Storage, draft: Draft, slice: Chunking.Slice, blobId: Id, replica: Id)
    ensures Note(s.(storage := st), draft, slice, blobId, replica).s.nextId == s.nextId + 1
  {
    hide NoteBlob, NewChunk, PrefixId, Refs;
  }

  lemma StepNextId(p: Progress, slice: Chunking.Slice, i: nat, replica: Id, f: Faults)
    ensures StoreState.Step(p, slice, i, replica, f).s.nextId >= p.s.nextId
  {
    hide Acquire, Note, PrefixId;
    var d, draft := slice.digest, p.draft;
    match Acquire(p.s.cfg.hash, p.s.storage, slice, i, f)
    case Refused(_, _) =>
    case Shared(st) =>
      NoteNextId(p.s, st, draft.(hits := draft.hits + 1), slice,
                 if d in st.dedup then st.dedup[d].blobId else PrefixId(d), replica);
    case Wrote(st) =>
      NoteNextId(p.s, st,
                 draft.(misses := draft.misses + 1, written := draft.written + |slice.bytes|,
                        wrote := draft.wrote + [d]),
                 slice, PrefixId(d), replica);
  }

  lemma {:induction false} StepsNextId(s: State, slices: seq<Chunking.Slice>, n: nat, replica: Id, f: Faults)
    requires n <= |slices|
    ensures Steps(s, slices, n, replica, f).s.nextId >= s.nextId
  {
    hide StoreState.Step;
    if n > 0 {
      StepsNextId(s, slices, n - 1, replica, f);
      StepNextId(Steps(s, slices, n - 1, replica, f), slices[n - 1], n - 1, replica, f);
    }
  }

  lemma RunNextId(s: State, eligible: seq<Id>, retained: set<Id>, f: Faults)
    ensures Run(s, eligible, retained, f).nextId == s.nextId
  {
    hide Sweep, Reclaim, Reachable;
    SweepNextId(s, eligible);
    ReclaimNextId(Sweep(s, eligible), Reachable(s.checkpoints, retained), s.gc.reclaimable, f);
  }

  lemma {:induction false} SweepNextId(s: State, ids: seq<Id>)
    ensures Sweep(s, ids).nextId == s.nextId
  {
    hide ReleaseAll;
    if ids != [] {
      SweepNextId(s, ids[..|ids| - 1]);
    }
  }

  lemma {:induction false} ReclaimNextId(s: State, reachable: set<Id>, list: seq<Id>, f: Faults)
    ensures Reclaim(s, reachable, list, f).nextId == s.nextId
  {
    hide RemoveFrom, BlobKey;
    if list != [] {
      ReclaimNextId(s, reachable, list[..|list| - 1], f);
    }
  }

  lemma StepIssued(s: State, op: Runs.Op)
    requires Issued(s) && (op.Publish? ==> op.d.id < s.nextId)
    ensures Issued(Runs.Perform(s, op))
  {
    hide Runs.Perform, StoreState.Publish;
    NextIdGrows(s, op);
    if op.Publish? {
      Runs.PublishPromises(s, op.d, op.data, op.faults);
      Runs.PublishStep(s, op);
    } else {
      Runs.OthersKeepManifests(s, op);
    }
  }

  /** In a run that publishes only under ids the store has handed out, the next id is always free. */
  lemma {:induction false} RunIssued(w: Runs.World, ops: seq<Runs.Op>)
    requires Issued(w.s)
    requires forall i :: 0 <= i < |ops| && ops[i].Publish? ==> ops[i].d.id < Runs.After(w, ops[..i]).s.nextId
    ensures Issued(Runs.After(w, ops).s)
  {
    hide Runs.Perform, Runs.Remember, Issued;
    if ops != [] {
      var n := |ops| - 1;
      assert forall i :: 0 <= i <= n ==> ops[..n][..i] == ops[..i];
      RunIssued(w, ops[..n]);
      StepIssued(Runs.After(w, ops[..n]).s, ops[n]);
    }
  }

  /** A new store hands out 1 as its first family and 1000 as its first identity, for generation 1. */
  lemma FirstIssued(cfg: Config, boot: Id, owner: Id, size: nat, durability: Byte, now: int)
    ensures var s := StoreState.CreateFamily(Runs.Init(cfg, boot));
      var made := StoreState.MakeDescriptor(s, 1, owner, size, durability, now).1;
      && s.families == map[1 := Family(1, 1, [])] && s.nextFamilyId == 2
      && made.Ok? && made.value.id == 1000 && made.value.generation == 1
  {
  }

  // ----- Reference counters -----

  lemma AcquireFits(hash: Bytes -> Digest, st: Storage, slice: Chunking.Slice, i: nat, f: Faults)
    requires CountersFit(st.dedup)
    ensures CountersFit(Acquire(hash, st, slice, i, f).st.dedup)
  {
    hide BlobKey, PrefixId, Backend.VerifyObject;
  }

  lemma {:induction false} StepsFit(s: State, slices: seq<Chunking.Slice>, n: nat, replica: Id, f: Faults)
    requires n <= |slices| && CountersFit(s.storage.dedup)
    ensures CountersFit(Steps(s, slices, n, replica, f).s.storage.dedup)
  {
    hide StoreState.Step, Acquire, CountersFit;
    if n > 0 {
      var p := Steps(s, slices, n - 1, replica, f);
      StepsFit(s, slices, n - 1, replica, f);
      StepTurn(p, slices[n - 1], n - 1, replica, f);
      AcquireFits(p.s.cfg.hash, p.s.storage, slices[n - 1], n - 1, f);
    }
  }

  lemma ReleasedFits(t: Table, d: Digest)
    requires CountersFit(t)
    ensures CountersFit(Released(t, d)) && CountersFit(OrphanDropped(t, d))
  {
  }

  lemma {:induction false} ReleaseWrittenFits(t: Table, wrote: seq<Digest>)
    requires CountersFit(t)
    ensures CountersFit(ReleaseWritten(t, wrote))
  {
    hide CountersFit, Released, OrphanDropped;
    if wrote != [] {
      var n := |wrote| - 1;
      ReleaseWrittenFits(t, wrote[..n]);
      ReleasedFits(ReleaseWritten(t, wrote[..n]), wrote[n]);
      ReleasedFits(Released(ReleaseWritten(t, wrote[..n]), wrote[n]), wrote[n]);
    }
  }

  lemma PublishFits(s: State, d: Descriptor, data: Bytes, f: Faults)
    requires CountersFit(s.storage.dedup)
    ensures CountersFit(StoreState.Publish(s, d, data, f).0.storage.dedup)
  {
    hide Steps, Confirm, NewManifest, CountersFit, ReleaseWritten, RemoveWritten, Chunking.Slices;
    if Admission(s, d).None? {
      var slices := Chunking.Slices(s.cfg.hash, data, s.cfg.chunkSize);
      StepsFit(Begun(s), slices, |slices|, s.nextId, f);
      var p := PublishSteps(s, data, f);
      ReleaseWrittenFits(p.s.storage.dedup, p.draft.wrote);
    }
  }

  lemma {:induction false} ReleaseAllFits(t: Table, chunks: seq<Chunk>)
    requires CountersFit(t)
    ensures CountersFit(ReleaseAll(t, chunks))
  {
    hide CountersFit, Released, OrphanDropped;
    if chunks != [] {
      var n := |chunks| - 1;
      ReleaseAllFits(t, chunks[..n]);
      ReleasedFits(ReleaseAll(t, chunks[..n]), chunks[n].digest);
    }
  }

  lemma {:induction false} SweepFits(s: State, ids: seq<Id>)
    requires CountersFit(s.storage.dedup)
    ensures CountersFit(Sweep(s, ids).storage.dedup)
  {
    hide CountersFit, ReleaseAll;
    if ids != [] {
      var t, id := Sweep(s, ids[..|ids| - 1]), ids[|ids| - 1];
      SweepFits(s, ids[..|ids| - 1]);
      if id in t.checkpoints {
        ReleaseAllFits(t.storage.dedup, t.checkpoints[id].chunks);
      }
    }
  }

  lemma {:induction false} ReclaimFits(s: State, reachable: set<Id>, list: seq<Id>, f: Faults)
    requires CountersFit(s.storage.dedup)
    ensures CountersFit(Reclaim(s, reachable, list, f).storage.dedup)
  {
    hide CountersFit, RemoveFrom, BlobKey, OrphanDropped;
    if list != [] {
      var t, bid := Reclaim(s, reachable, list[..|list| - 1], f), list[|list| - 1];
      ReclaimFits(s, reachable, list[..|list| - 1], f);
      if bid in t.blobs {
        ReleasedFits(t.storage.dedup, t.blobs[bid].digest);
      }
    }
  }

  lemma RunFits(s: State, eligible: seq<Id>, retained: set<Id>, f: Faults)
    requires CountersFit(s.storage.dedup)
    ensures CountersFit(Run(s, eligible, retained, f).storage.dedup)
  {
    hide CountersFit, Sweep, Reclaim, Reachable;
    SweepFits(s, eligible);
    ReclaimFits(Sweep(s, eligible), Reachable(s.checkpoints, retained), s.gc.reclaimable, f);
  }

  lemma StepFits(s: State, op: Runs.Op)
    requires CountersFit(s.storage.dedup)
    ensures CountersFit(Runs.Perform(s, op).storage.dedup)
  {
    hide CountersFit, StoreState.Publish, Run, Reachable, MarkedSizes, OnlyHealth, Recovery.Restore,
         Recovery.VerifyCheckpoint, Retention.Protected, Persistence.ImageOf, Persistence.RaiseBy,
         Persistence.StartFamilies, Persistence.NextAll;
    match op
    case Publish(d, data, f) =>
      PublishFits(s, d, data, f);
    case GcRun(eligible, v, f) =>
      RunFits(s, eligible, Retention.Protected(s, v), f);
    case Verify(c, f) =>
      VerifyHealth(s, c, f);
      HealthStorage(s, Recovery.VerifyCheckpoint(s, c, f).0);
    case Restore(c, f) =>
      RestoreHealth(s, c, f);
      HealthStorage(s, Recovery.Restore(s, c, f).0);
    case _ =>
  }

  lemma HealthStorage(s: State, t: State)
    requires OnlyHealth(s, t)
    ensures t.storage == s.storage
  {
  }

  /** In every run the reference counters stay within 64 bits, however often content is shared. */
  lemma {:induction false} RunCountersFit(w: Runs.World, ops: seq<Runs.Op>)
    requires CountersFit(w.s.storage.dedup)
    ensures CountersFit(Runs.After(w, ops).s.storage.dedup)
  {
    hide Runs.Perform, Runs.Remember, CountersFit;
    if ops != [] {
      RunCountersFit(w, ops[..|ops| - 1]);
      StepFits(Runs.After(w, ops[..|ops| - 1]).s, ops[|ops| - 1]);
    }
  }

  // ----- A made descriptor commits -----

  /**
   In every run from an empty store that publishes only under ids the store has handed out: a descriptor
   made for a known family commits, with every backend call going through and no two strings in play
   sharing a digest, if and only if entries, counters and chunk ids allow it.
   */
  lemma MadeCommitsExactly(cfg: Config, boot: Id, ops: seq<Runs.Op>, family: Id, owner: Id, size: nat,
                           durability: Byte, now: int, data: Bytes, f: Faults)
    requires Chunking.ValidChunkSize(cfg.chunkSize) && Answering(f)
    requires forall i :: 0 <= i < |ops| && ops[i].Publish? ==>
               ops[i].d.id < Runs.After(Runs.Start(cfg, boot), ops[..i]).s.nextId
    requires family in Runs.After(Runs.Start(cfg, boot), ops).s.nextGeneration
    requires NoClash(cfg.hash, Runs.After(Runs.Start(cfg, boot), ops).s.storage,
                     Chunking.Slices(cfg.hash, data, cfg.chunkSize))
    ensures var s := Runs.After(Runs.Start(cfg, boot), ops).s;
      var (t, made) := StoreState.MakeDescriptor(s, family, owner, size, durability, now);
      var slices := Chunking.Slices(cfg.hash, data, cfg.chunkSize);
      && made.Ok?
      && (StoreState.Publish(t, made.value, data, f).1.Ok? <==>
            EntriesAgree(s.storage.dedup, slices) && RoomFor(cfg.hash, s.storage, slices) && IdsSized(slices))
  {
    hide Runs.After, Answering, NoClash, CountersFit, StoreState.Publish, StoreState.MakeDescriptor, Admission,
         EntriesAgree, RoomFor, IdsSized, Chunking.Slices;
    var w := Runs.Start(cfg, boot);
    var s := Runs.After(w, ops).s;
    InitFits(cfg, boot);
    RunIssued(w, ops);
    RunCountersFit(w, ops);
    Runs.RunPromised(cfg, w, ops);
    MadeIsAdmitted(s, family, owner, size, durability, now);
    var (t, made) := StoreState.MakeDescriptor(s, family, owner, size, durability, now);
    CommitsExactly(t, made.value, data, f);
  }

  lemma InitFits(cfg: Config, boot: Id)
    ensures var w := Runs.Start(cfg, boot);
      CountersFit(w.s.storage.dedup) && Issued(w.s) && Runs.Promised(cfg, w)
  {
  }
}

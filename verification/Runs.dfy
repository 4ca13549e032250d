/** Whole runs of a store: what holds after every sequence of operations. */
module Runs {
  import opened Basics
  import opened Model
  import opened Chunking
  import opened Dedup
  import opened StoreState
  import opened Invariant
  import opened Publication
  import opened Collection
  import opened CollectionSafety
  import opened RestoreCorrectness
  import Retention
  import Recovery
  import Persistence
  import Codec
  import Backend

  /** The operations of a store, with what the environment contributes to each. */
  datatype Op =
    | CreateFamily
    | MakeDescriptor(family: Id, owner: Id, size: nat, durability: Byte, now: int)
    | Publish(d: Descriptor, data: Bytes, faults: Faults)
    | Retire(id: Id)
    | SetPolicy(policy: Policy)
    | GcPlan(view: Retention.View, list: seq<Id>)
    | GcRun(eligible: seq<Id>, after: Retention.View, faults: Faults)
    | Verify(id: Id, faults: Faults)
    | Restore(id: Id, faults: Faults)
    | SetBoot(boot: Id)
    | ResetAuthority
    | Restart
    | Tamper(objects: map<string, Bytes>)

  function Init(cfg: Config, boot: Id): State
  {
    State(cfg, boot, 1, true, Storage(Backend.Store(map[], map[], map[], 0), map[]),
          map[], map[], map[], map[], map[], map[], map[], 1, 1000,
          GcState(0, 1, GC_IDLE, {}, [], 0, 0, FRESH_UNKNOWN), [0, 0, 0, 0, 0, 0, 0])
  }

  /** A new process over the same backend objects. */
  function Reopened(s: State): State
  {
    Init(s.cfg, s.bootId).(registered := s.registered,
                           storage := Storage(Backend.Store(s.storage.backend.objects, map[], map[], 0), map[]))
  }

  function Reset(r: Record): Record
  {
    if r.lifecycle == LIFE_WRITING || r.lifecycle == LIFE_CREATING then r.(lifecycle := LIFE_FAILED) else r
  }

  function ResetBlob(b: Blob): Blob
  {
    b.(freshness := FRESH_REVALIDATION_REQUIRED,
       integrity := if b.integrity != INTEGRITY_CORRUPT then INTEGRITY_UNVERIFIED else b.integrity)
  }

  function ResetRecords(m: map<Id, Record>): map<Id, Record> { map id | id in m :: Reset(m[id]) }

  function ResetBlobs(m: map<Id, Blob>): map<Id, Blob> { map b | b in m :: ResetBlob(m[b]) }

  function AuthorityReset(s: State): State
  {
    s.(checkpoints := ResetRecords(s.checkpoints),
       blobs := ResetBlobs(s.blobs),
       gc := s.gc.(phase := GC_IDLE))
  }

  ghost function Perform(s: State, op: Op): State
  {
    match op
    case CreateFamily => StoreState.CreateFamily(s)
    case MakeDescriptor(family, owner, size, durability, now) =>
      StoreState.MakeDescriptor(s, family, owner, size, durability, now).0
    case Publish(d, data, f) => StoreState.Publish(s, d, data, f).0
    case Retire(id) => Retention.Retire(s, id).0
    case SetPolicy(p) => Retention.SetPolicy(s, p)
    case GcPlan(v, list) => Plan(s, Reachable(s.checkpoints, Retention.Protected(s, v)), list)
    case GcRun(eligible, v, f) => Run(s, eligible, Retention.Protected(s, v), f)
    case Verify(id, f) => Recovery.VerifyCheckpoint(s, id, f).0
    case Restore(id, f) => Recovery.Restore(s, id, f).0
    case SetBoot(b) => s.(bootId := b)
    case ResetAuthority => AuthorityReset(s)
    case Restart => Persistence.Recovered(Reopened(s), s)
    case Tamper(objects) => s.(storage := s.storage.(backend := s.storage.backend.(objects := objects)))
  }

  /** What each committed publication was given, by checkpoint id. */
  ghost function Remember(s: State, hist: map<Id, Bytes>, op: Op): map<Id, Bytes>
  {
    if op.Publish? && StoreState.Publish(s, op.d, op.data, op.faults).1.Ok? then hist[op.d.id := op.data] else hist
  }

  datatype World = World(s: State, hist: map<Id, Bytes>)

  ghost function After(w: World, ops: seq<Op>): World
  {
    if ops == [] then w
    else
      var v, op := After(w, ops[..|ops| - 1]), ops[|ops| - 1];
      World(Perform(v.s, op), Remember(v.s, v.hist, op))
  }

  /** What each operation does, in the words of the store's own functions. */
  lemma Performs(s: State, op: Op)
    ensures match op
      case CreateFamily => Perform(s, op) == StoreState.CreateFamily(s)
      case MakeDescriptor(family, owner, size, durability, now) =>
        Perform(s, op) == StoreState.MakeDescriptor(s, family, owner, size, durability, now).0
      case Publish(d, data, f) => Perform(s, op) == StoreState.Publish(s, d, data, f).0
      case Retire(id) => Perform(s, op) == Retention.Retire(s, id).0
      case SetPolicy(p) => Perform(s, op) == Retention.SetPolicy(s, p)
      case GcPlan(v, list) =>
        Perform(s, op) == Plan(s, Reachable(s.checkpoints, Retention.Protected(s, v)), list)
      case GcRun(eligible, v, f) => Perform(s, op) == Run(s, eligible, Retention.Protected(s, v), f)
      case Verify(id, f) => Perform(s, op) == Recovery.VerifyCheckpoint(s, id, f).0
      case Restore(id, f) => Perform(s, op) == Recovery.Restore(s, id, f).0
      case SetBoot(b) => Perform(s, op) == s.(bootId := b)
      case ResetAuthority => Perform(s, op) == AuthorityReset(s)
      case Restart => Perform(s, op) == Persistence.Recovered(Reopened(s), s)
      case _ => true
  {
    hide StoreState.CreateFamily, StoreState.MakeDescriptor, StoreState.Publish, Retention.Retire,
         Retention.SetPolicy, Plan, Reachable, Retention.Protected, Run, Recovery.VerifyCheckpoint, Recovery.Restore,
         AuthorityReset, Persistence.Recovered;
  }

  /** A sequence of operations on a state alone. */
  ghost function PerformAll(s: State, ops: seq<Op>): State
  {
    if ops == [] then s else Perform(PerformAll(s, ops[..|ops| - 1]), ops[|ops| - 1])
  }

  lemma {:induction false} AfterAll(w: World, log: seq<Op>, ops: seq<Op>)
    ensures After(w, log + ops).s == PerformAll(After(w, log).s, ops)
  {
    hide Perform, Remember;
    if ops == [] {
      assert log + ops == log;
    } else {
      var n, all := |ops| - 1, log + ops;
      AfterAll(w, log, ops[..n]);
      assert all[..|all| - 1] == log + ops[..n];
    }
  }

  ghost function Start(cfg: Config, boot: Id): World { World(Init(cfg, boot), map[]) }

  // ----- Every manifest promises the digest of what was published -----

  ghost predicate Promised(cfg: Config, w: World)
  {
    && w.s.cfg == cfg && w.s.registered && w.hist.Keys == w.s.checkpoints.Keys
    && forall id :: id in w.hist ==>
         && w.s.checkpoints[id].manifest.checkpointDigest == cfg.hash(w.hist[id])
         && SlicedAs(cfg, w.hist[id], w.s.checkpoints[id].chunks)
  }

  /** The chunks are, in order, the slices of the data. */
  ghost predicate SlicedAs(cfg: Config, data: Bytes, chunks: seq<Chunk>)
  {
    && ValidChunkSize(cfg.chunkSize)
    && var slices := Slices(cfg.hash, data, cfg.chunkSize);
       |chunks| == |slices| && forall i :: 0 <= i < |slices| ==> chunks[i].digest == slices[i].digest
  }

  /** No step but publication touches an identity, a manifest or a list of chunks. */
  ghost predicate SameManifests(s: State, t: State)
  {
    && t.cfg == s.cfg && t.registered == s.registered && t.checkpoints.Keys == s.checkpoints.Keys
    && forall id :: id in s.checkpoints ==>
         && t.checkpoints[id].manifest == s.checkpoints[id].manifest
         && t.checkpoints[id].chunks == s.checkpoints[id].chunks
         && SameName(s.checkpoints[id].descriptor, t.checkpoints[id].descriptor)
  }

  /** Only a restart touches a descriptor, and then only the time in it. */
  ghost predicate SameName(d: Descriptor, e: Descriptor)
  {
    e == d.(createdAt := e.createdAt)
  }

  /** The families, their lists and their generation counters are untouched. */
  ghost predicate SameBooks(s: State, t: State)
  {
    t.families == s.families && t.nextGeneration == s.nextGeneration && t.nextFamilyId == s.nextFamilyId
  }

  /** A commit takes the family's next generation and moves the counter past it. */
  ghost predicate Enters(s: State, t: State, d: Descriptor)
    requires d.id in t.checkpoints
  {
    && d.familyId in s.nextGeneration && d.generation == s.nextGeneration[d.familyId]
    && t.checkpoints[d.id].descriptor == d && t.checkpoints[d.id].lifecycle == LIFE_COMMITTED
    && t.nextFamilyId == s.nextFamilyId
    && t.nextGeneration == s.nextGeneration[d.familyId := d.generation + 1]
    && t.families == if d.familyId !in s.families then s.families else
         var fam := s.families[d.familyId];
         s.families[d.familyId := fam.(checkpointIds := fam.checkpointIds + [d.id])]
  }

  /** The manifest names the ancestors the descriptor names. */
  ghost predicate SameAncestry(d: Descriptor, m: Manifest)
  {
    m.lineage == d.lineage && m.parent == d.parent && m.base == d.base
  }

  lemma PublishPromises(s: State, d: Descriptor, data: Bytes, f: Faults)
    ensures var (t, r) := StoreState.Publish(s, d, data, f);
      && t.cfg == s.cfg && t.registered == s.registered
      && (r.Err? ==> t.checkpoints == s.checkpoints && SameBooks(s, t))
      && (r.Ok? ==> && d.id !in s.checkpoints && d.id in t.checkpoints && Enters(s, t, d)
                    && t.checkpoints == s.checkpoints[d.id := t.checkpoints[d.id]]
                    && t.checkpoints[d.id].manifest.checkpointDigest == s.cfg.hash(data)
                    && SameAncestry(d, t.checkpoints[d.id].manifest)
                    && SlicedAs(s.cfg, data, t.checkpoints[d.id].chunks))
  {
    hide Steps, ReadBack, Span, SortEntries, Undo, Semantics, Slices;
    if Admission(s, d).None? {
      var slices := Slices(s.cfg.hash, data, s.cfg.chunkSize);
      StepsFrame(s.(nextId := s.nextId + 1), slices, |slices|, s.nextId, f);
    }
  }

  ghost predicate Frames(s: State, t: State)
  {
    t == s.(storage := t.storage, blobs := t.blobs, placements := t.placements, nextId := t.nextId)
  }

  ghost predicate Appends(a: seq<Chunk>, b: seq<Chunk>, d: Digest)
  {
    |b| == |a| + 1 && b[..|a|] == a && b[|a|].digest == d
  }

  lemma StepFrame(p: Progress, slice: Slice, i: nat, replica: Id, f: Faults)
    ensures var q := StoreState.Step(p, slice, i, replica, f);
      && Frames(p.s, q.s)
      && (q.error.None? ==> p.error.None? && Appends(p.draft.chunks, q.draft.chunks, slice.digest))
  {
    hide Acquire, Note, PrefixId, Frames, Appends;
    SwapFrame(p.s, p.s.storage);
    var d, draft := slice.digest, p.draft;
    match Acquire(p.s.cfg.hash, p.s.storage, slice, i, f)
    case Refused(st, _) =>
      SwapFrame(p.s, st);
    case Shared(st) =>
      NoteFrame(p.s, st, draft.(hits := draft.hits + 1), slice,
                if d in st.dedup then st.dedup[d].blobId else PrefixId(d), replica);
    case Wrote(st) =>
      NoteFrame(p.s, st,
                draft.(misses := draft.misses + 1, written := draft.written + |slice.bytes|,
                       wrote := draft.wrote + [d]),
                slice, PrefixId(d), replica);
  }

  lemma SwapFrame(s: State, st: Storage)
    ensures Frames(s, s.(storage := st))
  {
  }

  lemma NoteFrame(s: State, st: Storage, draft: Draft, slice: Slice, blobId: Id, replica: Id)
    ensures var q := Note(s.(storage := st), draft, slice, blobId, replica);
      Frames(s, q.s) && Appends(draft.chunks, q.draft.chunks, slice.digest) && q.error.None?
  {
    hide NoteBlob, PrefixId, Refs;
  }

  lemma {:induction false} StepsFrame(s: State, slices: seq<Slice>, n: nat, replica: Id, f: Faults)
    requires n <= |slices|
    ensures var p := Steps(s, slices, n, replica, f);
      && Frames(s, p.s)
      && (p.error.None? ==>
            && |p.draft.chunks| == n
            && forall i :: 0 <= i < n ==> p.draft.chunks[i].digest == slices[i].digest)
  {
    hide StoreState.Step;
    if n > 0 {
      StepsFrame(s, slices, n - 1, replica, f);
      StepFrame(Steps(s, slices, n - 1, replica, f), slices[n - 1], n - 1, replica, f);
    }
  }

  lemma SweepOneManifests(s: State, id: Id)
    ensures SameManifests(s, SweepOne(s, id)) && SameBooks(s, SweepOne(s, id))
  {
    hide ReleaseAll;
    if id in s.checkpoints && Live(s.checkpoints[id]) {
      RecordManifests(s, id, s.checkpoints[id].(lifecycle := LIFE_DELETED));
    }
  }

  lemma ManifestsThrough(r: State, s: State, t: State)
    requires SameManifests(r, s) && SameBooks(r, s) && SameManifests(s, t) && SameBooks(s, t)
    ensures SameManifests(r, t) && SameBooks(r, t)
  {
  }

  lemma {:induction false} SweepManifests(s: State, ids: seq<Id>)
    ensures SameManifests(s, Sweep(s, ids)) && SameBooks(s, Sweep(s, ids))
  {
    hide SweepOne, SameManifests, SameBooks;
    if ids == [] {
      FrameManifests(s, s);
    } else {
      var t := Sweep(s, ids[..|ids| - 1]);
      SweepManifests(s, ids[..|ids| - 1]);
      SweepOneManifests(t, ids[|ids| - 1]);
      ManifestsThrough(s, t, SweepOne(t, ids[|ids| - 1]));
    }
  }

  lemma {:induction false} ReclaimManifests(s: State, reachable: set<Id>, list: seq<Id>, f: Faults)
    ensures SameManifests(s, Reclaim(s, reachable, list, f)) && SameBooks(s, Reclaim(s, reachable, list, f))
  {
    hide RemoveFrom, BlobKey;
    if list != [] {
      ReclaimManifests(s, reachable, list[..|list| - 1], f);
    }
  }

  /** Restarting is loading, in a new process, what the old one saved. */
  lemma RestartLoads(s: State)
    requires Persistence.InBounds(s)
    ensures Persistence.Load(Reopened(s), Persistence.Save(s)) == Ok(Perform(s, Restart))
  {
    hide Persistence.InBounds, Persistence.Load, Persistence.Save, Persistence.Recovered, StoreState.Publish,
         Recovery.Restore, Recovery.VerifyCheckpoint, Run;
    Persistence.LoadSave(Reopened(s), s);
  }

  lemma GcManifests(s: State, eligible: seq<Id>, retained: set<Id>, f: Faults)
    ensures SameManifests(s, Run(s, eligible, retained, f)) && SameBooks(s, Run(s, eligible, retained, f))
  {
    hide Sweep, Reclaim, Reachable;
    SweepManifests(s, eligible);
    ReclaimManifests(Sweep(s, eligible), Reachable(s.checkpoints, retained), s.gc.reclaimable, f);
  }

  lemma HealthManifests(s: State, t: State)
    requires OnlyHealth(s, t)
    ensures SameManifests(s, t) && SameBooks(s, t)
  {
    HealthKeys(s, t);
  }

  lemma ReopenManifests(s: State)
    ensures SameManifests(s, Persistence.Recovered(Reopened(s), s))
  {
    hide Persistence.ImageOf, Persistence.RaiseBy, Persistence.StartFamilies, Persistence.NextAll;
  }

  lemma ResetManifests(s: State)
    ensures SameManifests(s, AuthorityReset(s)) && SameBooks(s, AuthorityReset(s))
  {
  }

  lemma RetireManifests(s: State, id: Id)
    ensures SameManifests(s, Retention.Retire(s, id).0) && SameBooks(s, Retention.Retire(s, id).0)
  {
    if id in s.checkpoints && s.checkpoints[id].lifecycle == LIFE_COMMITTED {
      RecordManifests(s, id, s.checkpoints[id].(lifecycle := LIFE_RETIRED));
    }
  }

  lemma RecordManifests(s: State, id: Id, r: Record)
    requires id in s.checkpoints && r.manifest == s.checkpoints[id].manifest && r.chunks == s.checkpoints[id].chunks
    requires r.descriptor == s.checkpoints[id].descriptor
    ensures SameManifests(s, s.(checkpoints := s.checkpoints[id := r]))
  {
  }

  lemma FrameManifests(s: State, t: State)
    requires t == s.(bootId := t.bootId, storage := t.storage, retention := t.retention, nextId := t.nextId, gc := t.gc)
    ensures SameManifests(s, t) && SameBooks(s, t)
  {
  }

  lemma CreateManifests(s: State)
    ensures SameManifests(s, StoreState.CreateFamily(s))
  {
  }

  /** Every step but publication leaves all manifests as they are; only three touch the books. */
  lemma OthersKeepManifests(s: State, op: Op)
    requires !op.Publish?
    ensures SameManifests(s, Perform(s, op))
    ensures !op.CreateFamily? && !op.Restart? ==> SameBooks(s, Perform(s, op))
  {
    hide SameManifests, SameBooks, StoreState.CreateFamily, Run, Reachable, Collection.MarkedSizes, OnlyHealth,
         Recovery.Restore, Recovery.VerifyCheckpoint, StoreState.Publish, Retention.Protected, Retention.Retire,
         Persistence.Recovered, AuthorityReset;
    match op
    case ResetAuthority =>
      ResetManifests(s);
    case Retire(id) =>
      RetireManifests(s, id);
    case GcRun(eligible, v, f) =>
      GcManifests(s, eligible, Retention.Protected(s, v), f);
    case Verify(id, f) =>
      VerifyHealth(s, id, f);
      HealthManifests(s, Recovery.VerifyCheckpoint(s, id, f).0);
    case Restore(id, f) =>
      RestoreHealth(s, id, f);
      HealthManifests(s, Recovery.Restore(s, id, f).0);
    case Restart =>
      ReopenManifests(s);
    case CreateFamily =>
      CreateManifests(s);
    case _ =>
      FrameManifests(s, Perform(s, op));
  }

  lemma PromisedStep(cfg: Config, w: World, op: Op)
    requires Promised(cfg, w)
    ensures Promised(cfg, World(Perform(w.s, op), Remember(w.s, w.hist, op)))
  {
    hide Perform, StoreState.Publish;
    if op.Publish? {
      PublishPromises(w.s, op.d, op.data, op.faults);
      PublishStep(w.s, op);
    } else {
      OthersKeepManifests(w.s, op);
    }
  }

  lemma PublishStep(s: State, op: Op)
    requires op.Publish?
    ensures Perform(s, op) == StoreState.Publish(s, op.d, op.data, op.faults).0
  {
    hide StoreState.Publish;
  }

  lemma {:induction false} RunPromised(cfg: Config, w: World, ops: seq<Op>)
    requires Promised(cfg, w)
    ensures Promised(cfg, After(w, ops))
  {
    hide Perform, Remember, Promised;
    if ops != [] {
      var n := |ops| - 1;
      assert forall i :: 0 <= i <= n ==> ops[..n][..i] == ops[..i];
      RunPromised(cfg, w, ops[..n]);
      PromisedStep(cfg, After(w, ops[..n]), ops[n]);
    }
  }

  /** The content a record describes. */
  ghost predicate SameContents(r: Record, q: Record)
  {
    q.chunks == r.chunks && q.manifest == r.manifest
  }

  lemma StepKeepsContents(s: State, op: Op, id: Id)
    requires id in s.checkpoints
    ensures Perform(s, op).cfg == s.cfg && id in Perform(s, op).checkpoints
    ensures SameContents(s.checkpoints[id], Perform(s, op).checkpoints[id])
  {
    hide Perform, StoreState.Publish, SameBooks;
    if op.Publish? {
      PublishPromises(s, op.d, op.data, op.faults);
      PublishStep(s, op);
    } else {
      OthersKeepManifests(s, op);
    }
  }

  lemma {:induction false} RunKeepsContents(w: World, ops: seq<Op>, n: nat, id: Id)
    requires n <= |ops| && id in After(w, ops[..n]).s.checkpoints
    ensures var s, t := After(w, ops[..n]).s, After(w, ops).s;
      id in t.checkpoints && t.cfg == s.cfg && SameContents(s.checkpoints[id], t.checkpoints[id])
  {
    hide Perform, Remember;
    assert ops[..|ops|] == ops;
    if n < |ops| {
      var m := |ops| - 1;
      assert ops[..m][..n] == ops[..n];
      RunKeepsContents(w, ops[..m], n, id);
      StepKeepsContents(After(w, ops[..m]).s, ops[m], id);
    }
  }

  /**
   In every run, whatever fails and whatever outsiders do to the stored objects, bytes that a
   restore returns have the digest of the bytes that were published under that id.
   */
  lemma RestoredIsPublished(cfg: Config, boot: Id, ops: seq<Op>, id: Id, f: Faults)
    ensures var w := After(Start(cfg, boot), ops);
      var (_, r) := Recovery.Restore(w.s, id, f);
      r.Ok? ==> id in w.hist && cfg.hash(r.value) == cfg.hash(w.hist[id])
  {
    hide After, Recovery.Restore;
    var w := After(Start(cfg, boot), ops);
    RunPromised(cfg, Start(cfg, boot), ops);
    if Recovery.Restore(w.s, id, f).1.Ok? {
      RestoreNeverLies(w.s, id, f);
    }
  }

  // ----- No step loses a byte of a live checkpoint -----

  /** The environment keeps its hands off the stored objects and does not flicker during a publication. */
  ghost predicate Honest(op: Op)
  {
    !op.Tamper? && (op.Publish? ==> Steady(op.faults))
  }

  lemma InitSafe(cfg: Config, boot: Id)
    ensures Safe(Init(cfg, boot))
  {
    hide BlobKey, PrefixId;
    var s := Init(cfg, boot);
    forall d: Digest
      ensures Uses(s.checkpoints, d) == 0
    {
      assert UseMap(s.checkpoints, d) == map[];
    }
  }

  /** Records that differ in nothing the invariant looks at. */
  ghost predicate SameUse(r: Record, q: Record)
  {
    && q.chunks == r.chunks && q.manifest == r.manifest && q.replicaSet == r.replicaSet
    && q.descriptor.id == r.descriptor.id && Live(q) == Live(r)
  }

  lemma SameUseSafe(s: State, t: State)
    requires Safe(s) && t.cfg == s.cfg && t.storage.dedup == s.storage.dedup
    requires t.storage.backend.objects == s.storage.backend.objects
    requires t.placements == s.placements && t.replicas == s.replicas && t.nextId == s.nextId && BlobsOk(t.blobs)
    requires t.checkpoints.Keys == s.checkpoints.Keys
    requires forall id :: id in s.checkpoints ==> SameUse(s.checkpoints[id], t.checkpoints[id])
    ensures Safe(t)
  {
    hide Uses, ChunkOk, BlobsOk, Content, BlobKey, PrefixId;
    forall d: Digest
      ensures Uses(t.checkpoints, d) == Uses(s.checkpoints, d)
      ensures Intact(t.cfg.hash, t.storage, d) == Intact(s.cfg.hash, s.storage, d)
    {
      SameUseUses(s.checkpoints, t.checkpoints, d);
    }
    forall id | id in t.checkpoints
      ensures RecordOk(t.cfg.primary, t.placements, t.replicas, id, t.checkpoints[id])
      ensures Content(t.storage, t.checkpoints[id]) == Content(s.storage, s.checkpoints[id])
    {
      assert SameUse(s.checkpoints[id], t.checkpoints[id]);
      assert RecordOk(s.cfg.primary, s.placements, s.replicas, id, s.checkpoints[id]);
      SameObjectsContent(s.storage, t.storage, s.checkpoints[id], t.checkpoints[id]);
    }
  }

  lemma SameUseUses(a: map<Id, Record>, b: map<Id, Record>, d: Digest)
    requires a.Keys == b.Keys && forall id :: id in a ==> SameUse(a[id], b[id])
    ensures Uses(b, d) == Uses(a, d)
  {
    hide Count;
    forall id | id in a
      ensures Live(a[id]) == Live(b[id]) && a[id].chunks == b[id].chunks
    {
      assert SameUse(a[id], b[id]);
    }
    assert UseMap(b, d) == UseMap(a, d);
  }

  lemma SameObjectsContent(s: Storage, t: Storage, r: Record, q: Record)
    requires s.backend.objects == t.backend.objects && q.chunks == r.chunks
    ensures Content(t, q) == Content(s, r)
  {
    hide BlobKey;
    ContentsSame(s, t, r.chunks, |r.chunks|);
  }

  /** The recovered store has the invariant the saved one had. */
  lemma RestartSafe(s: State)
    requires Safe(s)
    ensures Safe(Persistence.Recovered(Reopened(s), s))
  {
    hide Sound, RecordsOk, ContentsOk, BlobsOk, Persistence.ImageOf, Persistence.RaiseBy, Persistence.StartFamilies,
         Persistence.NextAll, Codec.WholeMillis;
    SameUseSafe(s, Persistence.Recovered(Reopened(s), s));
  }

  lemma ResetSafe(s: State)
    requires Safe(s)
    ensures Safe(AuthorityReset(s))
  {
    hide Sound, RecordsOk, ContentsOk, PrefixId;
    assert BlobsOk(AuthorityReset(s).blobs);
    SameUseSafe(s, AuthorityReset(s));
  }

  lemma RetireSafe(s: State, id: Id)
    requires Safe(s)
    ensures Safe(Retention.Retire(s, id).0)
  {
    hide Safe;
    if id in s.checkpoints && s.checkpoints[id].lifecycle == LIFE_COMMITTED {
      RecordSafe(s, id, s.checkpoints[id].(lifecycle := LIFE_RETIRED));
    }
  }

  lemma RecordSafe(s: State, id: Id, r: Record)
    requires Safe(s) && id in s.checkpoints && SameUse(s.checkpoints[id], r)
    ensures Safe(s.(checkpoints := s.checkpoints[id := r]))
  {
    hide Sound, RecordsOk, ContentsOk, BlobsOk;
    SameUseSafe(s, s.(checkpoints := s.checkpoints[id := r]));
  }

  lemma StepSafe(s: State, op: Op)
    requires Safe(s) && Honest(op)
    ensures Safe(Perform(s, op))
  {
    hide Safe, Run, Reachable, Collection.MarkedSizes, OnlyHealth, Recovery.Restore, Recovery.VerifyCheckpoint,
         StoreState.Publish, Retention.Protected, Retention.Retire, Persistence.Recovered, AuthorityReset;
    match op
    case Publish(d, data, f) =>
      PublishKeeps(s, d, data, f);
    case Retire(id) =>
      RetireSafe(s, id);
    case GcRun(eligible, v, f) =>
      RunKeeps(s, eligible, Retention.Protected(s, v), f);
    case Verify(id, f) =>
      VerifyHealth(s, id, f);
      HealthKeepsSafe(s, Recovery.VerifyCheckpoint(s, id, f).0);
    case Restore(id, f) =>
      RestoreHealth(s, id, f);
      HealthKeepsSafe(s, Recovery.Restore(s, id, f).0);
    case ResetAuthority =>
      ResetSafe(s);
    case Restart =>
      RestartSafe(s);
    case _ =>
      OtherFields(s, Perform(s, op));
  }

  lemma {:induction false} RunSafe(w: World, ops: seq<Op>)
    requires Safe(w.s) && forall op <- ops :: Honest(op)
    ensures Safe(After(w, ops).s)
  {
    hide Perform, Remember, Safe, Honest;
    if ops != [] {
      var n := |ops| - 1;
      RunSafe(w, ops[..n]);
      StepSafe(After(w, ops[..n]).s, ops[n]);
    }
  }

  /** In every reachable state the references to a digest are at least its uses by live checkpoints. */
  lemma RefsCoverUses(cfg: Config, boot: Id, ops: seq<Op>, d: Digest)
    requires forall op <- ops :: Honest(op)
    ensures var s := After(Start(cfg, boot), ops).s;
      Refs(s.storage.dedup, d) >= Uses(s.checkpoints, d)
  {
    hide After, Honest, Structured, ContentsOk, EntriesOk, UsedIntact, OrphansIntact, Uses;
    InitSafe(cfg, boot);
    RunSafe(Start(cfg, boot), ops);
  }

  /**
   The central law. After every honest run, through failed publications, retirements, policy
   changes, collections, restarts and restores, each checkpoint that is not deleted, and whose
   chunk ids tell its digests apart, restores to bytes with the digest of the bytes its publication
   was given; they are those very bytes unless the two strings collide under the hash.
   */
  lemma NothingIsLost(cfg: Config, boot: Id, ops: seq<Op>, id: Id, f: Faults)
    requires (forall op <- ops :: Honest(op)) && AllUp(f)
    ensures var w := After(Start(cfg, boot), ops);
      id in w.s.checkpoints && Live(w.s.checkpoints[id]) && IdsFaithful(w.s.checkpoints[id].chunks) ==>
        var (_, r) := Recovery.Restore(w.s, id, f);
        && id in w.hist && r.Ok? && cfg.hash(r.value) == cfg.hash(w.hist[id])
        && Recovery.VerifyCheckpoint(w.s, id, f).1 == Ok(INTEGRITY_VERIFIED)
  {
    hide After, Honest, AllUp, IdsFaithful, Recovery.Restore, Recovery.VerifyCheckpoint, RecordOk, Sound, ContentsOk,
         Whole;
    var w := After(Start(cfg, boot), ops);
    InitSafe(cfg, boot);
    RunSafe(Start(cfg, boot), ops);
    RestoredIsPublished(cfg, boot, ops, id, f);
    RunPromised(cfg, Start(cfg, boot), ops);
    if id in w.s.checkpoints && Live(w.s.checkpoints[id]) && IdsFaithful(w.s.checkpoints[id].chunks) {
      SafeIsWhole(w.s, id);
      RestoreExact(w.s, id, f);
      VerifyExact(w.s, id, f);
    }
  }

  /** No object stored for a slice is another string with the slice's digest. */
  ghost predicate NoCollision(hash: Bytes -> Digest, st: Storage, slices: seq<Slice>)
  {
    forall i :: 0 <= i < |slices| ==>
      (hash(ObjectOf(st, slices[i].digest)) == hash(slices[i].bytes) ==>
       ObjectOf(st, slices[i].digest) == slices[i].bytes)
  }

  lemma IntactIsStored(s: State, id: Id, data: Bytes)
    requires id in s.checkpoints && Whole(s, s.checkpoints[id]) && SlicedAs(s.cfg, data, s.checkpoints[id].chunks)
    requires NoCollision(s.cfg.hash, s.storage, Slices(s.cfg.hash, data, s.cfg.chunkSize))
    ensures StoredAs(s.storage, s.checkpoints[id].chunks, Slices(s.cfg.hash, data, s.cfg.chunkSize))
  {
    hide BlobKey, Contents, SlicesFrom;
    var slices, chunks := Slices(s.cfg.hash, data, s.cfg.chunkSize), s.checkpoints[id].chunks;
    SlicesAreSliced(s.cfg.hash, data, s.cfg.chunkSize);
    forall i | 0 <= i < |slices|
      ensures StoredAt(s.storage, chunks[i], slices[i])
    {
      assert Intact(s.cfg.hash, s.storage, chunks[i].digest);
    }
  }

  /**
   Exactly when a live checkpoint gives back what was published. After every honest run, as long as
   no object stored for one of its slices is another string with the slice's digest: if and only if
   the eight-byte chunk ids tell its slices apart.
   */
  lemma PublishedBytesComeBack(cfg: Config, boot: Id, ops: seq<Op>, id: Id, f: Faults)
    requires (forall op <- ops :: Honest(op)) && AllUp(f)
    ensures var w := After(Start(cfg, boot), ops);
      id in w.s.checkpoints && Live(w.s.checkpoints[id]) ==>
        && id in w.hist && cfg.chunkSize > 0
        && (NoCollision(cfg.hash, w.s.storage, Slices(cfg.hash, w.hist[id], cfg.chunkSize)) ==>
              && Recovery.VerifyCheckpoint(w.s, id, f).1 == Ok(INTEGRITY_VERIFIED)
              && (Recovery.Restore(w.s, id, f).1 == Ok(w.hist[id]) <==> IdsFaithful(w.s.checkpoints[id].chunks)))
  {
    hide After, Honest, AllUp, IdsFaithful, Recovery.VerifyCheckpoint, Recovery.Restore, Structured, Sound,
         ContentsOk, Whole, NoCollision, StoredAs;
    var w := After(Start(cfg, boot), ops);
    InitSafe(cfg, boot);
    RunSafe(Start(cfg, boot), ops);
    RunPromised(cfg, Start(cfg, boot), ops);
    if id in w.s.checkpoints && Live(w.s.checkpoints[id]) {
      SafeIsWhole(w.s, id);
      if NoCollision(cfg.hash, w.s.storage, Slices(cfg.hash, w.hist[id], cfg.chunkSize)) {
        IntactIsStored(w.s, id, w.hist[id]);
        RestoreReturnsData(w.s, id, w.hist[id], f);
      }
    }
  }
}

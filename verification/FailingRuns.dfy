/** Runs from an empty store at which the code does less than its documentation says. */
module FailingRuns {
  import opened Basics
  import opened Model
  import opened Chunking
  import opened Dedup
  import opened StoreState
  import opened Invariant
  import opened Publication
  import opened Collection
  import opened CollectionSafety
  import opened RestoreCorrectness
  import opened Exactness
  import opened Completeness
  import opened Failure
  import opened Leak
  import Flicker
  import Generations
  import PolicyOrder
  import Recovery
  import Retention
  import Runs

  // ----- One checkpoint, one slice -----

  /** What one committed checkpoint of one slice leaves behind. */
  ghost predicate Single(s: State, boot: Id, data: Bytes)
  {
    && HoldsOne(s, boot, data) && Tidy(s, None) && s.retention == map[]
    && s.storage.dedup.Keys == {s.cfg.hash(data)} && s.checkpoints.Keys == {7}
    && s.checkpoints[7].descriptor == Generations.Plain(7, boot)
    && s.checkpoints[7].replicaSet.durabilityState == DURABILITY_HEALTHY
  }

  lemma OnlyEntry(s: State, d: Descriptor, data: Bytes)
    requires StoreState.Publish(s, d, data, WELL).1.Ok? && 0 < |data| <= s.cfg.chunkSize && s.storage.dedup == map[]
    requires LedgerOf(s) && d.requiredReplicaCount <= 1
    ensures var t := StoreState.Publish(s, d, data, WELL).0;
      && t.storage.dedup.Keys == {s.cfg.hash(data)} && t.retention == s.retention
      && d.id in t.checkpoints && t.checkpoints[d.id].replicaSet.durabilityState == DURABILITY_HEALTHY
  {
    hide StoreState.Publish, Confirm, NewManifest, Slices, Acquire, StoreState.Step, Steady, Ledger, PrefixId;
    ReceiptMeans(s, d, data, WELL);
    Flicker.OneSlice(s.cfg.hash, data, s.cfg.chunkSize);
    var slice, p0 := Slice(0, data, s.cfg.hash(data)), Progress(Begun(s), NO_DRAFT, None);
    assert Steps(Begun(s), [slice], 0, s.nextId, WELL) == p0;
    var p := PublishSteps(s, data, WELL);
    assert p == StoreState.Step(p0, slice, 0, s.nextId, WELL);
    StepTurn(p0, slice, 0, s.nextId, WELL);
    Runs.StepFrame(p0, slice, 0, s.nextId, WELL);
    EmptyIntact(s);
    WellIsHonest(d, data);
    AcquireExact(s.cfg.hash, s.storage, slice, 0, WELL);
  }

  lemma EmptyIntact(s: State)
    requires s.storage.dedup == map[]
    ensures AllIntact(s.cfg.hash, s.storage)
  {
  }

  lemma FirstCommitIsSingle(cfg: Config, boot: Id, data: Bytes)
    requires ValidChunkSize(cfg.chunkSize) && 0 < |data| <= cfg.chunkSize
    ensures var s := StoreState.CreateFamily(Runs.Init(cfg, boot));
      Single(StoreState.Publish(s, Generations.Plain(7, boot), data, WELL).0, boot, data)
  {
    hide HoldsOne, Tidy, Safe, Ledger, StoreState.Publish, Steady;
    var s, d := StoreState.CreateFamily(Runs.Init(cfg, boot)), Generations.Plain(7, boot);
    WellIsHonest(d, data);
    Runs.InitSafe(cfg, boot);
    StartLedger(cfg, boot);
    CreatedSafe(Runs.Init(cfg, boot));
    OneSliceCommits(s, d, data);
    FirstCommitHolds(cfg, boot, data);
    CreatedTidy(cfg, boot);
    PublishTidy(s, d, data, WELL);
    Runs.PublishPromises(s, d, data, WELL);
    OnlyEntry(s, d, data);
  }

  lemma CreatedTidy(cfg: Config, boot: Id)
    ensures Tidy(StoreState.CreateFamily(Runs.Init(cfg, boot)), None)
  {
    hide BlobKey, PrefixId;
  }

  // ----- It is retired and collected -----

  function Collected(boot: Id, data: Bytes, bid: Id, now: int, f: Faults): seq<Runs.Op>
  {
    [Runs.CreateFamily, Runs.Op.Publish(Generations.Plain(7, boot), data, WELL), Runs.Op.Retire(7),
     Runs.GcPlan(Retention.View(now, []), [bid]), Runs.GcRun([7], Retention.View(now, []), f)]
  }

  lemma SingleRecords(s: State, boot: Id, data: Bytes)
    requires Single(s, boot, data)
    ensures var d := s.cfg.hash(data); Filed(s, d) && s.blobs.Keys == {PrefixId(d)}
  {
    hide Ledger, Sound, RecordsOk, ContentsOk, IdsBelow, PrefixId, BlobKey, BlobKnown;
    var d := s.cfg.hash(data);
    forall b | b in s.blobs ensures b == PrefixId(d) { KnownDigest(s, b); }
    KnownDigest(s, PrefixId(d));
    SingleIntact(s, boot, data);
  }

  lemma SingleIntact(s: State, boot: Id, data: Bytes)
    requires Single(s, boot, data)
    ensures Intact(s.cfg.hash, s.storage, s.cfg.hash(data))
  {
    hide Safe, Counted, RecordsSized, ReferencedBytes, LiveBytes, Tidy, BlobKey;
  }

  /** Once retired it is neither protected nor referenced after a sweep. */
  lemma RetiredIsFree(s: State, boot: Id, data: Bytes, v: Retention.View)
    requires Single(s, boot, data)
    ensures var t := Retention.Retire(s, 7).0;
      && Retention.Protected(t, v) == {} && t == s.(checkpoints := t.checkpoints) && t.checkpoints.Keys == {7}
      && t.checkpoints[7] == s.checkpoints[7].(lifecycle := LIFE_RETIRED)
  {
    hide HoldsOne, Tidy, Retention.Protected;
    HeldCommitted(s, boot, data);
    var t := Retention.Retire(s, 7).0;
    assert Retention.FindPolicy(t.retention, v.order, 1) == None by { NoPolicy(v.order, 1); }
    PolicyOrder.NoneDirect(t, v);
  }

  lemma {:induction false} NoPolicy(order: seq<Id>, family: Id)
    ensures Retention.FindPolicy(map[], order, family) == None
  {
    if order != [] {
      NoPolicy(order[1..], family);
    }
  }

  lemma HeldCommitted(s: State, boot: Id, data: Bytes)
    requires HoldsOne(s, boot, data)
    ensures 7 in s.checkpoints && s.checkpoints[7].lifecycle == LIFE_COMMITTED
    ensures |s.checkpoints[7].chunks| == 1 && s.checkpoints[7].chunks[0].digest == s.cfg.hash(data)
    ensures Refs(s.storage.dedup, s.cfg.hash(data)) == 1 && s.registered
  {
    hide Safe, Ledger;
  }

  /** The plan and the run of the collection, from the retired state. */
  ghost function Swept(s: State, bid: Id, now: int, f: Faults): State
  {
    var t := Retention.Retire(s, 7).0;
    Run(Plan(t, {}, [bid]), [7], {}, f)
  }

  lemma CollectedCommits(cfg: Config, boot: Id, data: Bytes, bid: Id, now: int, f: Faults)
    requires ValidChunkSize(cfg.chunkSize) && 0 < |data| <= cfg.chunkSize
    ensures var s := Runs.After(Runs.Start(cfg, boot), Collected(boot, data, bid, now, f)[..2]).s;
      Single(s, boot, data) && s.cfg == cfg
  {
    hide Single, Runs.Perform, Runs.Remember, Runs.After, StoreState.Publish;
    var w, ops := Runs.Start(cfg, boot), Collected(boot, data, bid, now, f);
    Generations.AfterNone(w);
    Generations.AfterOne(w, ops, 0);
    Generations.AfterOne(w, ops, 1);
    assert ops[..0] == [];
    var s1, d := StoreState.CreateFamily(w.s), Generations.Plain(7, boot);
    FirstCommitIsSingle(cfg, boot, data);
    Runs.PublishPromises(s1, d, data, WELL);
    Runs.Performs(w.s, ops[0]);
    Runs.Performs(s1, ops[1]);
  }

  lemma CollectedLeads(cfg: Config, boot: Id, data: Bytes, now: int, f: Faults)
    requires ValidChunkSize(cfg.chunkSize) && 0 < |data| <= cfg.chunkSize
    ensures var bid := PrefixId(cfg.hash(data));
      var w, ops := Runs.Start(cfg, boot), Collected(boot, data, bid, now, f);
      var s := Runs.After(w, ops[..2]).s;
      && Single(s, boot, data) && s.cfg == cfg && Runs.After(w, ops).s == Swept(s, bid, now, f)
      && IsPlan(Runs.After(w, ops[..3]).s, {}, [bid])
      && Retention.Eligible(Runs.After(w, ops[..4]).s, Retention.View(now, [])) == {7}
  {
    hide Single, Runs.Perform, Runs.Remember, Runs.After, Retention.Retire, Retention.Protected, Run, PrefixId,
         MarkedSizes, Filed;
    var bid, v := PrefixId(cfg.hash(data)), Retention.View(now, []);
    var w, ops := Runs.Start(cfg, boot), Collected(boot, data, bid, now, f);
    CollectedCommits(cfg, boot, data, bid, now, f);
    Generations.AfterOne(w, ops, 2);
    Generations.AfterOne(w, ops, 3);
    Generations.AfterOne(w, ops, 4);
    assert ops[..5] == ops;
    var s2 := Runs.After(w, ops[..2]).s;
    var s3 := Retention.Retire(s2, 7).0;
    var s4 := Plan(s3, {}, [bid]);
    SingleRecords(s2, boot, data);
    RetiredIsFree(s2, boot, data, v);
    NothingReached(s3.checkpoints);
    ProtectedSame(s3, s4, v);
    Runs.Performs(s2, ops[2]);
    Runs.Performs(s3, ops[3]);
    Runs.Performs(s4, ops[4]);
    assert Retention.Eligible(s4, v) == {7};
  }

  lemma NothingReached(cps: map<Id, Record>)
    ensures Reachable(cps, {}) == {}
  {
  }

  lemma SweptRefs(s: State, boot: Id, data: Bytes, p: State)
    requires Single(s, boot, data) && p.storage == s.storage && 7 in p.checkpoints
    requires p.checkpoints[7] == s.checkpoints[7].(lifecycle := LIFE_RETIRED)
    ensures Refs(Sweep(p, [7]).storage.dedup, s.cfg.hash(data)) == 0
  {
    hide HoldsOne, Tidy, ReleaseAll;
    HeldCommitted(s, boot, data);
    var d, chunks := s.cfg.hash(data), s.checkpoints[7].chunks;
    assert [7][..0] == [] && Sweep(p, []) == p;
    assert DigestsOf(chunks) == [d];
    ReleaseAllEffect(p.storage.dedup, chunks, d);
  }

  /** The collection of the single checkpoint strands its content or removes it, as the removals go. */
  lemma SweptDecides(s: State, boot: Id, data: Bytes, now: int, f: Faults)
    requires Single(s, boot, data)
    ensures var d := s.cfg.hash(data);
      var t := Swept(s, PrefixId(d), now, f);
      && PrefixId(d) in s.blobs
      && if SomeRemoval(s, s.blobs[PrefixId(d)].replicas, 0, f) then Gone(t, d) else Stranded(t, d)
  {
    hide Single, Retention.Retire, Run, PrefixId, MarkedSizes, Gone, Stranded, SomeRemoval, Sweep;
    var d, t := s.cfg.hash(data), Retention.Retire(s, 7).0;
    var p := Plan(t, {}, [PrefixId(d)]);
    SingleRecords(s, boot, data);
    RetiredIsFree(s, boot, data, Retention.View(now, []));
    NothingReached(p.checkpoints);
    SweptRefs(s, boot, data, p);
    SameRemovals(s, p, s.blobs[PrefixId(d)].replicas, 0, f);
    CollectionStrandsExactly(p, [7], {}, f, d, 0);
  }

  /** No removal goes through. */
  const REFUSING: Faults := WELL.(remove := (b, n) => false)

  /** A run after which an object is stored that no later plan lists while nothing notes its blob id. */
  lemma RefusedRunStrands(cfg: Config, boot: Id, data: Bytes, now: int)
    requires ValidChunkSize(cfg.chunkSize) && 0 < |data| <= cfg.chunkSize
    ensures var d := cfg.hash(data);
      Stranded(Runs.After(Runs.Start(cfg, boot), Collected(boot, data, PrefixId(d), now, REFUSING)).s, d)
  {
    hide Runs.After, Single, Swept, Stranded, PrefixId, Retention.Eligible;
    CollectedLeads(cfg, boot, data, now, REFUSING);
    var ops := Collected(boot, data, PrefixId(cfg.hash(data)), now, REFUSING);
    var s := Runs.After(Runs.Start(cfg, boot), ops[..2]).s;
    SweptDecides(s, boot, data, now, REFUSING);
    assert !SomeRemoval(s, s.blobs[PrefixId(s.cfg.hash(data))].replicas, 0, REFUSING);
  }

  // ----- Two slices with one chunk id -----

  lemma TwoSlices(hash: Bytes -> Digest, a: Bytes, b: Bytes, n: nat)
    requires |a| == |b| == n && n > 0
    ensures Slices(hash, a + b, n) == [Slice(0, a, hash(a)), Slice(n, b, hash(b))]
  {
    var data := a + b;
    assert data[0..n] == a && data[n..2 * n] == b;
    assert SlicesFrom(hash, data, n, 2 * n) == [];
    assert SlicesFrom(hash, data, n, n) == [Slice(n, b, hash(b))];
  }

  /** On a backend that answers everything, content the table does not know is written. */
  lemma UnknownIsWritten(hash: Bytes -> Digest, st: Storage, slice: Slice, i: nat)
    requires slice.digest !in st.dedup && slice.bytes != []
    ensures var turn, key := Acquire(hash, st, slice, i, WELL), BlobKey(slice.digest);
      && turn.Wrote? && turn.st.backend.objects == st.backend.objects[key := slice.bytes]
      && turn.st.dedup.Keys == st.dedup.Keys + {slice.digest}
  {
    hide BlobKey, PrefixId;
  }

  /** What noting a written slice adds to the draft. */
  lemma NotedDraft(s: State, st: Storage, draft: Draft, slice: Slice, replica: Id)
    ensures var q := Note(s.(storage := st), draft, slice, PrefixId(slice.digest), replica);
      && q.s.storage == st && q.error.None? && |q.draft.chunks| == |draft.chunks| + 1
      && var c := q.draft.chunks[|draft.chunks|];
         && q.draft.chunks == draft.chunks + [c] && c.digest == slice.digest && c.physicalSize == |slice.bytes|
         && c.id == PrefixId(slice.digest)
         && q.draft.entries == draft.entries + [ManifestEntry(c.id, slice.offset)]
         && q.draft.sizes == if c.id in draft.sizes then draft.sizes else draft.sizes[c.id := |slice.bytes|]
  {
    hide PrefixId, NoteBlob, Refs;
  }

  lemma WrittenStep(p: Progress, slice: Slice, i: nat, replica: Id)
    requires p.error.None? && slice.digest !in p.s.storage.dedup && slice.bytes != []
    ensures var q := StoreState.Step(p, slice, i, replica, WELL);
      && q.error.None? && q.s.cfg == p.s.cfg
      && q.s.storage.backend.objects == p.s.storage.backend.objects[BlobKey(slice.digest) := slice.bytes]
      && q.s.storage.dedup.Keys == p.s.storage.dedup.Keys + {slice.digest}
      && |q.draft.chunks| == |p.draft.chunks| + 1
      && var c := q.draft.chunks[|p.draft.chunks|];
         && q.draft.chunks == p.draft.chunks + [c] && c.digest == slice.digest && c.physicalSize == |slice.bytes|
         && c.id == PrefixId(slice.digest)
         && q.draft.entries == p.draft.entries + [ManifestEntry(c.id, slice.offset)]
         && q.draft.sizes == if c.id in p.draft.sizes then p.draft.sizes else p.draft.sizes[c.id := |slice.bytes|]
  {
    hide Acquire, Note, PrefixId, BlobKey;
    UnknownIsWritten(p.s.cfg.hash, p.s.storage, slice, i);
    var st, draft := Acquire(p.s.cfg.hash, p.s.storage, slice, i, WELL).st, p.draft;
    var more := draft.(misses := draft.misses + 1, written := draft.written + |slice.bytes|,
                       wrote := draft.wrote + [slice.digest]);
    NotedDraft(p.s, st, more, slice, replica);
    Runs.StepFrame(p, slice, i, replica, WELL);
  }

  /** The draft of two slices that share a chunk id, both stored. */
  ghost predicate TwoDrafted(s: State, draft: Draft, a: Bytes, b: Bytes, n: nat, id: Id)
  {
    && |draft.chunks| == 2 && draft.entries == [ManifestEntry(id, 0), ManifestEntry(id, n)]
    && draft.sizes == map[id := n]
    && draft.chunks[0].digest == s.cfg.hash(a) && draft.chunks[1].digest == s.cfg.hash(b)
    && draft.chunks[0].physicalSize == n && draft.chunks[1].physicalSize == n
    && draft.chunks[0].id == id && draft.chunks[1].id == id
    && ObjectIs(s.storage, s.cfg.hash(a), a) && ObjectIs(s.storage, s.cfg.hash(b), b)
  }

  ghost predicate ObjectIs(st: Storage, d: Digest, bytes: Bytes)
  {
    BlobKey(d) in st.backend.objects && st.backend.objects[BlobKey(d)] == bytes
  }

  lemma TwoSteps(s: State, a: Bytes, b: Bytes)
    requires |a| == |b| == s.cfg.chunkSize && s.cfg.chunkSize > 0 && s.storage.dedup == map[]
    requires s.cfg.hash(a) != s.cfg.hash(b) && PrefixId(s.cfg.hash(a)) == PrefixId(s.cfg.hash(b))
    ensures var p := PublishSteps(s, a + b, WELL);
      p.error.None? && p.s.cfg == s.cfg && TwoDrafted(p.s, p.draft, a, b, |a|, PrefixId(s.cfg.hash(a)))
  {
    hide BlobKey, PrefixId, StoreState.Step, Slices;
    var n, ha, hb := |a|, s.cfg.hash(a), s.cfg.hash(b);
    TwoSlices(s.cfg.hash, a, b, n);
    var slices := [Slice(0, a, ha), Slice(n, b, hb)];
    var p0 := Progress(Begun(s), NO_DRAFT, None);
    assert Steps(Begun(s), slices, 0, s.nextId, WELL) == p0;
    var p1 := StoreState.Step(p0, slices[0], 0, s.nextId, WELL);
    assert Steps(Begun(s), slices, 1, s.nextId, WELL) == p1;
    WrittenStep(p0, slices[0], 0, s.nextId);
    WrittenStep(p1, slices[1], 1, s.nextId);
    KeysDiffer(ha);
  }

  lemma TwoConfirm(s: State, draft: Draft, a: Bytes, b: Bytes, n: nat, id: Id)
    requires |a| == |b| == n && n > 0 && TwoDrafted(s, draft, a, b, n, id)
    ensures Confirm(s, draft, a + b, WELL).Ok?
  {
    hide BlobKey;
    var hash, st, chunks := s.cfg.hash, s.storage, draft.chunks;
    assert ReadBack(hash, st, chunks, 0, WELL) == Ok([]);
    assert [] + a == a;
    assert ReadBack(hash, st, chunks, 1, WELL) == Ok(a);
    assert ReadBack(hash, st, chunks, 2, WELL) == Ok(a + b);
    SortedEntriesStay(draft.entries);
    var es := draft.entries;
    assert es[..1] == [es[0]] && es[..1][..0] == [];
    assert Span([], draft.sizes) == Some(0);
    assert Span(es[..1], draft.sizes) == Some(n);
    assert Span(es, draft.sizes) == Some(2 * n);
  }

  lemma TwoCommit(s: State, d: Descriptor, a: Bytes, b: Bytes)
    requires Admission(s, d).None? && |a| == |b| == s.cfg.chunkSize && s.storage.dedup == map[]
    requires s.cfg.hash(a) != s.cfg.hash(b) && PrefixId(s.cfg.hash(a)) == PrefixId(s.cfg.hash(b))
    ensures var (t, r) := StoreState.Publish(s, d, a + b, WELL);
      && r.Ok? && d.id in t.checkpoints && !IdsFaithful(t.checkpoints[d.id].chunks)
      && t.checkpoints[d.id].lifecycle == LIFE_COMMITTED
      && StoredAs(t.storage, t.checkpoints[d.id].chunks, Slices(s.cfg.hash, a + b, s.cfg.chunkSize))
  {
    hide BlobKey, PrefixId, Steps, Slices, Confirm, NewManifest, Rollback;
    var p, n := PublishSteps(s, a + b, WELL), |a|;
    TwoSteps(s, a, b);
    TwoConfirm(p.s, p.draft, a, b, n, PrefixId(s.cfg.hash(a)));
    Runs.StepsFrame(Begun(s), Slices(s.cfg.hash, a + b, n), |Slices(s.cfg.hash, a + b, n)|, s.nextId, WELL);
    TwoSlices(s.cfg.hash, a, b, n);
    var t := StoreState.Publish(s, d, a + b, WELL).0;
    var chunks, slices := t.checkpoints[d.id].chunks, Slices(s.cfg.hash, a + b, n);
    assert chunks == p.draft.chunks && t.storage == p.s.storage;
    assert StoredAt(t.storage, chunks[0], slices[0]) && StoredAt(t.storage, chunks[1], slices[1]);
    assert chunks[0].id == chunks[1].id && chunks[0].digest != chunks[1].digest;
  }

  /**
   For any hash and any two pieces of chunk size with different digests and the same eight-byte id:
   publishing the two together commits, verification calls the checkpoint verified, and restore
   does not return what was published.
   */
  lemma CollidingIdsCommit(cfg: Config, boot: Id, a: Bytes, b: Bytes, f: Faults)
    requires ValidChunkSize(cfg.chunkSize) && |a| == |b| == cfg.chunkSize && AllUp(f)
    requires cfg.hash(a) != cfg.hash(b) && PrefixId(cfg.hash(a)) == PrefixId(cfg.hash(b))
    ensures var ops := [Runs.CreateFamily, Runs.Op.Publish(Generations.Plain(7, boot), a + b, WELL)];
      var w := Runs.After(Runs.Start(cfg, boot), ops);
      && 7 in w.hist && w.hist[7] == a + b && 7 in w.s.checkpoints && Live(w.s.checkpoints[7])
      && Recovery.VerifyCheckpoint(w.s, 7, f).1 == Ok(INTEGRITY_VERIFIED)
      && Recovery.Restore(w.s, 7, f).1 != Ok(a + b)
  {
    hide Safe, StoreState.Publish, Recovery.VerifyCheckpoint, Recovery.Restore, AllUp, IdsFaithful, StoredAs, Slices,
         Runs.Perform, Runs.After, Steady, PrefixId;
    var w, d := Runs.Start(cfg, boot), Generations.Plain(7, boot);
    var s1 := StoreState.CreateFamily(w.s);
    WellIsHonest(d, a + b);
    Runs.InitSafe(cfg, boot);
    StartLedger(cfg, boot);
    CreatedSafe(w.s);
    TwoCommit(s1, d, a, b);
    PublishKeeps(s1, d, a + b, WELL);
    Runs.PublishPromises(s1, d, a + b, WELL);
    RestoreReturnsData(StoreState.Publish(s1, d, a + b, WELL).0, 7, a + b, f);
    FirstPublication(cfg, boot, a + b);
  }

  lemma AfterLast(w: Runs.World, pre: seq<Runs.Op>, op: Runs.Op)
    ensures var v := Runs.After(w, pre);
      Runs.After(w, pre + [op]) == Runs.World(Runs.Perform(v.s, op), Runs.Remember(v.s, v.hist, op))
  {
    hide Runs.Perform, Runs.Remember;
    var all := pre + [op];
    assert all[..|all| - 1] == pre;
  }

  lemma FirstPublication(cfg: Config, boot: Id, data: Bytes)
    ensures var s1, d := StoreState.CreateFamily(Runs.Init(cfg, boot)), Generations.Plain(7, boot);
      var w := Runs.After(Runs.Start(cfg, boot), [Runs.CreateFamily, Runs.Op.Publish(d, data, WELL)]);
      && w.s == StoreState.Publish(s1, d, data, WELL).0
      && (StoreState.Publish(s1, d, data, WELL).1.Ok? ==> w.hist == map[7 := data])
  {
    hide StoreState.Publish, StoreState.CreateFamily, Runs.Perform, Runs.After, Runs.Init;
    var w, create := Runs.Start(cfg, boot), Runs.CreateFamily;
    var publish := Runs.Op.Publish(Generations.Plain(7, boot), data, WELL);
    Generations.AfterNone(w);
    AfterLast(w, [], create);
    AfterLast(w, [create], publish);
    assert [] + [create] == [create] && [create] + [publish] == [create, publish];
    Runs.Performs(w.s, create);
    Runs.Performs(StoreState.CreateFamily(w.s), publish);
  }
}

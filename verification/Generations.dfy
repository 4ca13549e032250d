/** Generations over whole runs: one commit per family and generation, in strictly increasing order. */
module Generations {
  import opened Basics
  import opened Model
  import opened StoreState
  import opened Runs
  import Persistence
  import Collection
  import Recovery
  import Chunking

  /** A family's list: its own checkpoints, in strictly increasing generation, all below the next one. */
  ghost predicate ListOk(cps: map<Id, Record>, family: Id, ids: seq<Id>, next: nat)
  {
    && (forall i :: 0 <= i < |ids| ==> Member(cps, family, ids[i], next))
    && (forall i, j :: 0 <= i < j < |ids| ==> Generation(cps, ids[i]) < Generation(cps, ids[j]))
  }

  ghost predicate Member(cps: map<Id, Record>, family: Id, id: Id, next: nat)
  {
    id in cps && cps[id].descriptor.familyId == family && 1 <= cps[id].descriptor.generation < next
  }

  function Generation(cps: map<Id, Record>, id: Id): nat
  {
    if id in cps then cps[id].descriptor.generation else 0
  }

  /** Every family's list is in order and complete. */
  ghost predicate Ordered(s: State)
  {
    && (forall f :: f in s.nextGeneration <==> f in s.families)
    && (forall f :: f in s.families ==> s.families[f].id == f)
    && (forall f :: f in s.families ==>
          s.nextGeneration[f] >= 1 && ListOk(s.checkpoints, f, s.families[f].checkpointIds, s.nextGeneration[f]))
    && (forall id :: id in s.checkpoints ==> Listed(s, id))
  }

  ghost predicate Listed(s: State, id: Id)
    requires id in s.checkpoints
  {
    var f := s.checkpoints[id].descriptor.familyId;
    f in s.families && id in s.families[f].checkpointIds
  }

  /** Two committed checkpoints of one family have different generations. */
  lemma OneCommitPerGeneration(s: State, a: Id, b: Id)
    requires Ordered(s) && a in s.checkpoints && b in s.checkpoints
    requires s.checkpoints[a].descriptor.familyId == s.checkpoints[b].descriptor.familyId
    requires s.checkpoints[a].descriptor.generation == s.checkpoints[b].descriptor.generation
    ensures a == b
  {
    assert Listed(s, a) && Listed(s, b);
    var ids := s.families[s.checkpoints[a].descriptor.familyId].checkpointIds;
    var i :| 0 <= i < |ids| && ids[i] == a;
    var j :| 0 <= j < |ids| && ids[j] == b;
    assert Generation(s.checkpoints, ids[i]) == Generation(s.checkpoints, ids[j]);
  }

  lemma ListSame(a: map<Id, Record>, b: map<Id, Record>, family: Id, ids: seq<Id>, next: nat, more: nat)
    requires ListOk(a, family, ids, next) && next <= more
    requires forall id :: id in a ==> id in b && SameName(a[id].descriptor, b[id].descriptor)
    ensures ListOk(b, family, ids, more)
  {
    forall i | 0 <= i < |ids|
      ensures Member(b, family, ids[i], more) && Generation(b, ids[i]) == Generation(a, ids[i])
    {
      assert Member(a, family, ids[i], next) && SameName(a[ids[i]].descriptor, b[ids[i]].descriptor);
    }
  }

  /** Untouched books and names stay in order. */
  lemma SameOrdered(s: State, t: State)
    requires Ordered(s) && SameManifests(s, t) && SameBooks(s, t)
    ensures Ordered(t)
  {
    hide ListOk;
    forall f | f in t.families
      ensures ListOk(t.checkpoints, f, t.families[f].checkpointIds, t.nextGeneration[f])
    {
      ListSame(s.checkpoints, t.checkpoints, f, s.families[f].checkpointIds, s.nextGeneration[f], s.nextGeneration[f]);
    }
    forall id | id in t.checkpoints
      ensures Listed(t, id)
    {
      assert Listed(s, id) && SameName(s.checkpoints[id].descriptor, t.checkpoints[id].descriptor);
    }
  }

  lemma EnterOrdered(s: State, t: State, d: Descriptor)
    requires Ordered(s) && d.id !in s.checkpoints && d.id in t.checkpoints && Enters(s, t, d)
    requires t.checkpoints == s.checkpoints[d.id := t.checkpoints[d.id]]
    ensures Ordered(t)
  {
    hide ListOk;
    var g := d.familyId;
    forall f | f in t.families
      ensures ListOk(t.checkpoints, f, t.families[f].checkpointIds, t.nextGeneration[f])
    {
      ListSame(s.checkpoints, t.checkpoints, f, s.families[f].checkpointIds, s.nextGeneration[f], t.nextGeneration[f]);
      if f == g {
        AppendOk(s.checkpoints, t.checkpoints, f, s.families[f].checkpointIds, d.id, s.nextGeneration[f]);
      }
    }
    forall id | id in t.checkpoints
      ensures Listed(t, id)
    {
      if id != d.id {
        assert Listed(s, id);
      } else {
        var ids := s.families[g].checkpointIds;
        assert (ids + [d.id])[|ids|] == d.id;
      }
    }
  }

  lemma AppendOk(a: map<Id, Record>, b: map<Id, Record>, family: Id, ids: seq<Id>, id: Id, next: nat)
    requires ListOk(a, family, ids, next) && ListOk(b, family, ids, next + 1) && next >= 1
    requires id !in a && id in b && b == a[id := b[id]]
    requires b[id].descriptor.familyId == family && b[id].descriptor.generation == next
    ensures ListOk(b, family, ids + [id], next + 1)
  {
    forall i | 0 <= i < |ids|
      ensures Generation(b, ids[i]) < next
    {
      assert Member(a, family, ids[i], next);
    }
  }

  lemma FirstMember(cps: map<Id, Record>, family: Id, ids: seq<Id>, next: nat)
    requires ListOk(cps, family, ids, next)
    ensures ids != [] ==> ids[0] in cps && cps[ids[0]].descriptor.familyId == family
  {
    assert ids != [] ==> Member(cps, family, ids[0], next);
  }

  /** No checkpoint belongs to the id the next family would get. */
  ghost predicate NextFamilyUnused(s: State)
  {
    forall id :: id in s.checkpoints ==> s.checkpoints[id].descriptor.familyId != s.nextFamilyId
  }

  lemma CreateUnused(s: State)
    requires Ordered(s) && NextFamilyUnused(s)
    ensures Ordered(StoreState.CreateFamily(s))
  {
    hide ListOk;
    var t, g := StoreState.CreateFamily(s), s.nextFamilyId;
    forall f | f in t.families
      ensures ListOk(t.checkpoints, f, t.families[f].checkpointIds, t.nextGeneration[f])
    {
      if f in s.families {
        FirstMember(s.checkpoints, f, s.families[f].checkpointIds, s.nextGeneration[f]);
      }
      if f == g {
        NothingListed(t.checkpoints, f, t.nextGeneration[f]);
      }
    }
    forall id | id in t.checkpoints ensures Listed(t, id) { assert Listed(s, id); }
  }

  lemma NothingListed(cps: map<Id, Record>, family: Id, next: nat)
    ensures ListOk(cps, family, [], next)
  {
  }

  lemma CreateUsed(s: State, id: Id)
    requires Ordered(s) && id in s.checkpoints && s.checkpoints[id].descriptor.familyId == s.nextFamilyId
    ensures !Ordered(StoreState.CreateFamily(s))
  {
    var t, g := StoreState.CreateFamily(s), s.nextFamilyId;
    assert Listed(s, id);
    var ids := s.families[g].checkpointIds;
    var i :| 0 <= i < |ids| && ids[i] == id;
    assert Member(s.checkpoints, g, ids[i], s.nextGeneration[g]);
    assert t.families[g].checkpointIds[i] == id && !Member(t.checkpoints, g, id, 1);
  }

  /** Creating a family keeps the order exactly when no checkpoint already belongs to its id. */
  lemma CreateOrdered(s: State)
    requires Ordered(s)
    ensures Ordered(StoreState.CreateFamily(s)) <==> NextFamilyUnused(s)
  {
    hide Ordered, StoreState.CreateFamily;
    if NextFamilyUnused(s) {
      CreateUnused(s);
    } else {
      var id :| id in s.checkpoints && s.checkpoints[id].descriptor.familyId == s.nextFamilyId;
      CreateUsed(s, id);
    }
  }

  lemma RestartOrdered(s: State)
    requires Ordered(s)
    ensures Ordered(Persistence.Recovered(Reopened(s), s))
  {
    hide ListOk, SameManifests, Persistence.Recovered, Reopened, Persistence.Highest;
    var t := Persistence.Recovered(Reopened(s), s);
    RecoveredBooks(s);
    ReopenManifests(s);
    forall id | id in s.checkpoints
      ensures s.checkpoints[id].descriptor.familyId in s.families { assert Listed(s, id); }
    forall f ensures f in t.nextGeneration <==> f in t.families { Persistence.GenerationsRecovered(Reopened(s), s, f); }
    forall id | id in t.checkpoints ensures Listed(t, id) {
      NameKept(s, t, id);
      assert Listed(s, id);
    }
    forall f | f in t.families
      ensures t.nextGeneration[f] >= 1 && ListOk(t.checkpoints, f, t.families[f].checkpointIds, t.nextGeneration[f])
    {
      Persistence.GenerationsRecovered(Reopened(s), s, f);
      RestartList(s, t, f);
    }
  }

  lemma RecoveredBooks(s: State)
    ensures Persistence.Recovered(Reopened(s), s).families == s.families
  {
    hide Persistence.ImageOf, Persistence.NextAll, Persistence.RaiseBy, Persistence.StartFamilies;
  }

  lemma NameKept(s: State, t: State, id: Id)
    requires SameManifests(s, t) && id in t.checkpoints
    ensures id in s.checkpoints && t.checkpoints[id].descriptor.familyId == s.checkpoints[id].descriptor.familyId
  {
    assert SameName(s.checkpoints[id].descriptor, t.checkpoints[id].descriptor);
  }

  lemma RestartList(s: State, t: State, f: Id)
    requires f in s.families && f in t.nextGeneration && f in s.nextGeneration && SameManifests(s, t)
    requires ListOk(s.checkpoints, f, s.families[f].checkpointIds, s.nextGeneration[f])
    requires t.nextGeneration[f] >= 1 && Persistence.Highest(s.checkpoints, f, 1, t.nextGeneration[f] - 1)
    ensures ListOk(t.checkpoints, f, s.families[f].checkpointIds, t.nextGeneration[f])
  {
    var ids := s.families[f].checkpointIds;
    forall i | 0 <= i < |ids|
      ensures Member(t.checkpoints, f, ids[i], t.nextGeneration[f])
      ensures Generation(t.checkpoints, ids[i]) == Generation(s.checkpoints, ids[i])
    {
      assert Member(s.checkpoints, f, ids[i], s.nextGeneration[f]);
      assert SameName(s.checkpoints[ids[i]].descriptor, t.checkpoints[ids[i]].descriptor);
    }
  }

  // ----- Over whole runs, whatever fails and whatever happens to the objects -----

  lemma StepOrdered(s: State, op: Op)
    requires Ordered(s) && !op.CreateFamily?
    ensures Ordered(Perform(s, op))
  {
    hide Ordered, Perform, SameManifests, SameBooks, StoreState.Publish, Enters;
    if op.Publish? {
      PublishPromises(s, op.d, op.data, op.faults);
      PublishStep(s, op);
      var (t, r) := StoreState.Publish(s, op.d, op.data, op.faults);
      if r.Ok? {
        EnterOrdered(s, t, op.d);
      } else {
        SamePublish(s, t);
        SameOrdered(s, t);
      }
    } else if op.Restart? {
      RestartOrdered(s);
      RestartStep(s);
    } else {
      OthersKeepManifests(s, op);
      SameOrdered(s, Perform(s, op));
    }
  }

  lemma SamePublish(s: State, t: State)
    requires t.cfg == s.cfg && t.registered == s.registered && t.checkpoints == s.checkpoints
    ensures SameManifests(s, t)
  {
  }

  lemma RestartStep(s: State)
    ensures Perform(s, Restart) == Persistence.Recovered(Reopened(s), s)
    ensures Perform(s, Op.CreateFamily) == StoreState.CreateFamily(s)
  {
    hide StoreState.Publish, Recovery.Restore, Recovery.VerifyCheckpoint, Collection.Run, Persistence.Recovered;
  }

  /** Every create_family of the run finds an id no checkpoint belongs to. */
  ghost predicate CreatesUnused(w: World, ops: seq<Op>)
  {
    forall i :: 0 <= i < |ops| && ops[i].CreateFamily? ==> NextFamilyUnused(After(w, ops[..i]).s)
  }

  ghost predicate AlwaysOrdered(w: World, ops: seq<Op>)
  {
    forall i :: 0 <= i <= |ops| ==> Ordered(After(w, ops[..i]).s)
  }

  lemma AfterOne(w: World, ops: seq<Op>, n: nat)
    requires n < |ops|
    ensures After(w, ops[..n + 1]).s == Perform(After(w, ops[..n]).s, ops[n])
  {
    hide Perform, Remember;
    assert ops[..n + 1][..n] == ops[..n];
  }

  lemma {:induction false} RunOrdered(w: World, ops: seq<Op>, n: nat)
    requires Ordered(w.s) && CreatesUnused(w, ops) && n <= |ops|
    ensures Ordered(After(w, ops[..n]).s)
  {
    hide Perform, Remember, Ordered, NextFamilyUnused;
    if n > 0 {
      RunOrdered(w, ops, n - 1);
      AfterOne(w, ops, n - 1);
      var s := After(w, ops[..n - 1]).s;
      if ops[n - 1].CreateFamily? {
        RestartStep(s);
        CreateOrdered(s);
      } else {
        StepOrdered(s, ops[n - 1]);
      }
    }
  }

  /**
   The invariant of lists and counters holds in every state of a run if and only if every
   create_family of the run finds an id no checkpoint belongs to. What that means for commits is
   UniqueExactly below.
   */
  lemma OrderedExactly(w: World, ops: seq<Op>)
    requires Ordered(w.s)
    ensures AlwaysOrdered(w, ops) <==> CreatesUnused(w, ops)
  {
    hide Perform, Ordered, NextFamilyUnused, After;
    if CreatesUnused(w, ops) {
      forall i | 0 <= i <= |ops| ensures Ordered(After(w, ops[..i]).s) { RunOrdered(w, ops, i); }
    }
    if AlwaysOrdered(w, ops) {
      forall i | 0 <= i < |ops| && ops[i].CreateFamily?
        ensures NextFamilyUnused(After(w, ops[..i]).s)
      {
        assert Ordered(After(w, ops[..i]).s) && Ordered(After(w, ops[..i + 1]).s);
        AfterOne(w, ops, i);
        RestartStep(After(w, ops[..i]).s);
        CreateOrdered(After(w, ops[..i]).s);
      }
    }
  }

  // ----- Without a family created after a restart the condition always holds -----

  ghost predicate FamiliesBelow(s: State)
  {
    forall f :: f in s.families ==> f < s.nextFamilyId
  }

  lemma StepBelow(s: State, op: Op)
    requires FamiliesBelow(s) && !op.Restart?
    ensures FamiliesBelow(Perform(s, op))
  {
    hide Perform, SameManifests, StoreState.Publish;
    if op.Publish? {
      PublishPromises(s, op.d, op.data, op.faults);
      PublishStep(s, op);
    } else if op.CreateFamily? {
      RestartStep(s);
    } else {
      OthersKeepManifests(s, op);
    }
  }

  lemma {:induction false} RunBelow(w: World, ops: seq<Op>)
    requires FamiliesBelow(w.s) && forall op <- ops :: !op.Restart?
    ensures FamiliesBelow(After(w, ops).s)
  {
    hide Perform, Remember, FamiliesBelow;
    if ops != [] {
      RunBelow(w, ops[..|ops| - 1]);
      StepBelow(After(w, ops[..|ops| - 1]).s, ops[|ops| - 1]);
    }
  }

  lemma BelowUnused(s: State)
    requires Ordered(s) && FamiliesBelow(s)
    ensures NextFamilyUnused(s)
  {
    hide ListOk;
    forall id | id in s.checkpoints
      ensures s.checkpoints[id].descriptor.familyId != s.nextFamilyId
    {
      assert Listed(s, id);
    }
  }

  /** In every run in which no family is created after a restart. */
  lemma {:induction false} GenerationsIncrease(cfg: Config, boot: Id, ops: seq<Op>)
    requires forall i, j :: 0 <= i < j < |ops| && ops[i].Restart? ==> !ops[j].CreateFamily?
    ensures Ordered(After(Start(cfg, boot), ops).s)
  {
    hide Perform, Remember, Ordered, FamiliesBelow, NextFamilyUnused;
    var w := Start(cfg, boot);
    if ops == [] {
      StartOrdered(cfg, boot);
    } else {
      var n := |ops| - 1;
      var s := After(w, ops[..n]).s;
      GenerationsIncrease(cfg, boot, ops[..n]);
      if ops[n].CreateFamily? {
        forall i | 0 <= i < n ensures !ops[..n][i].Restart? {
          assert ops[..n][i] == ops[i];
        }
        StartOrdered(cfg, boot);
        RunBelow(w, ops[..n]);
        BelowUnused(s);
        RestartStep(s);
        CreateOrdered(s);
      } else {
        StepOrdered(s, ops[n]);
      }
    }
  }

  lemma StartOrdered(cfg: Config, boot: Id)
    ensures Ordered(Start(cfg, boot).s) && FamiliesBelow(Start(cfg, boot).s)
  {
  }

  /** A committed checkpoint stays recorded under its id, family and generation for ever. */
  lemma {:induction false} CommitsStay(w: World, ops: seq<Op>, n: nat, id: Id)
    requires n <= |ops| && id in After(w, ops[..n]).s.checkpoints
    ensures var s, t := After(w, ops[..n]).s, After(w, ops).s;
      id in t.checkpoints && SameName(s.checkpoints[id].descriptor, t.checkpoints[id].descriptor)
  {
    hide Perform, Remember;
    assert ops[..|ops|] == ops;
    if n < |ops| {
      var m := |ops| - 1;
      assert ops[..m][..n] == ops[..n];
      CommitsStay(w, ops[..m], n, id);
      StepStays(After(w, ops[..m]).s, ops[m], id);
    }
  }

  lemma StepStays(s: State, op: Op, id: Id)
    requires id in s.checkpoints
    ensures id in Perform(s, op).checkpoints
    ensures SameName(s.checkpoints[id].descriptor, Perform(s, op).checkpoints[id].descriptor)
  {
    hide Perform, StoreState.Publish, SameBooks;
    if op.Publish? {
      PublishPromises(s, op.d, op.data, op.faults);
      PublishStep(s, op);
    } else {
      OthersKeepManifests(s, op);
    }
  }

  /** Over a whole run at most one checkpoint ever commits for a family and a generation. */
  lemma CommitsAreUnique(cfg: Config, boot: Id, ops: seq<Op>, m: nat, a: Id, n: nat, b: Id)
    requires forall i, j :: 0 <= i < j < |ops| && ops[i].Restart? ==> !ops[j].CreateFamily?
    requires m <= |ops| && a in After(Start(cfg, boot), ops[..m]).s.checkpoints
    requires n <= |ops| && b in After(Start(cfg, boot), ops[..n]).s.checkpoints
    ensures var d, e := After(Start(cfg, boot), ops[..m]).s.checkpoints[a].descriptor,
                        After(Start(cfg, boot), ops[..n]).s.checkpoints[b].descriptor;
      d.familyId == e.familyId && d.generation == e.generation ==> a == b
  {
    hide After, Ordered;
    var w := Start(cfg, boot);
    CommitsStay(w, ops, m, a);
    CommitsStay(w, ops, n, b);
    GenerationsIncrease(cfg, boot, ops);
    var s := After(w, ops).s;
    if s.checkpoints[a].descriptor.familyId == s.checkpoints[b].descriptor.familyId
       && s.checkpoints[a].descriptor.generation == s.checkpoints[b].descriptor.generation {
      OneCommitPerGeneration(s, a, b);
    }
  }

  // ----- The family counter is not saved -----

  function Plain(id: Id, boot: Id): Descriptor
  {
    Descriptor(id, 1, 1, KIND_FULL, 0, 0, 1, boot, 1, None, None, [], [], [], RETAIN_LATEST_N, 0, 2,
               PROVENANCE_MEASURED, 1, 1)
  }

  /** Publishing nothing at all writes nothing and always commits once it is admitted. */
  lemma EmptyCommits(s: State, d: Descriptor, f: Faults)
    requires Admission(s, d).None?
    ensures StoreState.Publish(s, d, [], f).0 ==
            CommitRecord(s.(nextId := s.nextId + 1), d, NO_DRAFT, 0, s.cfg.hash([]), s.nextId)
  {
    hide Semantics, NewManifest, CommitRecord;
    var q := PublishSteps(s, [], f);
    assert q.draft == NO_DRAFT && q.error.None?;
    assert SortEntries([]) == [];
    assert Span([], map[]) == Some(0);
  }

  /** A store about to hand out family id 1 creates it and commits its first generation. */
  lemma FirstCommit(s: State, id: Id, f: Faults)
    requires s.nextFamilyId == 1 && id !in s.checkpoints && s.registered && Chunking.ValidChunkSize(s.cfg.chunkSize)
    ensures var t := Perform(Perform(s, Op.CreateFamily), Op.Publish(Plain(id, s.bootId), [], f));
      && id in t.checkpoints && t.checkpoints == s.checkpoints[id := t.checkpoints[id]]
      && t.checkpoints[id].descriptor == Plain(id, s.bootId)
      && t.cfg == s.cfg && t.bootId == s.bootId && t.registered
  {
    hide Perform, NewManifest, StoreState.Publish, PublishSteps;
    RestartStep(s);
    var c := StoreState.CreateFamily(s);
    PublishStep(c, Op.Publish(Plain(id, s.bootId), [], f));
    EmptyCommits(c, Plain(id, s.bootId), f);
  }

  /** The first family, a commit, a restart, a family that gets the same id, a second commit. */
  function ReuseRun(boot: Id, f: Faults): seq<Op>
  {
    [Op.CreateFamily, Op.Publish(Plain(7, boot), [], f), Restart, Op.CreateFamily, Op.Publish(Plain(8, boot), [], f)]
  }

  /** After it two checkpoints share a family and a generation. */
  lemma FamilyIdReused(cfg: Config, boot: Id, f: Faults)
    requires Chunking.ValidChunkSize(cfg.chunkSize)
    ensures var s := After(Start(cfg, boot), ReuseRun(boot, f)).s;
      && 7 in s.checkpoints && 8 in s.checkpoints
      && s.checkpoints[7].descriptor.familyId == s.checkpoints[8].descriptor.familyId
      && s.checkpoints[7].descriptor.generation == s.checkpoints[8].descriptor.generation
  {
    hide Perform, Remember, SameManifests, After, Persistence.Recovered;
    var w, ops := Start(cfg, boot), ReuseRun(boot, f);
    AfterOne(w, ops, 0);
    AfterOne(w, ops, 1);
    AfterOne(w, ops, 2);
    AfterOne(w, ops, 3);
    AfterOne(w, ops, 4);
    AfterNone(w);
    assert ops[..0] == [] && ops[..5] == ops;
    FirstCommit(w.s, 7, f);
    var s := After(w, ops[..2]).s;
    RestartStep(s);
    var t := Persistence.Recovered(Reopened(s), s);
    RecoveredCounters(s, 7);
    FirstCommit(t, 8, f);
  }

  lemma AfterNone(w: World)
    ensures After(w, []) == w
  {
  }

  lemma RecoveredCounters(s: State, id: Id)
    requires id in s.checkpoints
    ensures var t := Persistence.Recovered(Reopened(s), s);
      && t.nextFamilyId == 1 && t.bootId == s.bootId && t.registered == s.registered && t.cfg == s.cfg
      && t.checkpoints.Keys == s.checkpoints.Keys
      && t.checkpoints[id].descriptor.familyId == s.checkpoints[id].descriptor.familyId
      && t.checkpoints[id].descriptor.generation == s.checkpoints[id].descriptor.generation
  {
    hide Persistence.ImageOf, Persistence.NextAll, Persistence.RaiseBy, Persistence.StartFamilies;
  }

  // ----- What callers see: commits that repeat a generation -----

  /** One commit for each family and generation, each family's list in increasing order. */
  ghost predicate InSequence(s: State)
  {
    && (forall a, b :: a in s.checkpoints && b in s.checkpoints && SameSlot(s.checkpoints[a], s.checkpoints[b]) ==>
        a == b)
    && (forall f, i, j :: f in s.families && 0 <= i < j < |s.families[f].checkpointIds| ==>
          Generation(s.checkpoints, s.families[f].checkpointIds[i])
          < Generation(s.checkpoints, s.families[f].checkpointIds[j]))
  }

  ghost predicate SameSlot(r: Record, q: Record)
  {
    r.descriptor.familyId == q.descriptor.familyId && r.descriptor.generation == q.descriptor.generation
  }

  lemma OrderedInSequence(s: State)
    requires Ordered(s)
    ensures InSequence(s)
  {
    hide ListOk, Listed;
    forall a, b | a in s.checkpoints && b in s.checkpoints && SameSlot(s.checkpoints[a], s.checkpoints[b])
      ensures a == b {
      OneCommitPerGeneration(s, a, b);
    }
    forall f, i, j | f in s.families && 0 <= i < j < |s.families[f].checkpointIds|
      ensures Generation(s.checkpoints, s.families[f].checkpointIds[i])
              < Generation(s.checkpoints, s.families[f].checkpointIds[j])
    {
      ListIncreases(s.checkpoints, f, s.families[f].checkpointIds, s.nextGeneration[f], i, j);
    }
  }

  lemma ListIncreases(cps: map<Id, Record>, family: Id, ids: seq<Id>, next: nat, i: nat, j: nat)
    requires ListOk(cps, family, ids, next) && i < j < |ids|
    ensures Generation(cps, ids[i]) < Generation(cps, ids[j])
  {
  }

  ghost predicate AllPublish(ops: seq<Op>) { forall op <- ops :: op.Publish? }

  /** At every point of the run, whatever is published from there on, commits stay in sequence. */
  ghost predicate StaysInSequence(w: World, ops: seq<Op>)
  {
    forall i, more :: 0 <= i <= |ops| && AllPublish(more) ==> ContinuesInSequence(w, ops[..i], more)
  }

  ghost predicate ContinuesInSequence(w: World, pre: seq<Op>, more: seq<Op>)
  {
    InSequence(After(w, pre + more).s)
  }

  lemma {:induction false} PublishingKeepsOrder(w: World, pre: seq<Op>, more: seq<Op>)
    requires Ordered(After(w, pre).s) && AllPublish(more)
    ensures Ordered(After(w, pre + more).s)
  {
    hide Perform, Remember, Ordered;
    if more == [] {
      assert pre + more == pre;
    } else {
      var n := |more| - 1;
      PublishingKeepsOrder(w, pre, more[..n]);
      AfterPlus(w, pre, more, n);
      assert more[n] in more;
      StepOrdered(After(w, pre + more[..n]).s, more[n]);
      assert more[..n + 1] == more;
    }
  }

  lemma AfterPlus(w: World, pre: seq<Op>, more: seq<Op>, n: nat)
    requires n < |more|
    ensures After(w, pre + more[..n + 1]).s == Perform(After(w, pre + more[..n]).s, more[n])
  {
    hide Perform, Remember;
    var all := pre + more[..n + 1];
    assert all[..|all| - 1] == pre + more[..n] && all[|all| - 1] == more[n];
  }

  // The other way round: once a used id is handed out again, publications reach a repeated generation.

  function Refill(id: Id, family: Id, generation: nat, boot: Id): Op
  {
    Op.Publish(Plain(id, boot).(familyId := family, generation := generation), [], ALL_GOES_WELL)
  }

  const ALL_GOES_WELL: Faults := Faults(i => true, i => true, i => true, (i, k) => true, (i, k) => true)

  function Refills(base: Id, family: Id, boot: Id, n: nat): seq<Op>
  {
    seq(n, i requires 0 <= i < n => Refill(base + i, family, i + 1, boot))
  }

  lemma RefillsPublish(base: Id, family: Id, boot: Id, n: nat)
    ensures AllPublish(Refills(base, family, boot, n))
  {
    var more := Refills(base, family, boot, n);
    forall op <- more ensures op.Publish? {
      var i :| 0 <= i < n && more[i] == op;
      assert more[i] == Refill(base + i, family, i + 1, boot);
    }
  }

  /** Ready to publish generation n + 1 of the family under the id base + n. */
  ghost predicate Ready(s: State, base: Id, family: Id, boot: Id, n: nat)
  {
    && s.registered && Chunking.ValidChunkSize(s.cfg.chunkSize) && s.bootId == boot
    && family in s.nextGeneration && s.nextGeneration[family] == n + 1
    && (forall id :: id in s.checkpoints ==> id < base + n)
    && (n > 0 ==> base + n - 1 in s.checkpoints && s.checkpoints[base + n - 1].descriptor.familyId == family
                  && s.checkpoints[base + n - 1].descriptor.generation == n)
  }

  lemma RefillOnce(s: State, base: Id, family: Id, boot: Id, n: nat)
    requires Ready(s, base, family, boot, n)
    ensures Ready(Perform(s, Refill(base + n, family, n + 1, boot)), base, family, boot, n + 1)
  {
    hide Perform, NewManifest, StoreState.Publish, PublishSteps;
    var op := Refill(base + n, family, n + 1, boot);
    PublishStep(s, op);
    EmptyCommits(s, op.d, op.faults);
  }

  lemma {:induction false} RefillRuns(w: World, pre: seq<Op>, base: Id, family: Id, boot: Id, n: nat)
    requires Ready(After(w, pre).s, base, family, boot, 0)
    ensures Ready(After(w, pre + Refills(base, family, boot, n)).s, base, family, boot, n)
  {
    hide Perform, Remember, Ready, Refill;
    if n == 0 {
      assert pre + Refills(base, family, boot, 0) == pre;
    } else {
      var more := Refills(base, family, boot, n);
      assert more[..n - 1] == Refills(base, family, boot, n - 1) && more[..n] == more;
      RefillRuns(w, pre, base, family, boot, n - 1);
      AfterPlus(w, pre, more, n - 1);
      RefillOnce(After(w, pre + more[..n - 1]).s, base, family, boot, n - 1);
    }
  }

  lemma {:induction false} IdsAreBounded(ids: set<Id>) returns (base: Id)
    ensures forall id :: id in ids ==> id < base
  {
    base := 0;
    if ids != {} {
      var id :| id in ids;
      var rest := IdsAreBounded(ids - {id});
      base := if rest > id then rest else id + 1;
      forall k | k in ids ensures k < base { assert k != id ==> k in ids - {id}; }
    }
  }

  /** From a store that has just handed out a used id, publications reach a repeated generation. */
  lemma ReuseRepeats(w: World, pre: seq<Op>, id: Id) returns (more: seq<Op>)
    requires var s := After(w, pre).s;
      && Ordered(s) && s.registered && Chunking.ValidChunkSize(s.cfg.chunkSize)
      && id in s.checkpoints && s.checkpoints[id].descriptor.familyId == s.nextFamilyId
    ensures AllPublish(more) && !InSequence(After(w, pre + [Op.CreateFamily] + more).s)
  {
    hide Perform, Remember, Ordered, After, Ready, InSequence, Refills, Refill;
    var s := After(w, pre).s;
    var g, n := s.nextFamilyId, s.checkpoints[id].descriptor.generation;
    var base := IdsAreBounded(s.checkpoints.Keys);
    more := Refills(base, g, s.bootId, n);
    RefillsPublish(base, g, s.bootId, n);
    var all := pre + [Op.CreateFamily];
    CreateLast(w, pre);
    CreateReady(s, base);
    RefillRuns(w, all, base, g, s.bootId, n);
    assert (all + more)[..|pre|] == pre;
    CommitsStay(w, all + more, |pre|, id);
    PositiveGeneration(s, id);
    Repeated(After(w, all + more).s, base, g, s.bootId, n, id);
  }

  lemma CreateReady(s: State, base: Id)
    requires s.registered && Chunking.ValidChunkSize(s.cfg.chunkSize) && forall id :: id in s.checkpoints ==> id < base
    ensures Ready(Perform(s, Op.CreateFamily), base, s.nextFamilyId, s.bootId, 0)
  {
    hide Perform;
    RestartStep(s);
  }

  lemma Repeated(t: State, base: Id, family: Id, boot: Id, n: nat, id: Id)
    requires Ready(t, base, family, boot, n) && n >= 1 && id < base && id in t.checkpoints
    requires t.checkpoints[id].descriptor.familyId == family && t.checkpoints[id].descriptor.generation == n
    ensures !InSequence(t)
  {
    assert SameSlot(t.checkpoints[id], t.checkpoints[base + n - 1]);
  }

  lemma CreateLast(w: World, pre: seq<Op>)
    ensures After(w, pre + [Op.CreateFamily]).s == Perform(After(w, pre).s, Op.CreateFamily)
  {
    hide Perform, Remember;
    var all := pre + [Op.CreateFamily];
    assert all[..|all| - 1] == pre;
  }

  lemma PositiveGeneration(s: State, id: Id)
    requires Ordered(s) && id in s.checkpoints
    ensures s.checkpoints[id].descriptor.generation >= 1
  {
    assert Listed(s, id);
    var f := s.checkpoints[id].descriptor.familyId;
    var ids := s.families[f].checkpointIds;
    var i :| 0 <= i < |ids| && ids[i] == id;
    assert Member(s.checkpoints, f, ids[i], s.nextGeneration[f]);
  }

  lemma {:induction false} FirstReuse(w: World, ops: seq<Op>, n: nat) returns (i: nat)
    requires n <= |ops| && exists k :: 0 <= k < n && ops[k].CreateFamily? && !NextFamilyUnused(After(w, ops[..k]).s)
    ensures i < n && ops[i].CreateFamily? && !NextFamilyUnused(After(w, ops[..i]).s) && CreatesUnused(w, ops[..i])
  {
    hide After, NextFamilyUnused;
    if k :| 0 <= k < n - 1 && ops[k].CreateFamily? && !NextFamilyUnused(After(w, ops[..k]).s) {
      i := FirstReuse(w, ops, n - 1);
    } else {
      i := n - 1;
      forall j | 0 <= j < i && ops[..i][j].CreateFamily? ensures NextFamilyUnused(After(w, ops[..i][..j]).s) {
        assert ops[..i][..j] == ops[..j] && ops[..i][j] == ops[j];
      }
    }
  }

  /**
   At every point of a run, and whatever is published from there on, there is one commit for each
   family and generation and each family's commits are in increasing order, if and only if every
   create_family of the run finds an id no checkpoint belongs to.
   */
  lemma UniqueExactly(cfg: Config, boot: Id, ops: seq<Op>)
    ensures StaysInSequence(Start(cfg, boot), ops) <==> CreatesUnused(Start(cfg, boot), ops)
  {
    hide After, Ordered, NextFamilyUnused, InSequence, Promised;
    var w := Start(cfg, boot);
    StartOrdered(cfg, boot);
    if CreatesUnused(w, ops) {
      forall i, more | 0 <= i <= |ops| && AllPublish(more) ensures ContinuesInSequence(w, ops[..i], more) {
        RunOrdered(w, ops, i);
        PublishingKeepsOrder(w, ops[..i], more);
        OrderedInSequence(After(w, ops[..i] + more).s);
      }
    } else {
      var i := FirstReuse(w, ops, |ops|);
      RunOrdered(w, ops[..i], i);
      assert ops[..i][..i] == ops[..i] && ops[..i] + [Op.CreateFamily] == ops[..i + 1];
      var id := UsedBy(cfg, boot, ops[..i]);
      var more := ReuseRepeats(w, ops[..i], id);
      assert !ContinuesInSequence(w, ops[..i + 1], more);
    }
  }

  lemma UsedBy(cfg: Config, boot: Id, ops: seq<Op>) returns (id: Id)
    requires !NextFamilyUnused(After(Start(cfg, boot), ops).s)
    ensures var s := After(Start(cfg, boot), ops).s;
      && id in s.checkpoints && s.checkpoints[id].descriptor.familyId == s.nextFamilyId
      && s.registered && Chunking.ValidChunkSize(s.cfg.chunkSize)
  {
    hide After;
    var s := After(Start(cfg, boot), ops).s;
    StartPromised(cfg, boot);
    RunPromised(cfg, Start(cfg, boot), ops);
    id :| id in s.checkpoints && s.checkpoints[id].descriptor.familyId == s.nextFamilyId;
    assert id in After(Start(cfg, boot), ops).hist;
  }

  lemma StartPromised(cfg: Config, boot: Id)
    ensures Promised(cfg, Start(cfg, boot))
  {
  }
}

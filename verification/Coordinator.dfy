/**
 The coordinator's authority checks (tools/coordinator.cpp): one worker boot holds authority in
 one epoch, and every request that changes checkpoints must name both.
 */
module Coordination {
  import opened Basics
  import opened Model
  import StoreState
  import Retention
  import Collection
  import Recovery
  import Chunking
  import Persistence
  import Runs
  import Store
  import Publication
  import RestoreCorrectness
  import Admitted
  import Commits
  import LatestN

  const COORDINATOR_BOOT: Id := 0xEEEE
  const DURABILITY_LOCAL: Byte := 2
  const PROVENANCE_UNKNOWN: Byte := 4

  datatype Envelope = Envelope(boot: Id, epoch: nat, generation: nat)

  datatype Request =
    | Register(boot: Id)
    | CreateFamily
    | Publish(auth: Envelope, family: Id, size: nat, fill: Byte, now: int, faults: StoreState.Faults)
    | Verify(id: Id, faults: StoreState.Faults)
    | Restore(auth: Envelope, id: Id, faults: StoreState.Faults)
    | Retire(auth: Envelope, id: Id)
    | Collect(auth: Envelope, plan: Retention.View, before: Retention.View, after: Retention.View,
              faults: StoreState.Faults)
    | Retain(family: Id, latest: nat)
    | Save
    | AdvanceEpoch
    | Unknown

  /** What the coordinator knows about authority, and the boot its store accepts publications from. */
  datatype Desk = Desk(active: Id, epoch: nat, roster: set<Id>, registered: seq<Id>, rejections: nat, storeBoot: Id)

  /** Requests that need the active boot and the current epoch. */
  predicate Guarded(r: Request) { r.Publish? || r.Retire? || r.Collect? }

  predicate Authorised(d: Desk, a: Envelope) { a.boot == d.active && a.epoch == d.epoch }

  predicate Accepts(d: Desk, r: Request) { Guarded(r) && Authorised(d, r.auth) }

  predicate Restores(d: Desk, a: Envelope) { a.epoch == d.epoch && a.boot in d.roster }

  function Handle(d: Desk, r: Request): Desk
  {
    match r
    case Register(boot) =>
      var known := d.(roster := d.roster + {boot}, registered := d.registered + [boot]);
      if d.active == 0 then known.(active := boot, storeBoot := boot) else known
    case AdvanceEpoch => d.(epoch := d.epoch + 1, active := 0, rejections := d.rejections + 1)
    case Restore(a, _, _) => if Restores(d, a) then d else d.(rejections := d.rejections + 1)
    case _ => if Guarded(r) && !Authorised(d, r.auth) then d.(rejections := d.rejections + 1) else d
  }

  function After(d: Desk, rs: seq<Request>): Desk
  {
    if rs == [] then d else Handle(After(d, rs[..|rs| - 1]), rs[|rs| - 1])
  }

  /** The i-th request of a history passes its guard. */
  ghost predicate AcceptedAt(d: Desk, rs: seq<Request>, i: nat)
    requires i < |rs|
  {
    Accepts(After(d, rs[..i]), rs[i])
  }

  lemma AfterNext(d: Desk, rs: seq<Request>, i: nat)
    requires i < |rs|
    ensures After(d, rs[..i + 1]) == Handle(After(d, rs[..i]), rs[i])
  {
    assert rs[..i + 1][..i] == rs[..i];
  }

  lemma {:induction false} EpochGrows(d: Desk, rs: seq<Request>, i: nat, j: nat)
    requires i <= j <= |rs|
    ensures After(d, rs[..i]).epoch <= After(d, rs[..j]).epoch
    decreases j - i
  {
    hide After;
    if i < j {
      EpochGrows(d, rs, i, j - 1);
      AfterNext(d, rs, j - 1);
    }
  }

  /** The epochs of accepted requests never decrease over a history. */
  lemma AcceptedEpochsGrow(d: Desk, rs: seq<Request>, i: nat, j: nat)
    requires i <= j < |rs| && AcceptedAt(d, rs, i) && AcceptedAt(d, rs, j)
    ensures rs[i].auth.epoch <= rs[j].auth.epoch
  {
    hide After;
    EpochGrows(d, rs, i, j);
  }

  /** While the epoch stays the same an active boot stays active. */
  lemma {:induction false} ActiveStays(d: Desk, rs: seq<Request>, i: nat, j: nat)
    requires i <= j <= |rs| && After(d, rs[..i]).active != 0 && After(d, rs[..i]).epoch == After(d, rs[..j]).epoch
    ensures After(d, rs[..j]).active == After(d, rs[..i]).active
    decreases j - i
  {
    hide After;
    if i < j {
      EpochGrows(d, rs, i, j - 1);
      AfterNext(d, rs, j - 1);
      ActiveStays(d, rs, i, j - 1);
    }
  }

  /** In one epoch all accepted requests from nonzero boots come from one boot. */
  lemma OneBootPerEpoch(d: Desk, rs: seq<Request>, i: nat, j: nat)
    requires i <= j < |rs| && AcceptedAt(d, rs, i) && AcceptedAt(d, rs, j)
    requires rs[i].auth.boot != 0 && rs[i].auth.epoch == rs[j].auth.epoch
    ensures rs[i].auth.boot == rs[j].auth.boot
  {
    hide After;
    ActiveStays(d, rs, i, j);
  }

  lemma {:induction false} Unclaimed(d: Desk, rs: seq<Request>, k: nat, j: nat)
    requires k < j <= |rs| && rs[k].AdvanceEpoch? && forall i :: k < i < j ==> !rs[i].Register?
    ensures After(d, rs[..j]).active == 0
    decreases j
  {
    hide After;
    AfterNext(d, rs, j - 1);
    if k + 1 < j {
      Unclaimed(d, rs, k, j - 1);
    }
  }

  /**
   Between an epoch advance and the next registration a guarded request is accepted exactly when
   it names boot 0 and the new epoch: nobody who registered can be.
   */
  lemma AdvanceRevokes(d: Desk, rs: seq<Request>, k: nat, j: nat)
    requires k < j < |rs| && rs[k].AdvanceEpoch? && forall i :: k < i < j ==> !rs[i].Register?
    requires Guarded(rs[j])
    ensures AcceptedAt(d, rs, j) <==> rs[j].auth.boot == 0 && rs[j].auth.epoch == After(d, rs[..j]).epoch
  {
    hide After;
    Unclaimed(d, rs, k, j);
  }

  /** Right after an advance a request that names boot 0, which nobody registered, is accepted. */
  lemma AdvanceOpensBootZero(generation: nat, id: Id)
    ensures var rs := [AdvanceEpoch, Retire(Envelope(0, 2, generation), id)];
      && AcceptedAt(OPENING, rs, 1) && After(OPENING, rs[..1]).roster == {}
  {
    var rs := [AdvanceEpoch, Retire(Envelope(0, 2, generation), id)];
    AfterNext(OPENING, rs, 0);
    assert rs[..0] == [];
  }

  /** The active boot, when there is one, is the boot the store accepts. */
  ghost predicate InStep(d: Desk) { d.active != 0 ==> d.storeBoot == d.active }

  lemma {:induction false} ActiveIsStoreBoot(d: Desk, rs: seq<Request>)
    requires InStep(d)
    ensures InStep(After(d, rs))
  {
    if rs != [] {
      ActiveIsStoreBoot(d, rs[..|rs| - 1]);
    }
  }

  /** The roster holds exactly the boots that have registered, at whatever time. */
  lemma {:induction false} RosterIsRegistered(d: Desk, rs: seq<Request>, boot: Id)
    ensures boot in After(d, rs).roster <==> boot in d.roster || exists i :: 0 <= i < |rs| && rs[i] == Register(boot)
  {
    if rs != [] {
      var n := |rs| - 1;
      RosterIsRegistered(d, rs[..n], boot);
      if i :| 0 <= i < n && rs[..n][i] == Register(boot) {
        assert rs[i] == Register(boot);
      }
      if i :| 0 <= i < |rs| && rs[i] == Register(boot) {
        assert i < n ==> rs[..n][i] == Register(boot);
      }
    }
  }

  /** The desk of a coordinator that has just started. */
  const OPENING: Desk := Desk(0, 1, {}, [], 0, COORDINATOR_BOOT)

  /**
   Over every history a restore passes exactly when it names the epoch of its time and a boot that
   registered at any time before, in whatever epoch that was: an epoch advance does not revoke it.
   */
  lemma RestoreExactly(rs: seq<Request>, i: nat)
    requires i < |rs| && rs[i].Restore?
    ensures Restores(After(OPENING, rs[..i]), rs[i].auth) <==>
            && rs[i].auth.epoch == After(OPENING, rs[..i]).epoch
            && exists k :: 0 <= k < i && rs[k] == Register(rs[i].auth.boot)
  {
    hide After;
    var boot := rs[i].auth.boot;
    RosterIsRegistered(OPENING, rs[..i], boot);
    if k :| 0 <= k < |rs[..i]| && rs[..i][k] == Register(boot) {
      assert rs[k] == Register(boot);
    }
    if k :| 0 <= k < i && rs[k] == Register(boot) {
      assert rs[..i][k] == Register(boot);
    }
  }

  /** A boot that registered before an advance restores after it, although it may no longer publish. */
  lemma RevokedBootRestores(boot: Id, generation: nat, id: Id, f: StoreState.Faults)
    requires boot != 0
    ensures var rs := [Register(boot), AdvanceEpoch, Restore(Envelope(boot, 2, generation), id, f)];
      && Restores(After(OPENING, rs[..2]), rs[2].auth) && !Authorised(After(OPENING, rs[..2]), rs[2].auth)
  {
    var rs := [Register(boot), AdvanceEpoch, Restore(Envelope(boot, 2, generation), id, f)];
    AfterNext(OPENING, rs, 0);
    AfterNext(OPENING, rs, 1);
    assert rs[..0] == [];
  }

  // ----- Exactly which guarded requests are accepted -----

  /** How often the epoch was advanced by the first i requests. */
  function Advances(rs: seq<Request>, i: nat): nat
    requires i <= |rs|
  {
    if i == 0 then 0 else Advances(rs, i - 1) + (if rs[i - 1].AdvanceEpoch? then 1 else 0)
  }

  /** The epoch of the i-th request began with the start-th: after the last advance, or at the beginning. */
  ghost predicate EpochBegan(rs: seq<Request>, i: nat, start: nat)
    requires i <= |rs|
  {
    && start <= i && (start == 0 || rs[start - 1].AdvanceEpoch?)
    && forall j :: start <= j < i ==> !rs[j].AdvanceEpoch?
  }

  /** The boot of the first registration with a nonzero boot among the requests from start up to i. */
  ghost predicate FirstToRegister(rs: seq<Request>, start: nat, i: nat, boot: Id)
    requires start <= i <= |rs|
  {
    exists k :: start <= k < i && rs[k] == Register(boot) && boot != 0 && NobodyRegisters(rs, start, k)
  }

  ghost predicate NobodyRegisters(rs: seq<Request>, start: nat, i: nat)
    requires start <= i <= |rs|
  {
    forall j :: start <= j < i && rs[j].Register? ==> rs[j].boot == 0
  }

  lemma {:induction false} EpochIsAdvances(rs: seq<Request>, i: nat)
    requires i <= |rs|
    ensures After(OPENING, rs[..i]).epoch == 1 + Advances(rs, i)
  {
    if i == 0 {
      assert rs[..0] == [];
    } else {
      EpochIsAdvances(rs, i - 1);
      AfterNext(OPENING, rs, i - 1);
    }
  }

  /** The active boot is that of the first worker to register in the epoch, and 0 until one does. */
  lemma {:induction false} ActiveIsFirst(rs: seq<Request>, start: nat, i: nat)
    requires i <= |rs| && EpochBegan(rs, i, start)
    ensures var active := After(OPENING, rs[..i]).active;
      if active == 0 then NobodyRegisters(rs, start, i) else FirstToRegister(rs, start, i, active)
    decreases i
  {
    hide After;
    if i == 0 {
      assert rs[..0] == [];
      AfterNone(OPENING);
    } else {
      AfterNext(OPENING, rs, i - 1);
      if start < i {
        ActiveIsFirst(rs, start, i - 1);
        var was := After(OPENING, rs[..i - 1]).active;
        if was != 0 {
          var k :| start <= k < i - 1 && rs[k] == Register(was) && NobodyRegisters(rs, start, k);
          assert FirstToRegister(rs, start, i, was);
        } else if rs[i - 1].Register? && rs[i - 1].boot != 0 {
          assert rs[i - 1] == Register(rs[i - 1].boot);
          assert FirstToRegister(rs, start, i, rs[i - 1].boot);
        }
      }
    }
  }

  lemma AfterNone(d: Desk)
    ensures After(d, []) == d
  {
  }

  lemma FirstIsOne(rs: seq<Request>, start: nat, i: nat, a: Id, b: Id)
    requires start <= i <= |rs| && FirstToRegister(rs, start, i, a)
    ensures !NobodyRegisters(rs, start, i)
    ensures FirstToRegister(rs, start, i, b) ==> a == b
  {
    var k :| start <= k < i && rs[k] == Register(a) && a != 0 && NobodyRegisters(rs, start, k);
    if FirstToRegister(rs, start, i, b) {
      var j :| start <= j < i && rs[j] == Register(b) && b != 0 && NobodyRegisters(rs, start, j);
    }
  }

  /**
   Over every history a publish, retire or collect request is accepted if and only if it names the
   epoch of its time, which is one more than the advances before it, and the boot of the first worker
   to register in that epoch, or boot 0 as long as none has.
   */
  lemma AcceptedExactly(rs: seq<Request>, start: nat, i: nat)
    requires i < |rs| && Guarded(rs[i]) && EpochBegan(rs, i, start)
    ensures AcceptedAt(OPENING, rs, i) <==>
            && rs[i].auth.epoch == 1 + Advances(rs, i)
            && if rs[i].auth.boot == 0 then NobodyRegisters(rs, start, i)
               else FirstToRegister(rs, start, i, rs[i].auth.boot)
  {
    hide After, FirstToRegister, NobodyRegisters;
    EpochIsAdvances(rs, i);
    ActiveIsFirst(rs, start, i);
    var active := After(OPENING, rs[..i]).active;
    if active != 0 {
      FirstIsOne(rs, start, i, active, rs[i].auth.boot);
    } else if FirstToRegister(rs, start, i, rs[i].auth.boot) {
      FirstIsOne(rs, start, i, rs[i].auth.boot, rs[i].auth.boot);
      assert false;
    }
  }

  /** Every request has such a beginning of its epoch. */
  lemma {:induction false} EpochBegins(rs: seq<Request>, i: nat) returns (start: nat)
    requires i <= |rs|
    ensures EpochBegan(rs, i, start)
  {
    if i == 0 || rs[i - 1].AdvanceEpoch? {
      start := i;
    } else {
      start := EpochBegins(rs, i - 1);
    }
  }

  /** The requests among the first i that count as stale: advances, and those whose authority fails. */
  ghost function StaleRequests(rs: seq<Request>, i: nat): nat
    requires i <= |rs|
  {
    if i == 0 then 0
    else
      var r, d := rs[i - 1], After(OPENING, rs[..i - 1]);
      StaleRequests(rs, i - 1)
      + (if r.AdvanceEpoch? || (Guarded(r) && !Authorised(d, r.auth)) || (r.Restore? && !Restores(d, r.auth)) then 1
         else 0)
  }

  /** The rejection counter is exactly their number. */
  lemma {:induction false} RejectionsExactly(rs: seq<Request>, i: nat)
    requires i <= |rs|
    ensures After(OPENING, rs[..i]).rejections == StaleRequests(rs, i)
  {
    if i == 0 {
      assert rs[..0] == [];
    } else {
      hide After;
      RejectionsExactly(rs, i - 1);
      AfterNext(OPENING, rs, i - 1);
    }
  }

  // ----- What an accepted request does to the store -----

  function Filled(size: nat, fill: Byte): Bytes { seq(size, i => fill) }

  /** A descriptor from the store for the family, and the publication of the filled bytes under it. */
  function Published(s: StoreState.State, r: Request): (StoreState.State, Option<Error>)
    requires r.Publish?
  {
    var (t, made) := StoreState.MakeDescriptor(s, r.family, 1, r.size, DURABILITY_LOCAL, r.now);
    match made
    case Err(e) => (t, Some(e))
    case Ok(d) =>
      var (u, receipt) := StoreState.Publish(t, d, Filled(r.size, r.fill), r.faults);
      (u, if receipt.Ok? then None else Some(receipt.error))
  }

  function Retained(r: Request): Policy
    requires r.Retain?
  {
    Policy(1, r.family, RETAIN_LATEST_N, r.latest, 0, true, false, false, 1, PROVENANCE_UNKNOWN)
  }

  /** Making a descriptor and, if the family has one, publishing the filled bytes under it. */
  function PublishOps(s: StoreState.State, r: Request): seq<Runs.Op>
    requires r.Publish?
  {
    var make := Runs.MakeDescriptor(r.family, 1, r.size, DURABILITY_LOCAL, r.now);
    match StoreState.MakeDescriptor(s, r.family, 1, r.size, DURABILITY_LOCAL, r.now).1
    case Err(_) => [make]
    case Ok(made) => [make, Runs.Op.Publish(made, Filled(r.size, r.fill), r.faults)]
  }

  /** A plan listing every unreachable blob once, and a run sweeping every eligible checkpoint once. */
  ghost predicate CollectOps(s: StoreState.State, r: Request, list: seq<Id>, eligible: seq<Id>)
    requires r.Collect?
  {
    var reachable := Collection.Reachable(s.checkpoints, Retention.Protected(s, r.plan));
    && Collection.IsPlan(s, reachable, list)
    && Retention.Enumerates(eligible, Retention.Eligible(Collection.Plan(s, reachable, list), r.before))
  }

  /** The store operations a request comes to at a desk and a store: none when it is rejected. */
  ghost predicate Translates(d: Desk, s: StoreState.State, r: Request, ops: seq<Runs.Op>)
  {
    match r
    case Register(boot) => ops == if d.active == 0 then [Runs.SetBoot(boot), Runs.ResetAuthority] else []
    case CreateFamily => ops == [Runs.CreateFamily]
    case Publish(a, _, _, _, _, _) => ops == if Authorised(d, a) then PublishOps(s, r) else []
    case Verify(id, f) => ops == [Runs.Verify(id, f)]
    case Restore(a, id, f) => ops == if Restores(d, a) then [Runs.Restore(id, f)] else []
    case Retire(a, id) => ops == if Authorised(d, a) then [Runs.Retire(id)] else []
    case Collect(a, plan, _, after, f) =>
      if !Authorised(d, a) then ops == []
      else
        && |ops| == 2 && ops[0].GcPlan? && ops[1].GcRun? && CollectOps(s, r, ops[0].list, ops[1].eligible)
        && ops == [Runs.GcPlan(plan, ops[0].list), Runs.GcRun(ops[1].eligible, after, f)]
    case Retain(_, _) => ops == [Runs.SetPolicy(Retained(r))]
    case _ => ops == []
  }

  lemma OneOp(s: StoreState.State, op: Runs.Op)
    ensures Runs.PerformAll(s, [op]) == Runs.Perform(s, op)
  {
    hide Runs.Perform;
    assert [op][..0] == [] && Runs.PerformAll(s, []) == s;
  }

  lemma TwoOps(s: StoreState.State, a: Runs.Op, b: Runs.Op)
    ensures Runs.PerformAll(s, [a, b]) == Runs.Perform(Runs.Perform(s, a), b)
  {
    hide Runs.Perform;
    assert [a, b][..1] == [a];
    OneOp(s, a);
  }

  lemma NoOps(s: StoreState.State)
    ensures Runs.PerformAll(s, []) == s
  {
    hide Runs.Perform;
  }

  lemma PublishedOps(s: StoreState.State, r: Request)
    requires r.Publish?
    ensures Runs.PerformAll(s, PublishOps(s, r)) == Published(s, r).0
  {
    hide StoreState.Publish, StoreState.FullDescriptor, Runs.Perform;
    var ops := PublishOps(s, r);
    var (t, made) := StoreState.MakeDescriptor(s, r.family, 1, r.size, DURABILITY_LOCAL, r.now);
    Runs.Performs(s, ops[0]);
    if made.Err? {
      OneOp(s, ops[0]);
    } else {
      TwoOps(s, ops[0], ops[1]);
      Runs.Performs(t, ops[1]);
    }
  }

  /** Every checkpoint a coordinator publishes has an id its store has handed out. */
  lemma OpsKeepIssued(d: Desk, s: StoreState.State, r: Request, ops: seq<Runs.Op>)
    requires Translates(d, s, r, ops) && Admitted.Issued(s)
    ensures Admitted.Issued(Runs.PerformAll(s, ops))
  {
    hide Runs.Perform, Runs.PerformAll, Admitted.Issued, CollectOps;
    NoOps(s);
    if ops != [] {
      MadeBeforePublished(d, s, r, ops);
      Admitted.StepIssued(s, ops[0]);
      OneOp(s, ops[0]);
      if |ops| == 2 {
        assert ops == [ops[0], ops[1]];
        TwoOps(s, ops[0], ops[1]);
        Admitted.StepIssued(Runs.Perform(s, ops[0]), ops[1]);
      } else {
        assert ops == [ops[0]];
      }
    }
  }

  /** Every policy is set under the id 1. */
  ghost predicate SetsOne(ops: seq<Runs.Op>)
  {
    forall i :: 0 <= i < |ops| && ops[i].SetPolicy? ==> ops[i].policy.id == 1
  }

  lemma OpsSetOne(d: Desk, s: StoreState.State, r: Request, ops: seq<Runs.Op>)
    requires Translates(d, s, r, ops)
    ensures SetsOne(ops)
  {
    hide CollectOps;
  }

  lemma MadeBeforePublished(d: Desk, s: StoreState.State, r: Request, ops: seq<Runs.Op>)
    requires Translates(d, s, r, ops) && ops != []
    ensures |ops| <= 2 && !ops[0].Publish?
    ensures |ops| == 2 && ops[1].Publish? ==> ops[1].d.id < Runs.Perform(s, ops[0]).nextId
  {
    hide CollectOps, Runs.Perform;
    if |ops| == 2 && ops[1].Publish? {
      Runs.Performs(s, ops[0]);
      Admitted.MadeIsAdmitted(s, r.family, 1, r.size, DURABILITY_LOCAL, r.now);
    }
  }

  /** No checkpoint is being created (0) or written (1), and every blob must be revalidated (2). */
  ghost predicate Restarted(s: StoreState.State)
  {
    && (forall id :: id in s.checkpoints ==> s.checkpoints[id].lifecycle != 0 && s.checkpoints[id].lifecycle != 1)
    && forall b :: b in s.blobs ==> s.blobs[b].freshness == 2 && s.blobs[b].integrity != 2
  }

  lemma ResetRestarts(s: StoreState.State)
    ensures Restarted(Runs.AuthorityReset(s)) && Runs.AuthorityReset(s).bootId == s.bootId
  {
  }

  /** A publish request stands for as many bytes as it says, all of them its fill byte. */
  lemma FilledExactly(size: nat, fill: Byte)
    ensures |Filled(size, fill)| == size && forall i :: 0 <= i < size ==> Filled(size, fill)[i] == fill
  {
  }

  /** What an accepted publish request publishes: its filled bytes, for owner 1, kept locally (durability 2). */
  lemma AcceptedPublishes(s: StoreState.State, r: Request)
    requires r.Publish? && r.family in s.nextGeneration
    ensures var ops := PublishOps(s, r);
      && |ops| == 2 && ops[1].Publish? && ops[1].faults == r.faults && |ops[1].data| == r.size
      && (forall i :: 0 <= i < r.size ==> ops[1].data[i] == r.fill)
      && Admitted.MadeFor(s, ops[1].d, r.family, 1, r.size, 2, r.now)
  {
    Admitted.MadeIsAdmitted(s, r.family, 1, r.size, 2, r.now);
    FilledExactly(r.size, r.fill);
  }

  class Coordinator {
    const store: Store.CheckpointStore
    var active: Id
    var epoch: nat
    var rejections: nat
    var registered: seq<Id>
    var roster: set<Id>
    var revoked: set<Id>
    ghost var log: seq<Runs.Op>

    /** The store is where the logged operations lead a new store, and has only ids of its own making. */
    ghost predicate Valid()
      reads this, store, store.dedup, store.backend
    {
      && revoked == {} && store.Value() == Runs.After(Runs.Start(store.cfg, COORDINATOR_BOOT), log).s
      && Admitted.Issued(store.Value()) && SetsOne(log)
    }

    ghost function View(): Desk
      reads this, store
    {
      Desk(active, epoch, roster, registered, rejections, store.bootId)
    }

    constructor (cfg: StoreState.Config)
      ensures Valid() && View() == OPENING && store.Value() == Runs.Init(cfg, COORDINATOR_BOOT) && log == []
      ensures fresh(store) && fresh(store.dedup) && fresh(store.backend)
    {
      store := new Store.CheckpointStore(cfg, COORDINATOR_BOOT);
      active, epoch, rejections, registered, roster, revoked := 0, 1, 0, [], {}, {};
      log := [];
    }

    method PublishAuthorityOk(a: Envelope) returns (ok: bool)
      modifies this`rejections
      ensures ok == Authorised(View(), a) && rejections == old(rejections) + (if ok then 0 else 1)
    {
      ok := true;
      if a.boot != active || a.epoch != epoch {
        rejections := rejections + 1;
        ok := false;
      }
    }

    method RestoreAuthorityOk(a: Envelope) returns (ok: bool)
      modifies this`rejections
      ensures ok == Restores(View(), a) && rejections == old(rejections) + (if ok then 0 else 1)
    {
      if a.epoch != epoch {
        rejections := rejections + 1;
        return false;
      }
      if a.boot !in roster {
        rejections := rejections + 1;
        return false;
      }
      return true;
    }

    method Advance()
      modifies this`epoch, this`active, this`rejections
      ensures View() == Handle(old(View()), AdvanceEpoch)
    {
      epoch := epoch + 1;
      active := 0;
      rejections := rejections + 1;
    }

    method RegisterWorker(boot: Id)
      requires revoked == {}
      modifies this`registered, this`roster, this`active, store`bootId, store`checkpoints, store`blobs, store`gc
      ensures View() == Handle(old(View()), Register(boot))
      ensures store.Value() == if old(active) == 0 then Runs.AuthorityReset(old(store.Value()).(bootId := boot))
              else old(store.Value())
    {
      hide Runs.AuthorityReset;
      registered := registered + [boot];
      roster := roster + {boot};
      if active == 0 && boot !in revoked {
        active := boot;
        store.SetAuthorityBoot(boot);
        store.ResetAuthority();
      }
    }

    method PublishFilled(r: Request) returns (error: Option<Error>)
      requires r.Publish?
      modifies store, store.dedup, store.backend
      ensures (store.Value(), error) == Published(old(store.Value()), r) && store.bootId == old(store.bootId)
    {
      hide StoreState.Publish;
      var made := store.MakeFullDescriptor(r.family, 1, r.size, DURABILITY_LOCAL, r.now);
      if made.Err? {
        return Some(made.error);
      }
      var data: Bytes := Filled(r.size, r.fill);
      ghost var s := store.Value();
      var receipt := store.Publish(made.value, data, r.faults);
      PublishKeepsBoot(s, made.value, data, r.faults);
      error := if receipt.Ok? then None else Some(receipt.error);
    }

    /** gc_plan and gc_run, one after the other. */
    method CollectNow(r: Request) returns (list: seq<Id>, eligible: seq<Id>)
      requires r.Collect?
      modifies store, store.dedup, store.backend
      ensures var s := old(store.Value());
        var reachable := Collection.Reachable(s.checkpoints, Retention.Protected(s, r.plan));
        var planned := Collection.Plan(s, reachable, list);
        && CollectOps(s, r, list, eligible)
        && store.Value() == Collection.Run(planned, eligible, Retention.Protected(planned, r.after), r.faults)
      ensures store.bootId == old(store.bootId)
    {
      hide Collection.Run, Retention.Protected, Retention.Eligible, Collection.Reachable, Collection.IsPlan,
           Collection.MarkedSizes;
      store.GcPlan(r.plan);
      list := store.gc.reclaimable;
      ghost var s := store.Value();
      eligible := store.GcRun(r.before, r.after, r.faults);
      RunKeepsBoot(s, eligible, Retention.Protected(s, r.after), r.faults);
    }

    /** Requests that need the active boot and the current epoch. */
    method DispatchGuarded(r: Request) returns (error: Option<Error>, ghost ops: seq<Runs.Op>)
      requires Guarded(r)
      modifies this`rejections, store, store.dedup, store.backend
      ensures View() == Handle(old(View()), r)
      ensures !Accepts(old(View()), r) ==> error == Some(StaleAuthority) && store.Value() == old(store.Value())
      ensures r.Publish? && Accepts(old(View()), r) ==> (store.Value(), error) == Published(old(store.Value()), r)
      ensures r.Retire? && Accepts(old(View()), r) ==>
              (store.Value(), error) == Retention.Retire(old(store.Value()), r.id)
      ensures Translates(old(View()), old(store.Value()), r, ops)
      ensures store.Value() == Runs.PerformAll(old(store.Value()), ops)
    {
      hide Published, PublishOps, CollectOps, Collection.Plan, Collection.Run, Collection.IsPlan,
           Collection.Reachable, Retention.Protected, Retention.Eligible, Runs.Perform, Runs.PerformAll;
      ghost var d, s := View(), store.Value();
      var ok := PublishAuthorityOk(r.auth);
      if !ok {
        NoOps(s);
        return Some(StaleAuthority), [];
      }
      error := None;
      if r.Publish? {
        ops := PublishOps(s, r);
        PublishedOps(s, r);
        error := PublishFilled(r);
      } else if r.Retire? {
        ops := [Runs.Retire(r.id)];
        OneOp(s, ops[0]);
        Runs.Performs(s, ops[0]);
        error := store.Retire(r.id);
      } else {
        var list, eligible := CollectNow(r);
        ops := [Runs.GcPlan(r.plan, list), Runs.GcRun(eligible, r.after, r.faults)];
        TwoOps(s, ops[0], ops[1]);
        Runs.Performs(s, ops[0]);
        Runs.Performs(Runs.Perform(s, ops[0]), ops[1]);
      }
    }

    /** Registration, the epoch, families, policies and saving: open to everyone. */
    method DispatchOpen(r: Request) returns (error: Option<Error>, ghost ops: seq<Runs.Op>)
      requires revoked == {} && !Guarded(r) && !r.Restore? && !r.Verify?
      modifies this, store, store.dedup, store.backend
      ensures revoked == {} && View() == Handle(old(View()), r) && log == old(log)
      ensures error == if r.Unknown? then Some(NotSupported) else None
      ensures r.Register? && old(active) == 0 ==> store.bootId == r.boot && Restarted(store.Value())
      ensures Translates(old(View()), old(store.Value()), r, ops)
      ensures store.Value() == Runs.PerformAll(old(store.Value()), ops)
    {
      hide Runs.AuthorityReset, Restarted, Persistence.Save, Runs.Perform, Runs.PerformAll;
      ghost var s := store.Value();
      error, ops := None, [];
      NoOps(s);
      match r {
        case Register(boot) =>
          if active == 0 {
            ops := [Runs.SetBoot(boot), Runs.ResetAuthority];
            TwoOps(s, ops[0], ops[1]);
            Runs.Performs(s, ops[0]);
            Runs.Performs(Runs.Perform(s, ops[0]), ops[1]);
          }
          ResetRestarts(s.(bootId := boot));
          RegisterWorker(boot);
        case AdvanceEpoch =>
          Advance();
        case CreateFamily =>
          ops := [Runs.CreateFamily];
          OneOp(s, ops[0]);
          Runs.Performs(s, ops[0]);
          var family := store.CreateFamily();
        case Retain(_, _) =>
          ops := [Runs.SetPolicy(Retained(r))];
          OneOp(s, ops[0]);
          Runs.Performs(s, ops[0]);
          store.SetRetentionPolicy(Retained(r));
        case Save =>
          var raw := store.SaveState();
        case Unknown =>
          error := Some(NotSupported);
      }
    }

    /** Restore asks for a registered boot and the current epoch; verification asks for nothing. */
    method DispatchRead(r: Request) returns (error: Option<Error>, ghost ops: seq<Runs.Op>)
      requires r.Restore? || r.Verify?
      modifies this`rejections, store, store.dedup, store.backend
      ensures View() == Handle(old(View()), r)
      ensures r.Restore? && !Restores(old(View()), r.auth) ==> store.Value() == old(store.Value())
      ensures r.Restore? ==> error == if !Restores(old(View()), r.auth) then Some(StaleAuthority)
                                      else Failed(Recovery.Restore(old(store.Value()), r.id, r.faults).1)
      ensures r.Verify? ==> error == Failed(Recovery.VerifyCheckpoint(old(store.Value()), r.id, r.faults).1)
      ensures Translates(old(View()), old(store.Value()), r, ops)
      ensures store.Value() == Runs.PerformAll(old(store.Value()), ops)
    {
      hide Recovery.Restore, Recovery.VerifyCheckpoint, Runs.Perform, Runs.PerformAll;
      ghost var s := store.Value();
      if r.Restore? {
        var ok := RestoreAuthorityOk(r.auth);
        if !ok {
          NoOps(s);
          return Some(StaleAuthority), [];
        }
        ops := [Runs.Restore(r.id, r.faults)];
        OneOp(s, ops[0]);
        Runs.Performs(s, ops[0]);
        var restored := store.Restore(r.id, r.faults);
        error := Failed(restored);
      } else {
        ops := [Runs.Verify(r.id, r.faults)];
        OneOp(s, ops[0]);
        Runs.Performs(s, ops[0]);
        var seen := store.VerifyCheckpoint(r.id, r.faults);
        error := Failed(seen);
      }
    }

    /**
     dispatch: the desk follows the history, and the store performs exactly the operations the
     request comes to: none when it is rejected. The log stays a run of the store.
     */
    method Dispatch(r: Request) returns (error: Option<Error>)
      requires Valid()
      modifies this, store, store.dedup, store.backend
      ensures Valid() && View() == Handle(old(View()), r)
      ensures |old(log)| <= |log| && log[..|old(log)|] == old(log)
      ensures Translates(old(View()), old(store.Value()), r, log[|old(log)|..])
      ensures Guarded(r) && !Accepts(old(View()), r) ==>
              error == Some(StaleAuthority) && store.Value() == old(store.Value())
      ensures r.Restore? && !Restores(old(View()), r.auth) ==>
              error == Some(StaleAuthority) && store.Value() == old(store.Value())
      ensures r.Publish? && Accepts(old(View()), r) ==> (store.Value(), error) == Published(old(store.Value()), r)
      ensures r.Retire? && Accepts(old(View()), r) ==>
              (store.Value(), error) == Retention.Retire(old(store.Value()), r.id)
      ensures r.Register? && old(active) == 0 ==> store.bootId == r.boot && Restarted(store.Value())
    {
      hide Restarted, Published, Handle, Retention.Retire, Runs.Perform, Runs.PerformAll, Runs.After, Translates,
           Recovery.Restore, Recovery.VerifyCheckpoint;
      ghost var was, ops: seq<Runs.Op> := log, [];
      ghost var d, s := View(), store.Value();
      if Guarded(r) {
        error, ops := DispatchGuarded(r);
      } else if r.Restore? || r.Verify? {
        error, ops := DispatchRead(r);
      } else {
        error, ops := DispatchOpen(r);
      }
      Runs.AfterAll(Runs.Start(store.cfg, COORDINATOR_BOOT), was, ops);
      OpsKeepIssued(d, s, r, ops);
      OpsSetOne(d, s, r, ops);
      log := was + ops;
    }
  }

  function Failed<T>(r: Result<T, Error>): Option<Error> { if r.Ok? then None else Some(r.error) }

  /** The run theorems reach the store of a coordinator: every live checkpoint in it is whole. */
  lemma ServedCheckpointsAreWhole(c: Coordinator, id: Id)
    requires c.Valid() && (forall op <- c.log :: Runs.Honest(op))
    requires id in c.store.checkpoints && Live(c.store.checkpoints[id])
    ensures RestoreCorrectness.Whole(c.store.Value(), c.store.checkpoints[id])
  {
    hide Runs.After, Runs.Honest, RestoreCorrectness.Whole, Publication.Safe;
    Runs.InitSafe(c.store.cfg, COORDINATOR_BOOT);
    Runs.RunSafe(Runs.Start(c.store.cfg, COORDINATOR_BOOT), c.log);
    RestoreCorrectness.SafeIsWhole(c.store.Value(), id);
  }

  /**
   An accepted publication for a known family commits, with every backend call going through and no two
   strings in play sharing a digest, if and only if entries, counters and chunk ids allow it.
   */
  lemma AcceptedCommitsExactly(c: Coordinator, r: Request)
    requires c.Valid() && r.Publish? && r.family in c.store.nextGeneration && Commits.Answering(r.faults)
    requires Chunking.ValidChunkSize(c.store.cfg.chunkSize)
    requires Commits.NoClash(c.store.cfg.hash, c.store.Value().storage,
                             Chunking.Slices(c.store.cfg.hash, Filled(r.size, r.fill), c.store.cfg.chunkSize))
    ensures var s, cfg := c.store.Value(), c.store.cfg;
      var slices := Chunking.Slices(cfg.hash, Filled(r.size, r.fill), cfg.chunkSize);
      Published(s, r).1.None? <==>
        && Commits.EntriesAgree(s.storage.dedup, slices) && Commits.RoomFor(cfg.hash, s.storage, slices)
        && Commits.IdsSized(slices)
  {
    hide Runs.After, Commits.Answering, Commits.NoClash, Commits.CountersFit, StoreState.Publish,
         StoreState.MakeDescriptor, StoreState.Admission, Commits.EntriesAgree, Commits.RoomFor, Commits.IdsSized,
         Chunking.Slices;
    var s, w := c.store.Value(), Runs.Start(c.store.cfg, COORDINATOR_BOOT);
    Admitted.InitFits(c.store.cfg, COORDINATOR_BOOT);
    Admitted.RunCountersFit(w, c.log);
    Runs.RunPromised(c.store.cfg, w, c.log);
    Admitted.MadeIsAdmitted(s, r.family, 1, r.size, DURABILITY_LOCAL, r.now);
    var (t, made) := StoreState.MakeDescriptor(s, r.family, 1, r.size, DURABILITY_LOCAL, r.now);
    Commits.CommitsExactly(t, made.value, Filled(r.size, r.fill), r.faults);
  }

  // ----- Policies -----

  lemma StepPolicies(s: StoreState.State, op: Runs.Op)
    ensures Runs.Perform(s, op).retention ==
            if op.SetPolicy? then s.retention[op.policy.id := op.policy.(generation := 1)] else s.retention
  {
    hide StoreState.Publish, Collection.Run, Collection.Reachable, Collection.MarkedSizes,
         RestoreCorrectness.OnlyHealth, Recovery.Restore, Recovery.VerifyCheckpoint, Retention.Protected,
         Persistence.ImageOf, Persistence.RaiseBy, Persistence.StartFamilies, Persistence.NextAll;
    match op
    case Publish(d, data, f) =>
      PublishPolicies(s, d, data, f);
    case GcRun(eligible, v, f) =>
      RunPolicies(s, eligible, Retention.Protected(s, v), f);
    case Verify(id, f) =>
      RestoreCorrectness.VerifyHealth(s, id, f);
      HealthPolicies(s, Recovery.VerifyCheckpoint(s, id, f).0);
    case Restore(id, f) =>
      RestoreCorrectness.RestoreHealth(s, id, f);
      HealthPolicies(s, Recovery.Restore(s, id, f).0);
    case _ =>
  }

  lemma HealthPolicies(s: StoreState.State, t: StoreState.State)
    requires RestoreCorrectness.OnlyHealth(s, t)
    ensures t.retention == s.retention
  {
  }

  lemma PublishPolicies(s: StoreState.State, d: Descriptor, data: Bytes, f: StoreState.Faults)
    ensures StoreState.Publish(s, d, data, f).0.retention == s.retention
  {
    hide StoreState.Steps, StoreState.Confirm, StoreState.NewManifest, StoreState.Undo, Chunking.Slices;
    if StoreState.Admission(s, d).None? {
      var slices := Chunking.Slices(s.cfg.hash, data, s.cfg.chunkSize);
      Runs.StepsFrame(s.(nextId := s.nextId + 1), slices, |slices|, s.nextId, f);
    }
  }

  lemma RunPolicies(s: StoreState.State, eligible: seq<Id>, retained: set<Id>, f: StoreState.Faults)
    ensures Collection.Run(s, eligible, retained, f).retention == s.retention
  {
    hide Collection.Sweep, Collection.Reclaim, Collection.Reachable;
    SweepPolicies(s, eligible);
    ReclaimPolicies(Collection.Sweep(s, eligible), Collection.Reachable(s.checkpoints, retained), s.gc.reclaimable, f);
  }

  lemma {:induction false} SweepPolicies(s: StoreState.State, ids: seq<Id>)
    ensures Collection.Sweep(s, ids).retention == s.retention
  {
    hide Collection.ReleaseAll;
    if ids != [] {
      SweepPolicies(s, ids[..|ids| - 1]);
    }
  }

  lemma {:induction false} ReclaimPolicies(s: StoreState.State, reachable: set<Id>, list: seq<Id>, f: StoreState.Faults)
    ensures Collection.Reclaim(s, reachable, list, f).retention == s.retention
  {
    hide Collection.RemoveFrom, BlobKey;
    if list != [] {
      ReclaimPolicies(s, reachable, list[..|list| - 1], f);
    }
  }

  /** The last policy the operations set. */
  ghost function LastPolicy(ops: seq<Runs.Op>): Option<Policy>
  {
    if ops == [] then None
    else if ops[|ops| - 1].SetPolicy? then Some(ops[|ops| - 1].policy.(generation := 1))
    else LastPolicy(ops[..|ops| - 1])
  }

  lemma {:induction false} OnlyLastPolicy(w: Runs.World, ops: seq<Runs.Op>)
    requires w.s.retention == map[] && SetsOne(ops)
    ensures var last := LastPolicy(ops);
      Runs.After(w, ops).s.retention == if last.Some? then map[1 := last.value] else map[]
  {
    hide Runs.Perform, Runs.Remember;
    if ops != [] {
      var n := |ops| - 1;
      assert SetsOne(ops[..n]);
      OnlyLastPolicy(w, ops[..n]);
      StepPolicies(Runs.After(w, ops[..n]).s, ops[n]);
    }
  }

  /**
   A coordinator's store never has more than one policy, the one of the last retain request: a retain
   request for one family ends the policy of every other, and the order of the policy map never matters.
   */
  lemma OnePolicyAtATime(c: Coordinator)
    requires c.Valid()
    ensures var last := LastPolicy(c.log);
      c.store.retention == if last.Some? then map[1 := last.value] else map[]
    ensures LatestN.AtMostOnePolicy(c.store.retention)
  {
    hide Runs.After, LastPolicy;
    OnlyLastPolicy(Runs.Start(c.store.cfg, COORDINATOR_BOOT), c.log);
  }

  /** What a retain request for a family asks for: its newest checkpoints, as many as it says, and no more. */
  lemma RetainMeans(r: Request)
    requires r.Retain?
    ensures var p := Retained(r);
      p.familyId == r.family && p.latestN == r.latest && p.retentionClass == 1 && !p.policyProtected && p.ttl == 0
  {
  }

  lemma PublishKeepsBoot(s: StoreState.State, d: Descriptor, data: Bytes, f: StoreState.Faults)
    ensures StoreState.Publish(s, d, data, f).0.bootId == s.bootId
  {
    hide StoreState.Steps, StoreState.Confirm, StoreState.NewManifest, StoreState.Undo, Chunking.Slices;
    if StoreState.Admission(s, d).None? {
      var slices := Chunking.Slices(s.cfg.hash, data, s.cfg.chunkSize);
      Runs.StepsFrame(s.(nextId := s.nextId + 1), slices, |slices|, s.nextId, f);
    }
  }

  lemma RunKeepsBoot(s: StoreState.State, eligible: seq<Id>, retained: set<Id>, f: StoreState.Faults)
    ensures Collection.Run(s, eligible, retained, f).bootId == s.bootId
  {
    hide Collection.Sweep, Collection.Reclaim, Collection.Reachable;
    SweepKeepsBoot(s, eligible);
    ReclaimKeepsBoot(Collection.Sweep(s, eligible), Collection.Reachable(s.checkpoints, retained), s.gc.reclaimable, f);
  }

  lemma {:induction false} SweepKeepsBoot(s: StoreState.State, ids: seq<Id>)
    ensures Collection.Sweep(s, ids).bootId == s.bootId
  {
    hide Collection.ReleaseAll;
    if ids != [] {
      SweepKeepsBoot(s, ids[..|ids| - 1]);
    }
  }

  lemma {:induction false} ReclaimKeepsBoot(s: StoreState.State, reachable: set<Id>, list: seq<Id>,
                                            f: StoreState.Faults)
    ensures Collection.Reclaim(s, reachable, list, f).bootId == s.bootId
  {
    hide Collection.RemoveFrom, BlobKey;
    if list != [] {
      ReclaimKeepsBoot(s, reachable, list[..|list| - 1], f);
    }
  }
}

/** Exactly when the order in which the policy map is walked makes no difference to retention. */
module PolicyOrder {
  import opened Basics
  import opened Model
  import opened StoreState
  import opened Retention
  import opened LatestN
  import Generations
  import Runs
  import Chunking

  // ----- At most one policy for each family: the order makes no difference -----

  /** The policy found is one of those for the family, and is missing only if there is none. */
  lemma FoundInBoth(policies: map<Id, Policy>, a: seq<Id>, b: seq<Id>, family: Id)
    requires AtMostOnePolicy(policies) && Walks(policies, a) && Walks(policies, b)
    ensures FindPolicy(policies, a, family) == FindPolicy(policies, b, family)
  {
    FindPolicyFinds(policies, a, family);
    FindPolicyFinds(policies, b, family);
  }

  lemma SameDescents(s: State, v: View, u: View)
    requires forall id :: id in s.checkpoints ==> Direct(s, v, id) == Direct(s, u, id)
    ensures Protected(s, v) == Protected(s, u)
  {
    forall id | id in s.checkpoints ensures Descends(s, v, id) == Descends(s, u, id) {
      if Descends(s, v, id) {
        var path :| Descent(s, v, path) && path[|path| - 1] == id;
        assert Descent(s, u, path);
      }
      if Descends(s, u, id) {
        var path :| Descent(s, u, path) && path[|path| - 1] == id;
        assert Descent(s, v, path);
      }
    }
  }

  /** With at most one policy for each family, two walks at the same time protect the same checkpoints. */
  lemma OrderMakesNoDifference(s: State, v: View, u: View)
    requires AtMostOnePolicy(s.retention) && Walks(s.retention, v.order) && Walks(s.retention, u.order)
    requires v.now == u.now
    ensures Protected(s, v) == Protected(s, u)
  {
    hide Protected, FindPolicy, AtMostOnePolicy, Walks, IsProtected;
    forall id | id in s.checkpoints ensures Direct(s, v, id) == Direct(s, u, id) {
      FoundInBoth(s.retention, v.order, u.order, s.checkpoints[id].descriptor.familyId);
    }
    SameDescents(s, v, u);
  }

  // ----- Exactly then -----

  ghost predicate KeyedById(policies: map<Id, Policy>)
  {
    forall p :: p in policies ==> policies[p].id == p
  }

  /** Every two walks find the same policy for every family. */
  ghost predicate OrderFree(policies: map<Id, Policy>)
  {
    forall a, b, family :: Walks(policies, a) && Walks(policies, b) ==>
      FindPolicy(policies, a, family) == FindPolicy(policies, b, family)
  }

  lemma {:induction false} SomeWalk(ids: set<Id>) returns (order: seq<Id>)
    ensures forall p :: p in ids ==> p in order
  {
    order := [];
    if ids != {} {
      var p :| p in ids;
      var rest := SomeWalk(ids - {p});
      order := [p] + rest;
      forall q | q in ids ensures q in order { assert q != p ==> q in ids - {p}; }
    }
  }

  lemma TwoPoliciesDiffer(policies: map<Id, Policy>, p: Id, q: Id)
    requires KeyedById(policies) && p in policies && q in policies && p != q
    requires policies[p].familyId == policies[q].familyId
    ensures !OrderFree(policies)
  {
    var order := SomeWalk(policies.Keys);
    var a, b, family := [p] + order, [q] + order, policies[p].familyId;
    assert Walks(policies, a) && Walks(policies, b);
    assert FindPolicy(policies, a, family) == Some(policies[p]) && FindPolicy(policies, b, family) == Some(policies[q]);
  }

  /** Every two walks find the same policies if and only if no family has two. */
  lemma OrderFreeExactly(policies: map<Id, Policy>)
    requires KeyedById(policies)
    ensures OrderFree(policies) <==> AtMostOnePolicy(policies)
  {
    hide KeyedById, FindPolicy, Walks;
    if AtMostOnePolicy(policies) {
      forall a, b, family | Walks(policies, a) && Walks(policies, b)
        ensures FindPolicy(policies, a, family) == FindPolicy(policies, b, family)
      {
        FoundInBoth(policies, a, b, family);
      }
    } else {
      var p, q :| p in policies && q in policies && policies[p].familyId == policies[q].familyId && p != q;
      TwoPoliciesDiffer(policies, p, q);
    }
  }

  // ----- A run after which it does -----

  function PolicyFor(id: Id, protects: bool): Policy
  {
    Policy(id, 1, RETAIN_LATEST_N, 0, 0, true, false, protects, 1, PROVENANCE_MEASURED)
  }

  /** A checkpoint, retired, and two policies for its family, the first of which protects it. */
  function TwoPolicies(boot: Id): seq<Runs.Op>
  {
    [Runs.CreateFamily, Runs.Op.Publish(Generations.Plain(7, boot), [], Generations.ALL_GOES_WELL), Runs.Op.Retire(7),
     Runs.SetPolicy(PolicyFor(1, true)), Runs.SetPolicy(PolicyFor(2, false))]
  }

  ghost function Retired(cfg: Config, boot: Id): State
  {
    Retire(StoreState.Publish(StoreState.CreateFamily(Runs.Init(cfg, boot)), Generations.Plain(7, boot), [],
                              Generations.ALL_GOES_WELL).0, 7).0
  }

  lemma TwoPoliciesLead(cfg: Config, boot: Id)
    ensures Runs.After(Runs.Start(cfg, boot), TwoPolicies(boot)).s ==
            SetPolicy(SetPolicy(Retired(cfg, boot), PolicyFor(1, true)), PolicyFor(2, false))
  {
    hide Runs.Perform, Runs.Remember, Runs.After, StoreState.Publish, StoreState.CreateFamily, Retire, SetPolicy,
         Runs.Init;
    var w, ops := Runs.Start(cfg, boot), TwoPolicies(boot);
    Generations.AfterNone(w);
    Generations.AfterOne(w, ops, 0);
    Generations.AfterOne(w, ops, 1);
    Generations.AfterOne(w, ops, 2);
    Generations.AfterOne(w, ops, 3);
    Generations.AfterOne(w, ops, 4);
    assert ops[..0] == [] && ops[..5] == ops;
    var s1 := StoreState.CreateFamily(w.s);
    var s2 := StoreState.Publish(s1, Generations.Plain(7, boot), [], Generations.ALL_GOES_WELL).0;
    Runs.Performs(w.s, ops[0]);
    Runs.Performs(s1, ops[1]);
    Runs.Performs(s2, ops[2]);
    Runs.Performs(Retire(s2, 7).0, ops[3]);
    Runs.Performs(SetPolicy(Retire(s2, 7).0, PolicyFor(1, true)), ops[4]);
  }

  lemma RetiredHolds(cfg: Config, boot: Id)
    requires Chunking.ValidChunkSize(cfg.chunkSize)
    ensures var s := Retired(cfg, boot);
      && s.retention == map[] && s.checkpoints.Keys == {7} && s.checkpoints[7].lifecycle == LIFE_RETIRED
      && s.checkpoints[7].descriptor == Generations.Plain(7, boot)
      && s.checkpoints[7].replicaSet.durabilityState == DURABILITY_HEALTHY
  {
    hide StoreState.Publish, NewManifest;
    var s1, d := StoreState.CreateFamily(Runs.Init(cfg, boot)), Generations.Plain(7, boot);
    Generations.EmptyCommits(s1, d, Generations.ALL_GOES_WELL);
    var s2 := StoreState.Publish(s1, d, [], Generations.ALL_GOES_WELL).0;
    assert s2.checkpoints.Keys == {7} && s2.retention == map[];
    assert Retire(s2, 7).0 == s2.(checkpoints := s2.checkpoints[7 := s2.checkpoints[7].(lifecycle := LIFE_RETIRED)]);
  }

  lemma LastTwo(cfg: Config, boot: Id)
    requires Chunking.ValidChunkSize(cfg.chunkSize)
    ensures var s := Runs.After(Runs.Start(cfg, boot), TwoPolicies(boot)).s;
      && s.retention == map[1 := PolicyFor(1, true), 2 := PolicyFor(2, false)]
      && s.checkpoints.Keys == {7} && s.checkpoints[7].lifecycle == LIFE_RETIRED
      && s.checkpoints[7].descriptor == Generations.Plain(7, boot)
      && s.checkpoints[7].replicaSet.durabilityState == DURABILITY_HEALTHY
  {
    hide Runs.After, Retired;
    TwoPoliciesLead(cfg, boot);
    RetiredHolds(cfg, boot);
  }

  lemma NoneDirect(s: State, v: View)
    requires forall id :: id in s.checkpoints ==> !Direct(s, v, id)
    ensures Protected(s, v) == {}
  {
    ProtectedLeast(s, v, {});
  }

  /** After it, what is protected depends on which policy the walk meets first. */
  lemma OrderDecides(cfg: Config, boot: Id, now: int)
    requires Chunking.ValidChunkSize(cfg.chunkSize)
    ensures var s := Runs.After(Runs.Start(cfg, boot), TwoPolicies(boot)).s;
      Protected(s, View(now, [1, 2])) == {7} && Protected(s, View(now, [2, 1])) == {}
  {
    hide Runs.After, Protected;
    LastTwo(cfg, boot);
    var s := Runs.After(Runs.Start(cfg, boot), TwoPolicies(boot)).s;
    var v, u := View(now, [1, 2]), View(now, [2, 1]);
    assert FindPolicy(s.retention, v.order, 1) == Some(PolicyFor(1, true));
    assert FindPolicy(s.retention, u.order, 1) == Some(PolicyFor(2, false));
    ProtectedContainsDirect(s, v);
    ProtectedAreRecorded(s, v);
    NoneDirect(s, u);
  }

  lemma ProtectedAreRecorded(s: State, v: View)
    ensures Protected(s, v) <= s.checkpoints.Keys
  {
  }
}

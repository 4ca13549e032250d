/** What retention promises over whole runs, and exactly what a sweep may take. */
module Shelter {
  import opened Basics
  import opened Model
  import opened StoreState
  import opened Retention
  import opened LatestN
  import opened Generations
  import opened RestoreCorrectness
  import opened Collection
  import CollectionGuards
  import Recovery
  import Persistence
  import Runs

  // ----- Protections nothing overrides -----

  /** The family has a policy and every policy it has protects it. */
  ghost predicate PolicyShields(policies: map<Id, Policy>, family: Id)
  {
    && (exists p :: p in policies && policies[p].familyId == family)
    && forall p :: p in policies && policies[p].familyId == family ==> policies[p].policyProtected
  }

  /** Pinned (retention class 0) or a restore point (class 4). */
  predicate Reserved(r: Record) { r.descriptor.retention == 0 || r.descriptor.retention == 4 }

  /** Reserved, under-replicated (durability state 0), or under policies that protect it. */
  ghost predicate Shielded(s: State, id: Id)
    requires id in s.checkpoints
  {
    var r := s.checkpoints[id];
    Reserved(r) || r.replicaSet.durabilityState == 0 || PolicyShields(s.retention, r.descriptor.familyId)
  }

  lemma ShieldedIsDirect(s: State, v: View, id: Id)
    requires id in s.checkpoints && Walks(s.retention, v.order) && Shielded(s, id)
    ensures Direct(s, v, id)
  {
    hide FindPolicy, SortIds;
    FindPolicyFinds(s.retention, v.order, s.checkpoints[id].descriptor.familyId);
  }

  lemma ShieldedIsProtected(s: State, v: View, id: Id)
    requires id in s.checkpoints && Walks(s.retention, v.order) && Shielded(s, id)
    ensures id in Protected(s, v)
  {
    hide Protected, Direct, Shielded;
    ShieldedIsDirect(s, v, id);
    ProtectedContainsDirect(s, v);
  }

  // ----- Only a sweep that lists a checkpoint ends its life -----

  lemma {:induction false} UnlistedStays(s: State, ids: seq<Id>, id: Id)
    requires id in s.checkpoints && id !in ids
    ensures id in Sweep(s, ids).checkpoints && Sweep(s, ids).checkpoints[id] == s.checkpoints[id]
  {
    hide ReleaseAll;
    if ids != [] {
      UnlistedStays(s, ids[..|ids| - 1], id);
    }
  }

  lemma RunSpares(s: State, eligible: seq<Id>, retained: set<Id>, f: Faults, id: Id)
    requires id in s.checkpoints && id !in eligible
    ensures var t := Run(s, eligible, retained, f); id in t.checkpoints && t.checkpoints[id] == s.checkpoints[id]
  {
    hide Sweep, Reclaim, Reachable;
    UnlistedStays(s, eligible, id);
    CollectionGuards.ReclaimRecords(Sweep(s, eligible), Reachable(s.checkpoints, retained), s.gc.reclaimable, f);
  }

  lemma StepKeepsLive(s: State, op: Runs.Op, id: Id)
    requires id in s.checkpoints && Live(s.checkpoints[id]) && (op.GcRun? ==> id !in op.eligible)
    ensures id in Runs.Perform(s, op).checkpoints && Live(Runs.Perform(s, op).checkpoints[id])
  {
    hide StoreState.Publish, Run, Reachable, MarkedSizes, OnlyHealth, Recovery.Restore, Recovery.VerifyCheckpoint,
         Protected, Persistence.Recovered, Runs.AuthorityReset, Retire;
    match op
    case Publish(d, data, f) =>
      Runs.PublishPromises(s, d, data, f);
    case GcRun(eligible, v, f) =>
      RunSpares(s, eligible, Protected(s, v), f, id);
    case Verify(c, f) =>
      VerifyHealth(s, c, f);
      HealthLife(s, Recovery.VerifyCheckpoint(s, c, f).0, id);
    case Restore(c, f) =>
      RestoreHealth(s, c, f);
      HealthLife(s, Recovery.Restore(s, c, f).0, id);
    case Restart =>
      RestartLife(s, id);
    case ResetAuthority =>
      ResetLife(s, id);
    case Retire(c) =>
      RetireLife(s, c, id);
    case _ =>
  }

  lemma RestartLife(s: State, id: Id)
    requires id in s.checkpoints
    ensures var t := Persistence.Recovered(Runs.Reopened(s), s);
      id in t.checkpoints && t.checkpoints[id].lifecycle == s.checkpoints[id].lifecycle
  {
    hide Persistence.ImageOf, Persistence.RaiseBy, Persistence.StartFamilies, Persistence.NextAll;
  }

  lemma ResetLife(s: State, id: Id)
    requires id in s.checkpoints && Live(s.checkpoints[id])
    ensures id in Runs.AuthorityReset(s).checkpoints && Live(Runs.AuthorityReset(s).checkpoints[id])
  {
  }

  lemma RetireLife(s: State, c: Id, id: Id)
    requires id in s.checkpoints && Live(s.checkpoints[id])
    ensures id in Retire(s, c).0.checkpoints && Live(Retire(s, c).0.checkpoints[id])
  {
  }

  lemma HealthLife(s: State, t: State, id: Id)
    requires OnlyHealth(s, t) && id in s.checkpoints
    ensures id in t.checkpoints && t.checkpoints[id].lifecycle == s.checkpoints[id].lifecycle
  {
  }

  // ----- Over whole runs -----

  /** Every collection sweeps exactly what is eligible in the view it takes, and the view meets all policies. */
  ghost predicate Sweeps(w: Runs.World, ops: seq<Runs.Op>, views: seq<View>)
  {
    |views| == |ops| && forall i :: 0 <= i < |ops| && ops[i].GcRun? ==> SweepsAt(w, ops, views, i)
  }

  ghost predicate SweepsAt(w: Runs.World, ops: seq<Runs.Op>, views: seq<View>, i: nat)
    requires i < |ops| == |views| && ops[i].GcRun?
  {
    var s := Runs.After(w, ops[..i]).s;
    Enumerates(ops[i].eligible, Eligible(s, views[i])) && Walks(s.retention, views[i].order)
  }

  /** The checkpoint is protected whenever a collection sweeps from the n-th operation on. */
  ghost predicate SparedFrom(w: Runs.World, ops: seq<Runs.Op>, views: seq<View>, n: nat, id: Id)
    requires |ops| == |views|
  {
    forall i :: n <= i < |ops| && ops[i].GcRun? ==> id in Protected(Runs.After(w, ops[..i]).s, views[i])
  }

  lemma {:induction false} SparedStaysLive(w: Runs.World, ops: seq<Runs.Op>, views: seq<View>, n: nat, id: Id)
    requires Sweeps(w, ops, views) && n <= |ops| && SparedFrom(w, ops, views, n, id)
    requires id in Runs.After(w, ops[..n]).s.checkpoints && Live(Runs.After(w, ops[..n]).s.checkpoints[id])
    ensures id in Runs.After(w, ops).s.checkpoints && Live(Runs.After(w, ops).s.checkpoints[id])
  {
    hide Runs.Perform, Runs.Remember, Protected, Eligible;
    assert ops[..|ops|] == ops;
    if n < |ops| {
      var m := |ops| - 1;
      SweepsBefore(w, ops, views, n, id);
      SparedStaysLive(w, ops[..m], views[..m], n, id);
      var s := Runs.After(w, ops[..m]).s;
      if ops[m].GcRun? {
        assert SweepsAt(w, ops, views, m);
        ProtectedIsNotEligible(s, views[m], id);
      }
      StepKeepsLive(s, ops[m], id);
    }
  }

  lemma ProtectedIsNotEligible(s: State, v: View, id: Id)
    requires id in Protected(s, v)
    ensures id !in Eligible(s, v)
  {
  }

  lemma SweepsBefore(w: Runs.World, ops: seq<Runs.Op>, views: seq<View>, n: nat, id: Id)
    requires Sweeps(w, ops, views) && n < |ops| && SparedFrom(w, ops, views, n, id)
    ensures var m := |ops| - 1;
      && ops[..m][..n] == ops[..n] && Sweeps(w, ops[..m], views[..m]) && SparedFrom(w, ops[..m], views[..m], n, id)
  {
    hide Runs.After, Protected, Eligible;
    var m := |ops| - 1;
    forall i | 0 <= i < m ensures ops[..m][..i] == ops[..i] && ops[..m][i] == ops[i] && views[..m][i] == views[i] { }
    forall i | 0 <= i < m && ops[..m][i].GcRun? ensures SweepsAt(w, ops[..m], views[..m], i) {
      assert SweepsAt(w, ops, views, i);
    }
  }

  /**
   A live checkpoint that is pinned or a restore point is never deleted, whatever happens to it; one
   that is under-replicated or under protecting policies whenever a collection sweeps is not either.
   */
  lemma ShieldedForGood(w: Runs.World, ops: seq<Runs.Op>, views: seq<View>, n: nat, id: Id)
    requires Sweeps(w, ops, views) && n <= |ops| && id in Runs.After(w, ops[..n]).s.checkpoints
    requires Live(Runs.After(w, ops[..n]).s.checkpoints[id])
    requires Reserved(Runs.After(w, ops[..n]).s.checkpoints[id])
             || forall i :: n <= i < |ops| && ops[i].GcRun? ==> ShieldedAt(w, ops, i, id)
    ensures id in Runs.After(w, ops).s.checkpoints && Live(Runs.After(w, ops).s.checkpoints[id])
  {
    hide Runs.After, Shielded, Protected, Eligible;
    forall i | n <= i < |ops| && ops[i].GcRun? ensures id in Protected(Runs.After(w, ops[..i]).s, views[i]) {
      assert ops[..i][..n] == ops[..n];
      CommitsStay(w, ops[..i], n, id);
      assert SweepsAt(w, ops, views, i);
      var s := Runs.After(w, ops[..i]).s;
      if Reserved(s.checkpoints[id]) {
        ReservedIsShielded(s, id);
      } else {
        assert ShieldedAt(w, ops, i, id);
      }
      ShieldedIsProtected(s, views[i], id);
    }
    SparedStaysLive(w, ops, views, n, id);
  }

  ghost predicate ShieldedAt(w: Runs.World, ops: seq<Runs.Op>, i: nat, id: Id)
    requires i < |ops|
  {
    var s := Runs.After(w, ops[..i]).s;
    id in s.checkpoints && Shielded(s, id)
  }

  lemma ReservedIsShielded(s: State, id: Id)
    requires id in s.checkpoints && Reserved(s.checkpoints[id])
    ensures Shielded(s, id)
  {
  }

  /**
   A checkpoint that a published descriptor names in its lineage stays live as long as the published
   one is protected whenever a collection sweeps.
   */
  lemma AncestorsStay(w: Runs.World, ops: seq<Runs.Op>, views: seq<View>, m: nat, ancestor: Id)
    requires Sweeps(w, ops, views) && m < |ops| && ops[m].Publish? && ancestor in ops[m].d.lineage
    requires var s := Runs.After(w, ops[..m]).s;
      && StoreState.Publish(s, ops[m].d, ops[m].data, ops[m].faults).1.Ok?
      && ancestor in s.checkpoints && Live(s.checkpoints[ancestor])
    requires SparedFrom(w, ops, views, m + 1, ops[m].d.id)
    ensures ancestor in Runs.After(w, ops).s.checkpoints && Live(Runs.After(w, ops).s.checkpoints[ancestor])
  {
    hide Runs.After, Protected, Eligible, StoreState.Publish, Runs.SameBooks, Runs.Perform;
    var child := ops[m].d.id;
    var s, t := Runs.After(w, ops[..m]).s, Runs.After(w, ops[..m + 1]).s;
    AfterOne(w, ops, m);
    Runs.PublishStep(s, ops[m]);
    Runs.PublishPromises(s, ops[m].d, ops[m].data, ops[m].faults);
    forall i | m + 1 <= i < |ops| && ops[i].GcRun? ensures ancestor in Protected(Runs.After(w, ops[..i]).s, views[i]) {
      assert ops[..i][..m + 1] == ops[..m + 1];
      Runs.RunKeepsContents(w, ops[..i], m + 1, child);
      CommitsStay(w, ops[..i], m + 1, ancestor);
      ProtectedClosed(Runs.After(w, ops[..i]).s, views[i]);
    }
    SparedStaysLive(w, ops, views, m + 1, ancestor);
  }

  // ----- Exactly what a sweep may take -----

  /** No other protected checkpoint names it in its lineage. */
  ghost predicate Childless(s: State, v: View, id: Id)
  {
    forall c :: c in Protected(s, v) && c in s.checkpoints && c != id ==> id !in s.checkpoints[c].manifest.lineage
  }

  lemma ChildlessIsDirect(s: State, v: View, id: Id)
    requires id in s.checkpoints && Childless(s, v, id)
    ensures id in Protected(s, v) <==> Direct(s, v, id)
  {
    hide Protected, Direct;
    ProtectedContainsDirect(s, v);
    ProtectedClosed(s, v);
    if !Direct(s, v, id) {
      ProtectedLeast(s, v, Protected(s, v) - {id});
    }
  }

  /** The policy lets an unretired checkpoint go: N newer ones, its time run out, or no rule at all. */
  ghost predicate Lapsed(s: State, now: int, id: Id, policy: Option<Policy>)
    requires id in s.checkpoints
  {
    var d := s.checkpoints[id].descriptor;
    if d.retention == 1 then
      |Newer(s.checkpoints, id)| >= if policy.Some? && policy.value.latestN > 0 then policy.value.latestN else 1
    else if d.retention == 2 then
      policy.Some? && policy.value.ttl > 0 && now - d.createdAt >= policy.value.ttl * 1_000_000_000
    else true
  }

  /**
   A sweep may take a checkpoint that no other protected one needs if and only if nothing shields it
   and it is retired (lifecycle 8), or committed (lifecycle 3) and its policy has lapsed.
   */
  lemma EligibleExactly(s: State, v: View, id: Id, policy: Option<Policy>)
    requires Ordered(s) && id in s.checkpoints && s.checkpoints[id].descriptor.id == id
    requires AtMostOnePolicy(s.retention) && Walks(s.retention, v.order)
    requires IsPolicyOf(s.retention, s.checkpoints[id].descriptor.familyId, policy) && Childless(s, v, id)
    ensures id in Eligible(s, v) <==>
            && !Shielded(s, id)
            && var life := s.checkpoints[id].lifecycle;
               life == 8 || (life == 3 && Lapsed(s, v.now, id, policy))
  {
    hide Protected, Ordered, AtMostOnePolicy, Walks, IsPolicyOf, Childless, Newer, FindPolicy, SortIds, PolicyShields;
    var r := s.checkpoints[id];
    ChildlessIsDirect(s, v, id);
    PolicyFound(s.retention, v.order, r.descriptor.familyId, policy);
    ShieldsExactly(s.retention, r.descriptor.familyId, policy);
    if r.descriptor.retention == 1 && r.lifecycle == 3 && !Shielded(s, id) {
      LatestNKeepsNewest(s, v, id, policy);
    }
  }

  /** A live, unretired latest-N checkpoint (class 1) whose family is not recorded is never swept. */
  lemma FamilylessIsKept(s: State, v: View, id: Id)
    requires id in s.checkpoints && s.checkpoints[id].descriptor.retention == 1 && s.checkpoints[id].lifecycle == 3
    requires s.checkpoints[id].descriptor.familyId !in s.families
    ensures id !in Eligible(s, v)
  {
    hide Protected, FindPolicy, SortIds;
    ProtectedContainsDirect(s, v);
    assert Direct(s, v, id);
  }

  lemma ShieldsExactly(policies: map<Id, Policy>, family: Id, policy: Option<Policy>)
    requires AtMostOnePolicy(policies) && IsPolicyOf(policies, family, policy)
    ensures PolicyShields(policies, family) <==> policy.Some? && policy.value.policyProtected
  {
  }

  /** A committed time-to-live checkpoint (class 2) that nothing shields or needs may go exactly when its time is up. */
  lemma TtlExactly(s: State, v: View, id: Id, policy: Policy)
    requires id in s.checkpoints && s.checkpoints[id].descriptor.retention == 2 && s.checkpoints[id].lifecycle == 3
    requires AtMostOnePolicy(s.retention) && Walks(s.retention, v.order)
    requires IsPolicyOf(s.retention, s.checkpoints[id].descriptor.familyId, Some(policy))
    requires !Shielded(s, id) && Childless(s, v, id)
    ensures id in Eligible(s, v) <==>
            policy.ttl > 0 && v.now - s.checkpoints[id].descriptor.createdAt >= policy.ttl * 1_000_000_000
  {
    hide Protected, AtMostOnePolicy, Walks, IsPolicyOf, Childless, FindPolicy, SortIds, PolicyShields;
    var family := s.checkpoints[id].descriptor.familyId;
    ChildlessIsDirect(s, v, id);
    PolicyFound(s.retention, v.order, family, Some(policy));
    ShieldsExactly(s.retention, family, Some(policy));
  }
}

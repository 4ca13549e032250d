/** What keep-latest-N retention means: only the newest generations of a family are kept on their own account. */
module LatestN {
  import opened Basics
  import opened Model
  import opened StoreState
  import opened Retention
  import opened Generations

  // ----- Which policy applies -----

  ghost predicate AtMostOnePolicy(policies: map<Id, Policy>)
  {
    forall p, q :: p in policies && q in policies && policies[p].familyId == policies[q].familyId ==> p == q
  }

  /** The walk over the policies leaves none out. */
  ghost predicate Walks(policies: map<Id, Policy>, order: seq<Id>)
  {
    forall p :: p in policies ==> p in order
  }

  ghost predicate IsPolicyOf(policies: map<Id, Policy>, family: Id, policy: Option<Policy>)
  {
    match policy
    case None => forall p :: p in policies ==> policies[p].familyId != family
    case Some(found) => exists p :: p in policies && policies[p] == found && found.familyId == family
  }

  lemma {:induction false} FindPolicyFinds(policies: map<Id, Policy>, order: seq<Id>, family: Id)
    ensures var found := FindPolicy(policies, order, family);
      && (found.Some? ==> exists p :: p in policies && policies[p] == found.value && found.value.familyId == family)
      && (found.None? ==> forall p :: p in policies && p in order ==> policies[p].familyId != family)
  {
    if order != [] {
      FindPolicyFinds(policies, order[1..], family);
    }
  }

  /** With at most one policy for each family every walk finds it. */
  lemma PolicyFound(policies: map<Id, Policy>, order: seq<Id>, family: Id, policy: Option<Policy>)
    requires AtMostOnePolicy(policies) && Walks(policies, order) && IsPolicyOf(policies, family, policy)
    ensures FindPolicy(policies, order, family) == policy
  {
    FindPolicyFinds(policies, order, family);
  }

  // ----- Where a checkpoint stands in its family -----

  lemma {:induction false} SortedIdsStay(cps: map<Id, Record>, ids: seq<Id>)
    requires forall i, j :: 0 <= i < j < |ids| ==> !Before(cps, ids[j], ids[i])
    ensures SortIds(cps, ids) == ids
  {
    hide Before;
    if ids != [] {
      var n := |ids| - 1;
      SortedIdsStay(cps, ids[..n]);
      assert ids == ids[..n] + [ids[n]];
    }
  }

  lemma ListInOrder(cps: map<Id, Record>, family: Id, ids: seq<Id>, next: nat)
    requires ListOk(cps, family, ids, next)
    ensures forall i, j :: 0 <= i < j < |ids| ==> !Before(cps, ids[j], ids[i])
  {
    forall i, j | 0 <= i < j < |ids|
      ensures !Before(cps, ids[j], ids[i])
    {
      assert Member(cps, family, ids[i], next) && Member(cps, family, ids[j], next);
      assert Generation(cps, ids[i]) < Generation(cps, ids[j]);
    }
  }

  /** Members with generations that increase strictly, and a rearrangement with none out of order. */
  ghost predicate Rearranged(cps: map<Id, Record>, ids: seq<Id>, sorted: seq<Id>)
  {
    && multiset(sorted) == multiset(ids) && (forall id :: id in ids ==> id in cps)
    && (forall i, j :: 0 <= i < j < |ids| ==> Before(cps, ids[i], ids[j]))
    && (forall i, j :: 0 <= i < j < |sorted| ==> !Before(cps, sorted[j], sorted[i]))
  }

  lemma LastAgrees(cps: map<Id, Record>, ids: seq<Id>, sorted: seq<Id>)
    requires Rearranged(cps, ids, sorted) && ids != []
    ensures |sorted| == |ids| && sorted[|ids| - 1] == ids[|ids| - 1]
  {
    assert |sorted| == |multiset(sorted)| == |multiset(ids)| == |ids|;
    var n := |ids| - 1;
    assert sorted[n] in multiset(ids) && ids[n] in multiset(sorted);
    var i :| 0 <= i <= n && ids[i] == sorted[n];
    var j :| 0 <= j <= n && sorted[j] == ids[n];
  }

  lemma SameBefore(a: seq<Id>, b: seq<Id>, n: nat)
    requires |a| == |b| == n + 1 && a[n] == b[n] && multiset(a) == multiset(b)
    ensures multiset(a[..n]) == multiset(b[..n])
  {
    assert a == a[..n] + [a[n]] && b == b[..n] + [b[n]];
    assert multiset(a) == multiset(a[..n]) + multiset{a[n]} && multiset(b) == multiset(b[..n]) + multiset{a[n]};
    assert multiset(a[..n]) == multiset(a) - multiset{a[n]} && multiset(b[..n]) == multiset(b) - multiset{a[n]};
  }

  lemma AllButLast(cps: map<Id, Record>, ids: seq<Id>, sorted: seq<Id>)
    requires Rearranged(cps, ids, sorted) && ids != []
    requires |sorted| == |ids| && sorted[|ids| - 1] == ids[|ids| - 1]
    ensures Rearranged(cps, ids[..|ids| - 1], sorted[..|ids| - 1])
  {
    hide Before;
    var n := |ids| - 1;
    SameBefore(ids, sorted, n);
    var fewer, less := ids[..n], sorted[..n];
    assert forall i :: 0 <= i < n ==> fewer[i] == ids[i] && less[i] == sorted[i];
    forall id | id in fewer ensures id in cps {
      var i :| 0 <= i < n && fewer[i] == id;
      assert ids[i] in cps;
    }
  }

  lemma {:induction false} RearrangedIsSame(cps: map<Id, Record>, ids: seq<Id>, sorted: seq<Id>)
    requires Rearranged(cps, ids, sorted)
    ensures sorted == ids
  {
    if ids == [] {
      assert |multiset(sorted)| == 0;
    } else {
      hide Rearranged;
      var n := |ids| - 1;
      LastAgrees(cps, ids, sorted);
      AllButLast(cps, ids, sorted);
      RearrangedIsSame(cps, ids[..n], sorted[..n]);
      assert ids == ids[..n] + [ids[n]] && sorted == sorted[..n] + [ids[n]];
    }
  }

  /** While generations increase along a family's list, every sort of it by the comparison gives the list itself. */
  lemma AnySortAgrees(cps: map<Id, Record>, family: Id, ids: seq<Id>, next: nat, sorted: seq<Id>)
    requires ListOk(cps, family, ids, next) && multiset(sorted) == multiset(ids)
    requires forall i, j :: 0 <= i < j < |sorted| ==> !Before(cps, sorted[j], sorted[i])
    ensures sorted == ids == SortIds(cps, ids)
  {
    hide SortIds;
    forall i | 0 <= i < |ids| ensures Member(cps, family, ids[i], next) { }
    forall i, j | 0 <= i < j < |ids| ensures Before(cps, ids[i], ids[j]) {
      assert Generation(cps, ids[i]) < Generation(cps, ids[j]);
    }
    RearrangedIsSame(cps, ids, sorted);
    ListInOrder(cps, family, ids, next);
    SortedIdsStay(cps, ids);
  }

  /** The checkpoints of the same family with a higher generation. */
  ghost function Newer(cps: map<Id, Record>, id: Id): set<Id>
    requires id in cps
  {
    set k | k in cps && cps[k].descriptor.familyId == cps[id].descriptor.familyId
            && cps[k].descriptor.generation > cps[id].descriptor.generation
  }

  lemma {:induction false} DistinctCount(ids: seq<Id>)
    requires forall i, j :: 0 <= i < j < |ids| ==> ids[i] != ids[j]
    ensures |set i | 0 <= i < |ids| :: ids[i]| == |ids|
  {
    var all := set i | 0 <= i < |ids| :: ids[i];
    if ids == [] {
      assert all == {};
    } else {
      var n := |ids| - 1;
      DistinctCount(ids[..n]);
      var rest := set i | 0 <= i < |ids[..n]| :: ids[..n][i];
      forall id ensures id in all <==> id in rest || id == ids[n] {
        if id in rest {
          var i :| 0 <= i < n && ids[..n][i] == id;
          assert ids[i] == id;
        }
        if id in all && id != ids[n] {
          var i :| 0 <= i < |ids| && ids[i] == id;
          assert ids[..n][i] == id;
        }
      }
      assert all == rest + {ids[n]};
    }
  }

  /** The newer checkpoints are those after its place in the list. */
  lemma NewerCount(s: State, id: Id, k: nat)
    requires Ordered(s) && id in s.checkpoints && s.checkpoints[id].descriptor.familyId in s.families
    requires var ids := s.families[s.checkpoints[id].descriptor.familyId].checkpointIds; k < |ids| && ids[k] == id
    ensures |Newer(s.checkpoints, id)| == |s.families[s.checkpoints[id].descriptor.familyId].checkpointIds| - k - 1
  {
    var f := s.checkpoints[id].descriptor.familyId;
    var ids := s.families[f].checkpointIds;
    var later := ids[k + 1..];
    assert ListOk(s.checkpoints, f, ids, s.nextGeneration[f]);
    AfterPlace(s.checkpoints, f, ids, s.nextGeneration[f], k);
    DistinctCount(later);
    forall x ensures x in Newer(s.checkpoints, id) <==> x in later {
      if x in Newer(s.checkpoints, id) {
        assert Listed(s, x);
      }
    }
    assert Newer(s.checkpoints, id) == set i | 0 <= i < |later| :: later[i];
  }

  lemma AfterPlace(cps: map<Id, Record>, f: Id, ids: seq<Id>, next: nat, k: nat)
    requires ListOk(cps, f, ids, next) && k < |ids|
    ensures forall i, j :: k + 1 <= i < j < |ids| ==> ids[i] != ids[j]
    ensures forall x :: x in ids ==> x in cps && cps[x].descriptor.familyId == f
    ensures forall x :: x in ids ==>
              (x in ids[k + 1..] <==> cps[x].descriptor.generation > cps[ids[k]].descriptor.generation)
  {
    forall i | 0 <= i < |ids| ensures Member(cps, f, ids[i], next) { }
    forall i, j | 0 <= i < j < |ids| ensures ids[i] != ids[j] {
      assert Generation(cps, ids[i]) < Generation(cps, ids[j]);
    }
    forall x | x in ids
      ensures x in ids[k + 1..] <==> cps[x].descriptor.generation > cps[ids[k]].descriptor.generation
    {
      var i :| 0 <= i < |ids| && ids[i] == x;
      assert i < k ==> Generation(cps, ids[i]) < Generation(cps, ids[k]);
      assert k < i ==> Generation(cps, ids[k]) < Generation(cps, ids[i]) && ids[k + 1..][i - k - 1] == x;
    }
  }

  lemma {:induction false} SlotIs(ids: seq<Id>, k: nat)
    requires k < |ids| && forall i :: 0 <= i < k ==> ids[i] != ids[k]
    ensures SlotOf(ids, ids[k]) == k
  {
    if k > 0 {
      SlotIs(ids[1..], k - 1);
    }
  }

  /**
   A checkpoint under keep-latest-N that is neither retired nor specially protected is protected
   on its own account exactly when fewer than N checkpoints of its family are newer.
   */
  lemma LatestNKeepsNewest(s: State, v: View, id: Id, policy: Option<Policy>)
    requires Ordered(s) && id in s.checkpoints && s.checkpoints[id].descriptor.id == id
    requires AtMostOnePolicy(s.retention) && Walks(s.retention, v.order)
    requires IsPolicyOf(s.retention, s.checkpoints[id].descriptor.familyId, policy)
    requires s.checkpoints[id].descriptor.retention == RETAIN_LATEST_N && !HardProtected(s.checkpoints[id], policy)
    requires Live(s.checkpoints[id]) && s.checkpoints[id].lifecycle != LIFE_RETIRED
    ensures Direct(s, v, id) <==> |Newer(s.checkpoints, id)| < KeepCount(policy)
  {
    hide SortIds, SlotOf, Newer, FindPolicy, AtMostOnePolicy, Walks, IsPolicyOf;
    var f := s.checkpoints[id].descriptor.familyId;
    PolicyFound(s.retention, v.order, f, policy);
    assert Listed(s, id);
    var ids := s.families[f].checkpointIds;
    var k :| 0 <= k < |ids| && ids[k] == id;
    ListInOrder(s.checkpoints, f, ids, s.nextGeneration[f]);
    SortedIdsStay(s.checkpoints, ids);
    NewerCount(s, id, k);
    forall i | 0 <= i < k ensures ids[i] != ids[k] {
      assert Generation(s.checkpoints, ids[i]) < Generation(s.checkpoints, ids[k]);
    }
    SlotIs(ids, k);
  }
}

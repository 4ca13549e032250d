/**
 Retention (src/retention.cpp): which checkpoints are protected from collection. What the clock
 reads and the order in which the policy map is walked are inputs.
 */
module Retention {
  import opened Basics
  import opened Model
  import opened StoreState

  const NANOS_PER_SECOND: int := 1_000_000_000

  /** One look at the store: the time, and the order in which policies are visited. */
  datatype View = View(now: int, order: seq<Id>)

  /** The first policy visited that names the family. */
  function FindPolicy(policies: map<Id, Policy>, order: seq<Id>, family: Id): Option<Policy>
  {
    if order == [] then None
    else if order[0] in policies && policies[order[0]].familyId == family then Some(policies[order[0]])
    else FindPolicy(policies, order[1..], family)
  }

  /** The comparison by which a family's checkpoint list is sorted. */
  predicate Before(cps: map<Id, Record>, a: Id, b: Id)
  {
    if a !in cps || b !in cps then a < b
    else cps[a].descriptor.generation < cps[b].descriptor.generation
  }

  function InsertId(cps: map<Id, Record>, ids: seq<Id>, id: Id): seq<Id>
  {
    if ids == [] || !Before(cps, id, ids[|ids| - 1]) then ids + [id]
    else InsertId(cps, ids[..|ids| - 1], id) + [ids[|ids| - 1]]
  }

  function SortIds(cps: map<Id, Record>, ids: seq<Id>): seq<Id>
  {
    if ids == [] then [] else InsertId(cps, SortIds(cps, ids[..|ids| - 1]), ids[|ids| - 1])
  }

  /** The position of an id, or the length when it is absent. */
  function SlotOf(ids: seq<Id>, id: Id): (slot: nat)
    ensures slot <= |ids|
    ensures slot < |ids| ==> ids[slot] == id
    ensures id in ids[..slot] ==> false
  {
    if ids == [] then 0
    else if ids[0] == id then 0
    else 1 + SlotOf(ids[1..], id)
  }

  function KeepCount(policy: Option<Policy>): nat
  {
    if policy.Some? && policy.value.latestN > 0 then policy.value.latestN else 1
  }

  /** Protections no retirement overrides. */
  predicate HardProtected(r: Record, policy: Option<Policy>)
  {
    || r.replicaSet.durabilityState == DURABILITY_UNDER_REPLICATED
    || r.descriptor.retention == RETAIN_PINNED
    || r.descriptor.retention == RETAIN_RESTORE_POINT
    || (policy.Some? && policy.value.policyProtected)
  }

  predicate IsProtected(r: Record, policy: Option<Policy>, family: Option<seq<Id>>, now: int)
  {
    if HardProtected(r, policy) then true
    else if r.lifecycle == LIFE_RETIRED || r.lifecycle == LIFE_GC_ELIGIBLE || r.lifecycle == LIFE_DELETED then false
    else if r.descriptor.retention == RETAIN_LATEST_N then
      match family
      case None => true
      case Some(ids) =>
        var n := KeepCount(policy);
        |ids| <= n || SlotOf(ids, r.descriptor.id) + n >= |ids|
    else if r.descriptor.retention == RETAIN_TTL then
      if policy.Some? && policy.value.ttl > 0
      then now < r.descriptor.createdAt + policy.value.ttl * NANOS_PER_SECOND
      else true
    else false
  }

  function FamilyOrder(s: State, family: Id): Option<seq<Id>>
  {
    if family in s.families then Some(SortIds(s.checkpoints, s.families[family].checkpointIds)) else None
  }

  predicate Direct(s: State, v: View, id: Id)
    requires id in s.checkpoints
  {
    var r := s.checkpoints[id];
    IsProtected(r, FindPolicy(s.retention, v.order, r.descriptor.familyId),
                FamilyOrder(s, r.descriptor.familyId), v.now)
  }

  // ----- The protected set: the least set closed under lineage -----

  ghost predicate ClosedUnderLineage(s: State, p: set<Id>)
  {
    forall id, a ::
      (id in p && id in s.checkpoints && a in s.checkpoints[id].manifest.lineage && a in s.checkpoints) ==> a in p
  }

  ghost predicate ContainsDirect(s: State, v: View, p: set<Id>)
  {
    forall id :: id in s.checkpoints && Direct(s, v, id) ==> id in p
  }

  /** A descent from a directly protected checkpoint along recorded lineage. */
  ghost predicate Descent(s: State, v: View, path: seq<Id>)
  {
    && path != []
    && (forall k :: 0 <= k < |path| ==> path[k] in s.checkpoints)
    && Direct(s, v, path[0])
    && forall k :: 0 <= k < |path| - 1 ==> path[k + 1] in s.checkpoints[path[k]].manifest.lineage
  }

  ghost predicate Descends(s: State, v: View, id: Id)
  {
    exists path :: Descent(s, v, path) && path[|path| - 1] == id
  }

  ghost function Protected(s: State, v: View): set<Id>
  {
    set id | id in s.checkpoints && Descends(s, v, id)
  }

  lemma ProtectedContainsDirect(s: State, v: View)
    ensures ContainsDirect(s, v, Protected(s, v))
  {
    forall id | id in s.checkpoints && Direct(s, v, id)
      ensures id in Protected(s, v)
    {
      assert Descent(s, v, [id]) && [id][|[id]| - 1] == id;
    }
  }

  lemma ProtectedClosed(s: State, v: View)
    ensures ClosedUnderLineage(s, Protected(s, v))
  {
    forall id, a | id in Protected(s, v) && id in s.checkpoints && a in s.checkpoints[id].manifest.lineage
           && a in s.checkpoints
      ensures a in Protected(s, v)
    {
      var path :| Descent(s, v, path) && path[|path| - 1] == id;
      var longer := path + [a];
      assert Descent(s, v, longer) && longer[|longer| - 1] == a;
    }
  }

  lemma {:induction false} DescentStaysIn(s: State, v: View, p: set<Id>, path: seq<Id>, k: nat)
    requires ContainsDirect(s, v, p) && ClosedUnderLineage(s, p) && Descent(s, v, path) && k < |path|
    ensures path[k] in p
  {
    if k > 0 {
      DescentStaysIn(s, v, p, path, k - 1);
      assert path[k - 1 + 1] in s.checkpoints[path[k - 1]].manifest.lineage;
    }
  }

  /** Any set with the direct members and closed under lineage has all protected checkpoints. */
  lemma ProtectedLeast(s: State, v: View, p: set<Id>)
    requires ContainsDirect(s, v, p) && ClosedUnderLineage(s, p)
    ensures Protected(s, v) <= p
  {
    forall id | id in Protected(s, v)
      ensures id in p
    {
      var path :| Descent(s, v, path) && path[|path| - 1] == id;
      DescentStaysIn(s, v, p, path, |path| - 1);
    }
  }

  /** The first inner loop: every checkpoint protected on its own account joins the set. */
  method AddDirect(s: State, v: View, before: set<Id>) returns (p: set<Id>, changed: bool)
    requires before <= Protected(s, v)
    ensures before <= p <= Protected(s, v) && ContainsDirect(s, v, p)
    ensures changed <==> p != before
  {
    ProtectedContainsDirect(s, v);
    p, changed := before, false;
    var todo := s.checkpoints.Keys;
    while todo != {}
      invariant todo <= s.checkpoints.Keys && before <= p <= Protected(s, v)
      invariant forall id :: id in s.checkpoints && id !in todo && Direct(s, v, id) ==> id in p
      invariant changed <==> p != before
      decreases todo
    {
      var cid :| cid in todo;
      todo := todo - {cid};
      if cid !in p && Direct(s, v, cid) {
        p, changed := p + {cid}, true;
      }
    }
  }

  /** One checkpoint's recorded ancestors that still exist join the set. */
  method AddAncestors(s: State, v: View, before: set<Id>, lineage: seq<Id>) returns (p: set<Id>, changed: bool)
    requires before <= Protected(s, v)
    requires forall a <- lineage :: a in s.checkpoints ==> a in Protected(s, v)
    ensures before <= p <= Protected(s, v)
    ensures forall a <- lineage :: a in s.checkpoints ==> a in p
    ensures changed <==> p != before
  {
    hide Protected;
    p, changed := before, false;
    for k := 0 to |lineage|
      invariant before <= p <= Protected(s, v)
      invariant forall j :: 0 <= j < k && lineage[j] in s.checkpoints ==> lineage[j] in p
      invariant changed <==> p != before
    {
      if lineage[k] in s.checkpoints && lineage[k] !in p {
        p, changed := p + {lineage[k]}, true;
      }
    }
  }

  /** The second inner loop: ancestors of members join the set. */
  method AddLineage(s: State, v: View, before: set<Id>) returns (p: set<Id>, changed: bool)
    requires before <= Protected(s, v)
    ensures before <= p <= Protected(s, v)
    ensures changed <==> p != before
    ensures !changed ==> ClosedUnderLineage(s, p)
  {
    ProtectedClosed(s, v);
    p, changed := before, false;
    var todo := s.checkpoints.Keys;
    while todo != {}
      invariant todo <= s.checkpoints.Keys && before <= p <= Protected(s, v)
      invariant changed <==> p != before
      invariant !changed ==> forall id, a ::
                  (id in p && id in s.checkpoints && id !in todo
                   && a in s.checkpoints[id].manifest.lineage && a in s.checkpoints) ==> a in p
      decreases todo
    {
      var cid :| cid in todo;
      todo := todo - {cid};
      if cid in p {
        var q, grew := AddAncestors(s, v, p, s.checkpoints[cid].manifest.lineage);
        p, changed := q, changed || grew;
      }
    }
  }

  /**
   compute_protected: repeats both passes until neither adds anything. It stops, and returns
   exactly the least protected set, in whatever order the checkpoint map is walked. The order in
   which the policy map is walked is part of the view: it matters when a family has two policies.
   */
  method ComputeProtected(s: State, v: View) returns (p: set<Id>)
    ensures p == Protected(s, v)
  {
    p := {};
    var changed := true;
    while changed
      invariant p <= Protected(s, v)
      invariant !changed ==> ContainsDirect(s, v, p) && ClosedUnderLineage(s, p)
      decreases Protected(s, v) - p, changed
    {
      var q, grew := AddDirect(s, v, p);
      var r, grewMore := AddLineage(s, v, q);
      changed := grew || grewMore;
      p := r;
    }
    ProtectedLeast(s, v, p);
  }

  /** What a sweep may take: committed or retired checkpoints outside the protected set. */
  ghost function Eligible(s: State, v: View): set<Id>
  {
    set id | id in s.checkpoints
             && (s.checkpoints[id].lifecycle == LIFE_COMMITTED || s.checkpoints[id].lifecycle == LIFE_RETIRED)
             && id !in Protected(s, v)
  }

  /** The list names every member of the set once and nothing else. */
  ghost predicate Enumerates(list: seq<Id>, ids: set<Id>)
  {
    (forall id :: id in list <==> id in ids) && (forall i, j :: 0 <= i < j < |list| ==> list[i] != list[j])
  }

  function Retire(s: State, id: Id): (State, Option<Error>)
  {
    if id !in s.checkpoints then (s, Some(NotFound))
    else if s.checkpoints[id].lifecycle != LIFE_COMMITTED then (s, Some(Transaction))
    else (s.(checkpoints := s.checkpoints[id := s.checkpoints[id].(lifecycle := LIFE_RETIRED)]), None)
  }

  function SetPolicy(s: State, p: Policy): State
  {
    s.(retention := s.retention[p.id := p.(generation := 1)])
  }
}

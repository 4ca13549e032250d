/** The canonical listing of a finite set of keys: sorted, so independent of the order of iteration. */
module Ordering {
  import opened Basics

  ghost predicate StrictTotal<K(!new)>(before: (K, K) -> bool)
  {
    && (forall a :: !before(a, a))
    && (forall a, b, c :: before(a, b) && before(b, c) ==> before(a, c))
    && (forall a, b :: a != b ==> before(a, b) || before(b, a))
  }

  ghost predicate Sorted<K>(before: (K, K) -> bool, l: seq<K>)
  {
    forall i, j :: 0 <= i < j < |l| ==> before(l[i], l[j])
  }

  ghost predicate IsListing<K(!new)>(before: (K, K) -> bool, keys: set<K>, l: seq<K>)
  {
    (forall k :: k in l <==> k in keys) && Sorted(before, l)
  }

  /** Two listings of the same keys are the same sequence. */
  lemma {:induction false} ListingUnique<K(!new)>(before: (K, K) -> bool, keys: set<K>, l: seq<K>, m: seq<K>)
    requires StrictTotal(before) && IsListing(before, keys, l) && IsListing(before, keys, m)
    ensures l == m
    decreases |l|
  {
    if l != [] {
      FirstListed(before, keys, l);
    }
    if m != [] {
      FirstListed(before, keys, m);
    }
    if l != [] && m != [] {
      FirstSmallest(before, l, m[0]);
      FirstSmallest(before, m, l[0]);
      assert l[0] == m[0];
      RestListing(before, keys, l);
      RestListing(before, keys, m);
      ListingUnique(before, keys - {l[0]}, l[1..], m[1..]);
      assert l == [l[0]] + l[1..] && m == [m[0]] + m[1..];
    }
  }

  lemma FirstListed<K(!new)>(before: (K, K) -> bool, keys: set<K>, l: seq<K>)
    requires IsListing(before, keys, l) && l != []
    ensures l[0] in keys
  {
    assert l[0] in l;
  }

  lemma FirstSmallest<K(!new)>(before: (K, K) -> bool, l: seq<K>, k: K)
    requires Sorted(before, l) && k in l
    ensures k == l[0] || before(l[0], k)
  {
    var i :| 0 <= i < |l| && l[i] == k;
  }

  lemma RestListing<K(!new)>(before: (K, K) -> bool, keys: set<K>, l: seq<K>)
    requires StrictTotal(before) && IsListing(before, keys, l) && l != []
    ensures IsListing(before, keys - {l[0]}, l[1..])
  {
    forall k
      ensures k in l[1..] <==> k in keys - {l[0]}
    {
      if k in l[1..] {
        var i :| 0 <= i < |l| - 1 && l[1..][i] == k;
        assert before(l[0], l[i + 1]);
        assert k in l;
      }
      if k in keys - {l[0]} {
        var i :| 0 <= i < |l| && l[i] == k;
        assert l[1..][i - 1] == k;
      }
    }
  }

  /** Insertion by the order. */
  function Insert<K>(before: (K, K) -> bool, l: seq<K>, k: K): seq<K>
  {
    if l == [] || before(l[|l| - 1], k) then l + [k]
    else Insert(before, l[..|l| - 1], k) + [l[|l| - 1]]
  }

  lemma {:induction false} InsertMembers<K(!new)>(before: (K, K) -> bool, l: seq<K>, k: K)
    ensures forall x :: x in Insert(before, l, k) <==> x in l || x == k
  {
    if l != [] && !before(l[|l| - 1], k) {
      InsertMembers(before, l[..|l| - 1], k);
      assert l == l[..|l| - 1] + [l[|l| - 1]];
    }
  }

  lemma {:induction false} InsertSorted<K(!new)>(before: (K, K) -> bool, l: seq<K>, k: K)
    requires StrictTotal(before) && Sorted(before, l) && k !in l
    ensures Sorted(before, Insert(before, l, k))
  {
    if l != [] {
      var n := |l| - 1;
      if before(l[n], k) {
        assert forall i :: 0 <= i < |l| ==> before(l[i], k);
      } else {
        InsertSorted(before, l[..n], k);
        InsertMembers(before, l[..n], k);
        var r := Insert(before, l[..n], k);
        assert before(k, l[n]);
        forall x | x in r
          ensures before(x, l[n])
        {
        }
      }
    }
  }

  /** The canonical listing. */
  ghost function Listing<K>(before: (K, K) -> bool, keys: set<K>): seq<K>
  {
    if keys == {} then []
    else
      var k :| k in keys;
      Insert(before, Listing(before, keys - {k}), k)
  }

  lemma {:induction false} ListingLists<K(!new)>(before: (K, K) -> bool, keys: set<K>)
    requires StrictTotal(before)
    ensures IsListing(before, keys, Listing(before, keys))
    decreases keys
  {
    if keys != {} {
      var k :| k in keys && Listing(before, keys) == Insert(before, Listing(before, keys - {k}), k);
      ListingLists(before, keys - {k});
      InsertMembers(before, Listing(before, keys - {k}), k);
      InsertSorted(before, Listing(before, keys - {k}), k);
    }
  }

  /** Collects the keys in whatever order the map yields them and sorts: always the same listing. */
  method SortKeys<K(==, !new)>(before: (K, K) -> bool, keys: set<K>) returns (l: seq<K>)
    requires StrictTotal(before)
    ensures l == Listing(before, keys)
  {
    l := [];
    var todo := keys;
    while todo != {}
      invariant todo <= keys && IsListing(before, keys - todo, l)
      decreases todo
    {
      var k :| k in todo;
      InsertMembers(before, l, k);
      InsertSorted(before, l, k);
      l := Insert(before, l, k);
      todo := todo - {k};
    }
    ListingLists(before, keys);
    assert keys - todo == keys;
    ListingUnique(before, keys, l, Listing(before, keys));
  }

  // ----- The two orders used -----

  predicate ById(a: Id, b: Id) { a < b }

  lemma ByIdTotal()
    ensures StrictTotal(ById)
  {
  }

  /** Lexicographic order. */
  predicate Lex(a: string, b: string)
  {
    if b == "" then false
    else if a == "" then true
    else if a[0] != b[0] then a[0] < b[0]
    else Lex(a[1..], b[1..])
  }

  lemma {:induction false} LexIrreflexive(a: string)
    ensures !Lex(a, a)
  {
    if a != "" {
      LexIrreflexive(a[1..]);
    }
  }

  lemma {:induction false} LexTransitive(a: string, b: string, c: string)
    requires Lex(a, b) && Lex(b, c)
    ensures Lex(a, c)
  {
    if a != "" && a[0] == b[0] && b[0] == c[0] {
      LexTransitive(a[1..], b[1..], c[1..]);
    }
  }

  lemma {:induction false} LexConnected(a: string, b: string)
    requires a != b
    ensures Lex(a, b) || Lex(b, a)
  {
    if a != "" && b != "" && a[0] == b[0] {
      assert a == [a[0]] + a[1..] && b == [b[0]] + b[1..];
      LexConnected(a[1..], b[1..]);
    }
  }
}

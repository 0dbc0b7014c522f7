/** Distinct sequences and the sizes of finite sets. */
module Finite {

  ghost predicate Distinct<T>(s: seq<T>)
  {
    forall i, j :: 0 <= i < j < |s| ==> s[i] != s[j]
  }

  lemma DistinctUnion<T>(a: seq<T>, b: seq<T>)
    requires Distinct(a) && Distinct(b) && forall x :: x in a ==> x !in b
    ensures Distinct(a + b)
  {
    forall i, j | 0 <= i < j < |a + b|
      ensures (a + b)[i] != (a + b)[j]
    {
      if i < |a| <= j {
        assert a[i] in a && b[j - |a|] in b;
      }
    }
  }

  lemma {:induction false} DistinctCardinality<T>(s: seq<T>)
    requires Distinct(s)
    ensures |set x | x in s| == |s|
  {
    if s != [] {
      var init := s[..|s| - 1];
      var last := s[|s| - 1];
      DistinctCardinality(init);
      assert last !in init;
      assert (set x | x in s) == (set x | x in init) + {last};
    }
  }

  lemma SubsetCardinality<T>(a: set<T>, b: set<T>)
    requires a <= b
    ensures |a| <= |b|
  {
    assert b == a + (b - a);
  }

  lemma SameCardinality<T>(a: set<T>, b: set<T>)
    requires a <= b && |a| == |b|
    ensures a == b
  {
    assert b == a + (b - a);
  }

  function UpTo(n: nat): (s: set<nat>)
    ensures |s| == n && forall j :: j in s <==> 0 <= j < n
  {
    if n == 0 then {} else UpTo(n - 1) + {n - 1}
  }

  /** The elements of one sequence occur in another in the same order. */
  ghost predicate Subsequence<T>(part: seq<T>, all: seq<T>)
  {
    exists at: seq<nat> :: Picks(part, all, at)
  }

  ghost predicate Picks<T>(part: seq<T>, all: seq<T>, at: seq<nat>)
  {
    && |at| == |part|
    && (forall i :: 0 <= i < |at| ==> at[i] < |all| && all[at[i]] == part[i])
    && (forall i, j :: 0 <= i < j < |at| ==> at[i] < at[j])
  }

  lemma SubsequenceNext<T>(part: seq<T>, all: seq<T>, x: T)
    ensures Subsequence<T>([], all)
    ensures Subsequence(part, all) ==> Subsequence(part, all + [x]) && Subsequence(part + [x], all + [x])
  {
    assert Picks([], all, []);
    if Subsequence(part, all) {
      var at: seq<nat> :| Picks(part, all, at);
      assert Picks(part, all + [x], at);
      assert Picks(part + [x], all + [x], at + [|all|]);
    }
  }
}

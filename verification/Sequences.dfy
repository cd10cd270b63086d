/** Counting facts about sequences without repetition. */
module Sequences {

  ghost predicate Distinct<T>(s: seq<T>) {
    forall i, j :: 0 <= i < j < |s| ==> s[i] != s[j]
  }

  /** A sequence without repetition drawn from `pool` is no longer than `pool` is large. */
  lemma {:induction false} DistinctBound<T>(s: seq<T>, pool: set<T>)
    requires Distinct(s)
    requires forall i :: 0 <= i < |s| ==> s[i] in pool
    ensures |s| <= |pool|
  {
    if s != [] {
      var rest := pool - {s[0]};
      assert |pool| == |rest| + 1;
      DistinctBound(s[1..], rest);
    }
  }

  /** ... and if it is as long, it contains every element. */
  lemma {:induction false} DistinctFull<T>(s: seq<T>, pool: set<T>, x: T)
    requires Distinct(s)
    requires forall i :: 0 <= i < |s| ==> s[i] in pool
    requires x in pool && x !in s
    ensures |s| < |pool|
  {
    DistinctBound(s + [x], pool);
  }

  function Below(n: nat): (r: set<nat>)
    ensures |r| == n
    ensures forall i :: i in r <==> 0 <= i < n
  {
    if n == 0 then {} else Below(n - 1) + {n - 1}
  }

  ghost function Elements<T(!new)>(s: seq<T>): (r: set<T>)
    ensures forall x :: x in r <==> x in s
  {
    set x | x in s
  }

  lemma {:induction false} ElementsOfDistinct<T(!new)>(s: seq<T>)
    requires Distinct(s)
    ensures |Elements(s)| == |s|
  {
    if s != [] {
      ElementsOfDistinct(s[1..]);
      assert s == [s[0]] + s[1..];
      assert s[0] !in s[1..];
      assert Elements(s) == Elements(s[1..]) + {s[0]};
    }
  }

  lemma SubsetCount<T>(a: set<T>, b: set<T>)
    requires a <= b
    ensures |a| <= |b|
  {
    assert b == a + (b - a);
  }
}

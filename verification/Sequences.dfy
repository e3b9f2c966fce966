/** Functions on sequences that several registries share. */
module Sequences {
  function Elements<T>(s: seq<T>): set<T> {
    set x <- s
  }

  predicate Distinct<T(==)>(s: seq<T>) {
    forall i, j :: 0 <= i < j < |s| ==> s[i] != s[j]
  }

  /** How many members are named before one is named again. */
  function Fresh<T(==)>(s: seq<T>): (k: nat)
    ensures k <= |s| && Distinct(s[..k]) && (k < |s| ==> s[k] in s[..k])
    ensures k == |s| <==> Distinct(s)
  {
    if s == [] then 0
    else
      var r := s[..|s| - 1];
      var k := Fresh(r);
      assert r[..k] == s[..k];
      if k < |r| then k else if s[|r|] in r then |r| else |s|
  }

  /** `retain`: everything but one value, in order. */
  function Without<T(==)>(s: seq<T>, x: T): seq<T> {
    if s == [] then []
    else Without(s[..|s| - 1], x) + if s[|s| - 1] == x then [] else [s[|s| - 1]]
  }

  lemma {:induction false} WithoutCounts<T>(s: seq<T>, x: T)
    ensures multiset(Without(s, x)) == multiset(s)[x := 0]
  {
    if s != [] {
      var r, y := s[..|s| - 1], s[|s| - 1];
      WithoutCounts(r, x);
      assert s == r + [y];
      assert multiset(s) == multiset(r) + multiset{y};
      assert multiset(Without(s, x)) == multiset(Without(r, x)) + if y == x then multiset{} else multiset{y};
    }
  }

  lemma {:induction false} WithoutAbsent<T>(s: seq<T>, x: T)
    requires x !in s
    ensures Without(s, x) == s
  {
    if s != [] {
      WithoutAbsent(s[..|s| - 1], x);
      assert s == s[..|s| - 1] + [s[|s| - 1]];
    }
  }

  lemma {:induction false} WithoutMembers<T>(s: seq<T>, x: T, y: T)
    ensures y in Without(s, x) <==> y in s && y != x
  {
    if s != [] {
      WithoutMembers(s[..|s| - 1], x, y);
      assert s == s[..|s| - 1] + [s[|s| - 1]];
    }
  }

  lemma {:induction false} WithoutShrinks<T>(s: seq<T>, x: T)
    ensures |Without(s, x)| <= |s| && (x in s ==> |Without(s, x)| < |s|)
  {
    if s != [] {
      assert s == s[..|s| - 1] + [s[|s| - 1]];
      WithoutShrinks(s[..|s| - 1], x);
    }
  }

  /** Taking a value out and putting it back, or the other way round. */
  lemma BackAndForth<T>(s: seq<T>, x: T)
    ensures multiset(s)[x] == 1 ==> multiset(Without(s, x) + [x]) == multiset(s)
    ensures x !in s ==> multiset(Without(s + [x], x)) == multiset(s)
    ensures x !in Without(s, x)
  {
    WithoutCounts(s, x);
    WithoutCounts(s + [x], x);
    assert x !in multiset(Without(s, x));
  }

  function Reverse<T>(s: seq<T>): seq<T> {
    if s == [] then [] else Reverse(s[1..]) + [s[0]]
  }

  lemma {:induction false} ReverseAppend<T>(s: seq<T>, x: T)
    ensures Reverse(s + [x]) == [x] + Reverse(s)
  {
    if s == [] {
      assert [] + [x] == [x];
    } else {
      assert (s + [x])[1..] == s[1..] + [x];
      ReverseAppend(s[1..], x);
    }
  }

  lemma {:induction false} SetOfDistinct<T>(s: seq<T>)
    ensures |Elements(s)| <= |s| && (Distinct(s) ==> |Elements(s)| == |s|)
  {
    if s != [] {
      SetOfDistinct(s[1..]);
      assert Elements(s) == Elements(s[1..]) + {s[0]};
    }
  }

  lemma {:induction false} DistinctOfSet<T>(s: seq<T>)
    requires |Elements(s)| == |s|
    ensures Distinct(s)
  {
    if s != [] {
      SetOfDistinct(s[1..]);
      assert Elements(s) == Elements(s[1..]) + {s[0]};
      DistinctOfSet(s[1..]);
      forall i, j | 0 <= i < j < |s| ensures s[i] != s[j] {
        assert s[j] == s[1..][j - 1] && s[1..][j - 1] in Elements(s[1..]);
        if i > 0 { assert s[i] == s[1..][i - 1]; }
      }
    }
  }

  lemma {:induction false} DistinctCounts<T>(s: seq<T>)
    requires Distinct(s)
    ensures forall x :: multiset(s)[x] == if x in s then 1 else 0
  {
    if s != [] {
      DistinctCounts(s[1..]);
      assert s == [s[0]] + s[1..];
    }
  }

  lemma DistinctFromCounts<T>(s: seq<T>)
    requires forall x :: multiset(s)[x] <= 1
    ensures Distinct(s)
  {
    forall i, j | 0 <= i < j < |s| ensures s[i] != s[j] {
      assert s == s[..j] + [s[j]] + s[j + 1..];
      assert s[i] in s[..j];
      assert multiset(s)[s[j]] >= multiset(s[..j])[s[j]] + 1;
    }
  }
}

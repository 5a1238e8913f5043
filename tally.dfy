/**
 * Counting occurrences in a sequence, the way `collections.Counter` and the
 * Rust `HashMap<_, usize>` tallies count cards and ranks. A count defined by
 * recursion keeps proofs about freshly built sequences cheap; the bridge
 * lemma connects it with Dafny's multisets.
 */
module Tally {
  /** How many times x occurs in s. */
  function Count<T(==)>(s: seq<T>, x: T): nat {
    if s == [] then 0 else (if s[0] == x then 1 else 0) + Count(s[1..], x)
  }

  lemma {:induction false} CountAppend<T>(a: seq<T>, b: seq<T>, x: T)
    ensures Count(a + b, x) == Count(a, x) + Count(b, x)
  {
    if a == [] {
      assert a + b == b;
    } else {
      assert (a + b)[1..] == a[1..] + b;
      CountAppend(a[1..], b, x);
    }
  }

  /** The count is the multiplicity in the multiset of s. */
  lemma {:induction false} CountIsMultiplicity<T>(s: seq<T>, x: T)
    ensures Count(s, x) == multiset(s)[x]
  {
    if s != [] {
      CountIsMultiplicity(s[1..], x);
      assert s == [s[0]] + s[1..];
      assert multiset(s) == multiset{s[0]} + multiset(s[1..]);
    }
  }

  /** Sequences with the same multiset have the same counts. */
  lemma CountOfPermutation<T>(a: seq<T>, b: seq<T>, x: T)
    requires multiset(a) == multiset(b)
    ensures Count(a, x) == Count(b, x)
  {
    CountIsMultiplicity(a, x);
    CountIsMultiplicity(b, x);
  }

  /** x is in s exactly when it is counted. */
  lemma {:induction false} CountPositive<T>(s: seq<T>, x: T)
    ensures Count(s, x) > 0 <==> x in s
  {
    if s != [] {
      CountPositive(s[1..], x);
      assert s == [s[0]] + s[1..];
    }
  }

  /** The distinct elements of s in order of first occurrence: the keys of a
      `Counter` built from s, in insertion order. */
  function Distinct<T(==,!new)>(s: seq<T>): seq<T> {
    if s == [] then []
    else
      var d := Distinct(s[..|s| - 1]);
      if s[|s| - 1] in d then d else d + [s[|s| - 1]]
  }

  /** The keys are exactly the elements, each listed once. */
  lemma {:induction false} DistinctKeys<T(!new)>(s: seq<T>)
    ensures forall x :: x in Distinct(s) <==> x in s
    ensures forall i, j :: 0 <= i < j < |Distinct(s)| ==> Distinct(s)[i] != Distinct(s)[j]
    ensures |Distinct(s)| <= |s|
  {
    if s != [] {
      DistinctKeys(s[..|s| - 1]);
      assert forall x :: x in s <==> x in s[..|s| - 1] || x == s[|s| - 1];
    }
  }

  /** A single key exactly when every element equals the first; that key is the first element. */
  lemma {:induction false} DistinctSingle<T(!new)>(s: seq<T>)
    requires s != []
    ensures Distinct(s) != [] && Distinct(s)[0] == s[0]
    ensures |Distinct(s)| == 1 <==> forall i :: 0 <= i < |s| ==> s[i] == s[0]
  {
    var d := Distinct(s);
    DistinctKeys(s);
    assert s[0] in s;
    if |s| > 1 {
      DistinctSingle(s[..|s| - 1]);
      assert s[..|s| - 1][0] == s[0];
      if forall i :: 0 <= i < |s| ==> s[i] == s[0] {
        assert forall x :: x in d ==> x == s[0];
        assert d[0] == s[0];
      }
      if |d| == 1 {
        forall i | 0 <= i < |s| ensures s[i] == s[0] {
          assert s[i] in d;
        }
      }
    } else {
      assert s == [s[0]];
      assert s[..0] == [];
    }
  }
}

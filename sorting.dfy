/**
 * The list operations the hand decomposer relies on: concatenating groups,
 * a stable sort by a key in descending order (`list.sort(key=…, reverse=True)`
 * and `sort_by` with reversed comparison), and removing the first occurrence
 * of a value (`list.remove` / `position` + `Vec::remove`).
 */
module Sorting {

  /** All groups one after the other. */
  function Flatten<T>(gs: seq<seq<T>>): seq<T> {
    if gs == [] then [] else gs[0] + Flatten(gs[1..])
  }

  lemma {:induction false} FlattenAppend<T>(a: seq<seq<T>>, b: seq<seq<T>>)
    ensures Flatten(a + b) == Flatten(a) + Flatten(b)
  {
    if a != [] {
      FlattenAppend(a[1..], b);
      assert (a + b)[0] == a[0] && (a + b)[1..] == a[1..] + b;
      assert Flatten(a + b) == a[0] + Flatten(a[1..] + b);
      assert Flatten(a) == a[0] + Flatten(a[1..]);
    } else {
      assert a + b == b;
    }
  }

  /** Keys never increase along the list. */
  predicate SortedDesc<T>(xs: seq<T>, key: T -> int) {
    forall i, j :: 0 <= i < j < |xs| ==> key(xs[j]) <= key(xs[i])
  }

  /** Place x before the first element whose key does not exceed its own. */
  function InsertDesc<T>(x: T, xs: seq<T>, key: T -> int): seq<T> {
    if xs == [] || key(xs[0]) <= key(x) then [x] + xs
    else [xs[0]] + InsertDesc(x, xs[1..], key)
  }

  /** Stable descending sort: equal keys keep their input order. */
  function SortDesc<T>(xs: seq<T>, key: T -> int): seq<T> {
    if xs == [] then [] else InsertDesc(xs[0], SortDesc(xs[1..], key), key)
  }

  /** Inserting adds exactly x. */
  lemma {:induction false} InsertDescMultiset<T>(x: T, xs: seq<T>, key: T -> int)
    ensures multiset(InsertDesc(x, xs, key)) == multiset(xs) + multiset{x}
  {
    if !(xs == [] || key(xs[0]) <= key(x)) {
      InsertDescMultiset(x, xs[1..], key);
      assert xs == [xs[0]] + xs[1..];
    }
  }

  /** Inserting below a bound keeps every key below it. */
  lemma {:induction false} InsertDescBounded<T>(x: T, xs: seq<T>, key: T -> int, b: int)
    requires key(x) <= b && forall i :: 0 <= i < |xs| ==> key(xs[i]) <= b
    ensures forall i :: 0 <= i < |InsertDesc(x, xs, key)| ==> key(InsertDesc(x, xs, key)[i]) <= b
  {
    if !(xs == [] || key(xs[0]) <= key(x)) {
      InsertDescBounded(x, xs[1..], key, b);
    }
  }

  /** Inserting keeps a sorted list sorted. */
  lemma {:induction false} InsertDescSorted<T>(x: T, xs: seq<T>, key: T -> int)
    requires SortedDesc(xs, key)
    ensures SortedDesc(InsertDesc(x, xs, key), key)
  {
    if !(xs == [] || key(xs[0]) <= key(x)) {
      var rest := InsertDesc(x, xs[1..], key);
      InsertDescSorted(x, xs[1..], key);
      InsertDescBounded(x, xs[1..], key, key(xs[0]));
      var r := [xs[0]] + rest;
      forall i, j | 0 <= i < j < |r|
        ensures key(r[j]) <= key(r[i])
      {
        assert r[j] == rest[j - 1];
        if i > 0 {
          assert r[i] == rest[i - 1];
        }
      }
    }
  }

  /** The sort returns a permutation of its input, in descending key order. */
  lemma {:induction false} SortDescSpec<T>(xs: seq<T>, key: T -> int)
    ensures multiset(SortDesc(xs, key)) == multiset(xs)
    ensures SortedDesc(SortDesc(xs, key), key)
    ensures |SortDesc(xs, key)| == |xs|
  {
    if xs != [] {
      SortDescSpec(xs[1..], key);
      InsertDescMultiset(xs[0], SortDesc(xs[1..], key), key);
      InsertDescSorted(xs[0], SortDesc(xs[1..], key), key);
      assert xs == [xs[0]] + xs[1..];
      assert |SortDesc(xs, key)| == |multiset(SortDesc(xs, key))|;
    }
  }

  /** Inserting a group adds exactly its cards to the concatenation. */
  lemma {:induction false} FlattenInsert<T>(x: seq<T>, xs: seq<seq<T>>, key: seq<T> -> int)
    ensures multiset(Flatten(InsertDesc(x, xs, key))) == multiset(x) + multiset(Flatten(xs))
  {
    if !(xs == [] || key(xs[0]) <= key(x)) {
      FlattenInsert(x, xs[1..], key);
    }
  }

  /** Sorting groups keeps the cards they hold. */
  lemma {:induction false} FlattenSorted<T>(xs: seq<seq<T>>, key: seq<T> -> int)
    ensures multiset(Flatten(SortDesc(xs, key))) == multiset(Flatten(xs))
  {
    if xs != [] {
      FlattenSorted(xs[1..], key);
      FlattenInsert(xs[0], SortDesc(xs[1..], key), key);
    }
  }

  /** Remove the first element equal to x; the list is unchanged when there is none. */
  function RemoveFirst<T(==)>(s: seq<T>, x: T): seq<T> {
    if s == [] then []
    else if s[0] == x then s[1..]
    else [s[0]] + RemoveFirst(s[1..], x)
  }

  /** Removing a present value takes away exactly one copy of it. */
  lemma {:induction false} RemoveFirstSpec<T>(s: seq<T>, x: T)
    ensures x in s ==> multiset(RemoveFirst(s, x)) == multiset(s) - multiset{x}
    ensures x !in s ==> RemoveFirst(s, x) == s
  {
    if s != [] {
      RemoveFirstSpec(s[1..], x);
      assert s == [s[0]] + s[1..];
    }
  }
}

/**
 * The enumeration both play generators build on: the k-element combinations
 * of a list, in the order Python's `itertools.combinations` lists them and
 * the Rust `_combinations_of_cards` / `_combinations_of_ranks` recursion
 * builds them, and the recognizer filter every generator applies to its
 * candidates.
 */
module PlayCombinations {
  import opened Cards
  import opened Patterns
  import opened HandAnalysis

  // ---------------------------------------------------------------------------
  // Combinations

  /** Every list of `tails`, with x in front. */
  function WithHead<T>(x: T, tails: seq<seq<T>>): (r: seq<seq<T>>)
    ensures |r| == |tails|
    ensures forall i :: 0 <= i < |r| ==> r[i] == [x] + tails[i]
  {
    seq(|tails|, i requires 0 <= i < |tails| => [x] + tails[i])
  }

  /** The k-element combinations of s: those holding s[0] first, then the others.
      Choosing nothing gives one empty combination; choosing more than there is
      gives none. */
  function Combinations<T>(s: seq<T>, k: nat): (r: seq<seq<T>>)
    ensures k == 0 ==> r == [[]]
    ensures k > |s| ==> r == []
    decreases |s|
  {
    if k == 0 then [[]]
    else if s == [] || k > |s| then []
    else WithHead(s[0], Combinations(s[1..], k - 1)) + Combinations(s[1..], k)
  }

  /** c picks some elements of s, keeping their order. */
  predicate IsSubseq<T(==)>(c: seq<T>, s: seq<T>)
    decreases |s|
  {
    if c == [] then true
    else if s == [] then false
    else (c[0] == s[0] && IsSubseq(c[1..], s[1..])) || IsSubseq(c, s[1..])
  }

  /** The binomial coefficient, by Pascal's rule. */
  function Binomial(n: nat, k: nat): nat {
    if k == 0 then 1
    else if n == 0 then 0
    else Binomial(n - 1, k - 1) + Binomial(n - 1, k)
  }

  lemma {:induction false} SubseqLength<T>(c: seq<T>, s: seq<T>)
    requires IsSubseq(c, s)
    ensures |c| <= |s|
    decreases |s|
  {
    if c != [] {
      if c[0] == s[0] && IsSubseq(c[1..], s[1..]) {
        SubseqLength(c[1..], s[1..]);
      } else {
        SubseqLength(c, s[1..]);
      }
    }
  }

  /** Every combination picks exactly k elements of s, in order. */
  lemma {:induction false} CombinationIsSubseq<T>(s: seq<T>, k: nat, c: seq<T>)
    requires c in Combinations(s, k)
    ensures |c| == k && IsSubseq(c, s)
    decreases |s|
  {
    if k > 0 {
      var heads, rest := WithHead(s[0], Combinations(s[1..], k - 1)), Combinations(s[1..], k);
      assert Combinations(s, k) == heads + rest;
      if c in heads {
        var i :| 0 <= i < |heads| && heads[i] == c;
        CombinationIsSubseq(s[1..], k - 1, Combinations(s[1..], k - 1)[i]);
        assert c[1..] == Combinations(s[1..], k - 1)[i];
      } else {
        CombinationIsSubseq(s[1..], k, c);
      }
    }
  }

  /** Every in-order pick of k elements of s is one of its combinations. */
  lemma {:induction false} SubseqIsCombination<T>(s: seq<T>, k: nat, c: seq<T>)
    requires |c| == k && IsSubseq(c, s)
    ensures c in Combinations(s, k)
    decreases |s|
  {
    if k > 0 {
      SubseqLength(c, s);
      var heads, rest := WithHead(s[0], Combinations(s[1..], k - 1)), Combinations(s[1..], k);
      assert Combinations(s, k) == heads + rest;
      if c[0] == s[0] && IsSubseq(c[1..], s[1..]) {
        SubseqIsCombination(s[1..], k - 1, c[1..]);
        var i :| 0 <= i < |Combinations(s[1..], k - 1)| && Combinations(s[1..], k - 1)[i] == c[1..];
        assert heads[i] == [s[0]] + c[1..] == c;
      } else {
        SubseqIsCombination(s[1..], k, c);
      }
    }
  }

  /** There are Binomial(|s|, k) combinations. */
  lemma {:induction false} CombinationsCount<T>(s: seq<T>, k: nat)
    ensures |Combinations(s, k)| == Binomial(|s|, k)
    decreases |s|
  {
    if k > 0 && s != [] {
      CombinationsCount(s[1..], k - 1);
      CombinationsCount(s[1..], k);
    } else if k > 0 {
      assert Binomial(0, k) == 0;
    }
  }

  /** A pick takes no element more often than s holds it. */
  lemma {:induction false} SubseqWithin<T>(c: seq<T>, s: seq<T>)
    requires IsSubseq(c, s)
    ensures multiset(c) <= multiset(s)
    decreases |s|
  {
    if c != [] {
      assert s == [s[0]] + s[1..];
      if c[0] == s[0] && IsSubseq(c[1..], s[1..]) {
        SubseqWithin(c[1..], s[1..]);
        assert c == [c[0]] + c[1..];
      } else {
        SubseqWithin(c, s[1..]);
      }
    }
  }

  /** A pick from a list of distinct keys has distinct keys, all listed in it. */
  lemma SubseqNoDup(c: seq<int>, s: seq<int>)
    requires IsSubseq(c, s) && NoDup(s)
    ensures NoDup(c) && forall x :: x in c ==> x in s
  {
    SubseqWithin(c, s);
    NoDupMultiset(s);
    forall i, j | 0 <= i < j < |c| ensures c[i] != c[j] {
      RepeatedValue(c, i, j);
    }
    forall x | x in c ensures x in s {
      assert x in multiset(c);
    }
  }

  // ---------------------------------------------------------------------------
  // The recognizer filter

  /** The candidates the recognizer gives type t, in order: what each generator
      appends when `analyze_cards` returns a pattern of its type. */
  function Keep(candidates: seq<seq<Card>>, t: PlayType, recognised: Verdict): seq<seq<Card>>
    decreases |candidates|
  {
    if candidates == [] then []
    else
      var last := candidates[|candidates| - 1];
      Keep(candidates[..|candidates| - 1], t, recognised) + (if recognised(last, t) then [last] else [])
  }

  /** Keep selects exactly the candidates of type t. */
  lemma {:induction false} KeepMembers(candidates: seq<seq<Card>>, t: PlayType, recognised: Verdict)
    ensures forall p :: p in Keep(candidates, t, recognised) <==> p in candidates && recognised(p, t)
    decreases |candidates|
  {
    if candidates != [] {
      var init := candidates[..|candidates| - 1];
      KeepMembers(init, t, recognised);
      assert candidates == init + [candidates[|candidates| - 1]];
    }
  }

  lemma {:induction false} KeepAppend(a: seq<seq<Card>>, b: seq<seq<Card>>, t: PlayType, recognised: Verdict)
    ensures Keep(a + b, t, recognised) == Keep(a, t, recognised) + Keep(b, t, recognised)
    decreases |b|
  {
    if b == [] {
      assert a + b == a;
    } else {
      KeepAppend(a, b[..|b| - 1], t, recognised);
      assert (a + b)[..|a + b| - 1] == a + b[..|b| - 1];
    }
  }

  /** The loop `for combo in candidates: if analyze_cards(combo) has type t: append`. */
  method KeepOfType(candidates: seq<seq<Card>>, t: PlayType, recognised: Verdict) returns (kept: seq<seq<Card>>)
    ensures kept == Keep(candidates, t, recognised)
  {
    kept := [];
    for i := 0 to |candidates|
      invariant kept == Keep(candidates[..i], t, recognised)
    {
      assert candidates[..i + 1][..i] == candidates[..i];
      if recognised(candidates[i], t) {
        kept := kept + [candidates[i]];
      }
    }
    assert candidates[..|candidates|] == candidates;
  }
}

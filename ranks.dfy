/**
 * Rank tallies over a list of cards: the `rank_counts` Counter / HashMap that
 * the recognizer, the hand decomposer and the finders build, the sorted list
 * of its keys, and consecutive rank runs.
 */
module RankTallies {
  import opened Cards
  import opened Tally

  /** rank_counts[r]: how many cards of rank r there are. */
  function RankCount(cards: seq<Card>, r: int): nat {
    if cards == [] then 0 else (if cards[0].rank == r then 1 else 0) + RankCount(cards[1..], r)
  }

  predicate StrictlyIncreasing(rs: seq<int>) {
    forall i, j :: 0 <= i < j < |rs| ==> rs[i] < rs[j]
  }

  /** The ranks lo..15, ascending, that hold at least k cards. */
  function RanksFrom(cards: seq<Card>, lo: int, k: nat): (rs: seq<Rank>)
    requires 3 <= lo
    ensures forall x {:trigger x in rs} :: x in rs <==> lo <= x <= 15 && RankCount(cards, x) >= k
    ensures StrictlyIncreasing(rs)
    ensures forall i :: 0 <= i < |rs| ==> lo <= rs[i]
    decreases 16 - lo, |cards|
  {
    if lo > 15 then []
    else (if RankCount(cards, lo) >= k then [lo] else []) + RanksFrom(cards, lo + 1, k)
  }

  /** The keys of rank_counts, sorted by rank value. */
  function Ranks(cards: seq<Card>): seq<Rank> {
    RanksFrom(cards, 3, 1)
  }

  /** Total of the counts of the listed ranks. */
  function SumCounts(cards: seq<Card>, rs: seq<Rank>): nat {
    if rs == [] then 0 else RankCount(cards, rs[0]) + SumCounts(cards, rs[1..])
  }

  /** All cards share the rank of the first. */
  predicate SameRank(cards: seq<Card>) {
    forall i :: 0 <= i < |cards| ==> cards[i].rank == cards[0].rank
  }

  /** The ranks lo, lo+1, ..., lo+n-1. */
  function RankRange(lo: int, n: nat): (rs: seq<int>)
    ensures |rs| == n
    ensures forall i :: 0 <= i < n ==> rs[i] == lo + i
    decreases n
  {
    if n == 0 then [] else RankRange(lo, n - 1) + [lo + n - 1]
  }

  /** `_are_consecutive`: each value is the previous one plus 1 (vacuous for length <= 1). */
  function AreConsecutive(rs: seq<int>): bool {
    |rs| <= 1 || (rs[1] == rs[0] + 1 && AreConsecutive(rs[1..]))
  }

  lemma {:induction false} ConsecutiveIsRange(rs: seq<int>)
    ensures AreConsecutive(rs) <==> (rs == [] || rs == RankRange(rs[0], |rs|))
  {
    if |rs| > 1 {
      var t := rs[1..];
      ConsecutiveIsRange(t);
      if AreConsecutive(rs) {
        forall i | 0 <= i < |rs|
          ensures rs[i] == RankRange(rs[0], |rs|)[i]
        {
          if i > 0 {
            assert rs[i] == t[i - 1] == RankRange(rs[1], |t|)[i - 1];
          }
        }
      }
      if rs == RankRange(rs[0], |rs|) {
        forall i | 0 <= i < |t|
          ensures t[i] == RankRange(rs[1], |t|)[i]
        {
          assert t[i] == rs[i + 1];
        }
      }
    }
  }

  /** A worked example of `ConsecutiveIsRange`: `_are_consecutive([3, 4, 5])` holds
      and `_are_consecutive([3, 5])` does not. */
  lemma ConsecutiveExamples()
    ensures AreConsecutive([3, 4, 5])
    ensures !AreConsecutive([3, 5])
    ensures AreConsecutive([]) && AreConsecutive([7])
  {
    assert [3, 4, 5][1..] == [4, 5];
    assert [4, 5][1..] == [5];
  }

  lemma {:induction false} RankCountBySuit(cards: seq<Card>, r: Rank)
    ensures RankCount(cards, r)
            == Count(cards, Card(1, r)) + Count(cards, Card(2, r)) + Count(cards, Card(3, r)) + Count(cards, Card(4, r))
  {
    if cards != [] {
      RankCountBySuit(cards[1..], r);
    }
  }

  /** Rank counts depend only on the multiset of cards. */
  lemma RankCountPermutation(a: seq<Card>, b: seq<Card>, r: int)
    requires multiset(a) == multiset(b)
    ensures RankCount(a, r) == RankCount(b, r)
  {
    if 3 <= r <= 15 {
      RankCountBySuit(a, r);
      RankCountBySuit(b, r);
      CountOfPermutation(a, b, Card(1, r));
      CountOfPermutation(a, b, Card(2, r));
      CountOfPermutation(a, b, Card(3, r));
      CountOfPermutation(a, b, Card(4, r));
    } else {
      RankCountOutOfRange(a, r);
      RankCountOutOfRange(b, r);
    }
  }

  lemma {:induction false} RankCountOutOfRange(cards: seq<Card>, r: int)
    requires r < 3 || 15 < r
    ensures RankCount(cards, r) == 0
  {
    if cards != [] {
      RankCountOutOfRange(cards[1..], r);
    }
  }

  lemma {:induction false} RankCountAppend(a: seq<Card>, b: seq<Card>, r: int)
    ensures RankCount(a + b, r) == RankCount(a, r) + RankCount(b, r)
  {
    if a == [] {
      assert a + b == b;
    } else {
      assert (a + b)[1..] == a[1..] + b;
      RankCountAppend(a[1..], b, r);
    }
  }

  /** A rank holds at most all the cards, and all of them exactly when every card has it. */
  lemma {:induction false} RankCountBound(cards: seq<Card>, r: int)
    ensures RankCount(cards, r) <= |cards|
    ensures RankCount(cards, r) == |cards| <==> forall i :: 0 <= i < |cards| ==> cards[i].rank == r
    ensures RankCount(cards, r) > 0 <==> exists i :: 0 <= i < |cards| && cards[i].rank == r
  {
    if cards != [] {
      RankCountBound(cards[1..], r);
      assert forall i :: 1 <= i < |cards| ==> cards[i] == cards[1..][i - 1];
      if RankCount(cards[1..], r) > 0 {
        var j :| 0 <= j < |cards[1..]| && cards[1..][j].rank == r;
        assert cards[j + 1].rank == r;
      }
    }
  }

  /** Two distinct ranks together hold at most all the cards, and all of them
      exactly when every card has one of the two. */
  lemma {:induction false} TwoRankCountBound(cards: seq<Card>, a: int, b: int)
    requires a != b
    ensures RankCount(cards, a) + RankCount(cards, b) <= |cards|
    ensures RankCount(cards, a) + RankCount(cards, b) == |cards|
            <==> forall i :: 0 <= i < |cards| ==> cards[i].rank == a || cards[i].rank == b
  {
    if cards != [] {
      TwoRankCountBound(cards[1..], a, b);
      assert forall i :: 1 <= i < |cards| ==> cards[i] == cards[1..][i - 1];
    }
  }

  /** Total of RankCount over lo..15. */
  function RankTotal(cards: seq<Card>, lo: int): nat
    decreases 16 - lo
  {
    if lo > 15 then 0 else RankCount(cards, lo) + RankTotal(cards, lo + 1)
  }

  lemma {:induction false} RankTotalStep(cards: seq<Card>, lo: int)
    requires cards != []
    ensures RankTotal(cards, lo) == RankTotal(cards[1..], lo) + (if lo <= cards[0].rank then 1 else 0)
    decreases 16 - lo
  {
    if lo <= 15 {
      RankTotalStep(cards, lo + 1);
    }
  }

  lemma {:induction false} RankTotalIsSize(cards: seq<Card>)
    ensures RankTotal(cards, 3) == |cards|
  {
    if cards != [] {
      RankTotalIsSize(cards[1..]);
      RankTotalStep(cards, 3);
    }
  }

  lemma {:induction false} SumOverRanksFrom(cards: seq<Card>, lo: int)
    requires 3 <= lo
    ensures SumCounts(cards, RanksFrom(cards, lo, 1)) == RankTotal(cards, lo)
    decreases 16 - lo
  {
    if lo <= 15 {
      SumOverRanksFrom(cards, lo + 1);
      var rest := RanksFrom(cards, lo + 1, 1);
      var head: seq<Rank> := if RankCount(cards, lo) >= 1 then [lo] else [];
      assert RanksFrom(cards, lo, 1) == head + rest;
      SumCountsAppend(cards, head, rest);
      assert SumCounts(cards, head) == RankCount(cards, lo) by {
        if head != [] {
          assert head[1..] == [];
        }
      }
    }
  }

  lemma {:induction false} SumCountsAppend(cards: seq<Card>, a: seq<Rank>, b: seq<Rank>)
    ensures SumCounts(cards, a + b) == SumCounts(cards, a) + SumCounts(cards, b)
  {
    if a == [] {
      assert a + b == b;
    } else {
      assert (a + b)[1..] == a[1..] + b;
      SumCountsAppend(cards, a[1..], b);
    }
  }

  /** The counts of the keys of rank_counts add up to the number of cards. */
  lemma SizeIsSumOverRanks(cards: seq<Card>)
    ensures |cards| == SumCounts(cards, Ranks(cards))
  {
    SumOverRanksFrom(cards, 3);
    RankTotalIsSize(cards);
  }

  /** If every listed rank holds exactly k cards, they hold k × (number of ranks) in all. */
  lemma {:induction false} SumOfEqualCounts(cards: seq<Card>, rs: seq<Rank>, k: nat)
    requires forall i :: 0 <= i < |rs| ==> RankCount(cards, rs[i]) == k
    ensures SumCounts(cards, rs) == k * |rs|
  {
    if rs != [] {
      SumOfEqualCounts(cards, rs[1..], k);
      assert k * |rs| == k * |rs[1..]| + k;
    }
  }

  /** Two strictly increasing sequences with the same elements are equal. */
  lemma {:induction false} IncreasingUnique(a: seq<int>, b: seq<int>)
    requires StrictlyIncreasing(a) && StrictlyIncreasing(b)
    requires forall x :: x in a <==> x in b
    ensures a == b
  {
    if a != [] {
      assert a[0] in a;
    }
    if b != [] {
      assert b[0] in b;
    }
    if a != [] && b != [] {
      assert a[0] in b;
      assert b[0] in a;
      assert a[0] == b[0] by {
        var i :| 0 <= i < |b| && b[i] == a[0];
        var j :| 0 <= j < |a| && a[j] == b[0];
        assert b[0] <= b[i] && a[0] <= a[j];
      }
      forall x ensures x in a[1..] <==> x in b[1..] {
        if x in a[1..] {
          var i :| 1 <= i < |a| && a[i] == x;
          assert x > a[0];
          assert x in b;
        }
        if x in b[1..] {
          var i :| 1 <= i < |b| && b[i] == x;
          assert x > b[0];
          assert x in a;
        }
      }
      IncreasingUnique(a[1..], b[1..]);
      assert a == [a[0]] + a[1..];
      assert b == [b[0]] + b[1..];
    }
  }

  lemma RangeIsIncreasing(lo: int, n: nat)
    ensures StrictlyIncreasing(RankRange(lo, n))
    ensures forall x :: x in RankRange(lo, n) <==> lo <= x < lo + n
  {
    var rs := RankRange(lo, n);
    forall x | lo <= x < lo + n ensures x in rs {
      assert rs[x - lo] == x;
    }
  }

  /** Every card's rank is a key of rank_counts. */
  lemma {:induction false} RankOfCardIsKey(cards: seq<Card>, i: int)
    requires 0 <= i < |cards|
    ensures RankCount(cards, cards[i].rank) > 0
    ensures cards[i].rank in Ranks(cards)
  {
    if i > 0 {
      RankOfCardIsKey(cards[1..], i - 1);
      assert cards[1..][i - 1] == cards[i];
    }
  }

  /** One rank: the key list is that rank alone, holding all the cards. */
  lemma OneRank(cards: seq<Card>)
    requires cards != []
    ensures |Ranks(cards)| == 1 <==> SameRank(cards)
    ensures SameRank(cards) ==> Ranks(cards) == [cards[0].rank] && RankCount(cards, cards[0].rank) == |cards|
  {
    if SameRank(cards) {
      SameRankKeys(cards);
    }
    if |Ranks(cards)| == 1 {
      OneKeySameRank(cards);
    }
  }

  lemma SameRankKeys(cards: seq<Card>)
    requires cards != [] && SameRank(cards)
    ensures Ranks(cards) == [cards[0].rank] && RankCount(cards, cards[0].rank) == |cards|
  {
    var r := cards[0].rank;
    RankCountBound(cards, r);
    forall x ensures x in Ranks(cards) <==> x in [r] {
      if x != r {
        RankCountBound(cards, x);
      }
    }
    IncreasingUnique(Ranks(cards), [r]);
  }

  lemma OneKeySameRank(cards: seq<Card>)
    requires cards != [] && |Ranks(cards)| == 1
    ensures SameRank(cards)
  {
    var rs := Ranks(cards);
    forall i | 0 <= i < |cards| ensures cards[i].rank == rs[0] {
      RankOfCardIsKey(cards, i);
    }
  }

  /** A run shape: ranks lo..lo+n-1 hold exactly k cards each and no other rank holds any. */
  predicate RunShape(cards: seq<Card>, lo: int, n: int, k: nat) {
    && 3 <= lo && 1 <= n && lo + n - 1 <= 15
    && forall r: Rank :: RankCount(cards, r) == if lo <= r < lo + n then k else 0
  }

  /** Under a run shape the sorted keys are exactly the run and there are k × n cards. */
  lemma RunShapeRanks(cards: seq<Card>, lo: int, n: int, k: nat)
    requires RunShape(cards, lo, n, k) && k >= 1
    ensures Ranks(cards) == RankRange(lo, n)
    ensures |cards| == k * n
  {
    RangeIsIncreasing(lo, n);
    IncreasingUnique(Ranks(cards), RankRange(lo, n));
    SizeIsSumOverRanks(cards);
    SumOfEqualCounts(cards, Ranks(cards), k);
  }

  /** Conversely: if every key holds k cards and the keys are consecutive, the cards form a run shape. */
  lemma RanksGiveRunShape(cards: seq<Card>, k: nat)
    requires k >= 1 && Ranks(cards) != []
    requires forall i :: 0 <= i < |Ranks(cards)| ==> RankCount(cards, Ranks(cards)[i]) == k
    requires AreConsecutive(Ranks(cards))
    ensures RunShape(cards, Ranks(cards)[0], |Ranks(cards)|, k)
  {
    var rs := Ranks(cards);
    ConsecutiveIsRange(rs);
    var lo, n := rs[0], |rs|;
    assert rs[n - 1] == lo + n - 1;
    RangeIsIncreasing(lo, n);
    forall r: Rank ensures RankCount(cards, r) == if lo <= r < lo + n then k else 0 {
      if lo <= r < lo + n {
        assert rs[r - lo] == r;
      } else {
        assert r !in rs;
      }
    }
  }
}

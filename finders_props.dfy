/**
 * What the finders' results are, stated against the hand: the pair and triple
 * finders keep, rank by rank and ascending, the largest multiple of two or
 * three of each rank's cards; the bomb finder lists exactly the prefixes of
 * four or more cards of each rank.
 */
module PatternFinderProperties {
  import opened Cards
  import opened RankTallies
  import opened HandAnalysis
  import opened PatternFinder

  /** Cut into consecutive chunks of `size` cards, each chunk of one rank. */
  predicate InChunks(cards: seq<Card>, size: nat)
    requires size > 0
    decreases |cards|
  {
    if |cards| < size then cards == [] else SameRank(cards[..size]) && InChunks(cards[size..], size)
  }

  // ---------------------------------------------------------------------------
  // find_pairs and find_triples

  lemma {:induction false} ChunksAscending(hand: seq<Card>, size: nat, lo: int)
    requires size == 2 || size == 3
    ensures forall i :: 0 <= i < |ChunksByRank(hand, size, lo)| ==> lo <= ChunksByRank(hand, size, lo)[i].rank
    ensures AscendingByRank(ChunksByRank(hand, size, lo))
    decreases 16 - lo
  {
    if lo <= 15 {
      ChunksAscending(hand, size, lo + 1);
      WholeChunksOfRank(hand, lo, size);
      var w, rest := WholeChunks(Group(hand, RankOf, lo), size), ChunksByRank(hand, size, lo + 1);
      var all := w + rest;
      assert all == ChunksByRank(hand, size, lo);
      forall i, j | 0 <= i < j < |all| ensures all[i].rank <= all[j].rank {
        if j < |w| {
        } else if i < |w| {
          assert all[j] == rest[j - |w|];
        } else {
          assert all[i] == rest[i - |w|] && all[j] == rest[j - |w|];
        }
      }
    }
  }

  /** A rank r from lo up keeps its count less the remainder modulo `size`. */
  lemma {:induction false} ChunksRankCount(hand: seq<Card>, size: nat, lo: int, r: int)
    requires size == 2 || size == 3
    ensures RankCount(ChunksByRank(hand, size, lo), r)
            == if lo <= r <= 15 then RankCount(hand, r) - RankCount(hand, r) % size else 0
    decreases 16 - lo
  {
    if lo <= 15 {
      ChunksRankCount(hand, size, lo + 1, r);
      var w := WholeChunks(Group(hand, RankOf, lo), size);
      RankCountAppend(w, ChunksByRank(hand, size, lo + 1), r);
      WholeChunksOfRank(hand, lo, size);
      RankCountBound(w, r);
      GroupSize(hand, lo);
    }
  }

  lemma {:induction false} ChunksFromHand(hand: seq<Card>, size: nat, lo: int, c: Card)
    requires size == 2 || size == 3
    ensures multiset(ChunksByRank(hand, size, lo))[c] <= if lo <= c.rank then multiset(hand)[c] else 0
    decreases 16 - lo
  {
    if lo <= 15 {
      ChunksFromHand(hand, size, lo + 1, c);
      var g := Group(hand, RankOf, lo);
      WholeChunksWithin(g, size);
      assert ChunksByRank(hand, size, lo) == WholeChunks(g, size) + ChunksByRank(hand, size, lo + 1);
      GroupMultiset(hand, RankOf, lo);
    }
  }

  lemma WholeChunksWithin(g: seq<Card>, size: nat)
    requires size == 2 || size == 3
    ensures multiset(WholeChunks(g, size)) <= multiset(g)
  {
    var n := |g| - |g| % size;
    assert 0 <= n <= |g|;
    PrefixWithin(g, n);
  }

  /** Cards of one rank, a whole number of chunks of them, put before cut cards keep them cut. */
  lemma {:induction false} ChunksConcat(w: seq<Card>, rest: seq<Card>, size: nat, r: int)
    requires size == 2 || size == 3
    requires |w| % size == 0 && forall i :: 0 <= i < |w| ==> w[i].rank == r
    requires InChunks(rest, size)
    ensures InChunks(w + rest, size)
    decreases |w|
  {
    if w == [] {
      assert w + rest == rest;
    } else {
      var tail := w[size..];
      assert |tail| % size == 0 && |w| >= size by {
        if size == 2 { assert |w| % 2 == 0; } else { assert |w| % 3 == 0; }
      }
      assert (w + rest)[..size] == w[..size];
      assert (w + rest)[size..] == tail + rest;
      ChunksConcat(tail, rest, size, r);
    }
  }

  lemma {:induction false} ChunksAreChunked(hand: seq<Card>, size: nat, lo: int)
    requires size == 2 || size == 3
    ensures InChunks(ChunksByRank(hand, size, lo), size)
    decreases 16 - lo
  {
    if lo <= 15 {
      ChunksAreChunked(hand, size, lo + 1);
      WholeChunksOfRank(hand, lo, size);
      var g := Group(hand, RankOf, lo);
      var w := WholeChunks(g, size);
      assert |w| % size == 0;
      ChunksConcat(w, ChunksByRank(hand, size, lo + 1), size, lo);
    } else {
      assert ChunksByRank(hand, size, lo) == [];
    }
  }

  /** `find_pairs`: every two cards in a row are a pair, ranks never go down,
      each rank keeps all its cards but an odd one, and every card comes from the hand. */
  lemma PairsFoundAreThePairs(hand: seq<Card>)
    ensures InChunks(ChunksByRank(hand, 2, 3), 2)
    ensures AscendingByRank(ChunksByRank(hand, 2, 3))
    ensures forall r :: 3 <= r <= 15 ==>
              RankCount(ChunksByRank(hand, 2, 3), r) == RankCount(hand, r) - RankCount(hand, r) % 2
    ensures multiset(ChunksByRank(hand, 2, 3)) <= multiset(hand)
  {
    ChunksAreChunked(hand, 2, 3);
    ChunksAscending(hand, 2, 3);
    forall r | 3 <= r <= 15
      ensures RankCount(ChunksByRank(hand, 2, 3), r) == RankCount(hand, r) - RankCount(hand, r) % 2
    {
      ChunksRankCount(hand, 2, 3, r);
    }
    forall c ensures multiset(ChunksByRank(hand, 2, 3))[c] <= multiset(hand)[c] {
      ChunksFromHand(hand, 2, 3, c);
    }
  }

  /** `find_triples`: the same with three cards to a chunk. */
  lemma TriplesFoundAreTheTriples(hand: seq<Card>)
    ensures InChunks(ChunksByRank(hand, 3, 3), 3)
    ensures AscendingByRank(ChunksByRank(hand, 3, 3))
    ensures forall r :: 3 <= r <= 15 ==>
              RankCount(ChunksByRank(hand, 3, 3), r) == RankCount(hand, r) - RankCount(hand, r) % 3
    ensures multiset(ChunksByRank(hand, 3, 3)) <= multiset(hand)
  {
    ChunksAreChunked(hand, 3, 3);
    ChunksAscending(hand, 3, 3);
    forall r | 3 <= r <= 15
      ensures RankCount(ChunksByRank(hand, 3, 3), r) == RankCount(hand, r) - RankCount(hand, r) % 3
    {
      ChunksRankCount(hand, 3, 3, r);
    }
    forall c ensures multiset(ChunksByRank(hand, 3, 3))[c] <= multiset(hand)[c] {
      ChunksFromHand(hand, 3, 3, c);
    }
  }

  // ---------------------------------------------------------------------------
  // find_bombs

  lemma {:induction false} BombPrefixMembers(g: seq<Card>, m: int, x: seq<Card>)
    requires m <= |g|
    ensures x in BombPrefixes(g, m) <==> 4 <= |x| <= m && x == Take(g, |x|)
    decreases m
  {
    if m >= 4 {
      BombPrefixMembers(g, m - 1, x);
      assert Take(g, m) == g[..m];
    }
  }

  predicate BombOfKey(hand: seq<Card>, r: int, x: seq<Card>) {
    4 <= |x| <= |Group(hand, RankOf, r)| && x == Take(Group(hand, RankOf, r), |x|)
  }

  lemma {:induction false} BombsOfMembers(hand: seq<Card>, ks: seq<int>, x: seq<Card>)
    ensures x in BombsOf(hand, ks) <==> exists r :: r in ks && BombOfKey(hand, r, x)
    decreases |ks|
  {
    if ks != [] {
      var init, k := ks[..|ks| - 1], ks[|ks| - 1];
      BombsOfMembers(hand, init, x);
      var g := Group(hand, RankOf, k);
      BombPrefixMembers(g, |g|, x);
      assert BombsOf(hand, ks) == BombsOf(hand, init) + BombPrefixes(g, |g|);
      if x in BombsOf(hand, ks) {
        if x in BombPrefixes(g, |g|) {
          assert k in ks && BombOfKey(hand, k, x);
        } else {
          var r :| r in init && BombOfKey(hand, r, x);
          assert r in ks;
        }
      }
      if exists r :: r in ks && BombOfKey(hand, r, x) {
        var r :| r in ks && BombOfKey(hand, r, x);
        if r != k {
          assert r in init;
        }
      }
    }
  }

  /** `find_bombs` lists x exactly when x is the first four or more cards of
      some rank, in hand order, and the rank holds at least that many. */
  lemma BombsFoundAreTheBombs(hand: seq<Card>, x: seq<Card>)
    ensures x in BombsOf(hand, Keys(hand, RankOf)) <==>
              exists r :: 4 <= |x| <= RankCount(hand, r) && x == Take(Group(hand, RankOf, r), |x|)
  {
    BombsOfMembers(hand, Keys(hand, RankOf), x);
    if exists r :: 4 <= |x| <= RankCount(hand, r) && x == Take(Group(hand, RankOf, r), |x|) {
      var r :| 4 <= |x| <= RankCount(hand, r) && x == Take(Group(hand, RankOf, r), |x|);
      GroupSize(hand, r);
      if r !in Keys(hand, RankOf) {
        AbsentRank(hand, r);
      }
      assert BombOfKey(hand, r, x);
    }
    if x in BombsOf(hand, Keys(hand, RankOf)) {
      var r :| r in Keys(hand, RankOf) && BombOfKey(hand, r, x);
      GroupSize(hand, r);
    }
  }

  /** Every bomb found is four or more cards of one rank taken from the hand. */
  lemma BombsFoundAreBombs(hand: seq<Card>, x: seq<Card>)
    requires x in BombsOf(hand, Keys(hand, RankOf))
    ensures |x| >= 4 && SameRank(x) && multiset(x) <= multiset(hand)
  {
    BombsOfMembers(hand, Keys(hand, RankOf), x);
    var r :| r in Keys(hand, RankOf) && BombOfKey(hand, r, x);
    var g := Group(hand, RankOf, r);
    GroupMembers(hand, RankOf, r);
    assert x == g[..|x|];
    assert forall i :: 0 <= i < |x| ==> x[i] == g[i];
    PrefixWithin(g, |x|);
    GroupMultiset(hand, RankOf, r);
  }
}

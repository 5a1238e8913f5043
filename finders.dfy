/**
 * `PatternFinder`: the finders that list the pairs, triples, bombs, chains,
 * tongzi, triples with two and airplanes a hand can make. Each builds the
 * `rank_counts` dictionary (ranks in order of first appearance, each with its
 * cards in hand order) and walks it with accumulator loops; the lemmas in
 * `PatternFinderProperties` say what the results are in terms of the hand.
 */
module PatternFinder {
  import opened Wrappers
  import opened Cards
  import opened Tally
  import opened RankTallies
  import opened Sorting
  import opened HandAnalysis

  // ---------------------------------------------------------------------------
  // Sorting by rank

  /** The cards of ranks lo..15, rank by rank, each rank's cards in list order. */
  function RankBlocks(cards: seq<Card>, lo: int): seq<Card>
    decreases 16 - lo, |cards|
  {
    if lo > 15 then [] else Group(cards, RankOf, lo) + RankBlocks(cards, lo + 1)
  }

  /** Python's stable `sorted(cards, key=lambda c: c.rank.value)` and
      `cards.sort(key=…)`: ranks ascending, equal ranks in their original order. */
  function SortByRank(cards: seq<Card>): seq<Card> {
    RankBlocks(cards, 3)
  }

  predicate AscendingByRank(cards: seq<Card>) {
    forall i, j :: 0 <= i < j < |cards| ==> cards[i].rank <= cards[j].rank
  }

  // ---------------------------------------------------------------------------
  // find_pairs and find_triples

  /** The whole chunks of `size` cards cut from the front of a group. */
  function WholeChunks(g: seq<Card>, size: nat): seq<Card>
    requires size > 0
  {
    g[..|g| - |g| % size]
  }

  /** `for i in range(0, len(cards) - (size - 1), size): out.extend(cards[i:i + size])`. */
  method TakeWholeChunks(g: seq<Card>, size: nat) returns (taken: seq<Card>)
    requires size == 2 || size == 3
    ensures taken == WholeChunks(g, size)
  {
    taken := [];
    var i := 0;
    while i < |g| - (size - 1)
      invariant 0 <= i <= |g| && i % size == 0 && taken == g[..i]
    {
      assert g[..i + size] == g[..i] + g[i..i + size];
      taken := taken + g[i..i + size];
      i := i + size;
    }
    assert i == |g| - |g| % size by {
      if size == 2 {
        assert i == |g| - |g| % 2;
      } else {
        assert i == |g| - |g| % 3;
      }
    }
  }

  /** What the loop over the dictionary collects: the whole chunks of each
      visited key's cards, keys in the order given. */
  function ChunkedGroups(hand: seq<Card>, ks: seq<int>, size: nat): seq<Card>
    requires size > 0
    decreases |ks|
  {
    if ks == [] then []
    else ChunkedGroups(hand, ks[..|ks| - 1], size) + WholeChunks(Group(hand, RankOf, ks[|ks| - 1]), size)
  }

  /** For every rank from lo up, the whole chunks of its cards: the cards
      `find_pairs` (size 2) and `find_triples` (size 3) return. */
  function ChunksByRank(hand: seq<Card>, size: nat, lo: int): seq<Card>
    requires size > 0
    decreases 16 - lo, |hand|
  {
    if lo > 15 then [] else WholeChunks(Group(hand, RankOf, lo), size) + ChunksByRank(hand, size, lo + 1)
  }

  /** The dictionary walk shared by `find_pairs` and `find_triples`. */
  method CollectChunks(hand: seq<Card>, keys: seq<int>, groups: map<int, seq<Card>>, size: nat)
    returns (collected: seq<Card>)
    requires size == 2 || size == 3
    requires forall k :: Lookup(groups, k) == Group(hand, RankOf, k)
    ensures collected == ChunkedGroups(hand, keys, size)
  {
    collected := [];
    for t := 0 to |keys|
      invariant collected == ChunkedGroups(hand, keys[..t], size)
    {
      ChunkedGroupsSnoc(hand, keys, t, size);
      var cards := Lookup(groups, keys[t]);
      if |cards| >= size {
        GroupIsSorted(hand, keys[t]);
        cards := SortByRank(cards);
        var taken := TakeWholeChunks(cards, size);
        collected := collected + taken;
      } else {
        ShortGroup(cards, size);
      }
    }
    assert keys[..|keys|] == keys;
  }

  /** `find_pairs`: of every rank, all its cards but a last odd one, ranks ascending. */
  method FindPairs(hand: seq<Card>) returns (pairs: seq<Card>)
    ensures pairs == ChunksByRank(hand, 2, 3)
  {
    var keys, groups := GroupBy(hand, RankOf);
    var collected := CollectChunks(hand, keys, groups, 2);
    pairs := SortByRank(collected);
    SortChunked(hand, 2);
  }

  /** `find_triples`: of every rank, the largest multiple of three of its cards, ranks ascending. */
  method FindTriples(hand: seq<Card>) returns (triples: seq<Card>)
    ensures triples == ChunksByRank(hand, 3, 3)
  {
    var keys, groups := GroupBy(hand, RankOf);
    var collected := CollectChunks(hand, keys, groups, 3);
    triples := SortByRank(collected);
    SortChunked(hand, 3);
  }

  // ---------------------------------------------------------------------------
  // find_bombs

  /** The prefixes of sizes 4..n of a group. */
  function BombPrefixes(g: seq<Card>, n: int): seq<seq<Card>>
    requires n <= |g|
    decreases n
  {
    if n < 4 then [] else BombPrefixes(g, n - 1) + [g[..n]]
  }

  /** The bombs of the listed keys, keys in the order given. */
  function BombsOf(hand: seq<Card>, ks: seq<int>): seq<seq<Card>>
    decreases |ks|
  {
    if ks == [] then []
    else
      var g := Group(hand, RankOf, ks[|ks| - 1]);
      BombsOf(hand, ks[..|ks| - 1]) + BombPrefixes(g, |g|)
  }

  /** `for bomb_size in range(4, len(cards) + 1): bombs.append(cards[:bomb_size])`. */
  method AppendPrefixes(bombs: seq<seq<Card>>, g: seq<Card>) returns (out: seq<seq<Card>>)
    ensures out == bombs + BombPrefixes(g, |g|)
  {
    out := bombs;
    var bombSize := 4;
    while bombSize <= |g|
      invariant 4 <= bombSize && (bombSize <= |g| + 1 || |g| < 4)
      invariant out == bombs + BombPrefixes(g, if bombSize - 1 <= |g| then bombSize - 1 else |g|)
      decreases |g| - bombSize
    {
      out := out + [g[..bombSize]];
      bombSize := bombSize + 1;
    }
  }

  /** `find_bombs`: for every rank holding N >= 4 cards, its first 4, 5, ..., N
      cards, ranks in order of first appearance. */
  method FindBombs(hand: seq<Card>) returns (bombs: seq<seq<Card>>)
    ensures bombs == BombsOf(hand, Keys(hand, RankOf))
  {
    var keys, groups := GroupBy(hand, RankOf);
    bombs := CollectBombs(hand, keys, groups);
  }

  /** The dictionary walk of `find_bombs`. */
  method CollectBombs(hand: seq<Card>, keys: seq<int>, groups: map<int, seq<Card>>)
    returns (bombs: seq<seq<Card>>)
    requires forall k :: Lookup(groups, k) == Group(hand, RankOf, k)
    ensures bombs == BombsOf(hand, keys)
  {
    bombs := [];
    for t := 0 to |keys|
      invariant bombs == BombsOf(hand, keys[..t])
    {
      BombsOfSnoc(hand, keys, t);
      var cards := Lookup(groups, keys[t]);
      if |cards| >= 4 {
        GroupIsSorted(hand, keys[t]);
        cards := SortByRank(cards);
        bombs := AppendPrefixes(bombs, cards);
      }
    }
    assert keys[..|keys|] == keys;
  }

  // ---------------------------------------------------------------------------
  // Lemmas the methods rely on

  /** A group smaller than one chunk yields nothing. */
  lemma ShortGroup(g: seq<Card>, size: nat)
    requires |g| < size
    ensures WholeChunks(g, size) == []
  {
    assert |g| % size == |g|;
  }

  lemma BombsOfSnoc(hand: seq<Card>, ks: seq<int>, t: int)
    requires 0 <= t < |ks|
    ensures BombsOf(hand, ks[..t + 1])
            == BombsOf(hand, ks[..t]) + BombPrefixes(Group(hand, RankOf, ks[t]), |Group(hand, RankOf, ks[t])|)
  {
    assert ks[..t + 1][..t] == ks[..t];
  }

  lemma ChunkedGroupsSnoc(hand: seq<Card>, ks: seq<int>, t: int, size: nat)
    requires 0 <= t < |ks| && size > 0
    ensures ChunkedGroups(hand, ks[..t + 1], size)
            == ChunkedGroups(hand, ks[..t], size) + WholeChunks(Group(hand, RankOf, ks[t]), size)
  {
    assert ks[..t + 1][..t] == ks[..t];
  }

  lemma {:induction false} GroupAppend(a: seq<Card>, b: seq<Card>, k: int)
    ensures Group(a + b, RankOf, k) == Group(a, RankOf, k) + Group(b, RankOf, k)
    decreases |b|
  {
    if b == [] {
      assert a + b == a;
    } else {
      var init, last := b[..|b| - 1], b[|b| - 1];
      GroupAppend(a, init, k);
      assert (a + b)[..|a + b| - 1] == a + init;
      assert (a + b)[|a + b| - 1] == last;
    }
  }

  /** Grouping a list of cards all of rank r. */
  lemma {:induction false} GroupUniform(g: seq<Card>, r: int, k: int)
    requires forall i :: 0 <= i < |g| ==> g[i].rank == r
    ensures Group(g, RankOf, k) == if k == r then g else []
    decreases |g|
  {
    if g != [] {
      GroupUniform(g[..|g| - 1], r, k);
    }
  }

  lemma {:induction false} RankBlocksUniform(g: seq<Card>, r: Rank, lo: int)
    requires forall i :: 0 <= i < |g| ==> g[i].rank == r
    ensures RankBlocks(g, lo) == if lo <= r then g else []
    decreases 16 - lo
  {
    if lo <= 15 {
      RankBlocksUniform(g, r, lo + 1);
      GroupUniform(g, r, lo);
    }
  }

  /** A dictionary entry is already sorted by rank: `cards.sort(key=…)` leaves it as it is. */
  lemma GroupIsSorted(hand: seq<Card>, k: int)
    ensures SortByRank(Group(hand, RankOf, k)) == Group(hand, RankOf, k)
  {
    var g := Group(hand, RankOf, k);
    GroupMembers(hand, RankOf, k);
    RankBlocksUniform(g, if g == [] then 3 else g[0].rank, 3);
  }

  /** Of the collected chunks, the cards of rank r are the whole chunks of r's entry. */
  lemma {:induction false} GroupOfChunked(hand: seq<Card>, ks: seq<int>, size: nat, r: int)
    requires size > 0 && NoDup(ks)
    ensures Group(ChunkedGroups(hand, ks, size), RankOf, r)
            == if r in ks then WholeChunks(Group(hand, RankOf, r), size) else []
    decreases |ks|
  {
    if ks != [] {
      var init, k := ks[..|ks| - 1], ks[|ks| - 1];
      NoDupInit(ks);
      GroupOfChunked(hand, init, size, r);
      var w := WholeChunks(Group(hand, RankOf, k), size);
      GroupAppend(ChunkedGroups(hand, init, size), w, r);
      WholeChunksOfRank(hand, k, size);
      GroupUniform(w, k, r);
    }
  }

  lemma WholeChunksOfRank(hand: seq<Card>, k: int, size: nat)
    requires size > 0
    ensures forall i :: 0 <= i < |WholeChunks(Group(hand, RankOf, k), size)| ==>
              WholeChunks(Group(hand, RankOf, k), size)[i].rank == k
  {
    GroupMembers(hand, RankOf, k);
  }

  lemma {:induction false} RankBlocksOfChunked(hand: seq<Card>, size: nat, lo: int)
    requires size > 0
    ensures RankBlocks(ChunkedGroups(hand, Keys(hand, RankOf), size), lo) == ChunksByRank(hand, size, lo)
    decreases 16 - lo
  {
    if lo <= 15 {
      RankBlocksOfChunked(hand, size, lo + 1);
      KeysNoDup(hand, RankOf);
      GroupOfChunked(hand, Keys(hand, RankOf), size, lo);
      if lo !in Keys(hand, RankOf) {
        DistinctKeys(KeyList(hand, RankOf));
        GroupOfAbsentKey(hand, RankOf, lo);
      }
    }
  }

  /** Sorting the collected chunks by rank gives them rank by rank. */
  lemma SortChunked(hand: seq<Card>, size: nat)
    requires size > 0
    ensures SortByRank(ChunkedGroups(hand, Keys(hand, RankOf), size)) == ChunksByRank(hand, size, 3)
  {
    RankBlocksOfChunked(hand, size, 3);
  }
}

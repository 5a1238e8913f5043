/**
 * `select_kickers`: the free cards of a hand (not in the main body, not of a
 * rank the hand holds four or more times) become one block per rank, in order
 * of first appearance; the knapsack search picks a count per rank; each pick
 * becomes that many of the free cards of its rank, in hand order.
 */
module KickerSelection {
  import opened Wrappers
  import opened Cards
  import opened Tally
  import opened HandAnalysis
  import opened Kicker
  import opened KickerSearch

  // ---------------------------------------------------------------------------
  // The free cards

  /** `is_protected`: the hand holds four or more cards of the card's rank. */
  predicate IsProtected(hand: seq<Card>, card: Card) {
    |Group(hand, RankOf, card.rank)| >= 4
  }

  /** The cards of the hand, in hand order, that are neither in the main body nor
      protected. */
  function Available(hand: seq<Card>, main: seq<Card>): seq<Card> {
    Free(hand, main, hand)
  }

  function Free(hand: seq<Card>, main: seq<Card>, cards: seq<Card>): seq<Card>
    decreases |cards|
  {
    if cards == [] then []
    else
      var c := cards[|cards| - 1];
      Free(hand, main, cards[..|cards| - 1]) + (if c !in main && !IsProtected(hand, c) then [c] else [])
  }

  /** The free cards are exactly the hand's cards outside the body and not
      protected, each as often as the hand holds it. */
  lemma {:induction false} FreeMembers(hand: seq<Card>, main: seq<Card>, cards: seq<Card>)
    ensures forall c :: c in Free(hand, main, cards) <==> c in cards && c !in main && !IsProtected(hand, c)
    ensures forall c :: multiset(Free(hand, main, cards))[c] ==
              if c !in main && !IsProtected(hand, c) then multiset(cards)[c] else 0
    decreases |cards|
  {
    if cards != [] {
      var init, c := cards[..|cards| - 1], cards[|cards| - 1];
      FreeMembers(hand, main, init);
      assert cards == init + [c];
    }
  }

  /** `should_use_aggressive`: at most one free card more than the capacity. */
  predicate ShouldUseAggressive(hand: seq<Card>, main: seq<Card>, capacity: nat) {
    |Available(hand, main)| <= capacity + 1
  }

  /** The tactic given, or else Aggressive when few cards are free and Efficiency
      otherwise. */
  function ChooseTactic(hand: seq<Card>, main: seq<Card>, capacity: nat, tactic: Option<Tactic>): (t: Tactic)
    ensures tactic.Some? ==> t == tactic.value
    ensures tactic.None? ==> (t == Aggressive <==> |Available(hand, main)| <= capacity + 1)
    ensures tactic.None? ==> t == Aggressive || t == Efficiency
  {
    match tactic
    case Some(t) => t
    case None => if ShouldUseAggressive(hand, main, capacity) then Aggressive else Efficiency
  }

  // ---------------------------------------------------------------------------
  // One block per rank

  function RankSeq(cards: seq<Card>): seq<Rank>
    decreases |cards|
  {
    if cards == [] then [] else RankSeq(cards[..|cards| - 1]) + [cards[|cards| - 1].rank]
  }

  lemma {:induction false} RankSeqMembers(cards: seq<Card>)
    ensures forall r :: r in RankSeq(cards) <==> exists c :: c in cards && c.rank == r
    decreases |cards|
  {
    if cards != [] {
      var init, c := cards[..|cards| - 1], cards[|cards| - 1];
      RankSeqMembers(init);
      assert cards == init + [c];
      forall r | r in RankSeq(cards) ensures exists d :: d in cards && d.rank == r {
        if r != c.rank {
          assert r in RankSeq(init);
          var d :| d in init && d.rank == r;
          assert d in cards;
        }
      }
    }
  }

  /** The blocks of the listed ranks, in list order. */
  function BlocksOf(cards: seq<Card>, ranks: seq<Rank>): seq<Block> {
    seq(|ranks|, i requires 0 <= i < |ranks| => BlockOf(cards, ranks[i]))
  }

  /** The blocks of the free cards: one per rank, in order of first appearance. */
  function Blocks(available: seq<Card>): seq<Block> {
    BlocksOf(available, Distinct(RankSeq(available)))
  }

  lemma BlocksOfSnoc(cards: seq<Card>, ranks: seq<Rank>, r: Rank)
    ensures BlocksOf(cards, ranks + [r]) == BlocksOf(cards, ranks) + [BlockOf(cards, r)]
  {
  }

  lemma DistinctSnoc(s: seq<Rank>, r: Rank)
    ensures Distinct(s + [r]) == if r in Distinct(s) then Distinct(s) else Distinct(s) + [r]
  {
    assert (s + [r])[..|s|] == s;
  }

  lemma RankSeqSnoc(cards: seq<Card>, i: nat)
    requires i < |cards|
    ensures RankSeq(cards[..i + 1]) == RankSeq(cards[..i]) + [cards[i].rank]
  {
    assert cards[..i + 1][..i] == cards[..i];
  }

  /** The `filter_map` over the free cards with a set of the ranks seen so far. */
  method BuildBlocks(available: seq<Card>) returns (blocks: seq<Block>)
    ensures blocks == Blocks(available)
  {
    var seen: set<Rank> := {};
    blocks := [];
    for i := 0 to |available|
      invariant forall r :: r in seen <==> r in Distinct(RankSeq(available[..i]))
      invariant blocks == BlocksOf(available, Distinct(RankSeq(available[..i])))
    {
      var r := available[i].rank;
      RankSeqSnoc(available, i);
      DistinctSnoc(RankSeq(available[..i]), r);
      BlocksOfSnoc(available, Distinct(RankSeq(available[..i])), r);
      if r !in seen {
        seen := seen + {r};
        blocks := blocks + [BlockOf(available, r)];
      }
    }
    assert available[..|available|] == available;
  }

  /** Every block is a rank the free cards hold, with all of their cards of that
      rank; the ranks are pairwise distinct and every free card's rank has one. */
  lemma BlocksSound(available: seq<Card>)
    ensures forall i :: 0 <= i < |Blocks(available)| ==>
              && Blocks(available)[i].count == |Group(available, RankOf, Blocks(available)[i].rank)|
              && 0 < Blocks(available)[i].count
              && exists c :: c in available && c.rank == Blocks(available)[i].rank
    ensures forall i, j :: 0 <= i < j < |Blocks(available)| ==> Blocks(available)[i].rank != Blocks(available)[j].rank
    ensures forall c :: c in available ==> exists i :: 0 <= i < |Blocks(available)| && Blocks(available)[i].rank == c.rank
  {
    var ranks := Distinct(RankSeq(available));
    var blocks := Blocks(available);
    DistinctKeys(RankSeq(available));
    RankSeqMembers(available);
    forall i | 0 <= i < |blocks|
      ensures 0 < blocks[i].count && exists c :: c in available && c.rank == blocks[i].rank
    {
      assert ranks[i] in RankSeq(available);
      BlockCounts(available, ranks[i]);
    }
    forall i, j | 0 <= i < j < |blocks| ensures blocks[i].rank != blocks[j].rank {
      assert blocks[i].rank == ranks[i] && blocks[j].rank == ranks[j];
    }
    forall c | c in available
      ensures exists i :: 0 <= i < |blocks| && blocks[i].rank == c.rank
    {
      assert c.rank in RankSeq(available);
      var i :| 0 <= i < |ranks| && ranks[i] == c.rank;
      assert blocks[i].rank == c.rank;
    }
  }

  /** No block of the free cards is a power block: a rank held four times is
      protected, so its cards are never free. */
  lemma NoPowerBlocks(hand: seq<Card>, main: seq<Card>)
    ensures forall i :: 0 <= i < |Blocks(Available(hand, main))| ==> !Blocks(Available(hand, main))[i].isPower
  {
    var available := Available(hand, main);
    BlocksSound(available);
    forall i | 0 <= i < |Blocks(available)| ensures !Blocks(available)[i].isPower {
      var c :| c in available && c.rank == Blocks(available)[i].rank;
      FreeBelowFour(hand, main, c);
    }
  }

  /** A free card's rank has fewer than four free cards. */
  lemma FreeBelowFour(hand: seq<Card>, main: seq<Card>, c: Card)
    requires c in Available(hand, main)
    ensures |Group(Available(hand, main), RankOf, c.rank)| < 4
  {
    var available := Available(hand, main);
    FreeMembers(hand, main, hand);
    GroupMultiset(available, RankOf, c.rank);
    GroupMultiset(hand, RankOf, c.rank);
    var ga, gh := Group(available, RankOf, c.rank), Group(hand, RankOf, c.rank);
    assert multiset(ga) <= multiset(gh);
    SubmultisetSize(multiset(ga), multiset(gh));
  }

  lemma SubmultisetSize(a: multiset<Card>, b: multiset<Card>)
    requires a <= b
    ensures |a| <= |b|
  {
    assert b == a + (b - a);
  }

  // ---------------------------------------------------------------------------
  // From picks back to cards

  /** The first `take` free cards of each pick's rank, picks in order. */
  function CardsOf(available: seq<Card>, picks: seq<Pick>): seq<Card>
    decreases |picks|
  {
    if picks == [] then []
    else
      var p := picks[|picks| - 1];
      CardsOf(available, picks[..|picks| - 1]) + Take(Group(available, RankOf, p.rank), p.take)
  }

  /** Picks of pairwise distinct ranks, each taking at least one and at most all
      free cards of its rank. */
  predicate PicksFit(available: seq<Card>, picks: seq<Pick>) {
    && (forall i :: 0 <= i < |picks| ==> 0 < picks[i].take <= |Group(available, RankOf, picks[i].rank)|)
    && (forall i, j :: 0 <= i < j < |picks| ==> picks[i].rank != picks[j].rank)
  }

  predicate HasRank(picks: seq<Pick>, r: Rank) {
    exists i :: 0 <= i < |picks| && picks[i].rank == r
  }

  /** Fitting picks turn into exactly as many cards as they take, no free card
      twice, and only cards of the picked ranks. */
  lemma {:induction false} CardsOfSound(available: seq<Card>, picks: seq<Pick>)
    requires PicksFit(available, picks)
    ensures |CardsOf(available, picks)| == Taken(picks)
    ensures forall c :: multiset(CardsOf(available, picks))[c] <= (if HasRank(picks, c.rank) then multiset(available)[c] else 0)
    decreases |picks|
  {
    if picks != [] {
      var init, p := picks[..|picks| - 1], picks[|picks| - 1];
      assert PicksFit(available, init);
      CardsOfSound(available, init);
      var g := Group(available, RankOf, p.rank);
      GroupMultiset(available, RankOf, p.rank);
      TakeWithin(g, p.take);
      assert p.take <= |g| by {
        assert picks[|picks| - 1] == p;
      }
      assert CardsOf(available, picks) == CardsOf(available, init) + Take(g, p.take);
      assert |Take(g, p.take)| == p.take;
      assert !HasRank(init, p.rank) by {
        forall i | 0 <= i < |init| ensures init[i].rank != p.rank {
          assert init[i] == picks[i];
        }
      }
      forall c ensures multiset(CardsOf(available, picks))[c] <= (if HasRank(picks, c.rank) then multiset(available)[c] else 0) {
        if c.rank == p.rank {
          assert HasRank(picks, c.rank) by {
            assert picks[|picks| - 1].rank == c.rank;
          }
        } else {
          assert multiset(Take(g, p.take))[c] == 0;
          if HasRank(init, c.rank) {
            var i :| 0 <= i < |init| && init[i].rank == c.rank;
            assert picks[i].rank == c.rank;
          }
        }
      }
    }
  }

  /** One of the first n blocks has rank r. */
  predicate AmongBlocks(blocks: seq<Block>, n: nat, r: Rank) {
    exists k :: 0 <= k < n && k < |blocks| && blocks[k].rank == r
  }

  /** Distinct blocks give picks of distinct ranks, each of a block's rank. */
  lemma {:induction false} PicksDistinct(blocks: seq<Block>, takes: seq<nat>)
    requires |takes| <= |blocks|
    requires forall i, j :: 0 <= i < j < |blocks| ==> blocks[i].rank != blocks[j].rank
    ensures forall i :: 0 <= i < |Picks(blocks, takes)| ==> AmongBlocks(blocks, |takes|, Picks(blocks, takes)[i].rank)
    ensures forall i, j :: 0 <= i < j < |Picks(blocks, takes)| ==> Picks(blocks, takes)[i].rank != Picks(blocks, takes)[j].rank
  {
    if takes != [] {
      var n := |takes| - 1;
      PicksDistinct(blocks, takes[..n]);
      var before := Picks(blocks, takes[..n]);
      forall i | 0 <= i < |before| ensures before[i].rank != blocks[n].rank {
        var k :| 0 <= k < n && k < |blocks| && blocks[k].rank == before[i].rank;
      }
      var picks := Picks(blocks, takes);
      forall i | 0 <= i < |picks| ensures AmongBlocks(blocks, |takes|, picks[i].rank) {
        if i < |before| {
          assert picks[i] == before[i];
          var k :| 0 <= k < n && k < |blocks| && blocks[k].rank == before[i].rank;
          assert 0 <= k < |takes|;
        } else {
          assert picks[i].rank == blocks[n].rank;
        }
      }
      forall i, j | 0 <= i < j < |picks| ensures picks[i].rank != picks[j].rank {
        assert picks[i] == before[i];
        if j < |before| {
          assert picks[j] == before[j];
        }
      }
    }
  }

  // ---------------------------------------------------------------------------
  // select_kickers

  /** The kickers: none when no card is free or the capacity is 0; otherwise the
      cards of the knapsack search's picks over the free cards' blocks. */
  function Kickers(hand: seq<Card>, main: seq<Card>, capacity: nat, tactic: Option<Tactic>): seq<Card> {
    var available := Available(hand, main);
    if available == [] || capacity == 0 then []
    else CardsOf(available, Solve(Blocks(available), capacity, ChooseTactic(hand, main, capacity, tactic)).selected)
  }

  method SelectKickers(hand: seq<Card>, main: seq<Card>, capacity: nat, tactic: Option<Tactic>) returns (kickers: seq<Card>)
    ensures kickers == Kickers(hand, main, capacity, tactic)
  {
    var available := Available(hand, main);
    if available == [] || capacity == 0 {
      return [];
    }
    var chosen := ChooseTactic(hand, main, capacity, tactic);
    var blocks := BuildBlocks(available);
    var result := SolveKnapsack(blocks, capacity, chosen);
    kickers := [];
    for i := 0 to |result.selected|
      invariant kickers == CardsOf(available, result.selected[..i])
    {
      var pick := result.selected[i];
      assert result.selected[..i + 1][..i] == result.selected[..i];
      kickers := kickers + Take(Group(available, RankOf, pick.rank), pick.take);
    }
    assert result.selected[..|result.selected|] == result.selected;
  }

  /** The selection of an assignment over blocks of pairwise distinct ranks, each
      counting the free cards of its rank, fits those cards. */
  lemma AssignedPicksFit(available: seq<Card>, blocks: seq<Block>, takes: seq<nat>)
    requires Bounded(blocks, takes)
    requires forall i :: 0 <= i < |blocks| ==> blocks[i].count == |Group(available, RankOf, blocks[i].rank)|
    requires forall i, j :: 0 <= i < j < |blocks| ==> blocks[i].rank != blocks[j].rank
    ensures PicksFit(available, Picks(blocks, takes))
  {
    var picks := Picks(blocks, takes);
    PicksWithin(blocks, takes);
    PicksDistinct(blocks, takes);
    forall i | 0 <= i < |picks| ensures 0 < picks[i].take <= |Group(available, RankOf, picks[i].rank)| {
      assert picks[i] in picks;
      var k :| 0 <= k < |takes| && blocks[k].rank == picks[i].rank && picks[i].take <= blocks[k].count;
    }
  }

  /** The picks of the search over blocks of pairwise distinct ranks, each
      counting the free cards of its rank, fit those cards. */
  lemma SolvedPicksFitBlocks(available: seq<Card>, blocks: seq<Block>, capacity: nat, tactic: Tactic)
    requires forall i :: 0 <= i < |blocks| ==> blocks[i].count == |Group(available, RankOf, blocks[i].rank)|
    requires forall i, j :: 0 <= i < j < |blocks| ==> blocks[i].rank != blocks[j].rank
    ensures PicksFit(available, Solve(blocks, capacity, tactic).selected)
  {
    var r := Solve(blocks, capacity, tactic);
    SolveAttained(blocks, capacity, tactic);
    var takes :| Fits(blocks, capacity, takes) && r.selected == Picks(blocks, takes)
                 && r.totalCost == LeafCost(blocks, capacity, tactic, takes);
    AssignedPicksFit(available, blocks, takes);
  }

  /** The picks of the search over the blocks of free cards fit those cards. */
  lemma SolvedPicksFit(available: seq<Card>, capacity: nat, tactic: Tactic)
    ensures PicksFit(available, Solve(Blocks(available), capacity, tactic).selected)
  {
    BlocksSound(available);
    SolvedPicksFitBlocks(available, Blocks(available), capacity, tactic);
  }

  /** Fitting picks take no card more often than the list holds it. */
  lemma CardsOfWithin(available: seq<Card>, picks: seq<Pick>)
    requires PicksFit(available, picks)
    ensures multiset(CardsOf(available, picks)) <= multiset(available)
    ensures |CardsOf(available, picks)| == Taken(picks)
  {
    CardsOfSound(available, picks);
  }

  /** Fitting picks over the free cards give hand cards outside the main body and
      not protected, no card more often than the free cards hold it, as many as
      the picks take. */
  lemma PickedCardsFree(hand: seq<Card>, main: seq<Card>, picks: seq<Pick>)
    requires PicksFit(Available(hand, main), picks)
    ensures forall c :: c in CardsOf(Available(hand, main), picks) ==> c in hand && c !in main && !IsProtected(hand, c)
    ensures multiset(CardsOf(Available(hand, main), picks)) <= multiset(Available(hand, main))
    ensures multiset(CardsOf(Available(hand, main), picks)) <= multiset(hand)
    ensures |CardsOf(Available(hand, main), picks)| == Taken(picks)
  {
    var available := Available(hand, main);
    var kickers := CardsOf(available, picks);
    CardsOfWithin(available, picks);
    FreeMembers(hand, main, hand);
    forall c | c in kickers ensures c in available {
      assert multiset(kickers)[c] > 0;
    }
  }

  /** The kickers are cards of the hand outside the main body and not protected,
      no hand card is used more often than the hand holds it, and there are at
      most `capacity` of them; with nothing free or no capacity there are none. */
  lemma KickersSound(hand: seq<Card>, main: seq<Card>, capacity: nat, tactic: Option<Tactic>)
    ensures Available(hand, main) == [] || capacity == 0 ==> Kickers(hand, main, capacity, tactic) == []
    ensures forall c :: c in Kickers(hand, main, capacity, tactic) ==> c in hand && c !in main && !IsProtected(hand, c)
    ensures multiset(Kickers(hand, main, capacity, tactic)) <= multiset(Available(hand, main))
    ensures multiset(Kickers(hand, main, capacity, tactic)) <= multiset(hand)
    ensures |Kickers(hand, main, capacity, tactic)| <= capacity
  {
    var available := Available(hand, main);
    if available != [] && capacity != 0 {
      var t := ChooseTactic(hand, main, capacity, tactic);
      SolveAttained(Blocks(available), capacity, t);
      SolvedPicksFit(available, capacity, t);
      PickedCardsFree(hand, main, Solve(Blocks(available), capacity, t).selected);
    }
  }
}

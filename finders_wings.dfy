/**
 * `WingFinder`: the airplane-with-wings finders. Each takes an airplane
 * (two or more consecutive ranks, three cards of each), collects the wing
 * pairs the hand offers around it and adds either the lowest pairs or every
 * choice of them.
 *
 * A rank of the airplane that holds five or more cards offers as its wing two
 * of its cards that are equal to no card of the airplane (the code compares
 * by value). With several decks the spare cards are often copies of the
 * airplane's own cards, and then the rank offers nothing. The finders model
 * that selection (`WingOf`); `SpareWingOf` is the selection the comments and
 * the `remaining >= 2` test describe, and `AsWrittenDropsCopies` shows a pair
 * the two disagree on.
 */
module WingFinder {
  import opened Wrappers
  import Tally
  import opened Cards
  import opened RankTallies
  import opened Sorting
  import opened HandAnalysis
  import opened FormationValidator
  import opened ChainFinder
  import opened ComboFinder

  // ---------------------------------------------------------------------------
  // The wing pairs on offer

  /** `set(card.rank for card in airplane)`. */
  function AirplaneRanks(airplane: seq<Card>): set<int> {
    set c | c in airplane :: c.rank
  }

  /** `[c for c in cards if c not in airplane]`: value comparison. */
  function NotIn(cards: seq<Card>, airplane: seq<Card>): seq<Card>
    decreases |cards|
  {
    if cards == [] then []
    else NotIn(cards[..|cards| - 1], airplane) + (if cards[|cards| - 1] in airplane then [] else [cards[|cards| - 1]])
  }

  /** The wing pair rank r offers, as the code selects it: of a rank of the
      airplane holding five or more cards, its first two cards equal to no card
      of the airplane, when there are two; of another rank, its first two cards. */
  function WingOf(hand: seq<Card>, airplane: seq<Card>, r: int): seq<Entry> {
    var g := Group(hand, RankOf, r);
    if r in AirplaneRanks(airplane) then
      (if |g| - 3 >= 2 then
         var extra := NotIn(g, airplane);
         if |extra| >= 2 then [Entry(r, extra[..2])] else []
       else [])
    else if |g| >= 2 then [Entry(r, g[..2])] else []
  }

  /** The `available_pairs` list over the ranks ks. */
  function WingsFrom(hand: seq<Card>, airplane: seq<Card>, ks: seq<int>): seq<Entry>
    decreases |ks|
  {
    if ks == [] then [] else WingsFrom(hand, airplane, ks[..|ks| - 1]) + WingOf(hand, airplane, ks[|ks| - 1])
  }

  /** The wing pairs the hand offers an airplane, ranks in order of first appearance. */
  function Wings(hand: seq<Card>, airplane: seq<Card>): seq<Entry> {
    WingsFrom(hand, airplane, Keys(hand, RankOf))
  }

  /** The loop over `rank_counts.items()` building `available_pairs`. */
  method CollectWings(hand: seq<Card>, keys: seq<int>, groups: map<int, seq<Card>>,
                      airplane: seq<Card>, airplaneRanks: set<int>)
    returns (available: seq<Entry>)
    requires forall r :: Lookup(groups, r) == Group(hand, RankOf, r)
    requires airplaneRanks == AirplaneRanks(airplane)
    ensures available == WingsFrom(hand, airplane, keys)
  {
    available := [];
    for t := 0 to |keys|
      invariant available == WingsFrom(hand, airplane, keys[..t])
    {
      assert keys[..t + 1][..t] == keys[..t];
      var rank := keys[t];
      var cards := Lookup(groups, rank);
      if rank in airplaneRanks {
        var remaining := |cards| - 3;
        if remaining >= 2 {
          var extraCards := NotIn(cards, airplane);
          if |extraCards| >= 2 {
            available := available + [Entry(rank, extraCards[..2])];
          }
        }
      } else if |cards| >= 2 {
        available := available + [Entry(rank, cards[..2])];
      }
    }
    assert keys[..|keys|] == keys;
  }

  /** The cards of a list equal to no airplane card: none of an airplane card,
      every copy of any other card. */
  lemma {:induction false} NotInMultiset(cards: seq<Card>, airplane: seq<Card>, c: Card)
    ensures multiset(NotIn(cards, airplane))[c] == if c in airplane then 0 else multiset(cards)[c]
    decreases |cards|
  {
    if cards != [] {
      var init, last := cards[..|cards| - 1], cards[|cards| - 1];
      NotInMultiset(init, airplane, c);
      assert cards == init + [last];
    }
  }

  /** Every card kept is a card of the list and equal to no airplane card. */
  lemma {:induction false} NotInMembers(cards: seq<Card>, airplane: seq<Card>)
    ensures forall x :: x in NotIn(cards, airplane) ==> x in cards && x !in airplane
    decreases |cards|
  {
    if cards != [] {
      var init, last := cards[..|cards| - 1], cards[|cards| - 1];
      NotInMembers(init, airplane);
      assert cards == init + [last];
    }
  }

  // ---------------------------------------------------------------------------
  // The spare cards as intended

  /** The wing pair as the comments describe it: of a rank of the airplane, the
      two cards after the airplane's three when there are two more; of another
      rank, its first two cards. */
  function SpareWingOf(hand: seq<Card>, plane: set<int>, r: int): seq<Entry> {
    var g := Group(hand, RankOf, r);
    if r in plane then (if |g| - 3 >= 2 then [Entry(r, g[3..][..2])] else [])
    else if |g| >= 2 then [Entry(r, g[..2])] else []
  }

  /** Two decks: the fives 5♠ 5♥ 5♦ 5♠ 5♥ and the sixes 6♦ 6♣ 6♥ form an
      airplane on the first three of each. Five cards of rank five leave two
      spare cards, but both equal cards of the airplane, so the code offers no
      wing of rank five, where the spare cards make one. */
  lemma AsWrittenDropsCopies()
    ensures var fives := [Card(Spades, Five), Card(Hearts, Five), Card(Diamonds, Five), Card(Spades, Five), Card(Hearts, Five)];
            var sixes := [Card(Diamonds, 6), Card(Clubs, 6), Card(Hearts, 6)];
            var hand := fives + sixes;
            var airplane := fives[..3] + sixes;
            && RankCount(hand, Five) == 5
            && Group(hand, RankOf, Five) == fives
            && AirplaneRanks(airplane) == {5, 6}
            && WingOf(hand, airplane, Five) == []
            && SpareWingOf(hand, AirplaneRanks(airplane), Five) == [Entry(Five, [Card(Spades, Five), Card(Hearts, Five)])]
  {
    var fives := [Card(Spades, Five), Card(Hearts, Five), Card(Diamonds, Five), Card(Spades, Five), Card(Hearts, Five)];
    var sixes := [Card(Diamonds, 6), Card(Clubs, 6), Card(Hearts, 6)];
    var hand := fives + sixes;
    var airplane := fives[..3] + sixes;
    GroupSize(hand, Five);
    GroupAppend(fives, sixes, Five);
    GroupOfOneRank(fives, Five);
    GroupOfOtherRanks(sixes, Five);
    assert AirplaneRanks(airplane) == {5, 6} by {
      assert airplane[0] in airplane && airplane[3] in airplane;
    }
    NotInCovered(fives, airplane);
    assert Group(hand, RankOf, Five) == fives;
    assert RankCount(hand, Five) == 5;
    assert 5 in AirplaneRanks(airplane);
    assert WingOf(hand, airplane, Five) == [];
    assert fives[3..][..2] == [Card(Spades, Five), Card(Hearts, Five)];
  }

  /** Two decks: the hand 5♠ 5♥ 5♦ 5♠ 5♥ 6♦ 6♣ 6♥ 7♠ 7♠. Its airplane is the
      first three fives and the sixes, and the code offers it the sevens alone,
      so `AddLowestWings` finds no play with wings; the spare fives 5♠ 5♥ would
      have made a second pair. */
  lemma TwoDeckHandOffersOneWing(fives: seq<Card>, sixes: seq<Card>, sevens: seq<Card>)
    requires fives == [Card(Spades, Five), Card(Hearts, Five), Card(Diamonds, Five), Card(Spades, Five), Card(Hearts, Five)]
    requires sixes == [Card(Diamonds, 6), Card(Clubs, 6), Card(Hearts, 6)]
    requires sevens == [Card(Spades, 7), Card(Spades, 7)]
    ensures var hand := fives + sixes + sevens;
            var airplane := Gather(hand, RankOf, 3, RankRange(Five, 2));
            && airplane == fives[..3] + sixes
            && Wings(hand, airplane) == [Entry(7, sevens)]
            && SpareWingOf(hand, AirplaneRanks(airplane), Five) == [Entry(Five, fives[3..])]
  {
    var hand := fives + sixes + sevens;
    var airplane := Gather(hand, RankOf, 3, RankRange(Five, 2));
    TwoDeckAirplane(fives, sixes, sevens);
    TwoDeckWings(fives, sixes, sevens);
    HandKeys(fives, sixes, sevens);
    WingsOfThreeRanks(hand, airplane, 5, 6, 7);
  }

  /** The pairs offered by a hand of three ranks: those of each rank in turn. */
  lemma WingsOfThreeRanks(hand: seq<Card>, airplane: seq<Card>, a: int, b: int, c: int)
    requires Keys(hand, RankOf) == [a, b, c]
    ensures Wings(hand, airplane) == WingOf(hand, airplane, a) + WingOf(hand, airplane, b) + WingOf(hand, airplane, c)
  {
    var k0: seq<int> := [];
    var k1 := k0 + [a];
    var k2 := k1 + [b];
    var k3 := k2 + [c];
    WingsFromSnoc(hand, airplane, k0, a);
    WingsFromSnoc(hand, airplane, k1, b);
    WingsFromSnoc(hand, airplane, k2, c);
    assert k3 == [a, b, c];
  }

  /** What each rank of the two-deck hand offers its airplane. */
  lemma TwoDeckWings(fives: seq<Card>, sixes: seq<Card>, sevens: seq<Card>)
    requires fives == [Card(Spades, Five), Card(Hearts, Five), Card(Diamonds, Five), Card(Spades, Five), Card(Hearts, Five)]
    requires sixes == [Card(Diamonds, 6), Card(Clubs, 6), Card(Hearts, 6)]
    requires sevens == [Card(Spades, 7), Card(Spades, 7)]
    ensures var hand, airplane := fives + sixes + sevens, fives[..3] + sixes;
            && WingOf(hand, airplane, Five) == []
            && WingOf(hand, airplane, 6) == []
            && WingOf(hand, airplane, 7) == [Entry(7, sevens)]
            && SpareWingOf(hand, AirplaneRanks(airplane), Five) == [Entry(Five, fives[3..])]
  {
    var hand, airplane := fives + sixes + sevens, fives[..3] + sixes;
    RankGroups(fives, sixes, sevens);
    assert AirplaneRanks(airplane) == {5, 6} by {
      assert forall c :: c in airplane ==> c.rank == 5 || c.rank == 6;
      assert airplane[0] in airplane && airplane[3] in airplane;
    }
    assert fives[3] == airplane[0] && fives[4] == airplane[1];
    NotInCovered(fives, airplane);
    assert sevens[..2] == sevens;
    assert fives[3..][..2] == fives[3..];
  }

  lemma WingsFromSnoc(hand: seq<Card>, airplane: seq<Card>, ks: seq<int>, k: int)
    ensures WingsFrom(hand, airplane, ks + [k]) == WingsFrom(hand, airplane, ks) + WingOf(hand, airplane, k)
  {
    assert (ks + [k])[..|ks|] == ks;
  }

  /** The airplane of the two-deck hand: the first three fives and the sixes. */
  lemma TwoDeckAirplane(fives: seq<Card>, sixes: seq<Card>, sevens: seq<Card>)
    requires fives == [Card(Spades, Five), Card(Hearts, Five), Card(Diamonds, Five), Card(Spades, Five), Card(Hearts, Five)]
    requires sixes == [Card(Diamonds, 6), Card(Clubs, 6), Card(Hearts, 6)]
    requires sevens == [Card(Spades, 7), Card(Spades, 7)]
    ensures Gather(fives + sixes + sevens, RankOf, 3, RankRange(Five, 2)) == fives[..3] + sixes
  {
    var hand := fives + sixes + sevens;
    RankGroups(fives, sixes, sevens);
    var r0: seq<int> := [];
    var r1 := r0 + [5];
    var r2 := r1 + [6];
    assert RankRange(Five, 2) == r2;
    GatherAppend(hand, RankOf, 3, r0, 5);
    GatherAppend(hand, RankOf, 3, r1, 6);
  }

  /** The groups of the two-deck hand of fives, sixes and sevens. */
  lemma RankGroups(fives: seq<Card>, sixes: seq<Card>, sevens: seq<Card>)
    requires fives == [Card(Spades, Five), Card(Hearts, Five), Card(Diamonds, Five), Card(Spades, Five), Card(Hearts, Five)]
    requires sixes == [Card(Diamonds, 6), Card(Clubs, 6), Card(Hearts, 6)]
    requires sevens == [Card(Spades, 7), Card(Spades, 7)]
    ensures Group(fives + sixes + sevens, RankOf, Five) == fives
    ensures Group(fives + sixes + sevens, RankOf, 6) == sixes
    ensures Group(fives + sixes + sevens, RankOf, 7) == sevens
  {
    forall r | r in {5, 6, 7}
      ensures Group(fives + sixes + sevens, RankOf, r) == Group(fives, RankOf, r) + Group(sixes, RankOf, r) + Group(sevens, RankOf, r)
    {
      GroupAppend(fives + sixes, sevens, r);
      GroupAppend(fives, sixes, r);
    }
    GroupOfOneRank(fives, Five);
    GroupOfOtherRanks(sixes, Five);
    GroupOfOtherRanks(sevens, Five);
    GroupOfOtherRanks(fives, 6);
    GroupOfOneRank(sixes, 6);
    GroupOfOtherRanks(sevens, 6);
    GroupOfOtherRanks(fives, 7);
    GroupOfOtherRanks(sixes, 7);
    GroupOfOneRank(sevens, 7);
  }

  /** The ranks of the two-deck hand, in order of first appearance. */
  lemma HandKeys(fives: seq<Card>, sixes: seq<Card>, sevens: seq<Card>)
    requires fives == [Card(Spades, Five), Card(Hearts, Five), Card(Diamonds, Five), Card(Spades, Five), Card(Hearts, Five)]
    requires sixes == [Card(Diamonds, 6), Card(Clubs, 6), Card(Hearts, 6)]
    requires sevens == [Card(Spades, 7), Card(Spades, 7)]
    ensures Keys(fives + sixes + sevens, RankOf) == [5, 6, 7]
  {
    var hand := fives + sixes + sevens;
    var ks := [5, 5, 5, 5, 5, 6, 6, 6, 7, 7];
    KeyListPrefix(hand, ks, |hand|);
    assert hand[..|hand|] == hand && ks[..|hand|] == ks;
    RankListKeys(ks);
  }

  lemma RankListKeys(ks: seq<int>)
    requires ks == [5, 5, 5, 5, 5, 6, 6, 6, 7, 7]
    ensures Tally.Distinct(ks) == [5, 6, 7]
  {
    var s0: seq<int> := [];
    var s1 := s0 + [5];
    DistinctAdd(s0, 5, []);
    var s2 := s1 + [5];
    DistinctAdd(s1, 5, [5]);
    var s3 := s2 + [5];
    DistinctAdd(s2, 5, [5]);
    var s4 := s3 + [5];
    DistinctAdd(s3, 5, [5]);
    var s5 := s4 + [5];
    DistinctAdd(s4, 5, [5]);
    var s6 := s5 + [6];
    DistinctAdd(s5, 6, [5]);
    var s7 := s6 + [6];
    DistinctAdd(s6, 6, [5, 6]);
    var s8 := s7 + [6];
    DistinctAdd(s7, 6, [5, 6]);
    var s9 := s8 + [7];
    DistinctAdd(s8, 7, [5, 6]);
    var s10 := s9 + [7];
    DistinctAdd(s9, 7, [5, 6, 7]);
    assert ks == s10;
  }

  lemma DistinctAdd(s: seq<int>, x: int, d: seq<int>)
    requires Tally.Distinct(s) == d
    ensures Tally.Distinct(s + [x]) == if x in d then d else d + [x]
  {
    assert (s + [x])[..|s|] == s;
  }

  lemma {:induction false} KeyListPrefix(hand: seq<Card>, ks: seq<int>, i: nat)
    requires |hand| == |ks| && i <= |hand|
    requires forall j :: 0 <= j < |hand| ==> hand[j].rank == ks[j]
    ensures KeyList(hand[..i], RankOf) == ks[..i]
    decreases i
  {
    if i > 0 {
      KeyListPrefix(hand, ks, i - 1);
      assert hand[..i][..i - 1] == hand[..i - 1];
    }
  }

  lemma {:induction false} GroupAppend(xs: seq<Card>, ys: seq<Card>, r: int)
    ensures Group(xs + ys, RankOf, r) == Group(xs, RankOf, r) + Group(ys, RankOf, r)
    decreases |ys|
  {
    if ys == [] {
      assert xs + ys == xs;
    } else {
      var init := ys[..|ys| - 1];
      GroupAppend(xs, init, r);
      assert (xs + ys)[..|xs + ys| - 1] == xs + init;
    }
  }

  lemma {:induction false} GroupOfOneRank(xs: seq<Card>, r: int)
    requires forall i :: 0 <= i < |xs| ==> xs[i].rank == r
    ensures Group(xs, RankOf, r) == xs
    decreases |xs|
  {
    if xs != [] {
      GroupOfOneRank(xs[..|xs| - 1], r);
    }
  }

  lemma {:induction false} GroupOfOtherRanks(xs: seq<Card>, r: int)
    requires forall i :: 0 <= i < |xs| ==> xs[i].rank != r
    ensures Group(xs, RankOf, r) == []
    decreases |xs|
  {
    if xs != [] {
      GroupOfOtherRanks(xs[..|xs| - 1], r);
    }
  }

  lemma {:induction false} NotInCovered(cards: seq<Card>, airplane: seq<Card>)
    requires forall i :: 0 <= i < |cards| ==> cards[i] in airplane
    ensures NotIn(cards, airplane) == []
    decreases |cards|
  {
    if cards != [] {
      NotInCovered(cards[..|cards| - 1], airplane);
    }
  }

  // ---------------------------------------------------------------------------
  // find_airplane_with_wings

  /** The cards of the n lowest-ranked pairs of w, lower rank first, equal
      ranks in list order. */
  function LowestPairs(w: seq<Entry>, n: nat): seq<Card>
    requires n <= |w|
  {
    SortDescSpec(w, NegRank);
    EntryCards(SortDesc(w, NegRank)[..n])
  }

  /** The lowest airplane of two triples has at least two wing pairs on offer. */
  ghost predicate WingsForLowest(hand: seq<Card>, lo: int) {
    LowestAirplane(hand, lo) && |Wings(hand, Gather(hand, RankOf, 3, RankRange(lo, 2)))| >= 2
  }

  /** `find_airplane_with_wings`: the lowest airplane of two triples with the
      two lowest wing pairs, or None when there is no airplane or fewer than two
      wing pairs for it. */
  method FindAirplaneWithWings(hand: seq<Card>) returns (found: Option<seq<Card>>)
    ensures found.None? <==> !exists lo :: WingsForLowest(hand, lo)
    ensures found.Some? ==> exists lo :: WingsForLowest(hand, lo)
                              && found.value == Gather(hand, RankOf, 3, RankRange(lo, 2))
                                   + LowestPairs(Wings(hand, Gather(hand, RankOf, 3, RankRange(lo, 2))), 2)
  {
    var airplane := FindAirplane(hand);
    if airplane.None? {
      assert forall q :: !WingsForLowest(hand, q);
      return None;
    }
    var cards := airplane.value;
    ghost var lo :| LowestAirplane(hand, lo) && cards == Gather(hand, RankOf, 3, RankRange(lo, 2));
    LowestIsUnique(hand, lo);
    AirplaneSize(hand, lo, 2);
    found := AddLowestWings(hand, cards);
    assert WingsForLowest(hand, lo) <==> |Wings(hand, cards)| >= 2;
    if found.None? {
      forall q ensures !WingsForLowest(hand, q) {
        if LowestAirplane(hand, q) {
          assert q == lo;
        }
      }
    }
  }

  /** The rest of `find_airplane_with_wings` once the airplane is found. */
  method AddLowestWings(hand: seq<Card>, cards: seq<Card>) returns (found: Option<seq<Card>>)
    requires |cards| == 6
    ensures found.None? <==> |Wings(hand, cards)| < 2
    ensures found.Some? ==> |Wings(hand, cards)| >= 2 && found.value == cards + LowestPairs(Wings(hand, cards), 2)
  {
    var numTriples := |cards| / 3;
    var airplaneRanks := set c | c in cards :: c.rank;
    var keys, groups := GroupBy(hand, RankOf);
    var available := CollectWings(hand, keys, groups, cards, airplaneRanks);
    assert available == Wings(hand, cards);
    if |available| < numTriples {
      return None;
    }
    ghost var offered := available;
    available := SortDesc(available, NegRank);
    SortDescSpec(offered, NegRank);
    var wings := FirstPairs(available, numTriples);
    assert numTriples == 2;
    assert wings == LowestPairs(offered, 2);
    return Some(cards + wings);
  }

  /** `for i in range(num_triples): wings.extend(available_pairs[i][1])`. */
  method FirstPairs(available: seq<Entry>, n: nat) returns (wings: seq<Card>)
    requires n <= |available|
    ensures wings == EntryCards(available[..n])
  {
    wings := [];
    for i := 0 to n
      invariant wings == EntryCards(available[..i])
    {
      assert available[..i + 1][..i] == available[..i];
      wings := wings + available[i].cards;
    }
  }

  lemma LowestIsUnique(hand: seq<Card>, lo: int)
    requires LowestAirplane(hand, lo)
    ensures forall q :: LowestAirplane(hand, q) ==> q == lo
  {
  }

  /** An airplane of n ranks holds 3n cards. */
  lemma AirplaneSize(hand: seq<Card>, lo: int, n: nat)
    requires RunHeld(hand, lo, n, 3)
    ensures |Gather(hand, RankOf, 3, RankRange(lo, n))| == 3 * n
  {
    GatherSize(hand, 3, RankRange(lo, n));
  }

  // ---------------------------------------------------------------------------
  // find_all_airplane_with_wings

  /** itertools.combinations: the k-element subsequences, in lexicographic order of positions. */
  function Combinations<T>(xs: seq<T>, k: nat): seq<seq<T>>
    decreases |xs|
  {
    if k == 0 then [[]]
    else if xs == [] then []
    else
      var withFirst := Combinations(xs[1..], k - 1);
      seq(|withFirst|, i requires 0 <= i < |withFirst| => [xs[0]] + withFirst[i]) + Combinations(xs[1..], k)
  }

  /** The airplane with the pairs of each choice added. */
  function WithWings(airplane: seq<Card>, combos: seq<seq<Entry>>): seq<seq<Card>>
    decreases |combos|
  {
    if combos == [] then [] else WithWings(airplane, combos[..|combos| - 1]) + [airplane + EntryCards(combos[|combos| - 1])]
  }

  /** The combinations for one airplane: none when fewer than n pairs are on offer. */
  function WingedFor(hand: seq<Card>, airplane: seq<Card>, n: nat): seq<seq<Card>> {
    var w := Wings(hand, airplane);
    if |w| < n then [] else WithWings(airplane, Combinations(w, n))
  }

  function WingedAll(hand: seq<Card>, n: nat, airplanes: seq<seq<Card>>): seq<seq<Card>>
    decreases |airplanes|
  {
    if airplanes == [] then []
    else WingedAll(hand, n, airplanes[..|airplanes| - 1]) + WingedFor(hand, airplanes[|airplanes| - 1], n)
  }

  /** What `find_all_airplane_with_wings(hand, target_card_count)` lists. */
  function AllAirplaneWithWings(hand: seq<Card>, targetCardCount: int): seq<seq<Card>> {
    if targetCardCount % 5 != 0 || targetCardCount / 5 < 2 then []
    else WingedAll(hand, targetCardCount / 5, AllRuns(hand, 3, targetCardCount / 5))
  }

  /** `find_all_airplane_with_wings`. */
  method FindAllAirplaneWithWings(hand: seq<Card>, targetCardCount: int) returns (all: seq<seq<Card>>)
    ensures all == AllAirplaneWithWings(hand, targetCardCount)
    ensures targetCardCount % 5 != 0 || targetCardCount < 10 ==> all == []
  {
    if targetCardCount % 5 != 0 {
      return [];
    }
    var numTriples := targetCardCount / 5;
    if numTriples < 2 {
      return [];
    }
    var airplanes := FindAllAirplanes(hand, numTriples);
    if airplanes == [] {
      return [];
    }
    all := WingEach(hand, airplanes, numTriples);
  }

  /** The loop over `all_airplanes`. */
  method WingEach(hand: seq<Card>, airplanes: seq<seq<Card>>, numTriples: nat) returns (all: seq<seq<Card>>)
    ensures all == WingedAll(hand, numTriples, airplanes)
  {
    all := [];
    for a := 0 to |airplanes|
      invariant all == WingedAll(hand, numTriples, airplanes[..a])
    {
      assert airplanes[..a + 1][..a] == airplanes[..a];
      var found := WingsForAirplane(hand, airplanes[a], numTriples);
      all := all + found;
    }
    assert airplanes[..|airplanes|] == airplanes;
  }

  /** The body of the loop over `all_airplanes`. */
  method WingsForAirplane(hand: seq<Card>, airplane: seq<Card>, numTriples: nat) returns (found: seq<seq<Card>>)
    ensures found == WingedFor(hand, airplane, numTriples)
  {
    var airplaneRanks := set c | c in airplane :: c.rank;
    var keys, groups := GroupBy(hand, RankOf);
    var available := CollectWings(hand, keys, groups, airplane, airplaneRanks);
    if |available| < numTriples {
      return [];
    }
    var combos := Combinations(available, numTriples);
    found := AddEachChoice(airplane, combos);
  }

  /** The loop over the combinations of wing pairs. */
  method AddEachChoice(airplane: seq<Card>, combos: seq<seq<Entry>>) returns (found: seq<seq<Card>>)
    ensures found == WithWings(airplane, combos)
  {
    found := [];
    for j := 0 to |combos|
      invariant found == WithWings(airplane, combos[..j])
    {
      assert combos[..j + 1][..j] == combos[..j];
      var wings := JoinPairs(combos[j]);
      found := found + [airplane + wings];
    }
    assert combos[..|combos|] == combos;
  }

  /** `for pair in pair_combo: wings.extend(pair)`. */
  method JoinPairs(pairs: seq<Entry>) returns (wings: seq<Card>)
    ensures wings == EntryCards(pairs)
  {
    wings := [];
    for i := 0 to |pairs|
      invariant wings == EntryCards(pairs[..i])
    {
      assert pairs[..i + 1][..i] == pairs[..i];
      wings := wings + pairs[i].cards;
    }
    assert pairs[..|pairs|] == pairs;
  }
  // ---------------------------------------------------------------------------
  // What the wing pairs are

  /** No two entries share a rank. */
  predicate DistinctRanks(es: seq<Entry>) {
    forall i, j :: 0 <= i < j < |es| ==> es[i].rank != es[j].rank
  }

  /** As intended, a rank offers at most one pair: two cards of that rank,
      offered exactly when the hand holds five of them (a rank of the airplane)
      or two (any other rank). */
  lemma WingOfMeaning(hand: seq<Card>, plane: set<int>, r: int)
    ensures |SpareWingOf(hand, plane, r)| <= 1
    ensures SpareWingOf(hand, plane, r) != [] <==> RankCount(hand, r) >= if r in plane then 5 else 2
    ensures forall e :: e in SpareWingOf(hand, plane, r) ==>
              e.rank == r && |e.cards| == 2 && forall c :: c in e.cards ==> c.rank == r
  {
    GroupSize(hand, r);
    GroupMembers(hand, RankOf, r);
  }

  /** As the code selects it, a rank offers at most one pair, two cards of that
      rank. A rank outside the airplane offers one exactly when the hand holds two
      of its cards; a rank of the airplane exactly when the hand holds five and two
      of them are equal to no airplane card, and then the pair holds only such cards. */
  lemma WingOfFacts(hand: seq<Card>, airplane: seq<Card>, r: int)
    ensures |WingOf(hand, airplane, r)| <= 1
    ensures r !in AirplaneRanks(airplane) ==> (WingOf(hand, airplane, r) != [] <==> RankCount(hand, r) >= 2)
    ensures r in AirplaneRanks(airplane) ==>
              (WingOf(hand, airplane, r) != [] <==>
                 RankCount(hand, r) >= 5 && |NotIn(Group(hand, RankOf, r), airplane)| >= 2)
    ensures forall e :: e in WingOf(hand, airplane, r) ==>
              && e.rank == r && |e.cards| == 2 && (forall c :: c in e.cards ==> c.rank == r)
              && (r in AirplaneRanks(airplane) ==> forall c :: c in e.cards ==> c !in airplane)
  {
    var g := Group(hand, RankOf, r);
    GroupSize(hand, r);
    GroupMembers(hand, RankOf, r);
    NotInMembers(g, airplane);
    var extra := NotIn(g, airplane);
    if r in AirplaneRanks(airplane) && |g| >= 5 && |extra| >= 2 {
      forall c | c in extra[..2] ensures c.rank == r && c !in airplane {
        assert c in extra;
        var i :| 0 <= i < |g| && g[i] == c;
      }
    }
  }

  /** The cards rank r offers as its wing. */
  function WingCards(hand: seq<Card>, airplane: seq<Card>, r: int): seq<Card> {
    var w := WingOf(hand, airplane, r);
    if w == [] then [] else w[0].cards
  }

  /** Every pair on offer is the wing of its rank, and over distinct ranks no
      rank offers two. */
  lemma {:induction false} WingsFromEntries(hand: seq<Card>, airplane: seq<Card>, ks: seq<int>)
    ensures forall e :: e in WingsFrom(hand, airplane, ks) ==> e.rank in ks && WingOf(hand, airplane, e.rank) == [e]
    ensures NoDup(ks) ==> DistinctRanks(WingsFrom(hand, airplane, ks))
    decreases |ks|
  {
    if ks != [] {
      var init, k := ks[..|ks| - 1], ks[|ks| - 1];
      WingsFromEntries(hand, airplane, init);
      WingOfFacts(hand, airplane, k);
      var w, last := WingsFrom(hand, airplane, init), WingOf(hand, airplane, k);
      assert WingsFrom(hand, airplane, ks) == w + last;
      forall e: Entry | e in w + last ensures e.rank in ks && WingOf(hand, airplane, e.rank) == [e] {
        if e in w {
          assert e.rank in init;
        } else {
          assert last == [e];
        }
      }
      if NoDup(ks) {
        NoDupInit(ks);
        var all := w + last;
        forall i, j | 0 <= i < j < |all| ensures all[i].rank != all[j].rank {
          if j >= |w| {
            assert all[j] in last && all[i] in w;
          }
        }
      }
    }
  }

  /** The pairs on offer for the hand's own ranks: each the wing of its rank as
      the code selects it, no rank twice. */
  lemma WingsEntries(hand: seq<Card>, airplane: seq<Card>)
    ensures forall e :: e in Wings(hand, airplane) ==> WingOf(hand, airplane, e.rank) == [e]
    ensures DistinctRanks(Wings(hand, airplane))
  {
    KeysNoDup(hand, RankOf);
    WingsFromEntries(hand, airplane, Keys(hand, RankOf));
  }

  /** Entries with distinct ranks occur once each. */
  lemma {:induction false} DistinctRanksOnce(es: seq<Entry>)
    requires DistinctRanks(es)
    ensures forall e :: multiset(es)[e] <= 1
    decreases |es|
  {
    if es != [] {
      var tail := es[1..];
      DistinctRanksOnce(tail);
      assert es == [es[0]] + tail;
      forall i | 0 <= i < |tail| ensures tail[i] != es[0] {
        assert tail[i] == es[i + 1];
      }
    }
  }

  /** Reordering entries of distinct ranks keeps them distinct. */
  lemma DistinctRanksOfPermutation(es: seq<Entry>, ps: seq<Entry>)
    requires DistinctRanks(es) && multiset(es) == multiset(ps)
    ensures DistinctRanks(ps)
  {
    DistinctRanksOnce(es);
    forall i, j | 0 <= i < j < |ps| ensures ps[i].rank != ps[j].rank {
      assert ps[i] in multiset(es) && ps[j] in multiset(es);
      var a :| 0 <= a < |es| && es[a] == ps[i];
      var b :| 0 <= b < |es| && es[b] == ps[j];
      assert ps == ps[..j] + ps[j..];
      assert ps[i] in ps[..j] && ps[j] in ps[j..];
      assert ps[i] == ps[j] ==> multiset(ps)[ps[i]] >= 2;
    }
  }

  // ---------------------------------------------------------------------------
  // The airplane and its wings come from the hand

  /** Per card, a gather over distinct ranks holds the card's own rank's share. */
  lemma {:induction false} GatherExact(hand: seq<Card>, k: nat, ks: seq<int>, c: Card)
    requires NoDup(ks)
    ensures multiset(Gather(hand, RankOf, k, ks))[c]
            == if c.rank in ks then multiset(Take(Group(hand, RankOf, c.rank), k))[c] else 0
    decreases |ks|
  {
    if ks != [] {
      var init, last := ks[..|ks| - 1], ks[|ks| - 1];
      NoDupInit(ks);
      GatherExact(hand, k, init, c);
      TakeWithin(Group(hand, RankOf, last), k);
      GroupMultiset(hand, RankOf, last);
    }
  }

  /** The airplane's share of a card and the wing of its rank stay within the
      hand's copies: a wing of an airplane rank holds no card of the airplane. */
  lemma RankShare(hand: seq<Card>, lo: int, n: nat, c: Card)
    requires RunHeld(hand, lo, n, 3)
    ensures var a := Gather(hand, RankOf, 3, RankRange(lo, n));
            multiset(a)[c] + multiset(WingCards(hand, a, c.rank))[c] <= multiset(hand)[c]
  {
    var ks := RankRange(lo, n);
    var a := Gather(hand, RankOf, 3, ks);
    var r := c.rank;
    var g := Group(hand, RankOf, r);
    assert NoDup(ks);
    GatherExact(hand, 3, ks, c);
    GroupMultiset(hand, RankOf, r);
    TakeWithin(g, 3);
    assert multiset(a)[c] <= multiset(hand)[c];
    var w := WingCards(hand, a, r);
    if r in AirplaneRanks(a) {
      var extra := NotIn(g, a);
      NotInMultiset(g, a, c);
      if |g| - 3 >= 2 && |extra| >= 2 {
        assert w == extra[..2];
        PrefixWithin(extra, 2);
      }
      if c !in a {
        assert multiset(a)[c] == 0;
      }
    } else {
      assert c !in a;
      if |g| >= 2 {
        PrefixWithin(g, 2);
      }
    }
  }

  /** What a selection of wing pairs of distinct ranks holds of a card. */
  lemma {:induction false} SelectionCount(hand: seq<Card>, airplane: seq<Card>, sel: seq<Entry>, c: Card)
    requires forall i :: 0 <= i < |sel| ==> WingOf(hand, airplane, sel[i].rank) == [sel[i]]
    requires DistinctRanks(sel)
    ensures multiset(EntryCards(sel))[c] <= multiset(WingCards(hand, airplane, c.rank))[c]
    ensures (forall i :: 0 <= i < |sel| ==> sel[i].rank != c.rank) ==> multiset(EntryCards(sel))[c] == 0
    ensures |EntryCards(sel)| == 2 * |sel|
    decreases |sel|
  {
    if sel != [] {
      var init, e := sel[..|sel| - 1], sel[|sel| - 1];
      SelectionCount(hand, airplane, init, c);
      WingOfFacts(hand, airplane, e.rank);
      assert WingOf(hand, airplane, e.rank) == [e];
      assert e.cards == WingCards(hand, airplane, e.rank);
      if e.rank == c.rank {
        forall i | 0 <= i < |init| ensures init[i].rank != c.rank {
          assert init[i] == sel[i];
        }
      } else {
        assert c !in e.cards;
      }
    }
  }

  /** An airplane over ranks that hold three cards each, with wing pairs of
      distinct ranks on offer for it, uses no card more often than the hand
      holds it, and holds three cards a rank and two a pair. */
  lemma WingsWithinHand(hand: seq<Card>, lo: int, n: nat, sel: seq<Entry>)
    requires RunHeld(hand, lo, n, 3)
    requires forall i :: 0 <= i < |sel| ==>
               WingOf(hand, Gather(hand, RankOf, 3, RankRange(lo, n)), sel[i].rank) == [sel[i]]
    requires DistinctRanks(sel)
    ensures var x := Gather(hand, RankOf, 3, RankRange(lo, n)) + EntryCards(sel);
            |x| == 3 * n + 2 * |sel| && multiset(x) <= multiset(hand)
  {
    var a := Gather(hand, RankOf, 3, RankRange(lo, n));
    AirplaneSize(hand, lo, n);
    SelectionCount(hand, a, sel, Card(1, 3));
    forall c ensures multiset(a + EntryCards(sel))[c] <= multiset(hand)[c] {
      SelectionCount(hand, a, sel, c);
      RankShare(hand, lo, n, c);
    }
  }

  /** `find_airplane_with_wings`: ten cards, none used more often than the hand holds it. */
  lemma LowestWithWingsFromHand(hand: seq<Card>, lo: int)
    requires WingsForLowest(hand, lo)
    ensures var a := Gather(hand, RankOf, 3, RankRange(lo, 2));
            var x := a + LowestPairs(Wings(hand, a), 2);
            |x| == 10 && multiset(x) <= multiset(hand)
  {
    var a := Gather(hand, RankOf, 3, RankRange(lo, 2));
    var w := Wings(hand, a);
    WingsEntries(hand, a);
    SortDescSpec(w, NegRank);
    var sorted := SortDesc(w, NegRank);
    DistinctRanksOfPermutation(w, sorted);
    var sel := sorted[..2];
    forall i | 0 <= i < |sel| ensures WingOf(hand, a, sel[i].rank) == [sel[i]] {
      assert sel[i] in multiset(w);
    }
    WingsWithinHand(hand, lo, 2, sel);
  }

  /** The choices of k entries are k entries of the list, in list order, so
      of distinct ranks when the list's are. */
  lemma CombinationsMembers(xs: seq<Entry>, k: nat, c: seq<Entry>)
    requires c in Combinations(xs, k)
    ensures |c| == k && forall i :: 0 <= i < |c| ==> c[i] in xs
    ensures DistinctRanks(xs) ==> DistinctRanks(c)
  {
    CombinationsWithin(xs, k, c);
    if DistinctRanks(xs) {
      CombinationsDistinct(xs, k, c);
    }
  }

  lemma {:induction false} CombinationsWithin(xs: seq<Entry>, k: nat, c: seq<Entry>)
    requires c in Combinations(xs, k)
    ensures |c| == k && forall i :: 0 <= i < |c| ==> c[i] in xs
    decreases |xs|, 1
  {
    if k == 0 {
      assert c == [];
    } else {
      CombinationsSplit(xs, k, c);
      if c in Combinations(xs[1..], k) {
        CombinationsWithin(xs[1..], k, c);
        RestWithin(xs, c);
      } else {
        PrefixedWithin(xs, k, c);
      }
    }
  }

  lemma PrefixedWithin(xs: seq<Entry>, k: nat, c: seq<Entry>)
    requires xs != [] && k != 0 && c != [] && c[0] == xs[0] && c[1..] in Combinations(xs[1..], k - 1)
    ensures |c| == k && forall i :: 0 <= i < |c| ==> c[i] in xs
    decreases |xs|, 0
  {
    var d := c[1..];
    CombinationsWithin(xs[1..], k - 1, d);
    RestWithin(xs, d);
    assert c == [xs[0]] + d;
    forall i | 0 <= i < |c| ensures c[i] in xs {
      if i > 0 {
        assert c[i] == d[i - 1];
      }
    }
  }

  lemma {:induction false} CombinationsDistinct(xs: seq<Entry>, k: nat, c: seq<Entry>)
    requires c in Combinations(xs, k) && DistinctRanks(xs)
    ensures DistinctRanks(c)
    decreases |xs|, 1
  {
    if k == 0 {
      assert c == [];
    } else {
      CombinationsSplit(xs, k, c);
      TailDistinct(xs);
      if c in Combinations(xs[1..], k) {
        CombinationsDistinct(xs[1..], k, c);
      } else {
        PrefixedDistinct(xs, k, c);
      }
    }
  }

  lemma PrefixedDistinct(xs: seq<Entry>, k: nat, c: seq<Entry>)
    requires xs != [] && k != 0 && c != [] && c[0] == xs[0] && c[1..] in Combinations(xs[1..], k - 1)
    requires DistinctRanks(xs) && DistinctRanks(xs[1..])
    ensures DistinctRanks(c)
    decreases |xs|, 0
  {
    CombinationsDistinct(xs[1..], k - 1, c[1..]);
    CombinationsWithin(xs[1..], k - 1, c[1..]);
    FirstBeforeDistinct(xs, c);
  }

  lemma TailDistinct(xs: seq<Entry>)
    requires xs != [] && DistinctRanks(xs)
    ensures DistinctRanks(xs[1..])
  {
    var rest := xs[1..];
    forall a, b | 0 <= a < b < |rest| ensures rest[a].rank != rest[b].rank {
      assert rest[a] == xs[a + 1] && rest[b] == xs[b + 1];
    }
  }

  /** A choice either takes the first entry and chooses the rest from the
      tail, or chooses all from the tail. */
  lemma CombinationsSplit(xs: seq<Entry>, k: nat, c: seq<Entry>)
    requires k != 0 && xs != [] && c in Combinations(xs, k)
    ensures c in Combinations(xs[1..], k) || (c != [] && c[0] == xs[0] && c[1..] in Combinations(xs[1..], k - 1))
  {
    var withFirst := Combinations(xs[1..], k - 1);
    var prefixed := seq(|withFirst|, i requires 0 <= i < |withFirst| => [xs[0]] + withFirst[i]);
    assert Combinations(xs, k) == prefixed + Combinations(xs[1..], k);
    if c in prefixed {
      var i :| 0 <= i < |prefixed| && prefixed[i] == c;
      assert c[1..] == withFirst[i];
    }
  }

  lemma RestWithin(xs: seq<Entry>, d: seq<Entry>)
    requires xs != [] && forall i :: 0 <= i < |d| ==> d[i] in xs[1..]
    ensures forall i :: 0 <= i < |d| ==> d[i] in xs
  {
    forall i | 0 <= i < |d| ensures d[i] in xs {
      var m :| 0 <= m < |xs[1..]| && xs[1..][m] == d[i];
      assert xs[m + 1] == d[i];
    }
  }

  /** The first entry of a list put before entries from the rest of it. */
  lemma FirstBeforeDistinct(xs: seq<Entry>, c: seq<Entry>)
    requires xs != [] && c != [] && c[0] == xs[0] && DistinctRanks(xs) && DistinctRanks(c[1..])
    requires forall i :: 0 <= i < |c[1..]| ==> c[1..][i] in xs[1..]
    ensures DistinctRanks(c)
  {
    var d := c[1..];
    forall a, b | 0 <= a < b < |c| ensures c[a].rank != c[b].rank {
      if a == 0 {
        var m :| 0 <= m < |xs[1..]| && xs[1..][m] == d[b - 1];
        assert xs[m + 1] == c[b];
      } else {
        assert c[a] == d[a - 1] && c[b] == d[b - 1];
      }
    }
  }

  /** The airplanes with wings listed for one airplane. */
  lemma {:induction false} WithWingsMembers(airplane: seq<Card>, combos: seq<seq<Entry>>, x: seq<Card>)
    requires x in WithWings(airplane, combos)
    ensures exists c :: c in combos && x == airplane + EntryCards(c)
    decreases |combos|
  {
    var init := combos[..|combos| - 1];
    if x in WithWings(airplane, init) {
      WithWingsMembers(airplane, init, x);
      var c :| c in init && x == airplane + EntryCards(c);
      assert c in combos;
    } else {
      assert combos[|combos| - 1] in combos;
    }
  }

  /** One airplane with n wing pairs on offer for it, chosen in one of the ways. */
  ghost predicate WingedChoice(hand: seq<Card>, n: nat, airplane: seq<Card>, x: seq<Card>) {
    |Wings(hand, airplane)| >= n
    && exists c :: c in Combinations(Wings(hand, airplane), n) && x == airplane + EntryCards(c)
  }

  lemma {:induction false} WingedAllMembers(hand: seq<Card>, n: nat, airplanes: seq<seq<Card>>, x: seq<Card>)
    requires x in WingedAll(hand, n, airplanes)
    ensures exists a :: a in airplanes && WingedChoice(hand, n, a, x)
    decreases |airplanes|
  {
    var init, last := airplanes[..|airplanes| - 1], airplanes[|airplanes| - 1];
    if x in WingedAll(hand, n, init) {
      WingedAllMembers(hand, n, init, x);
      var a :| a in init && WingedChoice(hand, n, a, x);
      assert a in airplanes;
    } else {
      assert x in WingedFor(hand, last, n);
      WithWingsMembers(last, Combinations(Wings(hand, last), n), x);
      assert last in airplanes && WingedChoice(hand, n, last, x);
    }
  }

  /** `find_all_airplane_with_wings`: every play listed has exactly the target
      number of cards, and none uses a card more often than the hand holds it. */
  lemma AllWithWingsFromHand(hand: seq<Card>, targetCardCount: int, x: seq<Card>)
    requires x in AllAirplaneWithWings(hand, targetCardCount)
    ensures |x| == targetCardCount && multiset(x) <= multiset(hand)
  {
    var n := targetCardCount / 5;
    WingedAllMembers(hand, n, AllRuns(hand, 3, n), x);
    var a :| a in AllRuns(hand, 3, n) && WingedChoice(hand, n, a, x);
    AllRunsMembers(hand, 3, n, a);
    var lo :| RunCards(hand, 3, n, lo, a);
    var w := Wings(hand, a);
    var c :| c in Combinations(w, n) && x == a + EntryCards(c);
    CombinationsMembers(w, n, c);
    WingsEntries(hand, a);
    WingsWithinHand(hand, lo, n, c);
  }
}

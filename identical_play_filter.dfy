/**
 * The identical-play filter of the Rust AI helpers: cards of one rank in
 * different suits make the same play, so the filter keeps one play per rank
 * (and per run of ranks), choosing suits that do not break a tongzi (three
 * cards of one suit and rank) or a dizha (two cards of every suit of one rank).
 *
 * Every function of the source fills local lists and sets in nested loops; each
 * is a method here, proved equal to a function over the hand, and the lemmas
 * say what those functions mean.
 */
module IdenticalPlayFilter {
  import opened Wrappers
  import opened Cards
  import opened Tally
  import opened RankTallies
  import opened HandAnalysis
  import opened FormationValidator
  import opened ChainFinder

  /** The suit loop `[Spades, Hearts, Clubs, Diamonds]`. */
  const SuitOrder: seq<Suit> := [Spades, Hearts, Clubs, Diamonds]

  /** The rank loop `[Five, ..., Two]`: Three and Four are never visited. */
  const FilterRanks: seq<Rank> := [5, 6, 7, 8, 9, 10, 11, 12, 13, 14, 15]

  lemma SuitOrderCovers()
    ensures forall s: Suit :: s in SuitOrder
  {
    forall s: Suit ensures s in SuitOrder {
      assert s == 1 || s == 2 || s == 3 || s == 4;
    }
  }

  lemma FilterRanksMembers()
    ensures forall r :: r in FilterRanks <==> 5 <= r <= 15
  {
    forall r | 5 <= r <= 15 ensures r in FilterRanks {
      assert FilterRanks[r - 5] == r;
    }
  }

  // ---------------------------------------------------------------------------
  // detect_tongzi

  /** The (suit, rank) entries of one suit, over the listed ranks, with three copies or more. */
  function TongziOfSuit(hand: seq<Card>, s: Suit, rs: seq<Rank>): seq<(Suit, Rank)>
    decreases |rs|
  {
    if rs == [] then []
    else
      var r := rs[|rs| - 1];
      TongziOfSuit(hand, s, rs[..|rs| - 1]) + (if Count(hand, Card(s, r)) >= 3 then [(s, r)] else [])
  }

  function TongziOver(hand: seq<Card>, ss: seq<Suit>): seq<(Suit, Rank)>
    decreases |ss|
  {
    if ss == [] then [] else TongziOver(hand, ss[..|ss| - 1]) + TongziOfSuit(hand, ss[|ss| - 1], FilterRanks)
  }

  /** What `detect_tongzi` lists: suits in loop order, ranks ascending within a suit. */
  function TongziList(hand: seq<Card>): seq<(Suit, Rank)> {
    TongziOver(hand, SuitOrder)
  }

  /** `detect_tongzi`. */
  method DetectTongzi(hand: seq<Card>) returns (tongziList: seq<(Suit, Rank)>)
    ensures tongziList == TongziList(hand)
  {
    tongziList := [];
    assert SuitOrder[..|SuitOrder|] == SuitOrder;
    assert FilterRanks[..|FilterRanks|] == FilterRanks;
    for i := 0 to |SuitOrder|
      invariant tongziList == TongziOver(hand, SuitOrder[..i])
    {
      var suit := SuitOrder[i];
      assert SuitOrder[..i + 1][..i] == SuitOrder[..i];
      ghost var before := tongziList;
      for j := 0 to |FilterRanks|
        invariant tongziList == before + TongziOfSuit(hand, suit, FilterRanks[..j])
      {
        var rank := FilterRanks[j];
        assert FilterRanks[..j + 1][..j] == FilterRanks[..j];
        var count := Count(hand, Card(suit, rank));
        if count >= 3 {
          tongziList := tongziList + [(suit, rank)];
        }
      }
    }
  }

  lemma {:induction false} TongziOfSuitMembers(hand: seq<Card>, s: Suit, rs: seq<Rank>, x: (Suit, Rank))
    ensures x in TongziOfSuit(hand, s, rs) <==> x.0 == s && x.1 in rs && Count(hand, Card(x.0, x.1)) >= 3
    decreases |rs|
  {
    if rs != [] {
      TongziOfSuitMembers(hand, s, rs[..|rs| - 1], x);
      assert rs == rs[..|rs| - 1] + [rs[|rs| - 1]];
    }
  }

  lemma {:induction false} TongziOverMembers(hand: seq<Card>, ss: seq<Suit>, x: (Suit, Rank))
    ensures x in TongziOver(hand, ss) <==> x.0 in ss && x.1 in FilterRanks && Count(hand, Card(x.0, x.1)) >= 3
    decreases |ss|
  {
    if ss != [] {
      TongziOverMembers(hand, ss[..|ss| - 1], x);
      TongziOfSuitMembers(hand, ss[|ss| - 1], FilterRanks, x);
      assert ss == ss[..|ss| - 1] + [ss[|ss| - 1]];
    }
  }

  /** `detect_tongzi` lists (s, r) exactly when r is Five or above and the
      hand holds three or more copies of the card of suit s and rank r. */
  lemma TongziListMembers(hand: seq<Card>, s: Suit, r: Rank)
    ensures (s, r) in TongziList(hand) <==> 5 <= r && Count(hand, Card(s, r)) >= 3
  {
    TongziOverMembers(hand, SuitOrder, (s, r));
    SuitOrderCovers();
    FilterRanksMembers();
  }

  // ---------------------------------------------------------------------------
  // detect_dizha

  /** Every suit holds two copies of the card of rank r. */
  predicate AllSuitsPaired(hand: seq<Card>, r: Rank) {
    forall s: Suit :: Count(hand, Card(s, r)) >= 2
  }

  function DizhaOver(hand: seq<Card>, rs: seq<Rank>): seq<Rank>
    decreases |rs|
  {
    if rs == [] then []
    else DizhaOver(hand, rs[..|rs| - 1]) + (if AllSuitsPaired(hand, rs[|rs| - 1]) then [rs[|rs| - 1]] else [])
  }

  /** What `detect_dizha` lists, ranks ascending. */
  function DizhaList(hand: seq<Card>): seq<Rank> {
    DizhaOver(hand, FilterRanks)
  }

  /** `detect_dizha`: the suit loop stops at the first suit without a pair. */
  method DetectDizha(hand: seq<Card>) returns (dizhaList: seq<Rank>)
    ensures dizhaList == DizhaList(hand)
  {
    dizhaList := [];
    assert FilterRanks[..|FilterRanks|] == FilterRanks;
    for j := 0 to |FilterRanks|
      invariant dizhaList == DizhaOver(hand, FilterRanks[..j])
    {
      var rank := FilterRanks[j];
      assert FilterRanks[..j + 1][..j] == FilterRanks[..j];
      var allSuitsHavePair := true;
      var i := 0;
      while i < |SuitOrder|
        invariant 0 <= i <= |SuitOrder|
        invariant allSuitsHavePair ==> forall i' :: 0 <= i' < i ==> Count(hand, Card(SuitOrder[i'], rank)) >= 2
        invariant !allSuitsHavePair ==> !AllSuitsPaired(hand, rank)
      {
        var count := Count(hand, Card(SuitOrder[i], rank));
        if count < 2 {
          allSuitsHavePair := false;
          break;
        }
        i := i + 1;
      }
      if allSuitsHavePair {
        PairedInOrder(hand, rank);
        dizhaList := dizhaList + [rank];
      }
    }
  }

  lemma PairedInOrder(hand: seq<Card>, r: Rank)
    requires forall i :: 0 <= i < |SuitOrder| ==> Count(hand, Card(SuitOrder[i], r)) >= 2
    ensures AllSuitsPaired(hand, r)
  {
    forall s: Suit ensures Count(hand, Card(s, r)) >= 2 {
      assert s == SuitOrder[4 - s];
    }
  }

  lemma {:induction false} DizhaOverMembers(hand: seq<Card>, rs: seq<Rank>, r: Rank)
    ensures r in DizhaOver(hand, rs) <==> r in rs && AllSuitsPaired(hand, r)
    decreases |rs|
  {
    if rs != [] {
      DizhaOverMembers(hand, rs[..|rs| - 1], r);
      assert rs == rs[..|rs| - 1] + [rs[|rs| - 1]];
    }
  }

  /** `detect_dizha` lists r exactly when r is Five or above and every suit
      holds two copies of rank r. */
  lemma DizhaListMembers(hand: seq<Card>, r: Rank)
    ensures r in DizhaList(hand) <==> 5 <= r && AllSuitsPaired(hand, r)
  {
    DizhaOverMembers(hand, FilterRanks, r);
    FilterRanksMembers();
  }

  // ---------------------------------------------------------------------------
  // get_protected_suits

  /** Taking a card of suit s and rank r would break a tongzi or a dizha. */
  predicate IsProtected(hand: seq<Card>, r: Rank, s: Suit) {
    5 <= r && (Count(hand, Card(s, r)) >= 3 || AllSuitsPaired(hand, r))
  }

  /** The protected suits of rank r. */
  function ProtectedSuits(hand: seq<Card>, r: Rank): set<Suit> {
    set s | s in SuitOrder && IsProtected(hand, r, s)
  }

  /** `get_protected_suits`: the suits of the tongzi at the rank, and every
      suit when the rank is a dizha. */
  method GetProtectedSuits(hand: seq<Card>, rank: Rank) returns (protected: set<Suit>)
    ensures forall s: Suit :: s in protected <==> IsProtected(hand, rank, s)
    ensures protected == ProtectedSuits(hand, rank)
  {
    protected := {};
    var tongziList := DetectTongzi(hand);
    var dizhaList := DetectDizha(hand);
    for i := 0 to |tongziList|
      invariant forall s: Suit :: s in protected <==> (s, rank) in tongziList[..i]
    {
      assert tongziList[..i + 1] == tongziList[..i] + [tongziList[i]];
      var (suit, tongziRank) := tongziList[i];
      if tongziRank == rank {
        protected := protected + {suit};
      }
    }
    assert tongziList[..|tongziList|] == tongziList;
    for j := 0 to |dizhaList|
      invariant forall s: Suit :: s in protected <==> (s, rank) in tongziList || rank in dizhaList[..j]
    {
      assert dizhaList[..j + 1] == dizhaList[..j] + [dizhaList[j]];
      if dizhaList[j] == rank {
        protected := protected + {Spades, Hearts, Clubs, Diamonds};
      }
    }
    assert dizhaList[..|dizhaList|] == dizhaList;
    DizhaListMembers(hand, rank);
    forall s: Suit ensures s in protected <==> IsProtected(hand, rank, s) {
      TongziListMembers(hand, s, rank);
    }
    SuitOrderCovers();
  }

  // ---------------------------------------------------------------------------
  // select_safe_suit

  /** The suit of the first card that is not protected, if any. */
  function FirstUnprotected(cards: seq<Card>, hand: seq<Card>, r: Rank): Option<Suit>
    decreases |cards|
  {
    if cards == [] then None
    else if !IsProtected(hand, r, cards[0].suit) then Some(cards[0].suit)
    else FirstUnprotected(cards[1..], hand, r)
  }

  /** What `select_safe_suit` returns. */
  function SafeSuit(hand: seq<Card>, r: Rank): Option<Suit> {
    var g := Group(hand, RankOf, r);
    if g == [] then None
    else if FirstUnprotected(g, hand, r).Some? then FirstUnprotected(g, hand, r)
    else Some(g[0].suit)
  }

  /** `select_safe_suit`. */
  method SelectSafeSuit(hand: seq<Card>, rank: Rank) returns (suit: Option<Suit>)
    ensures suit == SafeSuit(hand, rank)
  {
    var cardsOfRank := Group(hand, RankOf, rank);
    if cardsOfRank == [] {
      return None;
    }
    var protectedSuits := GetProtectedSuits(hand, rank);
    for i := 0 to |cardsOfRank|
      invariant FirstUnprotected(cardsOfRank[i..], hand, rank) == FirstUnprotected(cardsOfRank, hand, rank)
    {
      assert cardsOfRank[i..][1..] == cardsOfRank[i + 1..];
      if cardsOfRank[i].suit !in protectedSuits {
        return Some(cardsOfRank[i].suit);
      }
    }
    return Some(cardsOfRank[0].suit);
  }

  lemma {:induction false} FirstUnprotectedMeaning(cards: seq<Card>, hand: seq<Card>, r: Rank)
    ensures FirstUnprotected(cards, hand, r).None? <==> forall i :: 0 <= i < |cards| ==> IsProtected(hand, r, cards[i].suit)
    ensures FirstUnprotected(cards, hand, r).Some? ==>
              exists i :: 0 <= i < |cards| && cards[i].suit == FirstUnprotected(cards, hand, r).value
                          && !IsProtected(hand, r, cards[i].suit)
                          && forall j :: 0 <= j < i ==> IsProtected(hand, r, cards[j].suit)
    decreases |cards|
  {
    if cards != [] && IsProtected(hand, r, cards[0].suit) {
      var tail := cards[1..];
      FirstUnprotectedMeaning(tail, hand, r);
      assert forall i :: 0 < i < |cards| ==> cards[i] == tail[i - 1];
      if FirstUnprotected(tail, hand, r).Some? {
        var i :| 0 <= i < |tail| && tail[i].suit == FirstUnprotected(tail, hand, r).value
                 && !IsProtected(hand, r, tail[i].suit)
                 && forall j :: 0 <= j < i ==> IsProtected(hand, r, tail[j].suit);
        assert cards[i + 1] == tail[i];
      }
    }
  }

  /** `select_safe_suit` answers None exactly when the hand holds no card of
      the rank. Otherwise it is the suit of the first card of the rank, in hand
      order, whose suit is not protected, and the first card's suit when every
      card of the rank is protected. */
  lemma SafeSuitMeaning(hand: seq<Card>, r: Rank)
    ensures SafeSuit(hand, r).None? <==> RankCount(hand, r) == 0
    ensures SafeSuit(hand, r).Some? ==>
              var g := Group(hand, RankOf, r);
              exists i :: 0 <= i < |g| && g[i].suit == SafeSuit(hand, r).value
                          && ((!IsProtected(hand, r, g[i].suit) && forall j :: 0 <= j < i ==> IsProtected(hand, r, g[j].suit))
                              || (i == 0 && forall j :: 0 <= j < |g| ==> IsProtected(hand, r, g[j].suit)))
    ensures SafeSuit(hand, r).Some? ==> Card(SafeSuit(hand, r).value, r) in hand
  {
    var g := Group(hand, RankOf, r);
    GroupSize(hand, r);
    FirstUnprotectedMeaning(g, hand, r);
    if g != [] {
      var s := SafeSuit(hand, r).value;
      var i :| 0 <= i < |g| && g[i].suit == s
               && ((!IsProtected(hand, r, g[i].suit) && forall j :: 0 <= j < i ==> IsProtected(hand, r, g[j].suit))
                   || (i == 0 && forall j :: 0 <= j < |g| ==> IsProtected(hand, r, g[j].suit)));
      GroupMembers(hand, RankOf, r);
      GroupMultiset(hand, RankOf, r);
      assert g[i] == Card(s, r);
      assert g[i] in multiset(g);
    }
  }

  // ---------------------------------------------------------------------------
  // filter_singles

  function SinglesOver(hand: seq<Card>, rs: seq<Rank>): seq<seq<Card>>
    decreases |rs|
  {
    if rs == [] then []
    else
      var r := rs[|rs| - 1];
      SinglesOver(hand, rs[..|rs| - 1]) + SingleAt(hand, r)
  }

  /** The single of rank r: the card of the safe suit, none when the hand has no card of the rank. */
  function SingleAt(hand: seq<Card>, r: Rank): seq<seq<Card>> {
    if SafeSuit(hand, r).Some? then [[Card(SafeSuit(hand, r).value, r)]] else []
  }

  /** `hand.iter().find(|c| c.rank == rank && c.suit == suit)`. */
  function Find(hand: seq<Card>, r: Rank, s: Suit): Option<Card>
    decreases |hand|
  {
    if hand == [] then None
    else if hand[0].rank == r && hand[0].suit == s then Some(hand[0])
    else Find(hand[1..], r, s)
  }

  lemma {:induction false} FindMeaning(hand: seq<Card>, r: Rank, s: Suit)
    ensures Find(hand, r, s) == if Card(s, r) in hand then Some(Card(s, r)) else None
    decreases |hand|
  {
    if hand != [] {
      FindMeaning(hand[1..], r, s);
      assert hand == [hand[0]] + hand[1..];
    }
  }

  /** The single one rank contributes: the card of the safe suit, looked up in the hand. */
  method SingleOf(hand: seq<Card>, rank: Rank) returns (play: seq<seq<Card>>)
    ensures play == SingleAt(hand, rank)
  {
    play := [];
    var suit := SelectSafeSuit(hand, rank);
    if suit.Some? {
      SafeSuitMeaning(hand, rank);
      FindMeaning(hand, rank, suit.value);
      var card := Find(hand, rank, suit.value);
      if card.Some? {
        play := [[card.value]];
      }
    }
  }

  lemma SinglesSnoc(hand: seq<Card>, rs: seq<Rank>, i: nat)
    requires i < |rs|
    ensures SinglesOver(hand, rs[..i + 1]) == SinglesOver(hand, rs[..i]) + SingleAt(hand, rs[i])
  {
    assert rs[..i + 1][..i] == rs[..i];
  }

  /** The ranks already seen are all below the rank at position i. */
  predicate SeenBelow(seen: set<Rank>, ranks: seq<Rank>, i: nat) {
    i < |ranks| ==> forall r :: r in seen ==> r < ranks[i]
  }

  lemma SeenStep(seen: set<Rank>, ranks: seq<Rank>, i: nat)
    requires i < |ranks| && StrictlyIncreasing(ranks) && SeenBelow(seen, ranks, i)
    ensures ranks[i] !in seen && SeenBelow(seen + {ranks[i]}, ranks, i + 1)
  {
  }

  /** `filter_singles`: the hand's ranks ascending (`sort_by_key` then
      `dedup`), one single of the safe suit each. */
  method FilterSingles(hand: seq<Card>) returns (singles: seq<seq<Card>>)
    ensures singles == SinglesOver(hand, Ranks(hand))
  {
    singles := [];
    var seenRanks: set<Rank> := {};
    var ranks := Ranks(hand);
    assert ranks[..|ranks|] == ranks;
    for i := 0 to |ranks|
      invariant singles == SinglesOver(hand, ranks[..i])
      invariant SeenBelow(seenRanks, ranks, i)
    {
      var rank := ranks[i];
      SinglesSnoc(hand, ranks, i);
      SeenStep(seenRanks, ranks, i);
      if rank in seenRanks {
        continue;
      }
      seenRanks := seenRanks + {rank};
      var play := SingleOf(hand, rank);
      singles := singles + play;
    }
  }

  /** A play of one card of the hand, of rank r. */
  predicate SingleOfRank(play: seq<Card>, r: Rank, hand: seq<Card>) {
    |play| == 1 && play[0].rank == r && play[0] in hand
  }

  lemma {:induction false} SinglesOverMeaning(hand: seq<Card>, rs: seq<Rank>)
    requires forall i :: 0 <= i < |rs| ==> RankCount(hand, rs[i]) > 0
    ensures |SinglesOver(hand, rs)| == |rs|
    ensures forall i :: 0 <= i < |rs| ==> SingleOfRank(SinglesOver(hand, rs)[i], rs[i], hand)
    decreases |rs|
  {
    if rs != [] {
      var init, r := rs[..|rs| - 1], rs[|rs| - 1];
      SinglesOverMeaning(hand, init);
      SafeSuitMeaning(hand, r);
      var before := SinglesOver(hand, init);
      var last := [Card(SafeSuit(hand, r).value, r)];
      var all := before + [last];
      assert SinglesOver(hand, rs) == all;
      assert SingleOfRank(last, r, hand);
      forall i | 0 <= i < |rs| ensures SingleOfRank(all[i], rs[i], hand) {
        if i < |init| {
          assert all[i] == before[i];
          assert rs[i] == init[i];
        }
      }
    }
  }

  /** `filter_singles` keeps exactly one single per rank of the hand, ranks
      ascending, each a card of the hand. */
  lemma SinglesOnePerRank(hand: seq<Card>)
    ensures var singles := SinglesOver(hand, Ranks(hand));
            |singles| == |Ranks(hand)|
            && forall i :: 0 <= i < |singles| ==>
                 |singles[i]| == 1 && singles[i][0].rank == Ranks(hand)[i] && singles[i][0] in hand
  {
    var rs := Ranks(hand);
    assert forall i :: 0 <= i < |rs| ==> rs[i] in rs;
    SinglesOverMeaning(hand, rs);
  }

  // ---------------------------------------------------------------------------
  // Choosing the cards of one rank

  /** `selected.iter().any(|c| c.suit == s)`. */
  predicate SuitIn(sel: seq<Card>, s: Suit) {
    exists j :: 0 <= j < |sel| && sel[j].suit == s
  }

  /** The suits present in a list of cards. */
  function SuitSet(cards: seq<Card>): set<Suit> {
    set c | c in cards :: c.suit
  }

  /** First pass: the unprotected cards, in order, while fewer than k are chosen. */
  function FirstPass(cards: seq<Card>, protectedSuits: set<Suit>, k: nat): seq<Card>
    decreases |cards|
  {
    if cards == [] then []
    else
      var acc := FirstPass(cards[..|cards| - 1], protectedSuits, k);
      var c := cards[|cards| - 1];
      if c.suit !in protectedSuits && |acc| < k then acc + [c] else acc
  }

  /** Second pass: from `start`, the cards whose suit is not chosen yet, while fewer than k are chosen. */
  function SecondPass(start: seq<Card>, cards: seq<Card>, k: nat): seq<Card>
    decreases |cards|
  {
    if cards == [] then start
    else
      var acc := SecondPass(start, cards[..|cards| - 1], k);
      var c := cards[|cards| - 1];
      if |acc| < k && !SuitIn(acc, c.suit) then acc + [c] else acc
  }

  /** Third pass of `filter_consecutive_pairs`: from `start`, any cards while fewer than k are chosen. */
  function ThirdPass(start: seq<Card>, cards: seq<Card>, k: nat): seq<Card>
    decreases |cards|
  {
    if cards == [] then start
    else
      var acc := ThirdPass(start, cards[..|cards| - 1], k);
      if |acc| < k then acc + [cards[|cards| - 1]] else acc
  }

  /** The cards `filter_pairs` (k = 2) and `filter_triples` (k = 3) choose
      from the cards of rank r; the play is kept only when it has k cards. */
  function Pick(cards: seq<Card>, protectedSuits: set<Suit>, k: nat): seq<Card> {
    var first := FirstPass(cards, protectedSuits, k);
    if |first| < k then SecondPass(first, cards, k) else first
  }

  /** The two cards `filter_consecutive_pairs` chooses from the cards of rank r. */
  function PickFill(cards: seq<Card>, protectedSuits: set<Suit>): seq<Card> {
    var p := Pick(cards, protectedSuits, 2);
    if |p| < 2 then ThirdPass(p, cards, 2) else p
  }

  /** The first two passes over the cards of one rank. */
  method SelectCards(cards: seq<Card>, k: nat, protectedSuits: set<Suit>) returns (selected: seq<Card>)
    ensures selected == Pick(cards, protectedSuits, k)
  {
    selected := [];
    assert cards[..|cards|] == cards;
    for i := 0 to |cards|
      invariant selected == FirstPass(cards[..i], protectedSuits, k)
    {
      assert cards[..i + 1][..i] == cards[..i];
      if cards[i].suit !in protectedSuits && |selected| < k {
        selected := selected + [cards[i]];
      }
    }
    if |selected| < k {
      ghost var first := selected;
      for i := 0 to |cards|
        invariant selected == SecondPass(first, cards[..i], k)
      {
        assert cards[..i + 1][..i] == cards[..i];
        if |selected| < k && !SuitIn(selected, cards[i].suit) {
          selected := selected + [cards[i]];
        }
      }
    }
  }

  /** All three passes of `filter_consecutive_pairs` over the cards of one rank. */
  method SelectFill(cards: seq<Card>, protectedSuits: set<Suit>) returns (selected: seq<Card>)
    ensures selected == PickFill(cards, protectedSuits)
  {
    selected := SelectCards(cards, 2, protectedSuits);
    if |selected| < 2 {
      ghost var picked := selected;
      assert cards[..|cards|] == cards;
      for i := 0 to |cards|
        invariant selected == ThirdPass(picked, cards[..i], 2)
      {
        assert cards[..i + 1][..i] == cards[..i];
        if |selected| < 2 {
          selected := selected + [cards[i]];
        }
      }
    }
  }

  // ---------------------------------------------------------------------------
  // filter_pairs and filter_triples

  /** The (rank, cards) groups over the listed ranks holding k cards or more. */
  function RankGroupsOver(hand: seq<Card>, rs: seq<Rank>, k: nat): seq<(Rank, seq<Card>)>
    decreases |rs|
  {
    if rs == [] then []
    else
      var r := rs[|rs| - 1];
      var g := Group(hand, RankOf, r);
      RankGroupsOver(hand, rs[..|rs| - 1], k) + (if |g| >= k then [(r, g)] else [])
  }

  /** `rank_groups`: Five to Two, the ranks holding k cards or more. */
  function RankGroups(hand: seq<Card>, k: nat): seq<(Rank, seq<Card>)> {
    RankGroupsOver(hand, FilterRanks, k)
  }

  /** The plays chosen from the listed groups: one per group that yields k cards. */
  function PlaysOf(hand: seq<Card>, groups: seq<(Rank, seq<Card>)>, k: nat): seq<seq<Card>>
    decreases |groups|
  {
    if groups == [] then []
    else
      var (r, g) := groups[|groups| - 1];
      var p := Pick(g, ProtectedSuits(hand, r), k);
      PlaysOf(hand, groups[..|groups| - 1], k) + (if |p| == k then [p] else [])
  }

  /** What `filter_pairs` (k = 2) and `filter_triples` (k = 3) return. */
  function KeptPlays(hand: seq<Card>, k: nat): seq<seq<Card>> {
    PlaysOf(hand, RankGroups(hand, k), k)
  }

  /** The ranks of the groups, in order. */
  function GroupRanks(groups: seq<(Rank, seq<Card>)>): seq<Rank> {
    seq(|groups|, i requires 0 <= i < |groups| => groups[i].0)
  }

  /** The first loop of `filter_pairs` and `filter_triples`: the groups of Five to Two. */
  method CollectRankGroups(hand: seq<Card>, k: nat) returns (rankGroups: seq<(Rank, seq<Card>)>)
    ensures rankGroups == RankGroups(hand, k)
  {
    rankGroups := [];
    assert FilterRanks[..|FilterRanks|] == FilterRanks;
    for j := 0 to |FilterRanks|
      invariant rankGroups == RankGroupsOver(hand, FilterRanks[..j], k)
    {
      var rank := FilterRanks[j];
      assert FilterRanks[..j + 1][..j] == FilterRanks[..j];
      var cards := Group(hand, RankOf, rank);
      if |cards| >= k {
        rankGroups := rankGroups + [(rank, cards)];
      }
    }
  }

  /** The second loop: one play per group, skipping ranks already seen. */
  method PlaysFromGroups(hand: seq<Card>, rankGroups: seq<(Rank, seq<Card>)>, k: nat) returns (plays: seq<seq<Card>>)
    requires RanksAscend(rankGroups)
    ensures plays == PlaysOf(hand, rankGroups, k)
  {
    plays := [];
    var seenRanks: set<Rank> := {};
    var ranks := GroupRanks(rankGroups);
    assert StrictlyIncreasing(ranks);
    assert rankGroups[..|rankGroups|] == rankGroups;
    for i := 0 to |rankGroups|
      invariant plays == PlaysOf(hand, rankGroups[..i], k)
      invariant SeenBelow(seenRanks, ranks, i)
    {
      var (rank, cards) := rankGroups[i];
      assert rankGroups[..i + 1][..i] == rankGroups[..i];
      SeenStep(seenRanks, ranks, i);
      if rank in seenRanks {
        continue;
      }
      seenRanks := seenRanks + {rank};
      var protectedSuits := GetProtectedSuits(hand, rank);
      var selected := SelectCards(cards, k, protectedSuits);
      if |selected| == k {
        plays := plays + [selected];
      }
    }
  }

  /** The body shared by `filter_pairs` and `filter_triples`, for k cards a play. */
  method FilterRankGroups(hand: seq<Card>, k: nat) returns (plays: seq<seq<Card>>)
    ensures plays == KeptPlays(hand, k)
  {
    var rankGroups := CollectRankGroups(hand, k);
    RankGroupsIncreasing(hand, k);
    plays := PlaysFromGroups(hand, rankGroups, k);
  }

  /** `filter_pairs`. */
  method FilterPairs(hand: seq<Card>) returns (pairs: seq<seq<Card>>)
    ensures pairs == KeptPlays(hand, 2)
  {
    pairs := FilterRankGroups(hand, 2);
  }

  /** `filter_triples`. */
  method FilterTriples(hand: seq<Card>) returns (triples: seq<seq<Card>>)
    ensures triples == KeptPlays(hand, 3)
  {
    triples := FilterRankGroups(hand, 3);
  }

  lemma FilterRanksIncreasing()
    ensures StrictlyIncreasing(FilterRanks)
  {
    assert forall i :: 0 <= i < |FilterRanks| ==> FilterRanks[i] == i + 5;
  }

  /** The ranks of the groups ascend strictly. */
  predicate RanksAscend(groups: seq<(Rank, seq<Card>)>) {
    forall i, j :: 0 <= i < j < |groups| ==> groups[i].0 < groups[j].0
  }

  /** Each group holds every card of its rank, at least k of them. */
  predicate GroupsFor(hand: seq<Card>, groups: seq<(Rank, seq<Card>)>, k: nat) {
    forall i :: 0 <= i < |groups| ==>
      5 <= groups[i].0 && groups[i].1 == Group(hand, RankOf, groups[i].0) && |groups[i].1| >= k
  }

  lemma {:induction false} RankGroupsOverFacts(hand: seq<Card>, rs: seq<Rank>, k: nat)
    requires StrictlyIncreasing(rs) && forall i :: 0 <= i < |rs| ==> 5 <= rs[i]
    ensures GroupsFor(hand, RankGroupsOver(hand, rs, k), k)
    ensures RanksAscend(RankGroupsOver(hand, rs, k))
    ensures forall i :: 0 <= i < |RankGroupsOver(hand, rs, k)| ==> RankGroupsOver(hand, rs, k)[i].0 in rs
    decreases |rs|
  {
    if rs != [] {
      var init, r := rs[..|rs| - 1], rs[|rs| - 1];
      RankGroupsOverFacts(hand, init, k);
      var before := RankGroupsOver(hand, init, k);
      var g := Group(hand, RankOf, r);
      var last := if |g| >= k then [(r, g)] else [];
      var all := before + last;
      assert RankGroupsOver(hand, rs, k) == all;
      assert forall i :: 0 <= i < |before| ==> before[i].0 < r by {
        forall i | 0 <= i < |before| ensures before[i].0 < r {
          var j :| 0 <= j < |init| && init[j] == before[i].0;
          assert rs[j] < rs[|rs| - 1];
        }
      }
      GroupsSnoc(hand, before, r, last, k);
      assert forall i :: 0 <= i < |all| ==> all[i].0 in rs by {
        forall i | 0 <= i < |all| ensures all[i].0 in rs {
          if i < |before| {
            assert all[i] == before[i];
          }
        }
      }
    }
  }

  lemma GroupsSnoc(hand: seq<Card>, before: seq<(Rank, seq<Card>)>, r: Rank, last: seq<(Rank, seq<Card>)>, k: nat)
    requires GroupsFor(hand, before, k) && RanksAscend(before)
    requires forall i :: 0 <= i < |before| ==> before[i].0 < r
    requires 5 <= r && (last == [] || (last == [(r, Group(hand, RankOf, r))] && |Group(hand, RankOf, r)| >= k))
    ensures GroupsFor(hand, before + last, k) && RanksAscend(before + last)
  {
    var all := before + last;
    assert forall i :: 0 <= i < |before| ==> all[i] == before[i];
  }

  lemma RankGroupsIncreasing(hand: seq<Card>, k: nat)
    ensures GroupsFor(hand, RankGroups(hand, k), k)
    ensures RanksAscend(RankGroups(hand, k))
  {
    FilterRanksIncreasing();
    assert forall i :: 0 <= i < |FilterRanks| ==> 5 <= FilterRanks[i];
    RankGroupsOverFacts(hand, FilterRanks, k);
  }

  // ---------------------------------------------------------------------------
  // What the passes choose

  lemma {:induction false} FirstPassFacts(cards: seq<Card>, prot: set<Suit>, k: nat)
    ensures multiset(FirstPass(cards, prot, k)) <= multiset(cards)
    ensures |FirstPass(cards, prot, k)| <= k
    decreases |cards|
  {
    if cards != [] {
      var init := cards[..|cards| - 1];
      FirstPassFacts(init, prot, k);
      assert cards == init + [cards[|cards| - 1]];
    }
  }

  lemma {:induction false} SecondPassFacts(start: seq<Card>, cards: seq<Card>, k: nat)
    ensures |SecondPass(start, cards, k)| >= |start| && SecondPass(start, cards, k)[..|start|] == start
    ensures |start| <= k ==> |SecondPass(start, cards, k)| <= k
    ensures forall c :: multiset(SecondPass(start, cards, k))[c]
                        <= multiset(start)[c] + (if c in cards && !SuitIn(start, c.suit) then 1 else 0)
    decreases |cards|
  {
    if cards != [] {
      var init, last := cards[..|cards| - 1], cards[|cards| - 1];
      SecondPassFacts(start, init, k);
      var acc := SecondPass(start, init, k);
      assert cards == init + [last];
      if |acc| < k && !SuitIn(acc, last.suit) {
        assert acc + [last] == SecondPass(start, cards, k);
        assert (acc + [last])[..|start|] == acc[..|start|];
        PrefixSuits(start, acc, last.suit);
        InSuitIn(acc, last);
      }
    }
  }

  lemma {:induction false} SecondPassAllSuits(start: seq<Card>, cards: seq<Card>, k: nat)
    requires |SecondPass(start, cards, k)| < k
    ensures forall c :: c in cards ==> SuitIn(SecondPass(start, cards, k), c.suit)
    decreases |cards|
  {
    if cards != [] {
      var init, last := cards[..|cards| - 1], cards[|cards| - 1];
      var acc := SecondPass(start, init, k);
      SecondPassFacts(start, init, k);
      assert |acc| < k;
      SecondPassAllSuits(start, init, k);
      var all := SecondPass(start, cards, k);
      if |acc| < k && !SuitIn(acc, last.suit) {
        assert all[|acc|] == last;
      } else {
        assert all == acc;
      }
      forall c | c in cards ensures SuitIn(all, c.suit) {
        if c != last {
          assert c in init by {
            assert cards == init + [last];
          }
          var j :| 0 <= j < |acc| && acc[j].suit == c.suit;
          assert all[j] == acc[j];
        }
      }
    }
  }

  /** The cards chosen for a rank are cards of that rank's group, at most k of them. */
  lemma PickWithin(g: seq<Card>, prot: set<Suit>, k: nat)
    ensures multiset(Pick(g, prot, k)) <= multiset(g) && |Pick(g, prot, k)| <= k
  {
    var first := FirstPass(g, prot, k);
    FirstPassFacts(g, prot, k);
    if |first| < k {
      SecondPassFacts(first, g, k);
      var p := SecondPass(first, g, k);
      forall c ensures multiset(p)[c] <= multiset(g)[c] {
        InSuitIn(first, c);
      }
    }
  }

  lemma {:induction false} SuitSetSize(cards: seq<Card>)
    ensures |SuitSet(cards)| <= |cards|
    decreases |cards|
  {
    if cards != [] {
      var init, last := cards[..|cards| - 1], cards[|cards| - 1];
      SuitSetSize(init);
      assert cards == init + [last];
      assert SuitSet(cards) == SuitSet(init) + {last.suit};
    }
  }

  /** When the cards of a rank show at least k different suits, the passes
      choose k cards. */
  lemma PickFull(g: seq<Card>, prot: set<Suit>, k: nat)
    requires |SuitSet(g)| >= k
    ensures |Pick(g, prot, k)| == k
  {
    var first := FirstPass(g, prot, k);
    FirstPassFacts(g, prot, k);
    PickWithin(g, prot, k);
    if |first| < k {
      var p := SecondPass(first, g, k);
      if |p| < k {
        SecondPassAllSuits(first, g, k);
        assert SuitSet(g) <= SuitSet(p) by {
          forall s | s in SuitSet(g) ensures s in SuitSet(p) {
            var c :| c in g && c.suit == s;
            var j :| 0 <= j < |p| && p[j].suit == s;
            assert p[j] in p;
          }
        }
        SubsetSize(SuitSet(g), SuitSet(p));
        SuitSetSize(p);
        assert false;
      }
    }
  }

  lemma SubsetSize<T>(a: set<T>, b: set<T>)
    requires a <= b
    ensures |a| <= |b|
  {
    assert b == a + (b - a);
  }

  lemma InSuitIn(sel: seq<Card>, c: Card)
    ensures c in sel ==> SuitIn(sel, c.suit)
  {
    if c in sel {
      var j :| 0 <= j < |sel| && sel[j] == c;
    }
  }

  lemma PrefixSuits(start: seq<Card>, acc: seq<Card>, s: Suit)
    requires |start| <= |acc| && acc[..|start|] == start
    ensures SuitIn(start, s) ==> SuitIn(acc, s)
  {
    if SuitIn(start, s) {
      var j :| 0 <= j < |start| && start[j].suit == s;
      assert acc[j] == start[j];
    }
  }

  // ---------------------------------------------------------------------------
  // What filter_pairs and filter_triples keep

  /** The rank of a play's first card (0 for no cards). */
  function Lead(p: seq<Card>): int {
    if p == [] then 0 else p[0].rank
  }

  /** k cards of the hand, all of rank r. */
  predicate PlayOfRank(p: seq<Card>, r: int, k: nat, hand: seq<Card>) {
    |p| == k && (forall j :: 0 <= j < |p| ==> p[j].rank == r) && multiset(p) <= multiset(hand)
  }

  /** A play picked from the group of rank r, when it has k cards, is k cards of the hand of rank r. */
  lemma PickIsPlay(hand: seq<Card>, r: Rank, k: nat)
    requires |Pick(Group(hand, RankOf, r), ProtectedSuits(hand, r), k)| == k
    ensures PlayOfRank(Pick(Group(hand, RankOf, r), ProtectedSuits(hand, r), k), r, k, hand)
  {
    var g := Group(hand, RankOf, r);
    var p := Pick(g, ProtectedSuits(hand, r), k);
    PickWithin(g, ProtectedSuits(hand, r), k);
    GroupMultiset(hand, RankOf, r);
    forall j | 0 <= j < |p| ensures p[j].rank == r {
      assert p[j] in multiset(g);
      assert multiset(g)[p[j]] > 0;
    }
  }

  /** The ranks of the groups, as a set. */
  function RankSet(groups: seq<(Rank, seq<Card>)>): set<int> {
    set g | g in groups :: g.0
  }

  lemma RankSetBelow(groups: seq<(Rank, seq<Card>)>, r: int)
    requires forall i :: 0 <= i < |groups| ==> groups[i].0 < r
    ensures forall x :: x in RankSet(groups) ==> x < r
  {
    forall x | x in RankSet(groups) ensures x < r {
      var g :| g in groups && g.0 == x;
      var j :| 0 <= j < |groups| && groups[j] == g;
    }
  }

  /** Plays of the hand, each of one rank taken from `ranks`, ascending. */
  predicate RankedPlays(plays: seq<seq<Card>>, ranks: set<int>, k: nat, hand: seq<Card>) {
    (forall i :: 0 <= i < |plays| ==> PlayOfRank(plays[i], Lead(plays[i]), k, hand))
    && (forall i :: 0 <= i < |plays| ==> Lead(plays[i]) in ranks)
    && (forall i, j :: 0 <= i < j < |plays| ==> Lead(plays[i]) < Lead(plays[j]))
  }

  lemma AppendPlay(before: seq<seq<Card>>, p: seq<Card>, ranks: set<int>, r: int, k: nat, hand: seq<Card>)
    requires RankedPlays(before, ranks, k, hand) && forall x :: x in ranks ==> x < r
    requires PlayOfRank(p, r, k, hand) && Lead(p) == r
    ensures RankedPlays(before + [p], ranks + {r}, k, hand)
  {
    var plays := before + [p];
    assert forall i :: 0 <= i < |before| ==> plays[i] == before[i];
  }

  lemma {:induction false} PlaysOfFacts(hand: seq<Card>, groups: seq<(Rank, seq<Card>)>, k: nat)
    requires k >= 1 && GroupsFor(hand, groups, k) && RanksAscend(groups)
    ensures RankedPlays(PlaysOf(hand, groups, k), RankSet(groups), k, hand)
    decreases |groups|
  {
    if groups != [] {
      var init := groups[..|groups| - 1];
      var (r, g) := groups[|groups| - 1];
      assert GroupsFor(hand, init, k) && RanksAscend(init);
      PlaysOfFacts(hand, init, k);
      assert groups == init + [(r, g)];
      PlaysOfStep(hand, init, r, g, k);
    }
  }

  /** One more group, of a rank above all earlier ones, keeps the plays ranked. */
  lemma PlaysOfStep(hand: seq<Card>, init: seq<(Rank, seq<Card>)>, r: Rank, g: seq<Card>, k: nat)
    requires k >= 1 && RankedPlays(PlaysOf(hand, init, k), RankSet(init), k, hand)
    requires forall i :: 0 <= i < |init| ==> init[i].0 < r
    requires g == Group(hand, RankOf, r)
    ensures RankedPlays(PlaysOf(hand, init + [(r, g)], k), RankSet(init + [(r, g)]), k, hand)
  {
    var before := PlaysOf(hand, init, k);
    var p := Pick(g, ProtectedSuits(hand, r), k);
    PlaysOfAppend(hand, init, r, g, k);
    RankSetAppend(init, r, g);
    if |p| == k {
      PickIsPlay(hand, r, k);
      RankSetBelow(init, r);
      AppendPlay(before, p, RankSet(init), r, k, hand);
    } else {
      WidenRanks(before, RankSet(init), r, k, hand);
    }
  }

  lemma PlaysOfAppend(hand: seq<Card>, init: seq<(Rank, seq<Card>)>, r: Rank, g: seq<Card>, k: nat)
    ensures var p := Pick(g, ProtectedSuits(hand, r), k);
            PlaysOf(hand, init + [(r, g)], k) == PlaysOf(hand, init, k) + (if |p| == k then [p] else [])
  {
    var groups := init + [(r, g)];
    assert groups[..|groups| - 1] == init;
  }

  lemma RankSetAppend(init: seq<(Rank, seq<Card>)>, r: Rank, g: seq<Card>)
    ensures RankSet(init + [(r, g)]) == RankSet(init) + {r}
  {
    var groups := init + [(r, g)];
    forall x | x in RankSet(groups) ensures x in RankSet(init) + {r} {
      var e :| e in groups && e.0 == x;
      var j :| 0 <= j < |groups| && groups[j] == e;
      if j < |init| {
        assert init[j] in init;
      }
    }
    forall x | x in RankSet(init) ensures x in RankSet(groups) {
      var e :| e in init && e.0 == x;
      var j :| 0 <= j < |init| && init[j] == e;
      assert groups[j] == e;
    }
    assert groups[|init|] == (r, g);
  }

  lemma WidenRanks(plays: seq<seq<Card>>, ranks: set<int>, r: int, k: nat, hand: seq<Card>)
    requires RankedPlays(plays, ranks, k, hand)
    ensures RankedPlays(plays, ranks + {r}, k, hand)
  {
  }

  lemma {:induction false} RankGroupsOverHas(hand: seq<Card>, rs: seq<Rank>, k: nat, r: Rank)
    requires r in rs && |Group(hand, RankOf, r)| >= k
    ensures (r, Group(hand, RankOf, r)) in RankGroupsOver(hand, rs, k)
    decreases |rs|
  {
    var init := rs[..|rs| - 1];
    if rs[|rs| - 1] != r {
      assert rs == init + [rs[|rs| - 1]];
      RankGroupsOverHas(hand, init, k, r);
    }
  }

  lemma {:induction false} PlaysOfHas(hand: seq<Card>, groups: seq<(Rank, seq<Card>)>, k: nat, r: Rank, g: seq<Card>)
    requires (r, g) in groups && |Pick(g, ProtectedSuits(hand, r), k)| == k
    ensures Pick(g, ProtectedSuits(hand, r), k) in PlaysOf(hand, groups, k)
    decreases |groups|
  {
    var init := groups[..|groups| - 1];
    if groups[|groups| - 1] != (r, g) {
      assert groups == init + [groups[|groups| - 1]];
      PlaysOfHas(hand, init, k, r, g);
    }
  }

  /** A rank from Five up whose cards show k different suits always gets a play. */
  lemma KeptPlaysComplete(hand: seq<Card>, k: nat, r: Rank)
    requires k >= 1 && 5 <= r && |SuitSet(Group(hand, RankOf, r))| >= k
    ensures exists p: seq<Card> :: p in KeptPlays(hand, k) && |p| == k && Lead(p) == r
  {
    var g := Group(hand, RankOf, r);
    SuitSetSize(g);
    FilterRanksMembers();
    RankGroupsOverHas(hand, FilterRanks, k, r);
    PickFull(g, ProtectedSuits(hand, r), k);
    PlaysOfHas(hand, RankGroups(hand, k), k, r, g);
    PickIsPlay(hand, r, k);
  }

  /** Every play `filter_pairs` (k = 2) or `filter_triples` (k = 3) keeps is k
      cards of the hand, all of one rank from Five up, and the plays come in
      strictly ascending rank order, so no rank is kept twice. */
  lemma KeptPlaysSound(hand: seq<Card>, k: nat)
    requires k >= 1
    ensures var plays := KeptPlays(hand, k);
            && (forall i :: 0 <= i < |plays| ==> PlayOfRank(plays[i], Lead(plays[i]), k, hand) && 5 <= Lead(plays[i]))
            && (forall i, j :: 0 <= i < j < |plays| ==> Lead(plays[i]) < Lead(plays[j]))
  {
    var groups := RankGroups(hand, k);
    RankGroupsIncreasing(hand, k);
    PlaysOfFacts(hand, groups, k);
    FilterRanksIncreasing();
    RankGroupsOverFacts(hand, FilterRanks, k);
    forall x | x in RankSet(groups) ensures 5 <= x {
      var g :| g in groups && g.0 == x;
    }
  }

  // ---------------------------------------------------------------------------
  // filter_consecutive_pairs

  /** The cards chosen for a run, rank by rank: two cards of each rank. */
  function RunPick(hand: seq<Card>, rs: seq<int>): seq<Card>
    decreases |rs|
  {
    if rs == [] then []
    else
      var r := rs[|rs| - 1];
      RunPick(hand, rs[..|rs| - 1]) + (if 3 <= r <= 15 then PickFill(Group(hand, RankOf, r), ProtectedSuits(hand, r)) else [])
  }

  /** The keys (first rank, length) of the windows of n ranks of v that start
      before m and step by one, left to right. */
  function RunWindows(v: seq<Rank>, n: nat, m: nat): seq<(int, nat)>
    requires n >= 1 && (m == 0 || m - 1 + n <= |v|)
    decreases m
  {
    if m == 0 then []
    else RunWindows(v, n, m - 1) + (if Steps(v, m - 1, n) then [(v[m - 1] as int, n)] else [])
  }

  /** The keys of the runs of every length from 2 below n (and at most |v|), shortest first. */
  function LengthWindows(v: seq<Rank>, n: nat): seq<(int, nat)>
    decreases n
  {
    if n <= 2 then []
    else LengthWindows(v, n - 1) + (if n - 1 <= |v| then RunWindows(v, n - 1, |v| - (n - 1) + 1) else [])
  }

  /** The play chosen for each run key, in order (the length check of the
      source always passes: every rank of a run holds two cards, see
      RunPickFacts). */
  function RunPlays(hand: seq<Card>, runs: seq<(int, nat)>): seq<seq<Card>>
    decreases |runs|
  {
    if runs == [] then []
    else
      var key := runs[|runs| - 1];
      RunPlays(hand, runs[..|runs| - 1]) + [RunPick(hand, RankRange(key.0, key.1))]
  }

  /** The keys of the runs `filter_consecutive_pairs` looks at, over the ranks holding pairs. */
  function PairRuns(hand: seq<Card>): seq<(int, nat)> {
    var v := RanksHolding(hand, 2);
    LengthWindows(v, |v| + 1)
  }

  /** What `filter_consecutive_pairs` returns. */
  function ConsecutivePairPlays(hand: seq<Card>): seq<seq<Card>> {
    RunPlays(hand, PairRuns(hand))
  }

  /** `is_consecutive_ranks`. */
  method IsConsecutiveRanks(ranks: seq<Rank>) returns (consecutive: bool)
    ensures consecutive <==> |ranks| >= 2 && Steps(ranks, 0, |ranks|)
  {
    if |ranks| < 2 {
      return false;
    }
    for i := 1 to |ranks|
      invariant forall j :: 0 <= j < i - 1 ==> StepAt(ranks, j)
    {
      if ranks[i] as int != ranks[i - 1] as int + 1 {
        assert !StepAt(ranks, i - 1);
        return false;
      }
    }
    return true;
  }

  /** The per-rank loop over one run. */
  method SelectRun(hand: seq<Card>, ranks: seq<Rank>) returns (selectedCards: seq<Card>)
    ensures selectedCards == RunPick(hand, ranks)
  {
    selectedCards := [];
    assert ranks[..|ranks|] == ranks;
    for t := 0 to |ranks|
      invariant selectedCards == RunPick(hand, ranks[..t])
    {
      assert ranks[..t + 1][..t] == ranks[..t];
      var rank := ranks[t];
      var cardsOfRank := Group(hand, RankOf, rank);
      var protectedSuits := GetProtectedSuits(hand, rank);
      var selected := SelectFill(cardsOfRank, protectedSuits);
      selectedCards := selectedCards + selected;
    }
  }

  /** Distinct ranks, ascending, each holding at least two cards of the hand. */
  predicate HoldsPairs(hand: seq<Card>, v: seq<int>) {
    StrictlyIncreasing(v) && forall t :: 0 <= t < |v| ==> RankCount(hand, v[t]) >= 2
  }

  lemma RanksHoldingPairs(hand: seq<Card>)
    ensures HoldsPairs(hand, RanksHolding(hand, 2))
  {
    var v := RanksHolding(hand, 2);
    assert forall t :: 0 <= t < |v| ==> v[t] in v;
  }

  lemma HoldsPairsSlice(hand: seq<Card>, v: seq<Rank>, i: nat, n: nat)
    requires HoldsPairs(hand, v) && i + n <= |v|
    ensures HoldsPairs(hand, v[i..i + n])
  {
    var w := v[i..i + n];
    assert forall t :: 0 <= t < n ==> w[t] == v[i + t];
  }

  /** Every key seen so far has a shorter length, or this length and a start below v[i]. */
  predicate KeysBelow(seen: set<(Rank, nat)>, v: seq<Rank>, n: nat, i: nat) {
    forall key :: key in seen ==> key.1 < n || (key.1 == n && i < |v| && key.0 < v[i])
  }

  lemma KeyStep(seen: set<(Rank, nat)>, v: seq<Rank>, n: nat, i: nat)
    requires StrictlyIncreasing(v) && i + 1 < |v| && KeysBelow(seen, v, n, i)
    ensures (v[i], n) !in seen
    ensures KeysBelow(seen, v, n, i + 1) && KeysBelow(seen + {(v[i], n)}, v, n, i + 1)
  {
  }

  lemma KeysNextLength(seen: set<(Rank, nat)>, v: seq<Rank>, n: nat, i: nat)
    requires KeysBelow(seen, v, n, i)
    ensures KeysBelow(seen, v, n + 1, 0)
  {
  }

  /** One window of the scan: the play of the run starting at v[i], when the
      window steps by one. */
  method ScanWindow(hand: seq<Card>, validRanks: seq<Rank>, length: nat, i: nat, seen: set<(Rank, nat)>)
    returns (found: seq<seq<Card>>, seenSequences: set<(Rank, nat)>)
    requires HoldsPairs(hand, validRanks) && 2 <= length && i + length <= |validRanks|
    requires KeysBelow(seen, validRanks, length, i)
    ensures found == RunPlays(hand, if Steps(validRanks, i, length) then [(validRanks[i] as int, length)] else [])
    ensures KeysBelow(seenSequences, validRanks, length, i + 1)
  {
    found, seenSequences := [], seen;
    var ranks := validRanks[i..i + length];
    KeyStep(seen, validRanks, length, i);
    SliceSteps(validRanks, i, length);
    var consecutive := IsConsecutiveRanks(ranks);
    if consecutive {
      var sequenceKey := (ranks[0], length);
      if sequenceKey in seenSequences {
        return;
      }
      seenSequences := seenSequences + {sequenceKey};
      var selectedCards := SelectRun(hand, ranks);
      HoldsPairsSlice(hand, validRanks, i, length);
      RunPickFacts(hand, ranks);
      if |selectedCards| == length * 2 {
        found := [selectedCards];
      }
      WindowIsRange(validRanks, i, length);
      assert RunPlays(hand, [(validRanks[i] as int, length)]) == [RunPick(hand, ranks)];
    }
  }

  /** One length of the scan: every window of `length` ranks, left to right. */
  method ScanLength(hand: seq<Card>, validRanks: seq<Rank>, length: nat, seen0: set<(Rank, nat)>)
    returns (found: seq<seq<Card>>, seenSequences: set<(Rank, nat)>)
    requires HoldsPairs(hand, validRanks) && 2 <= length <= |validRanks|
    requires KeysBelow(seen0, validRanks, length, 0)
    ensures found == RunPlays(hand, RunWindows(validRanks, length, |validRanks| - length + 1))
    ensures KeysBelow(seenSequences, validRanks, length + 1, 0)
  {
    found := [];
    seenSequences := seen0;
    for i := 0 to |validRanks| - length + 1
      invariant found == RunPlays(hand, RunWindows(validRanks, length, i))
      invariant KeysBelow(seenSequences, validRanks, length, i)
    {
      var window;
      window, seenSequences := ScanWindow(hand, validRanks, length, i, seenSequences);
      WindowStep(validRanks, length, i);
      RunPlaysAppend(hand, RunWindows(validRanks, length, i),
                     if Steps(validRanks, i, length) then [(validRanks[i] as int, length)] else []);
      found := found + window;
    }
    KeysNextLength(seenSequences, validRanks, length, |validRanks| - length + 1);
  }

  /** The outer loop over lengths 2 to |validRanks|. */
  method ScanLengths(hand: seq<Card>, validRanks: seq<Rank>) returns (result: seq<seq<Card>>)
    requires HoldsPairs(hand, validRanks) && |validRanks| >= 2
    ensures result == RunPlays(hand, LengthWindows(validRanks, |validRanks| + 1))
  {
    result := [];
    var seenSequences: set<(Rank, nat)> := {};
    for length := 2 to |validRanks| + 1
      invariant result == RunPlays(hand, LengthWindows(validRanks, length))
      invariant KeysBelow(seenSequences, validRanks, length, 0)
    {
      var found;
      found, seenSequences := ScanLength(hand, validRanks, length, seenSequences);
      LengthPlaysStep(hand, validRanks, length);
      result := result + found;
    }
  }

  /** `filter_consecutive_pairs`: every length from 2, every window of that
      many ranks holding pairs, one play per run found. */
  method FilterConsecutivePairs(hand: seq<Card>) returns (result: seq<seq<Card>>)
    ensures result == ConsecutivePairPlays(hand)
  {
    var validRanks := RanksHolding(hand, 2);
    if |validRanks| < 2 {
      return [];
    }
    RanksHoldingPairs(hand);
    result := ScanLengths(hand, validRanks);
  }

  lemma LengthStep(v: seq<Rank>, n: nat)
    requires 2 <= n <= |v|
    ensures LengthWindows(v, n + 1) == LengthWindows(v, n) + RunWindows(v, n, |v| - n + 1)
  {
  }

  /** The plays up to one more length are those before it and those of the length. */
  lemma LengthPlaysStep(hand: seq<Card>, v: seq<Rank>, n: nat)
    requires 2 <= n <= |v|
    ensures RunPlays(hand, LengthWindows(v, n + 1))
            == RunPlays(hand, LengthWindows(v, n)) + RunPlays(hand, RunWindows(v, n, |v| - n + 1))
  {
    LengthStep(v, n);
    RunPlaysAppend(hand, LengthWindows(v, n), RunWindows(v, n, |v| - n + 1));
  }

  lemma WindowStep(v: seq<Rank>, n: nat, i: nat)
    requires n >= 1 && i + n <= |v|
    ensures RunWindows(v, n, i + 1) == RunWindows(v, n, i) + (if Steps(v, i, n) then [(v[i] as int, n)] else [])
  {
  }

  lemma {:induction false} RunPlaysAppend(hand: seq<Card>, a: seq<(int, nat)>, b: seq<(int, nat)>)
    ensures RunPlays(hand, a + b) == RunPlays(hand, a) + RunPlays(hand, b)
    decreases |b|
  {
    if b != [] {
      var init, last := b[..|b| - 1], b[|b| - 1];
      assert b == init + [last];
      assert a + b == (a + init) + [last];
      RunPlaysAppend(hand, a, init);
      RunPlaysSnoc(hand, init, last);
      RunPlaysSnoc(hand, a + init, last);
    } else {
      assert a + b == a;
    }
  }

  lemma RunPlaysSnoc(hand: seq<Card>, runs: seq<(int, nat)>, key: (int, nat))
    ensures RunPlays(hand, runs + [key]) == RunPlays(hand, runs) + [RunPick(hand, RankRange(key.0, key.1))]
  {
    assert (runs + [key])[..|runs|] == runs;
  }

  /** The steps of a window are the steps of its slice. */
  lemma SliceSteps(v: seq<int>, i: nat, n: nat)
    requires i + n <= |v|
    ensures Steps(v[i..i + n], 0, n) <==> Steps(v, i, n)
  {
    var w := v[i..i + n];
    assert forall j :: 0 <= j < n ==> w[j] == v[i + j];
    assert Steps(v, i, n) ==> Steps(w, 0, n) by {
      if Steps(v, i, n) {
        forall j | 0 <= j < n - 1 ensures StepAt(w, j) {
          assert StepAt(v, i + j);
        }
      }
    }
    assert Steps(w, 0, n) ==> Steps(v, i, n) by {
      if Steps(w, 0, n) {
        forall j | i <= j < i + n - 1 ensures StepAt(v, j) {
          assert StepAt(w, j - i);
        }
      }
    }
  }

  /** When the first two passes over two or more cards of one rank choose
      fewer than two, they chose one card and every card is a copy of it. */
  lemma PickShort(g: seq<Card>, prot: set<Suit>, r: Rank)
    requires |g| >= 2 && forall j :: 0 <= j < |g| ==> g[j].rank == r
    requires |Pick(g, prot, 2)| < 2
    ensures |Pick(g, prot, 2)| == 1 && forall j :: 0 <= j < |g| ==> g[j] == Pick(g, prot, 2)[0]
  {
    var p := Pick(g, prot, 2);
    var first := FirstPass(g, prot, 2);
    FirstPassFacts(g, prot, 2);
    SecondPassAllSuits(first, g, 2);
    assert g[0] in g;
    if |p| == 0 {
      assert false;
    }
    assert p == [p[0]];
    PickWithin(g, prot, 2);
    assert p[0] in multiset(g);
    var i :| 0 <= i < |g| && g[i] == p[0];
    OneSuitOneCard(p[0], g, r);
  }

  /** Two or more cards of one rank always give two of them. */
  lemma PickFillFacts(g: seq<Card>, prot: set<Suit>, r: Rank)
    requires |g| >= 2 && forall j :: 0 <= j < |g| ==> g[j].rank == r
    ensures |PickFill(g, prot)| == 2 && multiset(PickFill(g, prot)) <= multiset(g)
  {
    var p := Pick(g, prot, 2);
    PickWithin(g, prot, 2);
    if |p| < 2 {
      PickShort(g, prot, r);
      ThirdPassShape(p, g, 2);
      assert PickFill(g, prot) == [g[0], g[0]];
      assert multiset(g)[g[0]] >= 2 by {
        assert g == [g[0], g[1]] + g[2..];
      }
    }
  }

  /** The two cards chosen for a rank holding two or more: cards of the hand of that rank. */
  lemma PickFillOfRank(hand: seq<Card>, r: Rank)
    requires RankCount(hand, r) >= 2
    ensures var p := PickFill(Group(hand, RankOf, r), ProtectedSuits(hand, r));
            |p| == 2 && (forall x :: x in p ==> x.rank == r) && multiset(p) <= multiset(hand)
  {
    var g := Group(hand, RankOf, r);
    var p := PickFill(g, ProtectedSuits(hand, r));
    GroupSize(hand, r);
    GroupMembers(hand, RankOf, r);
    PickFillFacts(g, ProtectedSuits(hand, r), r);
    GroupMultiset(hand, RankOf, r);
    forall x | x in p ensures x.rank == r {
      assert x in multiset(g);
      var i :| 0 <= i < |g| && g[i] == x;
    }
  }

  lemma ThirdPassShape(start: seq<Card>, cards: seq<Card>, k: nat)
    requires |start| <= k
    ensures var n := if |cards| < k - |start| then |cards| else k - |start|;
            ThirdPass(start, cards, k) == start + cards[..n]
    decreases |cards|
  {
    if cards != [] {
      var init := cards[..|cards| - 1];
      ThirdPassShape(start, init, k);
      var n := if |init| < k - |start| then |init| else k - |start|;
      assert init[..n] == cards[..n];
      if |ThirdPass(start, init, k)| < k {
        assert cards[..n + 1] == init[..n] + [cards[|cards| - 1]];
      }
    }
  }

  /** Cards of one rank whose suits all equal that of c are all c. */
  lemma OneSuitOneCard(c: Card, g: seq<Card>, r: Rank)
    requires forall j :: 0 <= j < |g| ==> g[j].rank == r
    requires c.rank == r && forall x :: x in g ==> SuitIn([c], x.suit)
    ensures forall j :: 0 <= j < |g| ==> g[j] == c
  {
    forall j | 0 <= j < |g| ensures g[j] == c {
      assert g[j] in g;
    }
  }

  /** A rank that holds a card is a rank. */
  lemma PairRankInRange(hand: seq<Card>, r: int)
    requires RankCount(hand, r) >= 1
    ensures 3 <= r <= 15
  {
    if r < 3 || 15 < r {
      RankCountOutOfRange(hand, r);
    }
  }

  /** The cards of a run of distinct ranks, each holding two cards: two cards
      of every rank in order, all of them cards of the hand. */
  lemma {:induction false} RunPickFacts(hand: seq<Card>, rs: seq<int>)
    requires HoldsPairs(hand, rs)
    ensures |RunPick(hand, rs)| == 2 * |rs|
    ensures forall j :: 0 <= j < |RunPick(hand, rs)| ==> RunPick(hand, rs)[j].rank == rs[j / 2]
    ensures multiset(RunPick(hand, rs)) <= multiset(hand)
    decreases |rs|
  {
    if rs != [] {
      var init, r := rs[..|rs| - 1], rs[|rs| - 1];
      assert HoldsPairs(hand, init);
      RunPickFacts(hand, init);
      var before := RunPick(hand, init);
      PairRankInRange(hand, r);
      var p := PickFill(Group(hand, RankOf, r), ProtectedSuits(hand, r));
      PickFillOfRank(hand, r);
      var all: seq<Card> := before + p;
      assert RunPick(hand, rs) == all;
      forall j | 0 <= j < |all| ensures all[j].rank == rs[j / 2] {
        if j < |before| {
          assert all[j] == before[j];
          assert j / 2 < |init|;
          assert rs[j / 2] == init[j / 2];
        } else {
          assert all[j] == p[j - |before|] && all[j] in p;
          assert j / 2 == |init|;
        }
      }
      forall x | x in before ensures x.rank < r {
        var j :| 0 <= j < |before| && before[j] == x;
        assert init[j / 2] == rs[j / 2];
      }
      forall c ensures multiset(all)[c] <= multiset(hand)[c] {
        if c.rank == r {
          assert c !in before;
        } else {
          assert c !in p;
        }
      }
    }
  }

  // ---------------------------------------------------------------------------
  // Which runs filter_consecutive_pairs lists

  /** key is the key of the window of L ranks of v starting at j, a window that steps by one. */
  predicate WindowAt(v: seq<Rank>, L: nat, j: int, key: (int, nat)) {
    0 <= j && j + L <= |v| && L >= 1 && Steps(v, j, L) && key == (v[j] as int, L)
  }

  /** key is among the keys listed for length L. */
  predicate ListedAt(v: seq<Rank>, L: nat, key: (int, nat)) {
    1 <= L <= |v| && key in RunWindows(v, L, |v| - L + 1)
  }

  /** The ranks lo..lo+n-1 form a run of n >= 2 ranks that all hold two cards. */
  predicate PairRun(hand: seq<Card>, lo: int, n: nat) {
    n >= 2 && RunHeld(hand, lo, n, 2)
  }

  lemma {:induction false} RunWindowsMembers(v: seq<Rank>, n: nat, m: nat, key: (int, nat))
    requires n >= 1 && (m == 0 || m - 1 + n <= |v|)
    requires key in RunWindows(v, n, m)
    ensures exists j :: 0 <= j < m && WindowAt(v, n, j, key)
    decreases m
  {
    var last: seq<(int, nat)> := if Steps(v, m - 1, n) then [(v[m - 1] as int, n)] else [];
    assert RunWindows(v, n, m) == RunWindows(v, n, m - 1) + last;
    if key in RunWindows(v, n, m - 1) {
      RunWindowsMembers(v, n, m - 1, key);
      var j :| 0 <= j < m - 1 && WindowAt(v, n, j, key);
      assert 0 <= j < m && WindowAt(v, n, j, key);
    } else {
      assert WindowAt(v, n, m - 1, key);
    }
  }

  lemma {:induction false} LengthWindowsMembers(v: seq<Rank>, n: nat, key: (int, nat))
    requires key in LengthWindows(v, n)
    ensures exists L: nat :: 2 <= L < n && ListedAt(v, L, key)
    decreases n
  {
    var last := if n - 1 <= |v| then RunWindows(v, n - 1, |v| - (n - 1) + 1) else [];
    assert LengthWindows(v, n) == LengthWindows(v, n - 1) + last;
    if key in LengthWindows(v, n - 1) {
      LengthWindowsMembers(v, n - 1, key);
      var L: nat :| 2 <= L < n - 1 && ListedAt(v, L, key);
      assert 2 <= L < n && ListedAt(v, L, key);
    } else {
      assert 2 <= n - 1 < n && ListedAt(v, n - 1, key);
    }
  }

  lemma {:induction false} InRunWindows(v: seq<Rank>, n: nat, m: nat, j: int, key: (int, nat))
    requires 0 <= j < m && m - 1 + n <= |v| && WindowAt(v, n, j, key) && n >= 1
    ensures key in RunWindows(v, n, m)
    decreases m
  {
    if j < m - 1 {
      InRunWindows(v, n, m - 1, j, key);
    }
  }

  lemma {:induction false} InLengthWindows(v: seq<Rank>, n: nat, L: nat, j: int, key: (int, nat))
    requires 2 <= L < n && WindowAt(v, L, j, key)
    ensures key in LengthWindows(v, n)
    decreases n
  {
    var rest := if n - 1 <= |v| then RunWindows(v, n - 1, |v| - (n - 1) + 1) else [];
    assert LengthWindows(v, n) == LengthWindows(v, n - 1) + rest;
    if L < n - 1 {
      InLengthWindows(v, n - 1, L, j, key);
    } else {
      InRunWindows(v, L, |v| - L + 1, j, key);
      assert key in rest;
    }
  }

  /** A run is looked at exactly when it is two or more consecutive ranks that
      all hold pairs: the key (lo, n) is listed iff lo..lo+n-1 is such a run. */
  lemma PairRunsMembers(hand: seq<Card>, key: (int, nat))
    ensures key in PairRuns(hand) <==> PairRun(hand, key.0, key.1)
  {
    if key in PairRuns(hand) {
      ListedRunIsPairRun(hand, key);
    }
    if PairRun(hand, key.0, key.1) {
      PairRunIsListed(hand, key);
    }
  }

  lemma ListedRunIsPairRun(hand: seq<Card>, key: (int, nat))
    requires key in PairRuns(hand)
    ensures PairRun(hand, key.0, key.1)
  {
    var v := RanksHolding(hand, 2);
    LengthWindowsMembers(v, |v| + 1, key);
    var L: nat :| 2 <= L < |v| + 1 && ListedAt(v, L, key);
    RunWindowsMembers(v, L, |v| - L + 1, key);
    var j :| 0 <= j < |v| - L + 1 && WindowAt(v, L, j, key);
    WindowIsRun(hand, 2, L, j);
  }

  lemma PairRunIsListed(hand: seq<Card>, key: (int, nat))
    requires PairRun(hand, key.0, key.1)
    ensures key in PairRuns(hand)
  {
    var j := RunIsWindow(hand, 2, key.1, key.0);
    InLengthWindows(RanksHolding(hand, 2), |RanksHolding(hand, 2)| + 1, key.1, j, key);
  }

  lemma {:induction false} RunPlaysMembers(hand: seq<Card>, runs: seq<(int, nat)>, x: seq<Card>)
    requires x in RunPlays(hand, runs)
    ensures exists key :: key in runs && x == RunPick(hand, RankRange(key.0, key.1))
    decreases |runs|
  {
    var init, last := runs[..|runs| - 1], runs[|runs| - 1];
    assert RunPlays(hand, runs) == RunPlays(hand, init) + [RunPick(hand, RankRange(last.0, last.1))];
    if x in RunPlays(hand, init) {
      RunPlaysMembers(hand, init, x);
      var key :| key in init && x == RunPick(hand, RankRange(key.0, key.1));
      assert key in runs;
    } else {
      assert last in runs;
    }
  }

  lemma {:induction false} InRunPlays(hand: seq<Card>, runs: seq<(int, nat)>, key: (int, nat))
    requires key in runs
    ensures RunPick(hand, RankRange(key.0, key.1)) in RunPlays(hand, runs)
    decreases |runs|
  {
    var init, last := runs[..|runs| - 1], runs[|runs| - 1];
    assert RunPlays(hand, runs) == RunPlays(hand, init) + [RunPick(hand, RankRange(last.0, last.1))];
    if key != last {
      assert runs == init + [last];
      InRunPlays(hand, init, key);
    }
  }

  /** x is one of the plays of filter_consecutive_pairs exactly when it is the
      play chosen for a run of two or more consecutive ranks holding pairs. */
  lemma ConsecutivePairPlaysMembers(hand: seq<Card>, x: seq<Card>)
    ensures x in ConsecutivePairPlays(hand)
            <==> exists lo, n: nat :: PairRun(hand, lo, n) && x == RunPick(hand, RankRange(lo, n))
  {
    if x in ConsecutivePairPlays(hand) {
      RunPlaysMembers(hand, PairRuns(hand), x);
      var key :| key in PairRuns(hand) && x == RunPick(hand, RankRange(key.0, key.1));
      PairRunsMembers(hand, key);
    }
    if exists lo, n: nat :: PairRun(hand, lo, n) && x == RunPick(hand, RankRange(lo, n)) {
      var lo, n: nat :| PairRun(hand, lo, n) && x == RunPick(hand, RankRange(lo, n));
      PairRunsMembers(hand, (lo, n));
      InRunPlays(hand, PairRuns(hand), (lo, n));
    }
  }

  /** Two cards of each rank lo, lo+1, ..., lo+n-1 in that order, all from the hand. */
  predicate TwoOfEach(x: seq<Card>, lo: int, n: nat, hand: seq<Card>) {
    |x| == 2 * n && (forall i :: 0 <= i < |x| ==> x[i].rank == lo + i / 2) && multiset(x) <= multiset(hand)
  }

  /** The play chosen for a run of ranks holding pairs is two cards of each
      rank of the run, lowest rank first, all cards of the hand. */
  lemma PairRunPlay(hand: seq<Card>, lo: int, n: nat)
    requires PairRun(hand, lo, n)
    ensures TwoOfEach(RunPick(hand, RankRange(lo, n)), lo, n, hand)
  {
    var rs := RankRange(lo, n);
    RangeIsIncreasing(lo, n);
    RunPickFacts(hand, rs);
  }
}

/**
 * What the recognizer promises: each play type is recognised exactly for its
 * shape (given the priority of the shapes before it), the pattern's fields
 * follow from the shape, and the result depends only on the multiset of cards.
 */
module RecognizerProperties {
  import opened Wrappers
  import opened Cards
  import opened Tally
  import opened RankTallies
  import opened Patterns
  import opened Recognizer

  predicate IsType(cards: seq<Card>, t: PlayType) {
    AnalyzeCards(cards).Some? && AnalyzeCards(cards).value.playType == t
  }

  // ---------------------------------------------------------------------------
  // Shapes, stated directly on the cards

  /** Eight cards, two of each suit of the first card's rank. */
  predicate IsDizhaShape(cards: seq<Card>) {
    |cards| == 8 && forall s: Suit :: Count(cards, Card(s, cards[0].rank)) == 2
  }

  /** Three identical cards. */
  predicate IsTongziShape(cards: seq<Card>) {
    |cards| == 3 && cards[1] == cards[0] && cards[2] == cards[0]
  }

  /** At least four cards, all of one rank. */
  predicate IsBombShape(cards: seq<Card>) {
    |cards| >= 4 && SameRank(cards)
  }

  /** Three cards of one rank. */
  predicate IsTripleShape(cards: seq<Card>) {
    |cards| == 3 && SameRank(cards)
  }

  /** Two cards of one rank. */
  predicate IsPairShape(cards: seq<Card>) {
    |cards| == 2 && cards[1].rank == cards[0].rank
  }

  /** Five cards: three of one rank and two of another. */
  predicate IsTripleWithTwoShape(cards: seq<Card>, three: Rank, two: Rank) {
    |cards| == 5 && three != two && RankCount(cards, three) == 3 && RankCount(cards, two) == 2
  }

  /** A wing run: n >= 2 consecutive ranks from lo, each holding at least three
      cards, with between n and 2n cards left over. */
  predicate WingRun(cards: seq<Card>, lo: int, n: int) {
    && 2 <= n && 3 <= lo && lo + n - 1 <= 15
    && (forall r: Rank :: lo <= r < lo + n ==> RankCount(cards, r) >= 3)
    && n <= |cards| - 3 * n <= 2 * n
  }

  // ---------------------------------------------------------------------------
  // Each check against its shape

  lemma CheckDizhaShape(cards: seq<Card>)
    requires cards != []
    ensures CheckDizha(cards).Some? <==> IsDizhaShape(cards)
    ensures IsDizhaShape(cards) ==>
              CheckDizha(cards) == Some(PlayPattern(Dizha, cards[0].rank, None, [], 8, (cards[0].rank as int) * 100000))
  {
    var r := cards[0].rank;
    OneRank(cards);
    if IsDizhaShape(cards) {
      RankCountBySuit(cards, r);
      RankCountBound(cards, r);
      assert SameRank(cards);
      assert SuitsPresent(cards, r) == [1, 2, 3, 4];
    }
    if CheckDizha(cards).Some? {
      assert SameRank(cards);
    }
  }

  lemma CheckTongziShape(cards: seq<Card>)
    requires cards != []
    ensures CheckTongzi(cards).Some? <==> IsTongziShape(cards)
    ensures IsTongziShape(cards) ==>
              CheckTongzi(cards)
              == Some(PlayPattern(Tongzi, cards[0].rank, Some(cards[0].suit), [], 3,
                                  (cards[0].rank as int) * 10000 + (cards[0].suit as int) * 1000))
  {
    OneRank(cards);
    DistinctSingle(cards);
    if IsTongziShape(cards) {
      assert SameRank(cards);
      assert Count(cards[2..], cards[0]) == 1;
      assert Count(cards[1..], cards[0]) == 2;
    }
    if CheckTongzi(cards).Some? {
      assert forall i :: 0 <= i < |cards| ==> cards[i] == cards[0];
    }
  }

  lemma CheckBombShape(cards: seq<Card>)
    requires cards != []
    ensures CheckBomb(cards).Some? <==> IsBombShape(cards)
    ensures IsBombShape(cards) ==>
              CheckBomb(cards)
              == Some(PlayPattern(Bomb, cards[0].rank, None, [], |cards|, (cards[0].rank as int) * 1000 + |cards|))
  {
    OneRank(cards);
  }

  lemma CheckTripleShape(cards: seq<Card>)
    requires cards != []
    ensures CheckTriple(cards).Some? <==> IsTripleShape(cards)
    ensures IsTripleShape(cards) ==> CheckTriple(cards) == Some(PlayPattern(Triple, cards[0].rank, None, [], 3, cards[0].rank))
  {
    OneRank(cards);
  }

  lemma CheckPairShape(cards: seq<Card>)
    requires cards != []
    ensures CheckPair(cards).Some? <==> IsPairShape(cards)
    ensures IsPairShape(cards) ==> CheckPair(cards) == Some(PlayPattern(Pair, cards[0].rank, None, [], 2, cards[0].rank))
  {
    OneRank(cards);
    if |cards| == 2 && cards[1].rank == cards[0].rank {
      assert SameRank(cards);
    }
  }

  /** Five cards, three of rank a and two of rank b: the keys are a and b. */
  lemma CheckTripleWithTwoValue(cards: seq<Card>, a: Rank, b: Rank)
    requires IsTripleWithTwoShape(cards, a, b)
    ensures |Ranks(cards)| == 2
    ensures CheckTripleWithTwo(cards) == Some(PlayPattern(TripleWithTwo, a, None, [], 5, a))
  {
    var rs := Ranks(cards);
    TwoRankCountBound(cards, a, b);
    forall x ensures x in rs <==> x in (if a < b then [a, b] else [b, a]) {
      if x != a && x != b {
        RankCountZero(cards, x);
      }
    }
    IncreasingUnique(rs, if a < b then [a, b] else [b, a]);
  }

  lemma CheckTripleWithTwoIff(cards: seq<Card>)
    ensures CheckTripleWithTwo(cards).Some? <==> exists a: Rank, b: Rank :: IsTripleWithTwoShape(cards, a, b)
  {
    if CheckTripleWithTwo(cards).Some? {
      var rs := Ranks(cards);
      if RankCount(cards, rs[0]) == 3 {
        assert IsTripleWithTwoShape(cards, rs[0], rs[1]);
      } else {
        assert IsTripleWithTwoShape(cards, rs[1], rs[0]);
      }
    }
    if exists a: Rank, b: Rank :: IsTripleWithTwoShape(cards, a, b) {
      var a: Rank, b: Rank :| IsTripleWithTwoShape(cards, a, b);
      CheckTripleWithTwoValue(cards, a, b);
    }
  }

  /** A rank that no card has holds nothing. */
  lemma RankCountZero(cards: seq<Card>, x: int)
    requires forall i :: 0 <= i < |cards| ==> cards[i].rank != x
    ensures RankCount(cards, x) == 0
  {
    RankCountBound(cards, x);
  }

  /** The tests shared by `_check_consecutive_pairs` (k = 2) and `_check_airplane` (k = 3). */
  predicate RunTestsPass(cards: seq<Card>, k: nat) {
    var rs := Ranks(cards);
    && (k == 2 || k == 3) && 2 * k <= |cards|
    && (if k == 2 then |cards| % 2 == 0 else |cards| % 3 == 0)
    && AllKeysHold(cards, k) && AreConsecutive(rs) && rs != []
  }

  /** The shared tests pass exactly for a run of at least two ranks with k cards each. */
  lemma RunTestsShape(cards: seq<Card>, k: nat)
    requires k == 2 || k == 3
    ensures RunTestsPass(cards, k) <==> exists lo, n :: 2 <= n && RunShape(cards, lo, n, k)
  {
    if RunTestsPass(cards, k) {
      RunIsRunShape(cards, k);
    }
    if exists lo, n :: 2 <= n && RunShape(cards, lo, n, k) {
      var lo, n :| 2 <= n && RunShape(cards, lo, n, k);
      RunShapeIsRun(cards, lo, n, k);
    }
  }

  /** Under a run shape the tests pass and the keys are the run. */
  lemma RunShapeIsRun(cards: seq<Card>, lo: int, n: int, k: nat)
    requires k == 2 || k == 3
    requires 2 <= n && RunShape(cards, lo, n, k)
    ensures RunTestsPass(cards, k) && Ranks(cards) == RankRange(lo, n) && |cards| == k * n
  {
    RunShapeRanks(cards, lo, n, k);
    ConsecutiveIsRange(Ranks(cards));
    RunKeysHold(cards, lo, n, k);
    RunSize(cards, n, k);
  }

  lemma RunKeysHold(cards: seq<Card>, lo: int, n: int, k: nat)
    requires RunShape(cards, lo, n, k) && Ranks(cards) == RankRange(lo, n)
    ensures AllKeysHold(cards, k)
  {
    var rs := Ranks(cards);
    forall i | 0 <= i < |rs| ensures RankCount(cards, rs[i]) == k {
      assert rs[i] == lo + i;
    }
  }

  lemma RunSize(cards: seq<Card>, n: int, k: nat)
    requires k == 2 || k == 3
    requires 2 <= n && |cards| == k * n
    ensures 2 * k <= |cards| && (if k == 2 then |cards| % 2 == 0 else |cards| % 3 == 0)
  {
    if k == 2 {
      assert |cards| == 2 * n;
    } else {
      assert |cards| == 3 * n;
    }
  }

  lemma RunIsRunShape(cards: seq<Card>, k: nat)
    requires k == 2 || k == 3
    requires RunTestsPass(cards, k)
    ensures RunShape(cards, Ranks(cards)[0], |Ranks(cards)|, k) && 2 <= |Ranks(cards)|
  {
    var rs := Ranks(cards);
    RanksGiveRunShape(cards, k);
    assert |cards| == k * |rs| by {
      SizeIsSumOverRanks(cards);
      SumOfEqualCounts(cards, rs, k);
    }
    if k == 2 {
      assert |cards| == 2 * |rs|;
    } else {
      assert |cards| == 3 * |rs|;
    }
  }

  lemma CheckConsecutivePairsIff(cards: seq<Card>)
    ensures CheckConsecutivePairs(cards).Some? <==> exists lo, n :: 2 <= n && RunShape(cards, lo, n, 2)
  {
    assert CheckConsecutivePairs(cards).Some? <==> RunTestsPass(cards, 2);
    RunTestsShape(cards, 2);
  }

  lemma CheckAirplaneIff(cards: seq<Card>)
    ensures CheckAirplane(cards).Some? <==> exists lo, n :: 2 <= n && RunShape(cards, lo, n, 3)
  {
    assert CheckAirplane(cards).Some? <==> RunTestsPass(cards, 3);
    RunTestsShape(cards, 3);
  }

  lemma CheckConsecutivePairsValue(cards: seq<Card>, lo: int, n: int)
    requires 2 <= n && 3 <= lo && lo + n - 1 <= 15
    requires RunTestsPass(cards, 2) && Ranks(cards) == RankRange(lo, n) && |cards| == 2 * n
    ensures CheckConsecutivePairs(cards)
            == Some(PlayPattern(ConsecutivePairs, lo + n - 1, None, RankRange(lo, n), 2 * n, (lo + n - 1) * 1000 + n))
  {
    assert Ranks(cards)[n - 1] == lo + n - 1;
  }

  lemma CheckAirplaneValue(cards: seq<Card>, lo: int, n: int)
    requires 2 <= n && 3 <= lo && lo + n - 1 <= 15
    requires RunTestsPass(cards, 3) && Ranks(cards) == RankRange(lo, n) && |cards| == 3 * n
    ensures CheckAirplane(cards)
            == Some(PlayPattern(Airplane, lo + n - 1, None, RankRange(lo, n), 3 * n, (lo + n - 1) * 1000 + n))
  {
    assert Ranks(cards)[n - 1] == lo + n - 1;
  }

  // ---------------------------------------------------------------------------
  // The priority order

  /** The position of each play type in the priority list. */
  function PriorityIndex(t: PlayType): (j: nat)
    ensures j < |Priority| && Priority[j] == t
  {
    match t
    case Dizha => 0
    case Tongzi => 1
    case Bomb => 2
    case Airplane => 3
    case AirplaneWithWings => 4
    case TripleWithTwo => 5
    case Triple => 6
    case ConsecutivePairs => 7
    case Pair => 8
    case Single => 9
  }

  /** Every type appears once in the priority list. */
  lemma PriorityUnique(j: nat, t: PlayType)
    requires j < |Priority| && Priority[j] == t
    ensures j == PriorityIndex(t)
  {
  }

  /** If the check at position j matches and none from i up to j does, the first
      match from i is that check's pattern. */
  lemma {:induction false} FirstMatchAt(cards: seq<Card>, i: nat, j: nat)
    requires i <= j < |Priority|
    requires CheckFor(Priority[j], cards).Some?
    requires forall m :: i <= m < j ==> CheckFor(Priority[m], cards).None?
    ensures FirstMatch(cards, i) == CheckFor(Priority[j], cards)
    decreases j - i
  {
    if i < j {
      FirstMatchAt(cards, i + 1, j);
    }
  }

  /** A first match comes from some position whose check matches, with no match before it. */
  lemma {:induction false} FirstMatchFrom(cards: seq<Card>, i: nat)
    requires FirstMatch(cards, i).Some?
    ensures exists j :: i <= j < |Priority| && FirstMatch(cards, i) == CheckFor(Priority[j], cards)
                        && forall m :: i <= m < j ==> CheckFor(Priority[m], cards).None?
    decreases |Priority| - i
  {
    if CheckFor(Priority[i], cards).None? {
      FirstMatchFrom(cards, i + 1);
      var j :| i + 1 <= j < |Priority| && FirstMatch(cards, i + 1) == CheckFor(Priority[j], cards)
               && forall m :: i + 1 <= m < j ==> CheckFor(Priority[m], cards).None?;
      assert forall m :: i <= m < j ==> CheckFor(Priority[m], cards).None?;
    }
  }

  /** A recognised pattern is the result of the check for its own type, and
      every check before that type in the priority order fails. */
  lemma AnalyzeDecided(cards: seq<Card>)
    requires IsValidPlay(cards)
    ensures AnalyzeCards(cards) == CheckFor(AnalyzeCards(cards).value.playType, cards)
    ensures forall m :: 0 <= m < PriorityIndex(AnalyzeCards(cards).value.playType) ==> CheckFor(Priority[m], cards).None?
  {
    FirstMatchFrom(cards, 0);
    var j :| 0 <= j < |Priority| && FirstMatch(cards, 0) == CheckFor(Priority[j], cards)
             && forall m :: 0 <= m < j ==> CheckFor(Priority[m], cards).None?;
    PriorityUnique(j, AnalyzeCards(cards).value.playType);
  }

  /** When every check fails the cards are not a play; a play is found otherwise. */
  lemma {:induction false} FirstMatchNone(cards: seq<Card>, i: nat)
    ensures FirstMatch(cards, i).None? <==> forall m :: i <= m < |Priority| ==> CheckFor(Priority[m], cards).None?
    decreases |Priority| - i
  {
    if i < |Priority| {
      FirstMatchNone(cards, i + 1);
    }
  }

  // ---------------------------------------------------------------------------
  // The recognised type of each shape, with the priority of the shapes before it

  /** A Dizha exactly for 8 cards of one rank, two of each suit; strength = rank×100000. */
  lemma DizhaRecognised(cards: seq<Card>)
    ensures IsType(cards, Dizha) <==> IsDizhaShape(cards)
    ensures IsDizhaShape(cards) ==>
              AnalyzeCards(cards) == Some(PlayPattern(Dizha, cards[0].rank, None, [], 8, (cards[0].rank as int) * 100000))
  {
    if cards != [] {
      CheckDizhaShape(cards);
      if IsType(cards, Dizha) {
        AnalyzeDecided(cards);
      }
      if IsDizhaShape(cards) {
        FirstMatchAt(cards, 0, 0);
      }
    }
  }

  /** A Tongzi exactly for three identical cards; strength = rank×10000 + suit×1000. */
  lemma TongziRecognised(cards: seq<Card>)
    ensures IsType(cards, Tongzi) <==> IsTongziShape(cards)
    ensures IsTongziShape(cards) ==>
              AnalyzeCards(cards)
              == Some(PlayPattern(Tongzi, cards[0].rank, Some(cards[0].suit), [], 3,
                                  (cards[0].rank as int) * 10000 + (cards[0].suit as int) * 1000))
  {
    if cards != [] {
      CheckTongziShape(cards);
      if IsType(cards, Tongzi) {
        AnalyzeDecided(cards);
      }
      if IsTongziShape(cards) {
        assert CheckDizha(cards).None?;
        FirstMatchAt(cards, 0, 1);
      }
    }
  }

  /** A Bomb exactly for four or more cards of one rank that are not a Dizha;
      card_count = the number of cards, strength = rank×1000 + count. */
  lemma BombRecognised(cards: seq<Card>)
    ensures IsType(cards, Bomb) <==> IsBombShape(cards) && !IsDizhaShape(cards)
    ensures IsBombShape(cards) && !IsDizhaShape(cards) ==>
              AnalyzeCards(cards)
              == Some(PlayPattern(Bomb, cards[0].rank, None, [], |cards|, (cards[0].rank as int) * 1000 + |cards|))
  {
    if cards != [] {
      CheckDizhaShape(cards);
      CheckBombShape(cards);
      if IsType(cards, Bomb) {
        AnalyzeDecided(cards);
        assert CheckFor(Priority[0], cards).None?;
      }
      if IsBombShape(cards) && !IsDizhaShape(cards) {
        assert CheckTongzi(cards).None?;
        FirstMatchAt(cards, 0, 2);
      }
    }
  }

  /** n >= 2 consecutive ranks holding exactly three cards each and nothing else
      form an Airplane: primary = the highest rank, strength = highest×1000 + n. */
  lemma AirplanePattern(cards: seq<Card>, lo: int, n: int)
    requires 2 <= n && RunShape(cards, lo, n, 3)
    ensures AnalyzeCards(cards)
            == Some(PlayPattern(Airplane, lo + n - 1, None, RankRange(lo, n), 3 * n, (lo + n - 1) * 1000 + n))
  {
    RunShapeIsRun(cards, lo, n, 3);
    CheckAirplaneValue(cards, lo, n);
    assert CheckDizha(cards).None? && CheckTongzi(cards).None? && CheckBomb(cards).None?;
    FirstMatchAt(cards, 0, 3);
  }

  /** An Airplane exactly for such a run. */
  lemma AirplaneRecognised(cards: seq<Card>)
    ensures IsType(cards, Airplane) <==> exists lo, n :: 2 <= n && RunShape(cards, lo, n, 3)
  {
    CheckAirplaneIff(cards);
    if IsType(cards, Airplane) {
      AnalyzeDecided(cards);
    }
    if exists lo, n :: 2 <= n && RunShape(cards, lo, n, 3) {
      var lo, n :| 2 <= n && RunShape(cards, lo, n, 3);
      AirplanePattern(cards, lo, n);
    }
  }

  /** Five cards, three of rank a and two of another rank b, form a
      TripleWithTwo with primary rank a. */
  lemma TripleWithTwoPattern(cards: seq<Card>, a: Rank, b: Rank)
    requires IsTripleWithTwoShape(cards, a, b)
    ensures AnalyzeCards(cards) == Some(PlayPattern(TripleWithTwo, a, None, [], 5, a))
  {
    CheckTripleWithTwoValue(cards, a, b);
    assert CheckDizha(cards).None? && CheckTongzi(cards).None? && CheckBomb(cards).None?;
    assert CheckAirplane(cards).None? && CheckAirplaneWithWings(cards).None?;
    FirstMatchAt(cards, 0, 5);
  }

  /** A TripleWithTwo exactly for that shape. */
  lemma TripleWithTwoRecognised(cards: seq<Card>)
    ensures IsType(cards, TripleWithTwo) <==> exists a: Rank, b: Rank :: IsTripleWithTwoShape(cards, a, b)
  {
    CheckTripleWithTwoIff(cards);
    if IsType(cards, TripleWithTwo) {
      AnalyzeDecided(cards);
    }
    if exists a: Rank, b: Rank :: IsTripleWithTwoShape(cards, a, b) {
      var a: Rank, b: Rank :| IsTripleWithTwoShape(cards, a, b);
      TripleWithTwoPattern(cards, a, b);
    }
  }

  /** A Triple exactly for three cards of one rank that are not all identical. */
  lemma TripleRecognised(cards: seq<Card>)
    ensures IsType(cards, Triple) <==> IsTripleShape(cards) && !IsTongziShape(cards)
    ensures IsTripleShape(cards) && !IsTongziShape(cards) ==>
              AnalyzeCards(cards) == Some(PlayPattern(Triple, cards[0].rank, None, [], 3, cards[0].rank))
  {
    if cards != [] {
      CheckTongziShape(cards);
      CheckTripleShape(cards);
      if IsType(cards, Triple) {
        AnalyzeDecided(cards);
        assert CheckFor(Priority[1], cards).None?;
      }
      if IsTripleShape(cards) && !IsTongziShape(cards) {
        assert CheckDizha(cards).None? && CheckBomb(cards).None?;
        assert CheckAirplane(cards).None? && CheckAirplaneWithWings(cards).None?;
        assert CheckTripleWithTwo(cards).None?;
        FirstMatchAt(cards, 0, 6);
      }
    }
  }

  /** n >= 2 consecutive ranks holding exactly two cards each and nothing else
      form ConsecutivePairs: primary = the highest rank, strength = highest×1000 + n. */
  lemma ConsecutivePairsPattern(cards: seq<Card>, lo: int, n: int)
    requires 2 <= n && RunShape(cards, lo, n, 2)
    ensures AnalyzeCards(cards)
            == Some(PlayPattern(ConsecutivePairs, lo + n - 1, None, RankRange(lo, n), 2 * n, (lo + n - 1) * 1000 + n))
  {
    RunShapeIsRun(cards, lo, n, 2);
    CheckConsecutivePairsValue(cards, lo, n);
    assert |Ranks(cards)| != 1 && |cards| != 3 && |cards| != 5;
    assert CheckDizha(cards).None? && CheckTongzi(cards).None? && CheckBomb(cards).None?;
    assert CheckAirplane(cards).None? by {
      assert !AllKeysHold(cards, 3) by {
        assert RankCount(cards, Ranks(cards)[0]) == 2;
      }
    }
    assert CheckAirplaneWithWings(cards).None? by {
      var cands := TripleCandidates(cards);
      assert forall x :: x !in cands;
      IncreasingUnique(cands, []);
    }
    assert CheckTripleWithTwo(cards).None? && CheckTriple(cards).None?;
    FirstMatchAt(cards, 0, 7);
  }

  /** ConsecutivePairs exactly for such a run. */
  lemma ConsecutivePairsRecognised(cards: seq<Card>)
    ensures IsType(cards, ConsecutivePairs) <==> exists lo, n :: 2 <= n && RunShape(cards, lo, n, 2)
  {
    CheckConsecutivePairsIff(cards);
    if IsType(cards, ConsecutivePairs) {
      AnalyzeDecided(cards);
    }
    if exists lo, n :: 2 <= n && RunShape(cards, lo, n, 2) {
      var lo, n :| 2 <= n && RunShape(cards, lo, n, 2);
      ConsecutivePairsPattern(cards, lo, n);
    }
  }

  /** A Pair exactly for two cards of one rank. */
  lemma PairRecognised(cards: seq<Card>)
    ensures IsType(cards, Pair) <==> IsPairShape(cards)
    ensures IsPairShape(cards) ==> AnalyzeCards(cards) == Some(PlayPattern(Pair, cards[0].rank, None, [], 2, cards[0].rank))
  {
    if cards != [] {
      CheckPairShape(cards);
      if IsType(cards, Pair) {
        AnalyzeDecided(cards);
      }
      if IsPairShape(cards) {
        SmallHandEarlyChecksFail(cards);
        FirstMatchAt(cards, 0, 8);
      }
    }
  }

  /** For one or two cards every check before Pair fails. */
  lemma SmallHandEarlyChecksFail(cards: seq<Card>)
    requires 1 <= |cards| <= 2
    ensures forall m :: 0 <= m < 8 ==> CheckFor(Priority[m], cards).None?
  {
    assert CheckDizha(cards).None? && CheckTongzi(cards).None? && CheckBomb(cards).None?;
    assert CheckAirplane(cards).None? && CheckAirplaneWithWings(cards).None?;
    assert CheckTripleWithTwo(cards).None? && CheckTriple(cards).None? && CheckConsecutivePairs(cards).None?;
  }

  /** A Single exactly for one card; its rank, its suit, strength = rank value. */
  lemma SingleRecognised(cards: seq<Card>)
    ensures IsType(cards, Single) <==> |cards| == 1
    ensures |cards| == 1 ==> AnalyzeCards(cards) == Some(PlayPattern(Single, cards[0].rank, Some(cards[0].suit), [], 1, cards[0].rank))
  {
    if IsType(cards, Single) {
      AnalyzeDecided(cards);
    }
    if |cards| == 1 {
      SmallHandEarlyChecksFail(cards);
      assert CheckPair(cards).None?;
      FirstMatchAt(cards, 0, 9);
    }
  }

  /** Every recognised pattern counts all the cards it was given. */
  lemma CardCountIsSize(cards: seq<Card>)
    requires IsValidPlay(cards)
    ensures AnalyzeCards(cards).value.cardCount == |cards|
  {
    AnalyzeDecided(cards);
    var t := AnalyzeCards(cards).value.playType;
    if t == Bomb {
      CheckBombShape(cards);
    } else if t == Dizha || t == Tongzi || t == Airplane || t == AirplaneWithWings {
    } else if t == TripleWithTwo || t == Triple || t == ConsecutivePairs || t == Pair || t == Single {
    }
  }

  // ---------------------------------------------------------------------------
  // Permutation invariance

  /** The ranks of a tally depend only on the counts. */
  lemma RanksFromOfEqualCounts(a: seq<Card>, b: seq<Card>, lo: int, k: nat)
    requires 3 <= lo
    requires forall r :: RankCount(a, r) == RankCount(b, r)
    ensures RanksFrom(a, lo, k) == RanksFrom(b, lo, k)
  {
    IncreasingUnique(RanksFrom(a, lo, k), RanksFrom(b, lo, k));
  }

  /** Two hands with the same multiset of cards: same size, same tallies, same keys. */
  ghost predicate SameTallies(a: seq<Card>, b: seq<Card>) {
    && |a| == |b|
    && (forall r :: RankCount(a, r) == RankCount(b, r))
    && (forall c :: Count(a, c) == Count(b, c))
    && Ranks(a) == Ranks(b)
    && TripleCandidates(a) == TripleCandidates(b)
  }

  lemma PermutationTallies(a: seq<Card>, b: seq<Card>)
    requires multiset(a) == multiset(b)
    ensures SameTallies(a, b)
  {
    assert |a| == |multiset(a)| == |b|;
    forall r ensures RankCount(a, r) == RankCount(b, r) {
      RankCountPermutation(a, b, r);
    }
    forall c ensures Count(a, c) == Count(b, c) {
      CountOfPermutation(a, b, c);
    }
    RanksFromOfEqualCounts(a, b, 3, 1);
    RanksFromOfEqualCounts(a, b, 3, 3);
  }

  lemma SmallChecksOfSameTallies(a: seq<Card>, b: seq<Card>)
    requires SameTallies(a, b)
    ensures CheckPair(a) == CheckPair(b) && CheckTriple(a) == CheckTriple(b)
    ensures CheckTripleWithTwo(a) == CheckTripleWithTwo(b) && CheckBomb(a) == CheckBomb(b)
    ensures CheckDizha(a) == CheckDizha(b)
  {
  }

  lemma RunChecksOfSameTallies(a: seq<Card>, b: seq<Card>)
    requires SameTallies(a, b)
    ensures CheckConsecutivePairs(a) == CheckConsecutivePairs(b) && CheckAirplane(a) == CheckAirplane(b)
  {
  }

  /** Three identical cards stay three identical cards under any permutation. */
  lemma TongziShapeMoves(a: seq<Card>, b: seq<Card>)
    requires IsTongziShape(a) && multiset(a) == multiset(b)
    ensures IsTongziShape(b) && b[0] == a[0]
  {
    assert |b| == |multiset(b)| == 3;
    assert a == [a[0], a[0], a[0]];
    assert multiset(a) == multiset{a[0], a[0], a[0]};
    assert b[0] in multiset(b) && b[1] in multiset(b) && b[2] in multiset(b);
  }

  lemma TongziOfPermutation(a: seq<Card>, b: seq<Card>)
    requires a != [] && multiset(a) == multiset(b)
    ensures CheckTongzi(a) == CheckTongzi(b)
  {
    assert |b| == |multiset(b)| == |a|;
    CheckTongziShape(a);
    CheckTongziShape(b);
    if IsTongziShape(a) {
      TongziShapeMoves(a, b);
    }
    if IsTongziShape(b) {
      TongziShapeMoves(b, a);
    }
  }

  /** Same checks, same first match. */
  lemma {:induction false} FirstMatchOfSameChecks(a: seq<Card>, b: seq<Card>, i: nat)
    requires forall t :: CheckFor(t, a) == CheckFor(t, b)
    ensures FirstMatch(a, i) == FirstMatch(b, i)
    decreases |Priority| - i
  {
    if i < |Priority| {
      FirstMatchOfSameChecks(a, b, i + 1);
      assert CheckFor(Priority[i], a) == CheckFor(Priority[i], b);
    }
  }

  /** `analyze_cards` depends only on the multiset of cards, so every
      permutation of the input gives the same result. */
  lemma AnalyzePermutation(a: seq<Card>, b: seq<Card>)
    requires multiset(a) == multiset(b)
    ensures AnalyzeCards(a) == AnalyzeCards(b)
  {
    PermutationTallies(a, b);
    SmallChecksOfSameTallies(a, b);
    RunChecksOfSameTallies(a, b);
    if a != [] {
      TongziOfPermutation(a, b);
      if |a| == 1 {
        assert b[0] in multiset(a);
        assert a == [a[0]] && b == [b[0]];
      }
      assert forall t :: CheckFor(t, a) == CheckFor(t, b);
      FirstMatchOfSameChecks(a, b, 0);
    }
  }
}

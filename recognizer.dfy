/**
 * The pattern recognizer: `PatternRecognizer.analyze_cards` and its shape
 * checks. The Python and Rust recognizers run the same checks in the same
 * order over the same two tallies (cards per rank, cards per (suit, rank)),
 * so one model serves both.
 */
module Recognizer {
  import opened Wrappers
  import opened Cards
  import opened Tally
  import opened RankTallies
  import opened Patterns

  /** Every key of rank_counts holds exactly k cards. */
  predicate AllKeysHold(cards: seq<Card>, k: nat) {
    var rs := Ranks(cards);
    forall i :: 0 <= i < |rs| ==> RankCount(cards, rs[i]) == k
  }

  /** The suits that hold at least one card of rank r: the (suit, rank) keys with that rank. */
  function SuitsPresent(cards: seq<Card>, r: Rank): seq<Suit> {
    (if Count(cards, Card(1, r)) > 0 then [1] else [])
    + (if Count(cards, Card(2, r)) > 0 then [2] else [])
    + (if Count(cards, Card(3, r)) > 0 then [3] else [])
    + (if Count(cards, Card(4, r)) > 0 then [4] else [])
  }

  /** `_check_single`: exactly one card; its rank and suit, strength = rank value. */
  function CheckSingle(cards: seq<Card>): (r: Option<PlayPattern>)
    ensures r.Some? ==> r.value.playType == Single && r.value.cardCount == |cards|
  {
    if |cards| != 1 then None
    else Some(PlayPattern(Single, cards[0].rank, Some(cards[0].suit), [], 1, cards[0].rank))
  }

  /** `_check_pair`: two cards of one rank. */
  function CheckPair(cards: seq<Card>): (r: Option<PlayPattern>)
    ensures r.Some? ==> r.value.playType == Pair && r.value.cardCount == |cards|
  {
    var rs := Ranks(cards);
    if |cards| != 2 || |rs| != 1 then None
    else if RankCount(cards, rs[0]) != 2 then None
    else Some(PlayPattern(Pair, rs[0], None, [], 2, rs[0]))
  }

  /** `_check_consecutive_pairs`: an even number (at least 4) of cards, two of
      each rank, ranks consecutive; primary = highest, strength = highest×1000 + length. */
  function CheckConsecutivePairs(cards: seq<Card>): (r: Option<PlayPattern>)
    ensures r.Some? ==> r.value.playType == ConsecutivePairs && r.value.cardCount == |cards|
  {
    var rs := Ranks(cards);
    if |cards| < 4 || |cards| % 2 != 0 then None
    else if !AllKeysHold(cards, 2) then None
    else if !AreConsecutive(rs) then None
    else if rs == [] then None
    else Some(PlayPattern(ConsecutivePairs, rs[|rs| - 1], None, rs, |cards|, (rs[|rs| - 1] as int) * 1000 + |rs|))
  }

  /** `_check_triple`: three cards of one rank. */
  function CheckTriple(cards: seq<Card>): (r: Option<PlayPattern>)
    ensures r.Some? ==> r.value.playType == Triple && r.value.cardCount == |cards|
  {
    var rs := Ranks(cards);
    if |cards| != 3 || |rs| != 1 then None
    else if RankCount(cards, rs[0]) != 3 then None
    else Some(PlayPattern(Triple, rs[0], None, [], 3, rs[0]))
  }

  /** `_check_triple_with_two`: five cards over two ranks with counts 3 and 2;
      primary = the rank holding three. */
  function CheckTripleWithTwo(cards: seq<Card>): (r: Option<PlayPattern>)
    ensures r.Some? ==> r.value.playType == TripleWithTwo && r.value.cardCount == |cards|
  {
    var rs := Ranks(cards);
    if |cards| != 5 || |rs| != 2 then None
    else
      var counts := [RankCount(cards, rs[0]), RankCount(cards, rs[1])];
      if !(3 in counts && 2 in counts) then None
      else
        var triple := if counts[0] == 3 then rs[0] else rs[1];
        Some(PlayPattern(TripleWithTwo, triple, None, [], 5, triple))
  }

  /** `_check_airplane`: a multiple of 3 (at least 6) cards, three of each rank,
      ranks consecutive. */
  function CheckAirplane(cards: seq<Card>): (r: Option<PlayPattern>)
    ensures r.Some? ==> r.value.playType == Airplane && r.value.cardCount == |cards|
  {
    var rs := Ranks(cards);
    if |cards| < 6 || |cards| % 3 != 0 then None
    else if !AllKeysHold(cards, 3) then None
    else if !AreConsecutive(rs) then None
    else if rs == [] then None
    else Some(PlayPattern(Airplane, rs[|rs| - 1], None, rs, |cards|, (rs[|rs| - 1] as int) * 1000 + |rs|))
  }

  /** A window of `length` candidates from index i that is consecutive and leaves
      between length and 2×length wing cards. */
  predicate WindowOk(cands: seq<Rank>, size: int, length: int, i: int) {
    && 0 <= i && 0 <= length && i + length <= |cands|
    && AreConsecutive(cands[i..i + length])
    && length <= size - 3 * length <= 2 * length
  }

  /** The wing search loop: lengths from `length` down to 2, start indices
      ascending from i; the first acceptable window as (length, start). */
  function SearchWings(cands: seq<Rank>, size: int, length: int, i: int): Option<(int, int)>
    requires 0 <= length <= |cands| && 0 <= i
    decreases length, |cands| - i
  {
    if length < 2 then None
    else if i > |cands| - length then SearchWings(cands, size, length - 1, 0)
    else if WindowOk(cands, size, length, i) then Some((length, i))
    else SearchWings(cands, size, length, i + 1)
  }

  /** The ranks holding at least three cards, sorted: `triple_candidates`. */
  function TripleCandidates(cards: seq<Card>): seq<Rank> {
    RanksFrom(cards, 3, 3)
  }

  /** The body of `_check_airplane_with_wings` once the candidates are sorted:
      at least 8 cards and two candidates, then the longest, leftmost window
      the wing search accepts. */
  function WingsPattern(cands: seq<Rank>, size: nat): (r: Option<PlayPattern>)
    ensures r.Some? ==> r.value.playType == AirplaneWithWings && r.value.cardCount == size
    ensures r.Some? ==> size >= 8 && |cands| >= 2
  {
    if size < 8 || |cands| < 2 then None
    else match SearchWings(cands, size, |cands|, 0)
      case None => None
      case Some((length, i)) =>
        if 0 <= i && 1 <= length && i + length <= |cands| then
          var w := cands[i..i + length];
          Some(PlayPattern(AirplaneWithWings, w[length - 1], None, w, size, (w[length - 1] as int) * 1000 + length))
        else None
  }

  /** `_check_airplane_with_wings`: the wing search over the ranks holding at least three cards. */
  function CheckAirplaneWithWings(cards: seq<Card>): (r: Option<PlayPattern>)
    ensures r.Some? ==> r.value.playType == AirplaneWithWings && r.value.cardCount == |cards|
    ensures r.Some? ==> |cards| >= 8 && |TripleCandidates(cards)| >= 2
  {
    WingsPattern(TripleCandidates(cards), |cards|)
  }

  /** `_check_bomb`: at least four cards, all of one rank; card_count = that
      count, strength = rank×1000 + count. */
  function CheckBomb(cards: seq<Card>): (r: Option<PlayPattern>)
    ensures r.Some? ==> r.value.playType == Bomb
  {
    var rs := Ranks(cards);
    if |cards| < 4 || |rs| != 1 then None
    else
      var count := RankCount(cards, rs[0]);
      if count < 4 then None
      else Some(PlayPattern(Bomb, rs[0], None, [], count, (rs[0] as int) * 1000 + count))
  }

  /** `_check_tongzi`: three cards of one rank forming a single (suit, rank) key
      that holds all three; strength = rank×10000 + suit×1000. */
  function CheckTongzi(cards: seq<Card>): (r: Option<PlayPattern>)
    ensures r.Some? ==> r.value.playType == Tongzi && r.value.cardCount == |cards|
  {
    var rs := Ranks(cards);
    var keys := Distinct(cards);
    if |cards| != 3 || |rs| != 1 then None
    else if |keys| != 1 || Count(cards, keys[0]) != 3 then None
    else Some(PlayPattern(Tongzi, keys[0].rank, Some(keys[0].suit), [], 3, (keys[0].rank as int) * 10000 + (keys[0].suit as int) * 1000))
  }

  /** `_check_dizha`: eight cards of one rank, all four suits present, two of each;
      strength = rank×100000. */
  function CheckDizha(cards: seq<Card>): (r: Option<PlayPattern>)
    ensures r.Some? ==> r.value.playType == Dizha && r.value.cardCount == |cards|
  {
    var rs := Ranks(cards);
    if |cards| != 8 || |rs| != 1 then None
    else
      var r := rs[0];
      if |SuitsPresent(cards, r)| != 4 then None
      else if !(&& Count(cards, Card(Diamonds, r)) == 2 && Count(cards, Card(Clubs, r)) == 2
                && Count(cards, Card(Hearts, r)) == 2 && Count(cards, Card(Spades, r)) == 2) then None
      else Some(PlayPattern(Dizha, r, None, [], 8, (r as int) * 100000))
  }

  /** The shape checks in the order `analyze_cards` tries them. */
  const Priority: seq<PlayType> :=
    [Dizha, Tongzi, Bomb, Airplane, AirplaneWithWings, TripleWithTwo, Triple, ConsecutivePairs, Pair, Single]

  /** The check for each play type. */
  function CheckFor(t: PlayType, cards: seq<Card>): (r: Option<PlayPattern>)
    ensures r.Some? ==> r.value.playType == t
  {
    match t
    case Single => CheckSingle(cards)
    case Pair => CheckPair(cards)
    case ConsecutivePairs => CheckConsecutivePairs(cards)
    case Triple => CheckTriple(cards)
    case TripleWithTwo => CheckTripleWithTwo(cards)
    case Airplane => CheckAirplane(cards)
    case AirplaneWithWings => CheckAirplaneWithWings(cards)
    case Bomb => CheckBomb(cards)
    case Tongzi => CheckTongzi(cards)
    case Dizha => CheckDizha(cards)
  }

  /** The result of the first check from position i of the priority list on that matches. */
  function FirstMatch(cards: seq<Card>, i: nat): Option<PlayPattern>
    decreases |Priority| - i
  {
    if i >= |Priority| then None
    else if CheckFor(Priority[i], cards).Some? then CheckFor(Priority[i], cards)
    else FirstMatch(cards, i + 1)
  }

  /** `analyze_cards`: None for no cards; otherwise the first shape that matches, in
      the order Dizha, Tongzi, Bomb, Airplane, AirplaneWithWings, TripleWithTwo,
      Triple, ConsecutivePairs, Pair, Single. */
  function AnalyzeCards(cards: seq<Card>): (r: Option<PlayPattern>)
    ensures cards == [] ==> r == None
  {
    if cards == [] then None else FirstMatch(cards, 0)
  }

  /** Recognised: `analyze_cards` returns a pattern. */
  predicate IsValidPlay(cards: seq<Card>) {
    AnalyzeCards(cards).Some?
  }
}

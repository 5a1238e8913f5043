/**
 * `PlayValidator`: whether a new play beats the pattern on the table. The
 * trump shapes Dizha, Tongzi and Bomb override the same-type rule; every other
 * pattern must match the current type (and, for chains, its length) and have
 * strictly greater strength.
 */
module Validator {
  import opened Wrappers
  import opened Cards
  import opened RankTallies
  import opened Patterns
  import opened Recognizer
  import opened RecognizerProperties

  /** `_compare_patterns`: does `next` beat `current`? */
  predicate ComparePatterns(next: PlayPattern, current: PlayPattern) {
    if next.playType == Dizha then
      current.playType != Dizha || next.primaryRank > current.primaryRank
    else if current.playType == Dizha then false
    else if next.playType == Tongzi then
      if current.playType == Bomb then true
      else if current.playType != Tongzi then false
      else if next.primaryRank > current.primaryRank then true
      else if next.primaryRank == current.primaryRank then
        next.primarySuit.Some? && current.primarySuit.Some? && next.primarySuit.value > current.primarySuit.value
      else false
    else if current.playType == Tongzi then false
    else if next.playType == Bomb then
      if current.playType != Bomb then true
      else if next.primaryRank > current.primaryRank then true
      else if next.primaryRank == current.primaryRank then next.cardCount > current.cardCount
      else false
    else if current.playType == Bomb then false
    else if next.playType != current.playType then false
    else if IsChain(next.playType) && |next.secondaryRanks| != |current.secondaryRanks| then false
    else next.strength > current.strength
  }

  /** `can_beat_play`: with nothing on the table any recognised play leads;
      otherwise the play must be recognised and its pattern must beat the current one. */
  predicate CanBeatPlay(cards: seq<Card>, current: Option<PlayPattern>) {
    match current
    case None => AnalyzeCards(cards).Some?
    case Some(cur) => AnalyzeCards(cards).Some? && ComparePatterns(AnalyzeCards(cards).value, cur)
  }

  // ---------------------------------------------------------------------------
  // Leading and unrecognised plays

  /** Leading a round accepts exactly the recognised plays, and an unrecognised
      play never beats anything. */
  lemma LeadIsRecognised(cards: seq<Card>, current: Option<PlayPattern>)
    ensures CanBeatPlay(cards, None) <==> IsValidPlay(cards)
    ensures !IsValidPlay(cards) ==> !CanBeatPlay(cards, current)
    ensures CanBeatPlay(cards, current) ==> IsValidPlay(cards)
  {
  }

  // ---------------------------------------------------------------------------
  // The trump overrides

  /** A Dizha beats every non-Dizha, and another Dizha only by a higher rank;
      nothing but a higher Dizha beats a Dizha. */
  lemma DizhaOverrides(next: PlayPattern, current: PlayPattern)
    ensures next.playType == Dizha && current.playType != Dizha ==> ComparePatterns(next, current)
    ensures current.playType == Dizha ==>
              (ComparePatterns(next, current) <==> next.playType == Dizha && next.primaryRank > current.primaryRank)
  {
  }

  /** A Tongzi beats every Bomb; against a Tongzi it wins by a higher rank, or by
      the same rank and a higher suit; it beats nothing else. */
  lemma TongziOverrides(next: PlayPattern, current: PlayPattern)
    requires next.playType == Tongzi
    ensures ComparePatterns(next, current) <==>
              || current.playType == Bomb
              || (&& current.playType == Tongzi
                  && (|| next.primaryRank > current.primaryRank
                      || (&& next.primaryRank == current.primaryRank
                          && next.primarySuit.Some? && current.primarySuit.Some?
                          && next.primarySuit.value > current.primarySuit.value)))
  {
  }

  /** Only a Tongzi or a Dizha beats a Tongzi. */
  lemma OnlyTongziOrDizhaBeatsTongzi(next: PlayPattern, current: PlayPattern)
    requires current.playType == Tongzi
    ensures ComparePatterns(next, current) ==> next.playType == Tongzi || next.playType == Dizha
  {
  }

  /** A Bomb beats every non-trump pattern; Bomb against Bomb compares the rank
      first and the number of cards second. */
  lemma BombOverrides(next: PlayPattern, current: PlayPattern)
    requires next.playType == Bomb
    ensures !IsTrump(current.playType) ==> ComparePatterns(next, current)
    ensures current.playType == Bomb ==>
              (ComparePatterns(next, current) <==>
                 next.primaryRank > current.primaryRank
                 || (next.primaryRank == current.primaryRank && next.cardCount > current.cardCount))
    ensures current.playType == Tongzi || current.playType == Dizha ==> !ComparePatterns(next, current)
  {
  }

  /** Only a trump beats a trump. */
  lemma OnlyTrumpBeatsTrump(next: PlayPattern, current: PlayPattern)
    requires IsTrump(current.playType) && ComparePatterns(next, current)
    ensures IsTrump(next.playType)
  {
  }

  /** Between non-trump patterns: same type, the same chain length for chains,
      and strictly greater strength. */
  lemma OrdinaryComparison(next: PlayPattern, current: PlayPattern)
    requires !IsTrump(next.playType) && !IsTrump(current.playType)
    ensures ComparePatterns(next, current) <==>
              && next.playType == current.playType
              && (IsChain(next.playType) ==> |next.secondaryRanks| == |current.secondaryRanks|)
              && next.strength > current.strength
  {
  }

  // ---------------------------------------------------------------------------
  // Order properties

  /** No pattern beats itself, and two patterns never beat each other. */
  lemma BeatIsAsymmetric(a: PlayPattern, b: PlayPattern)
    ensures !ComparePatterns(a, a)
    ensures ComparePatterns(a, b) ==> !ComparePatterns(b, a)
  {
  }

  /** The relation is not transitive: a Tongzi beats a Bomb and a Bomb beats a
      Pair, but a Tongzi does not beat a Pair. */
  lemma BeatIsNotTransitive()
    ensures var tongzi := PlayPattern(Tongzi, Five, Some(Spades), [], 3, 5 * 10000 + 4 * 1000);
            var bomb := PlayPattern(Bomb, Five, None, [], 4, 5 * 1000 + 4);
            var pair := PlayPattern(Pair, Ace, None, [], 2, Ace);
            ComparePatterns(tongzi, bomb) && ComparePatterns(bomb, pair) && !ComparePatterns(tongzi, pair)
  {
  }

  // ---------------------------------------------------------------------------
  // The beat relation on recognised plays

  /** A pair beats a pair exactly by a higher rank. */
  lemma PairBeatsPair(a: seq<Card>, b: seq<Card>)
    requires IsPairShape(a) && IsPairShape(b)
    ensures CanBeatPlay(a, AnalyzeCards(b)) <==> a[0].rank > b[0].rank
  {
    PairRecognised(a);
    PairRecognised(b);
  }

  /** A single beats a single exactly by a higher rank; the suit does not count. */
  lemma SingleBeatsSingle(a: Card, b: Card)
    ensures CanBeatPlay([a], AnalyzeCards([b])) <==> a.rank > b.rank
  {
    SingleRecognised([a]);
    SingleRecognised([b]);
  }

  /** Runs of pairs compare only at equal length, by their highest rank. */
  lemma PairRunBeatsPairRun(a: seq<Card>, loA: int, nA: int, b: seq<Card>, loB: int, nB: int)
    requires 2 <= nA && RunShape(a, loA, nA, 2)
    requires 2 <= nB && RunShape(b, loB, nB, 2)
    ensures CanBeatPlay(a, AnalyzeCards(b)) <==> nA == nB && loA > loB
  {
    ConsecutivePairsPattern(a, loA, nA);
    ConsecutivePairsPattern(b, loB, nB);
  }

  /** A Bomb beats any recognised play that is no trump. */
  lemma BombBeatsOrdinary(a: seq<Card>, b: seq<Card>)
    requires IsBombShape(a) && !IsDizhaShape(a)
    requires IsValidPlay(b) && !IsTrump(AnalyzeCards(b).value.playType)
    ensures CanBeatPlay(a, AnalyzeCards(b))
  {
    BombRecognised(a);
  }

  /** A Dizha beats any recognised play except a Dizha of the same or a higher rank. */
  lemma DizhaBeatsRecognised(a: seq<Card>, b: seq<Card>)
    requires IsDizhaShape(a) && IsValidPlay(b)
    ensures CanBeatPlay(a, AnalyzeCards(b)) <==>
              !IsDizhaShape(b) || a[0].rank > b[0].rank
  {
    DizhaRecognised(a);
    DizhaRecognised(b);
  }
}

/**
 * The wing search of `_check_airplane_with_wings` against its meaning: the
 * search over the sorted ranks holding at least three cards returns the
 * first acceptable window in scan order (longest first, then leftmost), and
 * an acceptable window is exactly a run of consecutive ranks that each hold
 * at least three cards, leaving between N and 2N wing cards.
 */
module WingsProperties {
  import opened Wrappers
  import opened Cards
  import opened RankTallies
  import opened Patterns
  import opened Recognizer
  import opened RecognizerProperties

  /** Window (l, j) is scanned no earlier than position (length, i): shorter
      windows, or windows of the current length from index i on. */
  predicate InScan(length: int, i: int, l: int, j: int) {
    2 <= l <= length && (l < length || i <= j)
  }

  /** The search returns the first acceptable window of the scan, and it finds
      one whenever the rest of the scan holds one. */
  lemma {:induction false} SearchWingsFirst(cands: seq<Rank>, size: int, length: int, i: int)
    requires 0 <= length <= |cands| && 0 <= i
    ensures SearchWings(cands, size, length, i).Some? ==>
              var (l, j) := SearchWings(cands, size, length, i).value;
              InScan(length, i, l, j) && WindowOk(cands, size, l, j)
    ensures forall l, j :: InScan(length, i, l, j) && WindowOk(cands, size, l, j) ==>
              && SearchWings(cands, size, length, i).Some?
              && var (l', j') := SearchWings(cands, size, length, i).value;
                 l < l' || (l == l' && j' <= j)
    decreases length, |cands| - i
  {
    if length < 2 {
    } else if i > |cands| - length {
      SearchWingsFirst(cands, size, length - 1, 0);
    } else if WindowOk(cands, size, length, i) {
    } else {
      SearchWingsFirst(cands, size, length, i + 1);
      assert forall j :: InScan(length, i, length, j) && WindowOk(cands, size, length, j) ==> j != i;
    }
  }

  /** A strictly increasing list that holds lo, ..., lo+n-1 holds them
      side by side from the position of lo. */
  lemma {:induction false} IncreasingHoldsRange(cands: seq<int>, j: int, lo: int, n: nat)
    requires StrictlyIncreasing(cands) && 0 <= j < |cands| && cands[j] == lo && 1 <= n
    requires forall x :: lo <= x < lo + n ==> x in cands
    ensures j + n <= |cands|
    ensures forall k :: j <= k < j + n ==> cands[k] == lo + (k - j)
    decreases n
  {
    if n > 1 {
      IncreasingHoldsRange(cands, j, lo, n - 1);
      var x := lo + n - 1;
      assert x in cands;
      var p :| 0 <= p < |cands| && cands[p] == x;
      assert cands[j + n - 2] == x - 1;
      assert j + n - 2 < p;
      assert cands[j + n - 1] == x by {
        assert cands[j + n - 2] < cands[j + n - 1] <= cands[p];
      }
    }
  }

  /** An acceptable window of the candidates is a wing run starting at its first rank. */
  lemma WindowIsRun(cards: seq<Card>, l: int, j: int)
    requires 2 <= l && WindowOk(TripleCandidates(cards), |cards|, l, j)
    ensures WingRun(cards, TripleCandidates(cards)[j], l)
    ensures TripleCandidates(cards)[j..j + l] == RankRange(TripleCandidates(cards)[j], l)
  {
    var cands := TripleCandidates(cards);
    var w := cands[j..j + l];
    var lo := cands[j];
    ConsecutiveIsRange(w);
    assert w[l - 1] == lo + l - 1;
    forall r: Rank | lo <= r < lo + l
      ensures RankCount(cards, r) >= 3
    {
      assert w[r - lo] == r;
      assert r in cands;
    }
  }

  /** A wing run is an acceptable window of the candidates, at the position of its lowest rank. */
  lemma RunIsWindow(cards: seq<Card>, lo: int, n: int) returns (j: int)
    requires WingRun(cards, lo, n)
    ensures 0 <= j && j + n <= |TripleCandidates(cards)| && TripleCandidates(cards)[j] == lo
    ensures WindowOk(TripleCandidates(cards), |cards|, n, j)
  {
    RunRanksAreCandidates(cards, lo, n);
    j := RangeIsWindow(TripleCandidates(cards), |cards|, lo, n);
  }

  /** Consecutive values held by a strictly increasing list form a window of it. */
  lemma RangeIsWindow(cands: seq<Rank>, size: int, lo: int, n: int) returns (j: int)
    requires StrictlyIncreasing(cands) && 2 <= n && n <= size - 3 * n <= 2 * n
    requires forall x :: lo <= x < lo + n ==> x in cands
    ensures 0 <= j && j + n <= |cands| && cands[j] == lo
    ensures WindowOk(cands, size, n, j)
  {
    assert lo in cands;
    j :| 0 <= j < |cands| && cands[j] == lo;
    IncreasingHoldsRange(cands, j, lo, n);
    assert cands[j..j + n] == RankRange(lo, n);
    ConsecutiveIsRange(cands[j..j + n]);
  }

  /** Every rank of a wing run is a candidate. */
  lemma RunRanksAreCandidates(cards: seq<Card>, lo: int, n: int)
    requires WingRun(cards, lo, n)
    ensures forall x :: lo <= x < lo + n ==> x in TripleCandidates(cards)
  {
    forall x | lo <= x < lo + n
      ensures x in TripleCandidates(cards)
    {
      var r: Rank := x;
      assert RankCount(cards, r) >= 3;
    }
  }

  /** The wing run `_check_airplane_with_wings` reports: no other run is
      longer, and none of the same length starts lower. */
  ghost predicate BestWingRun(cards: seq<Card>, lo: int, n: int) {
    && WingRun(cards, lo, n)
    && forall lo', n' :: WingRun(cards, lo', n') ==> n' < n || (n' == n && lo <= lo')
  }

  /** The pattern reported for the wing run lo..lo+n-1. */
  function WingsResult(cards: seq<Card>, lo: int, n: int): (p: PlayPattern)
    requires WingRun(cards, lo, n)
    ensures p.playType == AirplaneWithWings && p.cardCount == |cards| && p.secondaryRanks == RankRange(lo, n)
  {
    PlayPattern(AirplaneWithWings, lo + n - 1, None, RankRange(lo, n), |cards|, (lo + n - 1) * 1000 + n)
  }

  /** The wing pattern in terms of the search: a result exactly when there are
      8 cards, two candidates and an accepted window, and then that window. */
  lemma WingsPatternOfSearch(cands: seq<Rank>, size: nat)
    ensures WingsPattern(cands, size).Some? <==> size >= 8 && |cands| >= 2 && SearchWings(cands, size, |cands|, 0).Some?
    ensures WingsPattern(cands, size).Some? ==>
              var (l, i) := SearchWings(cands, size, |cands|, 0).value;
              && 2 <= l && WindowOk(cands, size, l, i)
              && WingsPattern(cands, size)
                 == Some(PlayPattern(AirplaneWithWings, cands[i + l - 1], None, cands[i..i + l], size, (cands[i + l - 1] as int) * 1000 + l))
  {
    SearchWingsFirst(cands, size, |cands|, 0);
  }

  /** The search over the candidates accepts a window exactly when a wing run exists. */
  lemma SearchFindsRun(cards: seq<Card>)
    ensures SearchWings(TripleCandidates(cards), |cards|, |TripleCandidates(cards)|, 0).Some?
            <==> exists lo, n :: WingRun(cards, lo, n)
    ensures (exists lo, n :: WingRun(cards, lo, n)) ==> |cards| >= 8 && |TripleCandidates(cards)| >= 2
  {
    var cands := TripleCandidates(cards);
    SearchWingsFirst(cands, |cards|, |cands|, 0);
    if SearchWings(cands, |cards|, |cands|, 0).Some? {
      var (l, i) := SearchWings(cands, |cards|, |cands|, 0).value;
      WindowIsRun(cards, l, i);
    }
    if exists lo, n :: WingRun(cards, lo, n) {
      var lo, n :| WingRun(cards, lo, n);
      var j := RunIsWindow(cards, lo, n);
      assert InScan(|cands|, 0, n, j);
    }
  }

  /** The window the search accepts starts the best wing run. */
  lemma SearchGivesBest(cards: seq<Card>)
    requires SearchWings(TripleCandidates(cards), |cards|, |TripleCandidates(cards)|, 0).Some?
    ensures var (l, i) := SearchWings(TripleCandidates(cards), |cards|, |TripleCandidates(cards)|, 0).value;
            && 0 <= i && 2 <= l && i + l <= |TripleCandidates(cards)|
            && BestWingRun(cards, TripleCandidates(cards)[i], l)
            && TripleCandidates(cards)[i..i + l] == RankRange(TripleCandidates(cards)[i], l)
  {
    var cands := TripleCandidates(cards);
    SearchWingsFirst(cands, |cards|, |cands|, 0);
    var (l, i) := SearchWings(cands, |cards|, |cands|, 0).value;
    WindowIsRun(cards, l, i);
    forall lo', n' | WingRun(cards, lo', n')
      ensures n' < l || (n' == l && cands[i] <= lo')
    {
      var j' := RunIsWindow(cards, lo', n');
      assert InScan(|cands|, 0, n', j');
    }
  }

  /** `_check_airplane_with_wings` succeeds exactly when a wing run exists. */
  lemma CheckAirplaneWithWingsIff(cards: seq<Card>)
    ensures CheckAirplaneWithWings(cards).Some? <==> exists lo, n :: WingRun(cards, lo, n)
  {
    WingsPatternOfSearch(TripleCandidates(cards), |cards|);
    SearchFindsRun(cards);
  }

  /** When `_check_airplane_with_wings` succeeds it reports the best wing run:
      primary = its highest rank, secondary = the run, strength = highest×1000 + length. */
  lemma CheckAirplaneWithWingsBest(cards: seq<Card>)
    requires CheckAirplaneWithWings(cards).Some?
    ensures var run := CheckAirplaneWithWings(cards).value.secondaryRanks;
            && |run| >= 2
            && BestWingRun(cards, run[0], |run|)
            && CheckAirplaneWithWings(cards).value == WingsResult(cards, run[0], |run|)
  {
    var cands := TripleCandidates(cards);
    WingsPatternOfSearch(cands, |cards|);
    SearchGivesBest(cards);
    var (l, i) := SearchWings(cands, |cards|, |cands|, 0).value;
    assert cands[i..i + l][l - 1] == cands[i] + l - 1;
  }

  /** A best wing run fixes the result of `_check_airplane_with_wings`. */
  lemma BestWingRunChosen(cards: seq<Card>, lo: int, n: int)
    requires BestWingRun(cards, lo, n)
    ensures CheckAirplaneWithWings(cards) == Some(WingsResult(cards, lo, n))
  {
    CheckAirplaneWithWingsIff(cards);
    CheckAirplaneWithWingsBest(cards);
    var run := CheckAirplaneWithWings(cards).value.secondaryRanks;
    assert |run| == n && run[0] == lo;
  }

  /** A wing run spans at least two ranks, so no single-rank check accepts the cards. */
  lemma WingRunNotOneRank(cards: seq<Card>, lo: int, n: int)
    requires WingRun(cards, lo, n)
    ensures cards != [] && |Ranks(cards)| != 1
    ensures CheckDizha(cards).None? && CheckTongzi(cards).None? && CheckBomb(cards).None?
  {
    var a: Rank := lo;
    var b: Rank := lo + 1;
    assert RankCount(cards, a) >= 3 && RankCount(cards, b) >= 3;
    assert a in Ranks(cards) && b in Ranks(cards);
  }

  /** A recognised AirplaneWithWings holds a wing run and is no pure Airplane. */
  lemma AirplaneWithWingsHasRun(cards: seq<Card>)
    requires IsType(cards, AirplaneWithWings)
    ensures exists lo, n :: WingRun(cards, lo, n)
    ensures CheckAirplane(cards).None?
  {
    AnalyzeDecided(cards);
    assert CheckFor(Priority[3], cards).None?;
    CheckAirplaneWithWingsIff(cards);
  }

  /** Cards holding a wing run that are no pure Airplane are an AirplaneWithWings. */
  lemma RunMakesAirplaneWithWings(cards: seq<Card>, lo: int, n: int)
    requires WingRun(cards, lo, n) && CheckAirplane(cards).None?
    ensures AnalyzeCards(cards) == CheckAirplaneWithWings(cards) && IsType(cards, AirplaneWithWings)
  {
    WingRunNotOneRank(cards, lo, n);
    CheckAirplaneWithWingsIff(cards);
    FirstMatchAt(cards, 0, 4);
  }

  /** AirplaneWithWings exactly when a wing run exists and the cards are not a
      pure Airplane, which is tried first. */
  lemma AirplaneWithWingsRecognised(cards: seq<Card>)
    ensures IsType(cards, AirplaneWithWings) <==>
              && (exists lo, n :: WingRun(cards, lo, n))
              && !(exists lo, n :: 2 <= n && RunShape(cards, lo, n, 3))
  {
    CheckAirplaneIff(cards);
    if IsType(cards, AirplaneWithWings) {
      AirplaneWithWingsHasRun(cards);
    }
    if (exists lo, n :: WingRun(cards, lo, n)) && CheckAirplane(cards).None? {
      var lo, n :| WingRun(cards, lo, n);
      RunMakesAirplaneWithWings(cards, lo, n);
    }
  }

  /** A recognised AirplaneWithWings reports the best wing run of the cards. */
  lemma AirplaneWithWingsPattern(cards: seq<Card>, lo: int, n: int)
    requires BestWingRun(cards, lo, n) && !(exists lo', n' :: 2 <= n' && RunShape(cards, lo', n', 3))
    ensures AnalyzeCards(cards) == Some(WingsResult(cards, lo, n))
  {
    CheckAirplaneIff(cards);
    RunMakesAirplaneWithWings(cards, lo, n);
    BestWingRunChosen(cards, lo, n);
  }
}

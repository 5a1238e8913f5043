/**
 * The Rust `PlayGenerator`: every play of a hand (singles, pairs, consecutive
 * pairs and triples through the identical-play filter, the rest unfiltered),
 * refused past a limit; the number of plays the unfiltered generators give;
 * and the plays that beat the current pattern with the same type or a trump.
 * `analyze_cards` is a parameter (`analyse`); the lemmas that speak of the
 * real recognizer assume only that it is that function (`Analyses`).
 */
module RustPlayGenerator {
  import opened Wrappers
  import opened Cards
  import opened RankTallies
  import opened Patterns
  import opened Recognizer
  import opened RecognizerProperties
  import opened Validator
  import opened HandAnalysis
  import opened PlayCombinations
  import opened GroupGenerators
  import opened ChainGenerators
  import opened IdenticalPlayFilter
  import PyPlayGenerator

  /** `PatternRecognizer::analyze_cards`, as a parameter. */
  type Analysis = seq<Card> -> Option<PlayPattern>

  /** The parameter is the recognizer. */
  ghost predicate Analyses(analyse: Analysis) {
    forall cards {:trigger AnalyzeCards(cards)} :: analyse(cards) == AnalyzeCards(cards)
  }

  /** The type test each generator applies to what `analyze_cards` returns. */
  function VerdictOf(analyse: Analysis): Verdict {
    (cards: seq<Card>, t: PlayType) => analyse(cards).Some? && analyse(cards).value.playType == t
  }

  /** The verdict of the recognizer is the recognizer's own. */
  lemma AnalysesRecognises(analyse: Analysis)
    requires Analyses(analyse)
    ensures Recognises(VerdictOf(analyse))
  {
    forall cards, t ensures VerdictOf(analyse)(cards, t) == IsType(cards, t) {
      assert analyse(cards) == AnalyzeCards(cards);
    }
  }

  // ---------------------------------------------------------------------------
  // _generate_triple_with_kickers

  /** The recognizer calls the combination a Triple of n cards. */
  predicate TripleKicked(analyse: Analysis, combo: seq<Card>, n: nat) {
    && analyse(combo).Some?
    && analyse(combo).value.playType == Triple
    && analyse(combo).value.cardCount == n
  }

  /** The triple with one kicker, for each kicker in turn. */
  function OneKicker(analyse: Analysis, triple: seq<Card>, kickers: seq<Card>): seq<seq<Card>>
    decreases |kickers|
  {
    if kickers == [] then []
    else
      var combo := triple + [kickers[|kickers| - 1]];
      OneKicker(analyse, triple, kickers[..|kickers| - 1]) + (if TripleKicked(analyse, combo, 4) then [combo] else [])
  }

  /** The triple with kickers i and j, for i < j < m. */
  function PairRow(analyse: Analysis, triple: seq<Card>, kickers: seq<Card>, i: nat, m: nat): seq<seq<Card>>
    decreases m
  {
    if m <= i + 1 || |kickers| < m then []
    else
      var combo := triple + [kickers[i], kickers[m - 1]];
      PairRow(analyse, triple, kickers, i, m - 1) + (if TripleKicked(analyse, combo, 5) then [combo] else [])
  }

  /** The triple with two kickers, for every first kicker below n. */
  function PairRows(analyse: Analysis, triple: seq<Card>, kickers: seq<Card>, n: nat): seq<seq<Card>>
    decreases n
  {
    if n == 0 then [] else PairRows(analyse, triple, kickers, n - 1) + PairRow(analyse, triple, kickers, n - 1, |kickers|)
  }

  /** What one triple rank yields: its first three cards with one, then with two of
      the cards of the hand that differ from those three. */
  function KickersOf(analyse: Analysis, hand: seq<Card>, t: int): seq<seq<Card>> {
    var triple := Take(Group(hand, RankOf, t), 3);
    var kickers := Without(hand, triple);
    OneKicker(analyse, triple, kickers) + PairRows(analyse, triple, kickers, |kickers|)
  }

  function KickerPlays(analyse: Analysis, hand: seq<Card>, ts: seq<int>): seq<seq<Card>>
    decreases |ts|
  {
    if ts == [] then [] else KickerPlays(analyse, hand, ts[..|ts| - 1]) + KickersOf(analyse, hand, ts[|ts| - 1])
  }

  /** What `_generate_triple_with_kickers` returns. */
  function TripleWithKickers(analyse: Analysis, hand: seq<Card>): seq<seq<Card>> {
    KickerPlays(analyse, hand, PyPlayGenerator.TripleRanks(hand, Keys(hand, RankOf)))
  }

  /** No combination is called a Triple of other than three cards. */
  ghost predicate OnlyTriplesOfThree(analyse: Analysis) {
    forall combo, n :: n != 3 ==> !TripleKicked(analyse, combo, n)
  }

  /** The recognizer's Triple has exactly three cards. */
  lemma RecognizedTriplesHaveThree(analyse: Analysis)
    requires Analyses(analyse)
    ensures OnlyTriplesOfThree(analyse)
  {
    forall combo, n | n != 3 ensures !TripleKicked(analyse, combo, n) {
      if TripleKicked(analyse, combo, n) {
        assert analyse(combo) == AnalyzeCards(combo);
        CardCountIsSize(combo);
        TripleRecognised(combo);
        assert false;
      }
    }
  }

  lemma {:induction false} OneKickerEmpty(analyse: Analysis, triple: seq<Card>, kickers: seq<Card>)
    requires OnlyTriplesOfThree(analyse)
    ensures OneKicker(analyse, triple, kickers) == []
    decreases |kickers|
  {
    if kickers != [] {
      OneKickerEmpty(analyse, triple, kickers[..|kickers| - 1]);
      assert !TripleKicked(analyse, triple + [kickers[|kickers| - 1]], 4);
    }
  }

  lemma {:induction false} PairRowEmpty(analyse: Analysis, triple: seq<Card>, kickers: seq<Card>, i: nat, m: nat)
    requires OnlyTriplesOfThree(analyse)
    ensures PairRow(analyse, triple, kickers, i, m) == []
    decreases m
  {
    if i + 1 < m <= |kickers| {
      PairRowEmpty(analyse, triple, kickers, i, m - 1);
      assert !TripleKicked(analyse, triple + [kickers[i], kickers[m - 1]], 5);
    }
  }

  lemma {:induction false} PairRowsEmpty(analyse: Analysis, triple: seq<Card>, kickers: seq<Card>, n: nat)
    requires OnlyTriplesOfThree(analyse)
    ensures PairRows(analyse, triple, kickers, n) == []
    decreases n
  {
    if n > 0 {
      PairRowsEmpty(analyse, triple, kickers, n - 1);
      PairRowEmpty(analyse, triple, kickers, n - 1, |kickers|);
      assert PairRows(analyse, triple, kickers, n)
        == PairRows(analyse, triple, kickers, n - 1) + PairRow(analyse, triple, kickers, n - 1, |kickers|);
    }
  }

  lemma {:induction false} KickerPlaysEmpty(analyse: Analysis, hand: seq<Card>, ts: seq<int>)
    requires OnlyTriplesOfThree(analyse)
    ensures KickerPlays(analyse, hand, ts) == []
    decreases |ts|
  {
    if ts != [] {
      KickerPlaysEmpty(analyse, hand, ts[..|ts| - 1]);
      var triple := Take(Group(hand, RankOf, ts[|ts| - 1]), 3);
      var kickers := Without(hand, triple);
      OneKickerEmpty(analyse, triple, kickers);
      PairRowsEmpty(analyse, triple, kickers, |kickers|);
    }
  }

  /** The generator keeps a combination only when the recognizer calls it a Triple
      of four or five cards, which it never does: it yields nothing for any hand. */
  lemma TripleWithKickersEmpty(analyse: Analysis, hand: seq<Card>)
    requires Analyses(analyse)
    ensures TripleWithKickers(analyse, hand) == []
  {
    RecognizedTriplesHaveThree(analyse);
    KickerPlaysEmpty(analyse, hand, PyPlayGenerator.TripleRanks(hand, Keys(hand, RankOf)));
  }

  lemma OneKickerStep(analyse: Analysis, triple: seq<Card>, kickers: seq<Card>, i: nat)
    requires i < |kickers|
    ensures OneKicker(analyse, triple, kickers[..i + 1]) == OneKicker(analyse, triple, kickers[..i])
              + (if TripleKicked(analyse, triple + [kickers[i]], 4) then [triple + [kickers[i]]] else [])
  {
    assert kickers[..i + 1][..i] == kickers[..i];
  }

  lemma KickerPlaysStep(analyse: Analysis, hand: seq<Card>, ts: seq<int>, x: nat)
    requires x < |ts|
    ensures KickerPlays(analyse, hand, ts[..x + 1]) == KickerPlays(analyse, hand, ts[..x]) + KickersOf(analyse, hand, ts[x])
  {
    assert ts[..x + 1][..x] == ts[..x];
  }

  /** The loops over the kickers for one triple. */
  method KickersOfTriple(analyse: Analysis, triple: seq<Card>, kickers: seq<Card>) returns (found: seq<seq<Card>>)
    ensures found == OneKicker(analyse, triple, kickers) + PairRows(analyse, triple, kickers, |kickers|)
  {
    var singles := [];
    for i := 0 to |kickers|
      invariant singles == OneKicker(analyse, triple, kickers[..i])
    {
      OneKickerStep(analyse, triple, kickers, i);
      var combo := triple + [kickers[i]];
      if TripleKicked(analyse, combo, 4) {
        singles := singles + [combo];
      }
    }
    assert kickers[..|kickers|] == kickers;
    var pairs := [];
    for i := 0 to |kickers|
      invariant pairs == PairRows(analyse, triple, kickers, i)
    {
      var row := [];
      for j := i + 1 to |kickers|
        invariant row == PairRow(analyse, triple, kickers, i, j)
      {
        var combo := triple + [kickers[i], kickers[j]];
        if TripleKicked(analyse, combo, 5) {
          row := row + [combo];
        }
      }
      pairs := pairs + row;
    }
    found := singles + pairs;
  }

  method GenerateTripleWithKickers(analyse: Analysis, hand: seq<Card>) returns (results: seq<seq<Card>>)
    ensures results == TripleWithKickers(analyse, hand)
  {
    var keys, groups := GroupBy(hand, RankOf);
    var ts := PyPlayGenerator.TripleRanksOf(hand, keys, groups);
    results := [];
    for x := 0 to |ts|
      invariant results == KickerPlays(analyse, hand, ts[..x])
    {
      KickerPlaysStep(analyse, hand, ts, x);
      var tripleCards := Take(Lookup(groups, ts[x]), 3);
      var kickers := RemainingCards(hand, tripleCards);
      var found := KickersOfTriple(analyse, tripleCards, kickers);
      results := results + found;
    }
    assert ts[..|ts|] == ts;
  }

  // ---------------------------------------------------------------------------
  // generate_all_plays

  /** The plays of the unfiltered generators. */
  function OtherPlays(analyse: Analysis, hand: seq<Card>): seq<seq<Card>> {
    TripleWithKickers(analyse, hand)
      + ChainPlays(hand, TripleChains, VerdictOf(analyse))
      + ChainPlays(hand, WingedChains, VerdictOf(analyse))
      + Generated(hand, BombGroups, VerdictOf(analyse))
      + Generated(hand, TongziGroups, VerdictOf(analyse))
      + Generated(hand, DizhaGroups(RustSuitOrder), VerdictOf(analyse))
  }

  /** Every play after the singles: the pairs, consecutive pairs and triples the
      identical-play filter chooses, then the plays of the unfiltered generators. */
  function LaterPlays(analyse: Analysis, hand: seq<Card>): seq<seq<Card>> {
    KeptPlays(hand, 2) + ConsecutivePairPlays(hand) + KeptPlays(hand, 3) + OtherPlays(analyse, hand)
  }

  /** Every play the generator collects: none for an empty hand, otherwise the
      singles the identical-play filter chooses, then the later plays. */
  function AllPlays(analyse: Analysis, hand: seq<Card>): seq<seq<Card>> {
    if hand == [] then [] else SinglesOver(hand, Ranks(hand)) + LaterPlays(analyse, hand)
  }

  /** The error of a collection larger than the limit. */
  datatype LimitError = ExceedsLimit(generated: nat, limit: nat)

  /** What `generate_all_plays` returns. */
  function AllPlaysUpTo(analyse: Analysis, hand: seq<Card>, maxCombinations: nat): Result<seq<seq<Card>>, LimitError> {
    var plays := AllPlays(analyse, hand);
    if |plays| > maxCombinations then Err(ExceedsLimit(|plays|, maxCombinations)) else Ok(plays)
  }

  method GenerateAllPlays(analyse: Analysis, hand: seq<Card>, maxCombinations: nat)
    returns (result: Result<seq<seq<Card>>, LimitError>)
    ensures result == AllPlaysUpTo(analyse, hand, maxCombinations)
  {
    if hand == [] {
      return Ok([]);
    }
    var singles := FilterSingles(hand);
    var pairs := FilterPairs(hand);
    var consecutivePairs := FilterConsecutivePairs(hand);
    var triples := FilterTriples(hand);
    var kicked := GenerateTripleWithKickers(analyse, hand);
    var airplanes := GenerateChains(hand, TripleChains, VerdictOf(analyse));
    var withWings := GenerateChains(hand, WingedChains, VerdictOf(analyse));
    var bombs := GenerateBombs(hand, VerdictOf(analyse));
    var tongzi := GenerateTongzi(hand, VerdictOf(analyse));
    var dizha := GenerateDizha(hand, RustSuitOrder, VerdictOf(analyse));
    var others := kicked + airplanes + withWings + bombs + tongzi + dizha;
    var allPlays := singles + (pairs + consecutivePairs + triples + others);
    if |allPlays| > maxCombinations {
      return Err(ExceedsLimit(|allPlays|, maxCombinations));
    }
    return Ok(allPlays);
  }

  /** The filter's singles lead whatever follows them. */
  lemma SinglesLead(hand: seq<Card>, rest: seq<seq<Card>>)
    ensures |SinglesOver(hand, Ranks(hand)) + rest| >= |Ranks(hand)|
    ensures forall i :: 0 <= i < |Ranks(hand)| ==>
              var p := (SinglesOver(hand, Ranks(hand)) + rest)[i];
              |p| == 1 && p[0] in hand && p[0].rank == Ranks(hand)[i]
  {
    SinglesOnePerRank(hand);
  }

  /** An empty hand gives `Ok` of no play. Otherwise the collection opens with one
      single of the hand per rank, ranks ascending, and the result is an error
      exactly when more plays were collected than the limit allows; a limit below
      the number of ranks is therefore always exceeded. */
  lemma AllPlaysLimit(analyse: Analysis, hand: seq<Card>, maxCombinations: nat)
    ensures hand == [] ==> AllPlaysUpTo(analyse, hand, maxCombinations) == Ok([])
    ensures AllPlaysUpTo(analyse, hand, maxCombinations).Err? <==> |AllPlays(analyse, hand)| > maxCombinations
    ensures AllPlaysUpTo(analyse, hand, maxCombinations).Ok? ==>
              AllPlaysUpTo(analyse, hand, maxCombinations).value == AllPlays(analyse, hand)
    ensures hand != [] ==> |AllPlays(analyse, hand)| >= |Ranks(hand)|
    ensures hand != [] ==> forall i :: 0 <= i < |Ranks(hand)| ==>
              |AllPlays(analyse, hand)[i]| == 1 && AllPlays(analyse, hand)[i][0] in hand
              && AllPlays(analyse, hand)[i][0].rank == Ranks(hand)[i]
    ensures hand != [] && maxCombinations < |Ranks(hand)| ==> AllPlaysUpTo(analyse, hand, maxCombinations).Err?
  {
    if hand != [] {
      SinglesLead(hand, LaterPlays(analyse, hand));
    }
  }

  // ---------------------------------------------------------------------------
  // count_all_plays

  /** What `count_all_plays` returns: one per card, plus the plays of every
      unfiltered generator. */
  function PlayCount(analyse: Analysis, hand: seq<Card>): nat {
    if hand == [] then 0
    else
      |hand|
        + |Generated(hand, PairGroups, VerdictOf(analyse))|
        + |ChainPlays(hand, PairChains, VerdictOf(analyse))|
        + |Generated(hand, TripleGroups, VerdictOf(analyse))|
        + |TripleWithKickers(analyse, hand)|
        + |ChainPlays(hand, TripleChains, VerdictOf(analyse))|
        + |ChainPlays(hand, WingedChains, VerdictOf(analyse))|
        + |Generated(hand, BombGroups, VerdictOf(analyse))|
        + |Generated(hand, TongziGroups, VerdictOf(analyse))|
        + |Generated(hand, DizhaGroups(RustSuitOrder), VerdictOf(analyse))|
  }

  /** The count is zero exactly for an empty hand and otherwise at least one per
      card; with the real recognizer the kicked triples add nothing, and a hand
      holding a pair counts at least that pair besides its singles. */
  lemma PlayCountFacts(analyse: Analysis, hand: seq<Card>)
    requires Analyses(analyse)
    ensures PlayCount(analyse, hand) == 0 <==> hand == []
    ensures PlayCount(analyse, hand) >= |hand|
    ensures hand != [] ==> PlayCount(analyse, hand) >= |hand| + |Generated(hand, PairGroups, VerdictOf(analyse))|
    ensures TripleWithKickers(analyse, hand) == []
  {
    TripleWithKickersEmpty(analyse, hand);
  }

  method CountAllPlays(analyse: Analysis, hand: seq<Card>) returns (count: nat)
    ensures count == PlayCount(analyse, hand)
  {
    if hand == [] {
      return 0;
    }
    count := |hand|;
    var pairs := GeneratePairs(hand, VerdictOf(analyse));
    count := count + |pairs|;
    var consecutivePairs := GenerateChains(hand, PairChains, VerdictOf(analyse));
    count := count + |consecutivePairs|;
    var triples := GenerateTriples(hand, VerdictOf(analyse));
    count := count + |triples|;
    var kicked := GenerateTripleWithKickers(analyse, hand);
    count := count + |kicked|;
    var airplanes := GenerateChains(hand, TripleChains, VerdictOf(analyse));
    count := count + |airplanes|;
    var withWings := GenerateChains(hand, WingedChains, VerdictOf(analyse));
    count := count + |withWings|;
    var bombs := GenerateBombs(hand, VerdictOf(analyse));
    count := count + |bombs|;
    var tongzi := GenerateTongzi(hand, VerdictOf(analyse));
    count := count + |tongzi|;
    var dizha := GenerateDizha(hand, RustSuitOrder, VerdictOf(analyse));
    count := count + |dizha|;
  }

  // ---------------------------------------------------------------------------
  // generate_beating_plays_with_same_type_or_trump

  /** The three rank filters of the `_generate_higher_*` helpers: a higher main
      rank; the same number of cards and a higher main rank; more cards, or the
      same number and a higher main rank. Each keeps only recognised plays. */
  datatype Rule = HigherRank | SameLengthHigherRank | BiggerOrHigherBomb

  predicate Passes(analyse: Analysis, p: seq<Card>, current: PlayPattern, rule: Rule) {
    analyse(p).Some? &&
    match rule
    case HigherRank => analyse(p).value.primaryRank > current.primaryRank
    case SameLengthHigherRank => |p| == current.cardCount && analyse(p).value.primaryRank > current.primaryRank
    case BiggerOrHigherBomb =>
      |p| > current.cardCount || (|p| == current.cardCount && analyse(p).value.primaryRank > current.primaryRank)
  }

  /** The plays that pass the rule, in order. */
  function Select(analyse: Analysis, plays: seq<seq<Card>>, current: PlayPattern, rule: Rule): seq<seq<Card>>
    decreases |plays|
  {
    if plays == [] then []
    else
      var last := plays[|plays| - 1];
      Select(analyse, plays[..|plays| - 1], current, rule) + (if Passes(analyse, last, current, rule) then [last] else [])
  }

  /** Select keeps exactly the plays that pass the rule. */
  lemma {:induction false} SelectMembers(analyse: Analysis, plays: seq<seq<Card>>, current: PlayPattern, rule: Rule)
    ensures forall p :: p in Select(analyse, plays, current, rule) <==> p in plays && Passes(analyse, p, current, rule)
    decreases |plays|
  {
    if plays != [] {
      var init := plays[..|plays| - 1];
      SelectMembers(analyse, init, current, rule);
      assert plays == init + [plays[|plays| - 1]];
    }
  }

  lemma SelectStep(analyse: Analysis, plays: seq<seq<Card>>, current: PlayPattern, rule: Rule, i: nat)
    requires i < |plays|
    ensures Select(analyse, plays[..i + 1], current, rule)
              == Select(analyse, plays[..i], current, rule) + (if Passes(analyse, plays[i], current, rule) then [plays[i]] else [])
  {
    assert plays[..i + 1][..i] == plays[..i];
  }

  /** The `into_iter().filter(..).collect()` of a `_generate_higher_*` helper. */
  method SelectPlays(analyse: Analysis, plays: seq<seq<Card>>, current: PlayPattern, rule: Rule)
    returns (selected: seq<seq<Card>>)
    ensures selected == Select(analyse, plays, current, rule)
  {
    selected := [];
    for i := 0 to |plays|
      invariant selected == Select(analyse, plays[..i], current, rule)
    {
      SelectStep(analyse, plays, current, rule, i);
      if Passes(analyse, plays[i], current, rule) {
        selected := selected + [plays[i]];
      }
    }
    assert plays[..|plays|] == plays;
  }

  /** `_generate_higher_singles`: every card of the hand above the current rank, alone, in hand order. */
  function HigherSingles(hand: seq<Card>, current: PlayPattern): seq<seq<Card>>
    decreases |hand|
  {
    if hand == [] then []
    else
      var last := hand[|hand| - 1];
      HigherSingles(hand[..|hand| - 1], current) + (if last.rank > current.primaryRank then [[last]] else [])
  }

  /** The higher singles are exactly the cards of the hand ranked above the current play. */
  lemma {:induction false} HigherSinglesMembers(hand: seq<Card>, current: PlayPattern)
    ensures forall p: seq<Card> :: p in HigherSingles(hand, current) <==>
              |p| == 1 && p[0] in hand && p[0].rank > current.primaryRank
    decreases |hand|
  {
    if hand != [] {
      var init := hand[..|hand| - 1];
      HigherSinglesMembers(init, current);
      assert hand == init + [hand[|hand| - 1]];
      forall p: seq<Card> | |p| == 1 ensures p == [p[0]] { }
    }
  }

  lemma HigherSinglesStep(hand: seq<Card>, current: PlayPattern, i: nat)
    requires i < |hand|
    ensures HigherSingles(hand[..i + 1], current)
              == HigherSingles(hand[..i], current) + (if hand[i].rank > current.primaryRank then [[hand[i]]] else [])
  {
    assert hand[..i + 1][..i] == hand[..i];
  }

  method GenerateHigherSingles(hand: seq<Card>, current: PlayPattern) returns (higher: seq<seq<Card>>)
    ensures higher == HigherSingles(hand, current)
  {
    higher := [];
    for i := 0 to |hand|
      invariant higher == HigherSingles(hand[..i], current)
    {
      HigherSinglesStep(hand, current, i);
      if hand[i].rank > current.primaryRank {
        higher := higher + [[hand[i]]];
      }
    }
    assert hand[..|hand|] == hand;
  }

  /** Step 1: the same-type plays above the current one, for the types that have a helper. */
  function SameTypeCandidates(analyse: Analysis, hand: seq<Card>, current: PlayPattern): seq<seq<Card>> {
    match current.playType
    case Single => HigherSingles(hand, current)
    case Pair => Select(analyse, Generated(hand, PairGroups, VerdictOf(analyse)), current, HigherRank)
    case ConsecutivePairs =>
      Select(analyse, ChainPlays(hand, PairChains, VerdictOf(analyse)), current, SameLengthHigherRank)
    case Triple => Select(analyse, Generated(hand, TripleGroups, VerdictOf(analyse)), current, HigherRank)
    case Airplane =>
      Select(analyse, ChainPlays(hand, TripleChains, VerdictOf(analyse)), current, SameLengthHigherRank)
    case AirplaneWithWings =>
      Select(analyse, ChainPlays(hand, WingedChains, VerdictOf(analyse)), current, SameLengthHigherRank)
    case _ => []
  }

  /** Step 2: every trump against an ordinary play; against a trump, the higher
      trumps of its kind and the kinds above it. */
  function TrumpCandidates(analyse: Analysis, hand: seq<Card>, current: PlayPattern): seq<seq<Card>> {
    var bombs := Generated(hand, BombGroups, VerdictOf(analyse));
    var tongzi := Generated(hand, TongziGroups, VerdictOf(analyse));
    var dizha := Generated(hand, DizhaGroups(RustSuitOrder), VerdictOf(analyse));
    if !IsTrump(current.playType) then bombs + tongzi + dizha
    else if current.playType == Bomb then Select(analyse, bombs, current, BiggerOrHigherBomb) + tongzi + dizha
    else if current.playType == Tongzi then PyPlayGenerator.Responses(tongzi, current) + dizha
    else Select(analyse, dizha, current, HigherRank)
  }

  /** What the function returns: nothing for an empty hand; otherwise the
      candidates of both steps that `can_beat_play` accepts, in order. */
  function SameTypeOrTrump(analyse: Analysis, hand: seq<Card>, current: PlayPattern): seq<seq<Card>> {
    if hand == [] then []
    else PyPlayGenerator.Responses(SameTypeCandidates(analyse, hand, current) + TrumpCandidates(analyse, hand, current), current)
  }

  method GenerateSameTypeCandidates(analyse: Analysis, hand: seq<Card>, current: PlayPattern)
    returns (candidates: seq<seq<Card>>)
    ensures candidates == SameTypeCandidates(analyse, hand, current)
  {
    match current.playType
    case Single =>
      candidates := GenerateHigherSingles(hand, current);
    case Pair =>
      var pairs := GeneratePairs(hand, VerdictOf(analyse));
      candidates := SelectPlays(analyse, pairs, current, HigherRank);
    case ConsecutivePairs =>
      var chains := GenerateChains(hand, PairChains, VerdictOf(analyse));
      candidates := SelectPlays(analyse, chains, current, SameLengthHigherRank);
    case Triple =>
      var triples := GenerateTriples(hand, VerdictOf(analyse));
      candidates := SelectPlays(analyse, triples, current, HigherRank);
    case Airplane =>
      var airplanes := GenerateChains(hand, TripleChains, VerdictOf(analyse));
      candidates := SelectPlays(analyse, airplanes, current, SameLengthHigherRank);
    case AirplaneWithWings =>
      var withWings := GenerateChains(hand, WingedChains, VerdictOf(analyse));
      candidates := SelectPlays(analyse, withWings, current, SameLengthHigherRank);
    case _ =>
      candidates := [];
  }

  method GenerateTrumpCandidates(analyse: Analysis, hand: seq<Card>, current: PlayPattern)
    returns (candidates: seq<seq<Card>>)
    ensures candidates == TrumpCandidates(analyse, hand, current)
  {
    if !IsTrump(current.playType) {
      var bombs := GenerateBombs(hand, VerdictOf(analyse));
      var tongzi := GenerateTongzi(hand, VerdictOf(analyse));
      var dizha := GenerateDizha(hand, RustSuitOrder, VerdictOf(analyse));
      candidates := bombs + tongzi + dizha;
    } else if current.playType == Bomb {
      var bombs := GenerateBombs(hand, VerdictOf(analyse));
      var higher := SelectPlays(analyse, bombs, current, BiggerOrHigherBomb);
      var tongzi := GenerateTongzi(hand, VerdictOf(analyse));
      var dizha := GenerateDizha(hand, RustSuitOrder, VerdictOf(analyse));
      candidates := higher + tongzi + dizha;
    } else if current.playType == Tongzi {
      var tongzi := GenerateTongzi(hand, VerdictOf(analyse));
      var higher := PyPlayGenerator.BeatingPlays(tongzi, current);
      var dizha := GenerateDizha(hand, RustSuitOrder, VerdictOf(analyse));
      candidates := higher + dizha;
    } else {
      var dizha := GenerateDizha(hand, RustSuitOrder, VerdictOf(analyse));
      candidates := SelectPlays(analyse, dizha, current, HigherRank);
    }
  }

  method GenerateBeatingPlays(analyse: Analysis, hand: seq<Card>, current: PlayPattern)
    returns (plays: seq<seq<Card>>)
    ensures plays == SameTypeOrTrump(analyse, hand, current)
  {
    if hand == [] {
      return [];
    }
    var sameType := GenerateSameTypeCandidates(analyse, hand, current);
    var trumps := GenerateTrumpCandidates(analyse, hand, current);
    plays := PyPlayGenerator.BeatingPlays(sameType + trumps, current);
  }

  // ---------------------------------------------------------------------------
  // Properties of the beating plays

  /** No listed play takes a card more often than the hand holds it. */
  ghost predicate Drawn(plays: seq<seq<Card>>, hand: seq<Card>) {
    forall p :: p in plays ==> multiset(p) <= multiset(hand)
  }

  lemma GeneratedDrawn(hand: seq<Card>, kind: GroupKind, recognised: Verdict)
    requires kind.DizhaGroups? ==> NoDup(kind.suitOrder)
    ensures Drawn(Generated(hand, kind, recognised), hand)
  {
    forall p | p in Generated(hand, kind, recognised) ensures multiset(p) <= multiset(hand) {
      GeneratedSound(hand, kind, recognised, p);
    }
  }

  lemma ChainDrawn(hand: seq<Card>, kind: ChainKind, recognised: Verdict)
    ensures Drawn(ChainPlays(hand, kind, recognised), hand)
  {
    ChainPlaysSound(hand, kind, recognised);
  }

  lemma SelectDrawn(analyse: Analysis, plays: seq<seq<Card>>, current: PlayPattern, rule: Rule, hand: seq<Card>)
    requires Drawn(plays, hand)
    ensures Drawn(Select(analyse, plays, current, rule), hand)
  {
    SelectMembers(analyse, plays, current, rule);
  }

  lemma ResponsesDrawn(plays: seq<seq<Card>>, current: PlayPattern, hand: seq<Card>)
    requires Drawn(plays, hand)
    ensures Drawn(PyPlayGenerator.Responses(plays, current), hand)
  {
    PyPlayGenerator.ResponsesMembers(plays, current);
  }

  lemma HigherSinglesDrawn(hand: seq<Card>, current: PlayPattern)
    ensures Drawn(HigherSingles(hand, current), hand)
  {
    HigherSinglesMembers(hand, current);
    forall p | p in HigherSingles(hand, current) ensures multiset(p) <= multiset(hand) {
      assert p == [p[0]] && p[0] in multiset(hand);
    }
  }

  lemma SameTypeCandidatesDrawn(analyse: Analysis, hand: seq<Card>, current: PlayPattern)
    ensures Drawn(SameTypeCandidates(analyse, hand, current), hand)
  {
    var v := VerdictOf(analyse);
    match current.playType
    case Single => HigherSinglesDrawn(hand, current);
    case Pair =>
      GeneratedDrawn(hand, PairGroups, v);
      SelectDrawn(analyse, Generated(hand, PairGroups, v), current, HigherRank, hand);
    case ConsecutivePairs =>
      ChainDrawn(hand, PairChains, v);
      SelectDrawn(analyse, ChainPlays(hand, PairChains, v), current, SameLengthHigherRank, hand);
    case Triple =>
      GeneratedDrawn(hand, TripleGroups, v);
      SelectDrawn(analyse, Generated(hand, TripleGroups, v), current, HigherRank, hand);
    case Airplane =>
      ChainDrawn(hand, TripleChains, v);
      SelectDrawn(analyse, ChainPlays(hand, TripleChains, v), current, SameLengthHigherRank, hand);
    case AirplaneWithWings =>
      ChainDrawn(hand, WingedChains, v);
      SelectDrawn(analyse, ChainPlays(hand, WingedChains, v), current, SameLengthHigherRank, hand);
    case _ =>
  }

  lemma TrumpCandidatesDrawn(analyse: Analysis, hand: seq<Card>, current: PlayPattern)
    ensures Drawn(TrumpCandidates(analyse, hand, current), hand)
  {
    var v := VerdictOf(analyse);
    RustSuitOrderDistinct();
    var bombs := Generated(hand, BombGroups, v);
    var tongzi := Generated(hand, TongziGroups, v);
    var dizha := Generated(hand, DizhaGroups(RustSuitOrder), v);
    GeneratedDrawn(hand, BombGroups, v);
    GeneratedDrawn(hand, TongziGroups, v);
    GeneratedDrawn(hand, DizhaGroups(RustSuitOrder), v);
    SelectDrawn(analyse, bombs, current, BiggerOrHigherBomb, hand);
    ResponsesDrawn(tongzi, current, hand);
    SelectDrawn(analyse, dizha, current, HigherRank, hand);
  }

  /** A play is returned exactly when it is a candidate of either step and
      `can_beat_play` accepts it; so every returned play is recognised, drawn
      from the hand, and of the current type or a trump. */
  lemma SameTypeOrTrumpSound(analyse: Analysis, hand: seq<Card>, current: PlayPattern)
    ensures forall p :: p in SameTypeOrTrump(analyse, hand, current) <==>
              && hand != []
              && p in SameTypeCandidates(analyse, hand, current) + TrumpCandidates(analyse, hand, current)
              && CanBeatPlay(p, Some(current))
    ensures forall p :: p in SameTypeOrTrump(analyse, hand, current) ==>
              && IsValidPlay(p)
              && multiset(p) <= multiset(hand)
              && (AnalyzeCards(p).value.playType == current.playType || IsTrump(AnalyzeCards(p).value.playType))
  {
    if hand != [] {
      var candidates := SameTypeCandidates(analyse, hand, current) + TrumpCandidates(analyse, hand, current);
      PyPlayGenerator.ResponsesMembers(candidates, current);
      SameTypeCandidatesDrawn(analyse, hand, current);
      TrumpCandidatesDrawn(analyse, hand, current);
      forall p | p in SameTypeOrTrump(analyse, hand, current)
        ensures IsValidPlay(p) && multiset(p) <= multiset(hand)
        ensures AnalyzeCards(p).value.playType == current.playType || IsTrump(AnalyzeCards(p).value.playType)
      {
        var next := AnalyzeCards(p).value;
        if !IsTrump(next.playType) {
          if IsTrump(current.playType) {
            OnlyTrumpBeatsTrump(next, current);
          }
          OrdinaryComparison(next, current);
        }
      }
    }
  }

  /** Against an ordinary play every Bomb and Dizha of the hand is returned. */
  lemma TrumpsAnswerOrdinary(analyse: Analysis, hand: seq<Card>, current: PlayPattern)
    requires Analyses(analyse)
    requires hand != [] && !IsTrump(current.playType)
    ensures forall p :: p in Generated(hand, BombGroups, VerdictOf(analyse)) ==> p in SameTypeOrTrump(analyse, hand, current)
    ensures forall p :: p in Generated(hand, DizhaGroups(RustSuitOrder), VerdictOf(analyse)) ==>
              p in SameTypeOrTrump(analyse, hand, current)
  {
    TrumpsBeatOrdinary(analyse, current);
    OfferedTrumpsAnswer(analyse, hand, current);
  }

  /** Every play the recognizer calls a Bomb or a Dizha beats the current play. */
  ghost predicate BombsAndDizhaBeat(analyse: Analysis, current: PlayPattern) {
    forall p :: VerdictOf(analyse)(p, Bomb) || VerdictOf(analyse)(p, Dizha) ==> CanBeatPlay(p, Some(current))
  }

  lemma TrumpsBeatOrdinary(analyse: Analysis, current: PlayPattern)
    requires Analyses(analyse) && !IsTrump(current.playType)
    ensures BombsAndDizhaBeat(analyse, current)
  {
    forall p | VerdictOf(analyse)(p, Bomb) || VerdictOf(analyse)(p, Dizha) ensures CanBeatPlay(p, Some(current)) {
      assert AnalyzeCards(p) == analyse(p);
      if VerdictOf(analyse)(p, Bomb) {
        BombOverrides(AnalyzeCards(p).value, current);
      } else {
        DizhaOverrides(AnalyzeCards(p).value, current);
      }
    }
  }

  lemma OfferedTrumpsAnswer(analyse: Analysis, hand: seq<Card>, current: PlayPattern)
    requires BombsAndDizhaBeat(analyse, current)
    requires hand != [] && !IsTrump(current.playType)
    ensures forall p :: p in Generated(hand, BombGroups, VerdictOf(analyse)) ==> p in SameTypeOrTrump(analyse, hand, current)
    ensures forall p :: p in Generated(hand, DizhaGroups(RustSuitOrder), VerdictOf(analyse)) ==>
              p in SameTypeOrTrump(analyse, hand, current)
  {
    var v := VerdictOf(analyse);
    var bombs := Generated(hand, BombGroups, v);
    var dizha := Generated(hand, DizhaGroups(RustSuitOrder), v);
    RustSuitOrderDistinct();
    forall p | p in bombs ensures v(p, Bomb) {
      GeneratedSound(hand, BombGroups, v, p);
    }
    forall p | p in dizha ensures v(p, Dizha) {
      GeneratedSound(hand, DizhaGroups(RustSuitOrder), v, p);
    }
    TrumpsKept(analyse, current, SameTypeCandidates(analyse, hand, current), bombs, Generated(hand, TongziGroups, v), dizha);
  }

  lemma RustSuitOrderDistinct()
    ensures NoDup(RustSuitOrder)
  {
  }

  /** The final filter keeps every offered Bomb and Dizha when each of them beats the current play. */
  lemma TrumpsKept(analyse: Analysis, current: PlayPattern, before: seq<seq<Card>>,
                   bombs: seq<seq<Card>>, tongzi: seq<seq<Card>>, dizha: seq<seq<Card>>)
    requires BombsAndDizhaBeat(analyse, current)
    requires forall p :: p in bombs ==> VerdictOf(analyse)(p, Bomb)
    requires forall p :: p in dizha ==> VerdictOf(analyse)(p, Dizha)
    ensures forall p :: p in bombs || p in dizha ==> p in PyPlayGenerator.Responses(before + (bombs + tongzi + dizha), current)
  {
    PyPlayGenerator.ResponsesMembers(before + (bombs + tongzi + dizha), current);
  }

  /** No Tongzi is returned against an ordinary play: the generator offers every
      Tongzi, but `can_beat_play` lets a Tongzi beat only a Bomb or a Tongzi. */
  lemma NoTongziAnswersOrdinary(analyse: Analysis, hand: seq<Card>, current: PlayPattern)
    requires !IsTrump(current.playType)
    ensures forall p :: p in SameTypeOrTrump(analyse, hand, current) ==> !IsType(p, Tongzi)
  {
    if hand != [] {
      var candidates := SameTypeCandidates(analyse, hand, current) + TrumpCandidates(analyse, hand, current);
      PyPlayGenerator.ResponsesMembers(candidates, current);
      forall p | p in SameTypeOrTrump(analyse, hand, current) ensures !IsType(p, Tongzi) {
        if IsType(p, Tongzi) {
          TongziOverrides(AnalyzeCards(p).value, current);
        }
      }
    }
  }

  /** A bomb of five Fives. */
  const FiveFives: seq<Card> := [Card(Spades, Five), Card(Hearts, Five), Card(Clubs, Five), Card(Diamonds, Five), Card(Spades, Five)]

  /** The pattern of a bomb of four Kings. */
  const FourKings: PlayPattern := PlayPattern(Bomb, King, None, [], 4, 13004)

  /** The higher-bomb filter lets a bigger bomb of a lower rank through, and the
      validator, which compares a bomb's rank before its size, refuses it. */
  lemma BiggerLowerBombRefused(analyse: Analysis)
    requires Analyses(analyse)
    ensures Passes(analyse, FiveFives, FourKings, BiggerOrHigherBomb)
    ensures !CanBeatPlay(FiveFives, Some(FourKings))
  {
    BombRecognised(FiveFives);
    assert IsBombShape(FiveFives) by {
      forall i | 0 <= i < |FiveFives| ensures FiveFives[i].rank == Five { }
    }
    assert AnalyzeCards(FiveFives) == analyse(FiveFives);
  }
}

/**
 * The Python `PlayGenerator`: every play a hand can make, generator after
 * generator, and the sub-list of them that beats the pattern on the table.
 * The recognizer's verdict is a parameter (`Verdict`); the lemmas that speak
 * of the real recognizer assume only that the verdict is its own
 * (`Recognises`).
 */
module PyPlayGenerator {
  import opened Wrappers
  import opened Cards
  import opened Patterns
  import opened Recognizer
  import opened RecognizerProperties
  import opened Validator
  import opened HandAnalysis
  import opened PlayCombinations
  import opened GroupGenerators
  import opened ChainGenerators

  /** `[[card] for card in hand]`. */
  function Singles(hand: seq<Card>): (r: seq<seq<Card>>)
    ensures |r| == |hand|
    ensures forall i :: 0 <= i < |hand| ==> r[i] == [hand[i]]
  {
    seq(|hand|, i requires 0 <= i < |hand| => [hand[i]])
  }

  // ---------------------------------------------------------------------------
  // _generate_triple_with_two

  /** `triple_ranks`: the listed ranks holding at least three cards, in list order. */
  function TripleRanks(hand: seq<Card>, ks: seq<int>): seq<int>
    decreases |ks|
  {
    if ks == [] then []
    else
      var last := ks[|ks| - 1];
      TripleRanks(hand, ks[..|ks| - 1]) + (if |Group(hand, RankOf, last)| >= 3 then [last] else [])
  }

  /** The first part of `pair_ranks`: listed ranks holding two cards that are not triple ranks. */
  function OtherPairRanks(hand: seq<Card>, ks: seq<int>, triples: seq<int>): seq<int>
    decreases |ks|
  {
    if ks == [] then []
    else
      var last := ks[|ks| - 1];
      OtherPairRanks(hand, ks[..|ks| - 1], triples)
        + (if |Group(hand, RankOf, last)| >= 2 && last !in triples then [last] else [])
  }

  /** The triple ranks appended to `pair_ranks`: those holding five cards. */
  function FiveRanks(hand: seq<Card>, triples: seq<int>): seq<int>
    decreases |triples|
  {
    if triples == [] then []
    else
      var last := triples[|triples| - 1];
      FiveRanks(hand, triples[..|triples| - 1]) + (if |Group(hand, RankOf, last)| >= 5 then [last] else [])
  }

  /** The candidate for a triple rank and a pair rank: the first three cards of the
      triple rank, then the first two of the pair rank, or cards 3 and 4 of the
      same rank when the two ranks agree and it holds five cards. */
  function TwtCandidate(hand: seq<Card>, t: int, q: int): Option<seq<Card>> {
    var tg, qg := Group(hand, RankOf, t), Group(hand, RankOf, q);
    if q == t then
      if |qg| >= 5 then Some(Take(tg, 3) + qg[3..5]) else None
    else Some(Take(tg, 3) + Take(qg, 2))
  }

  /** The inner loop: the combinations of one triple rank with each pair rank that
      the recognizer calls a TripleWithTwo. */
  function TwtRow(hand: seq<Card>, t: int, ps: seq<int>, recognised: Verdict): seq<seq<Card>>
    decreases |ps|
  {
    if ps == [] then []
    else
      var c := TwtCandidate(hand, t, ps[|ps| - 1]);
      TwtRow(hand, t, ps[..|ps| - 1], recognised)
        + (if c.Some? && recognised(c.value, TripleWithTwo) then [c.value] else [])
  }

  /** The outer loop over the triple ranks. */
  function TwtPlays(hand: seq<Card>, ts: seq<int>, ps: seq<int>, recognised: Verdict): seq<seq<Card>>
    decreases |ts|
  {
    if ts == [] then [] else TwtPlays(hand, ts[..|ts| - 1], ps, recognised) + TwtRow(hand, ts[|ts| - 1], ps, recognised)
  }

  /** What `_generate_triple_with_two` returns. */
  function TripleWithTwoPlays(hand: seq<Card>, recognised: Verdict): seq<seq<Card>> {
    var ks := Keys(hand, RankOf);
    var ts := TripleRanks(hand, ks);
    TwtPlays(hand, ts, OtherPairRanks(hand, ks, ts) + FiveRanks(hand, ts), recognised)
  }

  /** p is a TripleWithTwo play the generator builds from triple rank t and pair rank q. */
  predicate TwtFrom(hand: seq<Card>, t: int, q: int, p: seq<Card>, recognised: Verdict) {
    TwtCandidate(hand, t, q) == Some(p) && recognised(p, TripleWithTwo)
  }

  lemma {:induction false} TwtRowSound(hand: seq<Card>, t: int, ps: seq<int>, recognised: Verdict, p: seq<Card>)
    requires p in TwtRow(hand, t, ps, recognised)
    ensures exists q :: q in ps && TwtFrom(hand, t, q, p, recognised)
    decreases |ps|
  {
    var init, q := ps[..|ps| - 1], ps[|ps| - 1];
    if p in TwtRow(hand, t, init, recognised) {
      TwtRowSound(hand, t, init, recognised, p);
      var q' :| q' in init && TwtFrom(hand, t, q', p, recognised);
      assert q' in ps;
    } else {
      assert q in ps && TwtFrom(hand, t, q, p, recognised);
    }
  }

  lemma {:induction false} TwtPlaysSound(hand: seq<Card>, ts: seq<int>, ps: seq<int>, recognised: Verdict, p: seq<Card>)
    requires p in TwtPlays(hand, ts, ps, recognised)
    ensures exists t, q :: t in ts && q in ps && TwtFrom(hand, t, q, p, recognised)
    decreases |ts|
  {
    var init, t := ts[..|ts| - 1], ts[|ts| - 1];
    if p in TwtPlays(hand, init, ps, recognised) {
      TwtPlaysSound(hand, init, ps, recognised, p);
      var t', q :| t' in init && q in ps && TwtFrom(hand, t', q, p, recognised);
      assert t' in ts;
    } else {
      TwtRowSound(hand, t, ps, recognised, p);
      assert t in ts;
    }
  }

  /** A candidate takes no card more often than the hand holds it. */
  lemma TwtCandidateWithin(hand: seq<Card>, t: int, q: int, p: seq<Card>, recognised: Verdict)
    requires TwtFrom(hand, t, q, p, recognised)
    ensures multiset(p) <= multiset(hand)
  {
    var tg, qg := Group(hand, RankOf, t), Group(hand, RankOf, q);
    GroupMultiset(hand, RankOf, t);
    TakeWithin(tg, 3);
    if q == t {
      assert p == qg[..5];
      PrefixWithin(qg, 5);
    } else {
      GroupMultiset(hand, RankOf, q);
      TakeWithin(qg, 2);
      forall c ensures multiset(p)[c] <= multiset(hand)[c] {
        assert multiset(p)[c] == multiset(Take(tg, 3))[c] + multiset(Take(qg, 2))[c];
      }
    }
  }

  /** Every play `_generate_triple_with_two` returns is a TripleWithTwo built from a
      triple rank and a pair rank, and is drawn from the hand. */
  lemma TripleWithTwoSound(hand: seq<Card>, recognised: Verdict, p: seq<Card>)
    requires p in TripleWithTwoPlays(hand, recognised)
    ensures recognised(p, TripleWithTwo) && multiset(p) <= multiset(hand)
    ensures exists t, q :: TwtFrom(hand, t, q, p, recognised)
  {
    var ks := Keys(hand, RankOf);
    var ts := TripleRanks(hand, ks);
    TwtPlaysSound(hand, ts, OtherPairRanks(hand, ks, ts) + FiveRanks(hand, ts), recognised, p);
    var t, q :| TwtFrom(hand, t, q, p, recognised);
    TwtCandidateWithin(hand, t, q, p, recognised);
  }

  /** The same-rank candidate is five cards of one rank, which the recognizer
      never calls a TripleWithTwo (it calls them a Bomb). */
  lemma SameRankCandidateRejected(hand: seq<Card>, t: int, p: seq<Card>)
    requires TwtCandidate(hand, t, t) == Some(p)
    ensures !IsType(p, TripleWithTwo)
  {
    var g := Group(hand, RankOf, t);
    assert p == g[..5];
    GroupMembers(hand, RankOf, t);
    assert forall i :: 0 <= i < |p| ==> p[i].rank == t by {
      forall i | 0 <= i < |p| ensures p[i].rank == t {
        assert p[i] in g;
      }
    }
    TripleWithTwoRecognised(p);
    if IsType(p, TripleWithTwo) {
      var a: Rank, b: Rank :| IsTripleWithTwoShape(p, a, b);
      if a != t { RankCountZero(p, a); } else { RankCountZero(p, b); }
      assert false;
    }
  }

  /** So the same-rank branch never yields a play: every play joins the first
      three cards of one rank with the first two of another. */
  lemma SameRankNeverKept(hand: seq<Card>, recognised: Verdict, p: seq<Card>)
    requires Recognises(recognised) && p in TripleWithTwoPlays(hand, recognised)
    ensures exists t, q :: t != q && p == Take(Group(hand, RankOf, t), 3) + Take(Group(hand, RankOf, q), 2)
  {
    TripleWithTwoSound(hand, recognised, p);
    var t, q :| TwtFrom(hand, t, q, p, recognised);
    if q == t {
      SameRankCandidateRejected(hand, t, p);
      assert false;
    }
  }

  // ---------------------------------------------------------------------------
  // One more step of each loop

  lemma TripleRanksStep(hand: seq<Card>, ks: seq<int>, i: nat)
    requires i < |ks|
    ensures TripleRanks(hand, ks[..i + 1]) == TripleRanks(hand, ks[..i]) + (if |Group(hand, RankOf, ks[i])| >= 3 then [ks[i]] else [])
  {
    assert ks[..i + 1][..i] == ks[..i];
  }

  lemma OtherPairRanksStep(hand: seq<Card>, ks: seq<int>, ts: seq<int>, i: nat)
    requires i < |ks|
    ensures OtherPairRanks(hand, ks[..i + 1], ts)
              == OtherPairRanks(hand, ks[..i], ts) + (if |Group(hand, RankOf, ks[i])| >= 2 && ks[i] !in ts then [ks[i]] else [])
  {
    assert ks[..i + 1][..i] == ks[..i];
  }

  lemma FiveRanksStep(hand: seq<Card>, ts: seq<int>, i: nat)
    requires i < |ts|
    ensures FiveRanks(hand, ts[..i + 1]) == FiveRanks(hand, ts[..i]) + (if |Group(hand, RankOf, ts[i])| >= 5 then [ts[i]] else [])
  {
    assert ts[..i + 1][..i] == ts[..i];
  }

  lemma TwtRowStep(hand: seq<Card>, t: int, ps: seq<int>, j: nat, recognised: Verdict)
    requires j < |ps|
    ensures TwtRow(hand, t, ps[..j + 1], recognised) == TwtRow(hand, t, ps[..j], recognised)
              + (if TwtCandidate(hand, t, ps[j]).Some? && recognised(TwtCandidate(hand, t, ps[j]).value, TripleWithTwo)
                 then [TwtCandidate(hand, t, ps[j]).value] else [])
  {
    assert ps[..j + 1][..j] == ps[..j];
  }

  lemma TwtPlaysStep(hand: seq<Card>, ts: seq<int>, ps: seq<int>, i: nat, recognised: Verdict)
    requires i < |ts|
    ensures TwtPlays(hand, ts[..i + 1], ps, recognised) == TwtPlays(hand, ts[..i], ps, recognised) + TwtRow(hand, ts[i], ps, recognised)
  {
    assert ts[..i + 1][..i] == ts[..i];
  }

  /** `triple_ranks`, from the rank groups. */
  method TripleRanksOf(ghost hand: seq<Card>, keys: seq<int>, groups: map<int, seq<Card>>) returns (ts: seq<int>)
    requires forall k :: Lookup(groups, k) == Group(hand, RankOf, k)
    ensures ts == TripleRanks(hand, keys)
  {
    ts := [];
    for i := 0 to |keys|
      invariant ts == TripleRanks(hand, keys[..i])
    {
      TripleRanksStep(hand, keys, i);
      if |Lookup(groups, keys[i])| >= 3 {
        ts := ts + [keys[i]];
      }
    }
    assert keys[..|keys|] == keys;
  }

  /** `pair_ranks`: the other ranks holding two cards, then the triple ranks holding five. */
  method PairRanksOf(ghost hand: seq<Card>, keys: seq<int>, groups: map<int, seq<Card>>, ts: seq<int>) returns (ps: seq<int>)
    requires forall k :: Lookup(groups, k) == Group(hand, RankOf, k)
    ensures ps == OtherPairRanks(hand, keys, ts) + FiveRanks(hand, ts)
  {
    ps := [];
    for i := 0 to |keys|
      invariant ps == OtherPairRanks(hand, keys[..i], ts)
    {
      OtherPairRanksStep(hand, keys, ts, i);
      if |Lookup(groups, keys[i])| >= 2 && keys[i] !in ts {
        ps := ps + [keys[i]];
      }
    }
    assert keys[..|keys|] == keys;
    var fives := [];
    for i := 0 to |ts|
      invariant fives == FiveRanks(hand, ts[..i])
    {
      FiveRanksStep(hand, ts, i);
      if |Lookup(groups, ts[i])| >= 5 {
        fives := fives + [ts[i]];
      }
    }
    assert ts[..|ts|] == ts;
    ps := ps + fives;
  }

  /** The inner loop over the pair ranks for one triple rank. */
  method TwtRowOf(ghost hand: seq<Card>, groups: map<int, seq<Card>>, t: int, ps: seq<int>, recognised: Verdict)
    returns (row: seq<seq<Card>>)
    requires forall k :: Lookup(groups, k) == Group(hand, RankOf, k)
    ensures row == TwtRow(hand, t, ps, recognised)
  {
    row := [];
    var tripleCards := Take(Lookup(groups, t), 3);
    for j := 0 to |ps|
      invariant row == TwtRow(hand, t, ps[..j], recognised)
    {
      TwtRowStep(hand, t, ps, j, recognised);
      var pairGroup := Lookup(groups, ps[j]);
      var combo: Option<seq<Card>>;
      if ps[j] == t {
        if |pairGroup| >= 5 {
          combo := Some(tripleCards + pairGroup[3..5]);
        } else {
          combo := None;
        }
      } else {
        combo := Some(tripleCards + Take(pairGroup, 2));
      }
      assert combo == TwtCandidate(hand, t, ps[j]);
      if combo.Some? && recognised(combo.value, TripleWithTwo) {
        row := row + [combo.value];
      }
    }
    assert ps[..|ps|] == ps;
  }

  /** `_generate_triple_with_two`. */
  method GenerateTripleWithTwo(hand: seq<Card>, recognised: Verdict) returns (results: seq<seq<Card>>)
    ensures results == TripleWithTwoPlays(hand, recognised)
  {
    var keys, groups := GroupBy(hand, RankOf);
    var ts := TripleRanksOf(hand, keys, groups);
    var ps := PairRanksOf(hand, keys, groups, ts);
    results := [];
    for i := 0 to |ts|
      invariant results == TwtPlays(hand, ts[..i], ps, recognised)
    {
      TwtPlaysStep(hand, ts, ps, i, recognised);
      var row := TwtRowOf(hand, groups, ts[i], ps, recognised);
      results := results + row;
    }
    assert ts[..|ts|] == ts;
  }

  // ---------------------------------------------------------------------------
  // generate_all_plays

  /** Every play after the singles, generator after generator. */
  function MultiCardPlays(hand: seq<Card>, recognised: Verdict): seq<seq<Card>> {
    Generated(hand, PairGroups, recognised)
      + ChainPlays(hand, PairChains, recognised)
      + Generated(hand, TripleGroups, recognised)
      + TripleWithTwoPlays(hand, recognised)
      + ChainPlays(hand, TripleChains, recognised)
      + ChainPlays(hand, WingedChains, recognised)
      + Generated(hand, BombGroups, recognised)
      + Generated(hand, TongziGroups, recognised)
      + Generated(hand, DizhaGroups(PySuitOrder), recognised)
  }

  /** What `generate_all_plays` returns: nothing for an empty hand, otherwise one
      single per card, in hand order, followed by every other play. */
  function AllPlays(hand: seq<Card>, recognised: Verdict): seq<seq<Card>> {
    if hand == [] then [] else Singles(hand) + MultiCardPlays(hand, recognised)
  }

  method GenerateAllPlays(hand: seq<Card>, recognised: Verdict) returns (allPlays: seq<seq<Card>>)
    ensures allPlays == AllPlays(hand, recognised)
  {
    if hand == [] {
      return [];
    }
    var pairs := GeneratePairs(hand, recognised);
    var consecutivePairs := GenerateChains(hand, PairChains, recognised);
    var triples := GenerateTriples(hand, recognised);
    var tripleWithTwo := GenerateTripleWithTwo(hand, recognised);
    var airplanes := GenerateChains(hand, TripleChains, recognised);
    var withWings := GenerateChains(hand, WingedChains, recognised);
    var bombs := GenerateBombs(hand, recognised);
    var tongzi := GenerateTongzi(hand, recognised);
    var dizha := GenerateDizha(hand, PySuitOrder, recognised);
    var others := pairs + consecutivePairs + triples + tripleWithTwo + airplanes + withWings + bombs + tongzi + dizha;
    allPlays := Singles(hand) + others;
  }

  /** Every listed play is drawn from the hand and has a type other than Single. */
  ghost predicate MultiCard(plays: seq<seq<Card>>, recognised: Verdict, hand: seq<Card>) {
    forall p :: p in plays ==> multiset(p) <= multiset(hand) && exists t :: t != Single && recognised(p, t)
  }

  lemma SoundIsMultiCard(plays: seq<seq<Card>>, t: PlayType, recognised: Verdict, hand: seq<Card>)
    requires t != Single && Sound(plays, t, recognised, hand)
    ensures MultiCard(plays, recognised, hand)
  {
    forall p | p in plays ensures exists t' :: t' != Single && recognised(p, t') {
      assert recognised(p, t);
    }
  }

  lemma GeneratedMultiCard(hand: seq<Card>, kind: GroupKind, recognised: Verdict)
    requires kind.DizhaGroups? ==> NoDup(kind.suitOrder)
    ensures MultiCard(Generated(hand, kind, recognised), recognised, hand)
  {
    forall p | p in Generated(hand, kind, recognised)
      ensures multiset(p) <= multiset(hand) && exists t :: t != Single && recognised(p, t)
    {
      GeneratedSound(hand, kind, recognised, p);
      assert recognised(p, KindType(kind));
    }
  }

  lemma TripleWithTwoMultiCard(hand: seq<Card>, recognised: Verdict)
    ensures MultiCard(TripleWithTwoPlays(hand, recognised), recognised, hand)
  {
    forall p | p in TripleWithTwoPlays(hand, recognised)
      ensures multiset(p) <= multiset(hand) && exists t :: t != Single && recognised(p, t)
    {
      TripleWithTwoSound(hand, recognised, p);
    }
  }

  lemma ChainMultiCard(hand: seq<Card>, kind: ChainKind, recognised: Verdict)
    ensures MultiCard(ChainPlays(hand, kind, recognised), recognised, hand)
  {
    ChainPlaysSound(hand, kind, recognised);
    SoundIsMultiCard(ChainPlays(hand, kind, recognised), ChainKindType(kind), recognised, hand);
  }

  /** Every play after the singles is drawn from the hand and is no Single. */
  lemma MultiCardPlaysSound(hand: seq<Card>, recognised: Verdict)
    ensures MultiCard(MultiCardPlays(hand, recognised), recognised, hand)
  {
    assert NoDup(PySuitOrder);
    GeneratedMultiCard(hand, PairGroups, recognised);
    ChainMultiCard(hand, PairChains, recognised);
    GeneratedMultiCard(hand, TripleGroups, recognised);
    TripleWithTwoMultiCard(hand, recognised);
    ChainMultiCard(hand, TripleChains, recognised);
    ChainMultiCard(hand, WingedChains, recognised);
    GeneratedMultiCard(hand, BombGroups, recognised);
    GeneratedMultiCard(hand, TongziGroups, recognised);
    GeneratedMultiCard(hand, DizhaGroups(PySuitOrder), recognised);
  }

  /** An empty hand has no play; otherwise the list opens with one single per
      card, in hand order. */
  lemma AllPlaysStartWithSingles(hand: seq<Card>, recognised: Verdict)
    ensures hand == [] <==> AllPlays(hand, recognised) == []
    ensures |AllPlays(hand, recognised)| >= |hand|
    ensures forall i :: 0 <= i < |hand| ==> AllPlays(hand, recognised)[i] == [hand[i]]
  {
    if hand != [] {
      assert AllPlays(hand, recognised)[0] == [hand[0]];
    }
  }

  /** The singles followed by plays of other types drawn from the hand. */
  lemma SinglesThenOthers(hand: seq<Card>, others: seq<seq<Card>>, recognised: Verdict)
    requires MultiCard(others, recognised, hand)
    ensures forall p :: p in Singles(hand) + others ==> multiset(p) <= multiset(hand)
    ensures Recognises(recognised) ==> forall p :: p in Singles(hand) + others ==> IsValidPlay(p)
    ensures Recognises(recognised) ==>
              forall j :: |hand| <= j < |Singles(hand) + others| ==> !IsType((Singles(hand) + others)[j], Single)
  {
    forall p | p in Singles(hand) ensures multiset(p) <= multiset(hand) && IsType(p, Single) {
      var i :| 0 <= i < |hand| && Singles(hand)[i] == p;
      assert hand[i] in multiset(hand);
      SingleRecognised(p);
    }
    if Recognises(recognised) {
      forall p | p in others ensures IsValidPlay(p) && !IsType(p, Single) {
        var t :| t != Single && recognised(p, t);
        assert IsType(p, t);
      }
      forall j | |hand| <= j < |Singles(hand) + others| ensures !IsType((Singles(hand) + others)[j], Single) {
        assert (Singles(hand) + others)[j] == others[j - |hand|];
      }
    }
  }

  /** Every play takes no card more often than the hand holds it. */
  lemma AllPlaysWithinHand(hand: seq<Card>, recognised: Verdict)
    ensures forall p :: p in AllPlays(hand, recognised) ==> multiset(p) <= multiset(hand)
  {
    if hand != [] {
      MultiCardPlaysSound(hand, recognised);
      SinglesThenOthers(hand, MultiCardPlays(hand, recognised), recognised);
    }
  }

  /** With the recognizer's own verdict every play is a valid play, and the
      singles at the front are the only plays the recognizer calls a Single. */
  lemma AllPlaysRecognised(hand: seq<Card>, recognised: Verdict)
    requires Recognises(recognised)
    ensures forall p :: p in AllPlays(hand, recognised) ==> IsValidPlay(p)
    ensures forall j :: |hand| <= j < |AllPlays(hand, recognised)| ==> !IsType(AllPlays(hand, recognised)[j], Single)
  {
    if hand != [] {
      MultiCardPlaysSound(hand, recognised);
      SinglesThenOthers(hand, MultiCardPlays(hand, recognised), recognised);
    }
  }

  // ---------------------------------------------------------------------------
  // generate_valid_responses

  /** The plays that beat the current pattern, in list order. */
  function Responses(plays: seq<seq<Card>>, current: PlayPattern): seq<seq<Card>>
    decreases |plays|
  {
    if plays == [] then []
    else
      var last := plays[|plays| - 1];
      Responses(plays[..|plays| - 1], current) + (if CanBeatPlay(last, Some(current)) then [last] else [])
  }

  /** The responses are exactly the listed plays that beat the current pattern. */
  lemma {:induction false} ResponsesMembers(plays: seq<seq<Card>>, current: PlayPattern)
    ensures forall p :: p in Responses(plays, current) <==> p in plays && CanBeatPlay(p, Some(current))
    decreases |plays|
  {
    if plays != [] {
      var init := plays[..|plays| - 1];
      ResponsesMembers(init, current);
      assert plays == init + [plays[|plays| - 1]];
    }
  }

  /** What `generate_valid_responses` returns. */
  function ValidResponses(hand: seq<Card>, current: PlayPattern, recognised: Verdict): seq<seq<Card>> {
    Responses(AllPlays(hand, recognised), current)
  }

  lemma ResponsesStep(plays: seq<seq<Card>>, current: PlayPattern, i: nat)
    requires i < |plays|
    ensures Responses(plays[..i + 1], current)
              == Responses(plays[..i], current) + (if CanBeatPlay(plays[i], Some(current)) then [plays[i]] else [])
  {
    assert plays[..i + 1][..i] == plays[..i];
  }

  /** The list comprehension over the generated plays. */
  method BeatingPlays(plays: seq<seq<Card>>, current: PlayPattern) returns (responses: seq<seq<Card>>)
    ensures responses == Responses(plays, current)
  {
    responses := [];
    for i := 0 to |plays|
      invariant responses == Responses(plays[..i], current)
    {
      ResponsesStep(plays, current, i);
      if CanBeatPlay(plays[i], Some(current)) {
        responses := responses + [plays[i]];
      }
    }
    assert plays[..|plays|] == plays;
  }

  method GenerateValidResponses(hand: seq<Card>, current: PlayPattern, recognised: Verdict) returns (responses: seq<seq<Card>>)
    ensures responses == ValidResponses(hand, current, recognised)
  {
    var allPlays := GenerateAllPlays(hand, recognised);
    responses := BeatingPlays(allPlays, current);
  }

  /** Every response is a generated play that beats the current pattern, and so a
      valid play drawn from the hand; every card that beats it alone is among the
      responses. */
  lemma ValidResponsesSound(hand: seq<Card>, current: PlayPattern, recognised: Verdict)
    ensures forall p :: p in ValidResponses(hand, current, recognised) <==>
              p in AllPlays(hand, recognised) && CanBeatPlay(p, Some(current))
    ensures forall p :: p in ValidResponses(hand, current, recognised) ==>
              IsValidPlay(p) && multiset(p) <= multiset(hand)
    ensures forall i :: 0 <= i < |hand| && CanBeatPlay([hand[i]], Some(current)) ==>
              [hand[i]] in ValidResponses(hand, current, recognised)
  {
    ResponsesMembers(AllPlays(hand, recognised), current);
    AllPlaysWithinHand(hand, recognised);
    AllPlaysStartWithSingles(hand, recognised);
    forall i | 0 <= i < |hand| ensures [hand[i]] in AllPlays(hand, recognised) {
      assert AllPlays(hand, recognised)[i] == [hand[i]];
    }
  }
}

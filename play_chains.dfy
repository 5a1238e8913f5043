/**
 * The chain generators shared by the Python and the Rust play generator:
 * consecutive pairs, airplanes and airplanes with wings. Each sorts the ranks
 * holding enough cards, tries every window of two or more of them (shorter
 * windows first, then left to right), and keeps the candidates of a window
 * whose ranks step by one that the recognizer gives the generator's type.
 */
module ChainGenerators {
  import opened Cards
  import opened Tally
  import opened RankTallies
  import opened Patterns
  import opened HandAnalysis
  import opened FormationValidator
  import opened PlayCombinations

  /** `_generate_consecutive_pairs`, `_generate_airplanes` or `_generate_airplane_with_wings`. */
  datatype ChainKind = PairChains | TripleChains | WingedChains

  /** How many cards each rank of the chain needs. */
  function Holding(kind: ChainKind): nat {
    if kind.PairChains? then 2 else 3
  }

  /** The type the generator keeps. */
  function ChainKindType(kind: ChainKind): PlayType {
    match kind
    case PairChains => ConsecutivePairs
    case TripleChains => Airplane
    case WingedChains => AirplaneWithWings
  }

  // ---------------------------------------------------------------------------
  // The wings of an airplane

  /** `remaining_cards`: the hand without every card equal to one of the body. */
  function Without(hand: seq<Card>, body: seq<Card>): seq<Card>
    decreases |hand|
  {
    if hand == [] then []
    else
      var last := hand[|hand| - 1];
      Without(hand[..|hand| - 1], body) + (if last in body then [] else [last])
  }

  /** `pair_ranks`: the listed keys whose group holds at least two cards, in list order. */
  function PairRanks(rest: seq<Card>, ks: seq<int>): seq<int>
    decreases |ks|
  {
    if ks == [] then []
    else
      var last := ks[|ks| - 1];
      PairRanks(rest, ks[..|ks| - 1]) + (if |Group(rest, RankOf, last)| >= 2 then [last] else [])
  }

  /** The airplane body followed by the first two cards of each rank of a combination. */
  function WingCombos(body: seq<Card>, rest: seq<Card>, combos: seq<seq<int>>): seq<seq<Card>>
    decreases |combos|
  {
    if combos == [] then []
    else WingCombos(body, rest, combos[..|combos| - 1]) + [body + Gather(rest, RankOf, 2, combos[|combos| - 1])]
  }

  /** What a window of ranks offers: its cards (the first two or three of each
      rank); with wings, its three cards of each rank joined with the first two
      cards of as many other ranks, for every choice of those ranks among the
      ranks still holding two cards once the body's cards are gone. */
  function Candidates(hand: seq<Card>, w: seq<int>, kind: ChainKind): seq<seq<Card>> {
    if !kind.WingedChains? then [Gather(hand, RankOf, Holding(kind), w)]
    else
      var body := Gather(hand, RankOf, 3, w);
      var rest := Without(hand, body);
      var pr := PairRanks(rest, Keys(rest, RankOf));
      if |pr| >= |w| then WingCombos(body, rest, Combinations(pr, |w|)) else []
  }

  /** The plays of one window: none unless its ranks step by one. */
  function WindowPlays(hand: seq<Card>, w: seq<int>, kind: ChainKind, recognised: Verdict): seq<seq<Card>> {
    if AreConsecutive(w) then Keep(Candidates(hand, w, kind), ChainKindType(kind), recognised) else []
  }

  /** The plays of the windows of n ranks of v starting before m, left to right. */
  function Windows(hand: seq<Card>, kind: ChainKind, v: seq<int>, n: nat, m: nat, recognised: Verdict): seq<seq<Card>>
    requires m == 0 || m - 1 + n <= |v|
    decreases m
  {
    if m == 0 then []
    else Windows(hand, kind, v, n, m - 1, recognised) + WindowPlays(hand, v[m - 1..m - 1 + n], kind, recognised)
  }

  /** The plays of the windows of every length from 2 below n (and at most |v|), shortest first. */
  function Lengths(hand: seq<Card>, kind: ChainKind, v: seq<int>, n: nat, recognised: Verdict): seq<seq<Card>>
    decreases n
  {
    if n <= 2 then []
    else Lengths(hand, kind, v, n - 1, recognised) + (if n - 1 <= |v| then Windows(hand, kind, v, n - 1, |v| - (n - 1) + 1, recognised) else [])
  }

  /** What the generator returns, over the sorted ranks holding enough cards. */
  function ChainPlays(hand: seq<Card>, kind: ChainKind, recognised: Verdict): seq<seq<Card>> {
    Lengths(hand, kind, RanksHolding(hand, Holding(kind)), |RanksHolding(hand, Holding(kind))| + 1, recognised)
  }

  // ---------------------------------------------------------------------------
  // Every play is of the type and drawn from the hand

  /** Every listed play has type t and takes no card more often than the hand holds it. */
  ghost predicate Sound(plays: seq<seq<Card>>, t: PlayType, recognised: Verdict, hand: seq<Card>) {
    forall p :: p in plays ==> recognised(p, t) && multiset(p) <= multiset(hand)
  }

  lemma SoundAppend(a: seq<seq<Card>>, b: seq<seq<Card>>, t: PlayType, recognised: Verdict, hand: seq<Card>)
    requires Sound(a, t, recognised, hand) && Sound(b, t, recognised, hand)
    ensures Sound(a + b, t, recognised, hand)
  {
  }

  lemma {:induction false} WithoutMultiset(hand: seq<Card>, body: seq<Card>)
    ensures forall c :: multiset(Without(hand, body))[c] == if c in body then 0 else multiset(hand)[c]
    decreases |hand|
  {
    if hand != [] {
      WithoutMultiset(hand[..|hand| - 1], body);
      assert hand == hand[..|hand| - 1] + [hand[|hand| - 1]];
    }
  }

  /** The pair ranks are distinct listed keys whose group holds two cards. */
  lemma {:induction false} PairRanksFacts(rest: seq<Card>, ks: seq<int>)
    requires NoDup(ks)
    ensures NoDup(PairRanks(rest, ks))
    ensures forall x :: x in PairRanks(rest, ks) ==> x in ks && |Group(rest, RankOf, x)| >= 2
    decreases |ks|
  {
    if ks != [] {
      var init, last := ks[..|ks| - 1], ks[|ks| - 1];
      NoDupInit(ks);
      PairRanksFacts(rest, init);
      var before := PairRanks(rest, init);
      if |Group(rest, RankOf, last)| >= 2 {
        forall i, j | 0 <= i < j < |before + [last]| ensures (before + [last])[i] != (before + [last])[j] {
          if j == |before| {
            assert (before + [last])[i] == before[i] && before[i] in before;
          } else {
            assert (before + [last])[i] == before[i] && (before + [last])[j] == before[j];
          }
        }
      }
    }
  }

  /** A wing candidate takes no card more often than the hand holds it: the wings
      come from the cards left once every copy of a body card is gone. */
  lemma WingWithin(hand: seq<Card>, body: seq<Card>, combo: seq<int>)
    requires multiset(body) <= multiset(hand) && NoDup(combo)
    ensures multiset(body + Gather(Without(hand, body), RankOf, 2, combo)) <= multiset(hand)
  {
    var rest := Without(hand, body);
    var wing := Gather(rest, RankOf, 2, combo);
    GatherBound(rest, RankOf, 2, combo);
    WithoutMultiset(hand, body);
    forall c ensures multiset(body + wing)[c] <= multiset(hand)[c] {
      assert multiset(body + wing)[c] == multiset(body)[c] + multiset(wing)[c];
      if c in body {
        assert multiset(wing)[c] == 0;
      } else {
        assert multiset(body)[c] == 0;
      }
    }
  }

  lemma {:induction false} WingCombosWithin(hand: seq<Card>, body: seq<Card>, combos: seq<seq<int>>, pr: seq<int>, p: seq<Card>)
    requires multiset(body) <= multiset(hand) && NoDup(pr)
    requires forall combo :: combo in combos ==> IsSubseq(combo, pr)
    requires p in WingCombos(body, Without(hand, body), combos)
    ensures multiset(p) <= multiset(hand)
    decreases |combos|
  {
    var init, last := combos[..|combos| - 1], combos[|combos| - 1];
    assert last in combos;
    if p in WingCombos(body, Without(hand, body), init) {
      forall combo | combo in init ensures IsSubseq(combo, pr) {
        assert combo in combos;
      }
      WingCombosWithin(hand, body, init, pr, p);
    } else {
      SubseqNoDup(last, pr);
      WingWithin(hand, body, last);
    }
  }

  lemma CandidatesWithin(hand: seq<Card>, w: seq<int>, kind: ChainKind, p: seq<Card>)
    requires NoDup(w) && p in Candidates(hand, w, kind)
    ensures multiset(p) <= multiset(hand)
  {
    var body := Gather(hand, RankOf, Holding(kind), w);
    GatherBound(hand, RankOf, Holding(kind), w);
    assert multiset(body) <= multiset(hand);
    if kind.WingedChains? {
      var rest := Without(hand, body);
      var pr := PairRanks(rest, Keys(rest, RankOf));
      KeysNoDup(rest, RankOf);
      PairRanksFacts(rest, Keys(rest, RankOf));
      forall combo | combo in Combinations(pr, |w|) ensures IsSubseq(combo, pr) {
        CombinationIsSubseq(pr, |w|, combo);
      }
      WingCombosWithin(hand, body, Combinations(pr, |w|), pr, p);
    }
  }

  lemma WindowSound(hand: seq<Card>, w: seq<int>, kind: ChainKind, recognised: Verdict)
    requires NoDup(w)
    ensures Sound(WindowPlays(hand, w, kind, recognised), ChainKindType(kind), recognised, hand)
  {
    KeepMembers(Candidates(hand, w, kind), ChainKindType(kind), recognised);
    forall p | p in WindowPlays(hand, w, kind, recognised)
      ensures multiset(p) <= multiset(hand)
    {
      CandidatesWithin(hand, w, kind, p);
    }
  }

  lemma {:induction false} WindowsSound(hand: seq<Card>, kind: ChainKind, v: seq<int>, n: nat, m: nat, recognised: Verdict)
    requires StrictlyIncreasing(v) && (m == 0 || m - 1 + n <= |v|)
    ensures Sound(Windows(hand, kind, v, n, m, recognised), ChainKindType(kind), recognised, hand)
    decreases m
  {
    if m > 0 {
      var before, last := Windows(hand, kind, v, n, m - 1, recognised), WindowPlays(hand, v[m - 1..m - 1 + n], kind, recognised);
      assert Windows(hand, kind, v, n, m, recognised) == before + last;
      WindowsSound(hand, kind, v, n, m - 1, recognised);
      IncreasingSlices(v, m - 1, m - 1 + n, 0);
      WindowSound(hand, v[m - 1..m - 1 + n], kind, recognised);
      SoundAppend(before, last, ChainKindType(kind), recognised, hand);
    }
  }

  lemma {:induction false} LengthsSound(hand: seq<Card>, kind: ChainKind, v: seq<int>, n: nat, recognised: Verdict)
    requires StrictlyIncreasing(v)
    ensures Sound(Lengths(hand, kind, v, n, recognised), ChainKindType(kind), recognised, hand)
    decreases n
  {
    if n > 2 {
      var before := Lengths(hand, kind, v, n - 1, recognised);
      var last := if n - 1 <= |v| then Windows(hand, kind, v, n - 1, |v| - (n - 1) + 1, recognised) else [];
      assert Lengths(hand, kind, v, n, recognised) == before + last;
      LengthsSound(hand, kind, v, n - 1, recognised);
      if n - 1 <= |v| {
        WindowsSound(hand, kind, v, n - 1, |v| - (n - 1) + 1, recognised);
      }
      SoundAppend(before, last, ChainKindType(kind), recognised, hand);
    }
  }

  /** Every play a chain generator returns is of its type and drawn from the hand. */
  lemma ChainPlaysSound(hand: seq<Card>, kind: ChainKind, recognised: Verdict)
    ensures Sound(ChainPlays(hand, kind, recognised), ChainKindType(kind), recognised, hand)
  {
    var v := RanksHolding(hand, Holding(kind));
    LengthsSound(hand, kind, v, |v| + 1, recognised);
  }

  // ---------------------------------------------------------------------------
  // The loops

  /** Ranks step by one exactly when each differs from the one before by one. */
  lemma {:induction false} ConsecutiveSteps(rs: seq<int>)
    ensures AreConsecutive(rs) <==> forall j :: 1 <= j < |rs| ==> rs[j] == rs[j - 1] + 1
  {
    if |rs| > 1 {
      ConsecutiveSteps(rs[1..]);
      assert forall j :: 1 <= j < |rs| - 1 ==> rs[1..][j] == rs[j + 1] && rs[1..][j - 1] == rs[j];
    }
  }

  /** `_is_consecutive`: true for at most one rank, otherwise each rank must be
      one above the one before it. */
  method IsConsecutive(ranks: seq<int>) returns (consecutive: bool)
    ensures consecutive == AreConsecutive(ranks)
    ensures consecutive <==> ranks == [] || ranks == RankRange(ranks[0], |ranks|)
  {
    ConsecutiveSteps(ranks);
    ConsecutiveIsRange(ranks);
    if |ranks| <= 1 {
      return true;
    }
    for i := 1 to |ranks|
      invariant forall j :: 1 <= j < i ==> ranks[j] == ranks[j - 1] + 1
    {
      if ranks[i] != ranks[i - 1] + 1 {
        return false;
      }
    }
    return true;
  }

  lemma GatherStep(cards: seq<Card>, n: nat, ks: seq<int>, t: nat)
    requires t < |ks|
    ensures Gather(cards, RankOf, n, ks[..t + 1]) == Gather(cards, RankOf, n, ks[..t]) + Take(Group(cards, RankOf, ks[t]), n)
  {
    assert ks[..t + 1][..t] == ks[..t];
  }

  /** `for rank in ranks: cards_list.extend(rank_groups[rank][:n])`. */
  method JoinGroups(cards: seq<Card>, groups: map<int, seq<Card>>, ks: seq<int>, n: nat) returns (joined: seq<Card>)
    requires forall k :: Lookup(groups, k) == Group(cards, RankOf, k)
    ensures joined == Gather(cards, RankOf, n, ks)
  {
    joined := [];
    for t := 0 to |ks|
      invariant joined == Gather(cards, RankOf, n, ks[..t])
    {
      GatherStep(cards, n, ks, t);
      joined := joined + Take(Lookup(groups, ks[t]), n);
    }
    assert ks[..|ks|] == ks;
  }

  /** `[c for c in hand if c not in airplane_cards]`. */
  method RemainingCards(hand: seq<Card>, body: seq<Card>) returns (rest: seq<Card>)
    ensures rest == Without(hand, body)
  {
    rest := [];
    for i := 0 to |hand|
      invariant rest == Without(hand[..i], body)
    {
      assert hand[..i + 1][..i] == hand[..i];
      if hand[i] !in body {
        rest := rest + [hand[i]];
      }
    }
    assert hand[..|hand|] == hand;
  }

  /** `[r for r, cards in remaining_groups.items() if len(cards) >= 2]`. */
  method PairRanksOf(rest: seq<Card>, keys: seq<int>, groups: map<int, seq<Card>>) returns (pairRanks: seq<int>)
    requires forall k :: Lookup(groups, k) == Group(rest, RankOf, k)
    ensures pairRanks == PairRanks(rest, keys)
  {
    pairRanks := [];
    for i := 0 to |keys|
      invariant pairRanks == PairRanks(rest, keys[..i])
    {
      assert keys[..i + 1][..i] == keys[..i];
      if |Lookup(groups, keys[i])| >= 2 {
        pairRanks := pairRanks + [keys[i]];
      }
    }
    assert keys[..|keys|] == keys;
  }

  lemma KeepWingStep(body: seq<Card>, rest: seq<Card>, combos: seq<seq<int>>, j: nat, recognised: Verdict)
    requires j < |combos|
    ensures Keep(WingCombos(body, rest, combos[..j + 1]), AirplaneWithWings, recognised)
            == Keep(WingCombos(body, rest, combos[..j]), AirplaneWithWings, recognised)
               + (if recognised(body + Gather(rest, RankOf, 2, combos[j]), AirplaneWithWings)
                  then [body + Gather(rest, RankOf, 2, combos[j])] else [])
  {
    assert combos[..j + 1][..j] == combos[..j];
  }

  /** The wings of one airplane body: the pair ranks left once the body's cards
      are gone, and every choice of as many of them as the body has ranks. */
  method WingsOfWindow(hand: seq<Card>, groups: map<int, seq<Card>>, w: seq<int>, recognised: Verdict)
    returns (found: seq<seq<Card>>)
    requires forall k :: Lookup(groups, k) == Group(hand, RankOf, k)
    ensures found == Keep(Candidates(hand, w, WingedChains), AirplaneWithWings, recognised)
  {
    var body := JoinGroups(hand, groups, w, 3);
    var rest := RemainingCards(hand, body);
    var restKeys, restGroups := GroupBy(rest, RankOf);
    var pairRanks := PairRanksOf(rest, restKeys, restGroups);
    found := [];
    if |pairRanks| >= |w| {
      var combos := Combinations(pairRanks, |w|);
      for j := 0 to |combos|
        invariant found == Keep(WingCombos(body, rest, combos[..j]), AirplaneWithWings, recognised)
      {
        var wing := JoinGroups(rest, restGroups, combos[j], 2);
        KeepWingStep(body, rest, combos, j, recognised);
        if recognised(body + wing, AirplaneWithWings) {
          found := found + [body + wing];
        }
      }
      assert combos[..|combos|] == combos;
    }
  }

  /** One window of the scan. */
  method ScanWindow(hand: seq<Card>, groups: map<int, seq<Card>>, w: seq<int>, kind: ChainKind, recognised: Verdict)
    returns (found: seq<seq<Card>>)
    requires forall k :: Lookup(groups, k) == Group(hand, RankOf, k)
    ensures found == WindowPlays(hand, w, kind, recognised)
  {
    found := [];
    var consecutive := IsConsecutive(w);
    if consecutive {
      if kind.WingedChains? {
        found := WingsOfWindow(hand, groups, w, recognised);
      } else {
        var cardsList := JoinGroups(hand, groups, w, Holding(kind));
        found := KeepOfType([cardsList], ChainKindType(kind), recognised);
      }
    }
  }

  lemma WindowsStep(hand: seq<Card>, kind: ChainKind, v: seq<int>, n: nat, i: nat, recognised: Verdict)
    requires i + n <= |v|
    ensures Windows(hand, kind, v, n, i + 1, recognised)
            == Windows(hand, kind, v, n, i, recognised) + WindowPlays(hand, v[i..i + n], kind, recognised)
  {
  }

  /** One length of the scan: every window of n ranks, left to right. */
  method ScanLength(hand: seq<Card>, groups: map<int, seq<Card>>, kind: ChainKind, v: seq<int>, n: nat, recognised: Verdict)
    returns (found: seq<seq<Card>>)
    requires forall k :: Lookup(groups, k) == Group(hand, RankOf, k)
    requires n <= |v|
    ensures found == Windows(hand, kind, v, n, |v| - n + 1, recognised)
  {
    found := [];
    for i := 0 to |v| - n + 1
      invariant found == Windows(hand, kind, v, n, i, recognised)
    {
      var window := ScanWindow(hand, groups, v[i..i + n], kind, recognised);
      WindowsStep(hand, kind, v, n, i, recognised);
      found := found + window;
    }
  }

  lemma LengthsStep(hand: seq<Card>, kind: ChainKind, v: seq<int>, n: nat, recognised: Verdict)
    requires 2 <= n <= |v|
    ensures Lengths(hand, kind, v, n + 1, recognised)
            == Lengths(hand, kind, v, n, recognised) + Windows(hand, kind, v, n, |v| - n + 1, recognised)
  {
  }

  /** The outer loop: every length from 2 to |v|, shortest first. */
  method ScanLengths(hand: seq<Card>, groups: map<int, seq<Card>>, kind: ChainKind, v: seq<int>, recognised: Verdict)
    returns (plays: seq<seq<Card>>)
    requires forall k :: Lookup(groups, k) == Group(hand, RankOf, k)
    ensures plays == Lengths(hand, kind, v, |v| + 1, recognised)
  {
    plays := [];
    if |v| >= 1 {
      for length := 2 to |v| + 1
        invariant plays == Lengths(hand, kind, v, length, recognised)
      {
        var found := ScanLength(hand, groups, kind, v, length, recognised);
        LengthsStep(hand, kind, v, length, recognised);
        plays := plays + found;
      }
    } else {
      assert Lengths(hand, kind, v, |v| + 1, recognised) == [];
    }
  }

  /** The whole generator: group by rank, sort the ranks holding enough cards,
      then every length from 2 and every window of that length. */
  method GenerateChains(hand: seq<Card>, kind: ChainKind, recognised: Verdict) returns (plays: seq<seq<Card>>)
    ensures plays == ChainPlays(hand, kind, recognised)
  {
    var keys, groups := GroupBy(hand, RankOf);
    plays := ScanLengths(hand, groups, kind, RanksHolding(hand, Holding(kind)), recognised);
  }
}

/**
 * `HandPatternAnalyzer.analyze_patterns` step by step: the finders loop over
 * grouping dictionaries, each extraction step returns the bucket lists it built
 * and the working list of remaining cards it shrank, and the `HandPatterns`
 * record is filled from them. Every finder and every extraction step is proved
 * to compute the matching piece of the functional decomposition
 * `HandAnalysis.Decompose`, so the properties proved there (a partition of the
 * hand, recognised groups, the bucket orders) hold of what the analyzer returns.
 */
module HandPatternAnalyzer {
  import opened Wrappers
  import opened Cards
  import opened Tally
  import opened RankTallies
  import opened Patterns
  import opened Recognizer
  import opened RecognizerProperties
  import opened Sorting
  import opened HandAnalysis

  /** The `HandPatterns` record: eight buckets and the metadata. */
  class HandPatterns {
    var dizha: seq<seq<Card>>
    var tongzi: seq<seq<Card>>
    var bombs: seq<seq<Card>>
    var airplaneChains: seq<seq<Card>>
    var triples: seq<seq<Card>>
    var consecutivePairChains: seq<seq<Card>>
    var pairs: seq<seq<Card>>
    var singles: seq<Card>
    var totalCards: nat
    var trumpCount: nat
    var hasControlCards: bool

    /** `HandPatterns(total_cards=total)`: empty buckets, no trumps, no control cards. */
    constructor (total: nat)
      ensures Contents() == NoBuckets
      ensures totalCards == total && trumpCount == 0 && !hasControlCards
    {
      dizha, tongzi, bombs := [], [], [];
      airplaneChains, triples, consecutivePairChains, pairs := [], [], [], [];
      singles := [];
      totalCards, trumpCount, hasControlCards := total, 0, false;
    }

    /** Store the buckets the extraction steps produced and the metadata derived from
        them: the trump count and the control-card flag. */
    method Fill(b: Buckets, control: bool)
      modifies this
      ensures Contents() == b
      ensures totalCards == old(totalCards)
      ensures trumpCount == |dizha| + |tongzi| + |bombs|
      ensures hasControlCards == control
    {
      dizha, tongzi, bombs, airplaneChains := b.dizha, b.tongzi, b.bombs, b.airplaneChains;
      triples, consecutivePairChains, pairs, singles := b.triples, b.consecutivePairChains, b.pairs, b.singles;
      trumpCount := |dizha| + |tongzi| + |bombs|;
      hasControlCards := control;
    }

    /** The buckets as a value. */
    function Contents(): Buckets
      reads this
    {
      Buckets(dizha, tongzi, bombs, airplaneChains, triples, consecutivePairChains, pairs, singles)
    }
  }

  // ---------------------------------------------------------------------------
  // The finders

  /** The stages that walk one grouping dictionary entry by entry. */
  predicate IsKeyedStage(st: Stage) {
    st == DizhaStage || st == TongziStage || st == BombStage || st == TripleStage
  }

  /** Within one rank, the (suit, rank) entry of a card holds exactly its copies. */
  lemma {:induction false} CodeGroupCount(g: seq<Card>, c: Card)
    ensures |Group(g, CardCode, CardCode(c))| == Count(g, c)
    decreases |g|
  {
    if g != [] {
      var init, last := g[..|g| - 1], g[|g| - 1];
      CodeGroupCount(init, c);
      assert g == init + [last];
      CountAppend(init, [last], c);
    }
  }

  /** `d.extend(groups[key][:n])` for each listed key, in order. */
  method JoinFirst(cards: seq<Card>, key: Card -> int, groups: map<int, seq<Card>>, n: nat, ks: seq<int>)
    returns (joined: seq<Card>)
    requires forall k :: Lookup(groups, k) == Group(cards, key, k)
    ensures joined == Gather(cards, key, n, ks)
  {
    joined := [];
    for i := 0 to |ks|
      invariant joined == Gather(cards, key, n, ks[..i])
    {
      GatherStep(cards, key, n, ks, i);
      joined := joined + Take(Lookup(groups, ks[i]), n);
    }
    assert ks[..|ks|] == ks;
  }

  /** One key of `JoinFirst`: its cards follow those of the keys before it. */
  lemma GatherStep(cards: seq<Card>, key: Card -> int, n: nat, ks: seq<int>, i: nat)
    requires i < |ks|
    ensures Gather(cards, key, n, ks[..i + 1]) == Gather(cards, key, n, ks[..i]) + Take(Group(cards, key, ks[i]), n)
  {
    assert ks[..i + 1][..i] == ks[..i];
  }

  /** `all(len(suit_groups.get(suit, [])) >= 2 for suit in Suit)` on one rank's cards. */
  method TwoOfEverySuit(g: seq<Card>, suitGroups: map<int, seq<Card>>, r: Rank) returns (every: bool)
    requires forall k :: Lookup(suitGroups, k) == Group(g, CardCode, k)
    ensures every <==> && Count(g, Card(Diamonds, r)) >= 2 && Count(g, Card(Clubs, r)) >= 2
                       && Count(g, Card(Hearts, r)) >= 2 && Count(g, Card(Spades, r)) >= 2
  {
    CodeGroupCount(g, Card(Diamonds, r));
    CodeGroupCount(g, Card(Clubs, r));
    CodeGroupCount(g, Card(Hearts, r));
    CodeGroupCount(g, Card(Spades, r));
    every := true;
    for s := 1 to 5
      invariant every <==> forall t: Suit :: t < s ==> |Group(g, CardCode, CardCode(Card(t, r)))| >= 2
    {
      if |Lookup(suitGroups, CardCode(Card(s, r)))| < 2 {
        every := false;
      }
    }
  }

  /** `_find_dizha` on one rank's cards: at least eight of them, grouped by suit, two of
      every suit; the candidate joins the first two of each suit in the given suit order
      (`PySuitOrder` in Python, `RustSuitOrder` in Rust). */
  method DizhaCandidate(g: seq<Card>, order: seq<Suit>) returns (x: Option<seq<Card>>)
    ensures x == DizhaOf(g, order)
  {
    if |g| < 8 {
      return None;
    }
    var r := g[0].rank;
    var suitKeys, suitGroups := GroupBy(g, CardCode);
    var every := TwoOfEverySuit(g, suitGroups, r);
    if !every {
      return None;
    }
    var d := JoinFirst(g, CardCode, suitGroups, 2, SuitKeys(order, r));
    x := Some(d);
  }

  /** The group a keyed finder builds from one dictionary entry. */
  method Candidate(st: Stage, g: seq<Card>) returns (x: Option<seq<Card>>)
    requires IsKeyedStage(st)
    ensures x == Assemble(st, g)
  {
    if st == DizhaStage {
      x := DizhaCandidate(g, PySuitOrder);
    } else if st == BombStage {
      x := if |g| >= 4 then Some(g[..|g|]) else None;
      assert g[..|g|] == g;
    } else {
      x := if |g| >= 3 then Some(g[..3]) else None;
    }
  }

  /** One dictionary entry of a keyed finder: the candidate, when there is one and the
      recognizer gives it the stage's type. `recognised` stands for the recognizer's
      verdict (`RecognizerProperties.IsType`). */
  method KeepEntry(st: Stage, g: seq<Card>, recognised: Verdict) returns (kept: seq<seq<Card>>)
    requires IsKeyedStage(st)
    ensures kept == Kept(st, g, recognised)
  {
    kept := [];
    var x := Candidate(st, g);
    if x.Some? {
      if recognised(x.value, StageType(st)) {
        kept := [x.value];
      }
    }
  }

  /** The loop of the keyed finders: the given keys' entries, in order, through
      `KeepEntry`; `groups` is the finder's dictionary of `cards`. */
  method KeepEntries(st: Stage, cards: seq<Card>, groups: map<int, seq<Card>>, keys: seq<int>, recognised: Verdict)
    returns (found: seq<seq<Card>>)
    requires IsKeyedStage(st)
    requires forall k :: Lookup(groups, k) == Group(cards, GroupKey(st), k)
    ensures found == FoundFrom(st, cards, keys, recognised)
  {
    found := [];
    for i := 0 to |keys|
      invariant found == FoundFrom(st, cards, keys[..i], recognised)
    {
      FoundStep(st, cards, keys, i, recognised);
      var kept := KeepEntry(st, Lookup(groups, keys[i]), recognised);
      found := found + kept;
    }
    assert keys[..|keys|] == keys;
  }

  /** One key of a keyed finder: its entry's verdict follows those of the keys before it. */
  lemma FoundStep(st: Stage, cards: seq<Card>, ks: seq<int>, i: nat, recognised: Verdict)
    requires i < |ks|
    ensures FoundFrom(st, cards, ks[..i + 1], recognised)
            == FoundFrom(st, cards, ks[..i], recognised) + Kept(st, Group(cards, GroupKey(st), ks[i]), recognised)
  {
    assert ks[..i + 1][..i] == ks[..i];
  }

  /** `_find_dizha`, `_find_tongzi`, `_find_bombs`, `_find_triples`: group the cards, then
      every dictionary entry, in insertion order, through `KeepEntry`. */
  method FindKeyed(st: Stage, cards: seq<Card>, recognised: Verdict) returns (found: seq<seq<Card>>)
    requires IsKeyedStage(st)
    ensures found == KeyedFound(st, cards, recognised)
  {
    var keys, groups := GroupBy(cards, GroupKey(st));
    found := KeepEntries(st, cards, groups, keys, recognised);
  }

  /** The inner loop of the chain finders: extend the run from position i while the next
      rank is one higher than the last. */
  method RunFrom(validRanks: seq<int>, i: nat) returns (chainRanks: seq<int>, j: nat)
    requires i < |validRanks|
    ensures j == RunEnd(validRanks, i + 1) && chainRanks == validRanks[i..j]
  {
    chainRanks := [validRanks[i]];
    j := i + 1;
    while j < |validRanks| && validRanks[j] == chainRanks[|chainRanks| - 1] + 1
      invariant i + 1 <= j <= |validRanks|
      invariant chainRanks == validRanks[i..j]
      invariant RunEnd(validRanks, i + 1) == RunEnd(validRanks, j)
      decreases |validRanks| - j
    {
      chainRanks := chainRanks + [validRanks[j]];
      j := j + 1;
    }
  }

  lemma AppendAssoc(a: seq<seq<Card>>, b: seq<seq<Card>>, c: seq<seq<Card>>)
    ensures (a + b) + c == a + (b + c)
  {
  }

  /** `_find_airplane_chains` (k = 3) and `_find_consecutive_pair_chains` (k = 2): scan the
      ascending ranks holding at least k cards for maximal runs of consecutive ranks; a run
      of two or more ranks is joined k cards per rank and kept when the recognizer gives it
      the chain type, and the scan then resumes after the run, else at the next rank. */
  method FindChains(cards: seq<Card>, k: nat, recognised: Verdict) returns (chains: seq<seq<Card>>)
    requires k == 2 || k == 3
    ensures chains == Chains(cards, k, recognised)
  {
    var keys, groups := GroupBy(cards, RankOf);
    var validRanks: seq<int> := RanksFrom(cards, 3, k);
    chains := [];
    var i := 0;
    while i < |validRanks|
      invariant 0 <= i <= |validRanks|
      invariant chains + ChainsFrom(cards, k, validRanks, i, recognised) == Chains(cards, k, recognised)
      decreases |validRanks| - i
    {
      var chainRanks, j := RunFrom(validRanks, i);
      ChainsFromStep(cards, k, validRanks, i, recognised);
      var kept := false;
      if |chainRanks| >= 2 {
        var chainCards := JoinFirst(cards, RankOf, groups, k, chainRanks);
        if recognised(chainCards, ChainType(k)) {
          AppendAssoc(chains, [chainCards], ChainsFrom(cards, k, validRanks, j, recognised));
          chains := chains + [chainCards];
          kept := true;
        }
      }
      i := if kept then j else i + 1;
    }
  }

  // ---------------------------------------------------------------------------
  // The extraction steps. Each takes the working list of remaining cards and returns
  // its bucket lists (the record's lists start empty), the shrunk working list and
  // the groups its finder found, which tie it to the decomposition.

  /** `_extract_trump_cards`: dizha, then tongzi, then bombs, each found on what the
      previous one left, appended and taken out card by card; the three lists are then
      sorted by rank, by (suit, rank) and by (size, rank), all descending. */
  method ExtractTrumpCards(remaining: seq<Card>, recognised: Verdict)
    returns (dizha: seq<seq<Card>>, tongzi: seq<seq<Card>>, bombs: seq<seq<Card>>, rest: seq<Card>,
             f1: seq<seq<Card>>, f2: seq<seq<Card>>, f3: seq<seq<Card>>)
    ensures f1 == KeyedFound(DizhaStage, remaining, recognised)
    ensures f2 == KeyedFound(TongziStage, RemoveAll(remaining, Flatten(f1)), recognised)
    ensures f3 == KeyedFound(BombStage, RemoveAll(RemoveAll(remaining, Flatten(f1)), Flatten(f2)), recognised)
    ensures dizha == SortDesc(f1, LeadRank)
    ensures tongzi == SortDesc(f2, SuitThenRank)
    ensures bombs == SortDesc(f3, SizeThenRank)
    ensures rest == RemoveAll(RemoveAll(RemoveAll(remaining, Flatten(f1)), Flatten(f2)), Flatten(f3))
  {
    f1 := FindKeyed(DizhaStage, remaining, recognised);
    rest, dizha := TakeGroups(remaining, [], f1);
    f2 := FindKeyed(TongziStage, rest, recognised);
    rest, tongzi := TakeGroups(rest, [], f2);
    f3 := FindKeyed(BombStage, rest, recognised);
    rest, bombs := TakeGroups(rest, [], f3);
    assert [] + f1 == f1 && [] + f2 == f2 && [] + f3 == f3;
    dizha := SortDesc(dizha, LeadRank);
    tongzi := SortDesc(tongzi, SuitThenRank);
    bombs := SortDesc(bombs, SizeThenRank);
  }

  /** `_extract_airplane_chains`: appended, taken out, sorted by (size, rank) descending. */
  method ExtractAirplaneChains(remaining: seq<Card>, recognised: Verdict)
    returns (airplaneChains: seq<seq<Card>>, rest: seq<Card>, chains: seq<seq<Card>>)
    ensures chains == Chains(remaining, 3, recognised)
    ensures airplaneChains == SortDesc(chains, SizeThenRank)
    ensures rest == RemoveAll(remaining, Flatten(chains))
  {
    chains := FindChains(remaining, 3, recognised);
    rest, airplaneChains := TakeGroups(remaining, [], chains);
    assert [] + chains == chains;
    airplaneChains := SortDesc(airplaneChains, SizeThenRank);
  }

  /** `_extract_triples`: appended, taken out, sorted by rank descending. */
  method ExtractTriples(remaining: seq<Card>, recognised: Verdict)
    returns (triples: seq<seq<Card>>, rest: seq<Card>, found: seq<seq<Card>>)
    ensures found == KeyedFound(TripleStage, remaining, recognised)
    ensures triples == SortDesc(found, LeadRank)
    ensures rest == RemoveAll(remaining, Flatten(found))
  {
    found := FindKeyed(TripleStage, remaining, recognised);
    rest, triples := TakeGroups(remaining, [], found);
    assert [] + found == found;
    triples := SortDesc(triples, LeadRank);
  }

  /** `_extract_consecutive_pair_chains`: appended, taken out, sorted by (size, rank) descending. */
  method ExtractConsecutivePairChains(remaining: seq<Card>, recognised: Verdict)
    returns (pairChains: seq<seq<Card>>, rest: seq<Card>, chains: seq<seq<Card>>)
    ensures chains == Chains(remaining, 2, recognised)
    ensures pairChains == SortDesc(chains, SizeThenRank)
    ensures rest == RemoveAll(remaining, Flatten(chains))
  {
    chains := FindChains(remaining, 2, recognised);
    rest, pairChains := TakeGroups(remaining, [], chains);
    assert [] + chains == chains;
    pairChains := SortDesc(pairChains, SizeThenRank);
  }

  /** `while len(cards) >= 2`: cut pairs from the front of one rank's entry, appending
      each to the pair list and taking it out of the working list. */
  method TakePairs(pairs: seq<seq<Card>>, remaining: seq<Card>, g: seq<Card>)
    returns (pairs': seq<seq<Card>>, rest: seq<Card>)
    ensures pairs' == pairs + Chunks(g)
    ensures rest == RemoveAll(remaining, Flatten(Chunks(g)))
  {
    var cs := g;
    pairs', rest := pairs, remaining;
    ghost var done: seq<seq<Card>> := [];
    while |cs| >= 2
      invariant done + Chunks(cs) == Chunks(g)
      invariant pairs' == pairs + done
      invariant rest == RemoveAll(remaining, Flatten(done))
      decreases |cs|
    {
      var pair := cs[..2];
      assert Chunks(cs) == [pair] + Chunks(cs[2..]);
      FlattenSnoc(done, pair);
      RemoveAllAppend(remaining, Flatten(done), pair);
      pairs' := pairs' + [pair];
      rest := TakeOut(rest, pair);
      done := done + [pair];
      cs := cs[2..];
    }
    assert done + Chunks(cs) == done;
  }

  /** The loop of `_extract_pairs`: the entries of the given ranks, in order, through
      `TakePairs`; `groups` is the rank dictionary of the working list. */
  method TakeRanks(pairs: seq<seq<Card>>, remaining: seq<Card>, groups: map<int, seq<Card>>, order: seq<int>)
    returns (pairs': seq<seq<Card>>, rest: seq<Card>)
    requires forall k :: Lookup(groups, k) == Group(remaining, RankOf, k)
    ensures pairs' == pairs + PairsFrom(remaining, order)
    ensures rest == RemoveAll(remaining, Flatten(PairsFrom(remaining, order)))
  {
    pairs', rest := pairs, remaining;
    for i := 0 to |order|
      invariant pairs' == pairs + PairsFrom(remaining, order[..i])
      invariant rest == RemoveAll(remaining, Flatten(PairsFrom(remaining, order[..i])))
    {
      PairsStep(remaining, order, i, rest);
      AppendAssoc(pairs, PairsFrom(remaining, order[..i]), Chunks(Lookup(groups, order[i])));
      pairs', rest := TakePairs(pairs', rest, Lookup(groups, order[i]));
    }
    assert order[..|order|] == order;
  }

  /** One rank of `_extract_pairs`: its chunks follow those already taken, and taking them
      out of the working list leaves what taking out all of them leaves. */
  lemma PairsStep(cards: seq<Card>, ks: seq<int>, i: nat, rest: seq<Card>)
    requires i < |ks|
    requires rest == RemoveAll(cards, Flatten(PairsFrom(cards, ks[..i])))
    ensures PairsFrom(cards, ks[..i + 1]) == PairsFrom(cards, ks[..i]) + Chunks(Group(cards, RankOf, ks[i]))
    ensures RemoveAll(rest, Flatten(Chunks(Group(cards, RankOf, ks[i]))))
            == RemoveAll(cards, Flatten(PairsFrom(cards, ks[..i + 1])))
  {
    var found := PairsFrom(cards, ks[..i]);
    var chunks := Chunks(Group(cards, RankOf, ks[i]));
    assert ks[..i + 1][..i] == ks[..i];
    FlattenAppend(found, chunks);
    RemoveAllAppend(cards, Flatten(found), Flatten(chunks));
  }

  /** `_extract_pairs`: every rank's entry, highest rank first, through `TakePairs`. */
  method ExtractPairs(remaining: seq<Card>) returns (pairs: seq<seq<Card>>, rest: seq<Card>)
    ensures pairs == PairsFound(remaining)
    ensures rest == RemoveAll(remaining, Flatten(pairs))
  {
    var keys, groups := GroupBy(remaining, RankOf);
    pairs, rest := TakeRanks([], remaining, groups, SortDesc(keys, Value));
    assert [] + PairsFound(remaining) == PairsFound(remaining);
  }

  /** `_extract_singles`: the rest, sorted by rank descending; the working list is emptied. */
  method ExtractSingles(remaining: seq<Card>) returns (singles: seq<Card>, rest: seq<Card>)
    ensures singles == SortDesc(remaining, RankOf) && rest == []
  {
    singles := SortDesc(remaining, RankOf);
    rest := [];
  }

  /** The six extraction steps of `analyze_patterns`, in order, each on what the
      previous ones left; the record's lists are the buckets returned. */
  method ExtractAll(hand: seq<Card>, recognised: Verdict) returns (b: Buckets)
    ensures b == Decompose(hand, recognised)
  {
    var dizha, tongzi, bombs, remaining, f1, f2, f3 := ExtractTrumpCards(hand, recognised);
    var airplaneChains, triples, pairChains, pairs, singles, f4, f5, f6;
    airplaneChains, remaining, f4 := ExtractAirplaneChains(remaining, recognised);
    triples, remaining, f5 := ExtractTriples(remaining, recognised);
    pairChains, remaining, f6 := ExtractConsecutivePairChains(remaining, recognised);
    pairs, remaining := ExtractPairs(remaining);
    singles, remaining := ExtractSingles(remaining);
    b := Buckets(dizha, tongzi, bombs, airplaneChains, triples, pairChains, pairs, singles);
  }

  /** `analyze_patterns`: an empty hand gives the empty record; otherwise the six
      extraction steps fill the record's lists and the metadata is filled in. The
      buckets are the decomposition `Decompose(hand, recognised)`. */
  method AnalyzePatterns(hand: seq<Card>, recognised: Verdict) returns (p: HandPatterns)
    ensures fresh(p)
    ensures p.Contents() == Decompose(hand, recognised)
    ensures p.totalCards == |hand|
    ensures p.trumpCount == |p.dizha| + |p.tongzi| + |p.bombs|
    ensures p.hasControlCards == HasControlCards(hand)
  {
    if hand == [] {
      p := new HandPatterns(0);
      DecomposeEmpty(recognised);
      EmptyHandHasNoControlCards();
      return;
    }
    var b := ExtractAll(hand, recognised);
    p := new HandPatterns(|hand|);
    p.Fill(b, HasControlCards(hand));
  }
}

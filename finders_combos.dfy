/**
 * `ComboFinder`: the finders that combine groups of two ranks or split a rank
 * by suit — every tongzi, the lowest triple-with-two and every
 * triple-with-two. Each works from the hand grouped by rank, ranks in order
 * of first appearance (the insertion order of `rank_counts`).
 */
module ComboFinder {
  import opened Wrappers
  import opened Cards
  import opened Tally
  import opened RankTallies
  import opened Sorting
  import opened HandAnalysis
  import opened ChainFinder

  /** A `(rank, cards)` tuple of the finders' working lists. */
  datatype Entry = Entry(rank: int, cards: seq<Card>)

  /** The sort key `x[0].value` of an ascending sort, as a key of the descending sort. */
  function NegRank(e: Entry): int { -e.rank }

  /** The cards of the entries one after the other. */
  function EntryCards(es: seq<Entry>): seq<Card>
    decreases |es|
  {
    if es == [] then [] else EntryCards(es[..|es| - 1]) + es[|es| - 1].cards
  }

  // ---------------------------------------------------------------------------
  // The `triples` and `pairs` lists

  /** The entry `(rank, cards[:k])` of rank r, when it has at least k cards. */
  function EntryOf(hand: seq<Card>, r: int, k: nat): seq<Entry> {
    var g := Group(hand, RankOf, r);
    if |g| >= k then [Entry(r, g[..k])] else []
  }

  /** The entries of the ranks ks in order. */
  function Entries(hand: seq<Card>, ks: seq<int>, k: nat): seq<Entry>
    decreases |ks|
  {
    if ks == [] then [] else Entries(hand, ks[..|ks| - 1], k) + EntryOf(hand, ks[|ks| - 1], k)
  }

  /** The `triples` and `pairs` lists built from `rank_counts.items()`. */
  method CollectEntries(hand: seq<Card>, keys: seq<int>, groups: map<int, seq<Card>>)
    returns (triples: seq<Entry>, pairs: seq<Entry>)
    requires forall r :: Lookup(groups, r) == Group(hand, RankOf, r)
    ensures triples == Entries(hand, keys, 3) && pairs == Entries(hand, keys, 2)
  {
    triples, pairs := [], [];
    for t := 0 to |keys|
      invariant triples == Entries(hand, keys[..t], 3) && pairs == Entries(hand, keys[..t], 2)
    {
      assert keys[..t + 1][..t] == keys[..t];
      var cards := Lookup(groups, keys[t]);
      if |cards| >= 3 {
        triples := triples + [Entry(keys[t], cards[..3])];
      }
      if |cards| >= 2 {
        pairs := pairs + [Entry(keys[t], cards[..2])];
      }
    }
    assert keys[..|keys|] == keys;
  }

  /** An entry is listed exactly when its rank is among ks with at least k cards,
      and it holds that rank's first k cards. */
  lemma {:induction false} EntriesMembers(hand: seq<Card>, ks: seq<int>, k: nat, e: Entry)
    ensures e in Entries(hand, ks, k) <==>
              e.rank in ks && RankCount(hand, e.rank) >= k && e.cards == Take(Group(hand, RankOf, e.rank), k)
    decreases |ks|
  {
    GroupSize(hand, e.rank);
    if ks != [] {
      var init, r := ks[..|ks| - 1], ks[|ks| - 1];
      EntriesMembers(hand, init, k, e);
      assert Entries(hand, ks, k) == Entries(hand, init, k) + EntryOf(hand, r, k);
      assert forall x :: x in ks <==> x in init || x == r;
      var g := Group(hand, RankOf, e.rank);
      assert |g| >= k ==> Take(g, k) == g[..k];
    }
  }

  /** Over the rank keys of the hand: the entries are those of every rank with at least k cards. */
  lemma EntriesOfHand(hand: seq<Card>, k: nat, e: Entry)
    requires k >= 1
    ensures e in Entries(hand, Keys(hand, RankOf), k) <==>
              RankCount(hand, e.rank) >= k && e.cards == Take(Group(hand, RankOf, e.rank), k)
  {
    EntriesMembers(hand, Keys(hand, RankOf), k, e);
    KeyHasCards(hand, e.rank);
    GroupSize(hand, e.rank);
  }

  // ---------------------------------------------------------------------------
  // find_all_triple_with_two

  /** One triple combined with each pair of another rank, pairs in list order. */
  function WithPairs(t: Entry, ps: seq<Entry>): seq<seq<Card>>
    decreases |ps|
  {
    if ps == [] then []
    else
      var p := ps[|ps| - 1];
      WithPairs(t, ps[..|ps| - 1]) + (if t.rank != p.rank then [t.cards + p.cards] else [])
  }

  /** Every triple with every pair of another rank, triples in the outer order. */
  function Combos(ts: seq<Entry>, ps: seq<Entry>): seq<seq<Card>>
    decreases |ts|
  {
    if ts == [] then [] else Combos(ts[..|ts| - 1], ps) + WithPairs(ts[|ts| - 1], ps)
  }

  /** The combinations `find_all_triple_with_two` lists. */
  function AllTripleWithTwo(hand: seq<Card>): seq<seq<Card>> {
    var keys := Keys(hand, RankOf);
    Combos(Entries(hand, keys, 3), Entries(hand, keys, 2))
  }

  /** `find_all_triple_with_two`. */
  method FindAllTripleWithTwo(hand: seq<Card>) returns (all: seq<seq<Card>>)
    ensures all == AllTripleWithTwo(hand)
  {
    var keys, groups := GroupBy(hand, RankOf);
    var triples, pairs := CollectEntries(hand, keys, groups);
    assert AllTripleWithTwo(hand) == Combos(triples, pairs);
    if triples == [] || pairs == [] {
      CombosOfNothing(triples, pairs);
      return [];
    }
    all := CombineAll(triples, pairs);
  }

  /** The outer loop over `triples`. */
  method CombineAll(triples: seq<Entry>, pairs: seq<Entry>) returns (all: seq<seq<Card>>)
    ensures all == Combos(triples, pairs)
  {
    all := [];
    for i := 0 to |triples|
      invariant all == Combos(triples[..i], pairs)
    {
      assert triples[..i + 1][..i] == triples[..i];
      var row := PairUp(triples[i], pairs);
      all := all + row;
    }
    assert triples[..|triples|] == triples;
  }

  /** The inner loop: the triple with each pair of another rank. */
  method PairUp(t: Entry, pairs: seq<Entry>) returns (row: seq<seq<Card>>)
    ensures row == WithPairs(t, pairs)
  {
    row := [];
    for j := 0 to |pairs|
      invariant row == WithPairs(t, pairs[..j])
    {
      assert pairs[..j + 1][..j] == pairs[..j];
      if t.rank != pairs[j].rank {
        row := row + [t.cards + pairs[j].cards];
      }
    }
    assert pairs[..|pairs|] == pairs;
  }

  lemma {:induction false} CombosOfNothing(ts: seq<Entry>, ps: seq<Entry>)
    requires ts == [] || ps == []
    ensures Combos(ts, ps) == []
    decreases |ts|
  {
    if ts != [] {
      CombosOfNothing(ts[..|ts| - 1], ps);
    }
  }

  lemma {:induction false} WithPairsMembers(t: Entry, ps: seq<Entry>, x: seq<Card>)
    ensures x in WithPairs(t, ps) <==> exists p :: p in ps && t.rank != p.rank && x == t.cards + p.cards
    decreases |ps|
  {
    if ps != [] {
      var init, last := ps[..|ps| - 1], ps[|ps| - 1];
      WithPairsMembers(t, init, x);
      assert forall p :: p in ps <==> p in init || p == last;
    }
  }

  lemma {:induction false} CombosMembers(ts: seq<Entry>, ps: seq<Entry>, x: seq<Card>)
    ensures x in Combos(ts, ps) <==>
              exists t, p :: t in ts && p in ps && t.rank != p.rank && x == t.cards + p.cards
    decreases |ts|
  {
    if ts != [] {
      var init, last := ts[..|ts| - 1], ts[|ts| - 1];
      CombosMembers(init, ps, x);
      WithPairsMembers(last, ps, x);
      assert forall t :: t in ts <==> t in init || t == last;
    }
  }

  /** Three cards of rank t followed by two of another rank p, each the first of its rank. */
  ghost predicate TripleTwo(hand: seq<Card>, t: int, p: int, x: seq<Card>) {
    t != p && RankCount(hand, t) >= 3 && RankCount(hand, p) >= 2
    && x == Take(Group(hand, RankOf, t), 3) + Take(Group(hand, RankOf, p), 2)
  }

  /** `find_all_triple_with_two` lists x exactly when x is the first three cards
      of one rank and the first two of another. */
  lemma AllTripleWithTwoMembers(hand: seq<Card>, x: seq<Card>)
    ensures x in AllTripleWithTwo(hand) <==> exists t, p :: TripleTwo(hand, t, p, x)
  {
    var keys := Keys(hand, RankOf);
    var ts, ps := Entries(hand, keys, 3), Entries(hand, keys, 2);
    CombosMembers(ts, ps, x);
    if x in AllTripleWithTwo(hand) {
      var te, pe :| te in ts && pe in ps && te.rank != pe.rank && x == te.cards + pe.cards;
      EntriesOfHand(hand, 3, te);
      EntriesOfHand(hand, 2, pe);
      assert TripleTwo(hand, te.rank, pe.rank, x);
    }
    if exists t, p :: TripleTwo(hand, t, p, x) {
      var t, p :| TripleTwo(hand, t, p, x);
      var te := Entry(t, Take(Group(hand, RankOf, t), 3));
      var pe := Entry(p, Take(Group(hand, RankOf, p), 2));
      EntriesOfHand(hand, 3, te);
      EntriesOfHand(hand, 2, pe);
    }
  }

  // ---------------------------------------------------------------------------
  // find_triple_with_two

  /** t is the lowest rank holding a triple and p the lowest other rank holding a pair. */
  ghost predicate LowestTripleTwo(hand: seq<Card>, t: int, p: int) {
    && RankCount(hand, t) >= 3
    && (forall q :: RankCount(hand, q) >= 3 ==> t <= q)
    && p != t && RankCount(hand, p) >= 2
    && (forall q :: q != t && RankCount(hand, q) >= 2 ==> p <= q)
  }

  /** `find_triple_with_two`: the lowest triple with the lowest pair of another
      rank, or None when the hand has no triple or no pair outside it. */
  method FindTripleWithTwo(hand: seq<Card>) returns (found: Option<seq<Card>>)
    ensures found.None? <==> !exists t, p :: LowestTripleTwo(hand, t, p)
    ensures found.Some? ==> exists t, p :: LowestTripleTwo(hand, t, p)
                              && found.value == Take(Group(hand, RankOf, t), 3) + Take(Group(hand, RankOf, p), 2)
  {
    var keys, groups := GroupBy(hand, RankOf);
    var triples, pairs := CollectEntries(hand, keys, groups);
    found := PickTripleWithTwo(hand, triples, pairs);
  }

  /** The part of `find_triple_with_two` after the two lists are built. */
  method PickTripleWithTwo(hand: seq<Card>, triples: seq<Entry>, pairs: seq<Entry>) returns (found: Option<seq<Card>>)
    requires triples == Entries(hand, Keys(hand, RankOf), 3) && pairs == Entries(hand, Keys(hand, RankOf), 2)
    ensures found.None? <==> !exists t, p :: LowestTripleTwo(hand, t, p)
    ensures found.Some? ==> exists t, p :: LowestTripleTwo(hand, t, p)
                              && found.value == Take(Group(hand, RankOf, t), 3) + Take(Group(hand, RankOf, p), 2)
  {
    if triples == [] || pairs == [] {
      NoTripleWithTwo(hand, triples, pairs);
      return None;
    }
    var sortedTriples := SortDesc(triples, NegRank);
    SortDescSpec(triples, NegRank);
    var tripleRank, tripleCards := sortedTriples[0].rank, sortedTriples[0].cards;
    LowestTriple(hand, sortedTriples);
    var sortedPairs := SortDesc(pairs, NegRank);
    SortDescSpec(pairs, NegRank);
    var j := FirstOtherRank(sortedPairs, tripleRank);
    if j < |sortedPairs| {
      LowestOtherPair(hand, tripleRank, sortedPairs, j);
      assert LowestTripleTwo(hand, tripleRank, sortedPairs[j].rank);
      return Some(tripleCards + sortedPairs[j].cards);
    }
    NoOtherPair(hand, tripleRank, sortedPairs);
    LowestTripleIsUnique(hand, tripleRank);
    return None;
  }

  /** The scan of the ascending pairs for the first of another rank than t; |sorted| when none. */
  method FirstOtherRank(sorted: seq<Entry>, t: int) returns (j: int)
    ensures 0 <= j <= |sorted| && forall i :: 0 <= i < j ==> sorted[i].rank == t
    ensures j < |sorted| ==> sorted[j].rank != t
  {
    for i := 0 to |sorted|
      invariant forall i' :: 0 <= i' < i ==> sorted[i'].rank == t
    {
      if sorted[i].rank != t {
        return i;
      }
    }
    return |sorted|;
  }

  lemma NoTripleWithTwo(hand: seq<Card>, ts: seq<Entry>, ps: seq<Entry>)
    requires ts == Entries(hand, Keys(hand, RankOf), 3) && ps == Entries(hand, Keys(hand, RankOf), 2)
    requires ts == [] || ps == []
    ensures !exists t, p :: LowestTripleTwo(hand, t, p)
  {
    forall q ensures ts == [] ==> RankCount(hand, q) < 3 {
      if RankCount(hand, q) >= 3 {
        EntriesOfHand(hand, 3, Entry(q, Take(Group(hand, RankOf, q), 3)));
      }
    }
    forall q ensures ps == [] ==> RankCount(hand, q) < 2 {
      if RankCount(hand, q) >= 2 {
        EntriesOfHand(hand, 2, Entry(q, Take(Group(hand, RankOf, q), 2)));
      }
    }
  }

  /** The head of the ascending triples is the lowest rank holding a triple, with its first three cards. */
  lemma LowestTriple(hand: seq<Card>, sorted: seq<Entry>)
    requires multiset(sorted) == multiset(Entries(hand, Keys(hand, RankOf), 3))
    requires SortedDesc(sorted, NegRank) && sorted != []
    ensures RankCount(hand, sorted[0].rank) >= 3
    ensures sorted[0].cards == Take(Group(hand, RankOf, sorted[0].rank), 3)
    ensures forall q :: RankCount(hand, q) >= 3 ==> sorted[0].rank <= q
  {
    assert sorted[0] in multiset(sorted);
    EntriesOfHand(hand, 3, sorted[0]);
    forall q | RankCount(hand, q) >= 3 ensures sorted[0].rank <= q {
      var e := Entry(q, Take(Group(hand, RankOf, q), 3));
      EntriesOfHand(hand, 3, e);
      assert e in multiset(sorted);
      var i :| 0 <= i < |sorted| && sorted[i] == e;
      assert NegRank(sorted[i]) <= NegRank(sorted[0]);
    }
  }

  /** The first ascending pair of another rank than t is the lowest such. */
  lemma LowestOtherPair(hand: seq<Card>, t: int, sorted: seq<Entry>, j: int)
    requires multiset(sorted) == multiset(Entries(hand, Keys(hand, RankOf), 2))
    requires SortedDesc(sorted, NegRank) && 0 <= j < |sorted| && sorted[j].rank != t
    requires forall i :: 0 <= i < j ==> sorted[i].rank == t
    ensures RankCount(hand, sorted[j].rank) >= 2
    ensures sorted[j].cards == Take(Group(hand, RankOf, sorted[j].rank), 2)
    ensures forall q :: q != t && RankCount(hand, q) >= 2 ==> sorted[j].rank <= q
  {
    assert sorted[j] in multiset(sorted);
    EntriesOfHand(hand, 2, sorted[j]);
    forall q | q != t && RankCount(hand, q) >= 2 ensures sorted[j].rank <= q {
      var e := Entry(q, Take(Group(hand, RankOf, q), 2));
      EntriesOfHand(hand, 2, e);
      assert e in multiset(sorted);
      var i :| 0 <= i < |sorted| && sorted[i] == e;
      assert j <= i ==> NegRank(sorted[i]) <= NegRank(sorted[j]);
    }
  }

  lemma LowestTripleIsUnique(hand: seq<Card>, t: int)
    requires RankCount(hand, t) >= 3 && (forall q :: RankCount(hand, q) >= 3 ==> t <= q)
    requires forall p :: p != t ==> RankCount(hand, p) < 2
    ensures !exists t', p :: LowestTripleTwo(hand, t', p)
  {
    forall t', p | LowestTripleTwo(hand, t', p) ensures t' == t {
    }
  }

  lemma NoOtherPair(hand: seq<Card>, t: int, sorted: seq<Entry>)
    requires multiset(sorted) == multiset(Entries(hand, Keys(hand, RankOf), 2))
    requires forall i :: 0 <= i < |sorted| ==> sorted[i].rank == t
    ensures forall p :: p != t ==> RankCount(hand, p) < 2
  {
    forall p | p != t ensures RankCount(hand, p) < 2 {
      var e := Entry(p, Take(Group(hand, RankOf, p), 2));
      EntriesOfHand(hand, 2, e);
      assert RankCount(hand, p) >= 2 ==> e in multiset(sorted);
    }
  }

  // ---------------------------------------------------------------------------
  // find_all_tongzi

  /** The grouping key of `suit_groups`. */
  function SuitOf(c: Card): int { c.suit }

  /** The first three cards of each suit group with at least three, suits in ss order. */
  function SuitTongzi(cards: seq<Card>, ss: seq<int>): seq<seq<Card>>
    decreases |ss|
  {
    if ss == [] then []
    else
      var g := Group(cards, SuitOf, ss[|ss| - 1]);
      SuitTongzi(cards, ss[..|ss| - 1]) + (if |g| >= 3 then [g[..3]] else [])
  }

  /** The tongzi of the ranks ks in order: each rank with at least three cards, split by suit. */
  function TongziFrom(hand: seq<Card>, ks: seq<int>): seq<seq<Card>>
    decreases |ks|
  {
    if ks == [] then [] else TongziFrom(hand, ks[..|ks| - 1]) + RankTongzi(hand, ks[|ks| - 1])
  }

  /** The tongzi of rank r, when it has at least three cards. */
  function RankTongzi(hand: seq<Card>, r: int): seq<seq<Card>> {
    var g := Group(hand, RankOf, r);
    if |g| >= 3 then SuitTongzi(g, Keys(g, SuitOf)) else []
  }

  /** `find_all_tongzi`. */
  method FindAllTongzi(hand: seq<Card>) returns (all: seq<seq<Card>>)
    ensures all == TongziFrom(hand, Keys(hand, RankOf))
  {
    var keys, groups := GroupBy(hand, RankOf);
    all := TongziOfKeys(hand, keys, groups);
  }

  /** The loop over `rank_counts.items()`. */
  method TongziOfKeys(hand: seq<Card>, keys: seq<int>, groups: map<int, seq<Card>>) returns (all: seq<seq<Card>>)
    requires forall r :: Lookup(groups, r) == Group(hand, RankOf, r)
    ensures all == TongziFrom(hand, keys)
  {
    all := [];
    for t := 0 to |keys|
      invariant all == TongziFrom(hand, keys[..t])
    {
      assert keys[..t + 1][..t] == keys[..t];
      var cards := Lookup(groups, keys[t]);
      if |cards| >= 3 {
        var found := SplitBySuit(cards);
        all := all + found;
      }
    }
    assert keys[..|keys|] == keys;
  }

  /** Grouping one rank's cards by suit and keeping the first three of each suit with three. */
  method SplitBySuit(cards: seq<Card>) returns (found: seq<seq<Card>>)
    ensures found == SuitTongzi(cards, Keys(cards, SuitOf))
  {
    var suitKeys, suitGroups := GroupBy(cards, SuitOf);
    found := SuitGroupsTongzi(cards, suitKeys, suitGroups);
  }

  /** The loop over `suit_groups.items()`. */
  method SuitGroupsTongzi(cards: seq<Card>, suitKeys: seq<int>, suitGroups: map<int, seq<Card>>)
    returns (found: seq<seq<Card>>)
    requires forall s :: Lookup(suitGroups, s) == Group(cards, SuitOf, s)
    ensures found == SuitTongzi(cards, suitKeys)
  {
    found := [];
    for t := 0 to |suitKeys|
      invariant found == SuitTongzi(cards, suitKeys[..t])
    {
      assert suitKeys[..t + 1][..t] == suitKeys[..t];
      var suitCards := Lookup(suitGroups, suitKeys[t]);
      if |suitCards| >= 3 {
        found := found + [suitCards[..3]];
      }
    }
    assert suitKeys[..|suitKeys|] == suitKeys;
  }

  lemma {:induction false} SuitTongziMembers(cards: seq<Card>, ss: seq<int>, x: seq<Card>)
    ensures x in SuitTongzi(cards, ss) <==>
              exists s :: s in ss && |Group(cards, SuitOf, s)| >= 3 && x == Group(cards, SuitOf, s)[..3]
    decreases |ss|
  {
    if ss != [] {
      var init, last := ss[..|ss| - 1], ss[|ss| - 1];
      SuitTongziMembers(cards, init, x);
      var g := Group(cards, SuitOf, last);
      assert SuitTongzi(cards, ss) == SuitTongzi(cards, init) + (if |g| >= 3 then [g[..3]] else []);
      assert forall s :: s in ss <==> s in init || s == last;
      if x in SuitTongzi(cards, ss) && x !in SuitTongzi(cards, init) {
        assert last in ss;
      }
    }
  }

  lemma {:induction false} TongziFromMembers(hand: seq<Card>, ks: seq<int>, x: seq<Card>)
    ensures x in TongziFrom(hand, ks) <==> exists r :: r in ks && x in RankTongzi(hand, r)
    decreases |ks|
  {
    if ks != [] {
      var init, last := ks[..|ks| - 1], ks[|ks| - 1];
      TongziFromMembers(hand, init, x);
      assert TongziFrom(hand, ks) == TongziFrom(hand, init) + RankTongzi(hand, last);
      assert forall r :: r in ks <==> r in init || r == last;
      if x in TongziFrom(hand, ks) && x !in TongziFrom(hand, init) {
        assert last in ks;
      }
    }
  }

  /** A key with cards is among the dictionary's keys. */
  lemma KeyOfGroup(cards: seq<Card>, key: Card -> int, k: int)
    requires |Group(cards, key, k)| >= 1
    ensures k in Keys(cards, key)
  {
    DistinctKeys(KeyList(cards, key));
    if k !in KeyList(cards, key) {
      GroupOfAbsentKey(cards, key, k);
    }
  }

  lemma {:induction false} AllCopies(h: seq<Card>, c: Card)
    requires forall i :: 0 <= i < |h| ==> h[i] == c
    ensures multiset(h)[c] == |h|
    decreases |h|
  {
    if h != [] {
      AllCopies(h[..|h| - 1], c);
      assert h == h[..|h| - 1] + [c];
    }
  }

  /** Grouping the cards of c's rank by suit gives, at c's suit, every copy of c and nothing else. */
  lemma CopiesOf(hand: seq<Card>, c: Card)
    ensures var h := Group(Group(hand, RankOf, c.rank), SuitOf, c.suit);
            |h| == multiset(hand)[c] && forall i :: 0 <= i < |h| ==> h[i] == c
  {
    var g := Group(hand, RankOf, c.rank);
    var h := Group(g, SuitOf, c.suit);
    GroupMultiset(hand, RankOf, c.rank);
    GroupMultiset(g, SuitOf, c.suit);
    forall i | 0 <= i < |h| ensures h[i] == c {
      assert h[i] in multiset(h);
    }
    AllCopies(h, c);
  }

  lemma GroupWithin(cards: seq<Card>, key: Card -> int, k: int)
    ensures |Group(cards, key, k)| <= |cards|
  {
    GroupMultiset(cards, key, k);
    assert multiset(Group(cards, key, k)) <= multiset(cards);
  }

  /** `find_all_tongzi` lists x exactly when x is three copies of one card the
      hand holds at least three times. */
  lemma TongziFound(hand: seq<Card>, x: seq<Card>)
    ensures x in TongziFrom(hand, Keys(hand, RankOf)) <==> exists c :: multiset(hand)[c] >= 3 && x == [c, c, c]
  {
    if x in TongziFrom(hand, Keys(hand, RankOf)) {
      FoundTongziIsCopies(hand, x);
    }
    if exists c :: multiset(hand)[c] >= 3 && x == [c, c, c] {
      var c :| multiset(hand)[c] >= 3 && x == [c, c, c];
      CopiesAreFound(hand, c);
    }
  }

  lemma FoundTongziIsCopies(hand: seq<Card>, x: seq<Card>)
    requires x in TongziFrom(hand, Keys(hand, RankOf))
    ensures exists c :: multiset(hand)[c] >= 3 && x == [c, c, c]
  {
    TongziFromMembers(hand, Keys(hand, RankOf), x);
    var r :| r in Keys(hand, RankOf) && x in RankTongzi(hand, r);
    var g := Group(hand, RankOf, r);
    SuitTongziMembers(g, Keys(g, SuitOf), x);
    var s :| s in Keys(g, SuitOf) && |Group(g, SuitOf, s)| >= 3 && x == Group(g, SuitOf, s)[..3];
    var c := SuitGroupCard(hand, r, s);
    CopiesOf(hand, c);
    var h := Group(g, SuitOf, s);
    assert x == [h[0], h[1], h[2]];
  }

  /** A card of the suit-s group of rank r's cards is the card (s, r). */
  lemma SuitGroupCard(hand: seq<Card>, r: int, s: int) returns (c: Card)
    requires |Group(Group(hand, RankOf, r), SuitOf, s)| >= 1
    ensures c == Group(Group(hand, RankOf, r), SuitOf, s)[0] && c.rank == r && c.suit == s
  {
    var g := Group(hand, RankOf, r);
    var h := Group(g, SuitOf, s);
    c := h[0];
    GroupMultiset(hand, RankOf, r);
    GroupMultiset(g, SuitOf, s);
    assert c in multiset(h);
  }

  lemma CopiesAreFound(hand: seq<Card>, c: Card)
    requires multiset(hand)[c] >= 3
    ensures [c, c, c] in TongziFrom(hand, Keys(hand, RankOf))
  {
    var g := Group(hand, RankOf, c.rank);
    var h := Group(g, SuitOf, c.suit);
    CopiesOf(hand, c);
    GroupWithin(g, SuitOf, c.suit);
    KeyOfGroup(hand, RankOf, c.rank);
    KeyOfGroup(g, SuitOf, c.suit);
    assert [c, c, c] == h[..3];
    SuitTongziMembers(g, Keys(g, SuitOf), [c, c, c]);
    assert [c, c, c] in RankTongzi(hand, c.rank);
    TongziFromMembers(hand, Keys(hand, RankOf), [c, c, c]);
  }
}

/**
 * `HandPatternAnalyzer`: the greedy decomposition of a hand into eight
 * non-overlapping buckets. Each stage groups the cards still remaining, keeps
 * the groups the recognizer accepts as the stage's own play type, appends them
 * to its bucket and removes their cards, one copy per card, from the working
 * list. The stages run in the order dizha, tongzi, bombs, airplane chains,
 * triples, consecutive-pair chains, pairs, singles.
 *
 * The specification side is the function `Decompose`, built from one function
 * per stage; the methods follow the source's loops and are proved to compute
 * it. The lemmas then show that the buckets partition the hand, that every
 * group is recognised as its bucket's type and that each bucket is sorted.
 */
module HandAnalysis {
  import opened Wrappers
  import opened Cards
  import opened Tally
  import opened RankTallies
  import opened Patterns
  import opened Recognizer
  import opened RecognizerProperties
  import opened Sorting

  // ---------------------------------------------------------------------------
  // Grouping: `rank_groups` and `suit_rank_groups`

  /** The grouping key of `rank_groups`. */
  function RankOf(c: Card): int { c.rank }

  /** The grouping key of `suit_rank_groups`: the (suit, rank) pair as one number. */
  function CardCode(c: Card): int { c.suit * 16 + c.rank }

  /** The identity on integers, as a sort key. */
  function Value(x: int): int { x }

  predicate NoDup(s: seq<int>) {
    forall i, j :: 0 <= i < j < |s| ==> s[i] != s[j]
  }

  /** Dropping the last key of a duplicate-free list leaves a duplicate-free list without it. */
  lemma NoDupInit(s: seq<int>)
    requires s != [] && NoDup(s)
    ensures NoDup(s[..|s| - 1]) && s[|s| - 1] !in s[..|s| - 1]
    ensures forall x :: x in s <==> x in s[..|s| - 1] || x == s[|s| - 1]
  {
    var init := s[..|s| - 1];
    assert s == init + [s[|s| - 1]];
    forall i, j | 0 <= i < j < |init| ensures init[i] != init[j] {
      assert init[i] == s[i] && init[j] == s[j];
    }
    forall i | 0 <= i < |init| ensures init[i] != s[|s| - 1] {
      assert init[i] == s[i];
    }
  }

  /** The key of every card, in list order. */
  function KeyList(cards: seq<Card>, key: Card -> int): seq<int>
    decreases |cards|
  {
    if cards == [] then [] else KeyList(cards[..|cards| - 1], key) + [key(cards[|cards| - 1])]
  }

  /** The keys of the grouping dictionary, in insertion order. */
  function Keys(cards: seq<Card>, key: Card -> int): seq<int> {
    Distinct(KeyList(cards, key))
  }

  /** The cards with key k, in list order: one entry of the grouping dictionary. */
  function Group(cards: seq<Card>, key: Card -> int, k: int): seq<Card>
    decreases |cards|
  {
    if cards == [] then []
    else Group(cards[..|cards| - 1], key, k) + (if key(cards[|cards| - 1]) == k then [cards[|cards| - 1]] else [])
  }

  /** A `defaultdict(list)` lookup: the stored list, or the empty list. */
  function Lookup(groups: map<int, seq<Card>>, k: int): seq<Card> {
    if k in groups then groups[k] else []
  }

  lemma {:induction false} GroupOfAbsentKey(cards: seq<Card>, key: Card -> int, k: int)
    requires k !in KeyList(cards, key)
    ensures Group(cards, key, k) == []
  {
    if cards != [] {
      GroupOfAbsentKey(cards[..|cards| - 1], key, k);
    }
  }

  /** A group holds exactly the cards with its key, every copy of them. */
  lemma {:induction false} GroupMultiset(cards: seq<Card>, key: Card -> int, k: int)
    ensures forall c :: multiset(Group(cards, key, k))[c] == if key(c) == k then multiset(cards)[c] else 0
  {
    if cards != [] {
      var init, last := cards[..|cards| - 1], cards[|cards| - 1];
      GroupMultiset(init, key, k);
      assert cards == init + [last];
    }
  }

  lemma GroupMembers(cards: seq<Card>, key: Card -> int, k: int)
    ensures forall i :: 0 <= i < |Group(cards, key, k)| ==> key(Group(cards, key, k)[i]) == k
  {
    GroupMultiset(cards, key, k);
    forall i | 0 <= i < |Group(cards, key, k)| ensures key(Group(cards, key, k)[i]) == k {
      assert Group(cards, key, k)[i] in multiset(Group(cards, key, k));
    }
  }

  /** Grouping the cards by a key, as the finders build their dictionaries:
      the keys in insertion order, and for each key the cards holding it. */
  method GroupBy(cards: seq<Card>, key: Card -> int) returns (keys: seq<int>, groups: map<int, seq<Card>>)
    ensures keys == Keys(cards, key)
    ensures forall k :: Lookup(groups, k) == Group(cards, key, k)
  {
    keys := [];
    groups := map[];
    for i := 0 to |cards|
      invariant keys == Keys(cards[..i], key)
      invariant forall k :: k in groups <==> k in KeyList(cards[..i], key)
      invariant forall k :: k in groups ==> groups[k] == Group(cards[..i], key, k)
    {
      var c := cards[i];
      var k := key(c);
      assert cards[..i + 1][..i] == cards[..i];
      assert KeyList(cards[..i + 1], key) == KeyList(cards[..i], key) + [k];
      DistinctKeys(KeyList(cards[..i], key));
      if k in groups {
        groups := groups[k := groups[k] + [c]];
      } else {
        GroupOfAbsentKey(cards[..i], key, k);
        keys := keys + [k];
        groups := groups[k := [c]];
      }
    }
    assert cards[..|cards|] == cards;
    forall k ensures Lookup(groups, k) == Group(cards, key, k) {
      if k !in groups {
        GroupOfAbsentKey(cards, key, k);
      }
    }
  }

  /** The keys are listed once each. */
  lemma KeysNoDup(cards: seq<Card>, key: Card -> int)
    ensures NoDup(Keys(cards, key))
  {
    DistinctKeys(KeyList(cards, key));
  }

  // ---------------------------------------------------------------------------
  // Duplicate-free lists and their permutations

  lemma {:induction false} NoDupMultiset(s: seq<int>)
    requires NoDup(s)
    ensures forall x :: multiset(s)[x] <= 1
  {
    if s != [] {
      NoDupMultiset(s[1..]);
      assert s == [s[0]] + s[1..];
      assert s[0] !in s[1..];
    }
  }

  /** A permutation of a duplicate-free list is duplicate-free. */
  lemma NoDupOfPermutation(s: seq<int>, t: seq<int>)
    requires NoDup(s) && multiset(s) == multiset(t)
    ensures NoDup(t)
  {
    NoDupMultiset(s);
    forall i, j | 0 <= i < j < |t| ensures t[i] != t[j] {
      RepeatedValue(t, i, j);
    }
  }

  lemma RepeatedValue(t: seq<int>, i: int, j: int)
    requires 0 <= i < j < |t|
    ensures t[i] == t[j] ==> multiset(t)[t[i]] >= 2
  {
    assert t == t[..j] + t[j..];
    assert t[i] in t[..j] && t[j] in t[j..];
  }

  // ---------------------------------------------------------------------------
  // Taking cards out of the working list

  /** `for card in group: remaining_cards.remove(card)`, one card after the other. */
  function RemoveAll(s: seq<Card>, t: seq<Card>): seq<Card>
    decreases |t|
  {
    if t == [] then s else RemoveFirst(RemoveAll(s, t[..|t| - 1]), t[|t| - 1])
  }

  lemma {:induction false} RemoveAllAppend(s: seq<Card>, a: seq<Card>, b: seq<Card>)
    ensures RemoveAll(s, a + b) == RemoveAll(RemoveAll(s, a), b)
    decreases |b|
  {
    if b == [] {
      assert a + b == a;
    } else {
      RemoveAllAppend(s, a, b[..|b| - 1]);
      assert (a + b)[..|a + b| - 1] == a + b[..|b| - 1];
    }
  }

  /** Removing cards that are all present takes away exactly those cards. */
  lemma {:induction false} RemoveAllSpec(s: seq<Card>, t: seq<Card>)
    requires multiset(t) <= multiset(s)
    ensures multiset(RemoveAll(s, t)) == multiset(s) - multiset(t)
    decreases |t|
  {
    if t != [] {
      var init, x := t[..|t| - 1], t[|t| - 1];
      assert t == init + [x];
      RemoveAllSpec(s, init);
      var r := RemoveAll(s, init);
      assert multiset(r)[x] == multiset(s)[x] - multiset(init)[x];
      assert x in multiset(r);
      RemoveFirstSpec(r, x);
    }
  }

  /** The inner removal loop of every extraction stage. */
  method TakeOut(remaining: seq<Card>, group: seq<Card>) returns (rest: seq<Card>)
    ensures rest == RemoveAll(remaining, group)
  {
    rest := remaining;
    for m := 0 to |group|
      invariant rest == RemoveAll(remaining, group[..m])
    {
      assert group[..m + 1][..m] == group[..m];
      rest := RemoveFirst(rest, group[m]);
    }
    assert group[..|group|] == group;
  }

  lemma FlattenSnoc(gs: seq<seq<Card>>, g: seq<Card>)
    ensures Flatten(gs + [g]) == Flatten(gs) + g
  {
    FlattenAppend(gs, [g]);
    assert Flatten([g]) == g + Flatten([g][1..]);
  }

  /** The outer extraction loop: append each found group to the bucket and take its cards out. */
  method TakeGroups(remaining: seq<Card>, bucket: seq<seq<Card>>, found: seq<seq<Card>>)
    returns (rest: seq<Card>, extended: seq<seq<Card>>)
    ensures extended == bucket + found
    ensures rest == RemoveAll(remaining, Flatten(found))
  {
    rest, extended := remaining, bucket;
    for i := 0 to |found|
      invariant extended == bucket + found[..i]
      invariant rest == RemoveAll(remaining, Flatten(found[..i]))
    {
      assert found[..i + 1] == found[..i] + [found[i]];
      FlattenSnoc(found[..i], found[i]);
      RemoveAllAppend(remaining, Flatten(found[..i]), found[i]);
      extended := extended + [found[i]];
      rest := TakeOut(rest, found[i]);
    }
    assert found[..|found|] == found;
  }

  // ---------------------------------------------------------------------------
  // The stages

  datatype Stage = DizhaStage | TongziStage | BombStage | AirplaneStage | TripleStage | PairChainStage | PairStage

  /** The play type of a stage's bucket. */
  function StageType(st: Stage): PlayType {
    match st
    case DizhaStage => Dizha
    case TongziStage => Tongzi
    case BombStage => Bomb
    case AirplaneStage => Airplane
    case TripleStage => Triple
    case PairChainStage => ConsecutivePairs
    case PairStage => Pair
  }

  /** The dictionary key a stage groups by: (suit, rank) for tongzi, the rank otherwise. */
  function GroupKey(st: Stage): Card -> int {
    if st == TongziStage then CardCode else RankOf
  }

  /** `rank_groups[rank][:k]`: the first k cards of a group (all of them when it holds fewer). */
  function Take(g: seq<Card>, k: nat): seq<Card> {
    if |g| <= k then g else g[..k]
  }

  /** The first n cards of each listed key's group, keys in list order: how `_find_dizha`
      joins two cards of each suit and the chain finders join k cards of each rank. */
  function Gather(cards: seq<Card>, key: Card -> int, n: nat, ks: seq<int>): seq<Card>
    decreases |ks|
  {
    if ks == [] then [] else Gather(cards, key, n, ks[..|ks| - 1]) + Take(Group(cards, key, ks[|ks| - 1]), n)
  }

  /** `for suit in Suit`: the suits in the order the enum declares them. */
  const PySuitOrder: seq<Suit> := [Diamonds, Clubs, Hearts, Spades]

  /** `[Suit::Spades, Suit::Hearts, Suit::Clubs, Suit::Diamonds]`, the order the
      Rust dizha finders take the suits in. */
  const RustSuitOrder: seq<Suit> := [Spades, Hearts, Clubs, Diamonds]

  /** The (suit, rank) keys of rank r, suits in the given order. */
  function SuitKeys(order: seq<Suit>, r: Rank): seq<int>
    decreases |order|
  {
    if order == [] then [] else SuitKeys(order[..|order| - 1], r) + [CardCode(Card(order[|order| - 1], r))]
  }

  /** The dizha a finder joins from one rank's cards: none unless there are eight
      with two of every suit, otherwise the first two of each suit, suits in the
      given order. */
  function DizhaOf(g: seq<Card>, order: seq<Suit>): Option<seq<Card>> {
    if |g| < 8 then None
    else
      var r := g[0].rank;
      if && Count(g, Card(Diamonds, r)) >= 2 && Count(g, Card(Clubs, r)) >= 2
         && Count(g, Card(Hearts, r)) >= 2 && Count(g, Card(Spades, r)) >= 2
      then Some(Gather(g, CardCode, 2, SuitKeys(order, r)))
      else None
  }

  /** The order of the suits changes only the order of a dizha's cards: the
      Python and Rust finders accept the same ranks and join the same cards. */
  lemma DizhaOrderSameCards(g: seq<Card>)
    ensures DizhaOf(g, RustSuitOrder).Some? <==> DizhaOf(g, PySuitOrder).Some?
    ensures DizhaOf(g, RustSuitOrder).Some? ==>
              multiset(DizhaOf(g, RustSuitOrder).value) == multiset(DizhaOf(g, PySuitOrder).value)
  {
    if |g| >= 8 {
      var r := g[0].rank;
      SuitGather(g, r, [Diamonds, Clubs, Hearts, Spades]);
      SuitGather(g, r, [Spades, Hearts, Clubs, Diamonds]);
    }
  }

  /** The keys of four suits, listed. */
  lemma SuitKeysFour(order: seq<Suit>, r: Rank)
    requires |order| == 4
    ensures SuitKeys(order, r) == [CardCode(Card(order[0], r)), CardCode(Card(order[1], r)),
                                   CardCode(Card(order[2], r)), CardCode(Card(order[3], r))]
  {
    var c0, c1, c2, c3 := CardCode(Card(order[0], r)), CardCode(Card(order[1], r)), CardCode(Card(order[2], r)), CardCode(Card(order[3], r));
    assert SuitKeys(order[..1], r) == [c0] by {
      assert order[..1][..0] == [];
    }
    assert SuitKeys(order[..2], r) == [c0, c1] by {
      assert order[..2][..1] == order[..1];
    }
    assert SuitKeys(order[..3], r) == [c0, c1, c2] by {
      assert order[..3][..2] == order[..2];
    }
    assert SuitKeys(order, r) == [c0, c1, c2, c3] by {
      assert order[..3] == order[..|order| - 1];
    }
  }

  /** A four-suit gather is the four suits' first two cards, in that order. */
  lemma SuitGather(g: seq<Card>, r: Rank, order: seq<Suit>)
    requires |order| == 4
    ensures Gather(g, CardCode, 2, SuitKeys(order, r))
              == Take(Group(g, CardCode, CardCode(Card(order[0], r))), 2) + Take(Group(g, CardCode, CardCode(Card(order[1], r))), 2)
                 + Take(Group(g, CardCode, CardCode(Card(order[2], r))), 2) + Take(Group(g, CardCode, CardCode(Card(order[3], r))), 2)
  {
    SuitKeysFour(order, r);
    var k0: seq<int> := [];
    var k1 := k0 + [CardCode(Card(order[0], r))];
    var k2 := k1 + [CardCode(Card(order[1], r))];
    var k3 := k2 + [CardCode(Card(order[2], r))];
    var k4 := k3 + [CardCode(Card(order[3], r))];
    GatherAppend(g, CardCode, 2, k0, CardCode(Card(order[0], r)));
    GatherAppend(g, CardCode, 2, k1, CardCode(Card(order[1], r)));
    GatherAppend(g, CardCode, 2, k2, CardCode(Card(order[2], r)));
    GatherAppend(g, CardCode, 2, k3, CardCode(Card(order[3], r)));
    assert k4 == SuitKeys(order, r);
  }

  /** Gathering one more key appends that key's first n cards. */
  lemma GatherAppend(cards: seq<Card>, key: Card -> int, n: nat, ks: seq<int>, k: int)
    ensures Gather(cards, key, n, ks + [k]) == Gather(cards, key, n, ks) + Take(Group(cards, key, k), n)
  {
    assert (ks + [k])[..|ks|] == ks;
  }

  /** The group a per-key finder assembles from one dictionary entry, if the entry holds enough cards:
      a dizha needs 8 cards with two of every suit, a tongzi three copies of one card, a bomb
      four cards (and takes them all), a triple three cards (and takes the first three). */
  function Assemble(st: Stage, g: seq<Card>): Option<seq<Card>> {
    match st
    case DizhaStage => DizhaOf(g, PySuitOrder)
    case TongziStage => if |g| >= 3 then Some(g[..3]) else None
    case BombStage => if |g| >= 4 then Some(g) else None
    case TripleStage => if |g| >= 3 then Some(g[..3]) else None
    case _ => None
  }

  /** `rank_cards[:2]`, `rank_cards[2:4]`, …: the pairs cut from the front of a group. */
  function Chunks(g: seq<Card>): seq<seq<Card>>
    decreases |g|
  {
    if |g| < 2 then [] else [g[..2]] + Chunks(g[2..])
  }

  /** The recognizer's verdict on a group: is it a play of the given type? The finders
      take it as a parameter; `Recognises` ties it to the recognizer. */
  type Verdict = (seq<Card>, PlayType) -> bool

  /** The verdict is the recognizer's: it accepts a group as type t exactly when
      `analyze_cards` gives the group that type. */
  ghost predicate Recognises(recognised: Verdict) {
    forall x, t {:trigger IsType(x, t)} :: recognised(x, t) == IsType(x, t)
  }

  /** What a per-key finder keeps from one dictionary entry: the assembled group when the
      verdict gives it the stage's type. */
  function Kept(st: Stage, g: seq<Card>, recognised: Verdict): seq<seq<Card>> {
    match Assemble(st, g)
    case None => []
    case Some(x) => if recognised(x, StageType(st)) then [x] else []
  }

  /** The groups a per-key finder finds, visiting the keys in the given order. */
  function FoundFrom(st: Stage, cards: seq<Card>, ks: seq<int>, recognised: Verdict): seq<seq<Card>>
    decreases |ks|
  {
    if ks == [] then []
    else FoundFrom(st, cards, ks[..|ks| - 1], recognised) + Kept(st, Group(cards, GroupKey(st), ks[|ks| - 1]), recognised)
  }

  /** The pairs cut from the listed ranks' entries, ranks in list order. */
  function PairsFrom(cards: seq<Card>, ks: seq<int>): seq<seq<Card>>
    decreases |ks|
  {
    if ks == [] then [] else PairsFrom(cards, ks[..|ks| - 1]) + Chunks(Group(cards, RankOf, ks[|ks| - 1]))
  }

  /** The inner scan of the chain finders: from index j, how far the ranks keep stepping by one. */
  function RunEnd(vr: seq<int>, j: nat): (e: nat)
    requires 1 <= j <= |vr|
    ensures j <= e <= |vr|
    decreases |vr| - j
  {
    if j < |vr| && vr[j] == vr[j - 1] + 1 then RunEnd(vr, j + 1) else j
  }

  /** The play type a chain of k cards per rank must be recognised as. */
  function ChainType(k: nat): PlayType {
    if k == 3 then Airplane else ConsecutivePairs
  }

  /** The outer scan of the chain finders from index i of the sorted valid ranks: the
      maximal run starting there, kept when it has two ranks or more and the recognizer
      accepts it (the scan then resumes after the run), skipped by one rank otherwise. */
  function ChainsFrom(cards: seq<Card>, k: nat, vr: seq<int>, i: nat, recognised: Verdict): seq<seq<Card>>
    requires i <= |vr|
    decreases |vr| - i
  {
    if i == |vr| then []
    else
      var j := RunEnd(vr, i + 1);
      var chain := Gather(cards, RankOf, k, vr[i..j]);
      if j - i >= 2 && recognised(chain, ChainType(k)) then [chain] + ChainsFrom(cards, k, vr, j, recognised)
      else ChainsFrom(cards, k, vr, i + 1, recognised)
  }

  /** `_find_airplane_chains` (k = 3) and `_find_consecutive_pair_chains` (k = 2): the
      scan over the sorted ranks holding at least k cards. */
  function Chains(cards: seq<Card>, k: nat, recognised: Verdict): seq<seq<Card>> {
    ChainsFrom(cards, k, RanksFrom(cards, 3, k), 0, recognised)
  }

  /** `_find_dizha`, `_find_tongzi`, `_find_bombs`, `_find_triples`: every dictionary entry
      in insertion order. */
  function KeyedFound(st: Stage, cards: seq<Card>, recognised: Verdict): seq<seq<Card>> {
    FoundFrom(st, cards, Keys(cards, GroupKey(st)), recognised)
  }

  /** `_extract_pairs`: the ranks' entries, highest rank first. */
  function PairsFound(cards: seq<Card>): seq<seq<Card>> {
    PairsFrom(cards, SortDesc(Keys(cards, RankOf), Value))
  }

  // ---------------------------------------------------------------------------
  // The decomposition

  /** The eight buckets of `HandPatterns`. */
  datatype Buckets = Buckets(
    dizha: seq<seq<Card>>, tongzi: seq<seq<Card>>, bombs: seq<seq<Card>>,
    airplaneChains: seq<seq<Card>>, triples: seq<seq<Card>>,
    consecutivePairChains: seq<seq<Card>>, pairs: seq<seq<Card>>, singles: seq<Card>)

  const NoBuckets := Buckets([], [], [], [], [], [], [], [])

  /** Sort key of dizha and triples: the rank. */
  function LeadRank(g: seq<Card>): int {
    if g == [] then 0 else g[0].rank
  }

  /** Sort key of tongzi: (suit, rank), compared suit first. */
  function SuitThenRank(g: seq<Card>): int {
    if g == [] then 0 else CardCode(g[0])
  }

  /** Sort key of bombs and chains: (length, rank of the first card), compared length first. */
  function SizeThenRank(g: seq<Card>): int {
    if g == [] then 0 else |g| * 16 + g[0].rank
  }

  /** The decomposition `analyze_patterns` computes: each stage runs on what the
      previous ones left; every bucket but `pairs` is then sorted in descending order. */
  function Decompose(hand: seq<Card>, recognised: Verdict): Buckets {
    var f1 := KeyedFound(DizhaStage, hand, recognised);
    var r1 := RemoveAll(hand, Flatten(f1));
    var f2 := KeyedFound(TongziStage, r1, recognised);
    var r2 := RemoveAll(r1, Flatten(f2));
    var f3 := KeyedFound(BombStage, r2, recognised);
    var r3 := RemoveAll(r2, Flatten(f3));
    var f4 := Chains(r3, 3, recognised);
    var r4 := RemoveAll(r3, Flatten(f4));
    var f5 := KeyedFound(TripleStage, r4, recognised);
    var r5 := RemoveAll(r4, Flatten(f5));
    var f6 := Chains(r5, 2, recognised);
    var r6 := RemoveAll(r5, Flatten(f6));
    var f7 := PairsFound(r6);
    var r7 := RemoveAll(r6, Flatten(f7));
    Buckets(
      SortDesc(f1, LeadRank), SortDesc(f2, SuitThenRank), SortDesc(f3, SizeThenRank),
      SortDesc(f4, SizeThenRank), SortDesc(f5, LeadRank), SortDesc(f6, SizeThenRank),
      f7, SortDesc(r7, RankOf))
  }

  /** All cards the buckets hold. */
  function Held(b: Buckets): multiset<Card> {
    multiset(Flatten(b.dizha)) + multiset(Flatten(b.tongzi)) + multiset(Flatten(b.bombs))
    + multiset(Flatten(b.airplaneChains)) + multiset(Flatten(b.triples))
    + multiset(Flatten(b.consecutivePairChains)) + multiset(Flatten(b.pairs)) + multiset(b.singles)
  }

  /** `has_control_cards`: a Two, an Ace or a King in the hand. */
  predicate HasControlCards(hand: seq<Card>) {
    exists i :: 0 <= i < |hand| && (hand[i].rank == Two || hand[i].rank == Ace || hand[i].rank == King)
  }

  lemma EmptyHandHasNoControlCards()
    ensures !HasControlCards([])
  {
  }

  // ---------------------------------------------------------------------------
  // Every stage takes only cards that are there

  lemma PrefixWithin(g: seq<Card>, n: nat)
    requires n <= |g|
    ensures multiset(g[..n]) <= multiset(g)
  {
    assert g == g[..n] + g[n..];
  }

  lemma {:induction false} ChunksWithin(g: seq<Card>)
    ensures multiset(Flatten(Chunks(g))) <= multiset(g)
    decreases |g|
  {
    if |g| >= 2 {
      ChunksWithin(g[2..]);
      assert Chunks(g)[1..] == Chunks(g[2..]);
      assert g == g[..2] + g[2..];
    }
  }

  lemma TakeWithin(g: seq<Card>, n: nat)
    ensures multiset(Take(g, n)) <= multiset(g)
  {
    if n < |g| {
      PrefixWithin(g, n);
    }
  }

  /** Gathering over distinct keys takes, of each card, at most its copies, and only
      cards whose key is listed. */
  lemma {:induction false} GatherBound(cards: seq<Card>, key: Card -> int, n: nat, ks: seq<int>)
    requires NoDup(ks)
    ensures forall c :: multiset(Gather(cards, key, n, ks))[c] <= if key(c) in ks then multiset(cards)[c] else 0
    decreases |ks|
  {
    if ks != [] {
      var init, k := ks[..|ks| - 1], ks[|ks| - 1];
      NoDupInit(ks);
      GatherBound(cards, key, n, init);
      TakeWithin(Group(cards, key, k), n);
      GroupMultiset(cards, key, k);
      assert ks == init + [k];
    }
  }

  /** What a per-key finder assembles is drawn from the entry it was given. */
  lemma AssembleWithin(st: Stage, g: seq<Card>)
    requires Assemble(st, g).Some?
    ensures multiset(Assemble(st, g).value) <= multiset(g)
  {
    if st == DizhaStage {
      SuitKeysFour(PySuitOrder, g[0].rank);
      GatherBound(g, CardCode, 2, SuitKeys(PySuitOrder, g[0].rank));
    } else if st == TongziStage || st == TripleStage {
      PrefixWithin(g, 3);
    }
  }

  /** A per-key finder keeps the assembled group or nothing. */
  lemma KeptIsAssembled(st: Stage, g: seq<Card>, recognised: Verdict)
    ensures Kept(st, g, recognised) == []
            || (Assemble(st, g).Some? && Kept(st, g, recognised) == [Assemble(st, g).value])
  {
  }

  /** What a per-key finder keeps from one dictionary entry is drawn from that entry. */
  lemma KeptWithin(st: Stage, g: seq<Card>, recognised: Verdict)
    ensures multiset(Flatten(Kept(st, g, recognised))) <= multiset(g)
  {
    KeptIsAssembled(st, g, recognised);
    if Kept(st, g, recognised) != [] {
      var x := Assemble(st, g).value;
      assert Flatten([x]) == x + Flatten([x][1..]);
      AssembleWithin(st, g);
    }
  }

  lemma FoundFromSnoc(st: Stage, cards: seq<Card>, ks: seq<int>, recognised: Verdict)
    requires ks != []
    ensures Flatten(FoundFrom(st, cards, ks, recognised))
            == Flatten(FoundFrom(st, cards, ks[..|ks| - 1], recognised))
               + Flatten(Kept(st, Group(cards, GroupKey(st), ks[|ks| - 1]), recognised))
  {
    FlattenAppend(FoundFrom(st, cards, ks[..|ks| - 1], recognised), Kept(st, Group(cards, GroupKey(st), ks[|ks| - 1]), recognised));
  }

  /** The groups a per-key finder finds hold, of each card, at most the copies in its key's
      entry, and none of a key not visited. */
  lemma {:induction false} FoundFromBound(st: Stage, cards: seq<Card>, ks: seq<int>, recognised: Verdict, c: Card)
    requires NoDup(ks)
    ensures multiset(Flatten(FoundFrom(st, cards, ks, recognised)))[c]
            <= if GroupKey(st)(c) in ks then multiset(cards)[c] else 0
    decreases |ks|
  {
    if ks != [] {
      var init, k := ks[..|ks| - 1], ks[|ks| - 1];
      var key := GroupKey(st);
      var g := Group(cards, key, k);
      var a, b := Flatten(FoundFrom(st, cards, init, recognised)), Flatten(Kept(st, g, recognised));
      NoDupInit(ks);
      FoundFromBound(st, cards, init, recognised, c);
      FoundFromSnoc(st, cards, ks, recognised);
      KeptWithin(st, g, recognised);
      GroupMultiset(cards, key, k);
      assert multiset(a + b)[c] == multiset(a)[c] + multiset(b)[c];
      assert multiset(b)[c] <= multiset(g)[c];
    }
  }

  /** The pairs cut from distinct ranks' entries hold, of each card, at most its copies,
      and none of a rank not visited. */
  lemma {:induction false} PairsFromBound(cards: seq<Card>, ks: seq<int>, c: Card)
    requires NoDup(ks)
    ensures multiset(Flatten(PairsFrom(cards, ks)))[c] <= if c.rank in ks then multiset(cards)[c] else 0
    decreases |ks|
  {
    if ks != [] {
      var init, k := ks[..|ks| - 1], ks[|ks| - 1];
      var g := Group(cards, RankOf, k);
      var a, b := Flatten(PairsFrom(cards, init)), Flatten(Chunks(g));
      NoDupInit(ks);
      PairsFromBound(cards, init, c);
      FlattenAppend(PairsFrom(cards, init), Chunks(g));
      ChunksWithin(g);
      GroupMultiset(cards, RankOf, k);
      assert multiset(a + b)[c] == multiset(a)[c] + multiset(b)[c];
      assert multiset(b)[c] <= multiset(g)[c];
    }
  }

  /** Consecutive slices of an increasing list are duplicate-free and share no value. */
  lemma IncreasingSlices(vr: seq<int>, i: int, j: int, x: int)
    requires StrictlyIncreasing(vr) && 0 <= i <= j <= |vr|
    ensures NoDup(vr[i..j])
    ensures x in vr[i..] <==> x in vr[i..j] || x in vr[j..]
    ensures !(x in vr[i..j] && x in vr[j..])
  {
    assert vr[i..] == vr[i..j] + vr[j..];
    forall p, q | 0 <= p < j - i && 0 <= q < |vr| - j ensures vr[i..j][p] != vr[j..][q] {
      assert vr[i..j][p] == vr[i + p] && vr[j..][q] == vr[j + q];
    }
  }

  /** The chains found from position i hold, of each card, at most its copies, and none
      of a rank before position i. */
  lemma {:induction false} ChainsFromBound(cards: seq<Card>, k: nat, vr: seq<int>, i: nat, recognised: Verdict, c: Card)
    requires StrictlyIncreasing(vr) && i <= |vr|
    ensures multiset(Flatten(ChainsFrom(cards, k, vr, i, recognised)))[c]
            <= if c.rank in vr[i..] then multiset(cards)[c] else 0
    decreases |vr| - i
  {
    if i < |vr| {
      var j := RunEnd(vr, i + 1);
      var chain := Gather(cards, RankOf, k, vr[i..j]);
      IncreasingSlices(vr, i, j, c.rank);
      GatherBound(cards, RankOf, k, vr[i..j]);
      if j - i >= 2 && recognised(chain, ChainType(k)) {
        var rest := ChainsFrom(cards, k, vr, j, recognised);
        ChainsFromBound(cards, k, vr, j, recognised, c);
        assert ([chain] + rest)[0] == chain && ([chain] + rest)[1..] == rest;
        assert multiset(chain + Flatten(rest))[c] == multiset(chain)[c] + multiset(Flatten(rest))[c];
      } else {
        ChainsFromBound(cards, k, vr, i + 1, recognised, c);
        IncreasingSlices(vr, i, i + 1, c.rank);
      }
    }
  }

  /** A chain finder takes only cards that are there. */
  lemma ChainsWithin(cards: seq<Card>, k: nat, recognised: Verdict)
    ensures multiset(Flatten(Chains(cards, k, recognised))) <= multiset(cards)
  {
    forall c ensures multiset(Flatten(Chains(cards, k, recognised)))[c] <= multiset(cards)[c] {
      ChainsFromBound(cards, k, RanksFrom(cards, 3, k), 0, recognised, c);
    }
  }

  /** A per-key finder takes only cards that are there. */
  lemma KeyedWithin(st: Stage, cards: seq<Card>, recognised: Verdict)
    ensures multiset(Flatten(KeyedFound(st, cards, recognised))) <= multiset(cards)
  {
    KeysNoDup(cards, GroupKey(st));
    forall c ensures multiset(Flatten(KeyedFound(st, cards, recognised)))[c] <= multiset(cards)[c] {
      FoundFromBound(st, cards, Keys(cards, GroupKey(st)), recognised, c);
    }
  }

  /** The pair stage visits every rank once, highest first. */
  lemma PairKeysNoDup(cards: seq<Card>)
    ensures NoDup(SortDesc(Keys(cards, RankOf), Value))
  {
    KeysNoDup(cards, RankOf);
    SortDescSpec(Keys(cards, RankOf), Value);
    NoDupOfPermutation(Keys(cards, RankOf), SortDesc(Keys(cards, RankOf), Value));
  }

  /** The pair stage takes only cards that are there. */
  lemma PairsWithin(cards: seq<Card>)
    ensures multiset(Flatten(PairsFound(cards))) <= multiset(cards)
  {
    PairKeysNoDup(cards);
    forall c ensures multiset(Flatten(PairsFound(cards)))[c] <= multiset(cards)[c] {
      PairsFromBound(cards, SortDesc(Keys(cards, RankOf), Value), c);
    }
  }

  // ---------------------------------------------------------------------------
  // Every group found is recognised as its bucket's type

  /** Each group a per-key finder keeps is one the verdict accepts. */
  lemma {:induction false} FoundFromRecognised(st: Stage, cards: seq<Card>, ks: seq<int>, recognised: Verdict)
    ensures forall x :: x in FoundFrom(st, cards, ks, recognised) ==> recognised(x, StageType(st))
    decreases |ks|
  {
    if ks != [] {
      FoundFromRecognised(st, cards, ks[..|ks| - 1], recognised);
      KeptIsAssembled(st, Group(cards, GroupKey(st), ks[|ks| - 1]), recognised);
    }
  }

  /** Each chain kept is one the verdict accepts. */
  lemma {:induction false} ChainsFromRecognised(cards: seq<Card>, k: nat, vr: seq<int>, i: nat, recognised: Verdict)
    requires i <= |vr|
    ensures forall x :: x in ChainsFrom(cards, k, vr, i, recognised) ==> recognised(x, ChainType(k))
    decreases |vr| - i
  {
    if i < |vr| {
      var j := RunEnd(vr, i + 1);
      ChainsFromRecognised(cards, k, vr, j, recognised);
      ChainsFromRecognised(cards, k, vr, i + 1, recognised);
    }
  }

  /** The chunks cut from cards of one rank are pairs. */
  lemma {:induction false} ChunksArePairs(g: seq<Card>, r: int)
    requires forall i :: 0 <= i < |g| ==> g[i].rank == r
    ensures forall x :: x in Chunks(g) ==> IsPairShape(x) && LeadRank(x) == r
    decreases |g|
  {
    if |g| >= 2 {
      ChunksArePairs(g[2..], r);
      assert g[..2][0] == g[0] && g[..2][1] == g[1];
    }
  }

  /** Every group the pair stage takes is a pair. */
  lemma {:induction false} PairsFromArePairs(cards: seq<Card>, ks: seq<int>)
    ensures forall x :: x in PairsFrom(cards, ks) ==> IsPairShape(x)
    decreases |ks|
  {
    if ks != [] {
      var k := ks[|ks| - 1];
      PairsFromArePairs(cards, ks[..|ks| - 1]);
      GroupMembers(cards, RankOf, k);
      ChunksArePairs(Group(cards, RankOf, k), k);
    }
  }

  /** Every group in the list is recognised as a play of type t. */
  predicate AllOfType(gs: seq<seq<Card>>, t: PlayType) {
    forall g :: g in gs ==> IsType(g, t)
  }

  /** With the recognizer's verdict, every group a per-key finder keeps is a play of the
      stage's type. */
  lemma KeyedRecognised(st: Stage, cards: seq<Card>, recognised: Verdict)
    requires Recognises(recognised)
    ensures AllOfType(KeyedFound(st, cards, recognised), StageType(st))
  {
    FoundFromRecognised(st, cards, Keys(cards, GroupKey(st)), recognised);
  }

  /** With the recognizer's verdict, every chain found is a play of the chain type. */
  lemma ChainsRecognised(cards: seq<Card>, k: nat, recognised: Verdict)
    requires Recognises(recognised)
    ensures AllOfType(Chains(cards, k, recognised), ChainType(k))
  {
    ChainsFromRecognised(cards, k, RanksFrom(cards, 3, k), 0, recognised);
  }

  /** Every group the pair stage takes is recognised as a pair. */
  lemma PairsRecognised(cards: seq<Card>)
    ensures AllOfType(PairsFound(cards), Pair)
  {
    PairsFromArePairs(cards, SortDesc(Keys(cards, RankOf), Value));
    forall x | x in PairsFound(cards) ensures IsType(x, Pair) {
      PairRecognised(x);
    }
  }

  /** Sorting a list of groups keeps them all of one type. */
  lemma SortedOfType(gs: seq<seq<Card>>, key: seq<Card> -> int, t: PlayType)
    requires AllOfType(gs, t)
    ensures AllOfType(SortDesc(gs, key), t)
  {
    SortedKeepsMembers(gs, key);
  }

  // ---------------------------------------------------------------------------
  // The decomposition as a whole

  /** What a stage takes and what it leaves make up what it was given. */
  lemma SplitOff(cards: seq<Card>, found: seq<seq<Card>>)
    requires multiset(Flatten(found)) <= multiset(cards)
    ensures multiset(cards) == multiset(Flatten(found)) + multiset(RemoveAll(cards, Flatten(found)))
  {
    RemoveAllSpec(cards, Flatten(found));
  }

  /** The stages' leftovers, one after the other. */
  lemma DecomposeSplits(hand: seq<Card>, recognised: Verdict)
    ensures var b := Decompose(hand, recognised);
            multiset(hand) == Held(b)
  {
    var f1 := KeyedFound(DizhaStage, hand, recognised);
    var r1 := RemoveAll(hand, Flatten(f1));
    var f2 := KeyedFound(TongziStage, r1, recognised);
    var r2 := RemoveAll(r1, Flatten(f2));
    var f3 := KeyedFound(BombStage, r2, recognised);
    var r3 := RemoveAll(r2, Flatten(f3));
    var f4 := Chains(r3, 3, recognised);
    var r4 := RemoveAll(r3, Flatten(f4));
    var f5 := KeyedFound(TripleStage, r4, recognised);
    var r5 := RemoveAll(r4, Flatten(f5));
    var f6 := Chains(r5, 2, recognised);
    var r6 := RemoveAll(r5, Flatten(f6));
    var f7 := PairsFound(r6);
    var r7 := RemoveAll(r6, Flatten(f7));
    KeyedWithin(DizhaStage, hand, recognised);
    SplitOff(hand, f1);
    KeyedWithin(TongziStage, r1, recognised);
    SplitOff(r1, f2);
    KeyedWithin(BombStage, r2, recognised);
    SplitOff(r2, f3);
    ChainsWithin(r3, 3, recognised);
    SplitOff(r3, f4);
    KeyedWithin(TripleStage, r4, recognised);
    SplitOff(r4, f5);
    ChainsWithin(r5, 2, recognised);
    SplitOff(r5, f6);
    PairsWithin(r6);
    SplitOff(r6, f7);
    FlattenSorted(f1, LeadRank);
    FlattenSorted(f2, SuitThenRank);
    FlattenSorted(f3, SizeThenRank);
    FlattenSorted(f4, SizeThenRank);
    FlattenSorted(f5, LeadRank);
    FlattenSorted(f6, SizeThenRank);
    SortDescSpec(r7, RankOf);
  }

  /** The buckets partition the hand: every card lands in exactly one bucket, as many
      times as the hand holds it, so the bucket sizes add up to the hand size. This holds
      whatever the verdict. */
  lemma DecomposePartition(hand: seq<Card>, recognised: Verdict)
    ensures Held(Decompose(hand, recognised)) == multiset(hand)
    ensures var b := Decompose(hand, recognised);
            |Flatten(b.dizha)| + |Flatten(b.tongzi)| + |Flatten(b.bombs)| + |Flatten(b.airplaneChains)|
            + |Flatten(b.triples)| + |Flatten(b.consecutivePairChains)| + |Flatten(b.pairs)| + |b.singles|
            == |hand|
  {
    DecomposeSplits(hand, recognised);
    var b := Decompose(hand, recognised);
    assert |Held(b)| == |multiset(hand)|;
  }

  /** The bucket a stage fills. */
  function Bucket(b: Buckets, st: Stage): seq<seq<Card>> {
    match st
    case DizhaStage => b.dizha
    case TongziStage => b.tongzi
    case BombStage => b.bombs
    case AirplaneStage => b.airplaneChains
    case TripleStage => b.triples
    case PairChainStage => b.consecutivePairChains
    case PairStage => b.pairs
  }

  /** With the recognizer's verdict, every bucket holds only plays the recognizer gives
      the bucket's type. */
  lemma DecomposeRecognised(hand: seq<Card>, st: Stage, recognised: Verdict)
    requires Recognises(recognised)
    ensures AllOfType(Bucket(Decompose(hand, recognised), st), StageType(st))
  {
    var f1 := KeyedFound(DizhaStage, hand, recognised);
    var r1 := RemoveAll(hand, Flatten(f1));
    var f2 := KeyedFound(TongziStage, r1, recognised);
    var r2 := RemoveAll(r1, Flatten(f2));
    var f3 := KeyedFound(BombStage, r2, recognised);
    var r3 := RemoveAll(r2, Flatten(f3));
    var f4 := Chains(r3, 3, recognised);
    var r4 := RemoveAll(r3, Flatten(f4));
    var f5 := KeyedFound(TripleStage, r4, recognised);
    var r5 := RemoveAll(r4, Flatten(f5));
    var f6 := Chains(r5, 2, recognised);
    var r6 := RemoveAll(r5, Flatten(f6));
    match st
    case DizhaStage =>
      KeyedRecognised(DizhaStage, hand, recognised);
      SortedOfType(f1, LeadRank, Dizha);
    case TongziStage =>
      KeyedRecognised(TongziStage, r1, recognised);
      SortedOfType(f2, SuitThenRank, Tongzi);
    case BombStage =>
      KeyedRecognised(BombStage, r2, recognised);
      SortedOfType(f3, SizeThenRank, Bomb);
    case AirplaneStage =>
      ChainsRecognised(r3, 3, recognised);
      SortedOfType(f4, SizeThenRank, Airplane);
    case TripleStage =>
      KeyedRecognised(TripleStage, r4, recognised);
      SortedOfType(f5, LeadRank, Triple);
    case PairChainStage =>
      ChainsRecognised(r5, 2, recognised);
      SortedOfType(f6, SizeThenRank, ConsecutivePairs);
    case PairStage => PairsRecognised(r6);
  }

  /** The pairs bucket holds two cards of one rank each, whatever the verdict. */
  lemma DecomposePairsArePairs(hand: seq<Card>, recognised: Verdict)
    ensures forall g :: g in Decompose(hand, recognised).pairs ==> IsPairShape(g)
  {
    var f1 := KeyedFound(DizhaStage, hand, recognised);
    var r1 := RemoveAll(hand, Flatten(f1));
    var f2 := KeyedFound(TongziStage, r1, recognised);
    var r2 := RemoveAll(r1, Flatten(f2));
    var f3 := KeyedFound(BombStage, r2, recognised);
    var r3 := RemoveAll(r2, Flatten(f3));
    var f4 := Chains(r3, 3, recognised);
    var r4 := RemoveAll(r3, Flatten(f4));
    var f5 := KeyedFound(TripleStage, r4, recognised);
    var r5 := RemoveAll(r4, Flatten(f5));
    var f6 := Chains(r5, 2, recognised);
    var r6 := RemoveAll(r5, Flatten(f6));
    PairsFromArePairs(r6, SortDesc(Keys(r6, RankOf), Value));
  }

  lemma SortedKeepsMembers(gs: seq<seq<Card>>, key: seq<Card> -> int)
    ensures forall g :: g in SortDesc(gs, key) <==> g in gs
  {
    SortDescSpec(gs, key);
    forall g ensures g in SortDesc(gs, key) <==> g in gs {
      assert g in SortDesc(gs, key) <==> g in multiset(SortDesc(gs, key));
    }
  }

  // ---------------------------------------------------------------------------
  // Pairs and singles

  /** A sorted list stays sorted without its last element. */
  lemma SortedInit(ks: seq<int>)
    requires ks != [] && SortedDesc(ks, Value)
    ensures SortedDesc(ks[..|ks| - 1], Value)
    ensures forall y {:trigger y in ks[..|ks| - 1]} :: y in ks[..|ks| - 1] ==> ks[|ks| - 1] <= y
  {
    var init := ks[..|ks| - 1];
    forall i, j | 0 <= i < j < |init| ensures Value(init[j]) <= Value(init[i]) {
      assert init[i] == ks[i] && init[j] == ks[j];
    }
    forall y | y in init ensures ks[|ks| - 1] <= y {
      var p :| 0 <= p < |init| && init[p] == y;
      assert Value(ks[|ks| - 1]) <= Value(ks[p]);
    }
  }

  /** Visiting the ranks from the highest down, the pair stage lists its pairs in
      descending rank order. */
  lemma {:induction false} PairsDescending(cards: seq<Card>, ks: seq<int>)
    requires SortedDesc(ks, Value)
    ensures forall x :: x in PairsFrom(cards, ks) ==> LeadRank(x) in ks
    ensures SortedDesc(PairsFrom(cards, ks), LeadRank)
    decreases |ks|
  {
    if ks != [] {
      var init, k := ks[..|ks| - 1], ks[|ks| - 1];
      SortedInit(ks);
      PairsDescending(cards, init);
      GroupMembers(cards, RankOf, k);
      ChunksArePairs(Group(cards, RankOf, k), k);
      var a, b := PairsFrom(cards, init), Chunks(Group(cards, RankOf, k));
      assert PairsFrom(cards, ks) == a + b;
      assert forall y :: y in init ==> y in ks;
      forall i, j | 0 <= i < j < |a + b| ensures LeadRank((a + b)[j]) <= LeadRank((a + b)[i]) {
        if j < |a| {
          assert (a + b)[i] == a[i] && (a + b)[j] == a[j];
        } else if i < |a| {
          assert (a + b)[i] == a[i] && a[i] in a && (a + b)[j] == b[j - |a|] && b[j - |a|] in b;
        } else {
          assert (a + b)[i] == b[i - |a|] && b[i - |a|] in b && (a + b)[j] == b[j - |a|] && b[j - |a|] in b;
        }
      }
    }
  }

  /** `Chunks` covers the group but for a last odd card. */
  lemma {:induction false} ChunksFlatten(g: seq<Card>)
    ensures Flatten(Chunks(g)) == g[..|g| - |g| % 2]
    decreases |g|
  {
    if |g| >= 2 {
      ChunksFlatten(g[2..]);
      assert Chunks(g)[0] == g[..2] && Chunks(g)[1..] == Chunks(g[2..]);
      assert g[..2] + g[2..][..|g| - 2 - (|g| - 2) % 2] == g[..|g| - |g| % 2];
    }
  }

  lemma UniformRankCount(g: seq<Card>, k: int, r: int)
    requires forall i :: 0 <= i < |g| ==> g[i].rank == k
    ensures RankCount(g, r) == if r == k then |g| else 0
  {
    RankCountBound(g, r);
  }

  /** The pairs cut from cards of rank k hold all of them but a last odd one. */
  lemma ChunksRankCount(g: seq<Card>, k: int, r: int)
    requires forall i :: 0 <= i < |g| ==> g[i].rank == k
    ensures RankCount(Flatten(Chunks(g)), r) == if r == k then |g| - |g| % 2 else 0
  {
    ChunksFlatten(g);
    UniformRankCount(g[..|g| - |g| % 2], k, r);
  }

  /** A rank's dictionary entry holds all the cards of that rank. */
  lemma {:induction false} GroupSize(cards: seq<Card>, r: int)
    ensures |Group(cards, RankOf, r)| == RankCount(cards, r)
    decreases |cards|
  {
    if cards != [] {
      var init, last := cards[..|cards| - 1], cards[|cards| - 1];
      GroupSize(init, r);
      assert cards == init + [last];
      RankCountAppend(init, [last], r);
    }
  }

  /** The pair stage takes, of each rank it visits, all its cards but a last odd one. */
  lemma {:induction false} PairTakenCount(cards: seq<Card>, ks: seq<int>, r: int)
    requires NoDup(ks)
    ensures RankCount(Flatten(PairsFrom(cards, ks)), r)
            == if r in ks then RankCount(cards, r) - RankCount(cards, r) % 2 else 0
    decreases |ks|
  {
    if ks != [] {
      var init, k := ks[..|ks| - 1], ks[|ks| - 1];
      var g := Group(cards, RankOf, k);
      NoDupInit(ks);
      PairTakenCount(cards, init, r);
      FlattenAppend(PairsFrom(cards, init), Chunks(g));
      RankCountAppend(Flatten(PairsFrom(cards, init)), Flatten(Chunks(g)), r);
      GroupMembers(cards, RankOf, k);
      ChunksRankCount(g, k, r);
      GroupSize(cards, k);
    }
  }

  /** A rank that is not a key has no cards. */
  lemma AbsentRank(cards: seq<Card>, r: int)
    requires r !in Keys(cards, RankOf)
    ensures RankCount(cards, r) == 0
  {
    DistinctKeys(KeyList(cards, RankOf));
    GroupOfAbsentKey(cards, RankOf, r);
    GroupSize(cards, r);
  }

  /** After the pair stage a rank keeps one card when it had an odd number, none otherwise. */
  lemma PairStageLeaves(cards: seq<Card>, r: int)
    ensures RankCount(RemoveAll(cards, Flatten(PairsFound(cards))), r) == RankCount(cards, r) % 2
  {
    var ks := SortDesc(Keys(cards, RankOf), Value);
    var taken := Flatten(PairsFound(cards));
    var left := RemoveAll(cards, taken);
    PairsWithin(cards);
    RemoveAllSpec(cards, taken);
    assert multiset(cards) == multiset(taken + left);
    RankCountPermutation(cards, taken + left, r);
    RankCountAppend(taken, left, r);
    PairKeysNoDup(cards);
    PairTakenCount(cards, ks, r);
    if r !in ks {
      SortedKeepsRanks(Keys(cards, RankOf), r);
      AbsentRank(cards, r);
    }
  }

  lemma SortedKeepsRanks(ks: seq<int>, r: int)
    ensures r in SortDesc(ks, Value) <==> r in ks
  {
    SortDescSpec(ks, Value);
    assert r in SortDesc(ks, Value) <==> r in multiset(SortDesc(ks, Value));
  }

  /** The buckets come out in the source's orders: each sorted bucket descending by its key,
      the pairs by descending rank, the singles by descending rank with at most one card of
      each rank. */
  lemma DecomposeOrdered(hand: seq<Card>, recognised: Verdict)
    ensures var b := Decompose(hand, recognised);
            && SortedDesc(b.dizha, LeadRank) && SortedDesc(b.tongzi, SuitThenRank)
            && SortedDesc(b.bombs, SizeThenRank) && SortedDesc(b.airplaneChains, SizeThenRank)
            && SortedDesc(b.triples, LeadRank) && SortedDesc(b.consecutivePairChains, SizeThenRank)
            && SortedDesc(b.pairs, LeadRank) && SortedDesc(b.singles, RankOf)
    ensures forall r :: RankCount(Decompose(hand, recognised).singles, r) <= 1
  {
    var f1 := KeyedFound(DizhaStage, hand, recognised);
    var r1 := RemoveAll(hand, Flatten(f1));
    var f2 := KeyedFound(TongziStage, r1, recognised);
    var r2 := RemoveAll(r1, Flatten(f2));
    var f3 := KeyedFound(BombStage, r2, recognised);
    var r3 := RemoveAll(r2, Flatten(f3));
    var f4 := Chains(r3, 3, recognised);
    var r4 := RemoveAll(r3, Flatten(f4));
    var f5 := KeyedFound(TripleStage, r4, recognised);
    var r5 := RemoveAll(r4, Flatten(f5));
    var f6 := Chains(r5, 2, recognised);
    var r6 := RemoveAll(r5, Flatten(f6));
    var r7 := RemoveAll(r6, Flatten(PairsFound(r6)));
    SortDescSpec(f1, LeadRank);
    SortDescSpec(f2, SuitThenRank);
    SortDescSpec(f3, SizeThenRank);
    SortDescSpec(f4, SizeThenRank);
    SortDescSpec(f5, LeadRank);
    SortDescSpec(f6, SizeThenRank);
    SortDescSpec(Keys(r6, RankOf), Value);
    PairsDescending(r6, SortDesc(Keys(r6, RankOf), Value));
    SortDescSpec(r7, RankOf);
    forall r ensures RankCount(Decompose(hand, recognised).singles, r) <= 1 {
      PairStageLeaves(r6, r);
      RankCountPermutation(r7, SortDesc(r7, RankOf), r);
    }
  }

  lemma {:induction false} NoRanksInEmpty(lo: int, k: nat)
    requires 3 <= lo && k >= 1
    ensures RanksFrom([], lo, k) == []
    decreases 16 - lo
  {
    if lo <= 15 {
      NoRanksInEmpty(lo + 1, k);
    }
  }

  /** An empty hand decomposes into empty buckets. */
  lemma DecomposeEmpty(recognised: Verdict)
    ensures Decompose([], recognised) == NoBuckets
  {
    NoRanksInEmpty(3, 3);
    NoRanksInEmpty(3, 2);
    assert Keys([], RankOf) == [] && Keys([], CardCode) == [];
    assert KeyedFound(DizhaStage, [], recognised) == [];
    assert KeyedFound(TongziStage, [], recognised) == [];
    assert KeyedFound(BombStage, [], recognised) == [];
    assert KeyedFound(TripleStage, [], recognised) == [];
    assert Chains([], 3, recognised) == [] && Chains([], 2, recognised) == [];
    assert PairsFound([]) == [];
  }

  /** The chain scan, one position further. */
  lemma ChainsFromStep(cards: seq<Card>, k: nat, vr: seq<int>, i: nat, recognised: Verdict)
    requires i < |vr|
    ensures var j := RunEnd(vr, i + 1);
            var chain := Gather(cards, RankOf, k, vr[i..j]);
            ChainsFrom(cards, k, vr, i, recognised)
            == if j - i >= 2 && recognised(chain, ChainType(k)) then [chain] + ChainsFrom(cards, k, vr, j, recognised)
               else ChainsFrom(cards, k, vr, i + 1, recognised)
  {
  }
}

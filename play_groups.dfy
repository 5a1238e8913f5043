/**
 * The generators that work one dictionary entry at a time, shared by the
 * Python and the Rust play generator: pairs, triples and bombs per rank group,
 * tongzi per (suit, rank) group, and dizha per rank group split by suit. Each
 * candidate is kept only when the recognizer gives it the generator's type.
 */
module GroupGenerators {
  import opened Cards
  import opened Tally
  import opened Patterns
  import opened HandAnalysis
  import opened PlayCombinations
  import ComboFinder

  /** Which per-group generator: `_generate_pairs`, `_generate_triples`,
      `_generate_tongzi`, `_generate_bombs`, or `_generate_dizha` with the order
      in which it joins the suits. */
  datatype GroupKind =
    | PairGroups
    | TripleGroups
    | TongziGroups
    | BombGroups
    | DizhaGroups(suitOrder: seq<Suit>)

  /** The dictionary the generator walks: rank groups, or (suit, rank) groups for tongzi. */
  function KindKey(kind: GroupKind): Card -> int {
    if kind.TongziGroups? then CardCode else RankOf
  }

  /** The type the generator keeps. */
  function KindType(kind: GroupKind): PlayType {
    match kind
    case PairGroups => Pair
    case TripleGroups => Triple
    case TongziGroups => Tongzi
    case BombGroups => Bomb
    case DizhaGroups(_) => Dizha
  }

  /** Every suit holds at least two cards of the group. */
  predicate AllSuitsHeld(g: seq<Card>) {
    && |Group(g, ComboFinder.SuitOf, Diamonds)| >= 2
    && |Group(g, ComboFinder.SuitOf, Clubs)| >= 2
    && |Group(g, ComboFinder.SuitOf, Hearts)| >= 2
    && |Group(g, ComboFinder.SuitOf, Spades)| >= 2
  }

  /** The bombs of every size from 4 below hi, smallest first. */
  function BombSizes(g: seq<Card>, hi: nat, recognised: Verdict): seq<seq<Card>>
    decreases hi
  {
    if hi <= 4 then [] else BombSizes(g, hi - 1, recognised) + Keep(Combinations(g, hi - 1), Bomb, recognised)
  }

  /** What the generator keeps of one group. */
  function PerGroup(g: seq<Card>, kind: GroupKind, recognised: Verdict): seq<seq<Card>> {
    match kind
    case PairGroups => if |g| >= 2 then Keep(Combinations(g, 2), Pair, recognised) else []
    case TripleGroups => if |g| >= 3 then Keep(Combinations(g, 3), Triple, recognised) else []
    case TongziGroups => if |g| >= 3 then Keep(Combinations(g, 3), Tongzi, recognised) else []
    case BombGroups => if |g| >= 4 then BombSizes(g, |g| + 1, recognised) else []
    case DizhaGroups(order) =>
      if |g| >= 8 && AllSuitsHeld(g) then Keep([Gather(g, ComboFinder.SuitOf, 2, order)], Dizha, recognised) else []
  }

  /** The plays of the groups of the listed keys, in key order. */
  function GroupPlays(hand: seq<Card>, kind: GroupKind, ks: seq<int>, recognised: Verdict): seq<seq<Card>>
    decreases |ks|
  {
    if ks == [] then []
    else GroupPlays(hand, kind, ks[..|ks| - 1], recognised) + PerGroup(Group(hand, KindKey(kind), ks[|ks| - 1]), kind, recognised)
  }

  /** What a generator returns: the plays of every group, in dictionary order. */
  function Generated(hand: seq<Card>, kind: GroupKind, recognised: Verdict): seq<seq<Card>> {
    GroupPlays(hand, kind, Keys(hand, KindKey(kind)), recognised)
  }

  // ---------------------------------------------------------------------------
  // What each generator yields

  /** The smallest number of cards a play of the kind has. */
  function MinSize(kind: GroupKind): nat {
    match kind
    case PairGroups => 2
    case TripleGroups => 3
    case TongziGroups => 3
    case BombGroups => 4
    case DizhaGroups(_) => 8
  }

  /** p is a play the generator yields from group g: an in-order pick of g of the
      kind's size (any size from 4 for bombs; two cards of each suit in the
      generator's suit order for dizha) that the recognizer gives the kind's type. */
  predicate GeneratedFrom(p: seq<Card>, g: seq<Card>, kind: GroupKind, recognised: Verdict) {
    && recognised(p, KindType(kind))
    && (match kind
        case BombGroups => |p| >= 4 && IsSubseq(p, g)
        case DizhaGroups(order) => |g| >= 8 && AllSuitsHeld(g) && p == Gather(g, ComboFinder.SuitOf, 2, order)
        case _ => |p| == MinSize(kind) && IsSubseq(p, g))
  }

  lemma {:induction false} BombSizesMembers(g: seq<Card>, hi: nat, recognised: Verdict, p: seq<Card>)
    ensures p in BombSizes(g, hi, recognised) <==> 4 <= |p| < hi && IsSubseq(p, g) && recognised(p, Bomb)
    decreases hi
  {
    if hi > 4 {
      var before, top := BombSizes(g, hi - 1, recognised), Keep(Combinations(g, hi - 1), Bomb, recognised);
      assert BombSizes(g, hi, recognised) == before + top;
      BombSizesMembers(g, hi - 1, recognised, p);
      KeepMembers(Combinations(g, hi - 1), Bomb, recognised);
      if p in Combinations(g, hi - 1) {
        CombinationIsSubseq(g, hi - 1, p);
      }
      if |p| == hi - 1 && IsSubseq(p, g) {
        SubseqIsCombination(g, hi - 1, p);
      }
    }
  }

  /** The plays kept of one group are exactly the ones it yields. */
  lemma PerGroupMembers(g: seq<Card>, kind: GroupKind, recognised: Verdict, p: seq<Card>)
    ensures p in PerGroup(g, kind, recognised) <==> GeneratedFrom(p, g, kind, recognised)
  {
    match kind
    case DizhaGroups(order) =>
      KeepMembers([Gather(g, ComboFinder.SuitOf, 2, order)], Dizha, recognised);
    case BombGroups =>
      BombSizesMembers(g, |g| + 1, recognised, p);
      if IsSubseq(p, g) {
        SubseqLength(p, g);
      }
    case _ =>
      var n := MinSize(kind);
      KeepMembers(Combinations(g, n), KindType(kind), recognised);
      if p in Combinations(g, n) {
        CombinationIsSubseq(g, n, p);
      }
      if |p| == n && IsSubseq(p, g) {
        SubseqLength(p, g);
        SubseqIsCombination(g, n, p);
      }
  }

  /** A play is listed for some key exactly when one of the keys' groups yields it. */
  lemma {:induction false} GroupPlaysMembers(hand: seq<Card>, kind: GroupKind, ks: seq<int>, recognised: Verdict, p: seq<Card>)
    ensures p in GroupPlays(hand, kind, ks, recognised) <==>
              exists k :: k in ks && GeneratedFrom(p, Group(hand, KindKey(kind), k), kind, recognised)
    decreases |ks|
  {
    if ks != [] {
      var init, last := ks[..|ks| - 1], ks[|ks| - 1];
      GroupPlaysMembers(hand, kind, init, recognised, p);
      PerGroupMembers(Group(hand, KindKey(kind), last), kind, recognised, p);
      assert ks == init + [last];
      if p in GroupPlays(hand, kind, ks, recognised) {
        if p !in GroupPlays(hand, kind, init, recognised) {
          assert last in ks && GeneratedFrom(p, Group(hand, KindKey(kind), last), kind, recognised);
        }
      }
      if exists k :: k in ks && GeneratedFrom(p, Group(hand, KindKey(kind), k), kind, recognised) {
        var k :| k in ks && GeneratedFrom(p, Group(hand, KindKey(kind), k), kind, recognised);
        if k != last {
          assert k in init;
        }
      }
    }
  }

  /** A play a group yields is drawn from that group. */
  lemma GeneratedFromWithin(p: seq<Card>, g: seq<Card>, kind: GroupKind, recognised: Verdict)
    requires GeneratedFrom(p, g, kind, recognised)
    requires kind.DizhaGroups? ==> NoDup(kind.suitOrder)
    ensures multiset(p) <= multiset(g)
  {
    match kind
    case DizhaGroups(order) =>
      GatherBound(g, ComboFinder.SuitOf, 2, order);
    case _ =>
      SubseqWithin(p, g);
  }

  /** Every play a generator returns is of its type and drawn from the hand. */
  lemma GeneratedSound(hand: seq<Card>, kind: GroupKind, recognised: Verdict, p: seq<Card>)
    requires p in Generated(hand, kind, recognised)
    requires kind.DizhaGroups? ==> NoDup(kind.suitOrder)
    ensures recognised(p, KindType(kind))
    ensures multiset(p) <= multiset(hand)
  {
    GroupPlaysMembers(hand, kind, Keys(hand, KindKey(kind)), recognised, p);
    var k :| k in Keys(hand, KindKey(kind)) && GeneratedFrom(p, Group(hand, KindKey(kind), k), kind, recognised);
    GeneratedFromWithin(p, Group(hand, KindKey(kind), k), kind, recognised);
    GroupMultiset(hand, KindKey(kind), k);
  }

  /** Every in-order pick of a group's cards of the kind's size that the recognizer
      accepts is generated. */
  lemma GeneratedComplete(hand: seq<Card>, kind: GroupKind, recognised: Verdict, k: int, p: seq<Card>)
    requires GeneratedFrom(p, Group(hand, KindKey(kind), k), kind, recognised)
    ensures p in Generated(hand, kind, recognised)
  {
    var g := Group(hand, KindKey(kind), k);
    if k !in KeyList(hand, KindKey(kind)) {
      GroupOfAbsentKey(hand, KindKey(kind), k);
      assert !kind.DizhaGroups?;
      SubseqLength(p, g);
      assert false;
    }
    DistinctKeys(KeyList(hand, KindKey(kind)));
    GroupPlaysMembers(hand, kind, Keys(hand, KindKey(kind)), recognised, p);
  }

  // ---------------------------------------------------------------------------
  // The loops

  /** The size loop of `_generate_bombs`: sizes 4 to |g|, every combination of each. */
  method BombsOfGroup(g: seq<Card>, recognised: Verdict) returns (bombs: seq<seq<Card>>)
    requires |g| >= 4
    ensures bombs == BombSizes(g, |g| + 1, recognised)
  {
    bombs := [];
    for size := 4 to |g| + 1
      invariant bombs == BombSizes(g, size, recognised)
    {
      var kept := KeepOfType(Combinations(g, size), Bomb, recognised);
      bombs := bombs + kept;
    }
  }

  /** `_generate_dizha` for one rank group: group it by suit, and when every suit
      holds two cards join the first two of each suit in the given order. */
  method DizhaOfGroup(g: seq<Card>, order: seq<Suit>, recognised: Verdict) returns (dizha: seq<seq<Card>>)
    requires |g| >= 8
    ensures dizha == PerGroup(g, DizhaGroups(order), recognised)
  {
    var suitKeys, suitGroups := GroupBy(g, ComboFinder.SuitOf);
    dizha := [];
    if |Lookup(suitGroups, Diamonds)| >= 2 && |Lookup(suitGroups, Clubs)| >= 2
       && |Lookup(suitGroups, Hearts)| >= 2 && |Lookup(suitGroups, Spades)| >= 2
    {
      var dizhaCards := [];
      for i := 0 to |order|
        invariant dizhaCards == Gather(g, ComboFinder.SuitOf, 2, order[..i])
      {
        assert order[..i + 1][..i] == order[..i];
        dizhaCards := dizhaCards + Take(Lookup(suitGroups, order[i]), 2);
      }
      assert order[..|order|] == order;
      dizha := KeepOfType([dizhaCards], Dizha, recognised);
    }
  }

  /** The plays of one group, as the generator's inner loops produce them. */
  method PerGroupPlays(g: seq<Card>, kind: GroupKind, recognised: Verdict) returns (plays: seq<seq<Card>>)
    ensures plays == PerGroup(g, kind, recognised)
  {
    plays := [];
    match kind
    case PairGroups =>
      if |g| >= 2 {
        plays := KeepOfType(Combinations(g, 2), Pair, recognised);
      }
    case TripleGroups =>
      if |g| >= 3 {
        plays := KeepOfType(Combinations(g, 3), Triple, recognised);
      }
    case TongziGroups =>
      if |g| >= 3 {
        plays := KeepOfType(Combinations(g, 3), Tongzi, recognised);
      }
    case BombGroups =>
      if |g| >= 4 {
        plays := BombsOfGroup(g, recognised);
      }
    case DizhaGroups(order) =>
      if |g| >= 8 {
        plays := DizhaOfGroup(g, order, recognised);
      }
  }

  lemma GroupPlaysSnoc(hand: seq<Card>, kind: GroupKind, ks: seq<int>, i: nat, recognised: Verdict)
    requires i < |ks|
    ensures GroupPlays(hand, kind, ks[..i + 1], recognised)
            == GroupPlays(hand, kind, ks[..i], recognised) + PerGroup(Group(hand, KindKey(kind), ks[i]), kind, recognised)
  {
    assert ks[..i + 1][..i] == ks[..i];
  }

  /** The outer loop of every per-group generator: build the dictionary, then
      walk its entries in insertion order. */
  method GenerateFromGroups(hand: seq<Card>, kind: GroupKind, recognised: Verdict) returns (plays: seq<seq<Card>>)
    ensures plays == Generated(hand, kind, recognised)
  {
    var keys, groups := GroupBy(hand, KindKey(kind));
    plays := [];
    for i := 0 to |keys|
      invariant plays == GroupPlays(hand, kind, keys[..i], recognised)
    {
      var found := PerGroupPlays(Lookup(groups, keys[i]), kind, recognised);
      GroupPlaysSnoc(hand, kind, keys, i, recognised);
      plays := plays + found;
    }
    assert keys[..|keys|] == keys;
  }

  /** `_generate_pairs`. */
  method GeneratePairs(hand: seq<Card>, recognised: Verdict) returns (pairs: seq<seq<Card>>)
    ensures pairs == Generated(hand, PairGroups, recognised)
  {
    pairs := GenerateFromGroups(hand, PairGroups, recognised);
  }

  /** `_generate_triples`. */
  method GenerateTriples(hand: seq<Card>, recognised: Verdict) returns (triples: seq<seq<Card>>)
    ensures triples == Generated(hand, TripleGroups, recognised)
  {
    triples := GenerateFromGroups(hand, TripleGroups, recognised);
  }

  /** `_generate_tongzi`. */
  method GenerateTongzi(hand: seq<Card>, recognised: Verdict) returns (tongzi: seq<seq<Card>>)
    ensures tongzi == Generated(hand, TongziGroups, recognised)
  {
    tongzi := GenerateFromGroups(hand, TongziGroups, recognised);
  }

  /** `_generate_bombs`. */
  method GenerateBombs(hand: seq<Card>, recognised: Verdict) returns (bombs: seq<seq<Card>>)
    ensures bombs == Generated(hand, BombGroups, recognised)
  {
    bombs := GenerateFromGroups(hand, BombGroups, recognised);
  }

  /** `_generate_dizha`, joining the suits in the given order. */
  method GenerateDizha(hand: seq<Card>, order: seq<Suit>, recognised: Verdict) returns (dizha: seq<seq<Card>>)
    ensures dizha == Generated(hand, DizhaGroups(order), recognised)
  {
    dizha := GenerateFromGroups(hand, DizhaGroups(order), recognised);
  }
}

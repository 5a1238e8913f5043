/**
 * The correction attempts of `PatternSuggester`: capping repeated cards at
 * three copies, undoing a rank or suit confusion, and the minimal edits
 * (drop one card, change one card's rank, change one card's suit). Each
 * attempt either proposes cards with a confidence, in tenths (0.8 is 8), or
 * proposes nothing. Every attempt is a method with the source's loops,
 * proved equal to a function, and the function's lemmas say what a proposal
 * is and when there is none.
 *
 * The functions take the recogniser as a parameter `valid`, which stands for
 * `analyze_cards(cards) is not None`; the methods call the recogniser itself,
 * and the lemmas hold whatever the recogniser accepts.
 */
module SuggesterFixes {
  import opened Wrappers
  import opened Cards
  import opened Tally
  import opened Recognizer

  /** A proposal: the corrected cards and the confidence in tenths. */
  datatype Attempt = Attempt(cards: seq<Card>, confidence: nat)

  // ---------------------------------------------------------------------------
  // _try_remove_duplicates

  function Cap3(n: nat): nat { if n <= 3 then n else 3 }

  function Repeat(c: Card, n: nat): seq<Card> { seq(n, _ => c) }

  /** Each listed card as often as the cards hold it, but at most three times. */
  function CapFrom(cards: seq<Card>, ks: seq<Card>): seq<Card>
    decreases |ks|
  {
    if ks == [] then []
    else
      var k := ks[|ks| - 1];
      CapFrom(cards, ks[..|ks| - 1]) + Repeat(k, Cap3(Count(cards, k)))
  }

  /** The distinct cards, in order of first appearance, each at most three times. */
  function Capped(cards: seq<Card>): seq<Card> {
    CapFrom(cards, Distinct(cards))
  }

  /** Some card occurs more than three times. */
  predicate HasExcess(cards: seq<Card>) {
    exists c :: c in cards && Count(cards, c) > 3
  }

  /** No proposal unless some card occurs more than three times; otherwise the
      capped cards, with 0.8 when they form a play and 0.4 when they do not. */
  function RemoveDuplicatesFix(valid: seq<Card> -> bool, cards: seq<Card>): Option<Attempt> {
    if !HasExcess(cards) then None
    else
      var capped := Capped(cards);
      Some(Attempt(capped, if valid(capped) then 8 else 4))
  }

  lemma {:induction false} RepeatCount(c: Card, n: nat)
    ensures forall d :: multiset(Repeat(c, n))[d] == if d == c then n else 0
  {
    if n > 0 {
      RepeatCount(c, n - 1);
      assert Repeat(c, n) == Repeat(c, n - 1) + [c];
    }
  }

  lemma {:induction false} CapFromCounts(cards: seq<Card>, ks: seq<Card>)
    requires forall i, j :: 0 <= i < j < |ks| ==> ks[i] != ks[j]
    ensures forall c :: multiset(CapFrom(cards, ks))[c] == if c in ks then Cap3(Count(cards, c)) else 0
    decreases |ks|
  {
    if ks != [] {
      var init, k := ks[..|ks| - 1], ks[|ks| - 1];
      CapFromCounts(cards, init);
      RepeatCount(k, Cap3(Count(cards, k)));
      assert ks == init + [k];
      assert k !in init by {
        forall i | 0 <= i < |init| ensures init[i] != k {
          assert init[i] == ks[i];
        }
      }
    }
  }

  /** The capped cards hold every card as often as the input, but at most three times. */
  lemma CappedCounts(cards: seq<Card>)
    ensures forall c :: multiset(Capped(cards))[c] == Cap3(multiset(cards)[c])
  {
    DistinctKeys(cards);
    CapFromCounts(cards, Distinct(cards));
    forall c ensures multiset(Capped(cards))[c] == Cap3(multiset(cards)[c]) {
      CountIsMultiplicity(cards, c);
    }
  }

  /** A proposal exactly when some card occurs more than three times; the proposal
      caps every card at three copies, is never empty, and is rated 0.8 exactly
      when it forms a play and 0.4 otherwise. */
  lemma RemoveDuplicatesSound(valid: seq<Card> -> bool, cards: seq<Card>)
    ensures RemoveDuplicatesFix(valid, cards).None? <==> forall c :: multiset(cards)[c] <= 3
    ensures RemoveDuplicatesFix(valid, cards).Some? ==>
              && (forall c :: multiset(RemoveDuplicatesFix(valid, cards).value.cards)[c] == Cap3(multiset(cards)[c]))
              && RemoveDuplicatesFix(valid, cards).value.cards != []
              && (RemoveDuplicatesFix(valid, cards).value.confidence == 8 <==> valid(RemoveDuplicatesFix(valid, cards).value.cards))
              && (RemoveDuplicatesFix(valid, cards).value.confidence == 8 || RemoveDuplicatesFix(valid, cards).value.confidence == 4)
  {
    CappedCounts(cards);
    if HasExcess(cards) {
      var c :| c in cards && Count(cards, c) > 3;
      CountIsMultiplicity(cards, c);
      assert multiset(Capped(cards))[c] == 3;
    } else {
      forall c ensures multiset(cards)[c] <= 3 {
        CountIsMultiplicity(cards, c);
        CountPositive(cards, c);
      }
    }
  }

  /** `Counter(cards)` looked up over its keys: some key counts more than three
      exactly when some card does. */
  lemma ExcessOverKeys(cards: seq<Card>)
    ensures HasExcess(cards) <==> exists j :: 0 <= j < |Distinct(cards)| && Count(cards, Distinct(cards)[j]) > 3
  {
    DistinctKeys(cards);
    if HasExcess(cards) {
      var c :| c in cards && Count(cards, c) > 3;
      assert c in Distinct(cards);
    }
  }

  method TryRemoveDuplicates(cards: seq<Card>) returns (r: Option<Attempt>)
    ensures r == RemoveDuplicatesFix(IsValidPlay, cards)
  {
    var keys := Distinct(cards);
    var excess := false;
    for i := 0 to |keys|
      invariant excess <==> exists j :: 0 <= j < i && Count(cards, keys[j]) > 3
    {
      if Count(cards, keys[i]) > 3 {
        excess := true;
      }
    }
    ExcessOverKeys(cards);
    if !excess {
      return None;
    }
    var corrected := [];
    for i := 0 to |keys|
      invariant corrected == CapFrom(cards, keys[..i])
    {
      assert keys[..i + 1][..i] == keys[..i];
      corrected := corrected + Repeat(keys[i], Cap3(Count(cards, keys[i])));
    }
    assert keys[..|keys|] == keys;
    if IsValidPlay(corrected) {
      return Some(Attempt(corrected, 8));
    }
    return Some(Attempt(corrected, 4));
  }

  // ---------------------------------------------------------------------------
  // _try_fix_rank_confusion and _try_fix_suit_confusion

  /** Two ranks or two suits a camera may mistake for each other. */
  datatype Confusion = RankConfusion(a: Rank, b: Rank) | SuitConfusion(x: Suit, y: Suit)

  /** Six/Nine, Queen/Nine, Five/Six, Ten/Jack, King/Ace, tried in this order. */
  const RankConfusions: seq<Confusion> :=
    [RankConfusion(6, 9), RankConfusion(12, 9), RankConfusion(5, 6), RankConfusion(10, 11), RankConfusion(13, 14)]

  /** Hearts/Diamonds, then Spades/Clubs. */
  const SuitConfusions: seq<Confusion> := [SuitConfusion(Hearts, Diamonds), SuitConfusion(Spades, Clubs)]

  /** The card with the first label of the confusion replaced by the second
      (forward) or the second by the first (backward). */
  function Relabel(c: Card, k: Confusion, forward: bool): Card {
    match k
    case RankConfusion(a, b) =>
      var from, to := if forward then a else b, if forward then b else a;
      if c.rank == from then Card(c.suit, to) else c
    case SuitConfusion(x, y) =>
      var from, to := if forward then x else y, if forward then y else x;
      if c.suit == from then Card(to, c.rank) else c
  }

  function Relabelled(cards: seq<Card>, k: Confusion, forward: bool): seq<Card> {
    seq(|cards|, i requires 0 <= i < |cards| => Relabel(cards[i], k, forward))
  }

  /** The first relabelling that forms a play, trying each confusion from i
      forward and then backward. */
  function FirstFix(valid: seq<Card> -> bool, cards: seq<Card>, ks: seq<Confusion>, i: nat, confidence: nat): Option<Attempt>
    decreases |ks| - i
  {
    if i >= |ks| then None
    else if valid(Relabelled(cards, ks[i], true)) then Some(Attempt(Relabelled(cards, ks[i], true), confidence))
    else if valid(Relabelled(cards, ks[i], false)) then Some(Attempt(Relabelled(cards, ks[i], false), confidence))
    else FirstFix(valid, cards, ks, i + 1, confidence)
  }

  /** The loop of `_try_fix_rank_confusion` (confusions RankConfusions,
      confidence 0.7) and of `_try_fix_suit_confusion` (SuitConfusions, 0.6). */
  method TryConfusions(cards: seq<Card>, ks: seq<Confusion>, confidence: nat) returns (r: Option<Attempt>)
    ensures r == FirstFix(IsValidPlay, cards, ks, 0, confidence)
  {
    for i := 0 to |ks|
      invariant FirstFix(IsValidPlay, cards, ks, 0, confidence) == FirstFix(IsValidPlay, cards, ks, i, confidence)
    {
      var corrected := Relabelled(cards, ks[i], true);
      if IsValidPlay(corrected) {
        return Some(Attempt(corrected, confidence));
      }
      corrected := Relabelled(cards, ks[i], false);
      if IsValidPlay(corrected) {
        return Some(Attempt(corrected, confidence));
      }
    }
    return None;
  }

  /** A proposal is a relabelling by one of the confusions that forms a play, as
      long as the input, at the given confidence; there is none exactly when no
      relabelling by a confusion from i on forms a play. */
  lemma {:induction false} FirstFixSound(valid: seq<Card> -> bool, cards: seq<Card>, ks: seq<Confusion>, i: nat, confidence: nat)
    ensures FirstFix(valid, cards, ks, i, confidence).Some? ==>
              && FirstFix(valid, cards, ks, i, confidence).value.confidence == confidence
              && valid(FirstFix(valid, cards, ks, i, confidence).value.cards)
              && |FirstFix(valid, cards, ks, i, confidence).value.cards| == |cards|
              && exists j, forward :: i <= j < |ks| && FirstFix(valid, cards, ks, i, confidence).value.cards == Relabelled(cards, ks[j], forward)
    ensures FirstFix(valid, cards, ks, i, confidence).None? <==>
              forall j, forward :: i <= j < |ks| ==> !valid(Relabelled(cards, ks[j], forward))
    decreases |ks| - i
  {
    if i < |ks| {
      FirstFixSound(valid, cards, ks, i + 1, confidence);
      if FirstFix(valid, cards, ks, i, confidence).None? {
        forall j, forward | i <= j < |ks| ensures !valid(Relabelled(cards, ks[j], forward)) {
          if j == i && forward == false {
            assert !valid(Relabelled(cards, ks[i], false));
          }
        }
      }
    }
  }

  // ---------------------------------------------------------------------------
  // _try_minimal_edits

  /** The cards without position i. */
  function Without(cards: seq<Card>, i: nat): seq<Card>
    requires i < |cards|
  {
    cards[..i] + cards[i + 1..]
  }

  /** The cards with position i given rank r. */
  function RankEdit(cards: seq<Card>, i: nat, r: Rank): seq<Card>
    requires i < |cards|
  {
    cards[i := Card(cards[i].suit, r)]
  }

  /** The cards with position i given suit s. */
  function SuitEdit(cards: seq<Card>, i: nat, s: Suit): seq<Card>
    requires i < |cards|
  {
    cards[i := Card(s, cards[i].rank)]
  }

  /** The first removal of one card, from position i on, that forms a play (0.5). */
  function FirstRemoval(valid: seq<Card> -> bool, cards: seq<Card>, i: nat): Option<Attempt>
    decreases |cards| - i
  {
    if i >= |cards| then None
    else if valid(Without(cards, i)) then Some(Attempt(Without(cards, i), 5))
    else FirstRemoval(valid, cards, i + 1)
  }

  /** (j, q) comes at or after (i, p) in the order positions first, then values. */
  predicate AtOrAfter(i: int, p: int, j: int, q: int) {
    i < j || (i == j && p <= q)
  }

  /** The first change of one card's rank, positions from i and the Python ranks
      Five .. Two from r, that forms a play (0.4). */
  function FirstRankEdit(valid: seq<Card> -> bool, cards: seq<Card>, i: nat, r: int): Option<Attempt>
    requires 5 <= r <= 16
    decreases |cards| - i, 16 - r
  {
    if i >= |cards| then None
    else if r == 16 then FirstRankEdit(valid, cards, i + 1, 5)
    else if valid(RankEdit(cards, i, r)) then Some(Attempt(RankEdit(cards, i, r), 4))
    else FirstRankEdit(valid, cards, i, r + 1)
  }

  /** The first change of one card's suit, positions from i and suits from s,
      that forms a play (0.4). */
  function FirstSuitEdit(valid: seq<Card> -> bool, cards: seq<Card>, i: nat, s: int): Option<Attempt>
    requires 1 <= s <= 5
    decreases |cards| - i, 5 - s
  {
    if i >= |cards| then None
    else if s == 5 then FirstSuitEdit(valid, cards, i + 1, 1)
    else if valid(SuitEdit(cards, i, s)) then Some(Attempt(SuitEdit(cards, i, s), 4))
    else FirstSuitEdit(valid, cards, i, s + 1)
  }

  /** Removals first, then rank changes, then suit changes. */
  function MinimalEditFix(valid: seq<Card> -> bool, cards: seq<Card>): Option<Attempt> {
    var removal := FirstRemoval(valid, cards, 0);
    if removal.Some? then removal
    else
      var rankEdit := FirstRankEdit(valid, cards, 0, 5);
      if rankEdit.Some? then rankEdit else FirstSuitEdit(valid, cards, 0, 1)
  }

  method TryMinimalEdits(cards: seq<Card>) returns (r: Option<Attempt>)
    ensures r == MinimalEditFix(IsValidPlay, cards)
  {
    r := TryRemovals(cards);
    if r.Some? {
      return;
    }
    r := TryRankEdits(cards);
    if r.Some? {
      return;
    }
    r := TrySuitEdits(cards);
  }

  /** The first loop of `_try_minimal_edits`: drop one card. */
  method TryRemovals(cards: seq<Card>) returns (r: Option<Attempt>)
    ensures r == FirstRemoval(IsValidPlay, cards, 0)
  {
    for i := 0 to |cards|
      invariant FirstRemoval(IsValidPlay, cards, 0) == FirstRemoval(IsValidPlay, cards, i)
    {
      var subset := cards[..i] + cards[i + 1..];
      if IsValidPlay(subset) {
        return Some(Attempt(subset, 5));
      }
    }
    return None;
  }

  /** The second loop: give one card another rank, Five .. Two. */
  method TryRankEdits(cards: seq<Card>) returns (r: Option<Attempt>)
    ensures r == FirstRankEdit(IsValidPlay, cards, 0, 5)
  {
    for i := 0 to |cards|
      invariant FirstRankEdit(IsValidPlay, cards, 0, 5) == FirstRankEdit(IsValidPlay, cards, i, 5)
    {
      r := TryRanksAt(cards, i);
      if r.Some? {
        return;
      }
    }
    return None;
  }

  /** Its inner loop over the ranks for position i. */
  method TryRanksAt(cards: seq<Card>, i: nat) returns (r: Option<Attempt>)
    requires i < |cards|
    ensures r.Some? ==> r == FirstRankEdit(IsValidPlay, cards, i, 5)
    ensures r.None? ==> FirstRankEdit(IsValidPlay, cards, i, 5) == FirstRankEdit(IsValidPlay, cards, i + 1, 5)
  {
    for newRank := 5 to 16
      invariant FirstRankEdit(IsValidPlay, cards, i, 5) == FirstRankEdit(IsValidPlay, cards, i, newRank)
    {
      var corrected := cards[i := Card(cards[i].suit, newRank)];
      if IsValidPlay(corrected) {
        return Some(Attempt(corrected, 4));
      }
    }
    return None;
  }

  /** The third loop: give one card another suit. */
  method TrySuitEdits(cards: seq<Card>) returns (r: Option<Attempt>)
    ensures r == FirstSuitEdit(IsValidPlay, cards, 0, 1)
  {
    for i := 0 to |cards|
      invariant FirstSuitEdit(IsValidPlay, cards, 0, 1) == FirstSuitEdit(IsValidPlay, cards, i, 1)
    {
      r := TrySuitsAt(cards, i);
      if r.Some? {
        return;
      }
    }
    return None;
  }

  /** Its inner loop over the suits for position i. */
  method TrySuitsAt(cards: seq<Card>, i: nat) returns (r: Option<Attempt>)
    requires i < |cards|
    ensures r.Some? ==> r == FirstSuitEdit(IsValidPlay, cards, i, 1)
    ensures r.None? ==> FirstSuitEdit(IsValidPlay, cards, i, 1) == FirstSuitEdit(IsValidPlay, cards, i + 1, 1)
  {
    for newSuit := 1 to 5
      invariant FirstSuitEdit(IsValidPlay, cards, i, 1) == FirstSuitEdit(IsValidPlay, cards, i, newSuit)
    {
      var corrected := cards[i := Card(newSuit, cards[i].rank)];
      if IsValidPlay(corrected) {
        return Some(Attempt(corrected, 4));
      }
    }
    return None;
  }

  lemma {:induction false} FirstRemovalSound(valid: seq<Card> -> bool, cards: seq<Card>, i: nat)
    ensures FirstRemoval(valid, cards, i).Some? ==>
              && FirstRemoval(valid, cards, i).value.confidence == 5
              && valid(FirstRemoval(valid, cards, i).value.cards)
              && exists j :: i <= j < |cards| && FirstRemoval(valid, cards, i).value.cards == Without(cards, j)
    ensures FirstRemoval(valid, cards, i).None? <==> forall j :: i <= j < |cards| ==> !valid(Without(cards, j))
    decreases |cards| - i
  {
    if i < |cards| {
      FirstRemovalSound(valid, cards, i + 1);
    }
  }

  lemma {:induction false} FirstRankEditSound(valid: seq<Card> -> bool, cards: seq<Card>, i: nat, r: int)
    requires 5 <= r <= 16
    ensures FirstRankEdit(valid, cards, i, r).Some? ==>
              && FirstRankEdit(valid, cards, i, r).value.confidence == 4
              && valid(FirstRankEdit(valid, cards, i, r).value.cards)
              && exists j, q: Rank :: i <= j < |cards| && 5 <= q && FirstRankEdit(valid, cards, i, r).value.cards == RankEdit(cards, j, q)
    ensures FirstRankEdit(valid, cards, i, r).None? <==>
              forall j, q: Rank :: j < |cards| && 5 <= q && AtOrAfter(i, r, j, q) ==> !valid(RankEdit(cards, j, q))
    decreases |cards| - i, 16 - r
  {
    if i < |cards| {
      if r == 16 {
        FirstRankEditSound(valid, cards, i + 1, 5);
      } else {
        FirstRankEditSound(valid, cards, i, r + 1);
      }
    }
  }

  lemma {:induction false} FirstSuitEditSound(valid: seq<Card> -> bool, cards: seq<Card>, i: nat, s: int)
    requires 1 <= s <= 5
    ensures FirstSuitEdit(valid, cards, i, s).Some? ==>
              && FirstSuitEdit(valid, cards, i, s).value.confidence == 4
              && valid(FirstSuitEdit(valid, cards, i, s).value.cards)
              && exists j, t: Suit :: i <= j < |cards| && FirstSuitEdit(valid, cards, i, s).value.cards == SuitEdit(cards, j, t)
    ensures FirstSuitEdit(valid, cards, i, s).None? <==>
              forall j, t: Suit :: j < |cards| && AtOrAfter(i, s, j, t) ==> !valid(SuitEdit(cards, j, t))
    decreases |cards| - i, 5 - s
  {
    if i < |cards| {
      if s == 5 {
        FirstSuitEditSound(valid, cards, i + 1, 1);
      } else {
        FirstSuitEditSound(valid, cards, i, s + 1);
      }
    }
  }

  /** A minimal edit forms a play: one card dropped (0.5), or one card's rank
      changed to a Python rank or its suit changed (0.4). There is none exactly
      when no such edit forms a play; then, since giving a card its own suit is
      such an edit, the input itself is no play either. */
  lemma MinimalEditSound(valid: seq<Card> -> bool, cards: seq<Card>)
    ensures MinimalEditFix(valid, cards).Some? ==>
              && valid(MinimalEditFix(valid, cards).value.cards)
              && ((MinimalEditFix(valid, cards).value.confidence == 5
                   && exists i :: 0 <= i < |cards| && MinimalEditFix(valid, cards).value.cards == Without(cards, i))
                  || (MinimalEditFix(valid, cards).value.confidence == 4
                      && exists i, q: Rank :: 0 <= i < |cards| && 5 <= q && MinimalEditFix(valid, cards).value.cards == RankEdit(cards, i, q))
                  || (MinimalEditFix(valid, cards).value.confidence == 4
                      && exists i, t: Suit :: 0 <= i < |cards| && MinimalEditFix(valid, cards).value.cards == SuitEdit(cards, i, t)))
    ensures MinimalEditFix(valid, cards).None? <==>
              && (forall i :: 0 <= i < |cards| ==> !valid(Without(cards, i)))
              && (forall i, q: Rank :: 0 <= i < |cards| && 5 <= q ==> !valid(RankEdit(cards, i, q)))
              && (forall i, t: Suit :: 0 <= i < |cards| ==> !valid(SuitEdit(cards, i, t)))
    ensures MinimalEditFix(valid, cards).None? && cards != [] ==> !valid(cards)
  {
    FirstRemovalSound(valid, cards, 0);
    FirstRankEditSound(valid, cards, 0, 5);
    FirstSuitEditSound(valid, cards, 0, 1);
    if MinimalEditFix(valid, cards).None? && cards != [] {
      assert SuitEdit(cards, 0, cards[0].suit) == cards;
    }
  }
}

/**
 * `PatternSuggester`, the helper for card lists read by a camera:
 * `suggest_correction` collects the proposals of the four correction attempts,
 * keeps those of the expected size and (on request) those that form a play, and
 * returns the one rated highest; `validate_hand` lists what makes a hand
 * impossible for a deck; `suggest_pattern_type` guesses the play type from the
 * rank tallies.
 *
 * Confidences are in tenths: 1.0 is 10, 0.8 is 8, and so on. As in the
 * attempts, the functions take the recogniser as the parameter `valid`; the
 * methods call `IsValidPlay` itself.
 */
module PatternSuggester {
  import opened Wrappers
  import opened Cards
  import opened Tally
  import opened RankTallies
  import opened Patterns
  import opened Recognizer
  import opened RecognizerProperties
  import opened SuggesterFixes

  // ---------------------------------------------------------------------------
  // suggest_correction

  /** The four correction attempts, in the order they are tried. */
  datatype Fix = RemoveDuplicates | FixRank | FixSuit | MinimalEdit

  function FixIndex(f: Fix): nat {
    match f
    case RemoveDuplicates => 0
    case FixRank => 1
    case FixSuit => 2
    case MinimalEdit => 3
  }

  /** One entry of the `corrections` list: the cards, their confidence and the
      attempt that proposed them. */
  datatype Correction = Correction(cards: seq<Card>, confidence: nat, fix: Fix)

  /** What an attempt proposes: duplicates capped (0.8 or 0.4), a rank confusion
      undone (0.7), a suit confusion undone (0.6), a minimal edit (0.5 or 0.4). */
  function Proposal(valid: seq<Card> -> bool, detected: seq<Card>, fix: Fix): Option<Attempt> {
    match fix
    case RemoveDuplicates => RemoveDuplicatesFix(valid, detected)
    case FixRank => FirstFix(valid, detected, RankConfusions, 0, 7)
    case FixSuit => FirstFix(valid, detected, SuitConfusions, 0, 6)
    case MinimalEdit => MinimalEditFix(valid, detected)
  }

  /** The entry an attempt appends: none when it proposes nothing or no cards. */
  function Tagged(a: Option<Attempt>, fix: Fix): seq<Correction> {
    if a.Some? && a.value.cards != [] then [Correction(a.value.cards, a.value.confidence, fix)] else []
  }

  /** The list of corrections before filtering, in the order of the attempts. */
  function Candidates(valid: seq<Card> -> bool, detected: seq<Card>): seq<Correction> {
    Collected(Proposal(valid, detected, RemoveDuplicates), Proposal(valid, detected, FixRank),
              Proposal(valid, detected, FixSuit), Proposal(valid, detected, MinimalEdit))
  }

  /** The entries appended for the four proposals. */
  function Collected(duplicates: Option<Attempt>, rank: Option<Attempt>, suit: Option<Attempt>, edit: Option<Attempt>): seq<Correction> {
    Tagged(duplicates, RemoveDuplicates) + Tagged(rank, FixRank) + Tagged(suit, FixSuit) + Tagged(edit, MinimalEdit)
  }

  predicate FixesIncreasing(cs: seq<Correction>) {
    forall i, j :: 0 <= i < j < |cs| ==> FixIndex(cs[i].fix) < FixIndex(cs[j].fix)
  }

  /** Every attempt appends at most one entry, so the list follows the attempts'
      order. */
  lemma CandidatesOrdered(valid: seq<Card> -> bool, detected: seq<Card>)
    ensures FixesIncreasing(Candidates(valid, detected))
  {
    var t0 := Tagged(Proposal(valid, detected, RemoveDuplicates), RemoveDuplicates);
    var t1 := Tagged(Proposal(valid, detected, FixRank), FixRank);
    var t2 := Tagged(Proposal(valid, detected, FixSuit), FixSuit);
    var t3 := Tagged(Proposal(valid, detected, MinimalEdit), MinimalEdit);
    var cs := t0 + t1 + t2 + t3;
    forall i, j | 0 <= i < j < |cs| ensures FixIndex(cs[i].fix) < FixIndex(cs[j].fix) {
      assert FixIndex(cs[i].fix) == if i < |t0| then 0 else if i < |t0| + |t1| then 1 else if i < |t0| + |t1| + |t2| then 2 else 3;
      assert FixIndex(cs[j].fix) == if j < |t0| then 0 else if j < |t0| + |t1| then 1 else if j < |t0| + |t1| + |t2| then 2 else 3;
    }
  }

  /** An entry is exactly a non-empty proposal of its attempt. */
  lemma CandidatesMembers(valid: seq<Card> -> bool, detected: seq<Card>)
    ensures forall c :: c in Candidates(valid, detected) <==>
              c.cards != [] && Proposal(valid, detected, c.fix) == Some(Attempt(c.cards, c.confidence))
  {
  }

  /** Every entry is rated between 0.4 and 0.8, and forms a play unless it is
      capped duplicates rated 0.4. */
  lemma CandidateConfidences(valid: seq<Card> -> bool, detected: seq<Card>)
    ensures forall c :: c in Candidates(valid, detected) ==>
              && 4 <= c.confidence <= 8
              && (valid(c.cards) || (c.fix == RemoveDuplicates && c.confidence == 4))
  {
    CandidatesMembers(valid, detected);
    forall c | c in Candidates(valid, detected)
      ensures 4 <= c.confidence <= 8 && (valid(c.cards) || (c.fix == RemoveDuplicates && c.confidence == 4))
    {
      ProposalConfidence(valid, detected, c.fix);
    }
  }

  /** What each attempt's proposal is rated. */
  lemma ProposalConfidence(valid: seq<Card> -> bool, detected: seq<Card>, fix: Fix)
    ensures Proposal(valid, detected, fix).Some? ==>
              var a := Proposal(valid, detected, fix).value;
              && 4 <= a.confidence <= 8
              && (valid(a.cards) || (fix == RemoveDuplicates && a.confidence == 4))
  {
    match fix
    case RemoveDuplicates => RemoveDuplicatesSound(valid, detected);
    case FixRank => FirstFixSound(valid, detected, RankConfusions, 0, 7);
    case FixSuit => FirstFixSound(valid, detected, SuitConfusions, 0, 6);
    case MinimalEdit => MinimalEditSound(valid, detected);
  }

  /** The two filters: `len(cards) == expected_count` and
      `analyze_cards(cards) is not None`. */
  datatype Criterion = SizeIs(n: int) | FormsPlay

  predicate Meets(valid: seq<Card> -> bool, c: Correction, k: Criterion) {
    match k
    case SizeIs(n) => |c.cards| == n
    case FormsPlay => valid(c.cards)
  }

  /** The list comprehension: the entries meeting the criterion, in order. */
  function Keep(valid: seq<Card> -> bool, cs: seq<Correction>, k: Criterion): seq<Correction> {
    if cs == [] then []
    else
      var rest := Keep(valid, cs[..|cs| - 1], k);
      if Meets(valid, cs[|cs| - 1], k) then rest + [cs[|cs| - 1]] else rest
  }

  lemma {:induction false} KeepMembers(valid: seq<Card> -> bool, cs: seq<Correction>, k: Criterion)
    ensures forall c :: c in Keep(valid, cs, k) <==> c in cs && Meets(valid, c, k)
  {
    if cs != [] {
      KeepMembers(valid, cs[..|cs| - 1], k);
      assert cs == cs[..|cs| - 1] + [cs[|cs| - 1]];
    }
  }

  /** Filtering keeps the order of the entries. */
  lemma {:induction false} KeepOrdered(valid: seq<Card> -> bool, cs: seq<Correction>, k: Criterion)
    requires FixesIncreasing(cs)
    ensures FixesIncreasing(Keep(valid, cs, k))
  {
    if cs != [] {
      var init, last := cs[..|cs| - 1], cs[|cs| - 1];
      KeepOrdered(valid, init, k);
      KeepMembers(valid, init, k);
      var rest := Keep(valid, init, k);
      forall c | c in rest ensures FixIndex(c.fix) < FixIndex(last.fix) {
        var i :| 0 <= i < |init| && init[i] == c;
        assert cs[i] == c;
      }
      if Meets(valid, last, k) {
        var ks := rest + [last];
        forall i, j | 0 <= i < j < |ks| ensures FixIndex(ks[i].fix) < FixIndex(ks[j].fix) {
          if j == |rest| {
            assert ks[i] == rest[i] && rest[i] in rest;
          } else {
            assert ks[i] == rest[i] && ks[j] == rest[j];
          }
        }
      }
    }
  }

  /** Whether an entry survives both filters. */
  predicate Admits(valid: seq<Card> -> bool, c: Correction, expected: Option<int>, mustBeValid: bool) {
    && (expected.None? || |c.cards| == expected.value)
    && (!mustBeValid || valid(c.cards))
  }

  function Filtered(valid: seq<Card> -> bool, cs: seq<Correction>, expected: Option<int>, mustBeValid: bool): seq<Correction> {
    var sized := if expected.Some? then Keep(valid, cs, SizeIs(expected.value)) else cs;
    if mustBeValid then Keep(valid, sized, FormsPlay) else sized
  }

  lemma FilteredSound(valid: seq<Card> -> bool, cs: seq<Correction>, expected: Option<int>, mustBeValid: bool)
    ensures forall c :: c in Filtered(valid, cs, expected, mustBeValid) <==> c in cs && Admits(valid, c, expected, mustBeValid)
    ensures FixesIncreasing(cs) ==> FixesIncreasing(Filtered(valid, cs, expected, mustBeValid))
  {
    var sized := if expected.Some? then Keep(valid, cs, SizeIs(expected.value)) else cs;
    if expected.Some? {
      KeepMembers(valid, cs, SizeIs(expected.value));
      if FixesIncreasing(cs) {
        KeepOrdered(valid, cs, SizeIs(expected.value));
      }
    }
    KeepMembers(valid, sized, FormsPlay);
    if FixesIncreasing(sized) {
      KeepOrdered(valid, sized, FormsPlay);
    }
  }

  /** `corrections.sort(key=confidence, reverse=True)` followed by
      `corrections[0]`: the sort is stable, so the entry returned is the
      earliest entry of highest confidence, at this index. */
  function BestAt(cs: seq<Correction>): (k: nat)
    requires cs != []
    ensures k < |cs|
  {
    if |cs| == 1 then 0
    else
      var k := 1 + BestAt(cs[1..]);
      if cs[0].confidence >= cs[k].confidence then 0 else k
  }

  function Best(cs: seq<Correction>): Correction
    requires cs != []
  {
    cs[BestAt(cs)]
  }

  /** The entry chosen is rated at least as high as every entry, and every entry
      before it strictly lower. */
  lemma {:induction false} BestIsFirstMaximal(cs: seq<Correction>)
    requires cs != []
    ensures forall j :: 0 <= j < |cs| ==> cs[j].confidence <= cs[BestAt(cs)].confidence
    ensures forall j :: 0 <= j < BestAt(cs) ==> cs[j].confidence < cs[BestAt(cs)].confidence
  {
    if |cs| > 1 {
      var rest := cs[1..];
      BestIsFirstMaximal(rest);
      var k := 1 + BestAt(rest);
      assert cs[k] == rest[k - 1];
      forall j | 1 <= j < |cs| ensures cs[j].confidence <= cs[k].confidence {
        assert cs[j] == rest[j - 1];
      }
      forall j | 1 <= j < k ensures cs[j].confidence < cs[k].confidence {
        assert cs[j] == rest[j - 1];
      }
    }
  }

  /** The entry `suggest_correction` returns for detected cards that are not
      already a play, if any survives the filters. */
  function Chosen(valid: seq<Card> -> bool, detected: seq<Card>, expected: Option<int>, mustBeValid: bool): Option<Correction> {
    if detected == [] || valid(detected) then None
    else
      var cs := Filtered(valid, Candidates(valid, detected), expected, mustBeValid);
      if cs == [] then None else Some(Best(cs))
  }

  /** `suggest_correction`: nothing for no cards, the cards themselves at 1.0 when
      they form a play, otherwise the chosen entry, or the detected cards at 0.0
      when no entry survives. */
  function Suggestion(valid: seq<Card> -> bool, detected: seq<Card>, expected: Option<int>, mustBeValid: bool): (seq<Card>, nat) {
    if detected == [] then ([], 0)
    else if valid(detected) then (detected, 10)
    else
      match Chosen(valid, detected, expected, mustBeValid)
      case None => (detected, 0)
      case Some(c) => (c.cards, c.confidence)
  }

  /** The entry chosen is a proposal that survives the filters, rated at least as
      high as every such proposal; among equally rated ones it is the one tried
      first. There is none exactly when no proposal survives. */
  lemma ChosenSound(valid: seq<Card> -> bool, detected: seq<Card>, expected: Option<int>, mustBeValid: bool)
    ensures detected != [] && !valid(detected) ==>
              (Chosen(valid, detected, expected, mustBeValid).None? <==>
               forall c :: c in Candidates(valid, detected) ==> !Admits(valid, c, expected, mustBeValid))
    ensures Chosen(valid, detected, expected, mustBeValid).Some? ==>
              var b := Chosen(valid, detected, expected, mustBeValid).value;
              && b in Candidates(valid, detected)
              && Admits(valid, b, expected, mustBeValid)
              && (forall c :: c in Candidates(valid, detected) && Admits(valid, c, expected, mustBeValid) ==>
                    c.confidence <= b.confidence
                    && (c.confidence == b.confidence ==> FixIndex(b.fix) <= FixIndex(c.fix)))
  {
    if detected != [] && !valid(detected) {
      CandidatesOrdered(valid, detected);
      FilteredBest(valid, Candidates(valid, detected), expected, mustBeValid);
    }
  }

  /** The choice among any entries listed in the attempts' order. */
  lemma FilteredBest(valid: seq<Card> -> bool, all: seq<Correction>, expected: Option<int>, mustBeValid: bool)
    requires FixesIncreasing(all)
    ensures Filtered(valid, all, expected, mustBeValid) == [] <==> forall c :: c in all ==> !Admits(valid, c, expected, mustBeValid)
    ensures Filtered(valid, all, expected, mustBeValid) != [] ==>
              var b := Best(Filtered(valid, all, expected, mustBeValid));
              && b in all
              && Admits(valid, b, expected, mustBeValid)
              && (forall c :: c in all && Admits(valid, c, expected, mustBeValid) ==>
                    c.confidence <= b.confidence
                    && (c.confidence == b.confidence ==> FixIndex(b.fix) <= FixIndex(c.fix)))
  {
    var cs := Filtered(valid, all, expected, mustBeValid);
    FilteredSound(valid, all, expected, mustBeValid);
    if cs != [] {
      BestIsFirstMaximal(cs);
      var b := Best(cs);
      forall c | c in all && Admits(valid, c, expected, mustBeValid)
        ensures c.confidence <= b.confidence && (c.confidence == b.confidence ==> FixIndex(b.fix) <= FixIndex(c.fix))
      {
        assert c in cs;
        var j :| 0 <= j < |cs| && cs[j] == c;
        if j < BestAt(cs) {
          assert c.confidence < b.confidence;
        } else if BestAt(cs) < j {
          assert FixIndex(cs[BestAt(cs)].fix) < FixIndex(cs[j].fix);
        }
      }
    }
  }

  /** What `suggest_correction` promises: no cards give ([], 0.0); a play is kept
      at 1.0; otherwise the confidence is 0.0 exactly when no proposal survives the
      filters, and the detected cards come back; else the cards of a proposal
      that survives the filters (so of the expected size and a play when asked),
      rated between 0.4 and 0.8 and no lower than any other that survives. */
  lemma SuggestionSound(valid: seq<Card> -> bool, detected: seq<Card>, expected: Option<int>, mustBeValid: bool)
    ensures detected == [] ==> Suggestion(valid, detected, expected, mustBeValid) == ([], 0)
    ensures detected != [] ==> (Suggestion(valid, detected, expected, mustBeValid).1 == 10 <==> valid(detected))
    ensures Suggestion(valid, detected, expected, mustBeValid).1 == 10 ==> Suggestion(valid, detected, expected, mustBeValid).0 == detected
    ensures detected != [] && !valid(detected) ==>
              (Suggestion(valid, detected, expected, mustBeValid).1 == 0 <==>
               forall c :: c in Candidates(valid, detected) ==> !Admits(valid, c, expected, mustBeValid))
    ensures Suggestion(valid, detected, expected, mustBeValid).1 == 0 ==> Suggestion(valid, detected, expected, mustBeValid).0 == detected
    ensures detected != [] && !valid(detected) && Suggestion(valid, detected, expected, mustBeValid).1 != 0 ==>
              var (cards, confidence) := Suggestion(valid, detected, expected, mustBeValid);
              && 4 <= confidence <= 8
              && (expected.Some? ==> |cards| == expected.value)
              && (mustBeValid ==> valid(cards))
              && (exists c :: c in Candidates(valid, detected) && Admits(valid, c, expected, mustBeValid)
                              && c.cards == cards && c.confidence == confidence)
              && (forall c :: c in Candidates(valid, detected) && Admits(valid, c, expected, mustBeValid) ==> c.confidence <= confidence)
  {
    ChosenSound(valid, detected, expected, mustBeValid);
    CandidateConfidences(valid, detected);
  }

  method SuggestCorrection(detected: seq<Card>, expected: Option<int>, mustBeValid: bool) returns (cards: seq<Card>, confidence: nat)
    ensures (cards, confidence) == Suggestion(IsValidPlay, detected, expected, mustBeValid)
  {
    if detected == [] {
      return [], 0;
    }
    if IsValidPlay(detected) {
      return detected, 10;
    }
    var corrections := CollectCorrections(detected);
    if expected.Some? {
      corrections := Keep(IsValidPlay, corrections, SizeIs(expected.value));
    }
    if mustBeValid {
      corrections := Keep(IsValidPlay, corrections, FormsPlay);
    }
    assert corrections == Filtered(IsValidPlay, Candidates(IsValidPlay, detected), expected, mustBeValid);
    if corrections == [] {
      return detected, 0;
    }
    var best := Best(corrections);
    return best.cards, best.confidence;
  }

  /** The four attempts of `suggest_correction`, in order. */
  method CollectCorrections(detected: seq<Card>) returns (corrections: seq<Correction>)
    ensures corrections == Candidates(IsValidPlay, detected)
  {
    var duplicates := Propose(detected, RemoveDuplicates);
    corrections := Append([], duplicates, RemoveDuplicates);
    var rank := Propose(detected, FixRank);
    corrections := Append(corrections, rank, FixRank);
    var suit := Propose(detected, FixSuit);
    corrections := Append(corrections, suit, FixSuit);
    var edit := Propose(detected, MinimalEdit);
    corrections := Append(corrections, edit, MinimalEdit);
  }

  /** The attempt behind each tag. */
  method Propose(detected: seq<Card>, fix: Fix) returns (corrected: Option<Attempt>)
    ensures corrected == Proposal(IsValidPlay, detected, fix)
  {
    match fix
    case RemoveDuplicates => corrected := TryRemoveDuplicates(detected);
    case FixRank => corrected := TryConfusions(detected, RankConfusions, 7);
    case FixSuit => corrected := TryConfusions(detected, SuitConfusions, 6);
    case MinimalEdit => corrected := TryMinimalEdits(detected);
  }

  /** `if corrected: corrections.append((corrected, conf, method))`. */
  method Append(corrections: seq<Correction>, corrected: Option<Attempt>, fix: Fix) returns (extended: seq<Correction>)
    ensures extended == corrections + Tagged(corrected, fix)
  {
    extended := corrections;
    if corrected.Some? && corrected.value.cards != [] {
      extended := extended + [Correction(corrected.value.cards, corrected.value.confidence, fix)];
    }
  }

  // ---------------------------------------------------------------------------
  // validate_hand

  /** The two kinds of error message: a card held more often than the decks
      allow, and a hand larger than the decks. */
  datatype HandError = TooManyCopies(card: Card, count: nat, max: int) | TooManyCards(size: nat, max: int)

  /** The copy errors for the keys ks, in their order. */
  function CopyErrors(hand: seq<Card>, ks: seq<Card>, max: int): seq<HandError> {
    if ks == [] then []
    else
      var k := ks[|ks| - 1];
      CopyErrors(hand, ks[..|ks| - 1], max) + (if Count(hand, k) > max then [TooManyCopies(k, Count(hand, k), max)] else [])
  }

  /** `validate_hand`: one error per distinct card (in order of first appearance)
      held more than `total // 44` times, then one if the hand holds more than
      `total` cards. The divisor is positive, so Dafny's `/` is Python's `//`. */
  function HandErrors(hand: seq<Card>, total: int): seq<HandError> {
    CopyErrors(hand, Distinct(hand), total / 44)
    + (if |hand| > total then [TooManyCards(|hand|, total)] else [])
  }

  lemma {:induction false} CopyErrorsSound(hand: seq<Card>, ks: seq<Card>, max: int)
    ensures forall e :: e in CopyErrors(hand, ks, max) ==>
              e.TooManyCopies? && e.card in ks && e.count == Count(hand, e.card) && e.count > max && e.max == max
    ensures forall k :: k in ks && Count(hand, k) > max ==> TooManyCopies(k, Count(hand, k), max) in CopyErrors(hand, ks, max)
    ensures (forall i, j :: 0 <= i < j < |ks| ==> ks[i] != ks[j]) ==>
              forall i, j :: 0 <= i < j < |CopyErrors(hand, ks, max)| ==>
                CopyErrors(hand, ks, max)[i].card != CopyErrors(hand, ks, max)[j].card
  {
    if ks != [] {
      var init, k := ks[..|ks| - 1], ks[|ks| - 1];
      CopyErrorsSound(hand, init, max);
      assert ks == init + [k];
      if forall i, j :: 0 <= i < j < |ks| ==> ks[i] != ks[j] {
        assert k !in init by {
          forall i | 0 <= i < |init| ensures init[i] != k {
            assert init[i] == ks[i];
          }
        }
        var es := CopyErrors(hand, init, max);
        forall i, j | 0 <= i < j < |CopyErrors(hand, ks, max)| ensures CopyErrors(hand, ks, max)[i].card != CopyErrors(hand, ks, max)[j].card {
          if j == |es| {
            assert es[i] in es;
          } else {
            assert CopyErrors(hand, ks, max)[i] == es[i] && CopyErrors(hand, ks, max)[j] == es[j];
          }
        }
      }
    }
  }

  /** A hand passes exactly when no card is held more than `total // 44` times
      and it holds at most `total` cards. Each copy error names a card of the
      hand, with its true count, above the maximum; every such card is named,
      and no card twice; the size error is there exactly when the hand is too
      large. */
  lemma HandErrorsSound(hand: seq<Card>, total: int)
    ensures HandErrors(hand, total) == [] <==>
              (forall c :: c in hand ==> Count(hand, c) <= total / 44) && |hand| <= total
    ensures forall e :: e in HandErrors(hand, total) && e.TooManyCopies? ==>
              e.card in hand && e.count == Count(hand, e.card) && e.count > total / 44 && e.max == total / 44
    ensures forall c :: c in hand && Count(hand, c) > total / 44 ==>
              TooManyCopies(c, Count(hand, c), total / 44) in HandErrors(hand, total)
    ensures TooManyCards(|hand|, total) in HandErrors(hand, total) <==> |hand| > total
    ensures forall i, j :: 0 <= i < j < |HandErrors(hand, total)| && HandErrors(hand, total)[i].TooManyCopies? && HandErrors(hand, total)[j].TooManyCopies? ==>
              HandErrors(hand, total)[i].card != HandErrors(hand, total)[j].card
  {
    var max := total / 44;
    var es := CopyErrors(hand, Distinct(hand), max);
    DistinctKeys(hand);
    CopyErrorsSound(hand, Distinct(hand), max);
    if es != [] {
      assert es[0] in es;
    }
    forall i, j | 0 <= i < j < |HandErrors(hand, total)| && HandErrors(hand, total)[i].TooManyCopies? && HandErrors(hand, total)[j].TooManyCopies?
      ensures HandErrors(hand, total)[i].card != HandErrors(hand, total)[j].card
    {
      assert HandErrors(hand, total)[i] == es[i] && HandErrors(hand, total)[j] == es[j];
    }
  }

  method ValidateHand(hand: seq<Card>, totalDeckCards: int) returns (isValid: bool, errors: seq<HandError>)
    ensures errors == HandErrors(hand, totalDeckCards)
    ensures isValid <==> errors == []
  {
    errors := [];
    var maxPerCard := totalDeckCards / 44;
    var keys := Distinct(hand);
    for i := 0 to |keys|
      invariant errors == CopyErrors(hand, keys[..i], maxPerCard)
    {
      assert keys[..i + 1][..i] == keys[..i];
      var count := Count(hand, keys[i]);
      if count > maxPerCard {
        errors := errors + [TooManyCopies(keys[i], count, maxPerCard)];
      }
    }
    assert keys[..|keys|] == keys;
    if |hand| > totalDeckCards {
      errors := errors + [TooManyCards(|hand|, totalDeckCards)];
    }
    isValid := |errors| == 0;
  }

  // ---------------------------------------------------------------------------
  // suggest_pattern_type

  /** How many of the ranks rs hold exactly k cards: `sum(1 for count in
      rank_counts.values() if count == k)` over the ranks present. */
  function RanksHolding(cards: seq<Card>, rs: seq<Rank>, k: nat): nat {
    if rs == [] then 0
    else RanksHolding(cards, rs[..|rs| - 1], k) + (if RankCount(cards, rs[|rs| - 1]) == k then 1 else 0)
  }

  /** `suggest_pattern_type`: the recognised type when the cards form a play, and
      otherwise the first heuristic on the card count and the rank tallies that
      applies. */
  function SuggestPatternType(cards: seq<Card>): Option<PlayType> {
    if cards == [] then None
    else if AnalyzeCards(cards).Some? then Some(AnalyzeCards(cards).value.playType)
    else
      var n := |cards|;
      var rs := Ranks(cards);
      if n == 1 then Some(Single)
      else if n == 2 && |rs| == 1 then Some(Pair)
      else if n == 3 && |rs| == 1 then (if |Distinct(cards)| == 1 then Some(Tongzi) else Some(Triple))
      else if n == 5 && |rs| == 2 && RanksHolding(cards, rs, 3) > 0 && RanksHolding(cards, rs, 2) > 0 then Some(TripleWithTwo)
      else if n == 4 && |rs| == 1 then Some(Bomb)
      else if n >= 4 && n % 2 == 0 && AllKeysHold(cards, 2) then Some(ConsecutivePairs)
      else if n >= 6 && n % 3 == 0 && AllKeysHold(cards, 3) then Some(Airplane)
      else if n == 8 && |rs| == 1 then Some(Dizha)
      else if n >= 10 && RanksHolding(cards, rs, 3) >= 2 && RanksHolding(cards, rs, 2) >= RanksHolding(cards, rs, 3) then Some(AirplaneWithWings)
      else None
  }

  /** Some listed rank holding k cards is counted. */
  lemma {:induction false} RanksHoldingPositive(cards: seq<Card>, rs: seq<Rank>, k: nat)
    ensures RanksHolding(cards, rs, k) > 0 <==> exists i :: 0 <= i < |rs| && RankCount(cards, rs[i]) == k
  {
    if rs != [] {
      var init := rs[..|rs| - 1];
      RanksHoldingPositive(cards, init, k);
      if exists i :: 0 <= i < |rs| && RankCount(cards, rs[i]) == k {
        var i :| 0 <= i < |rs| && RankCount(cards, rs[i]) == k;
        if i < |init| {
          assert init[i] == rs[i];
        }
      } else {
        forall i | 0 <= i < |init| ensures RankCount(cards, init[i]) != k {
          assert init[i] == rs[i];
        }
      }
    }
  }

  /** Each of the heuristic guards for Single, Pair, Triple, Tongzi,
      TripleWithTwo, Bomb and Dizha describes cards the recogniser accepts. */
  lemma ShapeGuardsRecognised(cards: seq<Card>)
    requires cards != []
    ensures |cards| == 1 ==> IsValidPlay(cards)
    ensures (|cards| == 2 || |cards| == 3 || |cards| == 4 || |cards| == 8) && |Ranks(cards)| == 1 ==> IsValidPlay(cards)
    ensures |cards| == 5 && |Ranks(cards)| == 2 && RanksHolding(cards, Ranks(cards), 3) > 0 && RanksHolding(cards, Ranks(cards), 2) > 0 ==>
              IsValidPlay(cards)
  {
    SingleRecognised(cards);
    OneRank(cards);
    if |Ranks(cards)| == 1 {
      if |cards| == 2 {
        assert cards[1].rank == cards[0].rank;
        PairRecognised(cards);
      } else if |cards| == 3 {
        TongziRecognised(cards);
        TripleRecognised(cards);
      } else if |cards| == 4 || |cards| == 8 {
        DizhaRecognised(cards);
        BombRecognised(cards);
      }
    }
    if |cards| == 5 && |Ranks(cards)| == 2 && RanksHolding(cards, Ranks(cards), 3) > 0 && RanksHolding(cards, Ranks(cards), 2) > 0 {
      var rs := Ranks(cards);
      RanksHoldingPositive(cards, rs, 3);
      RanksHoldingPositive(cards, rs, 2);
      var i :| 0 <= i < |rs| && RankCount(cards, rs[i]) == 3;
      var j :| 0 <= j < |rs| && RankCount(cards, rs[j]) == 2;
      assert IsTripleWithTwoShape(cards, rs[i], rs[j]);
      TripleWithTwoRecognised(cards);
    }
  }

  /** What the guess promises: nothing for no cards; the recognised type for a
      play; and for cards that form no play only chain types (pairs or triples
      of every rank present, or triples with enough pairs), since every other
      heuristic describes a play; no guess at all means no play. */
  lemma SuggestPatternTypeSound(cards: seq<Card>)
    ensures cards == [] ==> SuggestPatternType(cards) == None
    ensures IsValidPlay(cards) ==> SuggestPatternType(cards) == Some(AnalyzeCards(cards).value.playType)
    ensures !IsValidPlay(cards) && SuggestPatternType(cards).Some? ==>
              SuggestPatternType(cards).value in {ConsecutivePairs, Airplane, AirplaneWithWings}
    ensures !IsValidPlay(cards) && SuggestPatternType(cards) == Some(ConsecutivePairs) ==>
              |cards| >= 4 && |cards| % 2 == 0 && AllKeysHold(cards, 2)
    ensures !IsValidPlay(cards) && SuggestPatternType(cards) == Some(Airplane) ==>
              |cards| >= 6 && |cards| % 3 == 0 && AllKeysHold(cards, 3)
    ensures !IsValidPlay(cards) && SuggestPatternType(cards) == Some(AirplaneWithWings) ==>
              |cards| >= 10 && RanksHolding(cards, Ranks(cards), 3) >= 2
    ensures cards != [] && SuggestPatternType(cards) == None ==> !IsValidPlay(cards)
  {
    if cards != [] {
      ShapeGuardsRecognised(cards);
    }
  }
}

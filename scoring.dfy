/**
 * The scoring ledger both implementations keep: an append-only list of
 * scoring events (round wins, Tongzi and Dizha bonuses, finish bonuses),
 * the specification functions that say which events each operation records,
 * and per-player totals as sums over the list.
 */
module ScoringLedger {
  import opened Wrappers
  import opened Cards
  import opened Sums
  import opened Patterns

  datatype BonusType =
    | RoundWin
    | KTongzi
    | ATongzi
    | TwoTongzi
    | Dizha
    | FinishFirst
    | FinishSecond
    | FinishThird

  /** One scoring event. The reason text is left out; the scoring cards
      involved are kept as cards rather than their printed form. */
  datatype ScoringEvent = ScoringEvent(
    playerId: string,
    bonusType: BonusType,
    points: int,
    roundNumber: Option<int>,
    cardsInvolved: seq<Card>)

  /** The events an optional result adds to the ledger. */
  function Recorded(e: Option<ScoringEvent>): (r: seq<ScoringEvent>)
    ensures |r| <= 1
  {
    if e.Some? then [e.value] else []
  }

  // ----- round wins -----

  /** `calculate_round_base_score`: the score values of the scoring cards (5, 10, K)
      among the cards of a round, added up. */
  function BaseScore(cards: seq<Card>): (s: int)
    ensures 0 <= s <= 10 * |cards|
  {
    if cards == [] then 0
    else
      var last := cards[|cards| - 1];
      BaseScore(cards[..|cards| - 1]) + (if IsScoringCard(last) then ScoreValue(last) else 0)
  }

  /** A round is worth nothing exactly when none of its cards is a scoring card. */
  lemma {:induction false} BaseScoreZero(cards: seq<Card>)
    ensures BaseScore(cards) == 0 <==> forall i | 0 <= i < |cards| :: !IsScoringCard(cards[i])
  {
    if cards != [] {
      var n := |cards| - 1;
      BaseScoreZero(cards[..n]);
      assert forall i | 0 <= i < n :: cards[..n][i] == cards[i];
    }
  }

  /** The scoring cards of a round, in the order they were played. */
  function ScoringCards(cards: seq<Card>): (r: seq<Card>)
    ensures |r| <= |cards|
    ensures forall c :: c in r <==> c in cards && IsScoringCard(c)
  {
    if cards == [] then []
    else
      var last := cards[|cards| - 1];
      ScoringCards(cards[..|cards| - 1]) + (if IsScoringCard(last) then [last] else [])
  }

  /** The event `create_round_win_event` records: none when the cards are worth
      nothing, otherwise one round-win event worth the base score. */
  function RoundWinEvent(playerId: string, cards: seq<Card>, roundNumber: int): (r: Option<ScoringEvent>)
    ensures r.None? <==> forall i | 0 <= i < |cards| :: !IsScoringCard(cards[i])
    ensures r.Some? ==> && r.value.playerId == playerId && r.value.bonusType == RoundWin
                        && r.value.points == BaseScore(cards) > 0 && r.value.roundNumber == Some(roundNumber)
                        && (forall c :: c in r.value.cardsInvolved <==> c in cards && IsScoringCard(c))
  {
    BaseScoreZero(cards);
    var base := BaseScore(cards);
    if base > 0 then Some(ScoringEvent(playerId, RoundWin, base, Some(roundNumber), ScoringCards(cards)))
    else None
  }

  // ----- Tongzi and Dizha bonuses -----

  /** `get_tongzi_bonus`: the configured bonus and its type for a King, Ace or Two
      Tongzi, nothing for any other rank. */
  function TongziBonus(k: int, a: int, two: int, rank: Rank): Option<(int, BonusType)> {
    if rank == King then Some((k, KTongzi))
    else if rank == Ace then Some((a, ATongzi))
    else if rank == Two then Some((two, TwoTongzi))
    else None
  }

  /** The events Python's `create_special_bonus_events` records: only for the
      round-winning play; a Tongzi event only when its bonus is positive. */
  function PySpecialBonusEvents(k: int, a: int, two: int, dizha: int, playerId: string,
                                pattern: PlayPattern, roundNumber: int, isRoundWinningPlay: bool): seq<ScoringEvent>
  {
    if !isRoundWinningPlay then []
    else if pattern.playType == Tongzi then
      match TongziBonus(k, a, two, pattern.primaryRank)
      case Some((points, t)) => if points > 0 then [ScoringEvent(playerId, t, points, Some(roundNumber), [])] else []
      case None => []
    else if pattern.playType == PlayType.Dizha then
      [ScoringEvent(playerId, BonusType.Dizha, dizha, Some(roundNumber), [])]
    else []
  }

  /** The events Rust's `create_special_bonus_events` records: the same, but a King,
      Ace or Two Tongzi is recorded whatever its bonus. */
  function RsSpecialBonusEvents(k: int, a: int, two: int, dizha: int, playerId: string,
                                pattern: PlayPattern, roundNumber: int, isRoundWinningPlay: bool): seq<ScoringEvent>
  {
    if !isRoundWinningPlay then []
    else if pattern.playType == Tongzi then
      match TongziBonus(k, a, two, pattern.primaryRank)
      case Some((points, t)) => [ScoringEvent(playerId, t, points, Some(roundNumber), [])]
      case None => []
    else if pattern.playType == PlayType.Dizha then
      [ScoringEvent(playerId, BonusType.Dizha, dizha, Some(roundNumber), [])]
    else []
  }

  // ----- finish bonuses -----

  /** First place, second place, and third for every later place. */
  function FinishType(i: nat): BonusType {
    if i == 0 then FinishFirst else if i == 1 then FinishSecond else FinishThird
  }

  /** The events `create_finish_bonus_events` records for the players in finish
      order: one per place that has a configured bonus. */
  function FinishEvents(ids: seq<string>, bonus: seq<int>): (r: seq<ScoringEvent>)
    ensures |r| == if |ids| < |bonus| then |ids| else |bonus|
  {
    if ids == [] then []
    else
      var i := |ids| - 1;
      FinishEvents(ids[..i], bonus)
        + (if i < |bonus| then [ScoringEvent(ids[i], FinishType(i), bonus[i], None, [])] else [])
  }

  // ----- totals -----

  /** `calculate_total_score_for_player`: the points of a player's events, 0 if none. */
  function TotalFor(events: seq<ScoringEvent>, playerId: string): int {
    if events == [] then 0
    else
      var last := events[|events| - 1];
      TotalFor(events[..|events| - 1], playerId) + (if last.playerId == playerId then last.points else 0)
  }

  /** The points of every event, whoever they went to. */
  function TotalPoints(events: seq<ScoringEvent>): int {
    if events == [] then 0 else TotalPoints(events[..|events| - 1]) + events[|events| - 1].points
  }

  /** What `validate_scores` checks: every listed score is the ledger total. */
  predicate ScoresConsistent(events: seq<ScoringEvent>, scores: map<string, int>) {
    forall p | p in scores :: scores[p] == TotalFor(events, p)
  }

  // ---------------------------------------------------------------------------
  // Properties

  /** A player's total over a ledger that grew is the old total plus the total
      over the new events. */
  lemma {:induction false} TotalForAppend(a: seq<ScoringEvent>, b: seq<ScoringEvent>, p: string)
    ensures TotalFor(a + b, p) == TotalFor(a, p) + TotalFor(b, p)
    decreases |b|
  {
    if b == [] {
      assert a + b == a;
    } else {
      assert (a + b)[..|a + b| - 1] == a + b[..|b| - 1];
      TotalForAppend(a, b[..|b| - 1], p);
    }
  }

  /** The same for the points of all players. */
  lemma {:induction false} TotalPointsAppend(a: seq<ScoringEvent>, b: seq<ScoringEvent>)
    ensures TotalPoints(a + b) == TotalPoints(a) + TotalPoints(b)
    decreases |b|
  {
    if b == [] {
      assert a + b == a;
    } else {
      assert (a + b)[..|a + b| - 1] == a + b[..|b| - 1];
      TotalPointsAppend(a, b[..|b| - 1]);
    }
  }

  /** Winning a round credits the winner with the base score of its cards and
      leaves every other player's total unchanged. */
  lemma RoundWinCredit(events: seq<ScoringEvent>, winner: string, cards: seq<Card>, roundNumber: int, p: string)
    ensures TotalFor(events + Recorded(RoundWinEvent(winner, cards, roundNumber)), p)
            == TotalFor(events, p) + (if p == winner then BaseScore(cards) else 0)
  {
    var added := Recorded(RoundWinEvent(winner, cards, roundNumber));
    TotalForAppend(events, added, p);
    if added != [] {
      assert added[..0] == [];
    }
  }

  lemma BaseScoreOfTwo(a: Card, b: Card)
    ensures BaseScore([a, b]) == ScoreValue(a) + ScoreValue(b)
  {
    assert [a, b][..1] == [a];
    assert [a][..0] == [];
  }

  lemma BaseScoreOfFour(a: Card, b: Card, c: Card, d: Card)
    ensures BaseScore([a, b, c, d]) == ScoreValue(a) + ScoreValue(b) + ScoreValue(c) + ScoreValue(d)
  {
    assert [a, b, c, d][..3] == [a, b, c];
    assert [a, b, c][..2] == [a, b];
    BaseScoreOfTwo(a, b);
  }

  /** A worked example of the card values: Five, Ten, King and Six are worth
      5 + 10 + 10 + 0 = 25; Ten and King are worth 20. */
  lemma BaseScoreExamples()
    ensures BaseScore([Card(Spades, Five), Card(Hearts, Ten), Card(Clubs, King), Card(Diamonds, 6)]) == 25
    ensures BaseScore([Card(Spades, Ten), Card(Hearts, King)]) == 20
  {
    BaseScoreOfFour(Card(Spades, Five), Card(Hearts, Ten), Card(Clubs, King), Card(Diamonds, 6));
    BaseScoreOfTwo(Card(Spades, Ten), Card(Hearts, King));
  }

  /** Only the round-winning play earns a special bonus, and at most one: a King,
      Ace or Two Tongzi earns its configured bonus when that is positive, a Dizha
      earns the Dizha bonus, and nothing else earns anything. The bonus goes to
      the player who made the play. */
  lemma PySpecialBonusSpec(k: int, a: int, two: int, dizha: int, playerId: string,
                           pattern: PlayPattern, roundNumber: int, winning: bool)
    ensures var r := PySpecialBonusEvents(k, a, two, dizha, playerId, pattern, roundNumber, winning);
            && |r| <= 1
            && (forall q :: q != playerId ==> TotalFor(r, q) == 0)
            && (r != [] <==> winning && (|| pattern.playType == PlayType.Dizha
                                         || (pattern.playType == Tongzi && pattern.primaryRank == King && k > 0)
                                         || (pattern.playType == Tongzi && pattern.primaryRank == Ace && a > 0)
                                         || (pattern.playType == Tongzi && pattern.primaryRank == Two && two > 0)))
            && (r != [] ==> && r[0].playerId == playerId && r[0].roundNumber == Some(roundNumber)
                            && (pattern.playType == PlayType.Dizha ==> r[0].bonusType == BonusType.Dizha && r[0].points == dizha)
                            && (pattern.primaryRank == King && pattern.playType == Tongzi ==> r[0].bonusType == KTongzi && r[0].points == k)
                            && (pattern.primaryRank == Ace && pattern.playType == Tongzi ==> r[0].bonusType == ATongzi && r[0].points == a)
                            && (pattern.primaryRank == Two && pattern.playType == Tongzi ==> r[0].bonusType == TwoTongzi && r[0].points == two))
  {
    var r := PySpecialBonusEvents(k, a, two, dizha, playerId, pattern, roundNumber, winning);
    if r != [] {
      assert r[..0] == [];
    }
  }

  /** Rust records a King, Ace or Two Tongzi whatever its bonus; otherwise it
      behaves as Python. */
  lemma RsSpecialBonusSpec(k: int, a: int, two: int, dizha: int, playerId: string,
                           pattern: PlayPattern, roundNumber: int, winning: bool)
    ensures var r := RsSpecialBonusEvents(k, a, two, dizha, playerId, pattern, roundNumber, winning);
            && |r| <= 1
            && (forall q :: q != playerId ==> TotalFor(r, q) == 0)
            && (r != [] <==> winning && (|| pattern.playType == PlayType.Dizha
                                         || (pattern.playType == Tongzi && pattern.primaryRank in {King, Ace, Two})))
            && (r != [] ==> && r[0].playerId == playerId && r[0].roundNumber == Some(roundNumber)
                            && (pattern.playType == PlayType.Dizha ==> r[0].bonusType == BonusType.Dizha && r[0].points == dizha)
                            && (pattern.primaryRank == King && pattern.playType == Tongzi ==> r[0].bonusType == KTongzi && r[0].points == k)
                            && (pattern.primaryRank == Ace && pattern.playType == Tongzi ==> r[0].bonusType == ATongzi && r[0].points == a)
                            && (pattern.primaryRank == Two && pattern.playType == Tongzi ==> r[0].bonusType == TwoTongzi && r[0].points == two))
  {
    var r := RsSpecialBonusEvents(k, a, two, dizha, playerId, pattern, roundNumber, winning);
    if r != [] {
      assert r[..0] == [];
    }
  }

  /** The two implementations record the same special bonuses whenever the Tongzi
      bonuses are positive; with a zero King bonus, Rust records a zero-point
      event that Python does not. */
  lemma SpecialBonusDivergence(k: int, a: int, two: int, dizha: int, playerId: string,
                               pattern: PlayPattern, roundNumber: int, winning: bool)
    ensures k > 0 && a > 0 && two > 0 ==>
              PySpecialBonusEvents(k, a, two, dizha, playerId, pattern, roundNumber, winning)
              == RsSpecialBonusEvents(k, a, two, dizha, playerId, pattern, roundNumber, winning)
    ensures var kingTongzi := PlayPattern(Tongzi, King, Some(Spades), [], 3, 0);
            && PySpecialBonusEvents(0, a, two, dizha, playerId, kingTongzi, roundNumber, true) == []
            && RsSpecialBonusEvents(0, a, two, dizha, playerId, kingTongzi, roundNumber, true)
               == [ScoringEvent(playerId, KTongzi, 0, Some(roundNumber), [])]
  {
  }

  /** Place i of the finish order, when it has a configured bonus, gets the i-th
      event: first, second, then third place for every later position, worth the
      i-th bonus, with no round number. */
  lemma {:induction false} FinishEventsSpec(ids: seq<string>, bonus: seq<int>)
    ensures var r := FinishEvents(ids, bonus);
            forall i | 0 <= i < |r| :: r[i] == ScoringEvent(ids[i], FinishType(i), bonus[i], None, [])
    decreases |ids|
  {
    if ids != [] {
      var n := |ids| - 1;
      FinishEventsSpec(ids[..n], bonus);
    }
  }

  /** The finish events without their last place. */
  lemma FinishEventsSnoc(ids: seq<string>, bonus: seq<int>)
    requires ids != []
    ensures var n := |ids| - 1;
            FinishEvents(ids, bonus) == FinishEvents(ids[..n], bonus)
              + (if n < |bonus| then [ScoringEvent(ids[n], FinishType(n), bonus[n], None, [])] else [])
  {
  }

  /** The bonus of the places a player holds in the finish order. */
  function FinishShare(ids: seq<string>, bonus: seq<int>, p: string): int {
    if ids == [] then 0
    else
      var n := |ids| - 1;
      FinishShare(ids[..n], bonus, p) + (if n < |bonus| && ids[n] == p then bonus[n] else 0)
  }

  /** A player's total over the finish events is their share of the bonuses. */
  lemma {:induction false} FinishTotalIsShare(ids: seq<string>, bonus: seq<int>, p: string)
    ensures TotalFor(FinishEvents(ids, bonus), p) == FinishShare(ids, bonus, p)
    decreases |ids|
  {
    if ids != [] {
      var n := |ids| - 1;
      var added := if n < |bonus| then [ScoringEvent(ids[n], FinishType(n), bonus[n], None, [])] else [];
      FinishEventsSnoc(ids, bonus);
      TotalForAppend(FinishEvents(ids[..n], bonus), added, p);
      TotalForAtMostOne(added, p);
      FinishTotalIsShare(ids[..n], bonus, p);
    }
  }

  /** A player who holds a single place in the finish order, and that place has a
      configured bonus, is credited exactly that bonus. */
  lemma FinishBonusCredit(ids: seq<string>, bonus: seq<int>, i: nat)
    requires i < |ids| && i < |bonus|
    requires forall j | 0 <= j < |ids| && j != i :: ids[j] != ids[i]
    ensures TotalFor(FinishEvents(ids, bonus), ids[i]) == bonus[i]
  {
    FinishTotalIsShare(ids, bonus, ids[i]);
    ShareOfSinglePlace(ids, bonus, i);
  }

  lemma {:induction false} ShareOfSinglePlace(ids: seq<string>, bonus: seq<int>, i: nat)
    requires i < |ids| && i < |bonus|
    requires forall j | 0 <= j < |ids| && j != i :: ids[j] != ids[i]
    ensures FinishShare(ids, bonus, ids[i]) == bonus[i]
    decreases |ids|
  {
    var n := |ids| - 1;
    var init := ids[..n];
    if i < n {
      assert ids[n] != ids[i] && init[i] == ids[i];
      ShareOfSinglePlace(init, bonus, i);
    } else {
      ShareOfNoPlace(init, bonus, ids[i]);
    }
  }

  lemma {:induction false} ShareOfNoPlace(ids: seq<string>, bonus: seq<int>, p: string)
    requires forall i | 0 <= i < |ids| && i < |bonus| :: ids[i] != p
    ensures FinishShare(ids, bonus, p) == 0
    decreases |ids|
  {
    if ids != [] {
      ShareOfNoPlace(ids[..|ids| - 1], bonus, p);
    }
  }

  /** A player in no place that has a configured bonus gets nothing from the finish events. */
  lemma FinishBonusNone(ids: seq<string>, bonus: seq<int>, p: string)
    requires forall i | 0 <= i < |ids| && i < |bonus| :: ids[i] != p
    ensures TotalFor(FinishEvents(ids, bonus), p) == 0
  {
    FinishTotalIsShare(ids, bonus, p);
    ShareOfNoPlace(ids, bonus, p);
  }

  /** The total over at most one event. */
  lemma TotalForAtMostOne(events: seq<ScoringEvent>, p: string)
    requires |events| <= 1
    ensures TotalFor(events, p) == if events != [] && events[0].playerId == p then events[0].points else 0
  {
    if events != [] {
      assert events[..0] == [];
    }
  }

  /** The finish events hand out exactly the configured bonuses of the places
      filled, so when every place is filled their points add up to the sum of the
      bonus list. */
  lemma {:induction false} FinishPointsTotal(ids: seq<string>, bonus: seq<int>)
    ensures TotalPoints(FinishEvents(ids, bonus)) == Sum(bonus[..if |ids| < |bonus| then |ids| else |bonus|])
    ensures |ids| >= |bonus| ==> TotalPoints(FinishEvents(ids, bonus)) == Sum(bonus)
    decreases |ids|
  {
    if ids == [] {
      assert bonus[..0] == [];
    } else {
      var n := |ids| - 1;
      var front := FinishEvents(ids[..n], bonus);
      var added := if n < |bonus| then [ScoringEvent(ids[n], FinishType(n), bonus[n], None, [])] else [];
      FinishPointsTotal(ids[..n], bonus);
      FinishEventsSnoc(ids, bonus);
      TotalPointsAppend(front, added);
      if n < |bonus| {
        assert added[..0] == [];
        assert TotalPoints(added) == bonus[n];
        assert bonus[..n + 1][..n] == bonus[..n];
        assert Sum(bonus[..n + 1]) == Sum(bonus[..n]) + bonus[n];
      } else {
        assert TotalPoints(added) == 0;
      }
    }
    assert bonus[..|bonus|] == bonus;
  }

  /** A recorded score that matched the ledger stops matching once the player is
      credited a non-zero event: `validate_scores` notices every missed event. */
  lemma StaleScoresFail(events: seq<ScoringEvent>, scores: map<string, int>, e: ScoringEvent)
    requires ScoresConsistent(events, scores) && e.playerId in scores && e.points != 0
    ensures !ScoresConsistent(events + [e], scores)
  {
    TotalForAppend(events, [e], e.playerId);
    assert [e][..0] == [];
  }

  /** Events for other players never disturb a player's recorded score. */
  lemma OtherPlayersKeepScores(events: seq<ScoringEvent>, added: seq<ScoringEvent>, scores: map<string, int>)
    requires ScoresConsistent(events, scores)
    requires forall i | 0 <= i < |added| :: added[i].playerId !in scores
    ensures ScoresConsistent(events + added, scores)
  {
    forall p | p in scores
      ensures scores[p] == TotalFor(events + added, p)
    {
      TotalForAppend(events, added, p);
      NoEventsFor(added, p);
    }
  }

  lemma {:induction false} NoEventsFor(events: seq<ScoringEvent>, p: string)
    requires forall i | 0 <= i < |events| :: events[i].playerId != p
    ensures TotalFor(events, p) == 0
    decreases |events|
  {
    if events != [] {
      NoEventsFor(events[..|events| - 1], p);
    }
  }
}

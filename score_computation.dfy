/**
 * Rust's `ScoreComputation`: the same ledger as the Python engine, over the
 * Rust configuration, pushed to by `&mut self` methods; the read-only queries
 * are folds over the event list.
 */
module RsScoring {
  import opened Wrappers
  import opened Cards
  import opened Patterns
  import opened ScoringLedger
  import opened RsConfig
  import RsConfigFactory

  class ScoreComputation {
    const config: GameConfig
    var scoringEvents: seq<ScoringEvent>

    constructor (config: GameConfig)
      ensures this.config == config && scoringEvents == []
    {
      this.config := config;
      scoringEvents := [];
    }

    /** `create_round_win_event`: push and return one round-win event when the
        round's scoring cards are worth something. */
    method CreateRoundWinEvent(playerId: string, roundCards: seq<Card>, roundNumber: nat)
      returns (event: Option<ScoringEvent>)
      modifies this
      ensures event == RoundWinEvent(playerId, roundCards, roundNumber)
      ensures scoringEvents == old(scoringEvents) + Recorded(event)
    {
      var baseScore := BaseScore(roundCards);
      if baseScore > 0 {
        var e := ScoringEvent(playerId, RoundWin, baseScore, Some(roundNumber), ScoringCards(roundCards));
        scoringEvents := scoringEvents + [e];
        return Some(e);
      }
      return None;
    }

    /** `create_special_bonus_events`: push and return the Tongzi or Dizha bonus of
        the round-winning play. */
    method CreateSpecialBonusEvents(playerId: string, winningPattern: PlayPattern, roundNumber: nat,
                                    isRoundWinningPlay: bool) returns (events: seq<ScoringEvent>)
      modifies this
      ensures events == RsSpecialBonusEvents(config.kTongziBonus, config.aTongziBonus, config.twoTongziBonus,
                                             config.dizhaBonus, playerId, winningPattern, roundNumber,
                                             isRoundWinningPlay)
      ensures scoringEvents == old(scoringEvents) + events
    {
      events := [];
      if !isRoundWinningPlay {
        return;
      }
      if winningPattern.playType == Tongzi {
        var bonus := TongziBonus(config.kTongziBonus, config.aTongziBonus, config.twoTongziBonus,
                                 winningPattern.primaryRank);
        if bonus.Some? {
          var e := ScoringEvent(playerId, bonus.value.1, bonus.value.0, Some(roundNumber), []);
          events := events + [e];
          scoringEvents := scoringEvents + [e];
        }
      } else if winningPattern.playType == PlayType.Dizha {
        var e := ScoringEvent(playerId, BonusType.Dizha, config.dizhaBonus, Some(roundNumber), []);
        events := events + [e];
        scoringEvents := scoringEvents + [e];
      }
    }

    /** `create_finish_bonus_events`: one event per player in finish order whose
        place has a configured bonus. */
    method CreateFinishBonusEvents(playerIdsInFinishOrder: seq<string>) returns (events: seq<ScoringEvent>)
      modifies this
      ensures events == FinishEvents(playerIdsInFinishOrder, config.finishBonus)
      ensures scoringEvents == old(scoringEvents) + events
    {
      events := [];
      for i := 0 to |playerIdsInFinishOrder|
        invariant events == FinishEvents(playerIdsInFinishOrder[..i], config.finishBonus)
        invariant scoringEvents == old(scoringEvents) + events
      {
        assert playerIdsInFinishOrder[..i + 1][..i] == playerIdsInFinishOrder[..i];
        if i < |config.finishBonus| {
          var e := ScoringEvent(playerIdsInFinishOrder[i], FinishType(i), config.finishBonus[i], None, []);
          events := events + [e];
          scoringEvents := scoringEvents + [e];
        }
      }
      assert playerIdsInFinishOrder[..|playerIdsInFinishOrder|] == playerIdsInFinishOrder;
    }

    /** `calculate_total_score_for_player`. */
    function TotalScoreForPlayer(playerId: string): int
      reads this
    {
      TotalFor(scoringEvents, playerId)
    }

    /** `total_events` of `get_game_summary`. */
    function TotalEvents(): nat
      reads this
    {
      |scoringEvents|
    }

    /** `validate_scores`: false as soon as one listed score differs from the
        player's ledger total. */
    method ValidateScores(playerScores: map<string, int>) returns (valid: bool)
      ensures valid <==> ScoresConsistent(scoringEvents, playerScores)
    {
      var unchecked := playerScores.Keys;
      while unchecked != {}
        invariant unchecked <= playerScores.Keys
        invariant forall p | p in playerScores && p !in unchecked :: playerScores[p] == TotalFor(scoringEvents, p)
        decreases unchecked
      {
        var playerId :| playerId in unchecked;
        if TotalScoreForPlayer(playerId) != playerScores[playerId] {
          return false;
        }
        unchecked := unchecked - {playerId};
      }
      return true;
    }
  }

  /** The complete three-round game with the default configuration: player 1 wins
      a round worth 25 with a King Tongzi, player 2 a round worth 20, player 3 a
      round with a Dizha; they finish in that order. The totals are 225, -20 and
      340 over seven recorded events. */
  method CompleteGameFlow() returns (player1: int, player2: int, player3: int, totalEvents: nat)
    ensures player1 == 225 && player2 == -20 && player3 == 340
    ensures totalEvents == 7
  {
    var engine := new ScoreComputation(Default);
    var e1 := engine.CreateRoundWinEvent("player1", FlowRound1, 1);
    var e2 := engine.CreateSpecialBonusEvents("player1", FlowKingTongzi, 1, true);
    var e3 := engine.CreateRoundWinEvent("player2", FlowRound2, 2);
    var e4 := engine.CreateSpecialBonusEvents("player3", FlowDizha, 3, true);
    var e5 := engine.CreateFinishBonusEvents(["player1", "player2", "player3"]);
    assert engine.scoringEvents == Recorded(e1) + e2 + Recorded(e3) + e4 + e5;
    GameFlowLedger();
    player1 := engine.TotalScoreForPlayer("player1");
    player2 := engine.TotalScoreForPlayer("player2");
    player3 := engine.TotalScoreForPlayer("player3");
    totalEvents := engine.TotalEvents();
  }

  const FlowRound1: seq<Card> := [Card(Spades, Five), Card(Hearts, Ten), Card(Clubs, King), Card(Diamonds, 6)]
  const FlowRound2: seq<Card> := [Card(Spades, Ten), Card(Hearts, King)]
  const FlowKingTongzi: PlayPattern := PlayPattern(Tongzi, King, Some(Spades), [], 3, 0)
  const FlowDizha: PlayPattern := PlayPattern(PlayType.Dizha, Ace, None, [], 8, 0)

  /** The ledger of the game flow under the default bonuses, and its totals. */
  lemma GameFlowLedger()
    ensures var ledger := Recorded(RoundWinEvent("player1", FlowRound1, 1))
                          + RsSpecialBonusEvents(100, 200, 300, 400, "player1", FlowKingTongzi, 1, true)
                          + Recorded(RoundWinEvent("player2", FlowRound2, 2))
                          + RsSpecialBonusEvents(100, 200, 300, 400, "player3", FlowDizha, 3, true)
                          + FinishEvents(["player1", "player2", "player3"], [100, -40, -60]);
            && TotalFor(ledger, "player1") == 225 && TotalFor(ledger, "player2") == -20
            && TotalFor(ledger, "player3") == 340 && |ledger| == 7
  {
    BaseScoreExamples();
    var a := Recorded(RoundWinEvent("player1", FlowRound1, 1));
    var b := RsSpecialBonusEvents(100, 200, 300, 400, "player1", FlowKingTongzi, 1, true);
    var c := Recorded(RoundWinEvent("player2", FlowRound2, 2));
    var d := RsSpecialBonusEvents(100, 200, 300, 400, "player3", FlowDizha, 3, true);
    GameFlowTotals(a, b, c, d, FinishEvents(["player1", "player2", "player3"], [100, -40, -60]));
  }

  /** The totals of the game flow's ledger. */
  lemma GameFlowTotals(a: seq<ScoringEvent>, b: seq<ScoringEvent>, c: seq<ScoringEvent>, d: seq<ScoringEvent>,
                        f: seq<ScoringEvent>)
    requires |a| == |b| == |c| == |d| == 1
    requires a[0].playerId == "player1" && a[0].points == 25 && b[0].playerId == "player1" && b[0].points == 100
    requires c[0].playerId == "player2" && c[0].points == 20 && d[0].playerId == "player3" && d[0].points == 400
    requires f == FinishEvents(["player1", "player2", "player3"], [100, -40, -60])
    ensures TotalFor(a + b + c + d + f, "player1") == 225
    ensures TotalFor(a + b + c + d + f, "player2") == -20
    ensures TotalFor(a + b + c + d + f, "player3") == 340
    ensures |a + b + c + d + f| == 7
  {
    var order := ["player1", "player2", "player3"];
    assert forall x, y | 0 <= x < y < |order| :: order[x] != order[y];
    FinishBonusCredit(order, [100, -40, -60], 0);
    FinishBonusCredit(order, [100, -40, -60], 1);
    FinishBonusCredit(order, [100, -40, -60], 2);
    TotalOfFive(a, b, c, d, f, "player1");
    TotalOfFive(a, b, c, d, f, "player2");
    TotalOfFive(a, b, c, d, f, "player3");
    TotalForAtMostOne(a, "player1");
    TotalForAtMostOne(a, "player2");
    TotalForAtMostOne(a, "player3");
    TotalForAtMostOne(b, "player1");
    TotalForAtMostOne(b, "player2");
    TotalForAtMostOne(b, "player3");
    TotalForAtMostOne(c, "player1");
    TotalForAtMostOne(c, "player2");
    TotalForAtMostOne(c, "player3");
    TotalForAtMostOne(d, "player1");
    TotalForAtMostOne(d, "player2");
    TotalForAtMostOne(d, "player3");
  }

  lemma TotalOfFive(a: seq<ScoringEvent>, b: seq<ScoringEvent>, c: seq<ScoringEvent>, d: seq<ScoringEvent>,
                    e: seq<ScoringEvent>, p: string)
    ensures TotalFor(a + b + c + d + e, p) == TotalFor(a, p) + TotalFor(b, p) + TotalFor(c, p) + TotalFor(d, p) + TotalFor(e, p)
  {
    TotalForAppend(a + b + c + d, e, p);
    TotalForAppend(a + b + c, d, p);
    TotalForAppend(a + b, c, p);
    TotalForAppend(a, b, p);
  }

  /** In a custom game every place has a bonus, so once all players have finished
      the finish events hand out no net points. */
  lemma CustomGameFinishIsZeroSum(ids: seq<string>, n: U8)
    requires n >= 2 && |ids| >= n
    ensures TotalPoints(FinishEvents(ids, RsConfigFactory.DefaultFinishBonus(n))) == 0
  {
    FinishPointsTotal(ids, RsConfigFactory.DefaultFinishBonus(n));
    RsConfigFactory.DefaultFinishBonusIsZeroSum(n);
  }
}

/**
 * Python's `ScoringEngine`: a configuration and the `scoring_events` list that
 * every `create_*` method appends to. The totals are sums over that list.
 */
module PyScoring {
  import opened Wrappers
  import opened Cards
  import opened Patterns
  import opened ScoringLedger
  import opened PyConfig

  class ScoringEngine {
    const config: GameConfig
    var scoringEvents: seq<ScoringEvent>

    constructor (config: GameConfig)
      ensures this.config == config && scoringEvents == []
    {
      this.config := config;
      scoringEvents := [];
    }

    /** `calculate_round_base_score`: add up the score value of every scoring card. */
    method CalculateRoundBaseScore(cards: seq<Card>) returns (totalScore: int)
      ensures totalScore == BaseScore(cards)
      ensures totalScore == 0 <==> forall i | 0 <= i < |cards| :: !IsScoringCard(cards[i])
    {
      totalScore := 0;
      for i := 0 to |cards|
        invariant totalScore == BaseScore(cards[..i])
      {
        assert cards[..i + 1][..i] == cards[..i];
        if IsScoringCard(cards[i]) {
          totalScore := totalScore + ScoreValue(cards[i]);
        }
      }
      assert cards[..|cards|] == cards;
      BaseScoreZero(cards);
    }

    /** `create_round_win_event`: record and return one round-win event worth the
        base score, or nothing when the cards are worth nothing. */
    method CreateRoundWinEvent(playerId: string, roundCards: seq<Card>, roundNumber: int)
      returns (event: Option<ScoringEvent>)
      modifies this
      ensures event == RoundWinEvent(playerId, roundCards, roundNumber)
      ensures scoringEvents == old(scoringEvents) + Recorded(event)
    {
      var baseScore := CalculateRoundBaseScore(roundCards);
      if baseScore > 0 {
        var e := ScoringEvent(playerId, RoundWin, baseScore, Some(roundNumber), ScoringCards(roundCards));
        scoringEvents := scoringEvents + [e];
        return Some(e);
      }
      return None;
    }

    /** `create_special_bonus_events`: record and return the Tongzi or Dizha bonus
        of the round-winning play. */
    method CreateSpecialBonusEvents(playerId: string, winningPattern: PlayPattern, roundNumber: int,
                                    isRoundWinningPlay: bool) returns (events: seq<ScoringEvent>)
      modifies this
      ensures events == PySpecialBonusEvents(config.kTongziBonus, config.aTongziBonus, config.twoTongziBonus,
                                             config.dizhaBonus, playerId, winningPattern, roundNumber,
                                             isRoundWinningPlay)
      ensures scoringEvents == old(scoringEvents) + events
    {
      events := [];
      if !isRoundWinningPlay {
        return;
      }
      if winningPattern.playType == Tongzi {
        // `_get_tongzi_bonus` gives 0 for a rank other than King, Ace and Two.
        var bonus := TongziBonus(config.kTongziBonus, config.aTongziBonus, config.twoTongziBonus,
                                 winningPattern.primaryRank);
        if bonus.Some? && bonus.value.0 > 0 {
          var e := ScoringEvent(playerId, bonus.value.1, bonus.value.0, Some(roundNumber), []);
          events := events + [e];
          scoringEvents := scoringEvents + [e];
        }
      } else if winningPattern.playType == PlayType.Dizha {
        var e := ScoringEvent(playerId, BonusType.Dizha, config.dizhaBonus, Some(roundNumber), []);
        events := events + [e];
        scoringEvents := scoringEvents + [e];
      }
    }

    /** `create_finish_bonus_events`: one event per player in finish order whose
        place has a configured bonus. */
    method CreateFinishBonusEvents(playerIdsInFinishOrder: seq<string>) returns (events: seq<ScoringEvent>)
      modifies this
      ensures events == FinishEvents(playerIdsInFinishOrder, config.finishBonus)
      ensures scoringEvents == old(scoringEvents) + events
    {
      events := [];
      for i := 0 to |playerIdsInFinishOrder|
        invariant events == FinishEvents(playerIdsInFinishOrder[..i], config.finishBonus)
        invariant scoringEvents == old(scoringEvents) + events
      {
        assert playerIdsInFinishOrder[..i + 1][..i] == playerIdsInFinishOrder[..i];
        if i < |config.finishBonus| {
          var e := ScoringEvent(playerIdsInFinishOrder[i], FinishType(i), config.finishBonus[i], None, []);
          events := events + [e];
          scoringEvents := scoringEvents + [e];
        }
      }
      assert playerIdsInFinishOrder[..|playerIdsInFinishOrder|] == playerIdsInFinishOrder;
    }

    /** `calculate_total_score_for_player`. */
    function TotalScoreForPlayer(playerId: string): int
      reads this
    {
      TotalFor(scoringEvents, playerId)
    }

    /** `validate_scores`: every given score must equal the player's ledger total. */
    method ValidateScores(playerScores: map<string, int>) returns (valid: bool)
      ensures valid <==> ScoresConsistent(scoringEvents, playerScores)
    {
      var unchecked := playerScores.Keys;
      while unchecked != {}
        invariant unchecked <= playerScores.Keys
        invariant forall p | p in playerScores && p !in unchecked :: playerScores[p] == TotalFor(scoringEvents, p)
        decreases unchecked
      {
        var playerId :| playerId in unchecked;
        if TotalScoreForPlayer(playerId) != playerScores[playerId] {
          return false;
        }
        unchecked := unchecked - {playerId};
      }
      return true;
    }
  }
}

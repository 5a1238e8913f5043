/**
 * `GameState` and `GameSimulator`: the mutable game state and the methods that
 * update it step by step. Each method is proved to perform the transition of
 * `GameRules` on the state's snapshot; the properties are proved there.
 */
module Simulation {
  import opened Wrappers
  import opened Cards
  import opened Patterns
  import opened Recognizer
  import opened Validator
  import opened Sorting
  import opened ScoringLedger
  import opened PyConfig
  import opened GameRules
  import PyScoring

  class GameState {
    const config: GameConfig
    const playerIds: seq<string>
    var playerHands: map<string, seq<Card>>
    const asideCards: seq<Card>
    const scoringEngine: PyScoring.ScoringEngine
    var currentRound: int
    var currentPlayerIndex: int
    var currentRoundPlays: seq<RoundPlay>
    var currentBestPlay: Option<PlayPattern>
    var lastPlayerWhoPlayed: Option<string>
    var consecutivePasses: int
    var finishedPlayers: seq<string>
    var roundLogs: seq<RoundLog>
    var gameOver: bool

    /** The dataclass constructor: the given hands and starting seat, round 1,
        an empty table and no finishers. */
    constructor (config: GameConfig, playerIds: seq<string>, playerHands: map<string, seq<Card>>,
                 asideCards: seq<Card>, scoringEngine: PyScoring.ScoringEngine, currentPlayerIndex: int)
      ensures this.config == config && this.playerIds == playerIds && this.asideCards == asideCards
      ensures this.scoringEngine == scoringEngine
      ensures View() == Snapshot(playerHands, 1, currentPlayerIndex, [], None, None, 0, [], [], false,
                                 scoringEngine.scoringEvents)
    {
      this.config := config;
      this.playerIds := playerIds;
      this.playerHands := playerHands;
      this.asideCards := asideCards;
      this.scoringEngine := scoringEngine;
      this.currentRound := 1;
      this.currentPlayerIndex := currentPlayerIndex;
      this.currentRoundPlays := [];
      this.currentBestPlay := None;
      this.lastPlayerWhoPlayed := None;
      this.consecutivePasses := 0;
      this.finishedPlayers := [];
      this.roundLogs := [];
      this.gameOver := false;
    }

    /** The fields the transitions change, with the scoring engine's ledger. */
    function View(): Snapshot
      reads this, scoringEngine
    {
      Snapshot(playerHands, currentRound, currentPlayerIndex, currentRoundPlays, currentBestPlay,
               lastPlayerWhoPlayed, consecutivePasses, finishedPlayers, roundLogs, gameOver,
               scoringEngine.scoringEvents)
    }

    /** `get_current_player`. */
    function GetCurrentPlayer(): string
      reads this
      requires 0 <= currentPlayerIndex < |playerIds|
    {
      playerIds[currentPlayerIndex]
    }

    /** `advance_to_next_player`: one seat on, and nothing else. */
    method AdvanceToNextPlayer()
      requires |playerIds| > 0
      modifies this
      ensures View() == old(View()).(currentPlayerIndex := NextIndex(old(currentPlayerIndex), |playerIds|))
    {
      currentPlayerIndex := NextIndex(currentPlayerIndex, |playerIds|);
    }
  }

  class GameSimulator {
    const state: GameState

    /** The simulator over a dealt game; dealing is not part of this model. */
    constructor (state: GameState)
      ensures this.state == state
    {
      this.state := state;
    }

    /** `_execute_player_action`. */
    method ExecutePlayerAction(playerId: string, cardsToPlay: Option<seq<Card>>, actionNumber: int)
      returns (r: Result<(), ActionError>)
      requires playerId in state.playerHands
      modifies state
      ensures (state.View(), r) == ActionOutcome(old(state.View()), playerId, cardsToPlay, actionNumber)
    {
      var handSizeBefore := |state.playerHands[playerId]|;
      if handSizeBefore == 0 {
        state.roundLogs := state.roundLogs + [RoundLog(state.currentRound, actionNumber, playerId, SkipNoCards,
                                                       [], None, 0, 0, false)];
        return Ok(());
      }
      if cardsToPlay.None? || |cardsToPlay.value| == 0 {
        state.consecutivePasses := state.consecutivePasses + 1;
        state.roundLogs := state.roundLogs + [RoundLog(state.currentRound, actionNumber, playerId, Pass,
                                                       [], None, handSizeBefore, handSizeBefore, false)];
        return Ok(());
      }
      var cards := cardsToPlay.value;
      var pattern := AnalyzeCards(cards);
      if pattern.None? {
        return Err(InvalidPattern);
      }
      if !CanBeatPlay(cards, state.currentBestPlay) {
        return Err(CannotBeat);
      }
      r := PlayValidCards(playerId, cards, pattern.value, actionNumber);
    }

    /** The part of `_execute_player_action` after validation: remove the cards
        one by one, then record the play and a possible finish. */
    method PlayValidCards(playerId: string, cards: seq<Card>, pattern: PlayPattern, actionNumber: int)
      returns (r: Result<(), ActionError>)
      requires playerId in state.playerHands
      modifies state
      ensures (state.View(), r) == PlayCards(old(state.View()), playerId, cards, pattern, actionNumber)
    {
      var handSizeBefore := |state.playerHands[playerId]|;
      var missing := RemovePlayedCards(playerId, cards);
      if missing.Some? {
        return Err(CardNotInHand(missing.value));
      }
      var rest := state.playerHands[playerId];
      state.currentBestPlay := Some(pattern);
      state.lastPlayerWhoPlayed := Some(playerId);
      state.currentRoundPlays := state.currentRoundPlays + [RoundPlay(playerId, cards, pattern)];
      state.consecutivePasses := 0;
      state.roundLogs := state.roundLogs + [RoundLog(state.currentRound, actionNumber, playerId, Play, cards,
                                                     Some(pattern), handSizeBefore, |rest|, false)];
      if |rest| == 0 && playerId !in state.finishedPlayers {
        state.finishedPlayers := state.finishedPlayers + [playerId];
      }
      return Ok(());
    }

    /** The `hand.remove` loop: stops at the first card that is not in the hand. */
    method RemovePlayedCards(playerId: string, cards: seq<Card>) returns (missing: Option<Card>)
      requires playerId in state.playerHands
      modifies state
      ensures var (rest, m) := RemoveCards(old(state.playerHands[playerId]), cards);
              && missing == m
              && state.View() == old(state.View()).(playerHands := old(state.playerHands)[playerId := rest])
    {
      var hand := state.playerHands[playerId];
      for i := 0 to |cards|
        invariant playerId in state.playerHands
        invariant RemoveCards(hand, cards) == RemoveCards(state.playerHands[playerId], cards[i..])
        invariant state.View() == old(state.View()).(playerHands := old(state.playerHands)[playerId := state.playerHands[playerId]])
      {
        var card := cards[i];
        assert cards[i..] == [card] + cards[i + 1..];
        if card !in state.playerHands[playerId] {
          return Some(card);
        }
        state.playerHands := state.playerHands[playerId := RemoveFirst(state.playerHands[playerId], card)];
      }
      return None;
    }

    /** `_check_round_end`. */
    method CheckRoundEnd() returns (ended: bool)
      ensures ended <==> RoundEnds(state.playerIds, state.View())
    {
      var activePlayers := ActivePlayers(state.playerIds, state.finishedPlayers);
      if |activePlayers| <= 1 {
        return true;
      }
      if state.consecutivePasses >= |activePlayers| - 1 {
        return true;
      }
      return false;
    }

    /** `_check_game_end`. */
    method CheckGameEnd() returns (ended: bool)
      ensures ended <==> GameEnds(state.playerIds, state.View())
    {
      return |ActivePlayers(state.playerIds, state.finishedPlayers)| <= 1;
    }

    /** `_find_next_active_player`: the first unfinished seat after `startIdx`;
        a finished seat comes back only when every player has finished. */
    method FindNextActivePlayer(startIdx: nat) returns (next: nat)
      requires startIdx < |state.playerIds|
      ensures next == NextActive(state.playerIds, state.finishedPlayers, startIdx)
      ensures next < |state.playerIds|
      ensures state.playerIds[next] in state.finishedPlayers ==>
                next == startIdx && forall q | q in state.playerIds :: q in state.finishedPlayers
    {
      NextActiveSpec(state.playerIds, state.finishedPlayers, startIdx);
      var n := |state.playerIds|;
      for i := 1 to n + 1
        invariant NextActiveFrom(state.playerIds, state.finishedPlayers, startIdx, i)
                  == NextActive(state.playerIds, state.finishedPlayers, startIdx)
      {
        var nextIdx := (startIdx + i) % n;
        if state.playerIds[nextIdx] !in state.finishedPlayers {
          return nextIdx;
        }
      }
      return startIdx;
    }

    /** `_start_new_round`. */
    method StartNewRound()
      requires LeadKnown(state.playerIds, state.View())
      modifies state
      ensures state.View() == NewRound(state.playerIds, old(state.View()))
    {
      state.currentRound := state.currentRound + 1;
      state.currentRoundPlays := [];
      state.currentBestPlay := None;
      state.consecutivePasses := 0;
      if state.lastPlayerWhoPlayed.Some? && state.lastPlayerWhoPlayed.value != "" {
        var winnerIdx := IndexOf(state.playerIds, state.lastPlayerWhoPlayed.value);
        if state.lastPlayerWhoPlayed.value in state.finishedPlayers {
          state.currentPlayerIndex := FindNextActivePlayer(winnerIdx);
        } else {
          state.currentPlayerIndex := winnerIdx;
        }
      }
    }

    /** The backwards search of `_end_round` over the logs. */
    method MarkRoundWinner(lastActionNumber: int, winnerId: string)
      modifies state
      ensures state.View() == old(state.View()).(roundLogs := MarkWinner(old(state.roundLogs), lastActionNumber, winnerId))
    {
      state.roundLogs := MarkedLogs(state.roundLogs, lastActionNumber, winnerId);
    }

    /** `_end_round`. */
    method EndRound(lastActionNumber: int)
      requires LeadKnown(state.playerIds, state.View())
      modifies state, state.scoringEngine
      ensures state.View() == RoundAwarded(state.playerIds, state.scoringEngine.config, old(state.View()),
                                           lastActionNumber)
    {
      if state.lastPlayerWhoPlayed.None? {
        StartNewRound();
        return;
      }
      ghost var v := state.View();
      var winnerId := state.lastPlayerWhoPlayed.value;
      var winningPattern := state.currentBestPlay;
      MarkRoundWinner(lastActionNumber, winnerId);
      var roundCards := CollectRoundCards(state.currentRoundPlays);
      var roundEvent := state.scoringEngine.CreateRoundWinEvent(winnerId, roundCards, state.currentRound);
      ghost var bonus: seq<ScoringEvent> := [];
      if winningPattern.Some? {
        bonus := state.scoringEngine.CreateSpecialBonusEvents(winnerId, winningPattern.value,
                                                              state.currentRound, true);
      }
      assert bonus == RoundBonus(state.scoringEngine.config, winnerId, winningPattern, v.currentRound);
      assert state.View() == v.(roundLogs := MarkWinner(v.roundLogs, lastActionNumber, winnerId),
                                events := v.events + Recorded(roundEvent) + bonus);
      StartNewRound();
    }

    /** `_end_game`: the finish bonuses, then the game is over. */
    method EndGame()
      modifies state, state.scoringEngine
      ensures state.View() == GameFinished(state.scoringEngine.config, old(state.View()))
    {
      var finishEvents := state.scoringEngine.CreateFinishBonusEvents(state.finishedPlayers);
      state.gameOver := true;
    }

    /** One pass through the body of `play_full_game`'s loop, given the
        strategy's decision for the current player. */
    method PlayTurn(decision: Option<seq<Card>>, actionCount: int) returns (newCount: int, r: Result<(), ActionError>)
      requires Wellformed(state.playerIds, state.View())
      modifies state, state.scoringEngine
      ensures (state.View(), newCount, r)
              == Turn(state.playerIds, state.scoringEngine.config, old(state.View()), decision, actionCount)
    {
      var currentPlayer := state.GetCurrentPlayer();
      if currentPlayer in state.finishedPlayers {
        state.AdvanceToNextPlayer();
        return actionCount, Ok(());
      }
      newCount := actionCount + 1;
      r := ExecutePlayerAction(currentPlayer, decision, newCount);
      if r.Ok? {
        FinishTurn(newCount);
      }
    }

    /** The rest of the loop body after an action: end the round, end the game,
        or move on a seat. */
    method FinishTurn(actionNumber: int)
      requires LeadKnown(state.playerIds, state.View())
      modifies state, state.scoringEngine
      ensures state.View() == AfterAction(state.playerIds, state.scoringEngine.config, old(state.View()), actionNumber)
    {
      var roundOver := CheckRoundEnd();
      if roundOver {
        EndRound(actionNumber);
      }
      var gameOver := CheckGameEnd();
      if gameOver {
        EndGame();
        return;
      }
      state.AdvanceToNextPlayer();
    }
  }

  /** The logs after the backwards search of `_end_round`, which stops at the
      first entry from the end with the final action number or the winner's id. */
  method MarkedLogs(logs: seq<RoundLog>, lastActionNumber: int, winnerId: string) returns (marked: seq<RoundLog>)
    ensures marked == MarkWinner(logs, lastActionNumber, winnerId)
  {
    var k := |logs|;
    assert logs[..k] == logs;
    while k > 0
      invariant 0 <= k <= |logs|
      invariant MarkWinner(logs, lastActionNumber, winnerId) == MarkWinner(logs[..k], lastActionNumber, winnerId) + logs[k..]
      decreases k
    {
      k := k - 1;
      assert logs[..k + 1][..k] == logs[..k];
      assert logs[..k + 1][k] == logs[k];
      if MarksWinner(logs[k], lastActionNumber, winnerId) {
        marked := logs[k := logs[k].(isRoundWinner := true)];
        assert marked == logs[..k] + [logs[k].(isRoundWinner := true)] + logs[k + 1..];
        return;
      }
      assert logs[k..] == [logs[k]] + logs[k + 1..];
    }
    assert logs[..0] == [];
    return logs;
  }

  /** The cards of every play of the round, collected in order. */
  method CollectRoundCards(plays: seq<RoundPlay>) returns (roundCards: seq<Card>)
    ensures roundCards == RoundCards(plays)
  {
    roundCards := [];
    for i := 0 to |plays|
      invariant roundCards == RoundCards(plays[..i])
    {
      assert plays[..i + 1][..i] == plays[..i];
      roundCards := roundCards + plays[i].cards;
    }
    assert plays[..|plays|] == plays;
  }
}

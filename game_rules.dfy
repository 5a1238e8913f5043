/**
 * The deterministic rules of `GameSimulator`, stated over a snapshot of the
 * game: a player's action (skip, pass or play), the round-end and game-end
 * tests, awarding a round, starting the next one, ending the game, and one
 * pass through the body of the game loop. The classes in `Simulation` are
 * proved to perform exactly these transitions.
 */
module GameRules {
  import opened Wrappers
  import opened Cards
  import opened Patterns
  import opened Recognizer
  import opened Validator
  import opened Sorting
  import opened ScoringLedger
  import opened PyConfig

  datatype PlayerAction = Play | Pass | SkipNoCards

  /** One logged action of a round (the reason text is left out). */
  datatype RoundLog = RoundLog(
    roundNumber: int,
    actionNumber: int,
    playerId: string,
    action: PlayerAction,
    cardsPlayed: seq<Card>,
    pattern: Option<PlayPattern>,
    handSizeBefore: nat,
    handSizeAfter: nat,
    isRoundWinner: bool)

  /** An entry of `current_round_plays`. */
  datatype RoundPlay = RoundPlay(playerId: string, cards: seq<Card>, pattern: PlayPattern)

  /** The `ValueError`s `_execute_player_action` raises. */
  datatype ActionError = InvalidPattern | CannotBeat | CardNotInHand(card: Card)

  /** Every `GameState` field the transitions change, with the scoring ledger. */
  datatype Snapshot = Snapshot(
    playerHands: map<string, seq<Card>>,
    currentRound: int,
    currentPlayerIndex: int,
    currentRoundPlays: seq<RoundPlay>,
    currentBestPlay: Option<PlayPattern>,
    lastPlayerWhoPlayed: Option<string>,
    consecutivePasses: int,
    finishedPlayers: seq<string>,
    roundLogs: seq<RoundLog>,
    gameOver: bool,
    events: seq<ScoringEvent>)

  predicate NoDuplicates(s: seq<string>) {
    forall i, j | 0 <= i < j < |s| :: s[i] != s[j]
  }

  /** What the transitions rely on: a seat for the current player, a hand for
      every player, a known last player, and finishers listed once with empty hands. */
  predicate Wellformed(ids: seq<string>, v: Snapshot) {
    && |ids| > 0
    && 0 <= v.currentPlayerIndex < |ids|
    && (forall p | p in ids :: p in v.playerHands)
    && (v.lastPlayerWhoPlayed.Some? ==> v.lastPlayerWhoPlayed.value in ids)
    && NoDuplicates(v.finishedPlayers)
    && (forall p | p in v.finishedPlayers :: p in ids && p in v.playerHands && v.playerHands[p] == [])
  }

  /** What starting a round needs: a table, and a last player who is seated. */
  predicate LeadKnown(ids: seq<string>, v: Snapshot) {
    |ids| > 0 && (v.lastPlayerWhoPlayed.Some? ==> v.lastPlayerWhoPlayed.value in ids)
  }

  // ---------------------------------------------------------------------------
  // GameState helpers

  /** `get_next_player_index`. */
  function NextIndex(i: int, n: int): int
    requires n > 0
  {
    (i + 1) % n
  }

  /** `get_active_players`: the players, in seating order, not yet finished. */
  function ActivePlayers(ids: seq<string>, finished: seq<string>): (r: seq<string>)
    ensures |r| <= |ids|
  {
    if ids == [] then []
    else (if ids[0] in finished then [] else [ids[0]]) + ActivePlayers(ids[1..], finished)
  }

  /** `list.index`: the first seat of a player. */
  function IndexOf(ids: seq<string>, p: string): (r: nat)
    requires p in ids
    ensures r < |ids| && ids[r] == p && forall j | 0 <= j < r :: ids[j] != p
  {
    if ids[0] == p then 0 else 1 + IndexOf(ids[1..], p)
  }

  /** The seat `k` places after `start`, going round the table. */
  function Seat(start: int, k: int, n: int): int
    requires n > 0
  {
    (start + k) % n
  }

  /** `_find_next_active_player` from its `i`-th step on. */
  function NextActiveFrom(ids: seq<string>, finished: seq<string>, start: nat, i: nat): (r: nat)
    requires start < |ids| && i >= 1
    ensures r < |ids|
    decreases |ids| + 1 - i
  {
    if i > |ids| then start
    else if ids[Seat(start, i, |ids|)] !in finished then Seat(start, i, |ids|)
    else NextActiveFrom(ids, finished, start, i + 1)
  }

  /** `_find_next_active_player`: the first unfinished seat after `start`, or
      `start` itself when there is none. */
  function NextActive(ids: seq<string>, finished: seq<string>, start: nat): (r: nat)
    requires start < |ids|
    ensures r < |ids|
  {
    NextActiveFrom(ids, finished, start, 1)
  }

  // ---------------------------------------------------------------------------
  // A player's action

  /** The hand after `hand.remove` for each played card in turn, with the card
      that was missing when the loop stopped early. */
  function RemoveCards(hand: seq<Card>, cards: seq<Card>): (seq<Card>, Option<Card>)
    decreases |cards|
  {
    if cards == [] then (hand, None)
    else if cards[0] !in hand then (hand, Some(cards[0]))
    else RemoveCards(RemoveFirst(hand, cards[0]), cards[1..])
  }

  /** The outcome of a recognised play that beats the table: the cards leave
      the hand one by one, and only when all were there does the round record it. */
  function PlayCards(v: Snapshot, playerId: string, cards: seq<Card>, pattern: PlayPattern,
                     actionNumber: int): (Snapshot, Result<(), ActionError>)
    requires playerId in v.playerHands
  {
    var hand := v.playerHands[playerId];
    var (rest, missing) := RemoveCards(hand, cards);
    if missing.Some? then
      (v.(playerHands := v.playerHands[playerId := rest]), Err(CardNotInHand(missing.value)))
    else
      var log := RoundLog(v.currentRound, actionNumber, playerId, Play, cards, Some(pattern), |hand|, |rest|, false);
      (v.(playerHands := v.playerHands[playerId := rest],
          currentBestPlay := Some(pattern),
          lastPlayerWhoPlayed := Some(playerId),
          currentRoundPlays := v.currentRoundPlays + [RoundPlay(playerId, cards, pattern)],
          consecutivePasses := 0,
          roundLogs := v.roundLogs + [log],
          finishedPlayers := if |rest| == 0 && playerId !in v.finishedPlayers
                             then v.finishedPlayers + [playerId] else v.finishedPlayers),
       Ok(()))
  }

  /** `_execute_player_action`: skip with an empty hand, pass on no cards,
      reject an unrecognised or too weak play, otherwise play it. */
  function ActionOutcome(v: Snapshot, playerId: string, cards: Option<seq<Card>>, actionNumber: int)
    : (o: (Snapshot, Result<(), ActionError>))
    requires playerId in v.playerHands
    ensures o.0.lastPlayerWhoPlayed == v.lastPlayerWhoPlayed || o.0.lastPlayerWhoPlayed == Some(playerId)
  {
    var hand := v.playerHands[playerId];
    if |hand| == 0 then
      (v.(roundLogs := v.roundLogs + [RoundLog(v.currentRound, actionNumber, playerId, SkipNoCards, [], None, 0, 0, false)]),
       Ok(()))
    else if cards.None? || |cards.value| == 0 then
      (v.(consecutivePasses := v.consecutivePasses + 1,
          roundLogs := v.roundLogs + [RoundLog(v.currentRound, actionNumber, playerId, Pass, [], None,
                                               |hand|, |hand|, false)]),
       Ok(()))
    else if AnalyzeCards(cards.value).None? then (v, Err(InvalidPattern))
    else if !CanBeatPlay(cards.value, v.currentBestPlay) then (v, Err(CannotBeat))
    else PlayCards(v, playerId, cards.value, AnalyzeCards(cards.value).value, actionNumber)
  }

  // ---------------------------------------------------------------------------
  // Rounds and the end of the game

  /** `_check_round_end`: at most one player left, or all but one have passed. */
  predicate RoundEnds(ids: seq<string>, v: Snapshot) {
    var active := |ActivePlayers(ids, v.finishedPlayers)|;
    active <= 1 || v.consecutivePasses >= active - 1
  }

  /** `_check_game_end`. */
  predicate GameEnds(ids: seq<string>, v: Snapshot) {
    |ActivePlayers(ids, v.finishedPlayers)| <= 1
  }

  /** The cards of every play of the round, in order. */
  function RoundCards(plays: seq<RoundPlay>): seq<Card> {
    if plays == [] then [] else RoundCards(plays[..|plays| - 1]) + plays[|plays| - 1].cards
  }

  predicate MarksWinner(log: RoundLog, lastActionNumber: int, winner: string) {
    log.actionNumber == lastActionNumber || log.playerId == winner
  }

  /** The backwards search of `_end_round` that flags one log entry as the round's win. */
  function MarkWinner(logs: seq<RoundLog>, lastActionNumber: int, winner: string): (r: seq<RoundLog>)
    ensures |r| == |logs|
  {
    if logs == [] then []
    else
      var last := logs[|logs| - 1];
      if MarksWinner(last, lastActionNumber, winner) then logs[..|logs| - 1] + [last.(isRoundWinner := true)]
      else MarkWinner(logs[..|logs| - 1], lastActionNumber, winner) + [last]
  }

  /** `_start_new_round`: the next round number and an empty table; the lead goes
      to the last player who played, or past them when they have finished. */
  function NewRound(ids: seq<string>, v: Snapshot): Snapshot
    requires LeadKnown(ids, v)
  {
    var v1 := v.(currentRound := v.currentRound + 1, currentRoundPlays := [], currentBestPlay := None,
                 consecutivePasses := 0);
    // A player id is tested for truth, so the empty string counts as nobody.
    if v.lastPlayerWhoPlayed.Some? && v.lastPlayerWhoPlayed.value != "" then
      var winnerIndex := IndexOf(ids, v.lastPlayerWhoPlayed.value);
      if v.lastPlayerWhoPlayed.value in v.finishedPlayers then
        v1.(currentPlayerIndex := NextActive(ids, v.finishedPlayers, winnerIndex))
      else v1.(currentPlayerIndex := winnerIndex)
    else v1
  }

  /** The special bonus events `_end_round` records for the winning pattern. */
  function RoundBonus(config: GameConfig, winner: string, best: Option<PlayPattern>, roundNumber: int)
    : seq<ScoringEvent>
  {
    if best.Some? then
      PySpecialBonusEvents(config.kTongziBonus, config.aTongziBonus, config.twoTongziBonus, config.dizhaBonus,
                           winner, best.value, roundNumber, true)
    else []
  }

  /** `_end_round`: with a last player, flag the winning log entry and record the
      round's base score and the winning pattern's bonus; then start a new round. */
  function RoundAwarded(ids: seq<string>, config: GameConfig, v: Snapshot, lastActionNumber: int): Snapshot
    requires LeadKnown(ids, v)
  {
    if v.lastPlayerWhoPlayed.None? then NewRound(ids, v)
    else
      var winner := v.lastPlayerWhoPlayed.value;
      var won := Recorded(RoundWinEvent(winner, RoundCards(v.currentRoundPlays), v.currentRound));
      var bonus := RoundBonus(config, winner, v.currentBestPlay, v.currentRound);
      NewRound(ids, v.(roundLogs := MarkWinner(v.roundLogs, lastActionNumber, winner),
                       events := v.events + won + bonus))
  }

  /** `_end_game`: record the finish bonuses in finishing order and stop. */
  function GameFinished(config: GameConfig, v: Snapshot): Snapshot {
    v.(events := v.events + FinishEvents(v.finishedPlayers, config.finishBonus), gameOver := true)
  }

  /** The rest of the loop body after an action that raised nothing: end the
      round when it is over, end the game when it is over, otherwise move on a seat. */
  function AfterAction(ids: seq<string>, config: GameConfig, v: Snapshot, actionNumber: int): Snapshot
    requires LeadKnown(ids, v)
  {
    var v1 := if RoundEnds(ids, v) then RoundAwarded(ids, config, v, actionNumber) else v;
    if GameEnds(ids, v1) then GameFinished(config, v1)
    else v1.(currentPlayerIndex := NextIndex(v1.currentPlayerIndex, |ids|))
  }

  /** One pass through the body of `play_full_game`'s loop, with the strategy's
      decision as a parameter: the new state, the action counter and any error raised. */
  function Turn(ids: seq<string>, config: GameConfig, v: Snapshot, decision: Option<seq<Card>>, actionCount: int)
    : (Snapshot, int, Result<(), ActionError>)
    requires Wellformed(ids, v)
  {
    var player := ids[v.currentPlayerIndex];
    if player in v.finishedPlayers then
      (v.(currentPlayerIndex := NextIndex(v.currentPlayerIndex, |ids|)), actionCount, Ok(()))
    else
      var (v1, r) := ActionOutcome(v, player, decision, actionCount + 1);
      if r.Err? then (v1, actionCount + 1, r)
      else (AfterAction(ids, config, v1, actionCount + 1), actionCount + 1, Ok(()))
  }

  // ---------------------------------------------------------------------------
  // Seats and active players

  /** A sum of two seats wraps at most once. */
  lemma ModSmall(j: int, n: int)
    requires 0 < n && 0 <= j < 2 * n
    ensures j % n == if j < n then j else j - n
  {
    if j >= n {
      assert j == 1 * n + (j - n);
    }
  }

  /** `get_next_player_index` moves one seat on, from the last seat back to the first. */
  lemma NextIndexSpec(i: int, n: int)
    requires 0 <= i < n
    ensures NextIndex(i, n) == if i == n - 1 then 0 else i + 1
  {
    ModSmall(i + 1, n);
  }

  /** A player is active exactly when seated and not finished. */
  lemma {:induction false} ActivePlayersSpec(ids: seq<string>, finished: seq<string>)
    ensures forall p :: p in ActivePlayers(ids, finished) <==> p in ids && p !in finished
  {
    if ids != [] {
      ActivePlayersSpec(ids[1..], finished);
      assert ids == [ids[0]] + ids[1..];
    }
  }

  lemma {:induction false} ActiveCountSet(ids: seq<string>, finished: seq<string>)
    requires NoDuplicates(ids)
    ensures |ActivePlayers(ids, finished)| + |(set p | p in ids && p in finished)| == |ids|
  {
    if ids != [] {
      NoDuplicatesTail(ids);
      ActiveCountSet(ids[1..], finished);
      FinishedSetCons(ids, finished);
    }
  }

  lemma NoDuplicatesTail(ids: seq<string>)
    requires NoDuplicates(ids) && ids != []
    ensures NoDuplicates(ids[1..]) && ids[0] !in ids[1..]
  {
    var rest := ids[1..];
    forall i, j | 0 <= i < j < |rest| ensures rest[i] != rest[j] {
      assert rest[i] == ids[i + 1] && rest[j] == ids[j + 1];
    }
    forall j | 0 <= j < |rest| ensures rest[j] != ids[0] {
      assert rest[j] == ids[j + 1];
    }
  }

  lemma FinishedSetCons(ids: seq<string>, finished: seq<string>)
    requires ids != [] && ids[0] !in ids[1..]
    ensures var below := set p | p in ids[1..] && p in finished;
            if ids[0] in finished then
              (set p | p in ids && p in finished) == below + {ids[0]} && ids[0] !in below
            else (set p | p in ids && p in finished) == below
  {
    assert ids == [ids[0]] + ids[1..];
  }

  lemma {:induction false} DistinctCard(s: seq<string>)
    requires NoDuplicates(s)
    ensures |(set p | p in s)| == |s|
  {
    if s != [] {
      var init := s[..|s| - 1];
      assert NoDuplicates(init) by {
        forall i, j | 0 <= i < j < |init| ensures init[i] != init[j] {
          assert init[i] == s[i] && init[j] == s[j];
        }
      }
      DistinctCard(init);
      assert s[|s| - 1] !in init by {
        forall j | 0 <= j < |init| ensures init[j] != s[|s| - 1] {
          assert init[j] == s[j];
        }
      }
      assert s == init + [s[|s| - 1]];
      assert (set p | p in s) == (set p | p in init) + {s[|s| - 1]};
    }
  }

  /** With distinct players, every finisher removes exactly one active player. */
  lemma ActiveCount(ids: seq<string>, finished: seq<string>)
    requires NoDuplicates(ids) && NoDuplicates(finished)
    requires forall p | p in finished :: p in ids
    ensures |ActivePlayers(ids, finished)| == |ids| - |finished|
  {
    ActiveCountSet(ids, finished);
    DistinctCard(finished);
    assert (set p | p in ids && p in finished) == (set p | p in finished);
  }

  /** `_check_game_end` holds exactly when all players but at most one have finished. */
  lemma GameEndsSpec(ids: seq<string>, v: Snapshot)
    requires Wellformed(ids, v) && NoDuplicates(ids)
    ensures GameEnds(ids, v) <==> |v.finishedPlayers| >= |ids| - 1
    ensures GameEnds(ids, v) ==> RoundEnds(ids, v)
  {
    ActiveCount(ids, v.finishedPlayers);
  }

  lemma {:induction false} NextActiveFromSpec(ids: seq<string>, finished: seq<string>, start: nat, i: nat)
    requires start < |ids| && 1 <= i <= |ids|
    ensures var r := NextActiveFrom(ids, finished, start, i);
            && (ids[r] !in finished ==>
                  exists k | i <= k <= |ids| :: r == Seat(start, k, |ids|)
                                               && forall j | i <= j < k :: ids[Seat(start, j, |ids|)] in finished)
            && (ids[r] in finished ==>
                  r == start && forall k | i <= k <= |ids| :: ids[Seat(start, k, |ids|)] in finished)
    decreases |ids| + 1 - i
  {
    var r := NextActiveFrom(ids, finished, start, i);
    if ids[Seat(start, i, |ids|)] !in finished {
      assert r == Seat(start, i, |ids|);
    } else if i == |ids| {
      ModSmall(start + |ids|, |ids|);
      assert r == start;
    } else {
      NextActiveFromSpec(ids, finished, start, i + 1);
      if ids[r] !in finished {
        var k :| i + 1 <= k <= |ids| && r == Seat(start, k, |ids|)
                 && forall j | i + 1 <= j < k :: ids[Seat(start, j, |ids|)] in finished;
        assert forall j | i <= j < k :: ids[Seat(start, j, |ids|)] in finished;
      }
    }
  }

  /** `_find_next_active_player` returns the first unfinished seat going round
      from `start`, skipping only finished players; it returns a finished seat
      only when every player has finished, and then it is `start`. */
  lemma NextActiveSpec(ids: seq<string>, finished: seq<string>, start: nat)
    requires start < |ids|
    ensures var r := NextActive(ids, finished, start);
            && (ids[r] !in finished ==>
                  exists k | 1 <= k <= |ids| :: r == Seat(start, k, |ids|)
                                               && forall j | 1 <= j < k :: ids[Seat(start, j, |ids|)] in finished)
            && (ids[r] in finished ==> r == start && forall q | q in ids :: q in finished)
  {
    var n := |ids|;
    NextActiveFromSpec(ids, finished, start, 1);
    var r := NextActive(ids, finished, start);
    if ids[r] in finished {
      forall q | q in ids ensures q in finished {
        var j :| 0 <= j < n && ids[j] == q;
        var k := if j > start then j - start else j + n - start;
        ModSmall(start + k, n);
        assert Seat(start, k, n) == j;
      }
    }
  }

  // ---------------------------------------------------------------------------
  // Properties of a player's action

  /** Removing the played cards one by one succeeds exactly when the hand holds
      them all, and then leaves the hand minus those cards. */
  lemma {:induction false} RemoveCardsSucceeds(hand: seq<Card>, cards: seq<Card>)
    ensures RemoveCards(hand, cards).1.None? <==> multiset(cards) <= multiset(hand)
    ensures RemoveCards(hand, cards).1.None? ==>
              multiset(RemoveCards(hand, cards).0) + multiset(cards) == multiset(hand)
    decreases |cards|
  {
    if cards != [] {
      var c := cards[0];
      assert multiset(cards) == multiset{c} + multiset(cards[1..]) by {
        assert cards == [c] + cards[1..];
      }
      if c !in hand {
        assert multiset(cards)[c] > 0 && multiset(hand)[c] == 0;
      } else {
        var h := RemoveFirst(hand, c);
        RemoveFirstSpec(hand, c);
        RemoveCardsSucceeds(h, cards[1..]);
        assert multiset(hand) == multiset(h) + multiset{c};
        if multiset(cards) <= multiset(hand) {
          forall x ensures multiset(cards[1..])[x] <= multiset(h)[x] {
            assert multiset(cards)[x] <= multiset(hand)[x];
          }
        }
      }
    }
  }

  /** When a card is missing, the loop stops at it after removing the cards
      before it, and that card is not left in the hand. */
  lemma {:induction false} RemoveCardsStops(hand: seq<Card>, cards: seq<Card>)
    ensures var (rest, missing) := RemoveCards(hand, cards);
            missing.Some? ==>
              exists k | 0 <= k < |cards| :: && cards[k] == missing.value && missing.value !in rest
                                             && multiset(rest) + multiset(cards[..k]) == multiset(hand)
    decreases |cards|
  {
    if cards != [] {
      var c := cards[0];
      if c !in hand {
        assert cards[..0] == [];
      } else {
        var h := RemoveFirst(hand, c);
        RemoveFirstSpec(hand, c);
        RemoveCardsStops(h, cards[1..]);
        var (rest, missing) := RemoveCards(h, cards[1..]);
        if missing.Some? {
          var k :| 0 <= k < |cards[1..]| && cards[1..][k] == missing.value && missing.value !in rest
                   && multiset(rest) + multiset(cards[1..][..k]) == multiset(h);
          PrefixShift(cards, k);
          assert multiset(cards[..k + 1]) == multiset{c} + multiset(cards[1..][..k]);
          assert cards[k + 1] == missing.value;
        }
      }
    }
  }

  lemma PrefixShift<T>(s: seq<T>, k: nat)
    requires k < |s|
    ensures s[..k + 1] == [s[0]] + s[1..][..k]
  {
  }

  /** A player with no cards only adds a skip entry to the log. */
  lemma SkipOnlyLogs(v: Snapshot, playerId: string, cards: Option<seq<Card>>, actionNumber: int)
    requires playerId in v.playerHands && v.playerHands[playerId] == []
    ensures var (w, r) := ActionOutcome(v, playerId, cards, actionNumber);
            && r.Ok? && w.(roundLogs := v.roundLogs) == v
            && |w.roundLogs| == |v.roundLogs| + 1 && w.roundLogs[..|v.roundLogs|] == v.roundLogs
            && w.roundLogs[|v.roundLogs|].action == SkipNoCards
  {
  }

  /** Passing only counts one more consecutive pass and logs it. */
  lemma PassCountsOnly(v: Snapshot, playerId: string, cards: Option<seq<Card>>, actionNumber: int)
    requires playerId in v.playerHands && v.playerHands[playerId] != []
    requires cards.None? || cards.value == []
    ensures var (w, r) := ActionOutcome(v, playerId, cards, actionNumber);
            && r.Ok? && w.consecutivePasses == v.consecutivePasses + 1
            && w.(consecutivePasses := v.consecutivePasses, roundLogs := v.roundLogs) == v
            && |w.roundLogs| == |v.roundLogs| + 1 && w.roundLogs[..|v.roundLogs|] == v.roundLogs
            && w.roundLogs[|v.roundLogs|].action == Pass
  {
  }

  /** A play that is not recognised, or does not beat the table, is rejected
      before anything changes. */
  lemma RejectedPlayChangesNothing(v: Snapshot, playerId: string, cards: seq<Card>, actionNumber: int)
    requires playerId in v.playerHands && v.playerHands[playerId] != [] && cards != []
    requires !CanBeatPlay(cards, v.currentBestPlay)
    ensures var (w, r) := ActionOutcome(v, playerId, Some(cards), actionNumber);
            && w == v
            && (r == Err(InvalidPattern) <==> AnalyzeCards(cards).None?)
            && (r == Err(CannotBeat) <==> AnalyzeCards(cards).Some?)
  {
  }

  /** A play that beats the table and is in the hand leaves the hand without
      exactly those cards, becomes the best play of the round by this player,
      clears the passes, and makes the player a finisher when the hand is empty. */
  lemma ValidPlaySpec(v: Snapshot, playerId: string, cards: seq<Card>, actionNumber: int)
    requires playerId in v.playerHands && v.playerHands[playerId] != [] && cards != []
    requires CanBeatPlay(cards, v.currentBestPlay)
    requires multiset(cards) <= multiset(v.playerHands[playerId])
    ensures var (w, r) := ActionOutcome(v, playerId, Some(cards), actionNumber);
            var pattern := AnalyzeCards(cards).value;
            && r.Ok?
            && playerId in w.playerHands
            && multiset(w.playerHands[playerId]) + multiset(cards) == multiset(v.playerHands[playerId])
            && (forall q | q != playerId :: q in w.playerHands <==> q in v.playerHands)
            && (forall q | q in v.playerHands && q != playerId :: w.playerHands[q] == v.playerHands[q])
            && w.currentBestPlay == Some(pattern)
            && w.lastPlayerWhoPlayed == Some(playerId)
            && w.currentRoundPlays == v.currentRoundPlays + [RoundPlay(playerId, cards, pattern)]
            && w.consecutivePasses == 0
            && w.finishedPlayers == v.finishedPlayers
                                    + (if w.playerHands[playerId] == [] && playerId !in v.finishedPlayers
                                       then [playerId] else [])
            && w.currentRound == v.currentRound && w.currentPlayerIndex == v.currentPlayerIndex
            && w.events == v.events && !w.gameOver == !v.gameOver
  {
    LeadIsRecognised(cards, v.currentBestPlay);
    RemoveCardsSucceeds(v.playerHands[playerId], cards);
  }

  /** A play that beats the table but is not all in the hand raises on the first
      missing card, after the cards before it have left the hand; nothing else changes. */
  lemma MissingCardSpec(v: Snapshot, playerId: string, cards: seq<Card>, actionNumber: int)
    requires playerId in v.playerHands && v.playerHands[playerId] != [] && cards != []
    requires CanBeatPlay(cards, v.currentBestPlay)
    requires !(multiset(cards) <= multiset(v.playerHands[playerId]))
    ensures var (w, r) := ActionOutcome(v, playerId, Some(cards), actionNumber);
            && r.Err? && r.error.CardNotInHand?
            && playerId in w.playerHands
            && w.(playerHands := v.playerHands) == v
            && (forall q | q != playerId :: q in w.playerHands <==> q in v.playerHands)
            && (forall q | q in v.playerHands && q != playerId :: w.playerHands[q] == v.playerHands[q])
            && exists k | 0 <= k < |cards| ::
                 && cards[k] == r.error.card
                 && multiset(w.playerHands[playerId]) + multiset(cards[..k]) == multiset(v.playerHands[playerId])
  {
    LeadIsRecognised(cards, v.currentBestPlay);
    RemoveCardsSucceeds(v.playerHands[playerId], cards);
    RemoveCardsStops(v.playerHands[playerId], cards);
  }

  /** An action by a seated player keeps the state well formed; it adds at most
      that player to the finishers, and only once. */
  lemma ActionWellformed(ids: seq<string>, v: Snapshot, playerId: string, cards: Option<seq<Card>>,
                         actionNumber: int)
    requires Wellformed(ids, v) && playerId in ids
    ensures var w := ActionOutcome(v, playerId, cards, actionNumber).0;
            && Wellformed(ids, w)
            && (w.finishedPlayers == v.finishedPlayers || w.finishedPlayers == v.finishedPlayers + [playerId])
  {
    var hand := v.playerHands[playerId];
    if |hand| != 0 && cards.Some? && |cards.value| != 0 && CanBeatPlay(cards.value, v.currentBestPlay) {
      LeadIsRecognised(cards.value, v.currentBestPlay);
      var w := ActionOutcome(v, playerId, cards, actionNumber).0;
      assert playerId !in v.finishedPlayers;
      if w.finishedPlayers != v.finishedPlayers {
        assert w.finishedPlayers == v.finishedPlayers + [playerId];
        assert NoDuplicates(w.finishedPlayers) by {
          forall i, j | 0 <= i < j < |w.finishedPlayers| ensures w.finishedPlayers[i] != w.finishedPlayers[j] {
            if j == |v.finishedPlayers| {
              assert w.finishedPlayers[i] == v.finishedPlayers[i];
            }
          }
        }
      }
    }
  }

  /** Right after a play the pass count is zero, so the round goes on while at
      least two players are active. */
  lemma PlayKeepsRoundOpen(ids: seq<string>, v: Snapshot, playerId: string, cards: seq<Card>, actionNumber: int)
    requires playerId in v.playerHands && v.playerHands[playerId] != [] && cards != []
    requires CanBeatPlay(cards, v.currentBestPlay)
    requires multiset(cards) <= multiset(v.playerHands[playerId])
    requires |ActivePlayers(ids, ActionOutcome(v, playerId, Some(cards), actionNumber).0.finishedPlayers)| >= 2
    ensures !RoundEnds(ids, ActionOutcome(v, playerId, Some(cards), actionNumber).0)
  {
    ValidPlaySpec(v, playerId, cards, actionNumber);
  }

  // ---------------------------------------------------------------------------
  // Properties of rounds and the end of the game

  /** The backwards search flags the last entry that has the final action number
      or the winner's id, and leaves every other entry as it was. */
  lemma {:induction false} MarkWinnerSpec(logs: seq<RoundLog>, lastActionNumber: int, winner: string)
    ensures var r := MarkWinner(logs, lastActionNumber, winner);
            forall j | 0 <= j < |logs| ::
              r[j] == if MarksWinner(logs[j], lastActionNumber, winner)
                         && (forall k | j < k < |logs| :: !MarksWinner(logs[k], lastActionNumber, winner))
                      then logs[j].(isRoundWinner := true) else logs[j]
  {
    if logs != [] {
      var init := logs[..|logs| - 1];
      var last := logs[|logs| - 1];
      MarkWinnerSpec(init, lastActionNumber, winner);
      var r := MarkWinner(logs, lastActionNumber, winner);
      forall j | 0 <= j < |logs|
        ensures r[j] == if MarksWinner(logs[j], lastActionNumber, winner)
                           && (forall k | j < k < |logs| :: !MarksWinner(logs[k], lastActionNumber, winner))
                        then logs[j].(isRoundWinner := true) else logs[j]
      {
        if j < |init| {
          assert logs[j] == init[j];
          if MarksWinner(last, lastActionNumber, winner) {
            assert r[j] == init[j];
          } else {
            assert r[j] == MarkWinner(init, lastActionNumber, winner)[j];
            assert forall k | j < k < |init| :: logs[k] == init[k];
          }
        }
      }
    }
  }

  /** Starting a round advances the round number and clears the table; the lead
      goes to the last player who played when still in the game, and otherwise to
      an unfinished player whenever there is one. Hands, finishers, logs and the
      ledger are untouched. */
  lemma NewRoundSpec(ids: seq<string>, v: Snapshot)
    requires Wellformed(ids, v)
    ensures var w := NewRound(ids, v);
            && w.currentRound == v.currentRound + 1 && w.currentRoundPlays == [] && w.currentBestPlay == None
            && w.consecutivePasses == 0
            && w.(currentRound := v.currentRound, currentRoundPlays := v.currentRoundPlays,
                  currentBestPlay := v.currentBestPlay, consecutivePasses := v.consecutivePasses,
                  currentPlayerIndex := v.currentPlayerIndex) == v
            && Wellformed(ids, w)
            && (v.lastPlayerWhoPlayed.Some? && v.lastPlayerWhoPlayed.value != ""
                && v.lastPlayerWhoPlayed.value !in v.finishedPlayers
                ==> ids[w.currentPlayerIndex] == v.lastPlayerWhoPlayed.value)
            && (v.lastPlayerWhoPlayed.Some? && v.lastPlayerWhoPlayed.value != ""
                && (exists q | q in ids :: q !in v.finishedPlayers)
                ==> ids[w.currentPlayerIndex] !in v.finishedPlayers)
            && (v.lastPlayerWhoPlayed.None? || v.lastPlayerWhoPlayed.value == ""
                ==> w.currentPlayerIndex == v.currentPlayerIndex)
  {
    if v.lastPlayerWhoPlayed.Some? && v.lastPlayerWhoPlayed.value != "" {
      NextActiveSpec(ids, v.finishedPlayers, IndexOf(ids, v.lastPlayerWhoPlayed.value));
    }
  }

  /** `_end_round` credits the last player who played with the round's base score
      and the winning pattern's bonus; no one else's total moves. With no last
      player it records nothing. */
  lemma RoundAwardedCredit(ids: seq<string>, config: GameConfig, v: Snapshot, lastActionNumber: int, p: string)
    requires Wellformed(ids, v)
    ensures var w := RoundAwarded(ids, config, v, lastActionNumber);
            && Wellformed(ids, w)
            && w.playerHands == v.playerHands && w.finishedPlayers == v.finishedPlayers
            && (v.lastPlayerWhoPlayed.None? ==> w.events == v.events)
            && (v.lastPlayerWhoPlayed.Some? ==>
                  var winner := v.lastPlayerWhoPlayed.value;
                  TotalFor(w.events, p)
                  == TotalFor(v.events, p)
                     + (if p == winner
                        then BaseScore(RoundCards(v.currentRoundPlays))
                             + TotalFor(RoundBonus(config, winner, v.currentBestPlay, v.currentRound), winner)
                        else 0))
  {
    if v.lastPlayerWhoPlayed.Some? {
      var winner := v.lastPlayerWhoPlayed.value;
      var cards := RoundCards(v.currentRoundPlays);
      var won := Recorded(RoundWinEvent(winner, cards, v.currentRound));
      var bonus := RoundBonus(config, winner, v.currentBestPlay, v.currentRound);
      var marked := v.(roundLogs := MarkWinner(v.roundLogs, lastActionNumber, winner), events := v.events + won + bonus);
      NewRoundSpec(ids, marked);
      RoundWinCredit(v.events, winner, cards, v.currentRound, p);
      TotalForAppend(v.events + won, bonus, p);
      if v.currentBestPlay.Some? {
        PySpecialBonusSpec(config.kTongziBonus, config.aTongziBonus, config.twoTongziBonus, config.dizhaBonus,
                           winner, v.currentBestPlay.value, v.currentRound, true);
      }
    } else {
      NewRoundSpec(ids, v);
    }
  }

  /** Ending the game gives each of the first finishers, in order, the bonus of
      their place, and marks the game over. */
  lemma GameFinishedCredit(config: GameConfig, v: Snapshot, i: nat)
    requires NoDuplicates(v.finishedPlayers)
    requires i < |v.finishedPlayers| && i < |config.finishBonus|
    ensures var w := GameFinished(config, v);
            && w.gameOver
            && TotalFor(w.events, v.finishedPlayers[i]) == TotalFor(v.events, v.finishedPlayers[i]) + config.finishBonus[i]
  {
    FinishBonusCredit(v.finishedPlayers, config.finishBonus, i);
    TotalForAppend(v.events, FinishEvents(v.finishedPlayers, config.finishBonus), v.finishedPlayers[i]);
  }

  /** The rest of the loop body keeps the state well formed. */
  lemma AfterActionWellformed(ids: seq<string>, config: GameConfig, v: Snapshot, actionNumber: int)
    requires Wellformed(ids, v)
    ensures Wellformed(ids, AfterAction(ids, config, v, actionNumber))
  {
    var v1 := if RoundEnds(ids, v) then RoundAwarded(ids, config, v, actionNumber) else v;
    if RoundEnds(ids, v) {
      RoundAwardedCredit(ids, config, v, actionNumber, "");
    }
    NextIndexSpec(v1.currentPlayerIndex, |ids|);
  }

  /** A turn keeps the state well formed. */
  lemma TurnWellformed(ids: seq<string>, config: GameConfig, v: Snapshot, decision: Option<seq<Card>>,
                       actionCount: int)
    requires Wellformed(ids, v)
    ensures Wellformed(ids, Turn(ids, config, v, decision, actionCount).0)
  {
    var player := ids[v.currentPlayerIndex];
    NextIndexSpec(v.currentPlayerIndex, |ids|);
    if player !in v.finishedPlayers {
      ActionWellformed(ids, v, player, decision, actionCount + 1);
      var v1 := ActionOutcome(v, player, decision, actionCount + 1).0;
      AfterActionWellformed(ids, config, v1, actionCount + 1);
    }
  }

  // ---------------------------------------------------------------------------
  // The lead after a round

  /** The loop body as it is meant to run: after a round ends the new leader
      keeps the turn instead of passing it on. */
  function AfterActionIntended(ids: seq<string>, config: GameConfig, v: Snapshot, actionNumber: int): Snapshot
    requires LeadKnown(ids, v)
  {
    if RoundEnds(ids, v) then
      var v1 := RoundAwarded(ids, config, v, actionNumber);
      if GameEnds(ids, v1) then GameFinished(config, v1) else v1
    else if GameEnds(ids, v) then GameFinished(config, v)
    else v.(currentPlayerIndex := NextIndex(v.currentPlayerIndex, |ids|))
  }

  /** `Turn` with the intended rest of the loop body. */
  function TurnIntended(ids: seq<string>, config: GameConfig, v: Snapshot, decision: Option<seq<Card>>,
                        actionCount: int): (Snapshot, int, Result<(), ActionError>)
    requires Wellformed(ids, v)
  {
    var player := ids[v.currentPlayerIndex];
    if player in v.finishedPlayers then
      (v.(currentPlayerIndex := NextIndex(v.currentPlayerIndex, |ids|)), actionCount, Ok(()))
    else
      var (v1, r) := ActionOutcome(v, player, decision, actionCount + 1);
      if r.Err? then (v1, actionCount + 1, r)
      else (AfterActionIntended(ids, config, v1, actionCount + 1), actionCount + 1, Ok(()))
  }

  /** The turn that closes a round by a pass, with the round's winner still in
      the game and at least two players active. */
  predicate ClosingPass(ids: seq<string>, v: Snapshot) {
    && Wellformed(ids, v) && NoDuplicates(ids) && !v.gameOver
    && ids[v.currentPlayerIndex] !in v.finishedPlayers && v.playerHands[ids[v.currentPlayerIndex]] != []
    && v.lastPlayerWhoPlayed.Some? && v.lastPlayerWhoPlayed.value != ""
    && v.lastPlayerWhoPlayed.value !in v.finishedPlayers
    && |ActivePlayers(ids, v.finishedPlayers)| >= 2
    && v.consecutivePasses + 1 >= |ActivePlayers(ids, v.finishedPlayers)| - 1
  }

  /** After a closing pass: the round is over and awarded to a winner who is
      still in the game, and the game goes on. */
  lemma {:induction false} ClosingPassAwards(ids: seq<string>, config: GameConfig, v: Snapshot, actionNumber: int)
    requires Wellformed(ids, v) && NoDuplicates(ids)
    requires v.lastPlayerWhoPlayed.Some? && v.lastPlayerWhoPlayed.value != ""
    requires v.lastPlayerWhoPlayed.value !in v.finishedPlayers
    requires |ActivePlayers(ids, v.finishedPlayers)| >= 2 && RoundEnds(ids, v) && !v.gameOver
    ensures var w := RoundAwarded(ids, config, v, actionNumber);
            ids[w.currentPlayerIndex] == v.lastPlayerWhoPlayed.value && !GameEnds(ids, w) && !w.gameOver
            && w.currentPlayerIndex == IndexOf(ids, v.lastPlayerWhoPlayed.value)
  {
    var winner := v.lastPlayerWhoPlayed.value;
    RoundAwardedCredit(ids, config, v, actionNumber, winner);
    var marked := v.(roundLogs := MarkWinner(v.roundLogs, actionNumber, winner),
                     events := v.events + Recorded(RoundWinEvent(winner, RoundCards(v.currentRoundPlays), v.currentRound))
                               + RoundBonus(config, winner, v.currentBestPlay, v.currentRound));
    NewRoundSpec(ids, marked);
  }

  /** The pass of a closing turn leaves a state whose round is over. */
  lemma ClosingPassOutcome(ids: seq<string>, v: Snapshot, actionNumber: int)
    requires ClosingPass(ids, v)
    ensures var v1 := ActionOutcome(v, ids[v.currentPlayerIndex], None, actionNumber);
            && v1.1.Ok? && Wellformed(ids, v1.0) && RoundEnds(ids, v1.0)
            && v1.0.lastPlayerWhoPlayed == v.lastPlayerWhoPlayed && v1.0.finishedPlayers == v.finishedPlayers
            && !v1.0.gameOver
  {
    PassCountsOnly(v, ids[v.currentPlayerIndex], None, actionNumber);
  }

  /** As written, `_start_new_round` seats the winner as leader but the loop then
      advances a seat, so the winner of a round never leads the next one. */
  lemma WinnerDoesNotLead(ids: seq<string>, config: GameConfig, v: Snapshot, actionCount: int)
    requires ClosingPass(ids, v)
    ensures var w := Turn(ids, config, v, None, actionCount).0;
            var winner := v.lastPlayerWhoPlayed.value;
            && w.currentPlayerIndex == NextIndex(IndexOf(ids, winner), |ids|)
            && ids[w.currentPlayerIndex] != winner
  {
    var v1 := ActionOutcome(v, ids[v.currentPlayerIndex], None, actionCount + 1).0;
    ClosingPassOutcome(ids, v, actionCount + 1);
    ClosingPassAwards(ids, config, v1, actionCount + 1);
    NextIndexSpec(IndexOf(ids, v.lastPlayerWhoPlayed.value), |ids|);
  }

  /** With the intended loop body the winner of a round leads the next one. */
  lemma IntendedWinnerLeads(ids: seq<string>, config: GameConfig, v: Snapshot, actionCount: int)
    requires ClosingPass(ids, v)
    ensures var w := TurnIntended(ids, config, v, None, actionCount).0;
            ids[w.currentPlayerIndex] == v.lastPlayerWhoPlayed.value && !w.gameOver
  {
    var v1 := ActionOutcome(v, ids[v.currentPlayerIndex], None, actionCount + 1).0;
    ClosingPassOutcome(ids, v, actionCount + 1);
    ClosingPassAwards(ids, config, v1, actionCount + 1);
  }
}

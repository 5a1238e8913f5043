/**
 * The Rust `ConfigFactory` presets, `create_custom` with the zero-sum default
 * finish bonus `calculate_default_finish_bonus`, and
 * `VariantValidator::validate_config`, which counts 52 cards per deck and
 * panics when unsigned subtraction or a division by the player count fails.
 */
module RsConfigFactory {
  import opened Wrappers
  import opened Sums
  import opened RsConfig
  import opened VariantWarnings
  import PyConfig

  /** Rust's `/` on `i32`, which truncates toward zero (b > 0). */
  function TruncDiv(a: int, b: int): int
    requires b > 0
  {
    if a >= 0 then a / b else -((-a) / b)
  }

  /** Rust's `%` on `i32`: the remainder takes the sign of the dividend (b > 0). */
  function TruncRem(a: int, b: int): int
    requires b > 0
  {
    if a >= 0 then a % b else -((-a) % b)
  }

  /** The list `calculate_default_finish_bonus` builds: nothing for no players, 100
      for first place, then the share of -100 for every other place, the first of
      them also taking the remainder. */
  function DefaultFinishBonus(n: U8): (b: seq<int>)
    ensures |b| == n
  {
    if n == 0 then []
    else if n == 1 then [100]
    else
      var perPlayer := TruncDiv(-100, n - 1);
      [100, perPlayer + TruncRem(-100, n - 1)] + Repeat(perPlayer, n - 2)
  }

  /** `calculate_default_finish_bonus`: push 100, then one entry per other place. */
  method CalculateDefaultFinishBonus(n: U8) returns (bonuses: seq<int>)
    ensures bonuses == DefaultFinishBonus(n)
  {
    if n == 0 {
      return [];
    }
    bonuses := [100];
    if n > 1 {
      var perPlayer := TruncDiv(-100, n - 1);
      var remainder := TruncRem(-100, n - 1);
      for i := 0 to n - 1
        invariant bonuses == if i == 0 then [100] else [100, perPlayer + remainder] + Repeat(perPlayer, i - 1)
      {
        var bonus := if i == 0 then perPlayer + remainder else perPlayer;
        bonuses := bonuses + [bonus];
      }
    }
  }

  /** The default list has one entry per player, starts with 100, and sums to zero
      for two or more players; it is the zero-sum list the Python generic case intends. */
  lemma DefaultFinishBonusIsZeroSum(n: U8)
    requires n >= 2
    ensures DefaultFinishBonus(n)[0] == 100 && Sum(DefaultFinishBonus(n)) == 0
    ensures DefaultFinishBonus(n) == PyConfig.GenericFinishBonus(n)
  {
    PyConfig.GenericFinishBonusZeroSum(n);
  }

  /** `create_custom`: every argument stored unchanged, with the default finish bonus. */
  method CreateCustom(numDecks: U8, numPlayers: U8, cardsPerPlayer: nat, cardsDealtAside: nat,
                      k: int, a: int, two: int, dizha: int) returns (c: GameConfig)
    ensures c == GameConfig(numDecks, numPlayers, cardsPerPlayer, cardsDealtAside,
                            DefaultFinishBonus(numPlayers), k, a, two, dizha)
    ensures |c.finishBonus| == numPlayers
    ensures numPlayers >= 2 ==> Sum(c.finishBonus) == 0
  {
    var finishBonus := CalculateDefaultFinishBonus(numPlayers);
    if numPlayers >= 2 {
      DefaultFinishBonusIsZeroSum(numPlayers);
    }
    c := GameConfig(numDecks, numPlayers, cardsPerPlayer, cardsDealtAside, finishBonus, k, a, two, dizha);
  }

  /** `create_standard_3deck_3player`. */
  const Standard3Deck3Player: GameConfig := GameConfig(3, 3, 41, 9, [100, -40, -60], 100, 200, 300, 400)
  /** `create_4deck_4player`. */
  const FourDeckFourPlayer: GameConfig := GameConfig(4, 4, 42, 8, [100, -20, -40, -80], 100, 200, 300, 400)
  /** `create_2player`. */
  const TwoPlayer: GameConfig := GameConfig(3, 2, 60, 12, [100, -100], 100, 200, 300, 400)
  /** `create_quick_game`. */
  const QuickGame: GameConfig := GameConfig(2, 3, 28, 4, [100, -40, -60], 100, 200, 300, 400)
  /** `create_high_stakes`. */
  const HighStakes: GameConfig := GameConfig(3, 3, 41, 9, [200, -80, -120], 200, 400, 600, 800)
  /** `create_beginner_friendly`: the standard game (there is no must-beat flag). */
  const BeginnerFriendly: GameConfig := GameConfig(3, 3, 41, 9, [100, -40, -60], 100, 200, 300, 400)

  /** What stops `validate_config` before it reports: the unsigned subtraction of the
      cards set aside underflows, or the player count is zero. */
  datatype Panic = SubtractionOverflow | DivisionByZero

  /** The warnings of `validate_config`, in the order it checks, or its panic. */
  function Warnings(c: GameConfig): Result<seq<Warning>, Panic> {
    var totalCards := c.numDecks * 52;
    if c.cardsDealtAside > totalCards then Err(SubtractionOverflow)
    else if c.numPlayers == 0 then Err(DivisionByZero)
    else
      var available := totalCards - c.cardsDealtAside;
      var required := c.numPlayers * 10;
      Ok((if available < required then [TooFewCards(available, required, c.numPlayers)] else [])
         + (if available % c.numPlayers != 0 then [UnevenDistribution(available, c.numPlayers)] else [])
         + (if |c.finishBonus| != c.numPlayers then [BonusLengthMismatch(|c.finishBonus|, c.numPlayers)] else [])
         + (if Sum(c.finishBonus) > 0 then [PositiveBonusSum(Sum(c.finishBonus))] else []))
  }

  /** `validate_config`: one warning pushed per failed check; valid iff none. */
  method ValidateConfig(c: GameConfig) returns (r: Result<(bool, seq<Warning>), Panic>)
    ensures Warnings(c).Err? ==> r == Err(Warnings(c).error)
    ensures Warnings(c).Ok? ==> r.Ok? && r.value.1 == Warnings(c).value && (r.value.0 <==> r.value.1 == [])
  {
    var warnings: seq<Warning> := [];
    var totalCards := c.numDecks * 52;
    if c.cardsDealtAside > totalCards {
      return Err(SubtractionOverflow);
    }
    var totalAvailable := totalCards - c.cardsDealtAside;
    var required := c.numPlayers * 10;
    if totalAvailable < required {
      warnings := warnings + [TooFewCards(totalAvailable, required, c.numPlayers)];
    }
    if c.numPlayers == 0 {
      return Err(DivisionByZero);
    }
    if totalAvailable % c.numPlayers != 0 {
      warnings := warnings + [UnevenDistribution(totalAvailable, c.numPlayers)];
    }
    if |c.finishBonus| != c.numPlayers {
      warnings := warnings + [BonusLengthMismatch(|c.finishBonus|, c.numPlayers)];
    }
    var bonusSum := Sum(c.finishBonus);
    if bonusSum > 0 {
      warnings := warnings + [PositiveBonusSum(bonusSum)];
    }
    r := Ok((warnings == [], warnings));
  }

  // ---------------------------------------------------------------------------
  // Properties

  /** A configuration with at least one player and no more cards aside than the decks
      hold gets a report; each warning is in it exactly when its check fails. */
  lemma WarningsSpec(c: GameConfig)
    requires c.numPlayers >= 1 && c.cardsDealtAside <= c.numDecks * 52
    ensures Warnings(c).Ok?
    ensures var ws := Warnings(c).value;
            var available := c.numDecks * 52 - c.cardsDealtAside;
            && ((TooFewCards(available, c.numPlayers * 10, c.numPlayers) in ws) <==> available < c.numPlayers * 10)
            && ((UnevenDistribution(available, c.numPlayers) in ws) <==> available % c.numPlayers != 0)
            && ((BonusLengthMismatch(|c.finishBonus|, c.numPlayers) in ws) <==> |c.finishBonus| != c.numPlayers)
            && ((PositiveBonusSum(Sum(c.finishBonus)) in ws) <==> Sum(c.finishBonus) > 0)
            && |ws| <= 4
  {
    var available := c.numDecks * 52 - c.cardsDealtAside;
    var required := c.numPlayers * 10;
    var tooFew := if available < required then [TooFewCards(available, required, c.numPlayers)] else [];
    var uneven := if available % c.numPlayers != 0 then [UnevenDistribution(available, c.numPlayers)] else [];
    var length := if |c.finishBonus| != c.numPlayers then [BonusLengthMismatch(|c.finishBonus|, c.numPlayers)] else [];
    var positive := if Sum(c.finishBonus) > 0 then [PositiveBonusSum(Sum(c.finishBonus))] else [];
    assert Warnings(c).value == tooFew + uneven + length + positive;
    assert forall w :: w in Warnings(c).value <==> w in tooFew || w in uneven || w in length || w in positive;
  }

  /** The standard preset validates cleanly and its finish bonuses sum to zero; the
      quick game, 104 − 4 = 100 cards for three players, is reported as uneven. */
  lemma StandardPresetIsValid()
    ensures Warnings(Standard3Deck3Player) == Ok([])
    ensures Sum(Standard3Deck3Player.finishBonus) == 0
    ensures Warnings(QuickGame) == Ok([UnevenDistribution(100, 3)])
  {
    SumOfThree(100, -40, -60);
    var none: seq<Warning> := [];
    assert 147 % 3 == 0 && 100 % 3 == 1;
    assert Warnings(Standard3Deck3Player).value == none + none + none + none;
    assert Warnings(QuickGame).value == none + [UnevenDistribution(100, 3)] + none + none;
    assert none + none + none + none == [];
    assert none + [UnevenDistribution(100, 3)] + none + none == [UnevenDistribution(100, 3)];
  }

  /** A custom four-player game gets [100, -34, -33, -33]. */
  lemma FourPlayerDefaultBonus()
    ensures DefaultFinishBonus(4) == [100, -34, -33, -33]
  {
  }
}

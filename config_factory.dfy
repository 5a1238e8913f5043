/**
 * The playability warnings both `VariantValidator`s report.
 */
module VariantWarnings {
  datatype Warning =
    | TooFewCards(available: int, required: int, players: int)
    | UnevenDistribution(available: int, players: int)
    | BonusLengthMismatch(length: int, players: int)
    | PositiveBonusSum(sum: int)
}

/**
 * The Python `ConfigFactory` presets and `create_custom`, which all go through
 * `GameConfig` construction, and `VariantValidator.validate_config`, which
 * collects one warning per failed playability check.
 */
module PyConfigFactory {
  import opened Wrappers
  import opened Cards
  import opened Sums
  import opened PyConfig
  import opened VariantWarnings

  /** `create_standard_3deck_3player`. */
  function Standard3Deck3Player(): (c: GameConfig)
    ensures Constructed(c) && c.mustBeatRule
  {
    NewGameConfig(3, 3, 9, {}, [100, -40, -60], 100, 200, 300, 400, true).value
  }

  /** `create_4deck_4player`. */
  function FourDeckFourPlayer(): (c: GameConfig)
    ensures Constructed(c) && c.mustBeatRule
  {
    NewGameConfig(4, 4, 8, {}, [100, -20, -40, -80], 100, 200, 300, 400, true).value
  }

  /** `create_2player`. */
  function TwoPlayer(): (c: GameConfig)
    ensures Constructed(c) && c.mustBeatRule
  {
    NewGameConfig(3, 2, 12, {}, [100, -100], 100, 200, 300, 400, true).value
  }

  /** `create_quick_game`: two decks. */
  function QuickGame(): (c: GameConfig)
    ensures Constructed(c) && c.mustBeatRule
  {
    NewGameConfig(2, 3, 4, {}, [100, -40, -60], 100, 200, 300, 400, true).value
  }

  /** `create_high_stakes`: every bonus doubled. */
  function HighStakes(): (c: GameConfig)
    ensures Constructed(c) && c.mustBeatRule
  {
    NewGameConfig(3, 3, 9, {}, [200, -80, -120], 200, 400, 600, 800, true).value
  }

  /** `create_beginner_friendly`: the standard game without the must-beat rule. */
  function BeginnerFriendly(): (c: GameConfig)
    ensures Constructed(c) && !c.mustBeatRule
  {
    NewGameConfig(3, 3, 9, {}, [100, -40, -60], 100, 200, 300, 400, false).value
  }

  /** The six presets. */
  function Presets(): seq<GameConfig> {
    [Standard3Deck3Player(), FourDeckFourPlayer(), TwoPlayer(), QuickGame(), HighStakes(), BeginnerFriendly()]
  }

  /** `create_custom`: every argument passed through, the finish bonus left at the
      dataclass default, so construction resizes it to the player count. */
  function CreateCustom(numDecks: int, numPlayers: int, aside: int, excluded: set<Rank>,
                        k: int, a: int, two: int, dizha: int, mustBeat: bool): (r: Result<GameConfig, ConfigError>)
    ensures r.Ok? <==> numPlayers >= 2 && numDecks >= 1
    ensures r.Ok? ==> && |r.value.finishBonus| == numPlayers
                      && (numPlayers == 3 ==> r.value.finishBonus == DefaultFinishBonus)
                      && (numPlayers !in {2, 3, 4} ==> r.value.finishBonus == GenericFinishBonusAsWritten(numPlayers))
                      && r.value.numDecks == numDecks && r.value.numPlayers == numPlayers
                      && r.value.cardsDealtAside == aside && r.value.excludedRanks == excluded
                      && r.value.kTongziBonus == k && r.value.aTongziBonus == a
                      && r.value.twoTongziBonus == two && r.value.dizhaBonus == dizha
                      && r.value.mustBeatRule == mustBeat
  {
    NewGameConfig(numDecks, numPlayers, aside, excluded, DefaultFinishBonus, k, a, two, dizha, mustBeat)
  }

  /** The warnings of `validate_config`, in the order it checks. */
  function Warnings(c: GameConfig): seq<Warning>
    requires c.numPlayers >= 2
  {
    var available := TotalCards(c) - c.cardsDealtAside;
    var required := c.numPlayers * 10;
    (if available < required then [TooFewCards(available, required, c.numPlayers)] else [])
    + (if available % c.numPlayers != 0 then [UnevenDistribution(available, c.numPlayers)] else [])
    + (if |c.finishBonus| != c.numPlayers then [BonusLengthMismatch(|c.finishBonus|, c.numPlayers)] else [])
    + (if Sum(c.finishBonus) > 0 then [PositiveBonusSum(Sum(c.finishBonus))] else [])
  }

  /** `validate_config`: one warning appended per failed check; valid iff none. */
  method ValidateConfig(c: GameConfig) returns (isValid: bool, warnings: seq<Warning>)
    requires c.numPlayers >= 2
    ensures warnings == Warnings(c)
    ensures isValid <==> warnings == []
  {
    warnings := [];
    var totalAvailable := TotalCards(c) - c.cardsDealtAside;
    var required := c.numPlayers * 10;
    if totalAvailable < required {
      warnings := warnings + [TooFewCards(totalAvailable, required, c.numPlayers)];
    }
    if totalAvailable % c.numPlayers != 0 {
      warnings := warnings + [UnevenDistribution(totalAvailable, c.numPlayers)];
    }
    if |c.finishBonus| != c.numPlayers {
      warnings := warnings + [BonusLengthMismatch(|c.finishBonus|, c.numPlayers)];
    }
    var bonusSum := Sum(c.finishBonus);
    if bonusSum > 0 {
      warnings := warnings + [PositiveBonusSum(bonusSum)];
    }
    isValid := |warnings| == 0;
  }

  // ---------------------------------------------------------------------------
  // Properties

  /** Each warning is reported exactly when its check fails, and nothing else is. */
  lemma WarningsSpec(c: GameConfig)
    requires c.numPlayers >= 2
    ensures var available := TotalCards(c) - c.cardsDealtAside;
            && ((TooFewCards(available, c.numPlayers * 10, c.numPlayers) in Warnings(c))
                  <==> available < c.numPlayers * 10)
            && ((UnevenDistribution(available, c.numPlayers) in Warnings(c))
                  <==> available % c.numPlayers != 0)
            && ((BonusLengthMismatch(|c.finishBonus|, c.numPlayers) in Warnings(c))
                  <==> |c.finishBonus| != c.numPlayers)
            && (PositiveBonusSum(Sum(c.finishBonus)) in Warnings(c) <==> Sum(c.finishBonus) > 0)
            && (forall w | w in Warnings(c) ::
                  || w == TooFewCards(available, c.numPlayers * 10, c.numPlayers)
                  || w == UnevenDistribution(available, c.numPlayers)
                  || w == BonusLengthMismatch(|c.finishBonus|, c.numPlayers)
                  || w == PositiveBonusSum(Sum(c.finishBonus)))
  {
    var available := TotalCards(c) - c.cardsDealtAside;
    var required := c.numPlayers * 10;
    var tooFew := if available < required then [TooFewCards(available, required, c.numPlayers)] else [];
    var uneven := if available % c.numPlayers != 0 then [UnevenDistribution(available, c.numPlayers)] else [];
    var length := if |c.finishBonus| != c.numPlayers then [BonusLengthMismatch(|c.finishBonus|, c.numPlayers)] else [];
    var positive := if Sum(c.finishBonus) > 0 then [PositiveBonusSum(Sum(c.finishBonus))] else [];
    assert Warnings(c) == tooFew + uneven + length + positive;
    assert forall w :: w in Warnings(c) <==> w in tooFew || w in uneven || w in length || w in positive;
  }

  /** A constructed configuration never gets the length warning. */
  lemma ConstructedHasMatchingBonus(c: GameConfig)
    requires Constructed(c)
    ensures forall w | w in Warnings(c) :: !w.BonusLengthMismatch?
  {
  }

  /** Every preset validates without warnings, and only the beginner preset drops
      the must-beat rule. */
  lemma PresetsAreValid()
    ensures forall i | 0 <= i < |Presets()| :: Presets()[i].numPlayers >= 2 && Warnings(Presets()[i]) == []
    ensures forall i | 0 <= i < |Presets()| :: !Presets()[i].mustBeatRule <==> i == 5
  {
    SumOfFour(100, -20, -40, -80);
    SumOfThree(100, -40, -60);
    SumOfThree(200, -80, -120);
    SumOfTwo(100, -100);
  }

  /** A custom seven-player game gets the generic list as written,
      [100, -16, -16, -16, -16, -16, -16], which sums to 4, so it fails its own
      validation with the positive-sum warning. */
  lemma SevenPlayerCustomWarns()
    ensures var c := CreateCustom(3, 7, 9, {}, 100, 200, 300, 400, true).value;
            && c.finishBonus == [100, -16, -16, -16, -16, -16, -16]
            && PositiveBonusSum(4) in Warnings(c)
  {
    var c := CreateCustom(3, 7, 9, {}, 100, 200, 300, 400, true).value;
    ConstructionResizesBonus(3, 7, 9, {}, DefaultFinishBonus, 100, 200, 300, 400, true);
    assert c.finishBonus == [100] + Repeat(-16, 6);
    assert Repeat(-16, 6) == [-16, -16, -16, -16, -16, -16];
  }

  /** A custom game never gets the length warning; it gets the positive-sum warning
      exactly when it has a player count other than 2, 3 and 4 for which n - 1 does
      not divide 100 (5, 7, 8, 9, 10, 12, ... players). */
  lemma CustomBonusWarnings(numDecks: int, numPlayers: int, aside: int, excluded: set<Rank>,
                            k: int, a: int, two: int, dizha: int, mustBeat: bool)
    requires numPlayers >= 2 && numDecks >= 1
    ensures var c := CreateCustom(numDecks, numPlayers, aside, excluded, k, a, two, dizha, mustBeat).value;
            && (forall w | w in Warnings(c) :: !w.BonusLengthMismatch?)
            && ((exists w | w in Warnings(c) :: w.PositiveBonusSum?)
                  <==> numPlayers !in {2, 3, 4} && 100 % (numPlayers - 1) != 0)
  {
    var c := CreateCustom(numDecks, numPlayers, aside, excluded, k, a, two, dizha, mustBeat).value;
    ConstructionResizesBonus(numDecks, numPlayers, aside, excluded, DefaultFinishBonus, k, a, two, dizha, mustBeat);
    SumOfThree(100, -40, -60);
    WarningsSpec(c);
    if numPlayers !in {2, 3, 4} {
      assert Sum(c.finishBonus) == 100 % (numPlayers - 1);
    }
  }

  /** With the intended generic list in place of the one as written, no custom game
      gets either bonus warning. */
  lemma CorrectedCustomBonusIsFair(numDecks: int, numPlayers: int, aside: int, excluded: set<Rank>,
                                   k: int, a: int, two: int, dizha: int, mustBeat: bool)
    requires numPlayers >= 2 && numDecks >= 1
    ensures var c := CreateCustom(numDecks, numPlayers, aside, excluded, k, a, two, dizha, mustBeat).value;
            var fixed := if numPlayers in {2, 3, 4} then c else c.(finishBonus := GenericFinishBonus(numPlayers));
            forall w | w in Warnings(fixed) :: !w.BonusLengthMismatch? && !w.PositiveBonusSum?
  {
    ConstructionResizesBonus(numDecks, numPlayers, aside, excluded, DefaultFinishBonus, k, a, two, dizha, mustBeat);
    SumOfThree(100, -40, -60);
    if numPlayers !in {2, 3, 4} {
      GenericFinishBonusZeroSum(numPlayers);
    }
  }
}

/**
 * The Python `GameConfig` dataclass: construction checks the player and deck
 * counts and resizes a finish-bonus list whose length does not match the
 * player count; the derived quantities are the number of cards in play and
 * the number dealt to each player.
 */
module PyConfig {
  import opened Wrappers
  import opened Cards
  import opened Sums
  import opened Decks

  datatype GameConfig = GameConfig(
    numDecks: int,
    numPlayers: int,
    cardsDealtAside: int,
    excludedRanks: set<Rank>,
    finishBonus: seq<int>,
    kTongziBonus: int,
    aTongziBonus: int,
    twoTongziBonus: int,
    dizhaBonus: int,
    mustBeatRule: bool)

  /** The `ValueError`s construction raises. */
  datatype ConfigError = TooFewPlayers | TooFewDecks

  /** The finish bonuses of the dataclass default (first, second, third place). */
  const DefaultFinishBonus: seq<int> := [100, -40, -60]

  /** The resized list for a player count other than 2 and 4, as written: first place
      gets 100 and every other place loses 100 // (n - 1). */
  function GenericFinishBonusAsWritten(n: int): (b: seq<int>)
    requires n >= 2
    ensures |b| == n && b[0] == 100
  {
    [100] + Repeat(-(100 / (n - 1)), n - 1)
  }

  /** The generic list as intended, zero-sum: the second place also loses the
      remainder 100 % (n - 1). */
  function GenericFinishBonus(n: int): (b: seq<int>)
    requires n >= 2
    ensures |b| == n && b[0] == 100
  {
    [100, -(100 / (n - 1)) - 100 % (n - 1)] + Repeat(-(100 / (n - 1)), n - 2)
  }

  /** The list `__post_init__` installs when the given one has the wrong length:
      fixed lists for two and four players, the generic list as written otherwise. */
  function ResizedFinishBonus(n: int): (b: seq<int>)
    requires n >= 2
    ensures |b| == n && b[0] == 100
  {
    if n == 2 then [100, -100]
    else if n == 4 then [100, -20, -40, -80]
    else GenericFinishBonusAsWritten(n)
  }

  /** `GameConfig(...)` with `__post_init__`: too few players, then too few decks,
      raise; a finish-bonus list of the wrong length is replaced. */
  function NewGameConfig(numDecks: int, numPlayers: int, cardsDealtAside: int, excludedRanks: set<Rank>,
                         finishBonus: seq<int>, kTongziBonus: int, aTongziBonus: int, twoTongziBonus: int,
                         dizhaBonus: int, mustBeatRule: bool): (r: Result<GameConfig, ConfigError>)
    ensures numPlayers < 2 ==> r == Err(TooFewPlayers)
    ensures numPlayers >= 2 && numDecks < 1 ==> r == Err(TooFewDecks)
    ensures r.Ok? <==> numPlayers >= 2 && numDecks >= 1
    ensures r.Ok? ==> && |r.value.finishBonus| == numPlayers
                      && (|finishBonus| == numPlayers ==> r.value.finishBonus == finishBonus)
                      && r.value == GameConfig(numDecks, numPlayers, cardsDealtAside, excludedRanks,
                                               r.value.finishBonus, kTongziBonus, aTongziBonus,
                                               twoTongziBonus, dizhaBonus, mustBeatRule)
  {
    if numPlayers < 2 then Err(TooFewPlayers)
    else if numDecks < 1 then Err(TooFewDecks)
    else
      var bonus := if |finishBonus| != numPlayers then ResizedFinishBonus(numPlayers) else finishBonus;
      Ok(GameConfig(numDecks, numPlayers, cardsDealtAside, excludedRanks, bonus,
                    kTongziBonus, aTongziBonus, twoTongziBonus, dizhaBonus, mustBeatRule))
  }

  /** A configuration construction accepts: at least two players and one deck. */
  predicate Constructed(c: GameConfig) {
    c.numPlayers >= 2 && c.numDecks >= 1 && |c.finishBonus| == c.numPlayers
  }

  /** `total_cards`: eleven ranks minus the excluded ones, four suits, per deck. */
  function TotalCards(c: GameConfig): int {
    c.numDecks * (11 - |c.excludedRanks|) * 4
  }

  /** `cards_per_player`: the cards not dealt aside, shared out with floor division. */
  function CardsPerPlayer(c: GameConfig): (k: int)
    requires c.numPlayers >= 2
    ensures k * c.numPlayers <= TotalCards(c) - c.cardsDealtAside < (k + 1) * c.numPlayers
  {
    (TotalCards(c) - c.cardsDealtAside) / c.numPlayers
  }

  // ---------------------------------------------------------------------------
  // Properties

  /** Every configuration construction accepts has one finish bonus per player: a
      list of the right length is kept; a replacement starts with 100 for first place.
      Two players get [100, -100], which sums to zero, four players [100, -20, -40, -80],
      which sums to -40, and every other count the generic list as written, which sums
      to 100 % (n - 1): zero only when n - 1 divides 100. */
  lemma ConstructionResizesBonus(numDecks: int, numPlayers: int, aside: int, excluded: set<Rank>,
                                 bonus: seq<int>, k: int, a: int, two: int, dizha: int, mustBeat: bool)
    requires numPlayers >= 2 && numDecks >= 1
    ensures var r := NewGameConfig(numDecks, numPlayers, aside, excluded, bonus, k, a, two, dizha, mustBeat);
            && r.Ok? && Constructed(r.value)
            && (|bonus| == numPlayers ==> r.value.finishBonus == bonus)
            && (|bonus| != numPlayers ==>
                  && r.value.finishBonus[0] == 100
                  && (numPlayers == 2 ==> r.value.finishBonus == [100, -100] && Sum(r.value.finishBonus) == 0)
                  && (numPlayers == 4 ==> r.value.finishBonus == [100, -20, -40, -80] && Sum(r.value.finishBonus) == -40)
                  && (numPlayers != 2 && numPlayers != 4 ==>
                        r.value.finishBonus == GenericFinishBonusAsWritten(numPlayers)
                        && Sum(r.value.finishBonus) == 100 % (numPlayers - 1)))
  {
    if numPlayers == 2 {
      SumOfTwo(100, -100);
    } else if numPlayers == 4 {
      SumOfFour(100, -20, -40, -80);
    } else {
      GenericFinishBonusAsWrittenSum(numPlayers);
    }
  }

  /** The dataclass defaults: three decks, three players, nine cards aside; 132 cards
      in play and 41 for each player. */
  lemma DefaultConfig()
    ensures var r := NewGameConfig(3, 3, 9, {}, DefaultFinishBonus, 100, 200, 300, 400, true);
            && r.Ok? && r.value.finishBonus == [100, -40, -60]
            && TotalCards(r.value) == 132 && CardsPerPlayer(r.value) == 41
  {
  }

  /** The card total is the size of the deck `create_standard_deck` builds. */
  lemma TotalCardsIsDeckSize(c: GameConfig)
    requires c.numDecks >= 1 && forall r | r in c.excludedRanks :: IsPyRank(r)
    ensures TotalCards(c) == |Packs(OnePack(5, c.excludedRanks), c.numDecks)|
  {
    var w := 11 - |c.excludedRanks|;
    ShoeContents(5, c.excludedRanks, c.numDecks, Card(Diamonds, Five));
    Reassociate(c.numDecks, w);
  }

  lemma Reassociate(n: int, w: int)
    ensures n * w * 4 == n * (4 * w)
  {
  }

  /** The generic bonus list as written loses 100 // (n - 1) for each of the n - 1
      other places, so it sums to the remainder 100 % (n - 1): zero only when n - 1
      divides 100. */
  lemma {:induction false} GenericFinishBonusAsWrittenSum(n: int)
    requires n >= 2
    ensures Sum(GenericFinishBonusAsWritten(n)) == 100 % (n - 1)
    ensures Sum(GenericFinishBonusAsWritten(n)) == 0 <==> 100 % (n - 1) == 0
  {
    var d := n - 1;
    assert GenericFinishBonusAsWritten(n) == [100] + Repeat(-(100 / d), d);
    SumAppend([100], Repeat(-(100 / d), d));
    SumRepeat(-(100 / d), d);
    assert [100][..0] == [];
    assert Sum([100]) == 100;
    RemainderLeft(d);
  }

  /** 100 + d * -q == r for q, r the quotient and remainder of 100 by d. */
  lemma RemainderLeft(d: int)
    requires d >= 1
    ensures 100 + d * -(100 / d) == 100 % d
  {
    var q := 100 / d;
    assert d * q + 100 % d == 100;
    assert d * -q == -(d * q);
  }

  /** With seven players the list as written is [100, -16, -16, -16, -16, -16, -16],
      which sums to 4, not 0. */
  lemma SevenPlayerBonusAsWrittenIsNotZeroSum()
    ensures Sum(GenericFinishBonusAsWritten(7)) == 4
  {
    GenericFinishBonusAsWrittenSum(7);
  }

  /** The intended generic list sums to zero for every player count. */
  lemma GenericFinishBonusZeroSum(n: int)
    requires n >= 2
    ensures Sum(GenericFinishBonus(n)) == 0
  {
    var d := n - 1;
    DivisionOf100(d);
    CarriedRemainderSum(d, 100 / d, 100 % d);
  }

  lemma DivisionOf100(d: int)
    requires d >= 1
    ensures d * (100 / d) + 100 % d == 100
  {
  }

  /** A list [100, -q - r, -q, ..., -q] of d + 1 entries, where d * q + r == 100, sums to zero. */
  lemma CarriedRemainderSum(d: int, q: int, r: int)
    requires d >= 1 && d * q + r == 100
    ensures Sum([100, -q - r] + Repeat(-q, d - 1)) == 0
  {
    SumAppend([100, -q - r], Repeat(-q, d - 1));
    SumRepeat(-q, d - 1);
    SumOfTwo(100, -q - r);
    ProductShift(d, q);
  }

  lemma ProductShift(d: int, q: int)
    ensures (d - 1) * -q == q - d * q
  {
  }

  /** The intended list and the list as written agree exactly when n - 1 divides 100. */
  lemma GenericFinishBonusAgreement(n: int)
    requires n >= 2
    ensures GenericFinishBonus(n) == GenericFinishBonusAsWritten(n) <==> 100 % (n - 1) == 0
  {
    var d := n - 1;
    var q := 100 / d;
    if GenericFinishBonus(n) == GenericFinishBonusAsWritten(n) {
      assert GenericFinishBonus(n)[1] == GenericFinishBonusAsWritten(n)[1];
    }
    if 100 % d == 0 {
      assert Repeat(-q, d) == [-q] + Repeat(-q, d - 1);
    }
  }
}

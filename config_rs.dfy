/**
 * The Rust `GameConfig` struct: nine fields stored as given (`GameConfig::new`
 * and the getters are the datatype's constructor and fields), a default, and
 * `validate`, which checks that the deal fits in the decks and that two to
 * four players take part.
 */
module RsConfig {
  import opened Wrappers

  /** Rust's `u8`. */
  type U8 = x: int | 0 <= x < 256

  datatype GameConfig = GameConfig(
    numDecks: U8,
    numPlayers: U8,
    cardsPerPlayer: nat,
    cardsDealtAside: nat,
    finishBonus: seq<int>,
    kTongziBonus: int,
    aTongziBonus: int,
    twoTongziBonus: int,
    dizhaBonus: int)

  /** `GameConfig::default()`. */
  const Default: GameConfig := GameConfig(3, 3, 41, 9, [100, -40, -60], 100, 200, 300, 400)

  datatype ConfigError = NotEnoughCards(required: nat, total: nat) | InvalidPlayerCount(players: U8)

  /** The cards the deal needs: every player's hand and the cards set aside. */
  function RequiredCards(c: GameConfig): nat {
    c.cardsPerPlayer * c.numPlayers + c.cardsDealtAside
  }

  /** `validate`: the deal must fit in 52 cards per deck, checked first, and the
      player count must lie in 2..=4. */
  function Validate(c: GameConfig): (r: Result<(), ConfigError>)
    ensures r.Ok? <==> RequiredCards(c) <= c.numDecks * 52 && 2 <= c.numPlayers <= 4
    ensures RequiredCards(c) > c.numDecks * 52 ==> r == Err(NotEnoughCards(RequiredCards(c), c.numDecks * 52))
    ensures RequiredCards(c) <= c.numDecks * 52 && !(2 <= c.numPlayers <= 4) ==>
              r == Err(InvalidPlayerCount(c.numPlayers))
  {
    var total := c.numDecks * 52;
    var required := RequiredCards(c);
    if required > total then Err(NotEnoughCards(required, total))
    else if !(2 <= c.numPlayers <= 4) then Err(InvalidPlayerCount(c.numPlayers))
    else Ok(())
  }

  /** The default deals 3 × 41 + 9 = 132 of 156 cards to three players and validates. */
  lemma DefaultIsValid()
    ensures RequiredCards(Default) == 132 && Default.numDecks * 52 == 156
    ensures Validate(Default) == Ok(())
  {
  }

  /** More players never make a failing deal fit: if the deal for n players does not
      fit, neither does the deal for n + 1 with the same hand size. */
  lemma MorePlayersNeedMoreCards(c: GameConfig)
    requires c.numPlayers < 255 && RequiredCards(c) > c.numDecks * 52
    ensures Validate(c.(numPlayers := c.numPlayers + 1)).Err?
  {
    var d := c.(numPlayers := c.numPlayers + 1);
    assert RequiredCards(d) == RequiredCards(c) + c.cardsPerPlayer;
  }
}

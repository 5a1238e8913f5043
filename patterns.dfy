/**
 * Play types and recognised patterns, shared by the recognizer, the beat
 * relation and the hand-search helpers. The Rust `PlayPattern::new` and its
 * getters are the datatype constructor and its field selectors.
 */
module Patterns {
  import opened Wrappers
  import opened Cards

  /** The ten play types, listed in discriminant order. */
  datatype PlayType =
    | Single
    | Pair
    | ConsecutivePairs
    | Triple
    | TripleWithTwo
    | Airplane
    | AirplaneWithWings
    | Bomb
    | Tongzi
    | Dizha

  /** The `IntEnum` value / `repr(u8)` discriminant of a play type. */
  function TypeValue(t: PlayType): (v: int)
    ensures 1 <= v <= 10
  {
    match t
    case Single => 1
    case Pair => 2
    case ConsecutivePairs => 3
    case Triple => 4
    case TripleWithTwo => 5
    case Airplane => 6
    case AirplaneWithWings => 7
    case Bomb => 8
    case Tongzi => 9
    case Dizha => 10
  }

  /** Discriminants are distinct, so the derived order on play types is total. */
  lemma TypeValueInjective(a: PlayType, b: PlayType)
    ensures TypeValue(a) == TypeValue(b) ==> a == b
  {
  }

  /** The chain types, compared by chain length before strength. */
  predicate IsChain(t: PlayType) {
    t == ConsecutivePairs || t == Airplane || t == AirplaneWithWings
  }

  /** The trump types, which override the same-type rule. */
  predicate IsTrump(t: PlayType) {
    t == Bomb || t == Tongzi || t == Dizha
  }

  /** A recognised pattern: type, main rank, suit (Single and Tongzi only),
      the rank run of a chain, the number of cards, and the comparison strength. */
  datatype PlayPattern = PlayPattern(
    playType: PlayType,
    primaryRank: Rank,
    primarySuit: Option<Suit>,
    secondaryRanks: seq<Rank>,
    cardCount: nat,
    strength: nat)
}

/**
 * Suits, ranks and cards: their integer values, the scoring value of a card,
 * the two card orderings of the two implementations, and the printed form
 * of a card together with its parser.
 */
module Cards {
  import opened Wrappers

  /** Suit values: Diamonds 1 < Clubs 2 < Hearts 3 < Spades 4. */
  type Suit = s: int | 1 <= s <= 4 witness 1

  /** Rank values: Three 3 .. Ace 14 and Two 15, the highest rank.
      The Rust enum has all thirteen; the Python enum starts at Five. */
  type Rank = r: int | 3 <= r <= 15 witness 3

  const Diamonds: Suit := 1
  const Clubs: Suit := 2
  const Hearts: Suit := 3
  const Spades: Suit := 4

  const Five: Rank := 5
  const Ten: Rank := 10
  const King: Rank := 13
  const Ace: Rank := 14
  const Two: Rank := 15

  datatype Card = Card(suit: Suit, rank: Rank)

  /** The ranks that exist in the Python enum (Five .. Two). */
  predicate IsPyRank(r: Rank) { 5 <= r }

  predicate IsPyCard(c: Card) { IsPyRank(c.rank) }

  /** Fives, Tens and Kings are the scoring cards. */
  predicate IsScoringCard(c: Card) { c.rank == Five || c.rank == Ten || c.rank == King }

  /** Points a card is worth when a round is won with it on the table. */
  function ScoreValue(c: Card): (v: int)
    ensures v == 0 || v == 5 || v == 10
    ensures v != 0 <==> IsScoringCard(c)
    ensures v == 5 <==> c.rank == Five
  {
    if c.rank == Five then 5
    else if c.rank == Ten || c.rank == King then 10
    else 0
  }

  /** Python's dataclass order: suit first, then rank. */
  predicate PyCardLess(a: Card, b: Card) {
    a.suit < b.suit || (a.suit == b.suit && a.rank < b.rank)
  }

  /** Rust's `Ord for Card`: rank first, then suit. */
  predicate RsCardLess(a: Card, b: Card) {
    a.rank < b.rank || (a.rank == b.rank && a.suit < b.suit)
  }

  /** Both orders are strict total orders on cards. */
  lemma CardOrdersAreTotal(a: Card, b: Card, c: Card)
    ensures !PyCardLess(a, a) && !RsCardLess(a, a)
    ensures a == b || PyCardLess(a, b) || PyCardLess(b, a)
    ensures a == b || RsCardLess(a, b) || RsCardLess(b, a)
    ensures PyCardLess(a, b) && PyCardLess(b, c) ==> PyCardLess(a, c)
    ensures RsCardLess(a, b) && RsCardLess(b, c) ==> RsCardLess(a, c)
  {
  }

  /** The orders agree on cards that share a suit or a rank, and disagree
      elsewhere: the Spades Five sorts after the Diamonds Two in Python and
      before it in Rust. */
  lemma CardOrdersDiverge(a: Card, b: Card)
    ensures a.suit == b.suit || a.rank == b.rank ==> (PyCardLess(a, b) <==> RsCardLess(a, b))
    ensures PyCardLess(Card(Diamonds, Two), Card(Spades, Five))
    ensures RsCardLess(Card(Spades, Five), Card(Diamonds, Two))
  {
  }

  // ----- printed form (Python `__str__` / `from_string`) -----

  function SuitSymbol(s: Suit): char {
    match s
    case 4 => '♠'  // spade
    case 3 => '♥'  // heart
    case 2 => '♣'  // club
    case 1 => '♦'  // diamond
  }

  function RankText(r: Rank): string
    requires IsPyRank(r)
  {
    match r
    case 5 => "5"
    case 6 => "6"
    case 7 => "7"
    case 8 => "8"
    case 9 => "9"
    case 10 => "10"
    case 11 => "J"
    case 12 => "Q"
    case 13 => "K"
    case 14 => "A"
    case 15 => "2"
  }

  /** The printed form: a suit symbol followed by the rank text. */
  function CardToString(c: Card): (s: string)
    requires IsPyCard(c)
    ensures 2 <= |s| <= 3
    ensures s[0] == SuitSymbol(c.suit)
  {
    [SuitSymbol(c.suit)] + RankText(c.rank)
  }

  function ParseSuit(ch: char): (r: Option<Suit>)
    ensures r.Some? ==> SuitSymbol(r.value) == ch
    ensures forall s: Suit :: SuitSymbol(s) == ch ==> r == Some(s)
  {
    if ch == '♠' then Some(Spades)
    else if ch == '♥' then Some(Hearts)
    else if ch == '♣' then Some(Clubs)
    else if ch == '♦' then Some(Diamonds)
    else None
  }

  function ParseRank(t: string): (r: Option<Rank>)
    ensures r.Some? ==> IsPyRank(r.value) && RankText(r.value) == t
    ensures forall k: Rank :: IsPyRank(k) && RankText(k) == t ==> r == Some(k)
  {
    if t == "5" then Some(5)
    else if t == "6" then Some(6)
    else if t == "7" then Some(7)
    else if t == "8" then Some(8)
    else if t == "9" then Some(9)
    else if t == "10" then Some(10)
    else if t == "J" then Some(11)
    else if t == "Q" then Some(12)
    else if t == "K" then Some(13)
    else if t == "A" then Some(14)
    else if t == "2" then Some(15)
    else None
  }

  /** Why `from_string` raises ValueError. */
  datatype ParseError = TooShort | UnknownSuit | UnknownRank

  /** `Card.from_string`: accepts exactly the printed forms of cards, and
      parsing is a left inverse of printing. */
  function CardFromString(s: string): (r: Result<Card, ParseError>)
    ensures r.Ok? ==> IsPyCard(r.value) && CardToString(r.value) == s
    ensures r.Ok? <==> exists c: Card :: IsPyCard(c) && CardToString(c) == s
    ensures |s| < 2 ==> r == Err(TooShort)
  {
    if |s| < 2 then Err(TooShort)
    else
      match ParseSuit(s[0])
      case None =>
        assert forall c: Card :: IsPyCard(c) ==> CardToString(c)[0] != s[0];
        Err(UnknownSuit)
      case Some(suit) =>
        match ParseRank(s[1..])
        case None =>
          assert forall c: Card :: IsPyCard(c) ==> CardToString(c)[1..] == RankText(c.rank);
          Err(UnknownRank)
        case Some(rank) =>
          assert CardToString(Card(suit, rank)) == s;
          Ok(Card(suit, rank))
  }

  /** Round trip: `Card.from_string(str(c)) == c` for every card. */
  lemma {:induction false} FromStringRoundTrip(c: Card)
    requires IsPyCard(c)
    ensures CardFromString(CardToString(c)) == Ok(c)
  {
    var s := CardToString(c);
    assert s[1..] == RankText(c.rank);
  }

  /** Texts the parser rejects: ranks Three, Four and unknown texts. */
  lemma FromStringRejects()
    ensures CardFromString("♠3") == Err(UnknownRank)
    ensures CardFromString("♠4") == Err(UnknownRank)
    ensures CardFromString("♠11") == Err(UnknownRank)
    ensures CardFromString("♠X") == Err(UnknownRank)
    ensures CardFromString("XA") == Err(UnknownSuit)
    ensures CardFromString("♠") == Err(TooShort)
  {
    assert "♠3"[1..] == "3";
    assert "♠4"[1..] == "4";
    assert "♠11"[1..] == "11";
    assert "♠X"[1..] == "X";
  }
}

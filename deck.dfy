/**
 * The deck: building a multi-deck shoe with some ranks left out, and
 * dealing from its end. The Python deck pops one card at a time; the Rust
 * deck splits the tail off in one step.
 */
module Decks {
  import opened Wrappers
  import opened Cards
  import opened Tally

  /** Cards of suit s with ranks lo..hi, ascending, skipping excluded ranks. */
  function SuitRun(s: Suit, lo: int, hi: int, excluded: set<Rank>): seq<Card>
    requires 3 <= lo && hi <= 15
    decreases hi - lo
  {
    if hi < lo then []
    else SuitRun(s, lo, hi - 1, excluded) + (if hi in excluded then [] else [Card(s, hi)])
  }

  /** The runs of suits 1..k (Diamonds first, Spades last), each over ranks lo..15. */
  function SuitsUpTo(k: int, lo: int, excluded: set<Rank>): seq<Card>
    requires 0 <= k <= 4 && 3 <= lo
  {
    if k == 0 then [] else SuitsUpTo(k - 1, lo, excluded) + SuitRun(k, lo, 15, excluded)
  }

  /** One pack: every suit, every rank from lo upward that is not excluded. */
  function OnePack(lo: int, excluded: set<Rank>): seq<Card>
    requires 3 <= lo
  {
    SuitsUpTo(4, lo, excluded)
  }

  /** n packs one after another (none when n <= 0). */
  function Packs(block: seq<Card>, n: int): seq<Card>
    decreases n
  {
    if n <= 0 then [] else Packs(block, n - 1) + block
  }

  function Reverse(s: seq<Card>): (r: seq<Card>)
    ensures |r| == |s|
  {
    if s == [] then [] else Reverse(s[1..]) + [s[0]]
  }

  /** Ranks of the excluded set that lie in lo..hi. */
  function ExcludedIn(excluded: set<Rank>, lo: int, hi: int): set<Rank> {
    set r | r in excluded && lo <= r <= hi
  }

  /** How many ranks of lo..hi are not excluded. */
  function Admitted(lo: int, hi: int, excluded: set<Rank>): nat
    decreases hi - lo
  {
    if hi < lo then 0 else Admitted(lo, hi - 1, excluded) + (if hi in excluded then 0 else 1)
  }

  lemma {:induction false} AdmittedFormula(lo: int, hi: int, excluded: set<Rank>)
    requires 3 <= lo && hi <= 15
    ensures Admitted(lo, hi, excluded) == (if hi < lo then 0 else hi - lo + 1) - |ExcludedIn(excluded, lo, hi)|
    decreases hi - lo
  {
    if hi < lo {
      assert ExcludedIn(excluded, lo, hi) == {};
    } else {
      AdmittedFormula(lo, hi - 1, excluded);
      var before := ExcludedIn(excluded, lo, hi - 1);
      assert hi !in before;
      if hi in excluded {
        assert ExcludedIn(excluded, lo, hi) == before + {hi};
      } else {
        assert ExcludedIn(excluded, lo, hi) == before;
      }
    }
  }

  lemma {:induction false} SuitRunLength(s: Suit, lo: int, hi: int, excluded: set<Rank>)
    requires 3 <= lo && hi <= 15
    ensures |SuitRun(s, lo, hi, excluded)| == Admitted(lo, hi, excluded)
    decreases hi - lo
  {
    if hi >= lo {
      SuitRunLength(s, lo, hi - 1, excluded);
    }
  }

  lemma {:induction false} SuitRunCount(s: Suit, lo: int, hi: int, excluded: set<Rank>, c: Card)
    requires 3 <= lo && hi <= 15
    ensures Count(SuitRun(s, lo, hi, excluded), c)
            == if c.suit == s && lo <= c.rank <= hi && c.rank !in excluded then 1 else 0
    decreases hi - lo
  {
    if hi >= lo {
      SuitRunCount(s, lo, hi - 1, excluded, c);
      var tail: seq<Card> := if hi in excluded then [] else [Card(s, hi)];
      CountAppend(SuitRun(s, lo, hi - 1, excluded), tail, c);
      assert Count(tail, c) == if c == Card(s, hi) && hi !in excluded then 1 else 0;
    }
  }

  lemma MulStep(k: int, w: int)
    ensures k * w == (k - 1) * w + w
  {
  }

  lemma {:induction false} SuitsUpToLength(k: int, lo: int, excluded: set<Rank>)
    requires 0 <= k <= 4 && 3 <= lo <= 15
    ensures |SuitsUpTo(k, lo, excluded)| == k * Admitted(lo, 15, excluded)
  {
    if k > 0 {
      var w := Admitted(lo, 15, excluded);
      SuitsUpToLength(k - 1, lo, excluded);
      SuitRunLength(k, lo, 15, excluded);
      assert |SuitsUpTo(k, lo, excluded)| == (k - 1) * w + w;
      MulStep(k, w);
    }
  }

  lemma {:induction false} SuitsUpToCount(k: int, lo: int, excluded: set<Rank>, c: Card)
    requires 0 <= k <= 4 && 3 <= lo <= 15
    ensures Count(SuitsUpTo(k, lo, excluded), c)
            == if c.suit <= k && lo <= c.rank && c.rank !in excluded then 1 else 0
  {
    if k > 0 {
      SuitsUpToCount(k - 1, lo, excluded, c);
      SuitRunCount(k, lo, 15, excluded, c);
      CountAppend(SuitsUpTo(k - 1, lo, excluded), SuitRun(k, lo, 15, excluded), c);
    }
  }

  lemma {:induction false} PacksLength(block: seq<Card>, n: int)
    ensures |Packs(block, n)| == (if n <= 0 then 0 else n) * |block|
    decreases n
  {
    if n > 0 {
      PacksLength(block, n - 1);
      MulStep(n, |block|);
    }
  }

  lemma {:induction false} PacksCount(block: seq<Card>, n: int, c: Card)
    ensures Count(Packs(block, n), c) == (if n <= 0 then 0 else n) * Count(block, c)
    decreases n
  {
    if n > 0 {
      PacksCount(block, n - 1, c);
      CountAppend(Packs(block, n - 1), block, c);
      var m := Count(block, c);
      MulStep(n, m);
    }
  }

  /** Every pack holds each admitted card exactly once: 4 × (16 − lo − |excluded|) cards. */
  lemma OnePackContents(lo: int, excluded: set<Rank>, c: Card)
    requires 3 <= lo <= 15
    requires forall r | r in excluded :: lo <= r
    ensures |OnePack(lo, excluded)| == 4 * ((16 - lo) - |excluded|)
    ensures Count(OnePack(lo, excluded), c) == if lo <= c.rank && c.rank !in excluded then 1 else 0
  {
    SuitsUpToLength(4, lo, excluded);
    SuitsUpToCount(4, lo, excluded, c);
    AdmittedFormula(lo, 15, excluded);
    assert ExcludedIn(excluded, lo, 15) == excluded;
  }

  /** A shoe of n packs holds n copies of each admitted card and nothing else. */
  lemma ShoeContents(lo: int, excluded: set<Rank>, n: int, c: Card)
    requires 3 <= lo <= 15
    requires forall r | r in excluded :: lo <= r
    ensures |Packs(OnePack(lo, excluded), n)| == (if n <= 0 then 0 else n) * (4 * ((16 - lo) - |excluded|))
    ensures Count(Packs(OnePack(lo, excluded), n), c)
            == if lo <= c.rank && c.rank !in excluded then (if n <= 0 then 0 else n) else 0
  {
    var block := OnePack(lo, excluded);
    var k := if n <= 0 then 0 else n;
    var w := (16 - lo) - |excluded|;
    OnePackContents(lo, excluded, c);
    PacksLength(block, n);
    PacksCount(block, n, c);
    if Count(block, c) == 1 {
      assert k * Count(block, c) == k;
    } else {
      assert k * Count(block, c) == 0;
    }
  }

  /** The cards of suit s, ranks lo..15 in ascending order, skipping excluded ranks. */
  method BuildSuit(s: Suit, lo: int, excluded: set<Rank>) returns (run: seq<Card>)
    requires 3 <= lo <= 15
    ensures run == SuitRun(s, lo, 15, excluded)
  {
    run := [];
    for r := lo to 16
      invariant run == SuitRun(s, lo, r - 1, excluded)
    {
      if r !in excluded {
        run := run + [Card(s, r)];
      }
    }
  }

  /** One pack: the suits in enum order, each with its run of ranks. */
  method BuildPack(lo: int, excluded: set<Rank>) returns (pack: seq<Card>)
    requires 3 <= lo <= 15
    ensures pack == OnePack(lo, excluded)
  {
    pack := [];
    for s := 1 to 5
      invariant pack == SuitsUpTo(s - 1, lo, excluded)
    {
      var run := BuildSuit(s, lo, excluded);
      pack := pack + run;
    }
  }

  datatype DealError = EmptyDeck | NotEnoughCards

  /** The Python `Deck`: a list of cards dealt from its end. */
  class PyDeck {
    var cards: seq<Card>

    /** `create_standard_deck(num_decks, excluded_ranks)`: num_decks packs of the
        eleven Python ranks, suits in enum order, minus the excluded ranks. */
    constructor CreateStandard(numDecks: int, excluded: set<Rank>)
      requires forall r | r in excluded :: IsPyRank(r)
      ensures cards == Packs(OnePack(5, excluded), numDecks)
      ensures |cards| == (if numDecks <= 0 then 0 else numDecks) * (4 * (11 - |excluded|))
      ensures forall c: Card :: Count(cards, c)
                == if IsPyRank(c.rank) && c.rank !in excluded then (if numDecks <= 0 then 0 else numDecks) else 0
    {
      var cs: seq<Card> := [];
      var d := 0;
      while d < numDecks
        invariant numDecks <= 0 ==> d == 0
        invariant numDecks > 0 ==> 0 <= d <= numDecks
        invariant cs == Packs(OnePack(5, excluded), d)
      {
        var pack := BuildPack(5, excluded);
        cs := cs + pack;
        d := d + 1;
      }
      cards := cs;
      new;
      forall c: Card
        ensures Count(cards, c)
                == if IsPyRank(c.rank) && c.rank !in excluded then (if numDecks <= 0 then 0 else numDecks) else 0
      {
        ShoeContents(5, excluded, numDecks, c);
      }
      ShoeContents(5, excluded, numDecks, Card(1, 3));
    }

    /** `deal_card`: fails on an empty deck, otherwise removes and returns the last card. */
    method DealCard() returns (r: Result<Card, DealError>)
      modifies this
      ensures old(cards) == [] ==> r == Err(EmptyDeck) && cards == old(cards)
      ensures old(cards) != [] ==>
                r == Ok(old(cards)[|old(cards)| - 1]) && cards == old(cards)[..|old(cards)| - 1]
    {
      if cards == [] {
        return Err(EmptyDeck);
      }
      r := Ok(cards[|cards| - 1]);
      cards := cards[..|cards| - 1];
    }

    /** `deal_cards(count)`: fails when count exceeds the deck, otherwise pops
        max(count, 0) cards one by one, so the last card of the deck comes first. */
    method DealCards(count: int) returns (r: Result<seq<Card>, DealError>)
      modifies this
      ensures count > |old(cards)| ==> r == Err(NotEnoughCards) && cards == old(cards)
      ensures count <= |old(cards)| ==>
                var k := if count < 0 then 0 else count;
                && r == Ok(Reverse(old(cards)[|old(cards)| - k..]))
                && cards == old(cards)[..|old(cards)| - k]
      ensures r.Ok? ==> multiset(r.value) + multiset(cards) == multiset(old(cards))
    {
      if count > |cards| {
        return Err(NotEnoughCards);
      }
      ghost var s := cards;
      var dealt: seq<Card> := [];
      var i := 0;
      while i < count
        invariant 0 <= i && (count >= 0 ==> i <= count) && (count < 0 ==> i == 0)
        invariant cards == s[..|s| - i]
        invariant dealt == Reverse(s[|s| - i..])
      {
        var c := DealCard();
        assert c.Ok?;
        assert s[|s| - (i + 1)..][1..] == s[|s| - i..];
        dealt := dealt + [c.value];
        i := i + 1;
      }
      r := Ok(dealt);
      ReverseMultiset(s[|s| - i..]);
      assert s == s[..|s| - i] + s[|s| - i..];
    }
  }

  lemma {:induction false} ReverseMultiset(s: seq<Card>)
    ensures multiset(Reverse(s)) == multiset(s)
  {
    if s != [] {
      ReverseMultiset(s[1..]);
      assert s == [s[0]] + s[1..];
    }
  }

  /** The distinct ranks listed in rs. */
  function RankSet(rs: seq<Rank>): (r: set<Rank>)
    ensures forall k :: k in r <==> k in rs
  {
    set k | k in rs
  }

  /** The Rust `Deck`. */
  class RsDeck {
    var cards: seq<Card>

    /** `Deck::new(num_decks, excluded_ranks)`: num_decks packs of the thirteen
        Rust ranks minus the excluded ones (a rank listed twice counts once). */
    constructor New(numDecks: nat, excluded: seq<Rank>)
      ensures cards == Packs(OnePack(3, RankSet(excluded)), numDecks)
      ensures |cards| == numDecks * (4 * (13 - |RankSet(excluded)|))
      ensures forall c: Card :: Count(cards, c) == if c.rank in excluded then 0 else numDecks
    {
      var ex := RankSet(excluded);
      var cs: seq<Card> := [];
      for d := 0 to numDecks
        invariant cs == Packs(OnePack(3, ex), d)
      {
        var pack := BuildPack(3, ex);
        cs := cs + pack;
      }
      cards := cs;
      new;
      forall c: Card
        ensures Count(cs, c) == if c.rank in excluded then 0 else numDecks
      {
        ShoeContents(3, ex, numDecks, c);
      }
      ShoeContents(3, ex, numDecks, Card(1, 3));
    }

    /** `len` / `remaining`. */
    function Remaining(): nat
      reads this
    {
      |cards|
    }

    /** `deal_cards(count)`: splits off the last `count` cards, in deck order.
        The source panics when count exceeds the deck. */
    method DealCards(count: nat) returns (r: Result<seq<Card>, DealError>)
      modifies this
      ensures count > |old(cards)| ==> r == Err(NotEnoughCards) && cards == old(cards)
      ensures count <= |old(cards)| ==>
                && r == Ok(old(cards)[|old(cards)| - count..])
                && cards == old(cards)[..|old(cards)| - count]
                && Remaining() == old(Remaining()) - count
      ensures r.Ok? ==> cards + r.value == old(cards)
    {
      if count > |cards| {
        return Err(NotEnoughCards);
      }
      var cut := |cards| - count;
      r := Ok(cards[cut..]);
      cards := cards[..cut];
    }
  }
}

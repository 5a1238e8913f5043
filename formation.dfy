/**
 * `PlayFormationValidator`: can a hand form a consecutive-pair chain, an
 * airplane, an airplane with wings or a triple with two whose highest rank is
 * above a given rank? Each check is a loop search over the sorted list of
 * ranks holding enough cards; the lemmas restate each answer over ranks alone
 * (a run lo..lo+n-1 of ranks each holding enough cards), which is what the
 * checks are for.
 */
module FormationValidator {
  import opened Cards
  import opened RankTallies

  /** The ranks holding at least k cards, ascending: the sorted keys of the
      `Counter` filtered by count. */
  function RanksHolding(hand: seq<Card>, k: nat): seq<Rank> {
    RanksFrom(hand, 3, k)
  }

  /** The window rs[i..i+n] steps up one rank at a time. */
  predicate Steps(rs: seq<int>, i: int, n: int)
    requires 0 <= i && i + n <= |rs|
  {
    forall j :: i <= j < i + n - 1 ==> StepAt(rs, j)
  }

  /** The rank at j + 1 is one above the rank at j. */
  predicate StepAt(rs: seq<int>, j: int)
    requires 0 <= j < |rs| - 1
  {
    rs[j] + 1 == rs[j + 1]
  }

  /** Window i of n ranks is consecutive and its highest rank is above minRank. */
  predicate WindowAbove(rs: seq<int>, n: int, minRank: int, i: int) {
    n >= 1 && 0 <= i && i + n <= |rs| && Steps(rs, i, n) && rs[i + n - 1] > minRank
  }

  /** Every rank lo..lo+n-1 holds at least k cards. */
  predicate RunHeld(hand: seq<Card>, lo: int, n: int, k: nat) {
    forall r :: lo <= r < lo + n ==> RankCount(hand, r) >= k
  }

  /** The ranks of a window, as the set `set(triple_ranks[i : i + n])`. */
  function WindowSet(rs: seq<int>, i: int, n: int): set<int>
    requires 0 <= i && i + n <= |rs| && n >= 0
  {
    set j | i <= j < i + n :: rs[j]
  }

  // ---------------------------------------------------------------------------
  // The window scan

  /** The inner `for j in range(num - 1)` loop with its `is_consecutive` flag. */
  method StepsFrom(rs: seq<int>, i: int, n: int) returns (isConsecutive: bool)
    requires 0 <= i && n >= 1 && i + n <= |rs|
    ensures isConsecutive <==> Steps(rs, i, n)
  {
    var j := 0;
    while j < n - 1
      invariant 0 <= j <= n - 1
      invariant forall j' :: i <= j' < i + j ==> StepAt(rs, j')
    {
      if rs[i + j] + 1 != rs[i + j + 1] {
        assert !StepAt(rs, i + j);
        return false;
      }
      j := j + 1;
    }
    return true;
  }

  /** The outer `for i in range(len(ranks) - num + 1)` loop shared by
      `can_form_consecutive_pairs` and `can_form_airplane`. */
  method ScanWindows(rs: seq<int>, n: int, minRank: int) returns (found: bool)
    requires n >= 1
    ensures found <==> exists i :: WindowAbove(rs, n, minRank, i)
  {
    var i := 0;
    while i < |rs| - n + 1
      invariant 0 <= i
      invariant forall i' :: 0 <= i' < i ==> !WindowAbove(rs, n, minRank, i')
    {
      var isConsecutive := StepsFrom(rs, i, n);
      if isConsecutive && rs[i + n - 1] > minRank {
        assert WindowAbove(rs, n, minRank, i);
        return true;
      }
      i := i + 1;
    }
    return false;
  }

  /** `can_form_consecutive_pairs`: some run of numPairs consecutive ranks each
      holds a pair, and its highest rank is above minRank. */
  method CanFormConsecutivePairs(hand: seq<Card>, numPairs: int, minRank: int) returns (can: bool)
    requires numPairs >= 1
    ensures can <==> exists lo :: RunHeld(hand, lo, numPairs, 2) && lo + numPairs - 1 > minRank
  {
    var pairRanks := RanksHolding(hand, 2);
    can := ScanWindows(pairRanks, numPairs, minRank);
    WindowsAreRuns(hand, 2, numPairs, minRank);
  }

  /** `can_form_airplane`: the same search over ranks holding a triple. */
  method CanFormAirplane(hand: seq<Card>, numTriples: int, minRank: int) returns (can: bool)
    requires numTriples >= 1
    ensures can <==> exists lo :: RunHeld(hand, lo, numTriples, 3) && lo + numTriples - 1 > minRank
  {
    var tripleRanks := RanksHolding(hand, 3);
    can := ScanWindows(tripleRanks, numTriples, minRank);
    WindowsAreRuns(hand, 3, numTriples, minRank);
  }

  // ---------------------------------------------------------------------------
  // Wings

  /** A rank offers a wing pair: two cards beyond its triple when it is in the
      airplane's body, two cards otherwise. */
  predicate IsSpare(hand: seq<Card>, body: set<int>, r: int) {
    if r in body then RankCount(hand, r) - 3 >= 2 else RankCount(hand, r) >= 2
  }

  /** `available_pairs`: how many of the listed ranks offer a wing pair. */
  function SpareCount(hand: seq<Card>, body: set<int>, ks: seq<int>): nat
    decreases |ks|
  {
    if ks == [] then 0
    else SpareCount(hand, body, ks[..|ks| - 1]) + (if IsSpare(hand, body, ks[|ks| - 1]) then 1 else 0)
  }

  /** The rank count is the number of distinct hand ranks offering a pair;
      ranks outside the hand offer none. */
  function Spares(hand: seq<Card>, body: set<int>): nat {
    SpareCount(hand, body, RanksHolding(hand, 1))
  }

  /** Window i carries an airplane above minRank with enough wing pairs. */
  predicate WingsAt(hand: seq<Card>, n: int, minRank: int, i: int) {
    var rs := RanksHolding(hand, 3);
    WindowAbove(rs, n, minRank, i) && Spares(hand, WindowSet(rs, i, n)) >= n
  }

  /** The `available_pairs` counting loop over the Counter's ranks. */
  method CountSpares(hand: seq<Card>, body: set<int>) returns (availablePairs: nat)
    ensures availablePairs == Spares(hand, body)
  {
    availablePairs := SpareLoop(hand, body, RanksHolding(hand, 1));
  }

  method SpareLoop(hand: seq<Card>, body: set<int>, ks: seq<int>) returns (availablePairs: nat)
    ensures availablePairs == SpareCount(hand, body, ks)
  {
    availablePairs := 0;
    for t := 0 to |ks|
      invariant availablePairs == SpareCount(hand, body, ks[..t])
    {
      assert ks[..t + 1][..t] == ks[..t];
      if ks[t] in body {
        var remaining := RankCount(hand, ks[t]) - 3;
        if remaining >= 2 {
          availablePairs := availablePairs + 1;
        }
      } else if RankCount(hand, ks[t]) >= 2 {
        availablePairs := availablePairs + 1;
      }
    }
    assert ks[..|ks|] == ks;
  }

  /** `can_form_airplane_with_wings`: a window as for `can_form_airplane` whose
      ranks leave at least numTriples wing pairs. */
  method CanFormAirplaneWithWings(hand: seq<Card>, numTriples: int, minRank: int) returns (can: bool)
    requires numTriples >= 1
    ensures can <==> exists lo :: RunHeld(hand, lo, numTriples, 3) && lo + numTriples - 1 > minRank
                                  && Spares(hand, RankSpan(lo, numTriples)) >= numTriples
  {
    var tripleRanks := RanksHolding(hand, 3);
    var i := 0;
    can := false;
    while i < |tripleRanks| - numTriples + 1
      invariant 0 <= i
      invariant forall i' :: 0 <= i' < i ==> !WingsAt(hand, numTriples, minRank, i')
    {
      var isConsecutive := StepsFrom(tripleRanks, i, numTriples);
      if isConsecutive && tripleRanks[i + numTriples - 1] > minRank {
        var airplaneRanks := WindowSet(tripleRanks, i, numTriples);
        var availablePairs := CountSpares(hand, airplaneRanks);
        if availablePairs >= numTriples {
          assert WingsAt(hand, numTriples, minRank, i);
          can := true;
          break;
        }
      }
      i := i + 1;
    }
    WingWindowsAreRuns(hand, numTriples, minRank);
  }

  // ---------------------------------------------------------------------------
  // Triple with two

  /** Some rank above minRank holds a triple, and a pair is left: two cards of
      another rank, or five of the same. */
  predicate TripleWithTwoAbove(hand: seq<Card>, minRank: int) {
    exists t | 3 <= t <= 15 :: RankCount(hand, t) >= 3 && t > minRank && PairLeft(hand, t)
  }

  /** Beside a triple of rank t, a pair is left: two cards of another rank, or
      five cards of rank t. */
  predicate PairLeft(hand: seq<Card>, t: int) {
    RankCount(hand, t) >= 5 || exists r | 3 <= r <= 15 :: r != t && RankCount(hand, r) >= 2
  }

  /** The Counter's keys are exactly the ranks present in the hand. */
  ghost predicate KeysOf(hand: seq<Card>, ks: seq<int>) {
    forall r :: r in ks <==> 3 <= r <= 15 && RankCount(hand, r) >= 1
  }

  /** The inner loop of `can_form_triple_with_two` for one triple rank. */
  method PairBeside(hand: seq<Card>, ks: seq<int>, t: int) returns (found: bool)
    requires KeysOf(hand, ks)
    ensures found <==> PairLeft(hand, t)
  {
    for m := 0 to |ks|
      invariant RankCount(hand, t) >= 5 ==> t !in ks[..m]
      invariant forall r :: r in ks[..m] && r != t ==> RankCount(hand, r) < 2
    {
      if ks[m] == t {
        if RankCount(hand, ks[m]) >= 5 {
          return true;
        }
      } else if RankCount(hand, ks[m]) >= 2 {
        assert 3 <= ks[m] <= 15 && ks[m] != t;
        return true;
      }
      assert ks[..m + 1] == ks[..m] + [ks[m]];
    }
    assert ks[..|ks|] == ks;
    if t < 3 || 15 < t {
      RankCountOutOfRange(hand, t);
    }
    return false;
  }

  /** `valid_triples`: the keys holding a triple above minRank. */
  method ValidTriples(hand: seq<Card>, ks: seq<int>, minRank: int) returns (validTriples: seq<int>)
    ensures forall t :: t in validTriples <==> t in ks && RankCount(hand, t) >= 3 && t > minRank
  {
    validTriples := [];
    for m := 0 to |ks|
      invariant forall t :: t in validTriples <==> t in ks[..m] && RankCount(hand, t) >= 3 && t > minRank
    {
      assert ks[..m + 1] == ks[..m] + [ks[m]];
      if RankCount(hand, ks[m]) >= 3 && ks[m] > minRank {
        validTriples := validTriples + [ks[m]];
      }
    }
    assert ks[..|ks|] == ks;
  }

  /** `can_form_triple_with_two`. */
  method CanFormTripleWithTwo(hand: seq<Card>, minRank: int) returns (can: bool)
    ensures can <==> TripleWithTwoAbove(hand, minRank)
  {
    var ks := RanksHolding(hand, 1);
    assert KeysOf(hand, ks);
    var validTriples := ValidTriples(hand, ks, minRank);
    if validTriples == [] {
      return false;
    }
    for v := 0 to |validTriples|
      invariant forall t :: t in validTriples[..v] ==> !PairLeft(hand, t)
    {
      var found := PairBeside(hand, ks, validTriples[v]);
      if found {
        return true;
      }
      assert validTriples[..v + 1] == validTriples[..v] + [validTriples[v]];
    }
    assert validTriples[..|validTriples|] == validTriples;
    return false;
  }

  // ---------------------------------------------------------------------------
  // From windows of the sorted rank list to runs of ranks

  /** The ranks lo..lo+n-1 as a set. */
  function RankSpan(lo: int, n: nat): set<int> {
    set r | r in RankRange(lo, n)
  }

  lemma RankSpanMembers(lo: int, n: nat, r: int)
    ensures r in RankSpan(lo, n) <==> lo <= r < lo + n
  {
    if lo <= r < lo + n {
      assert RankRange(lo, n)[r - lo] == r;
    }
  }

  /** In a strictly increasing list that holds lo and every rank of lo..lo+n-1,
      those ranks sit next to each other from lo's position on. */
  lemma {:induction false} Contiguous(rs: seq<int>, i: int, lo: int, n: int)
    requires StrictlyIncreasing(rs) && 0 <= i < |rs| && rs[i] == lo && n >= 1
    requires forall x :: lo <= x < lo + n ==> x in rs
    ensures i + n <= |rs| && forall j :: i <= j < i + n ==> rs[j] == lo + (j - i)
  {
    if n > 1 {
      Contiguous(rs, i, lo, n - 1);
      var x := lo + n - 1;
      assert x in rs;
      var p :| 0 <= p < |rs| && rs[p] == x;
      assert rs[i + n - 2] == lo + n - 2;
      if i + n - 1 < p {
        assert rs[i + n - 2] < rs[i + n - 1] < rs[p];
      }
    }
  }

  /** A stepping window holds the ranks rs[i], rs[i]+1, .... */
  lemma {:induction false} StepsAreRange(rs: seq<int>, i: int, n: int, j: int)
    requires 0 <= i && i + n <= |rs| && Steps(rs, i, n) && 0 <= j < n
    ensures rs[i + j] == rs[i] + j
  {
    if j > 0 {
      StepsAreRange(rs, i, n, j - 1);
      assert StepAt(rs, i + j - 1);
    }
  }

  /** The window at i is the run starting at rs[i]. */
  lemma WindowIsRun(hand: seq<Card>, k: nat, n: int, i: int)
    requires k >= 1 && n >= 1 && 0 <= i && i + n <= |RanksHolding(hand, k)|
    requires Steps(RanksHolding(hand, k), i, n)
    ensures var rs := RanksHolding(hand, k);
            RunHeld(hand, rs[i], n, k) && rs[i + n - 1] == rs[i] + n - 1 && WindowSet(rs, i, n) == RankSpan(rs[i], n)
  {
    var rs := RanksHolding(hand, k);
    forall r | rs[i] <= r < rs[i] + n ensures RankCount(hand, r) >= k {
      StepsAreRange(rs, i, n, r - rs[i]);
      assert rs[i + (r - rs[i])] in rs;
    }
    StepsAreRange(rs, i, n, n - 1);
    WindowSetIsSpan(rs, i, n);
  }

  lemma WindowSetIsSpan(rs: seq<int>, i: int, n: int)
    requires n >= 1 && 0 <= i && i + n <= |rs| && Steps(rs, i, n)
    ensures WindowSet(rs, i, n) == RankSpan(rs[i], n)
  {
    forall r | r in RankSpan(rs[i], n) ensures r in WindowSet(rs, i, n) {
      RankSpanMembers(rs[i], n, r);
      StepsAreRange(rs, i, n, r - rs[i]);
      assert rs[i + (r - rs[i])] == r;
    }
    forall r | r in WindowSet(rs, i, n) ensures r in RankSpan(rs[i], n) {
      var j :| i <= j < i + n && rs[j] == r;
      StepsAreRange(rs, i, n, j - i);
      RankSpanMembers(rs[i], n, r);
    }
  }

  /** A run of ranks each holding k cards is a stepping window of the sorted list. */
  lemma RunIsWindow(hand: seq<Card>, k: nat, n: int, lo: int) returns (i: int)
    requires k >= 1 && n >= 1 && RunHeld(hand, lo, n, k)
    ensures var rs := RanksHolding(hand, k);
            0 <= i && i + n <= |rs| && Steps(rs, i, n) && rs[i] == lo && rs[i + n - 1] == lo + n - 1
  {
    var rs := RanksHolding(hand, k);
    if lo < 3 || 15 < lo {
      RankCountOutOfRange(hand, lo);
      assert false;
    }
    assert lo in rs;
    i :| 0 <= i < |rs| && rs[i] == lo;
    forall x | lo <= x < lo + n ensures x in rs {
      if x < 3 || 15 < x {
        RankCountOutOfRange(hand, x);
      }
    }
    Contiguous(rs, i, lo, n);
  }

  /** The window search of the pair and airplane checks is a search for runs. */
  lemma WindowsAreRuns(hand: seq<Card>, k: nat, n: int, minRank: int)
    requires k >= 1 && n >= 1
    ensures (exists i :: WindowAbove(RanksHolding(hand, k), n, minRank, i))
            <==> exists lo :: RunHeld(hand, lo, n, k) && lo + n - 1 > minRank
  {
    var rs := RanksHolding(hand, k);
    if i :| WindowAbove(rs, n, minRank, i) {
      WindowIsRun(hand, k, n, i);
      assert RunHeld(hand, rs[i], n, k) && rs[i] + n - 1 > minRank;
    }
    if lo :| RunHeld(hand, lo, n, k) && lo + n - 1 > minRank {
      var i := RunIsWindow(hand, k, n, lo);
      assert WindowAbove(rs, n, minRank, i);
    }
  }

  /** The same for the wings check: the window's rank set is the run's span. */
  lemma WingWindowsAreRuns(hand: seq<Card>, n: int, minRank: int)
    requires n >= 1
    ensures (exists i :: WingsAt(hand, n, minRank, i))
            <==> exists lo :: RunHeld(hand, lo, n, 3) && lo + n - 1 > minRank
                              && Spares(hand, RankSpan(lo, n)) >= n
  {
    var rs := RanksHolding(hand, 3);
    if i :| WingsAt(hand, n, minRank, i) {
      WindowIsRun(hand, 3, n, i);
      assert RunHeld(hand, rs[i], n, 3) && rs[i] + n - 1 > minRank && Spares(hand, RankSpan(rs[i], n)) >= n;
    }
    if lo :| RunHeld(hand, lo, n, 3) && lo + n - 1 > minRank && Spares(hand, RankSpan(lo, n)) >= n {
      var i := RunIsWindow(hand, 3, n, lo);
      WindowIsRun(hand, 3, n, i);
      assert WingsAt(hand, n, minRank, i);
    }
  }
}

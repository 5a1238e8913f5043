/**
 * `ChainFinder`: the finders for runs of consecutive ranks — the longest run
 * of pairs, every run of pairs or triples of a given length, and the lowest
 * two-triple airplane. Each first builds `pairs_by_rank` / `triples_by_rank`
 * (the first k cards of each rank holding at least k) and sorts its keys.
 */
module ChainFinder {
  import opened Wrappers
  import opened Cards
  import opened Tally
  import opened RankTallies
  import opened HandAnalysis
  import opened FormationValidator

  // ---------------------------------------------------------------------------
  // pairs_by_rank / triples_by_rank

  /** The first k cards of every rank holding at least k, and only those ranks. */
  ghost predicate HeadsOf(hand: seq<Card>, k: nat, byRank: map<int, seq<Card>>) {
    && (forall r :: r in byRank <==> r in RanksHolding(hand, k))
    && (forall r :: r in byRank ==> byRank[r] == Take(Group(hand, RankOf, r), k))
  }

  /** Every listed rank has its entry: the first k cards of that rank. */
  ghost predicate HeadsFor(hand: seq<Card>, k: nat, byRank: map<int, seq<Card>>, rs: seq<int>) {
    forall r :: r in rs ==> r in byRank && byRank[r] == Take(Group(hand, RankOf, r), k) && RankCount(hand, r) >= k
  }

  lemma HeadsForRanks(hand: seq<Card>, k: nat, byRank: map<int, seq<Card>>)
    requires HeadsOf(hand, k, byRank)
    ensures HeadsFor(hand, k, byRank, RanksHolding(hand, k))
  {
  }

  lemma HeadsForSlice(hand: seq<Card>, k: nat, byRank: map<int, seq<Card>>, rs: seq<int>, i: int, j: int)
    requires HeadsFor(hand, k, byRank, rs) && 0 <= i <= j <= |rs|
    ensures HeadsFor(hand, k, byRank, rs[i..j])
  {
    forall r | r in rs[i..j] ensures r in rs {
    }
  }

  /** Groups the hand by rank and keeps, for each rank with at least k cards, its first k. */
  method HeadsByRank(hand: seq<Card>, k: nat) returns (byRank: map<int, seq<Card>>)
    requires k >= 1
    ensures HeadsOf(hand, k, byRank)
  {
    var keys, groups := GroupBy(hand, RankOf);
    byRank := KeepHeads(hand, keys, groups, k);
    assert keys[..|keys|] == keys;
    forall r ensures r in byRank <==> r in RanksHolding(hand, k) {
      KeyHasCards(hand, r);
      GroupSize(hand, r);
      if r < 3 || 15 < r {
        RankCountOutOfRange(hand, r);
      }
    }
  }

  /** `pairs_by_rank` (or `triples_by_rank`) with its keys sorted. */
  method SortedHeads(hand: seq<Card>, k: nat) returns (byRank: map<int, seq<Card>>, sorted: seq<int>)
    requires k >= 1
    ensures sorted == RanksHolding(hand, k) && |byRank| == |sorted|
    ensures HeadsFor(hand, k, byRank, sorted)
  {
    byRank := HeadsByRank(hand, k);
    sorted := RanksHolding(hand, k);
    SortedKeys(hand, k, byRank, sorted);
    HeadsCount(hand, k, byRank);
    HeadsForRanks(hand, k, byRank);
  }

  method KeepHeads(hand: seq<Card>, keys: seq<int>, groups: map<int, seq<Card>>, k: nat)
    returns (byRank: map<int, seq<Card>>)
    requires forall r :: Lookup(groups, r) == Group(hand, RankOf, r)
    ensures forall r :: r in byRank <==> r in keys && |Group(hand, RankOf, r)| >= k
    ensures forall r :: r in byRank ==> byRank[r] == Take(Group(hand, RankOf, r), k)
  {
    byRank := map[];
    for t := 0 to |keys|
      invariant forall r :: r in byRank <==> r in keys[..t] && |Group(hand, RankOf, r)| >= k
      invariant forall r :: r in byRank ==> byRank[r] == Take(Group(hand, RankOf, r), k)
    {
      assert forall r :: r in keys[..t + 1] <==> r in keys[..t] || r == keys[t];
      var cards := Lookup(groups, keys[t]);
      if |cards| >= k {
        byRank := byRank[keys[t] := cards[..k]];
      }
    }
    assert keys[..|keys|] == keys;
  }

  /** `len(pairs_by_rank)`: as many entries as ranks holding k cards. */
  lemma HeadsCount(hand: seq<Card>, k: nat, byRank: map<int, seq<Card>>)
    requires HeadsOf(hand, k, byRank)
    ensures |byRank| == |RanksHolding(hand, k)|
  {
    var rs := RanksHolding(hand, k);
    assert byRank.Keys == set x | x in rs;
    IncreasingSize(rs);
  }

  lemma {:induction false} IncreasingSize(rs: seq<int>)
    requires StrictlyIncreasing(rs)
    ensures |set x | x in rs| == |rs|
  {
    if rs != [] {
      var init := rs[..|rs| - 1];
      IncreasingSize(init);
      assert (set x | x in rs) == (set x | x in init) + {rs[|rs| - 1]};
      assert rs[|rs| - 1] !in init;
    }
  }

  /** `sorted(pairs_by_rank.keys())`: the only increasing list of those keys. */
  lemma SortedKeys(hand: seq<Card>, k: nat, byRank: map<int, seq<Card>>, sorted: seq<int>)
    requires HeadsOf(hand, k, byRank)
    requires StrictlyIncreasing(sorted) && forall r :: r in sorted <==> r in byRank
    ensures sorted == RanksHolding(hand, k)
  {
    IncreasingUnique(sorted, RanksHolding(hand, k));
  }

  /** A rank is a key of rank_counts exactly when some card has it. */
  lemma KeyHasCards(hand: seq<Card>, r: int)
    ensures r in Keys(hand, RankOf) <==> |Group(hand, RankOf, r)| >= 1
  {
    DistinctKeys(KeyList(hand, RankOf));
    if r in KeyList(hand, RankOf) {
      KeyListGroup(hand, r);
    } else {
      GroupOfAbsentKey(hand, RankOf, r);
    }
  }

  lemma {:induction false} KeyListGroup(hand: seq<Card>, r: int)
    requires r in KeyList(hand, RankOf)
    ensures |Group(hand, RankOf, r)| >= 1
    decreases |hand|
  {
    var init := hand[..|hand| - 1];
    if hand[|hand| - 1].rank != r {
      KeyListGroup(init, r);
    }
  }

  lemma HeadAt(hand: seq<Card>, k: nat, byRank: map<int, seq<Card>>, ks: seq<int>, j: int)
    requires HeadsFor(hand, k, byRank, ks) && 0 <= j < |ks|
    ensures ks[j] in byRank && byRank[ks[j]] == Take(Group(hand, RankOf, ks[j]), k)
  {
    var r := ks[j];
    assert r in ks;
    assert r in byRank;
    assert byRank[r] == Take(Group(hand, RankOf, r), k);
  }

  /** The first k cards of each rank in the list, ranks in list order. */
  method JoinHeads(hand: seq<Card>, k: nat, byRank: map<int, seq<Card>>, ks: seq<int>) returns (joined: seq<Card>)
    requires HeadsFor(hand, k, byRank, ks)
    ensures joined == Gather(hand, RankOf, k, ks)
  {
    joined := [];
    for j := 0 to |ks|
      invariant joined == Gather(hand, RankOf, k, ks[..j])
    {
      assert ks[..j + 1][..j] == ks[..j];
      HeadAt(hand, k, byRank, ks, j);
      joined := joined + byRank[ks[j]];
    }
    assert ks[..|ks|] == ks;
  }

  /** k cards of each rank of a list of ranks holding k cards each. */
  lemma {:induction false} GatherSize(hand: seq<Card>, k: nat, ks: seq<int>)
    requires forall r :: r in ks ==> RankCount(hand, r) >= k
    ensures |Gather(hand, RankOf, k, ks)| == k * |ks|
    decreases |ks|
  {
    if ks != [] {
      var init, last := ks[..|ks| - 1], ks[|ks| - 1];
      assert forall r :: r in init ==> r in ks;
      GatherSize(hand, k, init);
      GroupSize(hand, last);
      assert |Take(Group(hand, RankOf, last), k)| == k;
      MulStep(k, |init|);
    }
  }

  lemma MulStep(k: nat, n: nat)
    ensures k * (n + 1) == k * n + k
  {
  }

  // ---------------------------------------------------------------------------
  // find_consecutive_pairs

  /** Window i of n ranks is the longest stepping window of at least two
      ranks, and the first of that length. */
  ghost predicate LongestRun(rs: seq<int>, i: int, n: int) {
    && 2 <= n && 0 <= i && i + n <= |rs| && Steps(rs, i, n)
    && (forall j, m :: 0 <= j && j + m <= |rs| && Steps(rs, j, m) ==> m <= n)
    && (forall j :: 0 <= j < i ==> !Steps(rs, j, n))
  }

  /** No two neighbouring ranks of rs are consecutive. */
  ghost predicate NoRun(rs: seq<int>) {
    forall j :: 0 <= j && j + 2 <= |rs| ==> !Steps(rs, j, 2)
  }

  /** What the scan knows once the runs before position `s` are closed: the best run
      so far (bn == 0 when none) is the longest of them and the first of its length. */
  ghost predicate BestBefore(rs: seq<int>, s: int, bi: int, bn: int) {
    && 0 <= s <= |rs|
    && (bn == 0 || (2 <= bn && 0 <= bi && bi + bn <= s && Steps(rs, bi, bn)))
    && (forall j, m :: 0 <= j && j + m <= s && 2 <= m && Steps(rs, j, m) ==> m <= bn)
    && (bn >= 2 ==> forall j :: 0 <= j < bi ==> !Steps(rs, j, bn))
  }

  /** The run rs[s..i] ends at i; keeping it when it is longer than the best keeps `BestBefore`. */
  lemma CloseRun(rs: seq<int>, s: int, i: int, bi: int, bn: int)
    requires 0 <= s < i <= |rs| && Steps(rs, s, i - s)
    requires 0 < s ==> rs[s - 1] + 1 != rs[s]
    requires BestBefore(rs, s, bi, bn)
    ensures if i - s >= 2 && i - s > bn then BestBefore(rs, i, s, i - s) else BestBefore(rs, i, bi, bn)
  {
    var (bi', bn') := if i - s >= 2 && i - s > bn then (s, i - s) else (bi, bn);
    forall j, m | 0 <= j && j + m <= i && 2 <= m && Steps(rs, j, m) ensures m <= bn' {
      assert j < s < j + m ==> StepAt(rs, s - 1);
    }
    if bn' >= 2 && bi' == s {
      forall j | 0 <= j < bi' ensures !Steps(rs, j, bn') {
        assert Steps(rs, j, bn') && s < j + bn' ==> StepAt(rs, s - 1);
      }
    }
  }

  /** `find_consecutive_pairs`: two cards of each rank of the longest run of
      consecutive ranks holding a pair (at least two ranks long, the lowest of
      equally long runs), or nothing when no two consecutive ranks hold pairs. */
  method FindConsecutivePairs(hand: seq<Card>) returns (best: seq<Card>)
    ensures best == [] <==> NoRun(RanksHolding(hand, 2))
    ensures best != [] ==> exists i, n :: LongestRun(RanksHolding(hand, 2), i, n)
                             && best == Gather(hand, RankOf, 2, RanksHolding(hand, 2)[i..i + n])
  {
    var pairsByRank, sortedRanks := SortedHeads(hand, 2);
    if |pairsByRank| < 2 {
      return [];
    }
    best := LongestPairRun(hand, pairsByRank, sortedRanks);
  }

  /** Every listed rank holds a pair. */
  ghost predicate PairRanks(hand: seq<Card>, rs: seq<int>) {
    forall r :: r in rs ==> RankCount(hand, r) >= 2
  }

  /** The scan's state after position i: the current run rs[s..i] and the best run so far. */
  ghost predicate ScanState(hand: seq<Card>, rs: seq<int>, i: int, s: int, current: seq<Card>,
                            best: seq<Card>, bi: int, bn: int) {
    && 0 <= s <= i <= |rs| && (i == 0 <==> s == i) && Steps(rs, s, i - s)
    && (0 < s ==> rs[s - 1] + 1 != rs[s])
    && current == Gather(hand, RankOf, 2, rs[s..i]) && |current| == 2 * (i - s)
    && BestBefore(rs, s, bi, bn)
    && best == (if bn == 0 then [] else Gather(hand, RankOf, 2, rs[bi..bi + bn]))
    && |best| == 2 * bn
  }

  /** The scan over the sorted ranks, extending the current run while ranks step by one. */
  method LongestPairRun(hand: seq<Card>, pairsByRank: map<int, seq<Card>>, rs: seq<int>) returns (best: seq<Card>)
    requires PairRanks(hand, rs) && HeadsFor(hand, 2, pairsByRank, rs)
    ensures best == [] <==> NoRun(rs)
    ensures best != [] ==> exists i, n :: LongestRun(rs, i, n) && best == Gather(hand, RankOf, 2, rs[i..i + n])
  {
    best := [];
    var current: seq<Card> := [];
    ghost var s, bi, bn := 0, 0, 0;
    for i := 0 to |rs|
      invariant ScanState(hand, rs, i, s, current, best, bi, bn)
    {
      current, best, s, bi, bn := ScanRank(hand, pairsByRank, rs, i, current, best, s, bi, bn);
    }
    ghost var s0, bi0, bn0, best0 := s, bi, bn, best;
    if |rs| > 0 && |current| >= 4 && |current| > |best| {
      best := current;
      bi, bn := s, |rs| - s;
    }
    ScanEnd(hand, rs, s0, current, best0, bi0, bn0, best, bi, bn);
  }

  /** One pass of the loop body, at sorted rank rs[i]. */
  method ScanRank(hand: seq<Card>, pairsByRank: map<int, seq<Card>>, rs: seq<int>, i: int,
                  current: seq<Card>, best: seq<Card>, ghost s: int, ghost bi: int, ghost bn: int)
    returns (current': seq<Card>, best': seq<Card>, ghost s': int, ghost bi': int, ghost bn': int)
    requires PairRanks(hand, rs) && HeadsFor(hand, 2, pairsByRank, rs)
    requires 0 <= i < |rs| && ScanState(hand, rs, i, s, current, best, bi, bn)
    ensures ScanState(hand, rs, i + 1, s', current', best', bi', bn')
    ensures current' == (if current != [] && rs[i] == rs[i - 1] + 1 then current else []) + Take(Group(hand, RankOf, rs[i]), 2)
    ensures best' == if current != [] && rs[i] != rs[i - 1] + 1 && |current| >= 4 && |current| > |best| then current else best
  {
    var rank := rs[i];
    assert rank in rs;
    var pair := pairsByRank[rank];
    if current == [] {
      ScanStart(hand, rs, i, s, current, best, bi, bn);
      current', best', s', bi', bn' := pair, best, i, bi, bn;
    } else if rank == rs[i - 1] + 1 {
      ScanExtend(hand, rs, i, s, current, best, bi, bn);
      current', best', s', bi', bn' := current + pair, best, s, bi, bn;
    } else {
      ScanBreak(hand, rs, i, s, current, best, bi, bn);
      if |current| >= 4 && |current| > |best| {
        best', bi', bn' := current, s, i - s;
      } else {
        best', bi', bn' := best, bi, bn;
      }
      current', s' := pair, i;
    }
  }

  lemma ScanStart(hand: seq<Card>, rs: seq<int>, i: int, s: int, current: seq<Card>,
                  best: seq<Card>, bi: int, bn: int)
    requires PairRanks(hand, rs) && ScanState(hand, rs, i, s, current, best, bi, bn)
    requires i < |rs| && current == []
    ensures i == 0 && ScanState(hand, rs, 1, 0, Take(Group(hand, RankOf, rs[0]), 2), best, bi, bn)
  {
    RunSize(hand, rs, 0, 1);
    assert rs[0..0] == [];
  }

  lemma ScanExtend(hand: seq<Card>, rs: seq<int>, i: int, s: int, current: seq<Card>,
                   best: seq<Card>, bi: int, bn: int)
    requires PairRanks(hand, rs) && ScanState(hand, rs, i, s, current, best, bi, bn)
    requires 0 < i < |rs| && rs[i] == rs[i - 1] + 1
    ensures ScanState(hand, rs, i + 1, s, current + Take(Group(hand, RankOf, rs[i]), 2), best, bi, bn)
  {
    RunSize(hand, rs, s, i + 1);
  }

  lemma ScanBreak(hand: seq<Card>, rs: seq<int>, i: int, s: int, current: seq<Card>,
                  best: seq<Card>, bi: int, bn: int)
    requires PairRanks(hand, rs) && ScanState(hand, rs, i, s, current, best, bi, bn)
    requires 0 < i < |rs| && rs[i] != rs[i - 1] + 1
    ensures |current| >= 4 && |current| > |best| ==>
              ScanState(hand, rs, i + 1, i, Take(Group(hand, RankOf, rs[i]), 2), current, s, i - s)
    ensures !(|current| >= 4 && |current| > |best|) ==>
              ScanState(hand, rs, i + 1, i, Take(Group(hand, RankOf, rs[i]), 2), best, bi, bn)
  {
    CloseRun(rs, s, i, bi, bn);
    RunSize(hand, rs, i, i + 1);
    assert rs[i..i] == [];
  }

  /** Closing the last run and reading off the answer. */
  lemma ScanEnd(hand: seq<Card>, rs: seq<int>, s: int, current: seq<Card>, best0: seq<Card>, bi0: int, bn0: int,
                best: seq<Card>, bi: int, bn: int)
    requires ScanState(hand, rs, |rs|, s, current, best0, bi0, bn0)
    requires var kept := |rs| > 0 && |current| >= 4 && |current| > |best0|;
             (best, bi, bn) == if kept then (current, s, |rs| - s) else (best0, bi0, bn0)
    ensures best == [] <==> NoRun(rs)
    ensures best != [] ==> exists i, n :: LongestRun(rs, i, n) && best == Gather(hand, RankOf, 2, rs[i..i + n])
  {
    if |rs| > 0 {
      CloseRun(rs, s, |rs|, bi0, bn0);
    }
    assert BestBefore(rs, |rs|, bi, bn);
    if bn >= 2 {
      assert LongestRun(rs, bi, bn);
      assert Steps(rs, bi, 2);
    } else {
      forall j | 0 <= j && j + 2 <= |rs| ensures !Steps(rs, j, 2) {
      }
    }
  }

  /** Two cards for each rank of rs[s..i]. */
  lemma RunSize(hand: seq<Card>, rs: seq<int>, s: int, i: int)
    requires PairRanks(hand, rs) && 0 <= s < i <= |rs|
    ensures |Gather(hand, RankOf, 2, rs[s..i])| == 2 * (i - s)
    ensures Gather(hand, RankOf, 2, rs[s..i]) == Gather(hand, RankOf, 2, rs[s..i - 1]) + Take(Group(hand, RankOf, rs[i - 1]), 2)
  {
    forall r | r in rs[s..i] ensures RankCount(hand, r) >= 2 {
      assert r in rs;
    }
    GatherSize(hand, 2, rs[s..i]);
    assert rs[s..i][..i - 1 - s] == rs[s..i - 1];
  }

  /** Any two longest runs are the same run: the result is determined by the hand. */
  lemma LongestRunUnique(rs: seq<int>, i: int, n: int, i': int, n': int)
    requires LongestRun(rs, i, n) && LongestRun(rs, i', n')
    ensures i == i' && n == n'
  {
    assert n <= n' && n' <= n;
  }

  /** The longest run found is a run of consecutive ranks each holding a pair. */
  lemma LongestRunIsRun(hand: seq<Card>, i: int, n: int)
    requires LongestRun(RanksHolding(hand, 2), i, n)
    ensures var rs := RanksHolding(hand, 2);
            RunHeld(hand, rs[i], n, 2) && rs[i..i + n] == RankRange(rs[i], n)
  {
    var rs := RanksHolding(hand, 2);
    WindowIsRun(hand, 2, n, i);
    forall j | 0 <= j < n ensures rs[i..i + n][j] == RankRange(rs[i], n)[j] {
      StepsAreRange(rs, i, n, j);
    }
  }

  // ---------------------------------------------------------------------------
  // find_all_consecutive_pairs and find_all_airplanes

  /** The cards of every stepping window of n ranks starting before i, in window order. */
  function WindowsBefore(hand: seq<Card>, k: nat, rs: seq<int>, n: int, i: int): seq<seq<Card>>
    requires n >= 1 && 0 <= i && i + n - 1 <= |rs|
    decreases i
  {
    if i == 0 then [] else WindowsBefore(hand, k, rs, n, i - 1) + WindowAt(hand, k, rs, n, i - 1)
  }

  /** The window of n ranks at position j, when they step by one. */
  function WindowAt(hand: seq<Card>, k: nat, rs: seq<int>, n: int, j: int): seq<seq<Card>>
    requires n >= 1 && 0 <= j && j + n <= |rs|
  {
    if Steps(rs, j, n) then [Gather(hand, RankOf, k, rs[j..j + n])] else []
  }

  /** The cards of the stepping window of n ranks at position j. */
  ghost predicate WindowCards(hand: seq<Card>, k: nat, rs: seq<int>, n: int, j: int, x: seq<Card>) {
    n >= 1 && 0 <= j && j + n <= |rs| && Steps(rs, j, n) && x == Gather(hand, RankOf, k, rs[j..j + n])
  }

  /** The cards of a run of n ranks from lo, each rank holding k cards. */
  ghost predicate RunCards(hand: seq<Card>, k: nat, n: int, lo: int, x: seq<Card>) {
    n >= 0 && RunHeld(hand, lo, n, k) && x == Gather(hand, RankOf, k, RankRange(lo, n))
  }

  /** The runs of n ranks each holding k cards: k cards of every rank of each
      run, runs from the lowest up; none when n < 2. */
  function AllRuns(hand: seq<Card>, k: nat, n: int): seq<seq<Card>>
    requires k >= 1
  {
    var rs := RanksHolding(hand, k);
    if n < 2 || |rs| < n then [] else WindowsBefore(hand, k, rs, n, |rs| - n + 1)
  }

  /** `find_all_consecutive_pairs` (k = 2) and `find_all_airplanes` (k = 3). */
  method FindAllRuns(hand: seq<Card>, k: nat, n: int) returns (all: seq<seq<Card>>)
    requires k == 2 || k == 3
    ensures all == AllRuns(hand, k, n)
  {
    if n < 2 {
      return [];
    }
    var byRank, sortedRanks := SortedHeads(hand, k);
    if |byRank| < n {
      return [];
    }
    all := ScanRuns(hand, k, byRank, sortedRanks, n);
    AllRunsScanned(hand, k, n);
  }

  lemma AllRunsScanned(hand: seq<Card>, k: nat, n: int)
    requires k >= 1 && 2 <= n <= |RanksHolding(hand, k)|
    ensures var rs := RanksHolding(hand, k);
            AllRuns(hand, k, n) == WindowsBefore(hand, k, rs, n, |rs| - n + 1)
  {
  }

  method ScanRuns(hand: seq<Card>, k: nat, byRank: map<int, seq<Card>>, rs: seq<int>, n: int)
    returns (all: seq<seq<Card>>)
    requires HeadsFor(hand, k, byRank, rs)
    requires 2 <= n <= |rs|
    ensures all == WindowsBefore(hand, k, rs, n, |rs| - n + 1)
  {
    all := [];
    for i := 0 to |rs| - n + 1
      invariant all == WindowsBefore(hand, k, rs, n, i)
    {
      assert WindowsBefore(hand, k, rs, n, i + 1) == all + WindowAt(hand, k, rs, n, i);
      var isConsecutive := StepsFrom(rs, i, n);
      if isConsecutive {
        HeadsForSlice(hand, k, byRank, rs, i, i + n);
        var combination := JoinHeads(hand, k, byRank, rs[i..i + n]);
        all := all + [combination];
      }
    }
  }

  /** `find_all_consecutive_pairs(hand, num_pairs)`. */
  method FindAllConsecutivePairs(hand: seq<Card>, numPairs: int) returns (all: seq<seq<Card>>)
    ensures all == AllRuns(hand, 2, numPairs)
  {
    all := FindAllRuns(hand, 2, numPairs);
  }

  /** `find_all_airplanes(hand, num_triples)`. */
  method FindAllAirplanes(hand: seq<Card>, numTriples: int) returns (all: seq<seq<Card>>)
    ensures all == AllRuns(hand, 3, numTriples)
  {
    all := FindAllRuns(hand, 3, numTriples);
  }

  lemma {:induction false} WindowsBeforeMembers(hand: seq<Card>, k: nat, rs: seq<int>, n: int, i: int, x: seq<Card>)
    requires n >= 1 && 0 <= i && i + n - 1 <= |rs|
    ensures x in WindowsBefore(hand, k, rs, n, i) <==> exists j :: 0 <= j < i && WindowCards(hand, k, rs, n, j, x)
    decreases i
  {
    if i > 0 {
      WindowsBeforeMembers(hand, k, rs, n, i - 1, x);
      assert x in WindowAt(hand, k, rs, n, i - 1) <==> WindowCards(hand, k, rs, n, i - 1, x);
      if exists j :: 0 <= j < i && WindowCards(hand, k, rs, n, j, x) {
        var j :| 0 <= j < i && WindowCards(hand, k, rs, n, j, x);
        assert j < i - 1 || j == i - 1;
      }
    }
  }

  /** x is one of the runs listed exactly when it is k cards of each rank of a
      run lo..lo+n-1 of n >= 2 ranks that all hold k cards. */
  lemma AllRunsMembers(hand: seq<Card>, k: nat, n: int, x: seq<Card>)
    requires k >= 1
    ensures x in AllRuns(hand, k, n) <==> n >= 2 && exists lo :: RunCards(hand, k, n, lo, x)
  {
    if x in AllRuns(hand, k, n) {
      ListedRunIsRun(hand, k, n, x);
    }
    if n >= 2 && exists lo :: RunCards(hand, k, n, lo, x) {
      var lo :| RunCards(hand, k, n, lo, x);
      RunIsListed(hand, k, n, lo, x);
    }
  }

  lemma ListedRunIsRun(hand: seq<Card>, k: nat, n: int, x: seq<Card>)
    requires k >= 1 && x in AllRuns(hand, k, n)
    ensures n >= 2 && exists lo :: RunCards(hand, k, n, lo, x)
  {
    var rs := RanksHolding(hand, k);
    assert n >= 2 && |rs| >= n;
    WindowsBeforeMembers(hand, k, rs, n, |rs| - n + 1, x);
    var j :| 0 <= j < |rs| - n + 1 && WindowCards(hand, k, rs, n, j, x);
    WindowIsRun(hand, k, n, j);
    WindowIsRange(rs, j, n);
    assert RunCards(hand, k, n, rs[j], x);
  }

  lemma RunIsListed(hand: seq<Card>, k: nat, n: int, lo: int, x: seq<Card>)
    requires k >= 1 && n >= 2 && RunCards(hand, k, n, lo, x)
    ensures x in AllRuns(hand, k, n)
  {
    var rs := RanksHolding(hand, k);
    var j := RunIsWindow(hand, k, n, lo);
    WindowIsRange(rs, j, n);
    assert rs[j..j + n] == RankRange(lo, n);
    assert WindowCards(hand, k, rs, n, j, x);
    WindowIsListed(hand, k, n, j, x);
  }

  lemma WindowIsListed(hand: seq<Card>, k: nat, n: int, j: int, x: seq<Card>)
    requires k >= 1 && n >= 2 && WindowCards(hand, k, RanksHolding(hand, k), n, j, x)
    ensures x in AllRuns(hand, k, n)
  {
    var rs := RanksHolding(hand, k);
    WindowsBeforeMembers(hand, k, rs, n, |rs| - n + 1, x);
    AllRunsScanned(hand, k, n);
  }

  lemma WindowIsRange(rs: seq<int>, j: int, n: int)
    requires n >= 1 && 0 <= j && j + n <= |rs| && Steps(rs, j, n)
    ensures rs[j..j + n] == RankRange(rs[j], n)
  {
    forall p | 0 <= p < n ensures rs[j..j + n][p] == RankRange(rs[j], n)[p] {
      StepsAreRange(rs, j, n, p);
    }
  }

  // ---------------------------------------------------------------------------
  // find_airplane

  /** r is the lowest rank that starts two consecutive ranks holding triples. */
  ghost predicate LowestAirplane(hand: seq<Card>, r: int) {
    RunHeld(hand, r, 2, 3) && forall q :: q < r ==> !RunHeld(hand, q, 2, 3)
  }

  /** `find_airplane`: three cards of each of the lowest two consecutive ranks
      that both hold triples, or None when there are none. */
  method FindAirplane(hand: seq<Card>) returns (airplane: Option<seq<Card>>)
    ensures airplane.None? <==> forall r :: !RunHeld(hand, r, 2, 3)
    ensures airplane.Some? ==> exists r :: LowestAirplane(hand, r)
                                  && airplane.value == Gather(hand, RankOf, 3, RankRange(r, 2))
  {
    var triplesByRank, sortedRanks := SortedHeads(hand, 3);
    if |triplesByRank| < 2 {
      NoAirplaneInShortList(hand, sortedRanks);
      return None;
    }
    airplane := FirstPairOfTriples(hand, triplesByRank, sortedRanks);
  }

  lemma NoAirplaneInShortList(hand: seq<Card>, rs: seq<int>)
    requires rs == RanksHolding(hand, 3) && |rs| < 2
    ensures forall r :: !RunHeld(hand, r, 2, 3)
  {
    forall r ensures !RunHeld(hand, r, 2, 3) {
      if RunHeld(hand, r, 2, 3) {
        AirplaneAt(hand, r);
      }
    }
  }

  /** An airplane at q is two neighbouring entries q, q + 1 of the sorted triple ranks. */
  lemma AirplaneAt(hand: seq<Card>, q: int)
    requires RunHeld(hand, q, 2, 3)
    ensures var rs := RanksHolding(hand, 3);
            exists j :: 0 <= j && j + 1 < |rs| && rs[j] == q && rs[j + 1] == q + 1
  {
    var rs := RanksHolding(hand, 3);
    var j := RunIsWindow(hand, 3, 2, q);
    assert rs[j] == q && rs[j + 1] == q + 1;
  }

  method FirstPairOfTriples(hand: seq<Card>, triplesByRank: map<int, seq<Card>>, rs: seq<int>)
    returns (airplane: Option<seq<Card>>)
    requires HeadsFor(hand, 3, triplesByRank, rs) && rs == RanksHolding(hand, 3) && |rs| >= 2
    ensures airplane.None? <==> forall r :: !RunHeld(hand, r, 2, 3)
    ensures airplane.Some? ==> exists r :: LowestAirplane(hand, r)
                                  && airplane.value == Gather(hand, RankOf, 3, RankRange(r, 2))
  {
    for i := 0 to |rs| - 1
      invariant forall j :: 0 <= j < i ==> rs[j] + 1 != rs[j + 1]
    {
      if rs[i] + 1 == rs[i + 1] {
        assert rs[i] in rs && rs[i + 1] in rs;
        var cards := triplesByRank[rs[i]] + triplesByRank[rs[i + 1]];
        FoundAirplane(hand, rs, i);
        return Some(cards);
      }
    }
    LowerAirplanes(hand, rs, |rs| - 1);
    return None;
  }

  /** The first step in the sorted triple ranks is the lowest airplane. */
  lemma FoundAirplane(hand: seq<Card>, rs: seq<int>, i: int)
    requires rs == RanksHolding(hand, 3) && 0 <= i && i + 1 < |rs| && rs[i] + 1 == rs[i + 1]
    requires forall j :: 0 <= j < i ==> rs[j] + 1 != rs[j + 1]
    ensures LowestAirplane(hand, rs[i])
    ensures Gather(hand, RankOf, 3, RankRange(rs[i], 2))
            == Take(Group(hand, RankOf, rs[i]), 3) + Take(Group(hand, RankOf, rs[i + 1]), 3)
  {
    assert rs[i] in rs && rs[i + 1] in rs;
    assert RunHeld(hand, rs[i], 2, 3);
    LowerAirplanes(hand, rs, i);
    GatherTwo(hand, rs[i]);
  }

  lemma GatherTwo(hand: seq<Card>, r: int)
    ensures Gather(hand, RankOf, 3, RankRange(r, 2))
            == Take(Group(hand, RankOf, r), 3) + Take(Group(hand, RankOf, r + 1), 3)
  {
    var two := RankRange(r, 2);
    assert two[..1] == RankRange(r, 1) == [r] && two[1] == r + 1;
    assert Gather(hand, RankOf, 3, [r]) == Take(Group(hand, RankOf, r), 3) by {
      assert [r][..0] == [];
    }
  }

  /** With no step among the first i + 1 sorted ranks, no airplane starts below rs[i]
      (below any rank at all when i is the last position). */
  lemma LowerAirplanes(hand: seq<Card>, rs: seq<int>, i: int)
    requires rs == RanksHolding(hand, 3) && 0 <= i < |rs|
    requires forall j :: 0 <= j < i ==> rs[j] + 1 != rs[j + 1]
    ensures forall q :: (i == |rs| - 1 || q < rs[i]) ==> !RunHeld(hand, q, 2, 3)
  {
    forall q | i == |rs| - 1 || q < rs[i] ensures !RunHeld(hand, q, 2, 3) {
      if RunHeld(hand, q, 2, 3) {
        AirplaneAt(hand, q);
      }
    }
  }
}

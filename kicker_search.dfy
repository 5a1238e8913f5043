/**
 * What the kicker knapsack search computes. A leaf of the search is an
 * assignment of a take to every block; its cost is the sum of the takes'
 * costs plus 100 per slot left unfilled. Both searches, with and without the
 * source's pruning, always end on such a leaf, so the sentinel is never
 * reported; only the search without pruning is guaranteed to end on the
 * cheapest one.
 */
module KickerSearch {
  import opened Wrappers
  import opened Cards
  import opened Kicker

  // ---------------------------------------------------------------------------
  // Assignments of takes to blocks

  /** Each take fits its block. */
  predicate Bounded(blocks: seq<Block>, takes: seq<nat>) {
    |takes| <= |blocks| && forall i :: 0 <= i < |takes| ==> takes[i] <= blocks[i].count
  }

  function Total(takes: seq<nat>): nat {
    if takes == [] then 0 else Total(takes[..|takes| - 1]) + takes[|takes| - 1]
  }

  /** The selection of an assignment: one entry per block with a positive take. */
  function Picks(blocks: seq<Block>, takes: seq<nat>): seq<Pick>
    requires |takes| <= |blocks|
  {
    if takes == [] then []
    else
      var n := |takes| - 1;
      Picks(blocks, takes[..n]) + (if takes[n] > 0 then [Pick(blocks[n].rank, takes[n])] else [])
  }

  function CostSum(blocks: seq<Block>, takes: seq<nat>, tactic: Tactic): int
    requires Bounded(blocks, takes)
  {
    if takes == [] then 0
    else
      var n := |takes| - 1;
      CostSum(blocks, takes[..n], tactic) + Cost(blocks[n], takes[n], tactic)
  }

  /** A complete assignment within the capacity: a leaf of the search. */
  predicate Fits(blocks: seq<Block>, capacity: nat, takes: seq<nat>) {
    |takes| == |blocks| && Bounded(blocks, takes) && Total(takes) <= capacity
  }

  /** The total the search gives a leaf. */
  function LeafCost(blocks: seq<Block>, capacity: nat, tactic: Tactic, takes: seq<nat>): int
    requires Fits(blocks, capacity, takes)
  {
    CostSum(blocks, takes, tactic) + 100 * (capacity - Total(takes))
  }

  /** The incumbent, unless it is the sentinel, is some leaf with its cost. */
  ghost predicate Attained(blocks: seq<Block>, capacity: nat, tactic: Tactic, best: Incumbent) {
    best.totalCost.Some? ==>
      exists takes :: Fits(blocks, capacity, takes)
                      && best.selected == Picks(blocks, takes)
                      && best.totalCost.value == LeafCost(blocks, capacity, tactic, takes)
  }

  /** The search state at block idx is the prefix path of an assignment. */
  predicate OnPath(blocks: seq<Block>, tactic: Tactic, idx: nat, count: nat, cost: int, selection: seq<Pick>, path: seq<nat>) {
    && |path| == idx
    && Bounded(blocks, path)
    && count == Total(path)
    && cost == CostSum(blocks, path, tactic)
    && selection == Picks(blocks, path)
  }

  function Zeros(k: nat): seq<nat> { seq(k, _ => 0) }

  // ---------------------------------------------------------------------------
  // Facts about assignments

  lemma Extend(blocks: seq<Block>, tactic: Tactic, idx: nat, count: nat, cost: int, selection: seq<Pick>, path: seq<nat>, take: nat)
    requires idx < |blocks| && take <= blocks[idx].count
    requires OnPath(blocks, tactic, idx, count, cost, selection, path)
    ensures OnPath(blocks, tactic, idx + 1, count + take, cost + Cost(blocks[idx], take, tactic),
                   if take > 0 then selection + [Pick(blocks[idx].rank, take)] else selection, path + [take])
  {
    assert (path + [take])[..idx] == path;
  }

  /** Padding a prefix with zero takes changes neither its selection nor its cost nor its total. */
  lemma {:induction false} Pad(blocks: seq<Block>, tactic: Tactic, path: seq<nat>, k: nat)
    requires Bounded(blocks, path) && |path| + k <= |blocks|
    ensures Bounded(blocks, path + Zeros(k))
    ensures Total(path + Zeros(k)) == Total(path)
    ensures Picks(blocks, path + Zeros(k)) == Picks(blocks, path)
    ensures CostSum(blocks, path + Zeros(k), tactic) == CostSum(blocks, path, tactic)
  {
    if k == 0 {
      assert path + Zeros(0) == path;
    } else {
      Pad(blocks, tactic, path, k - 1);
      var longer := path + Zeros(k);
      assert longer[..|longer| - 1] == path + Zeros(k - 1);
    }
  }

  /** A prefix never holds more than the whole. */
  lemma {:induction false} TotalPrefix(takes: seq<nat>, idx: nat)
    requires idx <= |takes|
    ensures Total(takes[..idx]) <= Total(takes)
    decreases |takes|
  {
    if idx < |takes| {
      var init := takes[..|takes| - 1];
      TotalPrefix(init, idx);
      assert init[..idx] == takes[..idx];
    } else {
      assert takes[..idx] == takes;
    }
  }

  /** When the prefix already holds the whole total, the rest takes nothing and costs nothing. */
  lemma {:induction false} ZeroTail(blocks: seq<Block>, tactic: Tactic, takes: seq<nat>, idx: nat)
    requires Bounded(blocks, takes) && idx <= |takes|
    requires Total(takes) == Total(takes[..idx])
    ensures CostSum(blocks, takes, tactic) == CostSum(blocks, takes[..idx], tactic)
    decreases |takes|
  {
    if idx < |takes| {
      var init := takes[..|takes| - 1];
      TotalPrefix(init, idx);
      assert init[..idx] == takes[..idx];
      ZeroTail(blocks, tactic, init, idx);
    } else {
      assert takes[..idx] == takes;
    }
  }

  // ---------------------------------------------------------------------------
  // Every search ends on a leaf, never on the sentinel

  /** The search never leaves a worse incumbent than it found, and, whenever it
      is not pruned at once, it ends with a leaf. */
  lemma {:induction false} SearchNoWorse(blocks: seq<Block>, capacity: nat, tactic: Tactic, prune: bool,
                                         idx: nat, count: nat, cost: int, selection: seq<Pick>, best: Incumbent)
    requires idx <= |blocks| && count <= capacity
    ensures Search(blocks, capacity, tactic, prune, idx, count, cost, selection, best).totalCost.Some?
    ensures best.totalCost.Some? ==>
              Search(blocks, capacity, tactic, prune, idx, count, cost, selection, best).totalCost.value <= best.totalCost.value
    decreases |blocks| - idx, 1, 0
  {
    if !(prune && Reaches(cost, best)) && idx < |blocks| && count < capacity {
      TakesNoWorse(blocks, capacity, tactic, prune, idx, count, cost, selection, best, 0);
    }
  }

  lemma {:induction false} TakesNoWorse(blocks: seq<Block>, capacity: nat, tactic: Tactic, prune: bool,
                                        idx: nat, count: nat, cost: int, selection: seq<Pick>, best: Incumbent, take: nat)
    requires idx < |blocks| && count < capacity
    ensures best.totalCost.Some? || take <= Bound(blocks, capacity, idx, count) ==>
              Takes(blocks, capacity, tactic, prune, idx, count, cost, selection, best, take).totalCost.Some?
    ensures best.totalCost.Some? ==>
              Takes(blocks, capacity, tactic, prune, idx, count, cost, selection, best, take).totalCost.value <= best.totalCost.value
    decreases |blocks| - idx, 0, Bound(blocks, capacity, idx, count) + 1 - take
  {
    if take <= Bound(blocks, capacity, idx, count) {
      var block := blocks[idx];
      var next := if take > 0 then selection + [Pick(block.rank, take)] else selection;
      var after := Search(blocks, capacity, tactic, prune, idx + 1, count + take, cost + Cost(block, take, tactic), next, best);
      SearchNoWorse(blocks, capacity, tactic, prune, idx + 1, count + take, cost + Cost(block, take, tactic), next, best);
      TakesNoWorse(blocks, capacity, tactic, prune, idx, count, cost, selection, after, take + 1);
    }
  }

  /** Every incumbent the search records is a leaf with its cost. */
  lemma {:induction false} SearchAttained(blocks: seq<Block>, capacity: nat, tactic: Tactic, prune: bool,
                                          idx: nat, count: nat, cost: int, selection: seq<Pick>, best: Incumbent,
                                          path: seq<nat>)
    requires idx <= |blocks| && count <= capacity
    requires OnPath(blocks, tactic, idx, count, cost, selection, path)
    requires Attained(blocks, capacity, tactic, best)
    ensures Attained(blocks, capacity, tactic, Search(blocks, capacity, tactic, prune, idx, count, cost, selection, best))
    decreases |blocks| - idx, 1, 0
  {
    if prune && Reaches(cost, best) {
    } else if idx == |blocks| {
      LeafAttained(blocks, capacity, tactic, count, cost, selection, path, cost + Unfilled(capacity, count), path);
    } else if count == capacity {
      Pad(blocks, tactic, path, |blocks| - idx);
      LeafAttained(blocks, capacity, tactic, count, cost, selection, path, cost, path + Zeros(|blocks| - idx));
    } else {
      TakesAttained(blocks, capacity, tactic, prune, idx, count, cost, selection, best, path, 0);
    }
  }

  /** A leaf recorded from the state of path is the assignment takes. */
  lemma LeafAttained(blocks: seq<Block>, capacity: nat, tactic: Tactic, count: nat, cost: int, selection: seq<Pick>,
                     path: seq<nat>, total: int, takes: seq<nat>)
    requires count <= capacity && |takes| == |blocks| && Bounded(blocks, takes)
    requires Total(takes) == count && CostSum(blocks, takes, tactic) == cost && Picks(blocks, takes) == selection
    requires total == cost + 100 * (capacity - count)
    ensures Attained(blocks, capacity, tactic, Incumbent(selection, Some(total)))
  {
    assert Fits(blocks, capacity, takes);
  }

  lemma {:induction false} TakesAttained(blocks: seq<Block>, capacity: nat, tactic: Tactic, prune: bool,
                                         idx: nat, count: nat, cost: int, selection: seq<Pick>, best: Incumbent,
                                         path: seq<nat>, take: nat)
    requires idx < |blocks| && count < capacity
    requires OnPath(blocks, tactic, idx, count, cost, selection, path)
    requires Attained(blocks, capacity, tactic, best)
    ensures Attained(blocks, capacity, tactic, Takes(blocks, capacity, tactic, prune, idx, count, cost, selection, best, take))
    decreases |blocks| - idx, 0, Bound(blocks, capacity, idx, count) + 1 - take
  {
    if take <= Bound(blocks, capacity, idx, count) {
      var block := blocks[idx];
      var next := if take > 0 then selection + [Pick(block.rank, take)] else selection;
      var after := Search(blocks, capacity, tactic, prune, idx + 1, count + take, cost + Cost(block, take, tactic), next, best);
      Extend(blocks, tactic, idx, count, cost, selection, path, take);
      SearchAttained(blocks, capacity, tactic, prune, idx + 1, count + take, cost + Cost(block, take, tactic), next, best, path + [take]);
      TakesAttained(blocks, capacity, tactic, prune, idx, count, cost, selection, after, path, take + 1);
    }
  }

  // ---------------------------------------------------------------------------
  // Without pruning the search finds the cheapest leaf

  lemma {:induction false} SearchOptimal(blocks: seq<Block>, capacity: nat, tactic: Tactic,
                                         idx: nat, count: nat, cost: int, selection: seq<Pick>, best: Incumbent,
                                         path: seq<nat>, takes: seq<nat>)
    requires idx <= |blocks| && count <= capacity
    requires OnPath(blocks, tactic, idx, count, cost, selection, path)
    requires Fits(blocks, capacity, takes) && takes[..idx] == path
    ensures Search(blocks, capacity, tactic, false, idx, count, cost, selection, best).totalCost.Some?
    ensures Search(blocks, capacity, tactic, false, idx, count, cost, selection, best).totalCost.value
            <= LeafCost(blocks, capacity, tactic, takes)
    decreases |blocks| - idx, 1, 0
  {
    SearchNoWorse(blocks, capacity, tactic, false, idx, count, cost, selection, best);
    if idx == |blocks| {
      assert takes == takes[..idx];
    } else if count == capacity {
      TotalPrefix(takes, idx);
      ZeroTail(blocks, tactic, takes, idx);
    } else {
      TotalPrefix(takes, idx + 1);
      assert takes[..idx + 1] == path + [takes[idx]];
      TakesOptimal(blocks, capacity, tactic, idx, count, cost, selection, best, path, takes, 0);
    }
  }

  lemma {:induction false} TakesOptimal(blocks: seq<Block>, capacity: nat, tactic: Tactic,
                                        idx: nat, count: nat, cost: int, selection: seq<Pick>, best: Incumbent,
                                        path: seq<nat>, takes: seq<nat>, take: nat)
    requires idx < |blocks| && count < capacity
    requires OnPath(blocks, tactic, idx, count, cost, selection, path)
    requires Fits(blocks, capacity, takes) && takes[..idx] == path
    requires take <= takes[idx] <= Bound(blocks, capacity, idx, count)
    ensures Takes(blocks, capacity, tactic, false, idx, count, cost, selection, best, take).totalCost.Some?
    ensures Takes(blocks, capacity, tactic, false, idx, count, cost, selection, best, take).totalCost.value
            <= LeafCost(blocks, capacity, tactic, takes)
    decreases |blocks| - idx, 0, Bound(blocks, capacity, idx, count) + 1 - take
  {
    var block := blocks[idx];
    var next := if take > 0 then selection + [Pick(block.rank, take)] else selection;
    var after := Search(blocks, capacity, tactic, false, idx + 1, count + take, cost + Cost(block, take, tactic), next, best);
    if take == takes[idx] {
      Extend(blocks, tactic, idx, count, cost, selection, path, take);
      assert takes[..idx + 1] == path + [take];
      SearchOptimal(blocks, capacity, tactic, idx + 1, count + take, cost + Cost(block, take, tactic), next, best, path + [take], takes);
      TakesNoWorse(blocks, capacity, tactic, false, idx, count, cost, selection, after, take + 1);
    } else {
      TakesOptimal(blocks, capacity, tactic, idx, count, cost, selection, after, path, takes, take + 1);
    }
  }

  // ---------------------------------------------------------------------------
  // What solve_knapsack returns

  /** The number of cards a selection takes. */
  function Taken(picks: seq<Pick>): nat {
    if picks == [] then 0 else Taken(picks[..|picks| - 1]) + picks[|picks| - 1].take
  }

  /** Every entry of an assignment's selection takes at least one and at most the
      block's count of cards of a block's rank, and the entries take the
      assignment's total. */
  lemma {:induction false} PicksWithin(blocks: seq<Block>, takes: seq<nat>)
    requires Bounded(blocks, takes)
    ensures forall p :: p in Picks(blocks, takes) ==>
              0 < p.take && exists i :: 0 <= i < |takes| && blocks[i].rank == p.rank && p.take <= blocks[i].count
    ensures Taken(Picks(blocks, takes)) == Total(takes)
  {
    if takes != [] {
      var n := |takes| - 1;
      PicksWithin(blocks, takes[..n]);
      var tail := if takes[n] > 0 then [Pick(blocks[n].rank, takes[n])] else [];
      TakenAppend(Picks(blocks, takes[..n]), tail);
    }
  }

  lemma {:induction false} TakenAppend(a: seq<Pick>, b: seq<Pick>)
    ensures Taken(a + b) == Taken(a) + Taken(b)
    decreases |b|
  {
    if b == [] {
      assert a + b == a;
    } else {
      TakenAppend(a, b[..|b| - 1]);
      assert (a + b)[..|a + b| - 1] == a + b[..|b| - 1];
    }
  }

  /** `solve_knapsack` reports a leaf: its selection and that leaf's cost. So every
      entry takes between one card and its block's count, the entries take at
      most the capacity, and the sentinel branch never applies. */
  lemma SolveAttained(blocks: seq<Block>, capacity: nat, tactic: Tactic)
    ensures exists takes :: Fits(blocks, capacity, takes)
                            && Solve(blocks, capacity, tactic).selected == Picks(blocks, takes)
                            && Solve(blocks, capacity, tactic).totalCost == LeafCost(blocks, capacity, tactic, takes)
    ensures forall p :: p in Solve(blocks, capacity, tactic).selected ==>
              0 < p.take && exists i :: 0 <= i < |blocks| && blocks[i].rank == p.rank && p.take <= blocks[i].count
    ensures Taken(Solve(blocks, capacity, tactic).selected) <= capacity
  {
    var start := Incumbent([], None);
    SearchAttained(blocks, capacity, tactic, true, 0, 0, 0, [], start, []);
    SearchNoWorse(blocks, capacity, tactic, true, 0, 0, 0, [], start);
    var takes :| Fits(blocks, capacity, takes)
                 && Solve(blocks, capacity, tactic).selected == Picks(blocks, takes)
                 && Solve(blocks, capacity, tactic).totalCost == LeafCost(blocks, capacity, tactic, takes);
    PicksWithin(blocks, takes);
  }

  /** The search without the pruning step. */
  function SolveExhaustive(blocks: seq<Block>, capacity: nat, tactic: Tactic): KnapsackResult {
    Report(Search(blocks, capacity, tactic, false, 0, 0, 0, [], Incumbent([], None)))
  }

  /** Without pruning the search reports a leaf, and no leaf is cheaper. */
  lemma ExhaustiveIsOptimal(blocks: seq<Block>, capacity: nat, tactic: Tactic)
    ensures exists takes :: Fits(blocks, capacity, takes)
                            && SolveExhaustive(blocks, capacity, tactic).selected == Picks(blocks, takes)
                            && SolveExhaustive(blocks, capacity, tactic).totalCost == LeafCost(blocks, capacity, tactic, takes)
    ensures forall takes :: Fits(blocks, capacity, takes) ==>
              SolveExhaustive(blocks, capacity, tactic).totalCost <= LeafCost(blocks, capacity, tactic, takes)
  {
    var start := Incumbent([], None);
    SearchAttained(blocks, capacity, tactic, false, 0, 0, 0, [], start, []);
    SearchNoWorse(blocks, capacity, tactic, false, 0, 0, 0, [], start);
    forall takes | Fits(blocks, capacity, takes)
      ensures SolveExhaustive(blocks, capacity, tactic).totalCost <= LeafCost(blocks, capacity, tactic, takes)
    {
      assert takes[..0] == [];
      SearchOptimal(blocks, capacity, tactic, 0, 0, 0, [], start, [], takes);
    }
  }

  // ---------------------------------------------------------------------------
  // The pruning step can discard the cheapest leaf

  /** A single Three, a pair of Twos and a single Four. */
  const ThreeTwoFour: seq<Block> := [Block(3, 1, false, false, false), Block(Two, 2, false, true, false), Block(4, 1, false, false, false)]

  /** With capacity 2 and the Aggressive tactic the search settles on the two Twos
      (cost -175): once that leaf is the incumbent, the branch that takes the
      Three first costs -102, which reaches -175, and is cut, although taking the
      Three and the Four costs -203. The search without pruning does at least as
      well as that leaf. */
  lemma PruningMissesCheaperLeaf()
    ensures Solve(ThreeTwoFour, 2, Aggressive) == KnapsackResult([Pick(Two, 2)], -175)
    ensures Fits(ThreeTwoFour, 2, [1, 0, 1]) && LeafCost(ThreeTwoFour, 2, Aggressive, [1, 0, 1]) == -203
    ensures SolveExhaustive(ThreeTwoFour, 2, Aggressive).totalCost <= -203
  {
    var b := ThreeTwoFour;
    var start := Incumbent([], None);
    assert Cost(b[0], 1, Aggressive) == -102;
    assert Cost(b[1], 1, Aggressive) == -55;
    assert Cost(b[1], 2, Aggressive) == -175;
    assert Cost(b[2], 1, Aggressive) == -101;
    var p4, p2, p22, p3 := Pick(4, 1), Pick(Two, 1), Pick(Two, 2), Pick(3, 1);
    // Nothing from the Three, nothing from the Twos.
    var a1 := Incumbent([], Some(200));
    assert Search(b, 2, Aggressive, true, 3, 0, 0, [], start) == a1;
    var a2 := Incumbent([p4], Some(-1));
    assert Search(b, 2, Aggressive, true, 3, 1, -101, [p4], a1) == a2;
    assert Takes(b, 2, Aggressive, true, 2, 0, 0, [], a2, 2) == a2;
    assert Takes(b, 2, Aggressive, true, 2, 0, 0, [], a1, 1) == a2;
    assert Takes(b, 2, Aggressive, true, 2, 0, 0, [], start, 0) == a2;
    assert Search(b, 2, Aggressive, true, 2, 0, 0, [], start) == a2;
    // One Two.
    assert Search(b, 2, Aggressive, true, 3, 1, -55, [p2], a2) == a2;
    var a3 := Incumbent([p2, p4], Some(-156));
    assert Search(b, 2, Aggressive, true, 3, 2, -156, [p2, p4], a2) == a3;
    assert Takes(b, 2, Aggressive, true, 2, 1, -55, [p2], a3, 2) == a3;
    assert Takes(b, 2, Aggressive, true, 2, 1, -55, [p2], a2, 1) == a3;
    assert Takes(b, 2, Aggressive, true, 2, 1, -55, [p2], a2, 0) == a3;
    assert Search(b, 2, Aggressive, true, 2, 1, -55, [p2], a2) == a3;
    // Both Twos fill the capacity.
    var a4 := Incumbent([p22], Some(-175));
    assert Search(b, 2, Aggressive, true, 2, 2, -175, [p22], a3) == a4;
    assert Takes(b, 2, Aggressive, true, 1, 0, 0, [], a4, 3) == a4;
    assert Takes(b, 2, Aggressive, true, 1, 0, 0, [], a3, 2) == a4;
    assert [] + [p2] == [p2] && [] + [p22] == [p22];
    assert Takes(b, 2, Aggressive, true, 1, 0, 0, [], a2, 1) == a4;
    assert Takes(b, 2, Aggressive, true, 1, 0, 0, [], start, 0) == a4;
    assert Search(b, 2, Aggressive, true, 1, 0, 0, [], start) == a4;
    // Taking the Three is cut at once.
    assert Search(b, 2, Aggressive, true, 1, 1, -102, [p3], a4) == a4;
    assert Takes(b, 2, Aggressive, true, 0, 0, 0, [], a4, 2) == a4;
    assert Takes(b, 2, Aggressive, true, 0, 0, 0, [], a4, 1) == a4;
    assert Takes(b, 2, Aggressive, true, 0, 0, 0, [], start, 0) == a4;
    assert Search(b, 2, Aggressive, true, 0, 0, 0, [], start) == a4;
    // The leaf of the Three and the Four.
    var t: seq<nat> := [1, 0, 1];
    assert t[..2][..1] == [1] && t[..2] == [1, 0] && [1][..0] == [];
    assert Total(t) == 2;
    assert CostSum(b, [1], Aggressive) == -102;
    assert CostSum(b, [1, 0], Aggressive) == -102;
    assert CostSum(b, t, Aggressive) == -203;
    ExhaustiveIsOptimal(b, 2, Aggressive);
  }
}

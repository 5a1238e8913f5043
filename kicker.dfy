/**
 * The Rust kicker selection: the cards that go with a triple or an airplane
 * body. The cards still free (not in the body, not of a rank held four or more
 * times) are grouped into one block per rank; a depth-first knapsack search
 * chooses how many cards to take from each block, scoring each choice with a
 * cost that depends on the tactic; the chosen counts become cards again.
 *
 * Costs are integers: every constant of the cost formula is integral, and the
 * floating-point sentinel `f32::MAX` of an empty incumbent is `None`.
 */
module Kicker {
  import opened Wrappers
  import opened Cards
  import opened Tally
  import opened HandAnalysis

  // ---------------------------------------------------------------------------
  // Tactics, blocks and the cost of a take

  datatype Tactic = Efficiency | SaveHigh | DumpScore | HoardScore | Aggressive

  /** The cards of one rank that are free to be taken. */
  datatype Block = Block(rank: Rank, count: nat, isScore: bool, isBig: bool, isPower: bool)

  function Min(a: nat, b: nat): nat { if a <= b then a else b }

  /** `Block::from_cards`: the cards of the rank, flagged as scoring (Ten, King),
      big (Ace, Two) or power (four or more). */
  function BlockOf(cards: seq<Card>, rank: Rank): Block {
    var count := |Group(cards, RankOf, rank)|;
    Block(rank, count, rank == Ten || rank == King, rank == Ace || rank == Two, count >= 4)
  }

  /** A block counts every card of its rank, so it is empty exactly when no card
      has the rank; its flags follow the rank and the count. */
  lemma BlockCounts(cards: seq<Card>, rank: Rank)
    ensures BlockOf(cards, rank).count == multiset(Group(cards, RankOf, rank))[Card(Diamonds, rank)]
              + multiset(Group(cards, RankOf, rank))[Card(Clubs, rank)]
              + multiset(Group(cards, RankOf, rank))[Card(Hearts, rank)]
              + multiset(Group(cards, RankOf, rank))[Card(Spades, rank)]
    ensures BlockOf(cards, rank).count > 0 <==> exists c :: c in cards && c.rank == rank
    ensures BlockOf(cards, rank).isPower <==> BlockOf(cards, rank).count >= 4
  {
    var g := Group(cards, RankOf, rank);
    GroupMultiset(cards, RankOf, rank);
    GroupMembers(cards, RankOf, rank);
    if |g| > 0 {
      assert g[0] in multiset(g);
    }
    if c :| c in cards && c.rank == rank {
      assert c in multiset(g);
    }
    RankMultiset(g, rank);
  }

  /** A list of cards of one rank holds as many cards as its four suits together. */
  lemma {:induction false} RankMultiset(g: seq<Card>, rank: Rank)
    requires forall i :: 0 <= i < |g| ==> g[i].rank == rank
    ensures |g| == multiset(g)[Card(Diamonds, rank)] + multiset(g)[Card(Clubs, rank)]
                   + multiset(g)[Card(Hearts, rank)] + multiset(g)[Card(Spades, rank)]
  {
    if g != [] {
      var init, last := g[..|g| - 1], g[|g| - 1];
      RankMultiset(init, rank);
      assert g == init + [last];
      var m, mi := multiset(g), multiset(init);
      assert m == mi + multiset{last};
      assert last == Card(last.suit, rank);
      assert m[Card(Diamonds, rank)] == mi[Card(Diamonds, rank)] + (if last.suit == Diamonds then 1 else 0);
      assert m[Card(Clubs, rank)] == mi[Card(Clubs, rank)] + (if last.suit == Clubs then 1 else 0);
      assert m[Card(Hearts, rank)] == mi[Card(Hearts, rank)] + (if last.suit == Hearts then 1 else 0);
      assert m[Card(Spades, rank)] == mi[Card(Spades, rank)] + (if last.suit == Spades then 1 else 0);
    }
  }

  /** `calculate_cost`: the rank value per card; a bonus for taking the whole
      block or a penalty by what a split leaves (a single 30, a pair 20, more 10);
      the tactic's modifier; and 1000 for touching a power block. The source
      subtracts the take from the count only when the take is below it. */
  function Cost(block: Block, take: nat, tactic: Tactic): int
    requires take <= block.count
  {
    if take == 0 then 0
    else
      var base := block.rank * take;
      var integrity :=
        if take == block.count then -5
        else if block.count >= 2 then
          (match block.count - take
           case 1 => 30
           case 2 => 20
           case _ => 10)
        else 0;
      var tactical :=
        match tactic
        case Efficiency => if take == block.count then -10 else 0
        case SaveHigh => if block.isBig then 100 * take else 0
        case DumpScore => if block.isScore then -50 * take else 0
        case HoardScore => if block.isScore then 100 * take else 0
        case Aggressive => -100 * take;
      var power := if block.isPower then 1000 else 0;
      base + integrity + tactical + power
  }

  /** What each tactic does to a take of at least one card: SaveHigh makes a big
      block dearer by 100 a card, HoardScore makes a scoring block dearer than
      DumpScore by 150 a card, Aggressive makes every take cheaper than
      Efficiency by at least 90 a card, and a power block costs 1000 more than
      the same block without the flag under every tactic. */
  lemma TacticModifiers(block: Block, take: nat)
    requires 0 < take <= block.count
    ensures block.isBig ==> Cost(block, take, SaveHigh) >= Cost(block, take, Efficiency) + 100 * take
    ensures block.isScore ==> Cost(block, take, HoardScore) == Cost(block, take, DumpScore) + 150 * take
    ensures Cost(block, take, Aggressive) <= Cost(block, take, Efficiency) - 90 * take
    ensures forall tactic :: block.isPower ==>
              Cost(block, take, tactic) == Cost(block.(isPower := false), take, tactic) + 1000
  {
  }

  /** A worked example of `TacticModifiers`: three Sevens under Efficiency cost
      6 taken whole, 44 taking two (a single is left) and 27 taking one (a pair
      is left); two Sevens taken whole under Aggressive cost -191. */
  lemma SevensCosts()
    ensures Cost(Block(7, 3, false, false, false), 3, Efficiency) == 6
    ensures Cost(Block(7, 3, false, false, false), 2, Efficiency) == 44
    ensures Cost(Block(7, 3, false, false, false), 1, Efficiency) == 27
    ensures Cost(Block(7, 2, false, false, false), 2, Aggressive) == -191
  {
  }

  // ---------------------------------------------------------------------------
  // The depth-first knapsack search

  /** One entry of the selection: take that many cards of that rank. */
  datatype Pick = Pick(rank: Rank, take: nat)

  /** The best leaf so far; a cost of `None` is the sentinel `f32::MAX`. */
  datatype Incumbent = Incumbent(selected: seq<Pick>, totalCost: Option<int>)

  /** What `solve_knapsack` returns. */
  datatype KnapsackResult = KnapsackResult(selected: seq<Pick>, totalCost: int)

  /** A total strictly below the incumbent's (every total is below the sentinel). */
  predicate Improves(total: int, best: Incumbent) {
    best.totalCost.None? || total < best.totalCost.value
  }

  /** The pruning test: the cost so far already reaches the incumbent's. */
  predicate Reaches(cost: int, best: Incumbent) {
    best.totalCost.Some? && cost >= best.totalCost.value
  }

  /** 100 for every slot a leaf leaves unfilled. */
  function Unfilled(capacity: nat, count: nat): nat {
    if count < capacity then (capacity - count) * 100 else 0
  }

  /** The incumbent after a leaf with this total and selection. */
  function Record(selection: seq<Pick>, total: int, best: Incumbent): Incumbent {
    if Improves(total, best) then Incumbent(selection, Some(total)) else best
  }

  /** The most cards the search may take from block idx. */
  function Bound(blocks: seq<Block>, capacity: nat, idx: nat, count: nat): nat
    requires idx < |blocks| && count <= capacity
  {
    Min(blocks[idx].count, capacity - count)
  }

  /** `dfs_recursive` from block idx, with count cards and the given cost taken so
      far: the incumbent it leaves behind. With `prune` the search gives up on a
      branch whose cost reaches the incumbent's, as the source does; without it
      the search visits every leaf. */
  function Search(blocks: seq<Block>, capacity: nat, tactic: Tactic, prune: bool,
                  idx: nat, count: nat, cost: int, selection: seq<Pick>, best: Incumbent): Incumbent
    requires idx <= |blocks| && count <= capacity
    decreases |blocks| - idx, 1, 0
  {
    if prune && Reaches(cost, best) then best
    else if idx == |blocks| then Record(selection, cost + Unfilled(capacity, count), best)
    else if count == capacity then Record(selection, cost, best)
    else Takes(blocks, capacity, tactic, prune, idx, count, cost, selection, best, 0)
  }

  /** The loop over the takes take, take + 1, ..., Bound of block idx. */
  function Takes(blocks: seq<Block>, capacity: nat, tactic: Tactic, prune: bool,
                 idx: nat, count: nat, cost: int, selection: seq<Pick>, best: Incumbent, take: nat): Incumbent
    requires idx < |blocks| && count < capacity
    decreases |blocks| - idx, 0, Bound(blocks, capacity, idx, count) + 1 - take
  {
    if take > Bound(blocks, capacity, idx, count) then best
    else
      var block := blocks[idx];
      var next := if take > 0 then selection + [Pick(block.rank, take)] else selection;
      var after := Search(blocks, capacity, tactic, prune, idx + 1, count + take, cost + Cost(block, take, tactic), next, best);
      Takes(blocks, capacity, tactic, prune, idx, count, cost, selection, after, take + 1)
  }

  /** `solve_knapsack`: the search from the first block with an empty selection and
      the sentinel, the sentinel reported as cost 0. */
  function Solve(blocks: seq<Block>, capacity: nat, tactic: Tactic): KnapsackResult {
    Report(Search(blocks, capacity, tactic, true, 0, 0, 0, [], Incumbent([], None)))
  }

  function Report(best: Incumbent): KnapsackResult {
    KnapsackResult(best.selected, if best.totalCost.None? then 0 else best.totalCost.value)
  }

  /** The search of `dfs_recursive` with its two `&mut` arguments as fields: the
      selection being built, extended with `push` and restored with `pop`, and
      the incumbent, overwritten at every better leaf. */
  class KnapsackSearch {
    const blocks: seq<Block>
    const capacity: nat
    const tactic: Tactic
    var currentSelection: seq<Pick>
    var bestResult: Incumbent

    constructor (blocks: seq<Block>, capacity: nat, tactic: Tactic)
      ensures this.blocks == blocks && this.capacity == capacity && this.tactic == tactic
      ensures currentSelection == [] && bestResult == Incumbent([], None)
    {
      this.blocks := blocks;
      this.capacity := capacity;
      this.tactic := tactic;
      currentSelection := [];
      bestResult := Incumbent([], None);
    }

    method DfsRecursive(blockIdx: nat, currentCount: nat, currentCost: int)
      requires blockIdx <= |blocks| && currentCount <= capacity
      modifies this
      ensures currentSelection == old(currentSelection)
      ensures bestResult == Search(blocks, capacity, tactic, true, blockIdx, currentCount, currentCost, old(currentSelection), old(bestResult))
      decreases |blocks| - blockIdx
    {
      if Reaches(currentCost, bestResult) {
        return;
      }
      if blockIdx == |blocks| {
        var totalCost := currentCost + Unfilled(capacity, currentCount);
        if Improves(totalCost, bestResult) {
          bestResult := Incumbent(currentSelection, Some(totalCost));
        }
        return;
      }
      if currentCount == capacity {
        if Improves(currentCost, bestResult) {
          bestResult := Incumbent(currentSelection, Some(currentCost));
        }
        return;
      }
      var block := blocks[blockIdx];
      var remaining := capacity - currentCount;
      for take := 0 to Min(block.count, remaining) + 1
        invariant currentSelection == old(currentSelection)
        invariant Takes(blocks, capacity, tactic, true, blockIdx, currentCount, currentCost, old(currentSelection), old(bestResult), 0)
                  == Takes(blocks, capacity, tactic, true, blockIdx, currentCount, currentCost, old(currentSelection), bestResult, take)
      {
        var cost := Cost(block, take, tactic);
        if take > 0 {
          currentSelection := currentSelection + [Pick(block.rank, take)];
        }
        DfsRecursive(blockIdx + 1, currentCount + take, currentCost + cost);
        if take > 0 {
          currentSelection := currentSelection[..|currentSelection| - 1];
        }
      }
    }
  }

  method SolveKnapsack(blocks: seq<Block>, capacity: nat, tactic: Tactic) returns (result: KnapsackResult)
    ensures result == Solve(blocks, capacity, tactic)
  {
    var search := new KnapsackSearch(blocks, capacity, tactic);
    search.DfsRecursive(0, 0, 0);
    var best := search.bestResult;
    if best.totalCost.None? {
      result := KnapsackResult(best.selected, 0);
    } else {
      result := KnapsackResult(best.selected, best.totalCost.value);
    }
  }
}

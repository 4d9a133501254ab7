/** The reservation arithmetic: every block is charged what it was powered for, never more than
    its length and one reserve, and no block starts unless the way back would still fit. */
module Budget {
  const LINE_BLOCK_MS: nat := 750
  const BLOCK_RESERVE_MS: nat := 25
  const LINE_TRANSLATION_MS: nat := 60000

  /** What driving a distance may cost at most: block by block, each its length and one reserve. */
  function Cost(distance: nat): nat {
    if distance == 0 then 0
    else if distance <= LINE_BLOCK_MS then distance + BLOCK_RESERVE_MS
    else LINE_BLOCK_MS + BLOCK_RESERVE_MS + Cost(distance - LINE_BLOCK_MS)
  }

  /** `translation_cost` computes the same in closed form. */
  function TranslationCost(duration: nat): (cost: nat)
    ensures cost == Cost(duration)
  {
    CostInClosedForm(duration);
    duration + (duration + LINE_BLOCK_MS - 1) / LINE_BLOCK_MS * BLOCK_RESERVE_MS
  }

  lemma {:induction false} CostInClosedForm(distance: nat)
    ensures Cost(distance) == distance + (distance + 749) / 750 * 25
  {
    if distance > LINE_BLOCK_MS {
      CostInClosedForm(distance - LINE_BLOCK_MS);
    }
  }

  /** With `used` spent, the way back between two positions can still be paid for. */
  predicate CanReturn(used: nat, from: nat, to: nat) {
    to <= from && used + Cost(from - to) <= LINE_TRANSLATION_MS
  }

  function Block(remaining: nat): nat {
    if remaining > LINE_BLOCK_MS then LINE_BLOCK_MS else remaining
  }

  lemma {:induction false} CostMonotone(a: nat, b: nat)
    requires a <= b
    ensures Cost(a) <= Cost(b)
  {
    if a > LINE_BLOCK_MS {
      CostMonotone(a - LINE_BLOCK_MS, b - LINE_BLOCK_MS);
    }
  }

  /** Costs of a way cut into blocks add up to the cost of the way. */
  lemma CostSplits(remaining: nat)
    ensures Cost(Block(remaining)) + Cost(remaining - Block(remaining)) == Cost(remaining)
  {}

  lemma {:induction false} LongerByPart(distance: nat, part: nat)
    requires part <= LINE_BLOCK_MS
    ensures Cost(distance + part) <= Cost(distance) + part + BLOCK_RESERVE_MS
  {
    if distance > LINE_BLOCK_MS {
      LongerByPart(distance - LINE_BLOCK_MS, part);
    }
  }

  /** The way that is left can still be paid for after a block that stopped early or ran over. */
  lemma CostAfterBlock(remaining: nat, actual: nat)
    requires remaining > 0 && 1 <= actual <= Block(remaining) + BLOCK_RESERVE_MS
    ensures Cost(if actual < remaining then remaining - actual else 0) + actual <= Cost(remaining)
  {
    if remaining <= LINE_BLOCK_MS {
      assert actual < remaining ==> Cost(remaining - actual) == remaining - actual + BLOCK_RESERVE_MS;
    } else if actual <= LINE_BLOCK_MS {
      LongerByPart(remaining - LINE_BLOCK_MS, LINE_BLOCK_MS - actual);
    } else if actual < remaining {
      CostMonotone(remaining - actual, remaining - LINE_BLOCK_MS);
    }
  }

  /** A forward block that was admitted with its reserved way back leaves that way affordable,
      however far the block really went. */
  lemma WayBackKept(used: nat, block: nat, actual: nat, from: nat, to: nat)
    requires 0 < block && 1 <= actual <= block + BLOCK_RESERVE_MS && to <= from
    requires used + Cost(block) + Cost(from + block + BLOCK_RESERVE_MS - to) <= LINE_TRANSLATION_MS
    ensures CanReturn(used + actual, from + actual, to)
  {
    CostMonotone(from + actual - to, from + block + BLOCK_RESERVE_MS - to);
    CostCovers(block);
  }

  lemma {:induction false} CostCovers(block: nat)
    requires block > 0
    ensures Cost(block) >= block + BLOCK_RESERVE_MS
  {
    if block > LINE_BLOCK_MS {
      CostCovers(block - LINE_BLOCK_MS);
    }
  }
}

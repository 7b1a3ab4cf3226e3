/**
 When a task spills: the rule that the external sort and the hash aggregation share
 (minispark/physical/operators.py, `_execute_sort_partition`,
 `_execute_hash_aggregate_partition`).
 */
module Spilling {

  /** The row that memory begins at after i rows, where the rows from a to b take
      bytes(a, b): a spill empties memory as soon as what it holds reaches the threshold. */
  ghost function HeldFrom(bytes: (nat, nat) -> nat, threshold: int, i: nat): (start: nat)
    ensures start <= i
  {
    if i == 0 then 0
    else
      var start := HeldFrom(bytes, threshold, i - 1);
      if bytes(start, i) >= threshold then i else start
  }

  /** After any number of rows what is held is nothing, or below the threshold. */
  lemma {:induction false} HeldBelowThreshold(bytes: (nat, nat) -> nat, threshold: int, i: nat)
    requires bytes(i, i) == 0
    ensures var held := bytes(HeldFrom(bytes, threshold, i), i);
            held == 0 || held < threshold
  {
  }
}

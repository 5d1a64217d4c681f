/** Which scenes of a preview become keyframes: indexes spread evenly over the scenes. */
module Keyframes {
  import opened Outcomes
  import opened Arithmetic

  /** Where the k-th of `desired` keyframes falls, ideally k * (total - 1) / (desired - 1). */
  function Spread(total: nat, desired: int, k: nat): int {
    RoundHalfEven(k * (total - 1), Max(desired - 1, 1))
  }

  /** With more scenes than keyframes, neighbouring ideal positions are more than one apart,
      so the rounded ones never meet and the correction of the loop is never needed. */
  lemma SpreadGrows(total: nat, desired: int, k: nat)
    requires 2 <= desired < total
    ensures Spread(total, desired, k) < Spread(total, desired, k + 1)
  {
    var n, d := total - 1, desired - 1;
    RoundWithinHalf(k * n, d);
    RoundWithinHalf((k + 1) * n, d);
    assert (k + 1) * n == k * n + n;
    MulCancel(Spread(total, desired, k), Spread(total, desired, k + 1), d);
  }

  lemma SpreadEnds(total: nat, desired: int)
    requires 2 <= desired < total
    ensures Spread(total, desired, 0) == 0 && Spread(total, desired, desired - 1) == total - 1
  {
    RoundExact(0, desired - 1);
    RoundExact(total - 1, desired - 1);
    assert (desired - 1) * (total - 1) == (total - 1) * (desired - 1);
  }

  lemma {:induction false} SpreadIncreases(total: nat, desired: int, j: nat, k: nat)
    requires 2 <= desired < total && j < k
    ensures Spread(total, desired, j) < Spread(total, desired, k)
    decreases k - j
  {
    SpreadGrows(total, desired, k - 1);
    if j < k - 1 { SpreadIncreases(total, desired, j, k - 1); }
  }

  /** Strictly increasing from the first scene to the last, each within half a scene of its ideal place. */
  lemma SpreadMeaning(total: nat, desired: int, k: nat)
    requires 2 <= desired < total && k < desired
    ensures 0 <= Spread(total, desired, k) <= total - 1
    ensures var d := desired - 1; -d <= 2 * (k * (total - 1)) - 2 * (d * Spread(total, desired, k)) <= d
    ensures var d, off := desired - 1, 2 * (k * (total - 1)) - 2 * ((desired - 1) * Spread(total, desired, k));
            off == d || off == -d ==> Spread(total, desired, k) % 2 == 0
  {
    var off := 2 * (k * (total - 1)) - 2 * ((desired - 1) * Spread(total, desired, k));
    if off == desired - 1 || off == -(desired - 1) { HalvesToEven(k * (total - 1), desired - 1); }
    SpreadEnds(total, desired);
    RoundWithinHalf(k * (total - 1), desired - 1);
    if k > 0 { SpreadIncreases(total, desired, 0, k); }
    if k < desired - 1 { SpreadIncreases(total, desired, k, desired - 1); }
  }

  /** The correction of the loop: a candidate that does not pass the last index moves just behind it. */
  function Corrected(indexes: seq<int>, candidate: int, total: nat): int {
    if indexes != [] && candidate <= indexes[|indexes| - 1] then Min(indexes[|indexes| - 1] + 1, total - 1) else candidate
  }

  /** _spread_indexes. `corrected` tells whether the correction ever changed a candidate. */
  method SpreadIndexes(total: nat, desired: int) returns (indexes: seq<int>, corrected: bool)
    ensures total <= desired ==> indexes == seq(total, k => k)
    ensures total > desired ==> |indexes| == Max(desired, 0) && forall k :: 0 <= k < |indexes| ==> indexes[k] == Spread(total, desired, k)
    ensures !corrected
    ensures forall j, k :: 0 <= j < k < |indexes| ==> indexes[j] < indexes[k]
    ensures 2 <= desired < total ==> indexes[0] == 0 && indexes[desired - 1] == total - 1
  {
    corrected := false;
    if total <= desired {
      return seq(total, k => k), false;
    }
    indexes := [];
    for item := 0 to Max(desired, 0)
      invariant |indexes| == item && !corrected
      invariant forall k :: 0 <= k < item ==> indexes[k] == Spread(total, desired, k)
    {
      var candidate := RoundHalfEven(item * (total - 1), Max(desired - 1, 1));
      if item > 0 { SpreadGrows(total, desired, item - 1); }
      corrected := corrected || Corrected(indexes, candidate, total) != candidate;
      candidate := Corrected(indexes, candidate, total);
      indexes := indexes + [candidate];
    }
    forall j, k | 0 <= j < k < |indexes| ensures indexes[j] < indexes[k] { SpreadIncreases(total, desired, j, k); }
    if desired >= 2 { SpreadEnds(total, desired); }
  }
}

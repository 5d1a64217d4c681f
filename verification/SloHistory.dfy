/** The processing-time objective: a nearest-rank p95 over the history of ratios. */
module SloHistory {
  import opened Outcomes
  import opened Arithmetic

  /** One evaluated job: its total time over twice its duration, in millionths. */
  datatype Evaluated = Evaluated(job: string, ratio: nat)

  datatype Verdict = Verdict(p95: nat, compliant: bool, degraded: bool, failed: nat)

  const ONE: nat := 1_000_000

  /** round(actual / max(target, 1), 6), in millionths. */
  function Ratio(actual: nat, target: nat): nat {
    RoundWithinHalf(actual * ONE, Max(target, 1));
    RoundedIsNatural(actual * ONE, Max(target, 1));
    RoundHalfEven(actual * ONE, Max(target, 1))
  }

  /** The time over the target, or over one for a target of zero, to half a millionth. */
  lemma RatioMeaning(actual: nat, target: nat)
    ensures var t := Max(target, 1); -t <= 2 * (actual * 1_000_000) - 2 * (t * Ratio(actual, target)) <= t
  {
    RoundWithinHalf(actual * 1_000_000, Max(target, 1));
  }

  lemma RoundedIsNatural(a: nat, b: nat)
    requires b > 0
    ensures RoundHalfEven(a, b) >= 0
  {
  }

  function Insert(xs: seq<nat>, x: nat): seq<nat> {
    if xs == [] then [x] else if x < xs[0] then [x] + xs else [xs[0]] + Insert(xs[1..], x)
  }

  /** sorted(...) */
  function Sort(xs: seq<nat>): seq<nat> {
    if xs == [] then [] else Insert(Sort(xs[..|xs| - 1]), xs[|xs| - 1])
  }

  ghost predicate Ascending(xs: seq<nat>) {
    forall i, j :: 0 <= i < j < |xs| ==> xs[i] <= xs[j]
  }

  function CountAbove(xs: seq<nat>, bound: nat): nat {
    if xs == [] then 0 else (if xs[0] > bound then 1 else 0) + CountAbove(xs[1..], bound)
  }

  lemma {:induction false} InsertCounts(xs: seq<nat>, x: nat, bound: nat)
    ensures |Insert(xs, x)| == |xs| + 1
    ensures CountAbove(Insert(xs, x), bound) == CountAbove(xs, bound) + if x > bound then 1 else 0
  {
    if xs != [] && x >= xs[0] {
      InsertCounts(xs[1..], x, bound);
    } else if xs != [] {
      assert ([x] + xs)[1..] == xs;
    }
  }

  lemma {:induction false} InsertAscending(xs: seq<nat>, x: nat)
    requires Ascending(xs)
    ensures Ascending(Insert(xs, x)) && Insert(xs, x) != []
    ensures Insert(xs, x)[0] == if xs == [] then x else Min(xs[0], x)
  {
    if xs != [] {
      AscendingTail(xs);
      if x < xs[0] {
        AscendingCons(x, xs);
      } else {
        InsertAscending(xs[1..], x);
        AscendingCons(xs[0], Insert(xs[1..], x));
      }
    }
  }

  lemma AscendingTail(xs: seq<nat>)
    requires Ascending(xs) && xs != []
    ensures Ascending(xs[1..]) && forall x <- xs :: xs[0] <= x
  {
  }

  lemma AscendingCons(x: nat, xs: seq<nat>)
    requires Ascending(xs) && (xs != [] ==> x <= xs[0])
    ensures Ascending([x] + xs)
  {
  }

  lemma {:induction false} CountAboveSnoc(xs: seq<nat>, x: nat, bound: nat)
    ensures CountAbove(xs + [x], bound) == CountAbove(xs, bound) + if x > bound then 1 else 0
  {
    if xs != [] {
      CountAboveSnoc(xs[1..], x, bound);
      assert (xs + [x])[1..] == xs[1..] + [x];
    }
  }

  lemma {:induction false} SortKeeps(xs: seq<nat>, bound: nat)
    ensures |Sort(xs)| == |xs| && Ascending(Sort(xs))
    ensures CountAbove(Sort(xs), bound) == CountAbove(xs, bound)
  {
    if xs != [] {
      var front, last := xs[..|xs| - 1], xs[|xs| - 1];
      SortKeeps(front, bound);
      InsertCounts(Sort(front), last, bound);
      InsertAscending(Sort(front), last);
      CountAboveSnoc(front, last, bound);
      assert front + [last] == xs;
    }
  }

  /** In an ascending list the i-th value tells how many lie above a bound. */
  lemma {:induction false} RankCounts(xs: seq<nat>, i: nat, bound: nat)
    requires Ascending(xs) && i < |xs|
    ensures xs[i] <= bound <==> CountAbove(xs, bound) <= |xs| - 1 - i
    ensures CountAbove(xs, bound) <= |xs|
  {
    var tail := xs[1..];
    AscendingTail(xs);
    assert forall x <- tail :: x in xs;
    if i > 0 {
      RankCounts(tail, i - 1, bound);
      if xs[0] > bound { AllAbove(tail, bound); }
    } else if xs[0] > bound {
      AllAbove(tail, bound);
    } else if tail != [] {
      RankCounts(tail, 0, bound);
    }
  }

  lemma {:induction false} AllAbove(xs: seq<nat>, bound: nat)
    requires forall x <- xs :: x > bound
    ensures CountAbove(xs, bound) == |xs|
  {
    if xs != [] {
      assert xs[0] in xs && forall x <- xs[1..] :: x in xs;
      AllAbove(xs[1..], bound);
    }
  }

  /** ceil(0.95 * n) - 1, kept inside the list. */
  function Rank(n: nat): int {
    Min(Max((19 * n + 19) / 20 - 1, 0), n - 1)
  }

  function P95(xs: seq<nat>): nat
    requires xs != []
  {
    SortKeeps(xs, 0);
    Sort(xs)[Rank(|xs|)]
  }

  /** The percentile is a threshold exactly when at most one value in twenty lies above it. */
  lemma P95IsAnOrderStatistic(xs: seq<nat>, bound: nat)
    requires xs != []
    ensures 0 <= Rank(|xs|) < |xs|
    ensures P95(xs) <= bound <==> 20 * CountAbove(xs, bound) <= |xs|
  {
    SortKeeps(xs, bound);
    RankCounts(Sort(xs), Rank(|xs|), bound);
  }

  /** A job that is no slower than the percentile so far cannot raise it. */
  lemma FastJobNeverRaisesP95(xs: seq<nat>, x: nat)
    requires xs != [] && x <= P95(xs)
    ensures P95(xs + [x]) <= P95(xs)
  {
    P95IsAnOrderStatistic(xs, P95(xs));
    CountAboveSnoc(xs, x, P95(xs));
    P95IsAnOrderStatistic(xs + [x], P95(xs));
  }

  /** One job moves the verdict only through the error budget it uses. */
  lemma BudgetAfterJob(xs: seq<nat>, x: nat)
    requires xs != []
    ensures P95(xs + [x]) <= ONE <==> 20 * (CountAbove(xs, ONE) + if x > ONE then 1 else 0) <= |xs| + 1
  {
    P95IsAnOrderStatistic(xs + [x], ONE);
    CountAboveSnoc(xs, x, ONE);
  }

  function Ratios(history: seq<Evaluated>): seq<nat> {
    seq(|history|, i requires 0 <= i < |history| => history[i].ratio)
  }

  class Slo {
    var history: seq<Evaluated>
    /** The regression threshold of the settings, in percent. */
    const slack: nat

    constructor (slack: nat)
      ensures history == [] && this.slack == slack
    {
      history, this.slack := [], slack;
    }

    /** evaluate_job_slo: compliant exactly while at most one job in twenty missed its target;
        a regression is only ever reported for a job slower than the percentile before it. */
    method Evaluate(job: string, durationSeconds: nat, actualMs: nat) returns (v: Verdict)
      modifies this
      ensures history == old(history) + [Evaluated(job, Ratio(actualMs, durationSeconds * 2000))]
      ensures v.p95 == P95(Ratios(history))
      ensures v.failed == CountAbove(Ratios(history), 1_000_000)
      ensures v.compliant <==> 20 * v.failed <= |history|
      ensures v.degraded <==> old(history) != [] && 100 * v.p95 > P95(Ratios(old(history))) * (100 + slack)
      ensures v.degraded ==> Ratio(actualMs, durationSeconds * 2000) > P95(Ratios(old(history)))
    {
      hide P95, CountAbove, Ratio;
      var ratio := Ratio(actualMs, durationSeconds * 2000);
      var prior := Ratios(history);
      history := history + [Evaluated(job, ratio)];
      var ratios := Ratios(history);
      assert ratios == prior + [ratio];
      P95IsAnOrderStatistic(ratios, ONE);
      var p95 := P95(ratios);
      var degraded := prior != [] && 100 * p95 > P95(prior) * (100 + slack);
      if degraded && ratio <= P95(prior) {
        FastJobNeverRaisesP95(prior, ratio);
        MulMonotone(100, 100 + slack, P95(prior));
      }
      v := Verdict(p95, p95 <= ONE, degraded, CountAbove(ratios, ONE));
    }
  }
}

/** Metered minutes: the usage ledger, overage approval, and the split of a
    job's minutes into included and overage ones. */
module Metering {
  import opened Arithmetic
  import opened Bags
  import opened Outcomes
  import opened JobStore

  datatype Scope = SingleJob | Month | UpgradeTier

  datatype Usage = Usage(used: int, limit: int, estimated: int, scope: Option<Scope>, approved: int, alerts: seq<int>)

  /** ---- minutes of a job ---- */

  /** Started minutes times 1, 3/2 or 2, rounded up. */
  function BillableMinutes(seconds: int, fidelity: Fidelity): nat {
    var minutes := CeilDiv(Max(seconds, 0), 60);
    match fidelity
    case Enhance => minutes
    case Restore => CeilDiv(minutes * 3, 2)
    case Conserve => minutes * 2
  }

  /** A minute is billed as soon as it has begun: once when enhancing, one and a half times, rounded
      up, when restoring, twice when conserving. */
  lemma BillableMeaning(seconds: int)
    ensures var m := BillableMinutes(seconds, Enhance);
            && (if seconds > 0 then 60 * (m - 1) < seconds <= 60 * m else m == 0)
            && 3 * m <= 2 * BillableMinutes(seconds, Restore) <= 3 * m + 1
            && BillableMinutes(seconds, Conserve) == 2 * m
  {
  }

  /** Cutting a job in two never makes it cheaper, a longer job is never cheaper,
      and no job of a second or more is free. */
  lemma BillableLaws(a: nat, b: nat, fidelity: Fidelity)
    ensures BillableMinutes(a + b, fidelity) <= BillableMinutes(a, fidelity) + BillableMinutes(b, fidelity)
    ensures BillableMinutes(a, fidelity) <= BillableMinutes(a + b, fidelity)
    ensures BillableMinutes(a, fidelity) == 0 <==> a == 0
  {
    var x, y, z := CeilDiv(a, 60), CeilDiv(b, 60), CeilDiv(a + b, 60);
    assert x <= z <= x + y;
    match fidelity {
      case Restore => assert CeilDiv(x * 3, 2) <= CeilDiv(z * 3, 2) <= CeilDiv(x * 3, 2) + CeilDiv(y * 3, 2);
      case _ =>
    }
  }

  /** ---- the ledger ---- */

  /** Thresholds reached: used / limit * 100 >= t, none when there is no limit. */
  function Alerts(used: int, limit: int): seq<int> {
    if limit <= 0 then [] else Reached(80, used, limit) + Reached(90, used, limit) + Reached(100, used, limit)
  }

  function Reached(threshold: int, used: int, limit: int): seq<int> {
    if 100 * used >= threshold * limit then [threshold] else []
  }

  predicate HardStop(u: Usage) {
    u.used >= u.limit + u.approved || u.used + Max(u.estimated, 0) > u.limit + u.approved
  }

  /** The alerts are the thresholds of 80, 90 and 100 percent of the limit that are reached, in this order. */
  lemma AlertsMeaning(used: int, limit: int)
    ensures Alerts(used, limit) <= [80, 90, 100]
    ensures limit > 0 ==> forall t :: t in Alerts(used, limit) <==> t in {80, 90, 100} && 100 * used >= t * limit
    ensures limit <= 0 ==> Alerts(used, limit) == []
  {
  }

  /** Stopped exactly when the estimated minutes, or a single one, would not fit any more. */
  lemma HardStopMeaning(u: Usage)
    ensures HardStop(u) <==> u.used + Max(u.estimated, 1) > u.limit + u.approved
  {
  }

  function NewUsage(limit: int): Usage {
    Usage(0, limit, 0, None, 0, [])
  }

  /** get_or_create: the limit of the record always follows the current plan. */
  function Opened(usage: map<string, Usage>, user: string, limit: int): Usage {
    if user in usage then usage[user].(limit := limit) else NewUsage(limit)
  }

  function Consumed(u: Usage, minutes: int): Usage {
    var used := u.used + Max(minutes, 0);
    var spent := u.scope == Some(SingleJob) && Max(used - u.limit, 0) >= u.approved;
    u.(used := used, estimated := 0, scope := if spent then None else u.scope, alerts := Alerts(used, u.limit))
  }

  function UsedBy(usage: map<string, Usage>, user: string): int {
    if user in usage then usage[user].used else 0
  }

  /** BillingService over the memory ledger. `limit` is the plan's monthly limit, or
      Raised when the price book cannot be resolved; nothing is written then. */
  class BillingService {
    var usage: map<string, Usage>

    constructor ()
      ensures usage == map[]
    {
      usage := map[];
    }

    method Snapshot(user: string, limit: Result<int>) returns (r: Result<Usage>)
      modifies this
      ensures r.Raised? <==> limit.Raised?
      ensures r.Ok? ==> r.value == Opened(old(usage), user, limit.value) && usage == old(usage)[user := r.value]
      ensures r.Ok? ==> r.value == if user in old(usage) then old(usage)[user].(limit := limit.value) else Usage(0, limit.value, 0, None, 0, [])
      ensures r.Raised? ==> usage == old(usage)
      ensures forall u :: UsedBy(usage, u) == UsedBy(old(usage), u)
    {
      var monthly :- limit;
      usage := usage[user := Opened(usage, user, monthly)];
      r := Ok(usage[user]);
    }

    method ConsumeMinutes(user: string, minutes: int, limit: Result<int>) returns (r: Result<Usage>)
      modifies this
      ensures r.Raised? <==> limit.Raised?
      ensures r.Ok? ==> r.value == Consumed(Opened(old(usage), user, limit.value), minutes)
      ensures r.Ok? ==> usage == old(usage)[user := r.value]
      ensures r.Raised? ==> usage == old(usage)
      ensures r.Ok? ==> UsedBy(usage, user) == UsedBy(old(usage), user) + Max(minutes, 0)
      ensures r.Ok? ==> r.value.limit == limit.value && r.value.estimated == 0 && r.value.alerts == Alerts(r.value.used, r.value.limit)
      ensures r.Ok? ==> r.value.approved == if user in old(usage) then old(usage)[user].approved else 0
      ensures forall u :: u != user ==> UsedBy(usage, u) == UsedBy(old(usage), u)
    {
      var monthly :- limit;
      usage := usage[user := Consumed(Opened(usage, user, monthly), minutes)];
      r := Ok(usage[user]);
    }

    method RecordEstimate(user: string, minutes: int, limit: Result<int>) returns (r: Result<Usage>)
      modifies this
      ensures r.Raised? <==> limit.Raised?
      ensures r.Ok? ==> usage == old(usage)[user := r.value]
      ensures r.Ok? ==> var u := Opened(old(usage), user, limit.value);
                        r.value == u.(estimated := minutes, alerts := Alerts(u.used, u.limit))
      ensures r.Raised? ==> usage == old(usage)
    {
      var monthly :- limit;
      var u := Opened(usage, user, monthly);
      usage := usage[user := u.(estimated := minutes, alerts := Alerts(u.used, u.limit))];
      r := Ok(usage[user]);
    }

    /** approve_overage: a positive request, or else the pending estimate; an
        upgrade approves no minutes. Opening the record happens even when it raises. */
    method ApproveOverage(user: string, scope: Option<Scope>, requested: int, limit: Result<int>) returns (r: Result<Usage>)
      modifies this
      ensures limit.Raised? ==> r.Raised? && usage == old(usage)
      ensures limit.Ok? ==>
                var u := Opened(old(usage), user, limit.value);
                var minutes := if requested > 0 || scope == Some(UpgradeTier) then requested else u.estimated;
                && (r.Raised? <==> scope.None? || (scope != Some(UpgradeTier) && minutes <= 0))
                && (r.Raised? ==> usage == old(usage)[user := u])
                && (r.Ok? ==> usage == old(usage)[user := r.value])
                && (r.Ok? ==> r.value == u.(scope := scope, approved := if scope == Some(UpgradeTier) then 0 else minutes,
                                            alerts := Alerts(u.used, u.limit)))
    {
      var monthly :- limit;
      var u := Opened(usage, user, monthly);
      usage := usage[user := u];
      if scope.None? {
        return Raised;
      }
      var approved := Max(requested, 0);
      if scope.value != UpgradeTier && approved <= 0 {
        approved := u.estimated;
      }
      if scope.value != UpgradeTier && approved <= 0 {
        return Raised;
      }
      usage := usage[user := u.(scope := scope, approved := if scope.value == UpgradeTier then 0 else approved,
                                alerts := Alerts(u.used, u.limit))];
      r := Ok(usage[user]);
    }
  }

  /** A single-job approval ends with the job that spends it: once its scope is cleared, every
      further job is stopped, whatever its estimate, until the limit or the approval is raised. */
  lemma SpentApprovalStops(u: Usage, minutes: int, next: int)
    ensures var after := Consumed(u, minutes);
            && (after.scope != u.scope ==> after.scope.None? && u.scope == Some(SingleJob))
            && (u.scope == Some(SingleJob) ==> (after.scope.None? <==> u.approved <= 0 || after.used >= u.limit + u.approved))
            && (u.scope == Some(SingleJob) && u.approved > 0 && after.scope.None? ==> HardStop(after.(estimated := next)))
  {
  }

  /** ---- included and overage minutes ---- */

  /** reconcile_estimate: minutes beyond what was left of the limit before the job. */
  function ActualOverage(minutes: int, before: int, limit: int): int {
    var included := Min(minutes, Max(limit - Max(before, 0), 0));
    Max(minutes - included, 0)
  }

  function Over(used: int, limit: int): int {
    Max(used - limit, 0)
  }

  /** The overage recorded for jobs run one after another under one limit. */
  function Overages(start: nat, jobs: seq<nat>, limit: int): seq<int>
    decreases jobs
  {
    if jobs == [] then []
    else [ActualOverage(jobs[0], start, limit)] + Overages(start + jobs[0], jobs[1..], limit)
  }

  function Sum(xs: seq<int>): int {
    if xs == [] then 0 else xs[0] + Sum(xs[1..])
  }

  /** Overage telescopes: what the jobs are billed together depends on the total only. */
  lemma {:induction false} OverageTelescopes(start: nat, jobs: seq<nat>, limit: int)
    requires limit >= 0
    ensures Sum(Overages(start, jobs, limit)) == Over(start + Sum(jobs), limit) - Over(start, limit)
    ensures Sum(jobs) >= 0
    decreases jobs
  {
    if jobs != [] {
      OverageTelescopes(start + jobs[0], jobs[1..], limit);
      assert Overages(start, jobs, limit)[1..] == Overages(start + jobs[0], jobs[1..], limit);
    }
  }

  lemma {:induction false} SumRemove(xs: seq<int>, k: nat)
    requires k < |xs|
    ensures Sum(xs) == xs[k] + Sum(xs[..k] + xs[k + 1..])
  {
    if k == 0 {
      assert xs[..0] + xs[1..] == xs[1..];
    } else {
      SumRemove(xs[1..], k - 1);
      assert (xs[..k] + xs[k + 1..])[1..] == xs[1..][..k - 1] + xs[1..][k..];
    }
  }

  lemma {:induction false} SumOfBag(xs: seq<nat>, ys: seq<nat>)
    requires multiset(xs) == multiset(ys)
    ensures Sum(xs) == Sum(ys)
  {
    if xs == [] {
      assert |ys| == |multiset(ys)| == 0;
    } else {
      assert xs[0] in multiset(ys);
      var k :| 0 <= k < |ys| && ys[k] == xs[0];
      var rest := ys[..k] + ys[k + 1..];
      RemoveOne(ys, k);
      SplitFirst(xs);
      SumOfBag(xs[1..], rest);
      SumRemove(ys, k);
    }
  }

  /** The order in which jobs run does not change the bill. */
  lemma BillIndependentOfOrder(start: nat, jobs: seq<nat>, reordered: seq<nat>, limit: int)
    requires limit >= 0 && multiset(jobs) == multiset(reordered)
    ensures Sum(Overages(start, jobs, limit)) == Sum(Overages(start, reordered, limit))
  {
    SumOfBag(jobs, reordered);
    OverageTelescopes(start, jobs, limit);
    OverageTelescopes(start, reordered, limit);
  }

  /** Nor does the way the same minutes are split over jobs. */
  lemma BillIndependentOfSplit(start: nat, jobs: seq<nat>, resplit: seq<nat>, limit: int)
    requires limit >= 0 && Sum(jobs) == Sum(resplit)
    ensures Sum(Overages(start, jobs, limit)) == Sum(Overages(start, resplit, limit))
  {
    OverageTelescopes(start, jobs, limit);
    OverageTelescopes(start, resplit, limit);
  }

  /** ---- jobs of one user finishing at the same time ---- */

  /** A finishing job: the usage it read before consuming, and its minutes. */
  datatype Finish = Finish(read: nat, minutes: nat)

  /** Reads lag behind: other jobs of the user may consume between the read and the write. */
  predicate Lagging(start: nat, finishes: seq<Finish>)
    decreases finishes
  {
    finishes == [] || (finishes[0].read <= start && Lagging(start + finishes[0].minutes, finishes[1..]))
  }

  function Billed(finishes: seq<Finish>, limit: int): int {
    if finishes == [] then 0
    else ActualOverage(finishes[0].minutes, finishes[0].read, limit) + Billed(finishes[1..], limit)
  }

  function Minutes(finishes: seq<Finish>): nat {
    if finishes == [] then 0 else finishes[0].minutes + Minutes(finishes[1..])
  }

  /** The lag does no harm to this job: nothing to bill, no lag, all included, or all overage. */
  predicate ReadHarmless(used: nat, f: Finish, limit: int) {
    f.minutes == 0 || f.read == used || used + f.minutes <= limit || f.read >= limit
  }

  predicate AllHarmless(start: nat, finishes: seq<Finish>, limit: int)
    decreases finishes
  {
    finishes == [] || (ReadHarmless(start, finishes[0], limit)
                       && AllHarmless(start + finishes[0].minutes, finishes[1..], limit))
  }

  /** Interleaved jobs are never over-billed, and the bill telescopes exactly when every read was harmless. */
  lemma {:induction false} LaggingReadsUnderbill(start: nat, finishes: seq<Finish>, limit: int)
    requires limit >= 0 && Lagging(start, finishes)
    ensures Billed(finishes, limit) <= Over(start + Minutes(finishes), limit) - Over(start, limit)
    ensures Billed(finishes, limit) == Over(start + Minutes(finishes), limit) - Over(start, limit)
       <==> AllHarmless(start, finishes, limit)
    decreases finishes
  {
    if finishes != [] {
      LaggingReadsUnderbill(start + finishes[0].minutes, finishes[1..], limit);
    }
  }

  /** estimate_launch: the overage quoted when the job is launched. */
  function QuotedOverage(minutes: nat, u: Usage): int {
    Max(minutes - Min(minutes, Max(u.limit - u.used, 0)), 0)
  }

  /** What is quoted at launch is what is billed at the end, unless other jobs used minutes in
      between; then the quote is too low exactly when the limit cut through or shrank the rest. */
  lemma QuoteNeverTooHigh(minutes: nat, u: Usage, used: nat)
    requires 0 <= u.used <= used && u.limit >= 0
    ensures QuotedOverage(minutes, u) <= ActualOverage(minutes, used, u.limit)
    ensures QuotedOverage(minutes, u) == ActualOverage(minutes, used, u.limit)
       <==> ReadHarmless(used, Finish(u.used, minutes), u.limit)
  {
  }

  /** Two jobs of ten minutes that both read eight used minutes of a limit of ten bill sixteen
      overage minutes instead of eighteen. */
  lemma LostOverageExample()
    ensures var finishes := [Finish(8, 10), Finish(8, 10)];
            Lagging(8, finishes) && Billed(finishes, 10) == 16 && Over(8 + Minutes(finishes), 10) - Over(8, 10) == 18
  {
    var finishes := [Finish(8, 10), Finish(8, 10)];
    assert finishes[1..] == [Finish(8, 10)];
    assert finishes[1..][1..] == [];
  }
}

/** The retry policy of one segment, and the closed form of its loop. */
module SegmentRetry {
  import opened Outcomes
  import opened JobStore

  const RETRY_BACKOFF_SECONDS: seq<nat> := [1, 2, 4]

  /** Where a segment stands between attempts: its record, the failures still
      planned for it and the reproducibility failures still planned. */
  datatype RetryState = RetryState(segment: Segment, plan: seq<string>, repro: nat)

  /** What does not change between attempts. */
  datatype RetryContext = RetryContext(lookup: CacheStatus, storeDegraded: bool, output: Output)

  function Classify(failure: string): FailureClass {
    if failure in {"network", "gpu_oom", "transient"} then Transient else Persistent
  }

  /** The record after an attempt that failed. */
  function AfterFailure(s: Segment, attempt: nat, reason: FailureClass, lookup: CacheStatus): Segment
    requires 1 <= attempt <= 3
  {
    if attempt < 3
    then s.(status := Waiting, attempts := attempt, lastError := Some(reason), cache := lookup,
            backoffs := s.backoffs + [RETRY_BACKOFF_SECONDS[attempt - 1]])
    else s.(status := Broken, attempts := attempt, lastError := Some(reason), cache := lookup)
  }

  function AfterSuccess(s: Segment, attempt: nat, ctx: RetryContext): Segment {
    s.(status := Done, attempts := attempt, lastError := None, output := Some(ctx.output),
       cache := if ctx.storeDegraded then Bypass else ctx.lookup)
  }

  function AfterHit(s: Segment, output: Output): Segment {
    s.(status := Done, attempts := Max(s.attempts, 1), output := Some(output), cache := Hit)
  }

  /** One pass of the loop body: planned failures first, then reproducibility failures. */
  function Attempted(st: RetryState, attempt: nat, ctx: RetryContext): RetryState
    requires 1 <= attempt <= 3
  {
    if st.plan != [] then
      RetryState(AfterFailure(st.segment, attempt, Classify(st.plan[0]), ctx.lookup), st.plan[1..], st.repro)
    else if st.repro > 0 then
      RetryState(AfterFailure(st.segment, attempt, Reproducibility, ctx.lookup), [], st.repro - 1)
    else
      RetryState(AfterSuccess(st.segment, attempt, ctx), [], 0)
  }

  /** How many attempts the loop makes: all the failures and one success, or whatever is left of three. */
  function AttemptsMade(st: RetryState): nat {
    Min(|st.plan| + st.repro + 1, Max(3 - st.segment.attempts, 0))
  }

  /** The segment completes exactly when the failures leave room for one more attempt. */
  predicate Succeeds(st: RetryState) {
    st.segment.attempts + |st.plan| + st.repro <= 2
  }

  /** Why the n-th attempt of the loop fails. */
  function Reason(st: RetryState, n: nat): FailureClass {
    if n < |st.plan| then Classify(st.plan[n]) else Reproducibility
  }

  /** The backoffs slept through between attempt `from + 1` and attempt `to + 1`. */
  function Waits(from: nat, to: nat): seq<nat>
    requires from <= to <= 3
  {
    RETRY_BACKOFF_SECONDS[from..to]
  }

  function PlanLeft(st: RetryState): seq<string> {
    st.plan[Min(|st.plan|, AttemptsMade(st))..]
  }

  function ReproLeft(st: RetryState): nat {
    Min(st.repro, Max(|st.plan| + st.repro - AttemptsMade(st), 0))
  }

  /** The record the loop leaves when it makes at least one attempt. */
  function FinalSegment(st: RetryState, ctx: RetryContext): Segment
    requires st.segment.attempts < 3
  {
    var s, last := st.segment, st.segment.attempts + AttemptsMade(st);
    var waited := s.(backoffs := s.backoffs + Waits(s.attempts, last - 1));
    if Succeeds(st) then AfterSuccess(waited, last, ctx)
    else AfterFailure(waited, 3, Reason(st, AttemptsMade(st) - 1), ctx.lookup)
  }

  /** The whole loop in one expression. */
  function ClosedForm(st: RetryState, ctx: RetryContext): RetryState {
    if st.segment.attempts >= 3 then st
    else RetryState(FinalSegment(st, ctx), PlanLeft(st), ReproLeft(st))
  }

  /** Whether an attempt leaves the segment queued for another one. */
  predicate Retries(st: RetryState) {
    st.segment.attempts < 2 && |st.plan| + st.repro > 0
  }

  /** An attempt that does not end the segment leaves the closed form as it was. */
  lemma StepContinues(st: RetryState, ctx: RetryContext)
    requires Retries(st)
    ensures var next := Attempted(st, st.segment.attempts + 1, ctx);
            && next.segment.attempts == st.segment.attempts + 1 && next.segment.status == Waiting
            && ClosedForm(next, ctx) == ClosedForm(st, ctx) && (Succeeds(next) <==> Succeeds(st))
  {
    LeftoversContinue(st, ctx);
    FinalContinues(st, ctx);
    hide FinalSegment, PlanLeft, ReproLeft, AttemptsMade, Reason;
  }

  lemma FinalContinues(st: RetryState, ctx: RetryContext)
    requires Retries(st)
    ensures FinalSegment(Attempted(st, st.segment.attempts + 1, ctx), ctx) == FinalSegment(st, ctx)
  {
    LeftoversContinue(st, ctx);
    WaitsContinue(st.segment.backoffs, st.segment.attempts, st.segment.attempts + AttemptsMade(st) - 1);
    AttemptsBounds(st);
    hide PlanLeft, ReproLeft, AttemptsMade, Reason, Waits;
  }

  lemma AttemptsBounds(st: RetryState)
    requires Retries(st)
    ensures AttemptsMade(st) >= 2 && st.segment.attempts + AttemptsMade(st) <= 3
  {
  }

  lemma LeftoversContinue(st: RetryState, ctx: RetryContext)
    requires Retries(st)
    ensures var next := Attempted(st, st.segment.attempts + 1, ctx);
            && AttemptsMade(next) == AttemptsMade(st) - 1
            && PlanLeft(next) == PlanLeft(st) && ReproLeft(next) == ReproLeft(st)
            && Reason(next, AttemptsMade(next) - 1) == Reason(st, AttemptsMade(st) - 1)
  {
  }

  lemma WaitsContinue(before: seq<nat>, from: nat, to: nat)
    requires from < to <= 3
    ensures before + [RETRY_BACKOFF_SECONDS[from]] + Waits(from + 1, to) == before + Waits(from, to)
  {
  }

  /** An attempt that ends the segment is the closed form. */
  lemma StepEnds(st: RetryState, ctx: RetryContext)
    requires st.segment.attempts < 3 && !Retries(st)
    ensures ClosedForm(st, ctx) == Attempted(st, st.segment.attempts + 1, ctx)
    ensures Finished(Attempted(st, st.segment.attempts + 1, ctx).segment)
  {
    var s := st.segment;
    assert AttemptsMade(st) == 1 && s.backoffs + Waits(s.attempts, s.attempts) == s.backoffs;
  }

  lemma SuccessMeansDone(st: RetryState, ctx: RetryContext)
    requires st.segment.attempts < 3
    ensures ClosedForm(st, ctx).segment.status == Done <==> Succeeds(st)
  {
  }

  lemma NothingLeft(st: RetryState, ctx: RetryContext)
    ensures st.segment.attempts >= 3 ==> ClosedForm(st, ctx) == st
  {
  }

  /** Marking the segment as running first makes no difference to the attempt. */
  lemma BeginIrrelevant(st: RetryState, attempt: nat, ctx: RetryContext)
    requires 1 <= attempt <= 3
    ensures Attempted(st.(segment := st.segment.(status := Running, attempts := attempt)), attempt, ctx)
         == Attempted(st, attempt, ctx)
  {
  }

  /** The law of the retry loop for a fresh segment. */
  lemma FreshSegmentLaw(st: RetryState, ctx: RetryContext)
    requires st.segment.attempts == 0 && st.segment.backoffs == []
    ensures var f, end := |st.plan| + st.repro, ClosedForm(st, ctx);
            && end.segment.attempts == Min(f + 1, 3)
            && (end.segment.status == Done <==> f <= 2)
            && (end.segment.status == Broken <==> f > 2)
            && end.segment.backoffs == [1, 2, 4][..end.segment.attempts - 1]
            && |PlanLeft(st)| + ReproLeft(st) == Max(f - 3, 0)
            && end.segment.lastError == (if f <= 2 then None else Some(if |st.plan| <= 2 then Reproducibility
                                           else if st.plan[2] in {"network", "gpu_oom", "transient"} then Transient else Persistent))
            && end.segment.output == (if f <= 2 then Some(ctx.output) else st.segment.output)
            && end.segment.cache == (if f <= 2 && ctx.storeDegraded then Bypass else ctx.lookup)
  {
    var made := AttemptsMade(st);
    assert Waits(0, made - 1) == RETRY_BACKOFF_SECONDS[..made - 1];
    assert [] + Waits(0, made - 1) == Waits(0, made - 1);
  }

  /** From three attempts on the loop body never runs: whatever the status was, it stays.
      So "every segment handed to the loop ends finished" holds exactly below three attempts,
      or when the segment was finished already. */
  lemma EndsFinished(st: RetryState, ctx: RetryContext)
    ensures Finished(ClosedForm(st, ctx).segment) <==> st.segment.attempts < 3 || Finished(st.segment)
  {
  }
}

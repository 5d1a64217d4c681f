/** process_job: one run of a worker over one job, against an oracle that
    decides which calls raise and what other actors do in between. */
module JobRuntime {
  import opened Outcomes
  import opened GpuLeases
  import opened GpuLeaseLaws
  import opened GpuPool
  import opened JobPipeline
  import opened JobStore
  import opened SegmentRetry
  import opened RunSummary
  import opened Metering

  /** The calls that may raise. `CacheLookup` and `CacheStore` are caught where they are made. */
  datatype Site =
    | AllocationFirstSnapshot | AllocationRecord | AllocationSecondSnapshot
    | StartAnnounce
    | CacheLookup(k: nat) | CacheStore(k: nat)
    | Quality(k: nat, attempt: nat) | RetryRecord(k: nat, attempt: nat) | FailureRecord(k: nat) | SegmentProgress(k: nat)
    | SloIncident | ReleaseSnapshot | RuntimeIncident | Manifest | Delivery | FinalEvent
    | UsageLookup | ConsumeLookup | EstimateReconciliation
    | HandlerEvent | HandlerUsageLookup | HandlerConsumeLookup | HandlerReconciliation
    | CancelConsumeLookup | CancelProgress | CancelWebhook
    | FinalAnnounce
    | FailureConsumeLookup | FailureAnnounce
    | FinallySnapshot

  /** What other actors may do between two steps of this worker. */
  datatype Act =
    | RequestCancel(job: JobId, owner: string)
    | Vanish(job: JobId)
    | OtherAllocate(other: JobId, gpu: string, depth: int, faults: AllocationFaults)
    | OtherRelease(other: JobId, raises: bool)
    | Autoscale(depth: int)

  /** Injective stand-in for the hashed key. */
  datatype CacheKey = CacheKey(owner: string, checksum: string, index: nat, start: nat, end: nat, variant: Variant)

  /** The order a cached output was rendered for, and on which piece. */
  datatype Rendering = Rendering(output: Output, order: Order, piece: Piece)

  datatype RunResult = NotFound | Returned(job: Job) | Escaped

  function KeyFor(order: Order, piece: Piece): CacheKey {
    CacheKey(order.owner, order.checksum, piece.index, piece.start, piece.end, order.variant)
  }

  /** Same owner, same upload, same way of processing, same piece of it. */
  predicate SameRequest(a: Order, pieceA: Piece, b: Order, pieceB: Piece) {
    && a.owner == b.owner && a.checksum == b.checksum
    && a.variant.profile == b.variant.profile && a.variant.mode == b.variant.mode
    && a.variant.version == b.variant.version && a.variant.pipeline == b.variant.pipeline
    && pieceA.index == pieceB.index && pieceA.start == pieceB.start && pieceA.end == pieceB.end
  }

  lemma KeyMeaning(a: Order, pieceA: Piece, b: Order, pieceB: Piece)
    ensures KeyFor(a, pieceA) == KeyFor(b, pieceB) <==> SameRequest(a, pieceA, b, pieceB)
  {
  }

  /** The output was rendered for such a request. */
  ghost predicate ServedFor(origin: map<CacheKey, Rendering>, output: Output, order: Order, piece: Piece) {
    exists key :: key in origin && origin[key].output == output && SameRequest(origin[key].order, origin[key].piece, order, piece)
  }

  /** Every completed segment holds what this run rendered for it, unless it was served from the
      cache: then what was rendered for the same request. */
  ghost predicate Provenance(origin: map<CacheKey, Rendering>, me: JobId, order: Order, segments: seq<Segment>) {
    forall k :: 0 <= k < |segments| && segments[k].status == Done ==>
      && segments[k].output.Some?
      && if segments[k].cache == Hit then ServedFor(origin, segments[k].output.value, order, segments[k].piece)
         else segments[k].output.value == Output(me, k)
  }

  function PlanFor(plans: map<(JobId, nat), seq<string>>, job: JobId, k: nat): seq<string> {
    if (job, k) in plans then plans[(job, k)] else []
  }

  function ReproFor(plans: map<(JobId, nat), nat>, job: JobId, k: nat): nat {
    if (job, k) in plans then plans[(job, k)] else 0
  }

  /** The record other actors may leave: untouched, or asked to cancel while not over. */
  predicate Drifted(me: JobId, before: map<JobId, Job>, after: map<JobId, Job>) {
    me in after ==>
      me in before
      && (after[me] == before[me]
          || (after[me] == before[me].(status := CancelRequested) && !Terminal(before[me].status)))
  }

  function GpuFor(tier: PlanTier): string {
    if tier == Museum then "RTX 6000" else "L4"
  }

  /** A passing attempt is the only thing that adds to the cache. */
  function CacheAfter(cache: map<CacheKey, Output>, key: CacheKey, st: RetryState, ctx: RetryContext): map<CacheKey, Output> {
    if st.segment.attempts < 3 && Succeeds(st) && !ctx.storeDegraded then cache[key := ctx.output] else cache
  }

  function Mine(worker: Option<WorkerId>, me: JobId): set<(WorkerId, JobId)> {
    if worker.Some? then {(worker.value, me)} else {}
  }

  class Worker {
    const raises: Site -> bool
    const acts: nat -> seq<Act>
    const monthlyLimit: PlanTier -> int
    const repo: JobRepository
    const pool: Pool
    const billing: BillingService

    var clock: nat
    var cache: map<CacheKey, Output>
    var failurePlans: map<(JobId, nat), seq<string>>
    var reproPlans: map<(JobId, nat), nat>
    var deadLetter: seq<JobId>

    /** What each cached output was rendered for. */
    ghost var origin: map<CacheKey, Rendering>
    /** The holders and the clock when the run began. */
    ghost var initial: set<(WorkerId, JobId)>
    ghost var begun: nat
    /** Leases other jobs should hold: only other actors' steps change it. */
    ghost var expected: set<(WorkerId, JobId)>
    /** The part of the job's record no step of the run may change. */
    ghost var order: Order
    /** Open from the PROCESSING write to the check at the start of finalisation. */
    ghost var window: bool
    /** Segments handed to the retry loop so far. */
    ghost var started: nat
    /** A cancellation request that took effect inside the window, and `started` at that moment. */
    ghost var landed: Option<nat>
    /** The clock when the window was opened, and when it was closed. */
    ghost var opening: nat
    ghost var closing: nat

    constructor (raises: Site -> bool, acts: nat -> seq<Act>, monthlyLimit: PlanTier -> int,
                 repo: JobRepository, pool: Pool, billing: BillingService)
      ensures this.raises == raises && this.acts == acts && this.monthlyLimit == monthlyLimit
      ensures this.repo == repo && this.pool == pool && this.billing == billing
      ensures cache == map[] && Sourced()
    {
      this.raises, this.acts, this.monthlyLimit := raises, acts, monthlyLimit;
      this.repo, this.pool, this.billing := repo, pool, billing;
      clock, cache, failurePlans, reproPlans, deadLetter := 0, map[], map[], map[], [];
      origin := map[];
    }

    /** Each cached output lies under the key of the request it was rendered for. */
    ghost predicate Sourced()
      reads this`cache, this`origin
    {
      forall key <- cache :: key in origin && origin[key].output == cache[key] && key == KeyFor(origin[key].order, origin[key].piece)
    }

    /** Nobody else does anything during the run. */
    ghost predicate Quiet() {
      forall n :: acts(n) == []
    }

    /** Nothing raises but the cache and the two calls that come after the charge, the comparison with
        the estimate and the final announcement; and nobody deletes the job. Others may do anything else. */
    ghost predicate Smooth(me: JobId) {
      && (forall s :: raises(s) ==> s.CacheLookup? || s.CacheStore? || s.EstimateReconciliation? || s.FinalAnnounce?)
      && (forall n :: Vanish(me) !in acts(n))
    }

    /** Nobody ever releases the job's lease, or allocates one for it. */
    ghost predicate Spared(job: JobId) {
      forall n, b :: OtherRelease(job, b) !in acts(n)
    }

    ghost predicate Sought(job: JobId) {
      exists n, act :: act in acts(n) && act.OtherAllocate? && act.other == job
    }

    /** The owner asks for cancellation at some time from `from` on and before `to`. */
    ghost predicate Called(me: JobId, owner: string, from: nat, to: nat) {
      exists n :: from <= n < to && RequestCancel(me, owner) in acts(n)
    }

    /** The end of the window, so far. */
    ghost function Until(): nat
      reads this`clock, this`window, this`closing
    {
      if window then clock else closing
    }

    /** A request landed exactly when the owner of a job still stored called inside the window. */
    ghost predicate Answered(me: JobId)
      reads this`clock, this`window, this`closing, this`opening, this`landed, this`order, this`begun, repo`jobs
    {
      begun <= opening <= Until() <= clock && (me in repo.jobs ==> (landed.Some? <==> Called(me, order.owner, opening, Until())))
    }

    /** What holds between any two steps of the run: `mine` is the lease this run took. */
    ghost predicate Steady(me: JobId, mine: Option<WorkerId>)
      reads this`clock, this`begun, this`initial, this`expected, this`order, this`window, this`landed, this`opening, this`closing
      reads this`cache, this`origin, repo, pool
    {
      Sane(me, mine) && Answered(me)
    }

    /** The same between two acts of others, when only part of what they do has been done. */
    ghost predicate Sane(me: JobId, mine: Option<WorkerId>)
      reads this`initial, this`expected, this`order, this`window, this`landed, this`cache, this`origin, repo, pool
    {
      && Sourced()
      && repo.Valid()
      && pool.Valid()
      && pool.Held() == expected + Mine(mine, me)
      && Unheld(expected, me)
      && Respects(initial, expected)
      && (landed.Some? ==> !Quiet())
      && (me in repo.jobs ==> repo.jobs[me].order == order)
      && (window && me in repo.jobs ==> repo.jobs[me].status == if landed.Some? then CancelRequested else Processing)
    }

    /** A request lands once, inside the window, and stays landed; a job that is gone stays gone. */
    twostate predicate Tracked(me: JobId)
      reads this`landed, this`window, this`started, repo`jobs
    {
      && (landed == old(landed) || (old(landed).None? && old(window) && landed == Some(started)))
      && (me in repo.jobs ==> me in old(repo.jobs))
    }

    /** The leases of other jobs change through the acts of others alone: one goes only when somebody
        releases its job, one comes only when somebody allocates for its job. */
    ghost predicate Respects(before: set<(WorkerId, JobId)>, after: set<(WorkerId, JobId)>) {
      && (forall p <- before :: Spared(p.1) ==> p in after)
      && (forall p <- after :: p in before || Sought(p.1))
    }

    lemma RespectsSame(holders: set<(WorkerId, JobId)>)
      ensures Respects(holders, holders)
    {
    }

    lemma NotCalledYet(me: JobId, owner: string, at: nat)
      ensures !Called(me, owner, at, at)
    {
    }

    lemma QuietRespects(before: set<(WorkerId, JobId)>, after: set<(WorkerId, JobId)>)
      requires Quiet() && Respects(before, after)
      ensures before == after
    {
      assert forall j :: Spared(j) && !Sought(j);
    }

    /** ---- other actors ---- */

    method Perform(me: JobId, ghost mine: Option<WorkerId>, act: Act, ghost n: nat)
      requires Sane(me, mine) && act in acts(n)
      modifies this`expected, this`landed, repo`jobs, pool
      ensures Sane(me, mine)
      ensures Drifted(me, old(repo.jobs), repo.jobs)
      ensures Tracked(me)
      ensures act != Vanish(me) && me in old(repo.jobs) ==> me in repo.jobs
      ensures window && me in repo.jobs ==> (landed.Some? <==> old(landed).Some? || act == RequestCancel(me, order.owner))
    {
      hide Sourced, WellFormed, Holders, Indexed;
      match act
      case RequestCancel(job, owner) =>
        var answer := repo.RequestCancellation(job, owner);
        if window && job == me && answer.Some? && old(repo.jobs)[me].status == Processing {
          landed := Some(started);
        }
      case Vanish(job) =>
        repo.Drop(job);
      case _ =>
        PerformOnPool(me, mine, act);
    }

    /** Other jobs' leases and the autoscaler. Only this worker handles this job. */
    method PerformOnPool(me: JobId, ghost mine: Option<WorkerId>, act: Act)
      requires pool.Valid() && pool.Held() == expected + Mine(mine, me) && Unheld(expected, me)
      modifies this`expected, pool
      ensures pool.Valid() && pool.Held() == expected + Mine(mine, me) && Unheld(expected, me)
      ensures forall p <- old(expected) :: !(act.OtherRelease? && act.other == p.1) ==> p in expected
      ensures forall p <- expected :: p in old(expected) || (act.OtherAllocate? && act.other == p.1)
    {
      match act
      case OtherAllocate(other, gpu, depth, faults) =>
        if other != me {
          var allocation := pool.Allocate(other, gpu, depth, faults);
          expected := pool.Held() - Mine(mine, me);
        }
      case OtherRelease(other, fails) =>
        if other != me {
          var snapshot := pool.Release(other, fails);
          expected := pool.Held() - Mine(mine, me);
        }
      case Autoscale(depth) =>
        var snapshot := pool.Reconcile(depth, false);
      case _ =>
    }

    /** What others do at this moment, act by act. */
    method Interfere(me: JobId, ghost mine: Option<WorkerId>)
      requires Steady(me, mine)
      modifies this`clock, this`expected, this`landed, repo`jobs, pool
      ensures Steady(me, mine) && clock == old(clock) + 1
      ensures Drifted(me, old(repo.jobs), repo.jobs)
      ensures Tracked(me) && SameCounters(me)
      ensures Smooth(me) && me in old(repo.jobs) ==> me in repo.jobs
    {
      hide Called, Quiet, Spared, Sought, Sane, Respects;
      ghost var now := clock;
      var todo := acts(clock);
      clock := clock + 1;
      for i := 0 to |todo|
        invariant Sane(me, mine) && clock == now + 1
        invariant Drifted(me, old(repo.jobs), repo.jobs)
        invariant Tracked(me)
        invariant i == 0 ==> repo.jobs == old(repo.jobs) && landed == old(landed)
        invariant Smooth(me) && me in old(repo.jobs) ==> me in repo.jobs
        invariant window && me in repo.jobs ==>
                    (landed.Some? <==> Called(me, order.owner, opening, now) || RequestCancel(me, order.owner) in todo[..i])
      {
        assert todo[..i + 1] == todo[..i] + [todo[i]];
        Perform(me, mine, todo[i], now);
      }
      assert todo[..|todo|] == acts(now);
      if window { CalledOneMore(me, order.owner, opening, now); }
    }

    lemma CalledOneMore(me: JobId, owner: string, from: nat, to: nat)
      requires from <= to
      ensures Called(me, owner, from, to + 1) <==> Called(me, owner, from, to) || RequestCancel(me, owner) in acts(to)
    {
    }

    /** ---- single steps of the worker ---- */

    /** A call outside the model that either returns or raises. */
    method Call(me: JobId, ghost mine: Option<WorkerId>, site: Site) returns (r: Result<()>)
      requires Steady(me, mine)
      modifies this`clock, this`expected, this`landed, repo`jobs, pool
      ensures Steady(me, mine)
      ensures Drifted(me, old(repo.jobs), repo.jobs)
      ensures Tracked(me) && SameCounters(me)
      ensures r.Raised? <==> raises(site)
      ensures Smooth(me) && me in old(repo.jobs) ==> me in repo.jobs
    {
      Interfere(me, mine);
      r := if raises(site) then Raised else Ok(());
    }

    /** A patch that leaves the status alone cannot lose a cancellation request. */
    method Patch(me: JobId, ghost mine: Option<WorkerId>, patch: Job -> Job) returns (r: Result<Job>)
      requires Steady(me, mine)
      requires forall j :: patch(j).order == j.order && patch(j).status == j.status
      modifies this`clock, this`expected, this`landed, repo`jobs, pool
      ensures Steady(me, mine)
      ensures Tracked(me)
      ensures r.Ok? <==> me in repo.jobs
      ensures r.Ok? ==> me in old(repo.jobs) && r.value == repo.jobs[me] && Written(patch, old(repo.jobs)[me], r.value)
      ensures r.Ok? ==> r.value.order == order
      ensures Smooth(me) && me in old(repo.jobs) ==> r.Ok?
    {
      Interfere(me, mine);
      r := repo.UpdateJob(me, patch);
    }

    /** A patch that writes the status, outside the window. */
    method Overwrite(me: JobId, ghost mine: Option<WorkerId>, patch: Job -> Job) returns (r: Result<Job>)
      requires Steady(me, mine) && !window
      requires forall j :: patch(j).order == j.order
      modifies this`clock, this`expected, this`landed, repo`jobs, pool
      ensures Steady(me, mine) && landed == old(landed) && Tracked(me)
      ensures r.Ok? <==> me in repo.jobs
      ensures r.Ok? ==> me in old(repo.jobs) && r.value == repo.jobs[me] && Written(patch, old(repo.jobs)[me], r.value)
      ensures r.Ok? ==> r.value.order == order
      ensures Smooth(me) && me in old(repo.jobs) ==> r.Ok?
    {
      Interfere(me, mine);
      r := repo.UpdateJob(me, patch);
    }

    /** The job is over, and its stored record is the one returned. */
    predicate Filed(me: JobId, job: Job)
      reads repo`jobs
    {
      Terminal(job.status) && (me in repo.jobs ==> repo.jobs[me] == job)
    }

    /** The counters last published. */
    static predicate Counted(job: Job, segments: seq<Segment>) {
      job.report.completed == CountStatus(segments, Done) && job.report.failed == BrokenIndexes(segments)
    }

    /** The published counters are those of the stored segments. */
    predicate Current(me: JobId)
      reads repo`jobs, repo`segments
    {
      me in repo.jobs && me in repo.segments ==> Counted(repo.jobs[me], repo.segments[me])
    }

    twostate predicate SameCounters(me: JobId)
      reads repo`jobs
    {
      me in repo.jobs ==>
        me in old(repo.jobs)
        && repo.jobs[me].report.completed == old(repo.jobs)[me].report.completed
        && repo.jobs[me].report.failed == old(repo.jobs)[me].report.failed
    }

    /** The record a patch leaves: of the old one, or of the old one asked to cancel. */
    static ghost predicate Written(patch: Job -> Job, before: Job, after: Job) {
      after == patch(before) || (!Terminal(before.status) && after == patch(before.(status := CancelRequested)))
    }

    method PatchSegment(me: JobId, ghost mine: Option<WorkerId>, k: nat, patch: Segment -> Segment)
      requires Steady(me, mine)
      requires me in repo.segments && k < |repo.segments[me]|
      requires forall s: Segment :: patch(s).piece == s.piece
      modifies this`clock, this`expected, this`landed, repo, pool
      ensures Steady(me, mine)
      ensures Tracked(me)
      ensures Kept(me, old(repo.segments), repo.segments)
      ensures repo.segments[me] == old(repo.segments[me])[k := patch(old(repo.segments[me][k]))]
      ensures Smooth(me) && me in old(repo.jobs) ==> me in repo.jobs
    {
      Interfere(me, mine);
      var written := repo.UpdateSegment(me, k, patch);
    }

    /** _update_processing_progress: counters recomputed from the stored segments, then published. */
    method UpdateProgress(me: JobId, ghost mine: Option<WorkerId>, k: nat) returns (r: Result<Job>)
      requires Steady(me, mine) && me in repo.segments
      modifies this`clock, this`expected, this`landed, repo`jobs, pool
      ensures Steady(me, mine)
      ensures Tracked(me)
      ensures r.Ok? ==> r.value.report == ProgressReport(repo.segments[me]) && Current(me)
      ensures Smooth(me) && me in old(repo.jobs) ==> r.Ok? && me in repo.jobs
    {
      hide Steady, Quiet, CountStatus, BrokenIndexes, GpuSeconds, CountCache, Spared, Sought;
      Interfere(me, mine);
      var segments := repo.ListSegments(me);
      var job :- Patch(me, mine, (j: Job) => j.(report := ProgressReport(segments)));
      var _ :- Call(me, mine, SegmentProgress(k));
      r := Ok(job);
    }

    /** ---- one segment ---- */

    /** Where segment k stands: its record and the failures still planned for it. */
    ghost function State(me: JobId, k: nat): RetryState
      requires me in repo.segments && k < |repo.segments[me]|
      reads this`failurePlans, this`reproPlans, repo`segments
    {
      RetryState(repo.segments[me][k], PlanFor(failurePlans, me, k), ReproFor(reproPlans, me, k))
    }

    /** Only this job's segments may differ. */
    static predicate Kept(me: JobId, before: map<JobId, seq<Segment>>, after: map<JobId, seq<Segment>>) {
      me in after && after == before[me := after[me]]
    }

    /** Only segment k of this job, its plans and its cache key may have changed. */
    twostate predicate OnlySegment(me: JobId, k: nat, key: CacheKey)
      requires me in old(repo.segments) && k < |old(repo.segments)[me]|
      reads this`cache, this`failurePlans, this`reproPlans, repo`segments
    {
      && Kept(me, old(repo.segments), repo.segments) && |repo.segments[me]| == |old(repo.segments)[me]|
      && repo.segments[me] == old(repo.segments)[me][k := repo.segments[me][k]]
      && repo.segments[me][k].piece == old(repo.segments)[me][k].piece
      && (forall j :: j != k ==> PlanFor(failurePlans, me, j) == PlanFor(old(failurePlans), me, j))
      && (forall j :: j != k ==> ReproFor(reproPlans, me, j) == ReproFor(old(reproPlans), me, j))
      && (cache == old(cache)
          || (cache == old(cache)[key := Output(me, k)] && repo.segments[me][k].status == Done))
    }

    /** The attempt failed: requeue with a backoff, or give up after the third. */
    method FailAttempt(me: JobId, ghost mine: Option<WorkerId>, k: nat, attempt: nat, reason: FailureClass, lookup: CacheStatus)
      returns (r: Result<bool>)
      requires Steady(me, mine) && 1 <= attempt <= 3
      requires me in repo.segments && k < |repo.segments[me]|
      modifies this`clock, this`expected, this`landed, repo, pool
      ensures Steady(me, mine)
      ensures Tracked(me)
      ensures Kept(me, old(repo.segments), repo.segments)
      ensures repo.segments[me] == old(repo.segments[me])[k := AfterFailure(old(repo.segments[me][k]), attempt, reason, lookup)]
      ensures r.Ok? ==> (r.value <==> attempt == 3)
      ensures r == Ok(true) ==> Current(me)
      ensures Smooth(me) && me in old(repo.jobs) ==> r.Ok? && me in repo.jobs
    {
      hide Steady, Quiet, Spared, Sought, Smooth;
      PatchSegment(me, mine, k, (s: Segment) => AfterFailure(s, attempt, reason, lookup));
      r := RecordFailure(me, mine, k, attempt);
    }

    /** The metrics of a failed attempt, and the progress of a segment given up. */
    method RecordFailure(me: JobId, ghost mine: Option<WorkerId>, k: nat, attempt: nat) returns (r: Result<bool>)
      requires Steady(me, mine) && me in repo.segments && 1 <= attempt <= 3
      modifies this`clock, this`expected, this`landed, repo`jobs, pool
      ensures Steady(me, mine)
      ensures Tracked(me)
      ensures r.Ok? ==> (r.value <==> attempt == 3)
      ensures r == Ok(true) ==> Current(me)
      ensures Smooth(me) && me in old(repo.jobs) ==> r.Ok? && me in repo.jobs
    {
      hide Steady, Quiet, Spared, Sought;
      if attempt < 3 {
        var _ :- Call(me, mine, RetryRecord(k, attempt));
        return Ok(false);
      }
      var _ :- Call(me, mine, FailureRecord(k));
      var _ :- UpdateProgress(me, mine, k);
      return Ok(true);
    }

    /** store_segment_cache, and what the output was rendered for. */
    method StoreOutput(me: JobId, ghost mine: Option<WorkerId>, k: nat, key: CacheKey)
      requires Steady(me, mine) && me in repo.segments && k < |repo.segments[me]|
      requires key == KeyFor(order, repo.segments[me][k].piece)
      modifies this`cache, this`origin
      ensures Steady(me, mine)
      ensures cache == if raises(CacheStore(k)) then old(cache) else old(cache)[key := Output(me, k)]
    {
      hide Called, Respects, Quiet;
      if !raises(CacheStore(k)) {
        cache := cache[key := Output(me, k)];
        origin := origin[key := Rendering(Output(me, k), order, repo.segments[me][k].piece)];
      }
    }

    /** The attempt passed: the output goes to the cache, then to the record. */
    method PassAttempt(me: JobId, ghost mine: Option<WorkerId>, k: nat, attempt: nat, key: CacheKey, ctx: RetryContext)
      returns (r: Result<bool>)
      requires Steady(me, mine) && ctx.output == Output(me, k) && ctx.storeDegraded == raises(CacheStore(k))
      requires me in repo.segments && k < |repo.segments[me]|
      requires key == KeyFor(order, repo.segments[me][k].piece)
      modifies this`clock, this`expected, this`landed, this`cache, this`origin, repo, pool
      ensures Steady(me, mine)
      ensures Tracked(me)
      ensures Kept(me, old(repo.segments), repo.segments)
      ensures repo.segments[me] == old(repo.segments[me])[k := AfterSuccess(old(repo.segments[me][k]), attempt, ctx)]
      ensures cache == if ctx.storeDegraded then old(cache) else old(cache)[key := Output(me, k)]
      ensures r.Ok? ==> r.value
      ensures r.Ok? ==> Current(me)
      ensures Smooth(me) && me in old(repo.jobs) ==> r.Ok? && me in repo.jobs
    {
      hide Steady, Quiet, Spared, Sought, Smooth;
      StoreOutput(me, mine, k, key);
      PatchSegment(me, mine, k, (s: Segment) => AfterSuccess(s, attempt, ctx));
      var _ :- UpdateProgress(me, mine, k);
      return Ok(true);
    }

    /** Mark the segment as running; fails only when the job is gone. */
    method BeginAttempt(me: JobId, ghost mine: Option<WorkerId>, k: nat, attempt: nat) returns (r: Result<Job>)
      requires Steady(me, mine) && me in repo.segments && k < |repo.segments[me]|
      modifies this`clock, this`expected, this`landed, repo, pool
      ensures Steady(me, mine)
      ensures Tracked(me)
      ensures Kept(me, old(repo.segments), repo.segments)
      ensures repo.segments[me] == old(repo.segments[me])[k := old(repo.segments[me][k]).(status := Running, attempts := attempt)]
      ensures Smooth(me) && me in old(repo.jobs) ==> r.Ok? && me in repo.jobs
    {
      hide Quiet, Spared, Sought, Smooth, Called;
      PatchSegment(me, mine, k, (s: Segment) => s.(status := Running, attempts := attempt));
      r := Patch(me, mine, (j: Job) => j);
    }

    /** Planned failures come first, then reproducibility failures, then success. */
    method JudgeAttempt(me: JobId, ghost mine: Option<WorkerId>, k: nat, attempt: nat, key: CacheKey, ctx: RetryContext)
      returns (r: Result<bool>)
      requires Steady(me, mine) && ctx.output == Output(me, k) && ctx.storeDegraded == raises(CacheStore(k))
      requires me in repo.segments && k < |repo.segments[me]| && 1 <= attempt <= 3
      requires key == KeyFor(order, repo.segments[me][k].piece)
      modifies this`clock, this`expected, this`landed, this`cache, this`origin
      modifies this`failurePlans, this`reproPlans, repo, pool
      ensures Steady(me, mine)
      ensures Tracked(me)
      ensures OnlySegment(me, k, key)
      ensures r.Ok? ==> State(me, k) == Attempted(old(State(me, k)), attempt, ctx)
      ensures r.Ok? ==> (r.value <==> !(attempt < 3 && |old(State(me, k)).plan| + old(State(me, k)).repro > 0))
      ensures r == Ok(true) ==> Current(me)
      ensures r.Ok? ==> cache == if old(State(me, k)).plan == [] && old(State(me, k)).repro == 0 && !ctx.storeDegraded
                                 then old(cache)[key := ctx.output] else old(cache)
      ensures Smooth(me) && me in old(repo.jobs) ==> r.Ok? && me in repo.jobs
    {
      hide Steady, Quiet, Spared, Sought;
      if PlanFor(failurePlans, me, k) != [] {
        r := FailPlanned(me, mine, k, attempt, key, ctx);
      } else {
        var _ :- Call(me, mine, Quality(k, attempt));
        r := JudgeOutput(me, mine, k, attempt, key, ctx);
      }
    }

    method FailPlanned(me: JobId, ghost mine: Option<WorkerId>, k: nat, attempt: nat, key: CacheKey, ctx: RetryContext)
      returns (r: Result<bool>)
      requires Steady(me, mine) && me in repo.segments && k < |repo.segments[me]| && 1 <= attempt <= 3
      requires PlanFor(failurePlans, me, k) != []
      modifies this`clock, this`expected, this`landed, this`failurePlans, repo, pool
      ensures Steady(me, mine)
      ensures Tracked(me)
      ensures OnlySegment(me, k, key)
      ensures r.Ok? ==> State(me, k) == Attempted(old(State(me, k)), attempt, ctx) && (r.value <==> attempt == 3)
      ensures r == Ok(true) ==> Current(me)
      ensures Smooth(me) && me in old(repo.jobs) ==> r.Ok? && me in repo.jobs
    {
      hide Steady, Quiet, Spared, Sought;
      var plan := PlanFor(failurePlans, me, k);
      failurePlans := failurePlans[(me, k) := plan[1..]];
      r := FailAttempt(me, mine, k, attempt, Classify(plan[0]), ctx.lookup);
    }

    method JudgeOutput(me: JobId, ghost mine: Option<WorkerId>, k: nat, attempt: nat, key: CacheKey, ctx: RetryContext)
      returns (r: Result<bool>)
      requires Steady(me, mine) && ctx.output == Output(me, k) && ctx.storeDegraded == raises(CacheStore(k))
      requires me in repo.segments && k < |repo.segments[me]| && 1 <= attempt <= 3
      requires key == KeyFor(order, repo.segments[me][k].piece)
      requires PlanFor(failurePlans, me, k) == []
      modifies this`clock, this`expected, this`landed, this`cache, this`origin, this`reproPlans, repo, pool
      ensures Steady(me, mine)
      ensures Tracked(me)
      ensures OnlySegment(me, k, key)
      ensures r.Ok? ==> State(me, k) == Attempted(old(State(me, k)), attempt, ctx)
      ensures r.Ok? ==> (r.value <==> !(attempt < 3 && old(State(me, k)).repro > 0))
      ensures r == Ok(true) ==> Current(me)
      ensures r.Ok? ==> cache == if old(State(me, k)).plan == [] && old(State(me, k)).repro == 0 && !ctx.storeDegraded
                                 then old(cache)[key := ctx.output] else old(cache)
      ensures Smooth(me) && me in old(repo.jobs) ==> r.Ok? && me in repo.jobs
    {
      hide Steady, Quiet, Spared, Sought;
      var repro := ReproFor(reproPlans, me, k);
      if repro > 0 {
        reproPlans := reproPlans[(me, k) := repro - 1];
        r := FailAttempt(me, mine, k, attempt, Reproducibility, ctx.lookup);
      } else {
        r := PassAttempt(me, mine, k, attempt, key, ctx);
      }
    }

    /** One pass of the retry loop; true when the segment needs no further attempt. */
    method Attempt(me: JobId, ghost mine: Option<WorkerId>, k: nat, attempt: nat, key: CacheKey, ctx: RetryContext)
      returns (r: Result<bool>)
      requires Steady(me, mine) && ctx.output == Output(me, k) && ctx.storeDegraded == raises(CacheStore(k))
      requires me in repo.segments && k < |repo.segments[me]|
      requires key == KeyFor(order, repo.segments[me][k].piece)
      requires 1 <= attempt <= 3 && repo.segments[me][k].attempts == attempt - 1
      modifies this`clock, this`expected, this`landed, this`cache, this`origin
      modifies this`failurePlans, this`reproPlans, repo, pool
      ensures Steady(me, mine)
      ensures Tracked(me)
      ensures OnlySegment(me, k, key)
      ensures r.Ok? ==> State(me, k) == Attempted(old(State(me, k)), attempt, ctx)
      ensures r.Ok? ==> (r.value <==> !Retries(old(State(me, k))))
      ensures r == Ok(true) ==> Current(me)
      ensures r.Ok? ==> cache == if old(State(me, k)).plan == [] && old(State(me, k)).repro == 0 && !ctx.storeDegraded
                                 then old(cache)[key := ctx.output] else old(cache)
      ensures Smooth(me) && me in old(repo.jobs) ==> r.Ok? && me in repo.jobs
    {
      hide Steady, Attempted, Quiet, Spared, Sought, Smooth;
      BeginIrrelevant(State(me, k), attempt, ctx);
      var _ :- BeginAttempt(me, mine, k, attempt);
      r := JudgeAttempt(me, mine, k, attempt, key, ctx);
    }

    /** The same pass, seen from the end of the loop: the segment is through, as the closed
        form says, or it waits for the next attempt with the closed form unchanged. */
    method AttemptTowards(me: JobId, ghost mine: Option<WorkerId>, k: nat, attempt: nat, key: CacheKey, ctx: RetryContext)
      returns (r: Result<bool>)
      requires Steady(me, mine) && ctx.output == Output(me, k) && ctx.storeDegraded == raises(CacheStore(k))
      requires me in repo.segments && k < |repo.segments[me]|
      requires key == KeyFor(order, repo.segments[me][k].piece)
      requires 1 <= attempt <= 3 && repo.segments[me][k].attempts == attempt - 1
      modifies this`clock, this`expected, this`landed, this`cache, this`origin
      modifies this`failurePlans, this`reproPlans, repo, pool
      ensures Steady(me, mine)
      ensures Tracked(me)
      ensures OnlySegment(me, k, key)
      ensures r == Ok(true) ==> State(me, k) == ClosedForm(old(State(me, k)), ctx)
      ensures r == Ok(false) ==> ClosedForm(State(me, k), ctx) == ClosedForm(old(State(me, k)), ctx)
      ensures r == Ok(false) ==> attempt < 3 && State(me, k).segment.attempts == attempt && cache == old(cache)
      ensures r == Ok(true) ==> Current(me)
      ensures r == Ok(true) ==> cache == CacheAfter(old(cache), key, old(State(me, k)), ctx)
      ensures r == Ok(false) ==> (Succeeds(State(me, k)) <==> Succeeds(old(State(me, k))))
      ensures Smooth(me) && me in old(repo.jobs) ==> r.Ok? && me in repo.jobs
    {
      hide Steady, Attempted, ClosedForm, Quiet, Spared, Sought, Smooth;
      ghost var before := State(me, k);
      if Retries(before) { StepContinues(before, ctx); } else { StepEnds(before, ctx); }
      r := Attempt(me, mine, k, attempt, key, ctx);
    }

    method RetryLoop(me: JobId, ghost mine: Option<WorkerId>, k: nat, key: CacheKey, ctx: RetryContext) returns (r: Result<()>)
      requires Steady(me, mine) && ctx.output == Output(me, k) && ctx.storeDegraded == raises(CacheStore(k))
      requires me in repo.segments && k < |repo.segments[me]|
      requires key == KeyFor(order, repo.segments[me][k].piece)
      modifies this`clock, this`expected, this`landed, this`cache, this`origin
      modifies this`failurePlans, this`reproPlans, repo, pool
      ensures Steady(me, mine)
      ensures Tracked(me)
      ensures OnlySegment(me, k, key)
      ensures r.Ok? ==> State(me, k) == ClosedForm(old(State(me, k)), ctx)
      ensures r.Ok? && old(repo.segments[me][k].attempts) < 3 ==> Current(me)
      ensures r.Ok? ==> cache == CacheAfter(old(cache), key, old(State(me, k)), ctx)
      ensures Smooth(me) && me in old(repo.jobs) ==> r.Ok? && me in repo.jobs
    {
      hide Steady, ClosedForm, Quiet, Spared, Sought, Smooth;
      NothingLeft(State(me, k), ctx);
      var attempt := repo.segments[me][k].attempts + 1;
      while attempt <= 3
        invariant Steady(me, mine)
        invariant Tracked(me)
        invariant OnlySegment(me, k, key) && cache == old(cache)
        invariant State(me, k).segment.attempts == attempt - 1
        invariant ClosedForm(State(me, k), ctx) == ClosedForm(old(State(me, k)), ctx)
        invariant attempt <= 3 || State(me, k) == old(State(me, k))
        invariant attempt <= 3 ==> (Succeeds(State(me, k)) <==> Succeeds(old(State(me, k)))) && old(State(me, k)).segment.attempts < 3
        invariant Smooth(me) && me in old(repo.jobs) ==> me in repo.jobs
        decreases 4 - attempt
      {
        var finished :- AttemptTowards(me, mine, k, attempt, key, ctx);
        if finished {
          return Ok(());
        }
        attempt := attempt + 1;
      }
      return Ok(());
    }

    /** A cached output completes the segment without an attempt. */
    method ServeHit(me: JobId, ghost mine: Option<WorkerId>, k: nat, output: Output) returns (r: Result<()>)
      requires Steady(me, mine) && me in repo.segments && k < |repo.segments[me]|
      modifies this`clock, this`expected, this`landed, repo, pool
      ensures Steady(me, mine)
      ensures Tracked(me)
      ensures Kept(me, old(repo.segments), repo.segments)
      ensures repo.segments[me] == old(repo.segments[me])[k := AfterHit(old(repo.segments[me][k]), output)]
      ensures r.Ok? ==> Current(me)
      ensures Smooth(me) && me in old(repo.jobs) ==> r.Ok? && me in repo.jobs
    {
      hide Steady, Quiet, Spared, Sought, Smooth;
      PatchSegment(me, mine, k, (s: Segment) => AfterHit(s, output));
      var _ :- UpdateProgress(me, mine, k);
      return Ok(());
    }

    function ContextOf(me: JobId, k: nat): RetryContext {
      RetryContext(if raises(CacheLookup(k)) then Bypass else Miss, raises(CacheStore(k)), Output(me, k))
    }

    ghost predicate IsHit(o: Order, me: JobId, k: nat)
      requires me in repo.segments && k < |repo.segments[me]|
      reads this`cache, repo`segments
    {
      !raises(CacheLookup(k)) && KeyFor(o, repo.segments[me][k].piece) in cache
    }

    /** What processing leaves of segment k, given the cache and the planned failures it meets. */
    function Rendered(o: Order, me: JobId, k: nat, s: Segment, stored: map<CacheKey, Output>,
                      plan: seq<string>, repro: nat): Segment
    {
      var key := KeyFor(o, s.piece);
      if !raises(CacheLookup(k)) && key in stored then AfterHit(s, stored[key])
      else ClosedForm(RetryState(s, plan, repro), ContextOf(me, k)).segment
    }

    ghost function Outcome(o: Order, me: JobId, k: nat): Segment
      requires me in repo.segments && k < |repo.segments[me]|
      reads this`cache, this`failurePlans, this`reproPlans, repo`segments
    {
      Rendered(o, me, k, repo.segments[me][k], cache, PlanFor(failurePlans, me, k), ReproFor(reproPlans, me, k))
    }

    ghost function Outcomes(o: Order, me: JobId): seq<Segment>
      requires me in repo.segments
      reads this`cache, this`failurePlans, this`reproPlans, repo`segments
    {
      var segments, stored, plans, repros := repo.segments[me], cache, failurePlans, reproPlans;
      seq(|segments|, k requires 0 <= k < |segments| =>
        Rendered(o, me, k, segments[k], stored, PlanFor(plans, me, k), ReproFor(repros, me, k)))
    }

    lemma OutcomesAreOutcomes(o: Order, me: JobId)
      requires me in repo.segments
      ensures |Outcomes(o, me)| == |repo.segments[me]|
      ensures forall k :: 0 <= k < |repo.segments[me]| ==> Outcomes(o, me)[k] == Outcome(o, me, k)
    {
    }

    /** What processing leaves of a segment, in its own terms: a hit is completed as cached, with what was
        rendered for the same request; anything else never counts as a hit, and holds its own rendering. */
    lemma OutcomeMeaning(o: Order, me: JobId, k: nat)
      requires Sourced() && me in repo.segments && k < |repo.segments[me]|
      ensures var s, out := repo.segments[me][k], Outcome(o, me, k);
              var hit := !raises(CacheLookup(k)) && KeyFor(o, s.piece) in cache;
              && out.piece == s.piece
              && (hit ==> out == s.(status := Done, attempts := Max(s.attempts, 1), output := Some(cache[KeyFor(o, s.piece)]), cache := Hit)
                          && ServedFor(origin, out.output.value, o, s.piece))
              && (!hit && s.attempts < 3 ==>
                    && out.cache == (if raises(CacheLookup(k)) || (out.status == Done && raises(CacheStore(k))) then Bypass else Miss)
                    && (out.status == Done ==> out.output == Some(Output(me, k))))
    {
      var s := repo.segments[me][k];
      var key := KeyFor(o, s.piece);
      if !raises(CacheLookup(k)) && key in cache {
        KeyMeaning(origin[key].order, origin[key].piece, o, s.piece);
      }
    }

    method ProcessSegment(me: JobId, ghost mine: Option<WorkerId>, job: Job, k: nat) returns (r: Result<()>)
      requires Steady(me, mine) && job.order == order
      requires me in repo.segments && k < |repo.segments[me]|
      modifies this`clock, this`expected, this`landed, this`cache, this`origin
      modifies this`failurePlans, this`reproPlans, repo, pool
      ensures Steady(me, mine)
      ensures Tracked(me)
      ensures OnlySegment(me, k, KeyFor(order, old(repo.segments[me][k]).piece))
      ensures r.Ok? ==> repo.segments[me][k] == old(Outcome(order, me, k))
      ensures r.Ok? && old(repo.segments[me][k].attempts) < 3 ==> Current(me)
      ensures r.Ok? ==> cache == if old(IsHit(job.order, me, k)) then old(cache)
                                 else CacheAfter(old(cache), KeyFor(order, old(repo.segments[me][k]).piece), old(State(me, k)), ContextOf(me, k))
      ensures r.Ok? ==> cache == if repo.segments[me][k].status == Done && old(repo.segments[me][k].attempts) < 3
                                    && !raises(CacheStore(k)) && !old(IsHit(order, me, k))
                                 then old(cache)[KeyFor(order, old(repo.segments[me][k]).piece) := Output(me, k)] else old(cache)
      ensures r.Ok? && repo.segments[me][k].cache == Hit && old(repo.segments[me][k].attempts) < 3 ==>
                && repo.segments[me][k].output.Some?
                && ServedFor(old(origin), repo.segments[me][k].output.value, order, repo.segments[me][k].piece)
      ensures Smooth(me) && me in old(repo.jobs) ==> r.Ok? && me in repo.jobs
    {
      hide Steady, ClosedForm, Quiet, Spared, Sought, Smooth;
      SteadyIsSourced(me, mine);
      OutcomeMeaning(order, me, k);
      if State(me, k).segment.attempts < 3 { SuccessMeansDone(State(me, k), ContextOf(me, k)); }
      var key := KeyFor(job.order, repo.segments[me][k].piece);
      if !raises(CacheLookup(k)) && key in cache {
        r := ServeHit(me, mine, k, cache[key]);
      } else {
        r := RetryLoop(me, mine, k, key, ContextOf(me, k));
      }
    }

    /** ---- billing ---- */

    function Limit(tier: PlanTier, site: Site): Result<int> {
      if raises(site) then Raised else Ok(monthlyLimit(tier))
    }

    /** Read the owner's usage, then add the minutes to it. Either price lookup may raise. */
    method ChargeMinutes(job: Job, minutes: nat, lookup: Site, consume: Site)
      returns (r: Result<(int, int)>, ghost charged: bool)
      modifies billing
      ensures forall u :: UsedBy(billing.usage, u) == UsedBy(old(billing.usage), u) + if charged && u == job.order.owner then minutes else 0
      ensures r.Ok? <==> charged
      ensures charged <==> !raises(lookup) && !raises(consume)
      ensures r.Ok? ==> r.value == (UsedBy(old(billing.usage), job.order.owner), monthlyLimit(job.order.tier))
    {
      charged := false;
      var before :- billing.Snapshot(job.order.owner, Limit(job.order.tier, lookup));
      var after :- billing.ConsumeMinutes(job.order.owner, minutes, Limit(job.order.tier, consume));
      charged := true;
      r := Ok((before.used, after.limit));
    }

    /** _consume_usage_and_reconcile: charge, then compare with the estimate when there is one.
        Failing to store the comparison is swallowed. */
    method ConsumeAndReconcile(me: JobId, ghost mine: Option<WorkerId>, job: Job, minutes: nat,
                               lookup: Site, consume: Site, reconcile: Site)
      returns (r: Result<Option<int>>, ghost charged: bool)
      requires Steady(me, mine) && !window
      modifies this`clock, this`expected, this`landed, repo`jobs, pool, billing
      ensures Steady(me, mine)
      ensures Tracked(me) && landed == old(landed)
      ensures forall u :: UsedBy(billing.usage, u) == UsedBy(old(billing.usage), u) + if charged && u == job.order.owner then minutes else 0
      ensures charged <==> !raises(lookup) && !raises(consume)
      ensures r.Ok? <==> charged && !(job.order.hasEstimate && raises(reconcile))
      ensures r.Ok? ==> r.value == if !job.order.hasEstimate then None else
                Some(ActualOverage(minutes, UsedBy(old(billing.usage), job.order.owner), monthlyLimit(job.order.tier)))
      ensures SameCounters(me)
      ensures r.Ok? && old(Filed(me, job)) ==> Filed(me, if r.value.Some? then job.(overage := r.value) else job)
      ensures Smooth(me) && me in old(repo.jobs) ==> me in repo.jobs
    {
      hide Steady, ActualOverage, Quiet, Spared, Sought;
      var amounts: Result<(int, int)>;
      amounts, charged := ChargeMinutes(job, minutes, lookup, consume);
      if amounts.Raised? {
        return Raised, charged;
      }
      if !job.order.hasEstimate {
        return Ok(None), charged;
      }
      var _ :- Call(me, mine, reconcile);
      var overage := ActualOverage(minutes, amounts.value.0, amounts.value.1);
      var persisted := Patch(me, mine, (j: Job) => j.(overage := Some(overage)));
      return Ok(Some(overage)), charged;
    }

    /** ---- ending a run ---- */

    /** _cancel_job: CANCELLED, nothing charged. */
    method CancelJob(me: JobId, ghost mine: Option<WorkerId>) returns (r: Result<Job>)
      requires Steady(me, mine) && !window
      modifies this`clock, this`expected, this`landed, repo`jobs, pool, billing
      ensures Steady(me, mine)
      ensures Tracked(me) && landed == old(landed)
      ensures forall u :: UsedBy(billing.usage, u) == UsedBy(old(billing.usage), u)
      ensures r.Ok? ==> r.value.status == Cancelled && Filed(me, r.value)
      ensures Smooth(me) && me in old(repo.jobs) ==> r.Ok? && me in repo.jobs
    {
      hide Steady, Quiet, Spared, Sought;
      var cancelled :- Overwrite(me, mine, (j: Job) => j.(status := Cancelled));
      var usage :- billing.ConsumeMinutes(cancelled.order.owner, 0, Limit(cancelled.order.tier, CancelConsumeLookup));
      var _ :- Call(me, mine, CancelProgress);
      r := Ok(cancelled);
    }

    /** The manifest and the delivery package of a deliverable result; either may turn it into a failure. */
    method Package(me: JobId, job: Job) returns (r: Result<Job>)
      requires Steady(me, None) && !window && Deliverable(job.status) && Filed(me, job)
      modifies this`clock, this`expected, this`landed, repo`jobs, pool
      ensures Steady(me, None)
      ensures Tracked(me) && landed == old(landed)
      ensures r.Ok? ==> r.value.order == job.order && r.value.report == job.report && Filed(me, r.value)
      ensures SameCounters(me)
      ensures r.Ok? && Deliverable(r.value.status) ==> r.value.status == job.status && r.value.manifest && r.value.error == job.error
      ensures r.Ok? && !Deliverable(r.value.status) ==> r.value.status == JobStatus.Failed && r.value.error in {ManifestError, DeliveryError}
      ensures Smooth(me) && me in old(repo.jobs) ==> r.Ok? && me in repo.jobs && Deliverable(r.value.status)
    {
      hide Steady, Quiet, Spared, Sought;
      var made := Call(me, None, Manifest);
      var stored: Result<Job> := Raised;
      if made.Ok? {
        stored := Overwrite(me, None, (j: Job) => j.(manifest := true));
      }
      if stored.Raised? {
        r := Overwrite(me, None, (j: Job) => j.(status := JobStatus.Failed, error := ManifestError));
        return;
      }
      var delivered := Call(me, None, Delivery);
      if delivered.Raised? {
        r := Overwrite(me, None, (j: Job) => j.(status := JobStatus.Failed, error := DeliveryError));
        return;
      }
      r := stored;
    }

    /** The comparison with the estimate raises after the minutes were added. */
    predicate ReconcileRaises(order: Order) {
      order.hasEstimate && raises(EstimateReconciliation)
    }

    /** The status a settled run ends with when nothing else raises. */
    function Fate(order: Order, status: JobStatus): JobStatus {
      if ReconcileRaises(order) then JobStatus.Failed else status
    }

    function Due(order: Order): nat {
      BillableMinutes(order.duration, order.fidelity)
    }

    /** The minutes due: one for each minute begun when enhancing, half as many again, rounded up, when
        restoring, twice as many when conserving. */
    lemma DueMeaning(o: Order) returns (minutes: nat)
      ensures if o.duration > 0 then 60 * (minutes - 1) < o.duration <= 60 * minutes else minutes == 0
      ensures o.fidelity == Enhance ==> Due(o) == minutes
      ensures o.fidelity == Restore ==> 3 * minutes <= 2 * Due(o) <= 3 * minutes + 1
      ensures o.fidelity == Conserve ==> Due(o) == 2 * minutes
    {
      BillableMeaning(o.duration);
      minutes := BillableMinutes(o.duration, Enhance);
    }

    /** A deliverable result with an estimate carries the overage of its minutes on top of `used`. */
    predicate Priced(job: Job, o: Order, used: int) {
      Deliverable(job.status) && o.hasEstimate ==> job.overage == Some(ActualOverage(Due(o), used, monthlyLimit(o.tier)))
    }

    /** The summaries of a settled run describe its segments. */
    static predicate Settled(job: Job, segments: seq<Segment>) {
      job.report.cache == FinalCache(segments) && job.report.gpuSeconds == GpuSeconds(segments)
    }

    /** A summarised result: its cache and GPU figures describe the segments as rendered. */
    static predicate Summarised(job: Job, segments: seq<Segment>) {
      && Settled(job, segments) && job.error != WorkerError
      && job.status in {FinalStatus(segments), JobStatus.Failed}
    }

    /** The terminal write of a finalisation: status, error and the summaries, the counters as last published. */
    method WriteOutcome(me: JobId, status: JobStatus, error: JobError, segments: seq<Segment>) returns (r: Result<Job>)
      requires Steady(me, None) && !window && Terminal(status)
      modifies this`clock, this`expected, this`landed, repo`jobs, pool
      ensures Steady(me, None)
      ensures Tracked(me) && landed == old(landed) && SameCounters(me)
      ensures r.Ok? ==> me in old(repo.jobs) && Filed(me, r.value)
      ensures r.Ok? ==> r.value.order == order && r.value.status == status && r.value.error == error && Settled(r.value, segments)
      ensures r.Ok? && old(me in repo.jobs && Counted(repo.jobs[me], segments)) ==> Counted(r.value, segments)
      ensures Smooth(me) && me in old(repo.jobs) ==> r.Ok? && me in repo.jobs
    {
      hide Steady, Quiet, FinalCache, GpuSeconds, CountStatus, BrokenIndexes, Spared, Sought;
      r := Overwrite(me, None, (j: Job) => j.(status := status, error := error, report := FinalReport(j.report, segments)));
    }

    /** The terminal write, the package of a deliverable result, and the runtime event. */
    method PackageOutcome(me: JobId, status: JobStatus, segments: seq<Segment>) returns (r: Result<Job>)
      requires Steady(me, None) && !window && (Deliverable(status) || status == JobStatus.Failed)
      modifies this`clock, this`expected, this`landed, repo`jobs, pool
      ensures Steady(me, None)
      ensures Tracked(me) && landed == old(landed) && SameCounters(me)
      ensures r.Ok? ==> me in old(repo.jobs) && Filed(me, r.value)
      ensures r.Ok? ==> r.value.order == order && Settled(r.value, segments) && r.value.error != WorkerError
      ensures r.Ok? && old(me in repo.jobs && Counted(repo.jobs[me], segments)) ==> Counted(r.value, segments)
      ensures r.Ok? ==> r.value.status == status || r.value.status == JobStatus.Failed
      ensures r.Ok? ==> if status == JobStatus.Failed then r.value.error == RetriesExhausted
                        else if Deliverable(r.value.status) then r.value.error == NoError else r.value.error in {ManifestError, DeliveryError}
      ensures Smooth(me) && me in old(repo.jobs) ==> r.Ok? && me in repo.jobs && r.value.status == status
    {
      hide Steady, Quiet, FinalCache, GpuSeconds, CountStatus, BrokenIndexes, Spared, Sought;
      var written :- WriteOutcome(me, status, if status == JobStatus.Failed then RetriesExhausted else NoError, segments);
      var packaged :- PackageIfDeliverable(me, written);
      var _ :- Call(me, None, FinalEvent);
      r := Ok(packaged);
    }

    /** Everything _finalize_job tries once the lease is back. */
    method SettleBody(me: JobId, status: JobStatus, segments: seq<Segment>) returns (r: Result<Job>, ghost paid: bool)
      requires Steady(me, None) && !window && (Deliverable(status) || status == JobStatus.Failed)
      modifies this`clock, this`expected, this`landed, repo`jobs, pool, billing
      ensures Steady(me, None)
      ensures Tracked(me) && landed == old(landed)
      ensures forall u :: UsedBy(billing.usage, u) == UsedBy(old(billing.usage), u) + if paid && u == order.owner then Due(order) else 0
      ensures r.Ok? ==> r.value.order == order && Settled(r.value, segments) && r.value.error != WorkerError
      ensures r.Ok? ==> me in old(repo.jobs) && Filed(me, r.value) && Priced(r.value, order, UsedBy(old(billing.usage), order.owner))
      ensures SameCounters(me)
      ensures r.Ok? && old(me in repo.jobs && Counted(repo.jobs[me], segments)) ==> Counted(r.value, segments)
      ensures r.Ok? ==> r.value.status == status || r.value.status == JobStatus.Failed
      ensures paid ==> (r.Ok? <==> !ReconcileRaises(order)) && Deliverable(status)
      ensures r.Ok? ==> (paid <==> Deliverable(r.value.status))
      ensures Smooth(me) && me in old(repo.jobs) ==>
                && me in repo.jobs && (paid <==> Deliverable(status)) && (r.Ok? <==> !ReconcileRaises(order))
                && (r.Ok? ==> r.value.status == status)
    {
      hide Steady, Quiet, FinalCache, GpuSeconds, BillableMinutes, CountStatus, BrokenIndexes, Priced;
      hide ReconcileRaises, Due, UsedBy, Spared, Sought;
      paid := false;
      var finalized :- PackageOutcome(me, status, segments);
      r, paid := ChargeFinal(me, finalized);
    }

    method PackageIfDeliverable(me: JobId, job: Job) returns (r: Result<Job>)
      requires Steady(me, None) && !window && Filed(me, job)
      modifies this`clock, this`expected, this`landed, repo`jobs, pool
      ensures Steady(me, None)
      ensures Tracked(me) && landed == old(landed)
      ensures r.Ok? ==> r.value.order == job.order && r.value.report == job.report && Filed(me, r.value)
      ensures SameCounters(me)
      ensures r.Ok? ==> r.value.status == job.status || (Deliverable(job.status) && r.value.status == JobStatus.Failed)
      ensures r.Ok? ==> if Deliverable(job.status) && !Deliverable(r.value.status) then r.value.error in {ManifestError, DeliveryError}
                        else r.value.error == job.error
      ensures Smooth(me) && me in old(repo.jobs) ==> r.Ok? && me in repo.jobs && r.value.status == job.status
    {
      hide Steady, Quiet, Spared, Sought;
      var _ :- Call(me, None, RuntimeIncident);
      r := Ok(job);
      if Deliverable(job.status) {
        r := Package(me, job);
      }
    }

    /** Charge the minutes of a deliverable result, none otherwise. */
    method ChargeFinal(me: JobId, job: Job) returns (r: Result<Job>, ghost paid: bool)
      requires Steady(me, None) && !window && Filed(me, job)
      modifies this`clock, this`expected, this`landed, repo`jobs, pool, billing
      ensures Steady(me, None)
      ensures Tracked(me) && landed == old(landed)
      ensures forall u :: UsedBy(billing.usage, u) == UsedBy(old(billing.usage), u) + if paid && u == job.order.owner then Due(job.order) else 0
      ensures r.Ok? ==> r.value == job.(overage := r.value.overage) && Filed(me, r.value)
      ensures r.Ok? ==> Priced(r.value, job.order, UsedBy(old(billing.usage), job.order.owner))
      ensures SameCounters(me)
      ensures paid ==> (r.Ok? <==> !ReconcileRaises(job.order)) && Deliverable(job.status)
      ensures r.Ok? ==> (paid <==> Deliverable(job.status))
      ensures paid <==> Deliverable(job.status) && !raises(UsageLookup) && !raises(ConsumeLookup)
      ensures Smooth(me) && me in old(repo.jobs) ==> me in repo.jobs && (r.Ok? <==> !ReconcileRaises(job.order))
    {
      hide Steady, ActualOverage, BillableMinutes, Quiet, Spared, Sought;
      var minutes := if Deliverable(job.status) then Due(job.order) else 0;
      ghost var charged;
      var overage;
      overage, charged := ConsumeAndReconcile(me, None, job, minutes, UsageLookup, ConsumeLookup, EstimateReconciliation);
      paid := charged && Deliverable(job.status);
      if overage.Raised? {
        return Raised, paid;
      }
      return Ok(if overage.value.Some? then job.(overage := overage.value) else job), paid;
    }

    /** The handler after the release: FAILED with the same summaries, and no minutes. */
    method SettleFailed(me: JobId, segments: seq<Segment>) returns (r: Result<Job>)
      requires Steady(me, None) && !window
      modifies this`clock, this`expected, this`landed, repo`jobs, pool, billing
      ensures Steady(me, None)
      ensures Tracked(me) && landed == old(landed)
      ensures forall u :: UsedBy(billing.usage, u) == UsedBy(old(billing.usage), u)
      ensures r.Ok? ==> Settled(r.value, segments) && r.value.error == FinalizeError && me in old(repo.jobs)
      ensures r.Ok? ==> r.value.order == order && r.value.status == JobStatus.Failed && Filed(me, r.value)
      ensures Smooth(me) && me in old(repo.jobs) ==> r.Ok? && me in repo.jobs
      ensures r.Ok? && old(me in repo.jobs && Counted(repo.jobs[me], segments)) ==> Counted(r.value, segments)
    {
      hide Steady, FinalCache, GpuSeconds, ActualOverage, Quiet, Spared, Sought;
      var failed :- WriteOutcome(me, JobStatus.Failed, FinalizeError, segments);
      var _ :- Call(me, None, HandlerEvent);
      var summary, charged := ConsumeAndReconcile(me, None, failed, 0,
                                                  HandlerUsageLookup, HandlerConsumeLookup, HandlerReconciliation);
      if summary.Raised? {
        return Raised;
      }
      r := Ok(if summary.value.Some? then failed.(overage := summary.value) else failed);
    }

    /** Any exception after the release becomes a failed job, charged nothing more. */
    method Settle(me: JobId, status: JobStatus, segments: seq<Segment>) returns (r: Result<Job>, ghost paid: bool)
      requires Steady(me, None) && !window && (Deliverable(status) || status == JobStatus.Failed)
      modifies this`clock, this`expected, this`landed, repo`jobs, pool, billing
      ensures Steady(me, None)
      ensures Tracked(me) && landed == old(landed)
      ensures forall u :: UsedBy(billing.usage, u) == UsedBy(old(billing.usage), u) + if paid && u == order.owner then Due(order) else 0
      ensures r.Ok? ==> Settled(r.value, segments) && r.value.error != WorkerError && me in old(repo.jobs)
      ensures r.Ok? ==> r.value.order == order && (r.value.status == status || r.value.status == JobStatus.Failed)
      ensures r.Ok? ==> Filed(me, r.value) && Priced(r.value, order, UsedBy(old(billing.usage), order.owner))
      ensures r.Ok? && old(me in repo.jobs && Counted(repo.jobs[me], segments)) ==> Counted(r.value, segments)
      ensures r.Ok? && Deliverable(r.value.status) ==> paid
      ensures paid ==> (r.Ok? && Deliverable(r.value.status) <==> !ReconcileRaises(order))
      ensures Smooth(me) && me in old(repo.jobs) ==> r.Ok? && me in repo.jobs && r.value.status == Fate(order, status) && (paid <==> Deliverable(status))
    {
      hide Steady, Settled, BillableMinutes, Quiet, Spared, Sought, Smooth;
      r, paid := SettleBody(me, status, segments);
      if r.Raised? {
        r := SettleFailed(me, segments);
      }
    }

    /** Read the job: the record the next decision is taken on. */
    method Look(me: JobId, ghost mine: Option<WorkerId>) returns (found: Option<Job>)
      requires Steady(me, mine)
      modifies this`clock, this`expected, this`landed, repo`jobs, pool
      ensures Steady(me, mine)
      ensures Tracked(me) && SameCounters(me)
      ensures found == if me in repo.jobs then Some(repo.jobs[me]) else None
      ensures found.Some? ==> found.value.order == order
      ensures found.Some? && window ==> found.value.status == if landed.Some? then CancelRequested else Processing
      ensures Smooth(me) && me in old(repo.jobs) ==> found.Some?
    {
      Interfere(me, mine);
      found := repo.Get(me);
    }

    ghost method CloseWindow(me: JobId, mine: Option<WorkerId>)
      requires Steady(me, mine)
      modifies this`window, this`closing
      ensures Steady(me, mine) && !window && closing == old(Until())
    {
      closing, window := Until(), false;
    }

    /** Give the lease back. It is gone even when the closing snapshot raises. */
    method ReleaseLease(me: JobId, ghost mine: Option<WorkerId>, site: Site) returns (r: Result<Snapshot>)
      requires Steady(me, mine)
      modifies this`clock, this`expected, this`landed, repo`jobs, pool
      ensures Steady(me, None)
      ensures Tracked(me) && SameCounters(me) && Drifted(me, old(repo.jobs), repo.jobs)
      ensures r.Raised? <==> raises(site)
      ensures Smooth(me) && me in old(repo.jobs) ==> me in repo.jobs
    {
      hide Steady, Quiet, Spared, Sought, Smooth;
      Interfere(me, mine);
      r := ReleaseNow(me, mine, site);
    }

    method ReleaseNow(me: JobId, ghost mine: Option<WorkerId>, site: Site) returns (r: Result<Snapshot>)
      requires Steady(me, mine)
      modifies pool
      ensures Steady(me, None)
      ensures r.Raised? <==> raises(site)
    {
      hide Called;
      r := pool.Release(me, raises(site));
    }

    /** _finalize_job. The cancellation check is made on the record read first; from then on
        the window is closed and the outcome no longer depends on requests. */
    method FinalizeJob(me: JobId, ghost mine: Option<WorkerId>)
      returns (r: Result<Job>, released: bool, ghost held: Option<WorkerId>, ghost paid: bool)
      requires Steady(me, mine) && window && me in repo.segments
      modifies this`clock, this`expected, this`landed, this`window, this`closing, this`deadLetter, repo`jobs, pool, billing
      ensures Steady(me, held) && !window && (held == mine || held == None)
      ensures Tracked(me)
      ensures released ==> held == None
      ensures DeadLettered(old(deadLetter), deadLetter, me,
                           FinalStatus(repo.segments[me]) == JobStatus.Failed && !(r.Ok? && r.value.status == Cancelled))
      ensures r.Ok? && r.value.status != Cancelled && FinalStatus(repo.segments[me]) == JobStatus.Failed ==> me in deadLetter
      ensures r.Ok? ==> Filed(me, r.value) && Priced(r.value, order, UsedBy(old(billing.usage), order.owner))
      ensures r.Ok? && r.value.status != Cancelled && old(me in repo.jobs && Counted(repo.jobs[me], repo.segments[me])) ==>
                Counted(r.value, repo.segments[me])
      ensures r.Ok? && landed.Some? ==> r.value.status == Cancelled
      ensures r.Ok? && r.value.status != Cancelled ==>
                me in old(repo.jobs) && released && Summarised(r.value, repo.segments[me]) && r.value.order == order
      ensures forall u :: UsedBy(billing.usage, u) == UsedBy(old(billing.usage), u) + if paid && u == order.owner then Due(order) else 0
      ensures r.Ok? && Deliverable(r.value.status) ==> paid
      ensures paid ==> landed.None? && !(r.Ok? && r.value.status == Cancelled)
      ensures paid ==> (r.Ok? && Deliverable(r.value.status) <==> !ReconcileRaises(order))
      ensures r.Ok? && r.value.status == Cancelled ==> landed.Some?
      ensures Smooth(me) && me in old(repo.jobs) ==>
                && r.Ok? && me in repo.jobs && (paid <==> landed.None? && Deliverable(FinalStatus(repo.segments[me])))
                && r.value.status == if landed.Some? then Cancelled else Fate(order, FinalStatus(repo.segments[me]))
    {
      hide Steady, Quiet, ReconcileRaises, Due, Summarised, BillableMinutes, FinalStatus, UsedBy, Spared, Sought, Smooth;
      released, held, paid := false, mine, false;
      var found := Look(me, mine);
      CloseWindow(me, mine);
      if found.None? {
        return Raised, false, mine, false;
      }
      if found.value.status == CancelRequested {
        r := CancelJob(me, mine);
        return;
      }
      r, released, held, paid := FinalizeLive(me, mine);
    }

    /** The rest of _finalize_job for a job that is not cancelled. */
    method FinalizeLive(me: JobId, ghost mine: Option<WorkerId>)
      returns (r: Result<Job>, released: bool, ghost held: Option<WorkerId>, ghost paid: bool)
      requires Steady(me, mine) && !window && me in repo.segments
      modifies this`clock, this`expected, this`landed, this`deadLetter, repo`jobs, pool, billing
      ensures Steady(me, held) && (held == mine || held == None)
      ensures Tracked(me)
      ensures r.Ok? ==> Filed(me, r.value) && Priced(r.value, order, UsedBy(old(billing.usage), order.owner))
      ensures r.Ok? && old(me in repo.jobs && Counted(repo.jobs[me], repo.segments[me])) ==> Counted(r.value, repo.segments[me])
      ensures released <==> r.Ok?
      ensures released ==> held == None
      ensures DeadLettered(old(deadLetter), deadLetter, me, FinalStatus(repo.segments[me]) == JobStatus.Failed)
      ensures r.Ok? && r.value.status != Cancelled && FinalStatus(repo.segments[me]) == JobStatus.Failed ==> me in deadLetter
      ensures r.Ok? ==> me in old(repo.jobs) && Summarised(r.value, repo.segments[me])
      ensures r.Ok? ==> r.value.status != Cancelled && r.value.order == order
      ensures forall u :: UsedBy(billing.usage, u) == UsedBy(old(billing.usage), u) + if paid && u == order.owner then Due(order) else 0
      ensures r.Ok? && Deliverable(r.value.status) ==> paid
      ensures paid ==> (r.Ok? && Deliverable(r.value.status) <==> !ReconcileRaises(order))
      ensures Smooth(me) && me in old(repo.jobs) ==>
                && r.Ok? && me in repo.jobs && r.value.status == Fate(order, FinalStatus(repo.segments[me]))
                && (paid <==> Deliverable(FinalStatus(repo.segments[me])))
    {
      hide Steady, Settled, BillableMinutes, UsedBy, Quiet, ReconcileRaises, Due, Spared, Sought, Smooth;
      released, held, paid := false, mine, false;
      var closed;
      closed, held := CloseRun(me, mine);
      if closed.Raised? {
        return Raised, false, held, false;
      }
      r, paid := Settle(me, FinalStatus(closed.value), closed.value);
      released := r.Ok?;
    }

    /** A dead letter is appended once, and only for a failure. */
    static predicate DeadLettered(before: seq<JobId>, after: seq<JobId>, me: JobId, failed: bool) {
      after == before || (failed && me !in before && after == before + [me])
    }

    lemma NothingFailed()
      ensures FinalStatus([]) == JobStatus.Completed
    {
    }

    /** The segments as they ended, the dead letter and the SLO record. */
    method Survey(me: JobId, ghost mine: Option<WorkerId>) returns (r: Result<seq<Segment>>)
      requires Steady(me, mine) && !window && me in repo.segments
      modifies this`clock, this`expected, this`landed, this`deadLetter, repo`jobs, pool
      ensures Steady(me, mine)
      ensures Tracked(me) && SameCounters(me)
      ensures DeadLettered(old(deadLetter), deadLetter, me, FinalStatus(repo.segments[me]) == JobStatus.Failed)
      ensures r.Ok? && FinalStatus(r.value) == JobStatus.Failed ==> me in deadLetter
      ensures r.Ok? && me in repo.jobs ==> r.value == repo.segments[me]
      ensures Smooth(me) && me in old(repo.jobs) ==> r.Ok? && me in repo.jobs
    {
      hide Steady, FinalStatus, Quiet, Drifted, Spared, Sought;
      Interfere(me, mine);
      var segments := repo.ListSegments(me);
      NothingFailed();
      if FinalStatus(segments) == JobStatus.Failed && me !in deadLetter {
        deadLetter := deadLetter + [me];
      }
      var _ :- Call(me, mine, SloIncident);
      r := Ok(segments);
    }

    /** The survey, and the lease given back. */
    method CloseRun(me: JobId, ghost mine: Option<WorkerId>) returns (r: Result<seq<Segment>>, ghost held: Option<WorkerId>)
      requires Steady(me, mine) && !window && me in repo.segments
      modifies this`clock, this`expected, this`landed, this`deadLetter, repo`jobs, pool
      ensures Steady(me, held) && (held == mine || held == None) && (r.Ok? ==> held == None)
      ensures Tracked(me) && SameCounters(me)
      ensures DeadLettered(old(deadLetter), deadLetter, me, FinalStatus(repo.segments[me]) == JobStatus.Failed)
      ensures r.Ok? && FinalStatus(r.value) == JobStatus.Failed ==> me in deadLetter
      ensures r.Ok? && me in repo.jobs ==> r.value == repo.segments[me]
      ensures Smooth(me) && me in old(repo.jobs) ==> r.Ok? && me in repo.jobs
    {
      hide Steady, FinalStatus, Quiet, Drifted, Spared, Sought;
      held := mine;
      r := Survey(me, mine);
      if r.Raised? {
        return;
      }
      var snapshot := ReleaseLease(me, mine, ReleaseSnapshot);
      if snapshot.Raised? {
        r := Raised;
      }
      held := None;
    }

    /** ---- the loop over segments ---- */

    /** Every segment but k is as it was, and so is all that its outcome depends on. */
    twostate predicate OthersKept(me: JobId, k: nat)
      requires me in old(repo.segments)
      reads this`order, this`cache, this`failurePlans, this`reproPlans, repo`segments
    {
      && Kept(me, old(repo.segments), repo.segments) && |repo.segments[me]| == |old(repo.segments)[me]|
      && forall j :: 0 <= j < |repo.segments[me]| && j != k ==>
           repo.segments[me][j] == old(repo.segments)[me][j] && Outcome(order, me, j) == old(Outcome(order, me, j))
    }

    lemma SteadyIsSourced(me: JobId, mine: Option<WorkerId>)
      requires Steady(me, mine)
      ensures Sourced()
    {
    }

    lemma SteadyIsIndexed(me: JobId, mine: Option<WorkerId>)
      requires Steady(me, mine) && me in repo.segments
      ensures Indexed(repo.segments[me])
    {
    }

    /** One iteration: look, stop when gone or asked to, else process the segment. */
    method RunOne(me: JobId, ghost mine: Option<WorkerId>, k: nat) returns (r: Result<Option<RunResult>>)
      requires Steady(me, mine) && window && me in repo.segments && k < |repo.segments[me]|
      requires started == k && (landed.Some? ==> landed.value == k)
      modifies this`clock, this`expected, this`landed, this`window, this`closing, this`started
      modifies this`cache, this`origin, this`failurePlans, this`reproPlans, repo, pool, billing
      ensures Steady(me, mine)
      ensures forall u :: UsedBy(billing.usage, u) == UsedBy(old(billing.usage), u)
      ensures OthersKept(me, k)
      ensures me in repo.jobs ==> me in old(repo.jobs)
      ensures landed == Some(k) ==> repo.segments == old(repo.segments)
      ensures landed.Some? ==> landed.value in {k, k + 1}
      ensures r == Ok(None) ==> window && started == k + 1 && landed != Some(k) && repo.segments[me][k] == old(Outcome(order, me, k))
      ensures r == Ok(None) && old(repo.segments[me][k].attempts) < 3 ==> Current(me)
      ensures r.Ok? && r.value.Some? ==>
                (r.value.value.NotFound? && me !in repo.jobs)
                || (r.value.value.Returned? && r.value.value.job.status == Cancelled && landed.Some? && Filed(me, r.value.value.job))
      ensures Smooth(me) && me in old(repo.jobs) ==> r.Ok? && me in repo.jobs
    {
      hide Steady, UsedBy, Outcome, Quiet, Spared, Sought, Smooth, Filed, Current, Counted, SameCounters, Until;
      hide PlanFor, ReproFor, Rendered;
      var found := Look(me, mine);
      if found.None? {
        return Ok(Some(NotFound));
      }
      if found.value.status == CancelRequested {
        CloseWindow(me, mine);
        var ended :- AcknowledgeCancel(me, mine);
        return Ok(Some(ended));
      }
      StartSegment(me, mine);
      r := RunStarted(me, mine, found.value, k);
    }

    /** Segments have different cache keys, so processing one does not change what the others will become. */
    method RunStarted(me: JobId, ghost mine: Option<WorkerId>, job: Job, k: nat) returns (r: Result<Option<RunResult>>)
      requires Steady(me, mine) && me in repo.segments && k < |repo.segments[me]| && job.order == order
      modifies this`clock, this`expected, this`landed, this`cache, this`origin
      modifies this`failurePlans, this`reproPlans, repo, pool
      ensures Steady(me, mine)
      ensures Tracked(me)
      ensures OthersKept(me, k)
      ensures r.Ok? ==> r == Ok(None) && repo.segments[me][k] == old(Outcome(order, me, k))
      ensures r.Ok? && old(repo.segments[me][k].attempts) < 3 ==> Current(me)
      ensures Smooth(me) && me in old(repo.jobs) ==> r.Ok? && me in repo.jobs
    {
      hide Steady, ClosedForm, UsedBy, Quiet, Spared, Sought, Smooth;
      SteadyIsIndexed(me, mine);
      var done := ProcessSegment(me, mine, job, k);
      r := if done.Ok? then Ok(None) else Raised;
    }

    /** Cancel the job and tell the subscribers. */
    method AcknowledgeCancel(me: JobId, ghost mine: Option<WorkerId>) returns (r: Result<RunResult>)
      requires Steady(me, mine) && !window
      modifies this`clock, this`expected, this`landed, repo`jobs, pool, billing
      ensures Steady(me, mine)
      ensures Tracked(me) && landed == old(landed)
      ensures forall u :: UsedBy(billing.usage, u) == UsedBy(old(billing.usage), u)
      ensures r.Ok? ==> r.value.Returned? && r.value.job.status == Cancelled && Filed(me, r.value.job)
      ensures Smooth(me) && me in old(repo.jobs) ==> r.Ok? && me in repo.jobs
    {
      hide Steady, UsedBy, Quiet, Spared, Sought;
      var cancelled :- CancelJob(me, mine);
      var _ :- Call(me, mine, CancelWebhook);
      return Ok(Returned(cancelled));
    }

    ghost method StartSegment(me: JobId, mine: Option<WorkerId>)
      requires Steady(me, mine)
      modifies this`started
      ensures Steady(me, mine) && started == old(started) + 1
    {
      started := started + 1;
    }

    /** Segments the retry loop will really try. */
    static predicate Tryable(segments: seq<Segment>) {
      segments != [] && forall s <- segments :: s.attempts < 3
    }

    /** The loop of process_job. None: every segment was handed to the retry loop. */
    method RunSegments(me: JobId, ghost mine: Option<WorkerId>) returns (r: Result<Option<RunResult>>)
      requires Steady(me, mine) && window && me in repo.segments
      requires started == 0 && (landed.Some? ==> landed.value == 0)
      modifies this`clock, this`expected, this`landed, this`window, this`closing, this`started
      modifies this`cache, this`origin, this`failurePlans, this`reproPlans, repo, pool, billing
      ensures Steady(me, mine)
      ensures forall u :: UsedBy(billing.usage, u) == UsedBy(old(billing.usage), u)
      ensures Kept(me, old(repo.segments), repo.segments) && |repo.segments[me]| == |old(repo.segments)[me]|
      ensures me in repo.jobs ==> me in old(repo.jobs)
      ensures landed.Some? ==> forall j :: landed.value <= j < |repo.segments[me]| ==> repo.segments[me][j] == old(repo.segments)[me][j]
      ensures r == Ok(None) ==> window && (landed.Some? ==> landed.value == started)
      ensures r == Ok(None) ==> forall j :: started <= j < |repo.segments[me]| ==> repo.segments[me][j] == old(repo.segments)[me][j]
      ensures r == Ok(None) && me in repo.jobs ==>
                repo.segments[me] == old(Outcomes(order, me))
      ensures r == Ok(None) && old(Tryable(repo.segments[me])) ==> Current(me)
      ensures r.Ok? && r.value.Some? ==>
                (r.value.value.NotFound? && me !in repo.jobs)
                || (r.value.value.Returned? && r.value.value.job.status == Cancelled && landed.Some? && Filed(me, r.value.value.job))
      ensures Smooth(me) && me in old(repo.jobs) ==> r.Ok? && me in repo.jobs
    {
      hide Steady, UsedBy, Quiet, Outcome, Outcomes, Counted, Filed, SameCounters, Drifted, Indexed, Spared, Sought;
      hide Respects, Smooth;
      OutcomesAreOutcomes(order, me);
      ghost var planned := Outcomes(order, me);
      var segments := ListAll(me, mine);
      for k := 0 to |segments|
        invariant Steady(me, mine) && window && started == k && (landed.Some? ==> landed.value == k)
        invariant forall u :: UsedBy(billing.usage, u) == UsedBy(old(billing.usage), u)
        invariant Kept(me, old(repo.segments), repo.segments) && |repo.segments[me]| == |planned|
        invariant forall j :: k <= j < |planned| ==> repo.segments[me][j] == old(repo.segments)[me][j] && Outcome(order, me, j) == planned[j]
        invariant forall j :: 0 <= j < k ==> repo.segments[me][j] == planned[j]
        invariant k > 0 && old(Tryable(repo.segments[me])) ==> Current(me)
        invariant |segments| <= |planned| && (me in repo.jobs ==> me in old(repo.jobs) && |segments| == |planned|)
        invariant Smooth(me) && me in old(repo.jobs) ==> me in repo.jobs
      {
        var ended := RunOne(me, mine, k);
        if ended.Raised? {
          return Raised;
        }
        if ended.value.Some? {
          return ended;
        }
      }
      return Ok(None);
    }

    method ListAll(me: JobId, ghost mine: Option<WorkerId>) returns (segments: seq<Segment>)
      requires Steady(me, mine) && me in repo.segments
      modifies this`clock, this`expected, this`landed, repo`jobs, pool
      ensures Steady(me, mine)
      ensures Tracked(me)
      ensures segments == if me in repo.jobs then repo.segments[me] else []
      ensures Smooth(me) && me in old(repo.jobs) ==> me in repo.jobs
    {
      Interfere(me, mine);
      segments := repo.ListSegments(me);
    }

    /** ---- the whole run ---- */

    ghost method OpenWindow(me: JobId)
      requires Steady(me, None) && (me in repo.jobs ==> repo.jobs[me].status == Processing)
      modifies this`window, this`landed, this`started, this`opening
      ensures Steady(me, None) && window && landed == None && started == 0 && opening == clock
    {
      hide Quiet, Respects;
      window, landed, started, opening := true, None, 0, clock;
    }

    /** allocate_gpu at the backlog of the moment. */
    method TakeLease(me: JobId, order: Order) returns (r: Result<Allocation>, ghost mine: Option<WorkerId>)
      requires Steady(me, None)
      modifies this`clock, this`expected, this`landed, repo`jobs, pool
      ensures Steady(me, mine) && (r.Ok? <==> mine.Some?)
      ensures Tracked(me)
      ensures r.Ok? ==> r.value.gpu == (if order.tier == Museum then "RTX 6000" else "L4") && r.value.pool.depth == Max(|repo.Queue()|, 1)
      ensures Smooth(me) ==> r.Ok? && (me in old(repo.jobs) ==> me in repo.jobs)
    {
      hide Steady, Quiet, Spared, Sought;
      Interfere(me, None);
      r, mine := AllocateNow(me, order);
    }

    method AllocateNow(me: JobId, order: Order) returns (r: Result<Allocation>, ghost mine: Option<WorkerId>)
      requires Steady(me, None)
      modifies pool
      ensures Steady(me, mine) && (r.Ok? <==> mine.Some?)
      ensures r.Ok? ==> r.value.gpu == (if order.tier == Museum then "RTX 6000" else "L4") && r.value.pool.depth == Max(|repo.Queue()|, 1)
      ensures Smooth(me) ==> r.Ok?
    {
      hide Quiet, AfterGrant, Spared, Sought, Called;
      var backlog := repo.QueuedBacklog();
      r := pool.Allocate(me, GpuFor(order.tier), Max(backlog, 1),
                         AllocationFaults(raises(AllocationFirstSnapshot), raises(AllocationRecord), raises(AllocationSecondSnapshot)));
      mine := if r.Ok? then Some(r.value.worker) else None;
    }

    /** process_job up to the loop: PROCESSING, a lease, the start announced. */
    method Start(me: JobId) returns (r: Result<()>, leased: bool, ghost mine: Option<WorkerId>)
      requires Steady(me, None) && !window && landed.None?
      modifies this`clock, this`expected, this`landed, this`window, this`opening, this`started, repo`jobs, pool
      ensures Steady(me, mine) && (leased <==> mine.Some?) && (r.Ok? ==> leased && window && started == 0)
      ensures landed.None? || landed == Some(0)
      ensures me in repo.jobs ==> me in old(repo.jobs)
      ensures Smooth(me) && me in old(repo.jobs) ==> r.Ok? && me in repo.jobs
    {
      hide Steady, Quiet, Spared, Sought;
      leased, mine := false, None;
      var processing := Overwrite(me, None, (j: Job) => j.(status := Processing));
      if processing.Raised? {
        return Raised, false, None;
      }
      OpenWindow(me);
      var lease;
      lease, mine := TakeLease(me, processing.value.order);
      if lease.Raised? {
        return Raised, false, mine;
      }
      leased := true;
      var noted := Patch(me, mine, (j: Job) => j.(report := j.report.(gpuSeconds := 0)));
      if noted.Raised? {
        return Raised, true, mine;
      }
      r := Call(me, mine, StartAnnounce);
    }

    /** Nobody is charged but the owner, and the owner exactly what is due when `paid`. */
    twostate predicate Charged(o: Order, paid: bool)
      reads billing
    {
      forall u :: UsedBy(billing.usage, u) == UsedBy(old(billing.usage), u) + if paid && u == o.owner then Due(o) else 0
    }

    /** _finalize_job and the final progress event and webhook. */
    method FinalizeAndAnnounce(me: JobId, ghost mine: Option<WorkerId>)
      returns (r: Result<RunResult>, released: bool, ghost held: Option<WorkerId>, ghost paid: bool)
      requires Steady(me, mine) && window && me in repo.segments
      modifies this`clock, this`expected, this`landed, this`window, this`closing, this`deadLetter, repo`jobs, pool, billing
      ensures Steady(me, held) && (held == mine || held == None) && (released ==> held == None)
      ensures Tracked(me)
      ensures Charged(order, paid)
      ensures DeadLettered(old(deadLetter), deadLetter, me,
                           FinalStatus(repo.segments[me]) == JobStatus.Failed && !(r.Ok? && r.value.Returned? && r.value.job.status == Cancelled))
      ensures r.Ok? ==> r.value.Returned? && Filed(me, r.value.job) && Priced(r.value.job, order, UsedBy(old(billing.usage), order.owner))
      ensures r.Ok? && r.value.job.status != Cancelled && FinalStatus(repo.segments[me]) == JobStatus.Failed ==> me in deadLetter
      ensures r.Ok? && r.value.job.status != Cancelled && old(Current(me)) ==> Counted(r.value.job, repo.segments[me])
      ensures r.Ok? && landed.Some? ==> r.value.job.status == Cancelled
      ensures r.Ok? && r.value.job.status != Cancelled ==>
                released && me in old(repo.jobs) && r.value.job.order == order && Summarised(r.value.job, repo.segments[me])
      ensures r.Ok? && Deliverable(r.value.job.status) ==> paid
      ensures paid ==> landed.None? && !(r.Ok? && r.value.job.status == Cancelled)
      ensures paid ==> (r.Ok? && Deliverable(r.value.job.status) <==> !ReconcileRaises(order) && !raises(FinalAnnounce))
      ensures r.Ok? && r.value.job.status == Cancelled ==> landed.Some?
      ensures Smooth(me) && me in old(repo.jobs) ==>
                && me in repo.jobs && (paid <==> landed.None? && Deliverable(FinalStatus(repo.segments[me])))
                && (r.Ok? <==> !raises(FinalAnnounce))
                && (r.Ok? ==> r.value.job.status == if landed.Some? then Cancelled else Fate(order, FinalStatus(repo.segments[me])))
    {
      hide Priced, Counted, Steady, UsedBy, Summarised, FinalStatus, ReconcileRaises, Due, Quiet, Spared, Sought;
      var completed;
      completed, released, held, paid := FinalizeJob(me, mine);
      if completed.Raised? {
        return Raised, released, held, paid;
      }
      var announced := Call(me, held, FinalAnnounce);
      r := if announced.Ok? then Ok(Returned(completed.value)) else Raised;
    }

    /** What the except branch returns. */
    static predicate FailedByWorker(r: RunResult) {
      r.Returned? && r.job.status == JobStatus.Failed && r.job.error == WorkerError
    }

    /** What a run owes wherever it ends: untouched segments after a cancellation, the bill, the dead
        letter, and a returned record that is the stored one and describes its segments. */
    twostate predicate Accounted(me: JobId, o: Order, r: RunResult, paid: bool, asked: bool)
      requires me in old(repo.segments)
      reads this, repo, billing
    {
      && Kept(me, old(repo.segments), repo.segments) && |repo.segments[me]| == |old(repo.segments)[me]|
      && (landed.Some? ==> forall j :: landed.value <= j < |repo.segments[me]| ==> repo.segments[me][j] == old(repo.segments)[me][j])
      && Charged(o, paid)
      && (r.Returned? && Deliverable(r.job.status) ==> paid)
      && (paid ==> landed.None? && !(r.Returned? && r.job.status == Cancelled))
      && (paid ==> (r.Returned? && Deliverable(r.job.status) <==> !ReconcileRaises(o) && !raises(FinalAnnounce)))
      && DeadLettered(old(deadLetter), deadLetter, me,
                      FailedByWorker(r) || r.Escaped?
                      || (FinalStatus(repo.segments[me]) == JobStatus.Failed && !(r.Returned? && r.job.status == Cancelled)))
      && (FailedByWorker(r) ==> me in deadLetter)
      && (r.Returned? ==> Filed(me, r.job) && Priced(r.job, o, UsedBy(old(billing.usage), o.owner)))
      && (r.NotFound? ==> me !in repo.jobs)
      && (r.Returned? && landed.Some? ==> r.job.status == Cancelled || FailedByWorker(r))
      && (r.Returned? && r.job.status == Cancelled ==> landed.Some? || asked)
      && (r.Returned? && r.job.status != Cancelled && !FailedByWorker(r) ==>
            && me in old(repo.jobs) && r.job.order == o
            && Summarised(r.job, repo.segments[me]) && repo.segments[me] == old(Outcomes(o, me))
            && (old(Tryable(repo.segments[me])) ==> Counted(r.job, repo.segments[me]))
            && (FinalStatus(repo.segments[me]) == JobStatus.Failed ==> me in deadLetter))
    }

    /** What the run leaves in the store, even when it escapes: a job that is over, deliverable only
        when paid, and never deliverable once a cancellation has landed. */
    ghost predicate Closed(me: JobId, r: RunResult, paid: bool)
      reads this`landed, repo`jobs
    {
      me in repo.jobs ==>
        && repo.jobs[me].status in {JobStatus.Completed, JobStatus.Failed, Partial, Cancelled}
        && (r.Escaped? || landed.Some? ==> repo.jobs[me].status in {JobStatus.Failed, Cancelled})
        && (Deliverable(repo.jobs[me].status) ==> paid)
    }

    /** What a smooth run comes to: the segments end in `status`, unless a cancellation stopped it. Charged
        exactly for a deliverable status, and failed all the same when one of the last two calls raises. */
    ghost predicate Foreseen(me: JobId, o: Order, r: RunResult, paid: bool, stopped: bool, status: JobStatus)
      reads repo`jobs
    {
      && me in repo.jobs && r.Returned?
      && (paid <==> !stopped && Deliverable(status))
      && (FailedByWorker(r) || r.job.status == if stopped then Cancelled else Fate(o, status))
      && (FailedByWorker(r) ==> raises(FinalAnnounce))
      && (!stopped && raises(FinalAnnounce) ==> FailedByWorker(r))
    }

    /** An exception on its way out is an escape. */
    static function Told(r: Result<RunResult>): RunResult {
      if r.Ok? then r.value else Escaped
    }

    /** From the first segment to the last announcement. */
    method RunLeased(me: JobId, ghost mine: Option<WorkerId>)
      returns (r: Result<RunResult>, released: bool, ghost held: Option<WorkerId>, ghost paid: bool)
      requires Steady(me, mine) && window && me in repo.segments
      requires started == 0 && (landed.Some? ==> landed.value == 0)
      modifies this`clock, this`expected, this`landed, this`window, this`closing, this`started, this`deadLetter
      modifies this`cache, this`origin, this`failurePlans, this`reproPlans, repo, pool, billing
      ensures Steady(me, held) && (held == mine || held == None) && (released ==> held == None)
      ensures me in repo.jobs ==> me in old(repo.jobs)
      ensures Accounted(me, order, Told(r), paid, false) && (r.Ok? ==> !r.value.Escaped?)
      ensures r.Ok? && r.value.Returned? && r.value.job.status != Cancelled ==> released
      ensures Smooth(me) && me in old(repo.jobs) ==>
                && me in repo.jobs && (paid <==> landed.None? && Deliverable(FinalStatus(old(Outcomes(order, me)))))
                && (r.Raised? ==> raises(FinalAnnounce)) && (landed.None? && raises(FinalAnnounce) ==> r.Raised?)
                && (r.Ok? ==> r.value.Returned? && !FailedByWorker(r.value)
                              && r.value.job.status == if landed.Some? then Cancelled else Fate(order, FinalStatus(old(Outcomes(order, me)))))
    {
      hide ActualOverage, Counted, Steady, UsedBy, Outcomes, Settled, FinalStatus, ReconcileRaises, Due, Quiet;
      hide Spared, Sought, Respects, Smooth, Filed, Tryable, Current;
      released, held, paid := false, mine, false;
      var ended := RunSegments(me, mine);
      assert UsedBy(billing.usage, order.owner) == UsedBy(old(billing.usage), order.owner);
      if ended.Raised? {
        return Raised, false, mine, false;
      }
      if ended.value.Some? {
        return Ok(ended.value.value), false, mine, false;
      }
      r, released, held, paid := FinalizeAndAnnounce(me, mine);
      assert Charged(order, paid);
    }

    /** FAILED is stored and the job dead-lettered, unless it is gone. */
    method MarkFailed(me: JobId, ghost mine: Option<WorkerId>) returns (failed: Result<Job>)
      requires Steady(me, mine) && !window
      modifies this`clock, this`expected, this`landed, this`deadLetter, repo`jobs, pool
      ensures Steady(me, mine)
      ensures Tracked(me) && landed == old(landed)
      ensures failed.Ok? <==> me in repo.jobs
      ensures failed.Ok? ==> Filed(me, failed.value) && failed.value.order == order && me in deadLetter
      ensures failed.Ok? ==> failed.value.status == JobStatus.Failed && failed.value.error == WorkerError
      ensures DeadLettered(old(deadLetter), deadLetter, me, failed.Ok?)
      ensures Smooth(me) && me in old(repo.jobs) ==> failed.Ok?
    {
      hide Steady, Quiet, Spared, Sought, Smooth, Respects;
      failed := Overwrite(me, mine, (j: Job) => j.(status := JobStatus.Failed, error := WorkerError));
      if failed.Ok? && me !in deadLetter {
        deadLetter := deadLetter + [me];
      }
    }

    /** The except branch of process_job: FAILED, dead letter, no minutes. */
    method HandleFailure(me: JobId, ghost mine: Option<WorkerId>, tier: PlanTier) returns (r: RunResult)
      requires Steady(me, mine) && !window
      modifies this`clock, this`expected, this`landed, this`deadLetter, repo`jobs, pool, billing
      ensures Steady(me, mine)
      ensures Tracked(me) && landed == old(landed)
      ensures forall u :: UsedBy(billing.usage, u) == UsedBy(old(billing.usage), u)
      ensures me in repo.jobs ==> repo.jobs[me].status == JobStatus.Failed
      ensures r.Returned? ==> Filed(me, r.job) && me in deadLetter
      ensures DeadLettered(old(deadLetter), deadLetter, me, true)
      ensures Smooth(me) && me in old(repo.jobs) ==> r.Returned? && me in repo.jobs
      ensures r.Escaped? || (r.Returned? && r.job.status == JobStatus.Failed && r.job.error == WorkerError && r.job.order == order)
      ensures r.Returned? ==> !raises(FailureAnnounce) && (tier == Unsupported || !raises(FailureConsumeLookup))
      ensures !raises(FailureAnnounce) && (tier == Unsupported || !raises(FailureConsumeLookup)) && me in repo.jobs ==> r.Returned?
    {
      hide Steady, UsedBy, Quiet, Spared, Sought, Respects;
      var failed := MarkFailed(me, mine);
      if failed.Raised? {
        return Escaped;
      }
      if tier != Unsupported {
        var usage := billing.ConsumeMinutes(failed.value.order.owner, 0, Limit(tier, FailureConsumeLookup));
        if usage.Raised? {
          return Escaped;
        }
      }
      var announced := Call(me, mine, FailureAnnounce);
      r := if announced.Ok? then Returned(failed.value) else Escaped;
    }

    /** From the PROCESSING write on. `leased`: a lease is still to be given back. */
    method RunProcessing(me: JobId)
      returns (r: Result<RunResult>, leased: bool, ghost held: Option<WorkerId>, ghost paid: bool)
      requires Steady(me, None) && !window && landed.None? && started == 0 && me in repo.segments
      modifies this`clock, this`expected, this`landed, this`window, this`opening, this`closing, this`started, this`deadLetter
      modifies this`cache, this`origin, this`failurePlans, this`reproPlans, repo, pool, billing
      ensures Steady(me, held) && (held.Some? ==> leased)
      ensures me in repo.jobs ==> me in old(repo.jobs)
      ensures Accounted(me, order, Told(r), paid, false) && (r.Ok? ==> !r.value.Escaped?)
      ensures r.Ok? && r.value.Returned? && r.value.job.status != Cancelled ==> !leased
      ensures Smooth(me) && me in old(repo.jobs) ==>
                var stopped, status := landed.Some?, FinalStatus(old(Outcomes(order, me)));
                && me in repo.jobs && (paid <==> !stopped && Deliverable(status))
                && (r.Raised? ==> raises(FinalAnnounce)) && (!stopped && raises(FinalAnnounce) ==> r.Raised?)
                && (r.Ok? ==> r.value.Returned? && !FailedByWorker(r.value)
                              && r.value.job.status == if stopped then Cancelled else Fate(order, status))
    {
      hide ActualOverage, Counted, Steady, UsedBy, Outcomes, Summarised, FinalStatus, ReconcileRaises, Due, Quiet;
      hide Spared, Sought, Respects, Smooth, Filed, Tryable;
      paid := false;
      var ready;
      ready, leased, held := Start(me);
      if ready.Raised? {
        return Raised, leased, held, false;
      }
      var released;
      r, released, held, paid := RunLeased(me, held);
      leased := !released;
    }

    /** The try block of process_job. `leased`: a lease is still to be given back. */
    method RunBody(me: JobId, job: Job)
      returns (r: Result<RunResult>, leased: bool, ghost held: Option<WorkerId>, ghost paid: bool)
      requires Steady(me, None) && !window && landed.None? && started == 0 && me in repo.segments && job.order == order
      modifies this`clock, this`expected, this`landed, this`window, this`opening, this`closing, this`started, this`deadLetter
      modifies this`cache, this`origin, this`failurePlans, this`reproPlans, repo, pool, billing
      ensures Steady(me, held) && (held.Some? ==> leased)
      ensures me in repo.jobs ==> me in old(repo.jobs)
      ensures Accounted(me, order, Told(r), paid, job.status == CancelRequested) && (r.Ok? ==> !r.value.Escaped?)
      ensures r.Ok? && r.value.Returned? && r.value.job.status != Cancelled ==> !leased
      ensures Smooth(me) && me in old(repo.jobs) && job.order.tier != Unsupported ==>
                var stopped, status := landed.Some? || job.status == CancelRequested, FinalStatus(old(Outcomes(order, me)));
                && me in repo.jobs && (paid <==> !stopped && Deliverable(status))
                && (r.Raised? ==> raises(FinalAnnounce)) && (!stopped && raises(FinalAnnounce) ==> r.Raised?)
                && (r.Ok? ==> r.value.Returned? && !FailedByWorker(r.value)
                              && r.value.job.status == if stopped then Cancelled else Fate(order, status))
    {
      hide ActualOverage, Counted, Steady, UsedBy, Outcomes, Summarised, FinalStatus, ReconcileRaises, Due, Quiet;
      hide Spared, Sought, Respects, Smooth, Filed, Tryable;
      leased, held, paid := false, None, false;
      if job.order.tier == Unsupported {
        return Raised, false, None, false;
      }
      if job.status == CancelRequested {
        r := AcknowledgeCancel(me, None);
        return;
      }
      r, leased, held, paid := RunProcessing(me);
    }

    /** The try block of process_job and its handler. */
    method RunGuarded(me: JobId, job: Job) returns (r: RunResult, leased: bool, ghost held: Option<WorkerId>, ghost paid: bool)
      requires Steady(me, None) && !window && landed.None? && started == 0 && me in repo.segments && job.order == order
      modifies this`clock, this`expected, this`landed, this`window, this`opening, this`closing, this`started, this`deadLetter
      modifies this`cache, this`origin, this`failurePlans, this`reproPlans, repo, pool, billing
      ensures Steady(me, held) && !window && (held.Some? ==> leased)
      ensures Accounted(me, order, r, paid, job.status == CancelRequested)
      ensures r.Returned? && r.job.status != Cancelled && !FailedByWorker(r) ==> !leased
      ensures Closed(me, r, paid)
      ensures Smooth(me) && me in old(repo.jobs) && job.order.tier != Unsupported ==>
                Foreseen(me, order, r, paid, landed.Some? || job.status == CancelRequested, FinalStatus(old(Outcomes(order, me))))
    {
      hide ActualOverage, Counted, Steady, UsedBy, Outcomes, FinalStatus, ReconcileRaises, Due, Quiet, Settled;
      hide Spared, Sought, Respects, Smooth, Tryable;
      var body;
      body, leased, held, paid := RunBody(me, job);
      CloseWindow(me, held);
      if body.Ok? {
        r := body.value;
      } else {
        r := HandleFailure(me, held, job.order.tier);
      }
    }

    /** process_job once the job was found. The finally block's own exception replaces
        whatever was being returned. */
    method RunFound(me: JobId, job: Job) returns (r: RunResult, ghost paid: bool)
      requires Steady(me, None) && !window && landed.None? && started == 0 && me in repo.segments && job.order == order
      modifies this`clock, this`expected, this`landed, this`window, this`opening, this`closing, this`started, this`deadLetter
      modifies this`cache, this`origin, this`failurePlans, this`reproPlans, repo, pool, billing
      ensures Steady(me, None) && !window
      ensures Accounted(me, order, r, paid, job.status == CancelRequested)
      ensures Closed(me, r, paid)
      ensures Smooth(me) && me in old(repo.jobs) && job.order.tier != Unsupported ==>
                Foreseen(me, order, r, paid, landed.Some? || job.status == CancelRequested, FinalStatus(old(Outcomes(order, me))))
    {
      hide Priced, Counted, Steady, UsedBy, Outcomes, FinalStatus, ReconcileRaises, Due, Quiet, Summarised, Spared;
      hide Sought, Respects;
      var leased;
      ghost var held;
      r, leased, held, paid := RunGuarded(me, job);
      if leased {
        var released := ReleaseLease(me, held, FinallySnapshot);
        if released.Raised? {
          r := Escaped;
        }
      }
    }

    /** A fresh job's segments all end finished, on their own pieces. */
    lemma FreshOutcomes(o: Order, me: JobId)
      requires me in repo.segments && IsFresh(o, repo.segments[me])
      ensures Pieces(Outcomes(o, me)) == Pieces(repo.segments[me])
      ensures forall s <- Outcomes(o, me) :: Finished(s)
    {
      OutcomesAreOutcomes(o, me);
      forall k | 0 <= k < |repo.segments[me]|
        ensures Finished(Outcomes(o, me)[k]) && Outcomes(o, me)[k].piece == repo.segments[me][k].piece
      {
        var s := repo.segments[me][k];
        assert s in repo.segments[me];
        EndsFinished(RetryState(s, PlanFor(failurePlans, me, k), ReproFor(reproPlans, me, k)),
                     ContextOf(me, k));
      }
    }

    lemma SummaryConserves(o: Order, me: JobId, job: Job)
      requires me in repo.segments && IsFresh(o, repo.segments[me])
      requires Settled(job, Outcomes(o, me))
      ensures forall s <- Outcomes(o, me) :: Finished(s)
      ensures Conserves(job.report, |Outcomes(o, me)|, o.duration)
    {
      hide Outcomes, Quiet, Spared, Sought, Called;
      FreshOutcomes(o, me);
      ReportConserves(job.report, Outcomes(o, me), o.duration);
    }

    /** The same, and what it comes to for segments that were never tried. */
    method RunFresh(me: JobId, job: Job) returns (r: RunResult, ghost paid: bool)
      requires Steady(me, None) && !window && landed.None? && started == 0 && me in repo.segments && job.order == order
      modifies this`clock, this`expected, this`landed, this`window, this`opening, this`closing, this`started, this`deadLetter
      modifies this`cache, this`origin, this`failurePlans, this`reproPlans, repo, pool, billing
      ensures Steady(me, None) && !window
      ensures Accounted(me, order, r, paid, job.status == CancelRequested)
      ensures Closed(me, r, paid)
      ensures Smooth(me) && me in old(repo.jobs) && job.order.tier != Unsupported ==>
                Foreseen(me, order, r, paid, landed.Some? || job.status == CancelRequested, FinalStatus(old(Outcomes(order, me))))
      ensures old(IsFresh(order, repo.segments[me])) ==>
                r.Returned? && r.job.status != Cancelled && !FailedByWorker(r) ==>
                  && (forall s <- repo.segments[me] :: Finished(s))
                  && Conserves(r.job.report, |repo.segments[me]|, order.duration)
                  && Counted(r.job, repo.segments[me]) && r.job.report.completed + |r.job.report.failed| == |repo.segments[me]|
                  && Provenance(old(origin), me, order, repo.segments[me])
    {
      hide Priced, Counted, Steady, UsedBy, Outcomes, FinalStatus, ReconcileRaises, Due, Quiet, IsFresh, Settled;
      hide Conserves, Tryable, Finished;
      SteadyIsSourced(me, None);
      hide Provenance, Sourced, Spared, Sought, Respects, Smooth, Foreseen, Called, Closed, Kept, Charged;
      hide DeadLettered, Filed;
      if IsFresh(order, repo.segments[me]) {
        SummaryConservesAll(order, me);
      }
      r, paid := RunFound(me, job);
    }

    /** The bookkeeping of a new run: whose leases to keep, and nothing landed yet. */
    ghost method Prepare(me: JobId, found: Option<Job>)
      requires repo.Valid() && pool.Valid() && Sourced() && Unheld(pool.Held(), me)
      requires found == if me in repo.jobs then Some(repo.jobs[me]) else None
      modifies this`begun, this`initial, this`expected, this`order, this`window
      modifies this`started, this`landed, this`opening, this`closing
      ensures Steady(me, None) && !window && started == 0 && landed.None? && begun == clock && initial == pool.Held()
      ensures expected == pool.Held() && (found.Some? ==> order == found.value.order && me in repo.segments)
    {
      hide Quiet, Respects, Called, Sourced, WellFormed, Holders, Unheld, Indexed;
      var ordered := if found.Some? then found.value.order else order;
      RespectsSame(pool.Held());
      NotCalledYet(me, ordered.owner, clock);
      Reset(ordered);
    }

    ghost method Reset(ordered: Order)
      modifies this`begun, this`initial, this`expected, this`order, this`window
      modifies this`started, this`landed, this`opening, this`closing
      ensures begun == opening == closing == clock && initial == expected == pool.Held() && order == ordered
      ensures !window && started == 0 && landed == None
    {
      hide Holders;
      begun, initial, expected := clock, pool.Held(), pool.Held();
      order, window, started, landed, opening, closing := ordered, false, 0, None, clock, clock;
    }

    /** process_job. Whatever raises, and whatever others do between the steps, each call on the pool
        taken whole: the job ends holding no lease and other holders change by others' acts alone; a
        request lands exactly when the owner calls inside the window; the rest is `Accounted`,
        `Closed` and, when nothing else goes wrong, `Foreseen`. */
    method ProcessJob(me: JobId, authorized: bool) returns (r: RunResult, ghost paid: bool)
      requires repo.Valid() && pool.Valid() && Sourced() && Unheld(pool.Held(), me)
      modifies this`clock, this`begun, this`initial, this`expected, this`order, this`window
      modifies this`opening, this`closing, this`started, this`landed, this`deadLetter
      modifies this`cache, this`origin, this`failurePlans, this`reproPlans, repo, pool, billing
      ensures repo.Valid() && pool.Valid() && Sourced()
      ensures Unheld(pool.Held(), me) && pool.Held() == expected && (Quiet() ==> pool.Held() == old(pool.Held()) && landed.None?)
      ensures forall p <- old(pool.Held()) :: Spared(p.1) ==> p in pool.Held()
      ensures forall p <- pool.Held() :: p in old(pool.Held()) || Sought(p.1)
      ensures old(clock) <= opening <= closing <= clock
      ensures !authorized || me !in old(repo.jobs) ==>
                && r == (if authorized then NotFound else Escaped) && !paid && landed.None? && deadLetter == old(deadLetter)
                && repo.jobs == old(repo.jobs) && repo.segments == old(repo.segments) && billing.usage == old(billing.usage)
      ensures authorized && me in old(repo.jobs) ==>
                && order == old(repo.jobs)[me].order
                && Accounted(me, old(repo.jobs)[me].order, r, paid, old(repo.jobs)[me].status == CancelRequested) && Closed(me, r, paid)
                && (me in repo.jobs ==> (landed.Some? <==> Called(me, order.owner, opening, closing)))
      ensures authorized && me in old(repo.jobs) && old(IsFresh(repo.jobs[me].order, repo.segments[me])) ==>
                r.Returned? && r.job.status != Cancelled && !FailedByWorker(r) ==>
                  && (forall s <- repo.segments[me] :: Finished(s))
                  && Conserves(r.job.report, |repo.segments[me]|, order.duration)
                  && Counted(r.job, repo.segments[me]) && r.job.report.completed + |r.job.report.failed| == |repo.segments[me]|
                  && Provenance(old(origin), me, order, repo.segments[me])
      ensures Smooth(me) && authorized && me in old(repo.jobs) && old(repo.jobs)[me].order.tier != Unsupported ==>
                Foreseen(me, old(repo.jobs)[me].order, r, paid, landed.Some? || old(repo.jobs)[me].status == CancelRequested,
                         FinalStatus(old(Outcomes(repo.jobs[me].order, me))))
    {
      hide Priced, Counted, Steady, UsedBy, Outcomes, FinalStatus, ReconcileRaises, Due, Quiet, IsFresh, Settled;
      hide Conserves, Tryable, Finished, Spared, Sought, Respects, Smooth, Foreseen, Called, Closed, FailedByWorker;
      hide Kept, Filed, Summarised, DeadLettered;
      hide Provenance, Sourced;
      r, paid := Escaped, false;
      var found := repo.Get(me);
      Prepare(me, found);
      if authorized && found.None? {
        r := NotFound;
      } else if authorized {
        r, paid := RunFresh(me, found.value);
      }
      SteadyMeans(me);
      HoldersAfter(old(pool.Held()), pool.Held());
    }

    lemma FreshProvenance(o: Order, me: JobId)
      requires Sourced() && me in repo.segments && IsFresh(o, repo.segments[me])
      ensures Provenance(origin, me, o, Outcomes(o, me))
    {
      hide Outcome, Sourced, ServedFor, Partitions;
      OutcomesAreOutcomes(o, me);
      forall k | 0 <= k < |repo.segments[me]| && Outcomes(o, me)[k].status == Done
        ensures var out := Outcomes(o, me)[k];
                && out.output.Some?
                && if out.cache == Hit then ServedFor(origin, out.output.value, o, out.piece) else out.output.value == Output(me, k)
      {
        assert repo.segments[me][k] in repo.segments[me];
        OutcomeMeaning(o, me, k);
      }
    }

    lemma SummaryConservesAll(o: Order, me: JobId)
      requires Sourced() && me in repo.segments && IsFresh(o, repo.segments[me])
      ensures Provenance(origin, me, o, Outcomes(o, me))
      ensures forall s <- Outcomes(o, me) :: Finished(s)
      ensures forall job: Job :: Settled(job, Outcomes(o, me)) ==> Conserves(job.report, |Outcomes(o, me)|, o.duration)
      ensures Tryable(repo.segments[me])
      ensures forall job: Job :: Counted(job, Outcomes(o, me)) ==>
                job.report.completed + |job.report.failed| == |Outcomes(o, me)|
    {
      hide Outcomes, Quiet, Spared, Sought, Called, Provenance, Sourced;
      FreshProvenance(o, me);
      FreshOutcomes(o, me);
      FinishedCounts(Outcomes(o, me));
      forall job: Job | Settled(job, Outcomes(o, me)) ensures Conserves(job.report, |Outcomes(o, me)|, o.duration) {
        SummaryConserves(o, me, job);
      }
    }

    lemma HoldersAfter(before: set<(WorkerId, JobId)>, after: set<(WorkerId, JobId)>)
      requires Respects(before, after)
      ensures Quiet() ==> before == after
      ensures forall p <- before :: Spared(p.1) ==> p in after
      ensures forall p <- after :: p in before || Sought(p.1)
    {
      if Quiet() { QuietRespects(before, after); }
    }

    lemma SteadyMeans(me: JobId)
      requires Steady(me, None) && !window
      ensures begun <= opening <= closing <= clock && Respects(initial, expected) && (Quiet() ==> landed.None?)
      ensures me in repo.jobs ==> (landed.Some? <==> Called(me, order.owner, opening, closing))
      ensures repo.Valid() && pool.Valid() && Sourced() && pool.Held() == expected && Unheld(pool.Held(), me)
    {
    }

    /** ---- requests outside the window ---- */

    /** A request granted between the first read of process_job and its PROCESSING write: the owner is
        told that cancellation was requested, and the job runs to the end as if it had not been. */
    method LostRequest(me: JobId) returns (asked: Option<Job>, r: RunResult, ghost paid: bool)
      requires repo.Valid() && pool.Valid() && Sourced() && Unheld(pool.Held(), me) && Smooth(me) && Quiet()
      requires me in repo.jobs && repo.jobs[me].status == Queued && repo.jobs[me].order.tier != Unsupported
      modifies this`clock, this`begun, this`initial, this`expected, this`order, this`window
      modifies this`opening, this`closing, this`started, this`landed, this`deadLetter
      modifies this`cache, this`origin, this`failurePlans, this`reproPlans, repo, pool, billing
      ensures asked.Some? && asked.value.status == CancelRequested
      ensures Foreseen(me, old(repo.jobs)[me].order, r, paid, false, FinalStatus(old(Outcomes(repo.jobs[me].order, me))))
      ensures r.Returned? && r.job.status != Cancelled
    {
      hide Outcomes, Accounted, Closed, Smooth, Quiet, Spared, Sought, Respects, Called;
      var found := repo.Get(me);
      Prepare(me, found);
      asked := repo.RequestCancellation(me, found.value.order.owner);
      r, paid := RunFound(me, found.value);
    }

    /** The same for a request granted after the read at the start of finalisation. */
    method LateRequest(me: JobId, ghost mine: Option<WorkerId>) returns (asked: Option<Job>, r: Result<Job>, ghost paid: bool)
      requires Steady(me, mine) && !window && me in repo.segments && Smooth(me)
      requires me in repo.jobs && !Terminal(repo.jobs[me].status)
      modifies this`clock, this`expected, this`landed, this`deadLetter, repo`jobs, pool, billing
      ensures asked.Some? && asked.value.status == CancelRequested
      ensures r.Ok? && r.value.status == Fate(order, FinalStatus(repo.segments[me])) && r.value.status != Cancelled
    {
      hide Smooth, Quiet, Spared, Sought, Respects, Called;
      var found := repo.Get(me);
      asked := repo.RequestCancellation(me, found.value.order.owner);
      var released;
      ghost var held;
      r, released, held, paid := FinalizeLive(me, mine);
    }

    /** ---- runs that end wrong ---- */

    /** An undisturbed run of a queued job. The owner is charged and the stored job is FAILED exactly when
        the result was deliverable and the comparison with the estimate or the final announcement raises. */
    method ChargedButFailed(me: JobId) returns (r: RunResult, ghost paid: bool)
      requires repo.Valid() && pool.Valid() && Sourced() && Unheld(pool.Held(), me) && Smooth(me) && Quiet()
      requires me in repo.jobs && repo.jobs[me].status == Queued && repo.jobs[me].order.tier != Unsupported
      modifies this`clock, this`begun, this`initial, this`expected, this`order, this`window, this`opening, this`closing
      modifies this`started, this`landed, this`deadLetter, this`cache, this`origin
      modifies this`failurePlans, this`reproPlans, repo, pool, billing
      ensures var o, status := old(repo.jobs)[me].order, FinalStatus(old(Outcomes(repo.jobs[me].order, me)));
              && UsedBy(billing.usage, o.owner) == UsedBy(old(billing.usage), o.owner) + (if Deliverable(status) then Due(o) else 0)
              && me in repo.jobs
              && repo.jobs[me].status == (if raises(FinalAnnounce) then JobStatus.Failed else Fate(o, status))
              && (paid && repo.jobs[me].status == JobStatus.Failed
                  <==> Deliverable(status) && (raises(FinalAnnounce) || ReconcileRaises(o)))
    {
      hide Outcomes, Smooth, Quiet, Spared, Sought, Called, FinalStatus, Due, UsedBy;
      r, paid := ProcessJob(me, true);
    }

    /** Left by an earlier run in the middle of its third attempt, and not in the cache. */
    ghost predicate Stuck(o: Order, me: JobId, k: nat)
      requires me in repo.segments && k < |repo.segments[me]|
      reads this`cache, repo`segments
    {
      repo.segments[me][k].attempts >= 3 && !Finished(repo.segments[me][k]) && !IsHit(o, me, k)
    }

    lemma StuckStaysUnfinished(o: Order, me: JobId, k: nat)
      requires me in repo.segments && k < |repo.segments[me]|
      ensures !Finished(Outcome(o, me, k)) <==> Stuck(o, me, k)
    {
      EndsFinished(RetryState(repo.segments[me][k], PlanFor(failurePlans, me, k), ReproFor(reproPlans, me, k)), ContextOf(me, k));
    }

    /** A redelivered job, undisturbed. It is stored as COMPLETED, and charged, with an unfinished segment
        exactly when a segment was stuck and no other one fails. */
    method StuckRun(me: JobId) returns (r: RunResult, ghost paid: bool)
      requires repo.Valid() && pool.Valid() && Sourced() && Unheld(pool.Held(), me) && Smooth(me) && Quiet()
      requires me in repo.jobs && repo.jobs[me].status != CancelRequested && repo.jobs[me].order.tier != Unsupported
      requires !raises(FinalAnnounce) && !ReconcileRaises(repo.jobs[me].order)
      modifies this`clock, this`begun, this`initial, this`expected, this`order, this`window, this`opening, this`closing
      modifies this`started, this`landed, this`deadLetter, this`cache, this`origin
      modifies this`failurePlans, this`reproPlans, repo, pool, billing
      ensures me in repo.jobs && me in repo.segments && repo.segments[me] == old(Outcomes(repo.jobs[me].order, me))
      ensures (paid && repo.jobs[me].status == JobStatus.Completed && exists k :: 0 <= k < |repo.segments[me]| && !Finished(repo.segments[me][k]))
         <==> (exists k :: 0 <= k < |old(repo.segments[me])| && old(Stuck(repo.jobs[me].order, me, k)))
              && (forall k :: 0 <= k < |old(repo.segments[me])| ==> old(Outcomes(repo.jobs[me].order, me))[k].status != Broken)
    {
      hide Smooth, Quiet, Spared, Sought, Called, FinalStatus, Outcomes, Outcome, Stuck, Due, UsedBy;
      ghost var o, n := repo.jobs[me].order, |repo.segments[me]|;
      OutcomesAreOutcomes(o, me);
      forall k | 0 <= k < n ensures !Finished(Outcomes(o, me)[k]) <==> Stuck(o, me, k) { StuckStaysUnfinished(o, me, k); }
      CompletedMeansNoneBroken(Outcomes(o, me));
      r, paid := ProcessJob(me, true);
    }
  }
}

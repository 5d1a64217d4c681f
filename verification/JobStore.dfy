/** Job and segment records, and the memory repository that patches them. */
module JobStore {
  import opened Outcomes
  import opened GpuLeases
  import opened JobPipeline

  /** A plan tier after stripping and lower-casing; anything else is unsupported. */
  datatype PlanTier = Hobbyist | Pro | Museum | Unsupported

  datatype Fidelity = Enhance | Restore | Conserve

  datatype JobStatus = Queued | Processing | Completed | Failed | Partial | CancelRequested | Cancelled

  datatype SegmentStatus = Waiting | Running | Done | Broken

  datatype CacheStatus = Hit | Miss | Bypass

  datatype FailureClass = Transient | Persistent | Reproducibility

  /** The `last_error` texts process_job and _finalize_job write. */
  datatype JobError = NoError | RetriesExhausted | ManifestError | DeliveryError | FinalizeError | WorkerError

  /** A produced segment file: which job rendered which segment. */
  datatype Output = Output(job: JobId, index: nat)

  datatype Segment = Segment(piece: Piece, status: SegmentStatus, attempts: nat, backoffs: seq<nat>,
                             lastError: Option<FailureClass>, cache: CacheStatus, output: Option<Output>)

  datatype CacheSummary = CacheSummary(hits: nat, misses: nat, bypassed: nat, savedSeconds: nat)

  /** How an upload is to be processed: what two runs must agree on to give the same output. */
  datatype Variant = Variant(profile: string, mode: string, version: string, pipeline: Option<string>)

  /** What was ordered: no write of the worker changes this part of a job. */
  datatype Order = Order(owner: string, tier: PlanTier, duration: nat, fidelity: Fidelity,
                         checksum: string, variant: Variant, hasEstimate: bool)

  /** Counters and summaries derived from the segments. */
  datatype Report = Report(completed: nat, failed: seq<nat>, cache: CacheSummary, gpuSeconds: nat)

  datatype Job = Job(order: Order, status: JobStatus, error: JobError, report: Report,
                     manifest: bool, overage: Option<int>)

  predicate Terminal(s: JobStatus) {
    s in {JobStatus.Completed, JobStatus.Failed, Partial, Cancelled}
  }

  /** A result the customer receives. */
  predicate Deliverable(s: JobStatus) {
    s == JobStatus.Completed || s == Partial
  }

  predicate Finished(s: Segment) {
    s.status == Done || s.status == Broken
  }

  /** Segment records sit at their own index. */
  predicate Indexed(segments: seq<Segment>) {
    forall k :: 0 <= k < |segments| ==> segments[k].piece.index == k
  }

  class JobRepository {
    var jobs: map<JobId, Job>
    var segments: map<JobId, seq<Segment>>

    ghost predicate Valid()
      reads this
    {
      (forall id <- segments :: Indexed(segments[id])) && jobs.Keys <= segments.Keys
    }

    constructor ()
      ensures Valid() && jobs == map[] && segments == map[]
    {
      jobs, segments := map[], map[];
    }

    /** create_job: every segment starts queued, untried and uncached. */
    method CreateJob(id: JobId, order: Order, pieces: seq<Piece>)
      requires Valid()
      requires forall k :: 0 <= k < |pieces| ==> pieces[k].index == k
      modifies this
      ensures Valid()
      ensures jobs == old(jobs)[id := FreshJob(order)]
      ensures segments == old(segments)[id := FreshSegments(pieces)]
      ensures jobs[id] == Job(order, Queued, NoError, Report(0, [], CacheSummary(0, 0, 0, 0), 0), false, None)
      ensures |segments[id]| == |pieces| && forall k :: 0 <= k < |pieces| ==> segments[id][k] == Segment(pieces[k], Waiting, 0, [], None, Miss, None)
      ensures Partitions(pieces, order.duration) ==> IsFresh(order, segments[id])
    {
      assert Pieces(FreshSegments(pieces)) == pieces;
      jobs := jobs[id := FreshJob(order)];
      segments := segments[id := FreshSegments(pieces)];
    }

    method Get(id: JobId) returns (r: Option<Job>)
      ensures r == if id in jobs then Some(jobs[id]) else None
    {
      r := if id in jobs then Some(jobs[id]) else None;
    }

    /** Empty for an unknown job. */
    method ListSegments(id: JobId) returns (r: seq<Segment>)
      ensures r == if id in jobs && id in segments then segments[id] else []
    {
      r := if id in jobs && id in segments then segments[id] else [];
    }

    /** update_job_for_worker: a KeyError when the job is gone. */
    method UpdateJob(id: JobId, patch: Job -> Job) returns (r: Result<Job>)
      modifies this`jobs
      ensures r.Ok? <==> id in old(jobs)
      ensures r.Ok? ==> r.value == patch(old(jobs)[id]) && jobs == old(jobs)[id := r.value]
      ensures r.Raised? ==> jobs == old(jobs)
    {
      if id !in jobs {
        return Raised;
      }
      jobs := jobs[id := patch(jobs[id])];
      r := Ok(jobs[id]);
    }

    /** update_segment_for_worker: scan for the index, KeyError when there is none. */
    method UpdateSegment(id: JobId, index: nat, patch: Segment -> Segment) returns (r: Result<Segment>)
      requires Valid() && forall s: Segment :: patch(s).piece == s.piece
      modifies this`segments
      ensures Valid()
      ensures r.Ok? <==> id in old(segments) && index < |old(segments)[id]|
      ensures r.Ok? ==> r.value == patch(old(segments)[id][index])
      ensures r.Ok? ==> segments == old(segments)[id := old(segments)[id][index := r.value]]
      ensures r.Raised? ==> segments == old(segments)
    {
      var listed := if id in segments then segments[id] else [];
      assert index < |listed| ==> listed[index].piece.index == index;
      for k := 0 to |listed|
        invariant segments == old(segments)
        invariant forall j :: 0 <= j < k ==> listed[j].piece.index != index
      {
        if listed[k].piece.index == index {
          var updated := patch(listed[k]);
          segments := segments[id := listed[k := updated]];
          return Ok(updated);
        }
      }
      r := Raised;
    }

    /** request_cancellation: only the owner, and only while the job is not over. */
    method RequestCancellation(id: JobId, owner: string) returns (r: Option<Job>)
      modifies this`jobs
      ensures r.Some? <==> id in old(jobs) && old(jobs)[id].order.owner == owner
      ensures r.Some? && old(jobs)[id].status in {Queued, Processing, CancelRequested} ==> r.value.status == CancelRequested
      ensures r.Some? && !Terminal(old(jobs)[id].status) ==>
                jobs == old(jobs)[id := old(jobs)[id].(status := CancelRequested)]
      ensures r.None? || Terminal(old(jobs)[id].status) ==> jobs == old(jobs)
      ensures r.Some? ==> r.value == jobs[id]
    {
      if id !in jobs || jobs[id].order.owner != owner {
        return None;
      }
      if !Terminal(jobs[id].status) {
        jobs := jobs[id := jobs[id].(status := CancelRequested)];
      }
      r := Some(jobs[id]);
    }

    /** A record that disappears under the worker. */
    method Drop(id: JobId)
      modifies this`jobs
      ensures jobs == old(jobs) - {id}
      ensures old(Valid()) ==> Valid()
    {
      jobs := jobs - {id};
    }

    ghost function Queue(): set<JobId>
      reads this`jobs
    {
      set id | id in jobs && jobs[id].status == Queued
    }

    /** queued_job_backlog_count: each job is looked at once. */
    method QueuedBacklog() returns (count: nat)
      ensures count == |Queue()|
    {
      count := 0;
      var left := jobs.Keys;
      ghost var counted: set<JobId> := {};
      while left != {}
        invariant left <= jobs.Keys
        invariant counted == (set id | id in jobs.Keys - left && jobs[id].status == Queued)
        invariant count == |counted|
        decreases left
      {
        var id :| id in left;
        left := left - {id};
        if jobs[id].status == Queued {
          counted := counted + {id};
          count := count + 1;
        }
      }
      assert counted == Queue();
    }
  }

  function FreshSegments(pieces: seq<Piece>): seq<Segment> {
    seq(|pieces|, k requires 0 <= k < |pieces| => Segment(pieces[k], Waiting, 0, [], None, Miss, None))
  }

  function FreshJob(order: Order): Job {
    Job(order, Queued, NoError, Report(0, [], CacheSummary(0, 0, 0, 0), 0), false, None)
  }

  /** What create_job leaves for the worker: nothing tried, pieces tiling the duration. */
  predicate IsFresh(order: Order, segments: seq<Segment>) {
    && Partitions(Pieces(segments), order.duration)
    && forall s <- segments :: s.status == Waiting && s.attempts == 0 && s.backoffs == [] && s.cache == Miss
  }

  function Pieces(segments: seq<Segment>): seq<Piece> {
    seq(|segments|, k requires 0 <= k < |segments| => segments[k].piece)
  }
}

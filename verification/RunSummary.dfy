/** What a run reports about its segments: counters, cache and GPU summaries,
    the final status, and the conservation laws they obey. */
module RunSummary {
  import opened Outcomes
  import opened JobPipeline
  import opened JobStore

  function CountStatus(segments: seq<Segment>, s: SegmentStatus): nat {
    if segments == [] then 0 else (if segments[0].status == s then 1 else 0) + CountStatus(segments[1..], s)
  }

  function CountCache(segments: seq<Segment>, c: CacheStatus): nat {
    if segments == [] then 0 else (if segments[0].cache == c then 1 else 0) + CountCache(segments[1..], c)
  }

  function BrokenIndexes(segments: seq<Segment>): seq<nat> {
    if segments == [] then []
    else (if segments[0].status == Broken then [segments[0].piece.index] else []) + BrokenIndexes(segments[1..])
  }

  /** Seconds rendered on a GPU: finished and not served from the cache. */
  function GpuSeconds(segments: seq<Segment>): nat {
    if segments == [] then 0
    else (if Finished(segments[0]) && segments[0].cache != Hit then segments[0].piece.duration else 0) + GpuSeconds(segments[1..])
  }

  function SavedSeconds(segments: seq<Segment>): nat {
    if segments == [] then 0
    else (if segments[0].cache == Hit then segments[0].piece.duration else 0) + SavedSeconds(segments[1..])
  }

  /** _update_processing_progress: while running, ten seconds are taken as saved for each hit. */
  function ProgressReport(segments: seq<Segment>): Report {
    var done, broken := CountStatus(segments, Done), BrokenIndexes(segments);
    var hits, bypassed := CountCache(segments, Hit), CountCache(segments, Bypass);
    Report(done, broken, CacheSummary(hits, Max(done + |broken| - hits - bypassed, 0), bypassed, hits * 10), GpuSeconds(segments))
  }

  function FinalCache(segments: seq<Segment>): CacheSummary {
    var hits, bypassed := CountCache(segments, Hit), CountCache(segments, Bypass);
    CacheSummary(hits, Max(|segments| - hits - bypassed, 0), bypassed, SavedSeconds(segments))
  }

  /** _finalize_job: the summaries are recomputed, the counters stay as last published. */
  function FinalReport(last: Report, segments: seq<Segment>): Report {
    last.(cache := FinalCache(segments), gpuSeconds := GpuSeconds(segments))
  }

  function FinalStatus(segments: seq<Segment>): JobStatus {
    if CountStatus(segments, Broken) == 0 then JobStatus.Completed
    else if CountStatus(segments, Done) == 0 then JobStatus.Failed
    else Partial
  }

  /** The conservation laws of a finished run's report. */
  predicate Conserves(r: Report, count: nat, duration: nat) {
    && r.cache.hits + r.cache.misses + r.cache.bypassed == count
    && r.gpuSeconds + r.cache.savedSeconds == duration
  }

  lemma {:induction false} CacheCountsAddUp(segments: seq<Segment>)
    ensures CountCache(segments, Hit) + CountCache(segments, Miss) + CountCache(segments, Bypass) == |segments|
  {
    if segments != [] { CacheCountsAddUp(segments[1..]); }
  }

  lemma {:induction false} SecondsAddUp(segments: seq<Segment>)
    requires forall s <- segments :: Finished(s)
    ensures GpuSeconds(segments) + SavedSeconds(segments) == TotalSeconds(segments)
  {
    if segments != [] { SecondsAddUp(segments[1..]); }
  }

  function TotalSeconds(segments: seq<Segment>): nat {
    if segments == [] then 0 else segments[0].piece.duration + TotalSeconds(segments[1..])
  }

  lemma {:induction false} TotalSecondsSnoc(segments: seq<Segment>, last: Segment)
    ensures TotalSeconds(segments + [last]) == TotalSeconds(segments) + last.piece.duration
  {
    if segments == [] {
      assert segments + [last] == [last];
      assert TotalSeconds([last][1..]) == 0;
    } else {
      assert (segments + [last])[1..] == segments[1..] + [last];
      TotalSecondsSnoc(segments[1..], last);
    }
  }

  lemma {:induction false} TotalSecondsOfPieces(segments: seq<Segment>)
    ensures TotalSeconds(segments) == TotalDuration(Pieces(segments))
  {
    if segments != [] {
      var front, last := segments[..|segments| - 1], segments[|segments| - 1];
      TotalSecondsOfPieces(front);
      assert Pieces(segments)[..|segments| - 1] == Pieces(front);
      TotalSecondsSnoc(front, last);
      assert front + [last] == segments;
    }
  }

  /** Finished segments that tile the duration: nothing is lost between GPU and cache. */
  lemma {:induction false} ReportConserves(last: Report, segments: seq<Segment>, duration: nat)
    requires Partitions(Pieces(segments), duration)
    requires forall s <- segments :: Finished(s)
    ensures Conserves(FinalReport(last, segments), |segments|, duration)
  {
    CacheCountsAddUp(segments);
    SecondsAddUp(segments);
    TotalSecondsOfPieces(segments);
    PartitionConserves(Pieces(segments), duration);
  }

  /** Every finished segment is counted once, as completed or as failed. */
  lemma {:induction false} FinishedCounts(segments: seq<Segment>)
    requires forall s <- segments :: Finished(s)
    ensures CountStatus(segments, Done) + |BrokenIndexes(segments)| == |segments|
  {
    if segments != [] {
      assert Finished(segments[0]);
      FinishedCounts(segments[1..]);
    }
  }

  lemma {:induction false} CountSound(segments: seq<Segment>, s: SegmentStatus)
    ensures CountStatus(segments, s) > 0 <==> exists k :: 0 <= k < |segments| && segments[k].status == s
  {
    if segments != [] {
      CountSound(segments[1..], s);
      assert forall k :: 0 < k < |segments| ==> segments[k] == segments[1..][k - 1];
      if CountStatus(segments[1..], s) > 0 {
        var k :| 0 <= k < |segments[1..]| && segments[1..][k].status == s;
        assert segments[k + 1].status == s;
      }
    }
  }

  /** ---- what the counters count ---- */

  function Places(segments: seq<Segment>, p: Segment -> bool): set<nat> {
    set k: nat | k < |segments| && p(segments[k])
  }

  lemma PlacesSnoc(front: seq<Segment>, last: Segment, p: Segment -> bool)
    ensures |Places(front + [last], p)| == |Places(front, p)| + if p(last) then 1 else 0
  {
    assert Places(front + [last], p) == Places(front, p) + if p(last) then {|front|} else {};
  }

  /** Every counter and every sum of seconds takes each segment by itself. */
  lemma {:induction false} SummarySnoc(front: seq<Segment>, last: Segment, s: SegmentStatus, c: CacheStatus)
    ensures CountStatus(front + [last], s) == CountStatus(front, s) + if last.status == s then 1 else 0
    ensures CountCache(front + [last], c) == CountCache(front, c) + if last.cache == c then 1 else 0
    ensures BrokenIndexes(front + [last]) == BrokenIndexes(front) + if last.status == Broken then [last.piece.index] else []
    ensures SavedSeconds(front + [last]) == SavedSeconds(front) + if last.cache == Hit then last.piece.duration else 0
    ensures GpuSeconds(front + [last]) == GpuSeconds(front) + if last.cache != Hit && Finished(last) then last.piece.duration else 0
  {
    if front == [] {
      assert front + [last] == [last] && [last][1..] == [];
    } else {
      assert (front + [last])[1..] == front[1..] + [last];
      SummarySnoc(front[1..], last, s, c);
    }
  }

  lemma {:induction false} CountsAreSizes(segments: seq<Segment>, s: SegmentStatus, c: CacheStatus)
    ensures CountStatus(segments, s) == |Places(segments, (x: Segment) => x.status == s)|
    ensures CountCache(segments, c) == |Places(segments, (x: Segment) => x.cache == c)|
    decreases |segments|
  {
    hide CountStatus, CountCache, Places;
    if segments == [] {
      NothingCounted(s, c);
    } else {
      var front, last := segments[..|segments| - 1], segments[|segments| - 1];
      assert front + [last] == segments;
      CountsAreSizes(front, s, c);
      SummarySnoc(front, last, s, c);
      PlacesSnoc(front, last, (x: Segment) => x.status == s);
      PlacesSnoc(front, last, (x: Segment) => x.cache == c);
    }
  }

  lemma NothingCounted(s: SegmentStatus, c: CacheStatus)
    ensures CountStatus([], s) == 0 == CountCache([], c)
    ensures forall p :: |Places([], p)| == 0
  {
    assert forall p :: Places([], p) == {};
  }

  /** Hits, misses and bypasses of the final summary are the segments of that kind. */
  lemma FinalCacheMeaning(segments: seq<Segment>)
    ensures FinalCache(segments).hits == |Places(segments, (x: Segment) => x.cache == Hit)|
    ensures FinalCache(segments).misses == |Places(segments, (x: Segment) => x.cache == Miss)|
    ensures FinalCache(segments).bypassed == |Places(segments, (x: Segment) => x.cache == Bypass)|
  {
    CacheCountsAddUp(segments);
    CountsAreSizes(segments, Done, Hit);
    CountsAreSizes(segments, Done, Miss);
    CountsAreSizes(segments, Done, Bypass);
  }

  /** The failed indexes are those of the broken segments, in order. */
  lemma {:induction false} BrokenMeaning(segments: seq<Segment>)
    requires Indexed(segments)
    ensures forall i :: i in BrokenIndexes(segments) <==> 0 <= i < |segments| && segments[i].status == Broken
    ensures forall i, j :: 0 <= i < j < |BrokenIndexes(segments)| ==> BrokenIndexes(segments)[i] < BrokenIndexes(segments)[j]
    decreases |segments|
  {
    if segments != [] {
      var front, last := segments[..|segments| - 1], segments[|segments| - 1];
      assert front + [last] == segments;
      SummarySnoc(front, last, Done, Hit);
      BrokenMeaning(front);
      hide BrokenIndexes;
      var before, all := BrokenIndexes(front), BrokenIndexes(segments);
      assert forall i :: i in all <==> i in before || (last.status == Broken && i == |front|);
      forall i, j | 0 <= i < j < |all| ensures all[i] < all[j] {
        assert all[i] == before[i] && before[i] in before;
        if j < |before| { assert all[j] == before[j]; }
      }
    }
  }

  /** While a run goes on, the seconds reported as saved are never too few, and exact exactly when
      every segment served from the cache is a full one. */
  lemma {:induction false} ProgressSavings(segments: seq<Segment>)
    requires forall s <- segments :: s.piece.duration <= 10
    ensures ProgressReport(segments).cache.savedSeconds >= SavedSeconds(segments)
    ensures ProgressReport(segments).cache.savedSeconds == SavedSeconds(segments)
       <==> forall s <- segments :: s.cache == Hit ==> s.piece.duration == 10
  {
    if segments != [] {
      assert segments[0] in segments && forall s <- segments :: s == segments[0] || s in segments[1..];
      ProgressSavings(segments[1..]);
    }
  }

  /** And the misses reported are the finished segments that were not in the cache, as long as
      only finished segments carry anything else. */
  lemma {:induction false} ProgressMisses(segments: seq<Segment>)
    requires forall s <- segments :: s.cache == Miss || Finished(s)
    ensures ProgressReport(segments).cache.misses == |Places(segments, (s: Segment) => s.cache == Miss && Finished(s))|
    ensures CountStatus(segments, Done) + |BrokenIndexes(segments)|
         == |Places(segments, (s: Segment) => s.cache == Miss && Finished(s))| + CountCache(segments, Hit) + CountCache(segments, Bypass)
    decreases |segments|
  {
    if segments == [] {
      NothingCounted(Done, Hit);
    } else {
      var front, last := segments[..|segments| - 1], segments[|segments| - 1];
      assert front + [last] == segments;
      assert last in segments && forall s <- front :: s in segments;
      ProgressMisses(front);
      SummarySnoc(front, last, Done, Hit);
      SummarySnoc(front, last, Broken, Bypass);
      PlacesSnoc(front, last, (s: Segment) => s.cache == Miss && Finished(s));
    }
  }

  /** What the status of a finished run says about its segments. Without the finished
      segments the first line fails: one stuck segment still reports COMPLETED. */
  lemma StatusMeaning(segments: seq<Segment>)
    requires segments != [] && forall s <- segments :: Finished(s)
    ensures FinalStatus(segments) == JobStatus.Completed <==> forall k :: 0 <= k < |segments| ==> segments[k].status == Done
    ensures FinalStatus(segments) == JobStatus.Failed <==> forall k :: 0 <= k < |segments| ==> segments[k].status == Broken
    ensures FinalStatus(segments) in {JobStatus.Completed, JobStatus.Failed, Partial}
  {
    CountSound(segments, Done);
    CountSound(segments, Broken);
    assert Finished(segments[0]);
    assert forall k :: 0 <= k < |segments| ==> Finished(segments[k]);
  }

  /** A run delivers, and is charged for, exactly when some segment completed or none failed. */
  lemma DeliverableMeaning(segments: seq<Segment>)
    ensures Deliverable(FinalStatus(segments))
       <==> (exists k :: 0 <= k < |segments| && segments[k].status == Done) || (forall k :: 0 <= k < |segments| ==> segments[k].status != Broken)
  {
    CountSound(segments, Done);
    CountSound(segments, Broken);
  }

  /** COMPLETED says only that nothing failed, whether or not every segment was finished. */
  lemma CompletedMeansNoneBroken(segments: seq<Segment>)
    ensures FinalStatus(segments) == JobStatus.Completed <==> forall k :: 0 <= k < |segments| ==> segments[k].status != Broken
  {
    CountSound(segments, Broken);
  }
}

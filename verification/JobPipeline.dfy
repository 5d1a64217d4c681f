/** Segment planning: a job of d seconds becomes consecutive ten-second pieces. */
module JobPipeline {
  import opened Outcomes

  const SEGMENT_SECONDS := 10

  datatype Piece = Piece(index: nat, start: nat, end: nat, duration: nat)

  function SegmentCount(duration: nat): nat {
    Max((duration + SEGMENT_SECONDS - 1) / SEGMENT_SECONDS, 1)
  }

  /** The pieces tile [0, duration) in order, each 1 to 10 seconds long. */
  predicate Partitions(pieces: seq<Piece>, duration: nat) {
    && pieces != []
    && pieces[0].start == 0
    && pieces[|pieces| - 1].end == duration
    && (forall k :: 0 <= k < |pieces| ==>
          && pieces[k].index == k
          && pieces[k].duration == pieces[k].end - pieces[k].start
          && 1 <= pieces[k].duration <= 10)
    && (forall k :: 0 < k < |pieces| ==> pieces[k].start == pieces[k - 1].end)
  }

  function TotalDuration(pieces: seq<Piece>): nat {
    if pieces == [] then 0 else TotalDuration(pieces[..|pieces| - 1]) + pieces[|pieces| - 1].duration
  }

  /** Every piece but the last is full, so the count is the least possible. */
  method BuildSegments(duration: int) returns (r: Result<seq<Piece>>)
    ensures r.Raised? <==> duration < 1
    ensures r.Ok? ==> Partitions(r.value, duration)
    ensures r.Ok? ==> |r.value| == SegmentCount(duration)
    ensures r.Ok? ==> forall k :: 0 <= k < |r.value| - 1 ==> r.value[k].duration == 10
  {
    if duration < 1 {
      return Raised;
    }
    var count := SegmentCount(duration);
    var pieces: seq<Piece> := [];
    for index := 0 to count
      invariant |pieces| == index
      invariant index < count ==> SEGMENT_SECONDS * index < duration
      invariant forall k :: 0 <= k < index ==>
                  && pieces[k].index == k
                  && pieces[k].start == SEGMENT_SECONDS * k
                  && pieces[k].end == Min(SEGMENT_SECONDS * k + SEGMENT_SECONDS, duration)
                  && pieces[k].duration == pieces[k].end - pieces[k].start >= 1
    {
      var start := index * SEGMENT_SECONDS;
      var end := Min(start + SEGMENT_SECONDS, duration);
      pieces := pieces + [Piece(index, start, end, Max(end - start, 1))];
    }
    r := Ok(pieces);
  }

  lemma {:induction false} PrefixDuration(pieces: seq<Piece>, duration: nat, n: nat)
    requires Partitions(pieces, duration) && 1 <= n <= |pieces|
    ensures TotalDuration(pieces[..n]) == pieces[n - 1].end
  {
    assert pieces[..n][..n - 1] == pieces[..n - 1];
    if n > 1 {
      PrefixDuration(pieces, duration, n - 1);
    }
  }

  /** No second is lost or counted twice. */
  lemma PartitionConserves(pieces: seq<Piece>, duration: nat)
    requires Partitions(pieces, duration)
    ensures TotalDuration(pieces) == duration
  {
    assert pieces[..|pieces|] == pieces;
    PrefixDuration(pieces, duration, |pieces|);
  }

  predicate Covers(piece: Piece, second: nat) {
    piece.start <= second < piece.end
  }

  /** Every second of the job lies in exactly one piece. */
  lemma {:induction false} CoveredOnce(pieces: seq<Piece>, duration: nat, second: nat)
    requires Partitions(pieces, duration) && second < duration
    ensures exists k :: 0 <= k < |pieces| && Covers(pieces[k], second)
    ensures forall j, k :: 0 <= j < k < |pieces| ==> !(Covers(pieces[j], second) && Covers(pieces[k], second))
  {
    Find(pieces, duration, second, |pieces|);
    forall j, k | 0 <= j < k < |pieces| ensures pieces[j].end <= pieces[k].start { Ordered(pieces, duration, j, k); }
  }

  lemma {:induction false} Find(pieces: seq<Piece>, duration: nat, second: nat, n: nat)
    requires Partitions(pieces, duration) && 1 <= n <= |pieces| && second < pieces[n - 1].end
    ensures exists k :: 0 <= k < n && Covers(pieces[k], second)
  {
    if Covers(pieces[n - 1], second) {
    } else {
      Find(pieces, duration, second, n - 1);
    }
  }

  lemma {:induction false} Ordered(pieces: seq<Piece>, duration: nat, j: nat, k: nat)
    requires Partitions(pieces, duration) && j < k < |pieces|
    ensures pieces[j].end <= pieces[k].start
    decreases k
  {
    if j < k - 1 { Ordered(pieces, duration, j, k - 1); }
  }
}

/** Merging the transcripts of the audio parts and chunking the result (transcription/pipeline.go, steps 4 and 5). */
module Transcript {
  import opened Chunker

  /** What the transcriber returns for one audio part; times count from the start of the part. */
  datatype Part = Part(segments: seq<Segment>, duration: real)

  function Shift(segments: seq<Segment>, offset: real): (shifted: seq<Segment>) {
    if segments == [] then []
    else
      var s := segments[|segments| - 1];
      Shift(segments[..|segments| - 1], offset) + [Segment(s.start + offset, s.end + offset, s.text)]
  }

  /** The total duration of the parts. */
  function Elapsed(parts: seq<Part>): real {
    if parts == [] then 0.0 else Elapsed(parts[..|parts| - 1]) + parts[|parts| - 1].duration
  }

  /** Every part's segments, moved to where the part starts in the whole recording. */
  function Merged(parts: seq<Part>): seq<Segment> {
    if parts == [] then []
    else
      var before := parts[..|parts| - 1];
      Merged(before) + Shift(parts[|parts| - 1].segments, Elapsed(before))
  }

  /** The merging loop. */
  method Merge(parts: seq<Part>) returns (all: seq<Segment>, elapsed: real)
    ensures all == Merged(parts) && elapsed == Elapsed(parts)
  {
    all, elapsed := [], 0.0;
    for i := 0 to |parts|
      invariant all == Merged(parts[..i]) && elapsed == Elapsed(parts[..i])
    {
      assert parts[..i+1][..i] == parts[..i];
      ghost var before := all;
      var segments := parts[i].segments;
      for k := 0 to |segments|
        invariant all == before + Shift(segments[..k], elapsed)
      {
        assert segments[..k+1][..k] == segments[..k];
        var s := segments[k];
        all := all + [Segment(s.start + elapsed, s.end + elapsed, s.text)];
      }
      assert segments[..|segments|] == segments;
      elapsed := elapsed + parts[i].duration;
    }
    assert parts[..|parts|] == parts;
  }

  lemma {:induction false} ShiftLength(segments: seq<Segment>, offset: real)
    ensures |Shift(segments, offset)| == |segments|
  {
    if segments != [] {
      ShiftLength(segments[..|segments| - 1], offset);
    }
  }

  /** The time elapsed is the sum of the durations. */
  lemma {:induction false} ElapsedConcat(a: seq<Part>, b: seq<Part>)
    ensures Elapsed([]) == 0.0
    ensures |b| == 1 ==> Elapsed(b) == b[0].duration
    ensures Elapsed(a + b) == Elapsed(a) + Elapsed(b)
  {
    if b == [] {
      assert a + b == a;
    } else {
      var n := |b| - 1;
      ElapsedConcat(a, b[..n]);
      assert (a + b)[..|a| + n] == a + b[..n];
    }
  }

  lemma {:induction false} ShiftAt(segments: seq<Segment>, offset: real, i: nat)
    requires i < |segments|
    ensures |Shift(segments, offset)| == |segments|
    ensures Shift(segments, offset)[i] ==
            Segment(segments[i].start + offset, segments[i].end + offset, segments[i].text)
  {
    var n := |segments| - 1;
    ShiftLength(segments, offset);
    ShiftLength(segments[..n], offset);
    if i < n {
      ShiftAt(segments[..n], offset, i);
    }
  }

  lemma {:induction false} ShiftConcat(a: seq<Segment>, b: seq<Segment>, offset: real)
    ensures Shift(a + b, offset) == Shift(a, offset) + Shift(b, offset)
  {
    ShiftLength(a, offset);
    ShiftLength(b, offset);
    ShiftLength(a + b, offset);
    forall i | 0 <= i < |a + b|
      ensures Shift(a + b, offset)[i] == (Shift(a, offset) + Shift(b, offset))[i]
    {
      ShiftAt(a + b, offset, i);
      if i < |a| {
        ShiftAt(a, offset, i);
      } else {
        ShiftAt(b, offset, i - |a|);
      }
    }
  }

  lemma {:induction false} ShiftTwice(segments: seq<Segment>, x: real, y: real)
    ensures Shift(Shift(segments, x), y) == Shift(segments, x + y)
  {
    var once := Shift(segments, x);
    ShiftLength(segments, x);
    ShiftLength(segments, x + y);
    ShiftLength(once, y);
    forall i | 0 <= i < |segments|
      ensures Shift(once, y)[i] == Shift(segments, x + y)[i]
    {
      ShiftAt(segments, x, i);
      ShiftAt(once, y, i);
      ShiftAt(segments, x + y, i);
    }
  }

  lemma {:induction false} ShiftByNothing(segments: seq<Segment>)
    ensures Shift(segments, 0.0) == segments
  {
    if segments != [] {
      ShiftByNothing(segments[..|segments| - 1]);
    }
  }

  /** One part is taken as it is. */
  lemma {:induction false} MergedOne(p: Part)
    ensures Merged([p]) == p.segments
  {
    var parts := [p];
    assert parts[..|parts| - 1] == [];
    assert Merged(parts) == Merged([]) + Shift(p.segments, Elapsed([]));
    ShiftByNothing(p.segments);
  }

  lemma {:induction false} MergedSnoc(parts: seq<Part>, p: Part)
    ensures Merged(parts + [p]) == Merged(parts) + Shift(p.segments, Elapsed(parts))
  {
    assert (parts + [p])[..|parts|] == parts;
  }

  lemma {:induction false} Regroup(x: seq<Segment>, y: seq<Segment>, z: seq<Segment>)
    ensures (x + y) + z == x + (y + z)
  {
  }

  lemma {:induction false} MovedTogether(a: seq<Part>, before: seq<Part>, p: Part)
    ensures Shift(p.segments, Elapsed(a + before)) == Shift(Shift(p.segments, Elapsed(before)), Elapsed(a))
    ensures Shift(Merged(before + [p]), Elapsed(a)) ==
            Shift(Merged(before), Elapsed(a)) + Shift(p.segments, Elapsed(a + before))
  {
    ElapsedConcat(a, before);
    ShiftTwice(p.segments, Elapsed(before), Elapsed(a));
    MergedSnoc(before, p);
    ShiftConcat(Merged(before), Shift(p.segments, Elapsed(before)), Elapsed(a));
  }

  lemma {:induction false} MergedAppend(a: seq<Part>, before: seq<Part>, p: Part)
    requires Merged(a + before) == Merged(a) + Shift(Merged(before), Elapsed(a))
    ensures Merged(a + (before + [p])) == Merged(a) + Shift(Merged(before + [p]), Elapsed(a))
  {
    MergedSnoc(a + before, p);
    assert a + (before + [p]) == (a + before) + [p];
    MovedTogether(a, before, p);
    Regroup(Merged(a), Shift(Merged(before), Elapsed(a)), Shift(p.segments, Elapsed(a + before)));
  }

  /** Later parts merge by themselves and are then moved by the time elapsed before them. */
  ghost predicate MergesApart(a: seq<Part>, b: seq<Part>) {
    Merged(a + b) == Merged(a) + Shift(Merged(b), Elapsed(a))
  }

  lemma {:induction false} MergesNothing(a: seq<Part>)
    ensures MergesApart(a, [])
  {
    assert a + [] == a;
    assert Merged([]) == [] && Shift([], Elapsed(a)) == [];
    assert Merged(a) + [] == Merged(a);
  }

  lemma {:induction false} MergesOneMore(a: seq<Part>, before: seq<Part>, p: Part)
    requires MergesApart(a, before)
    ensures MergesApart(a, before + [p])
  {
    MergedAppend(a, before, p);
  }

  /** ... for any number of parts; a part by itself is taken as it is (MergedOne). */
  lemma {:induction false} MergedConcat(a: seq<Part>, b: seq<Part>)
    ensures MergesApart(a, b)
  {
    if b == [] {
      MergesNothing(a);
      assert b == [];
    } else {
      var n := |b| - 1;
      MergedConcat(a, b[..n]);
      MergesOneMore(a, b[..n], b[n]);
      assert b[..n] + [b[n]] == b;
    }
  }

  /** The part's segments are in order and lie within its duration. */
  predicate WellTimed(p: Part) {
    && 0.0 <= p.duration
    && Sorted(p.segments)
    && forall i :: 0 <= i < |p.segments| ==> 0.0 <= p.segments[i].start && p.segments[i].end <= p.duration
  }

  lemma {:induction false} ShiftSorted(p: Part, offset: real)
    requires WellTimed(p)
    ensures var s := Shift(p.segments, offset);
      Sorted(s) && forall i :: 0 <= i < |s| ==> offset <= s[i].start && s[i].end <= offset + p.duration
  {
    ShiftLength(p.segments, offset);
    forall i | 0 <= i < |p.segments|
      ensures Shift(p.segments, offset)[i] ==
              Segment(p.segments[i].start + offset, p.segments[i].end + offset, p.segments[i].text)
    {
      ShiftAt(p.segments, offset, i);
    }
  }

  /** Well-timed parts merge into segments that are in order and lie within the whole recording. */
  lemma {:induction false} MergedSorted(parts: seq<Part>)
    requires forall i :: 0 <= i < |parts| ==> WellTimed(parts[i])
    ensures Sorted(Merged(parts))
    ensures 0.0 <= Elapsed(parts)
    ensures forall i :: 0 <= i < |Merged(parts)| ==>
      0.0 <= Merged(parts)[i].start && Merged(parts)[i].end <= Elapsed(parts)
  {
    if parts != [] {
      var before, p := parts[..|parts| - 1], parts[|parts| - 1];
      MergedSorted(before);
      ShiftSorted(p, Elapsed(before));
      var a, b := Merged(before), Shift(p.segments, Elapsed(before));
      var all := a + b;
      assert Merged(parts) == all;
      forall i, j | 0 <= i <= j < |all|
        ensures all[i].start <= all[j].start && all[i].end <= all[j].end
      {
        if i < |a| <= j {
          assert all[i] == a[i] && all[j] == b[j - |a|];
          assert a[i].start <= a[i].end <= Elapsed(before) <= b[j - |a|].start <= b[j - |a|].end;
        }
      }
    }
  }

  /** The words of the recording are the words of its parts, in order. */
  function PartWords(parts: seq<Part>): seq<string> {
    if parts == [] then []
    else
      var p := parts[|parts| - 1];
      PartWords(parts[..|parts| - 1]) + Words(p.segments, 0, |p.segments|)
  }

  lemma {:induction false} WordsOfPrefix(a: seq<Segment>, b: seq<Segment>, n: nat)
    requires n <= |a| && n <= |b| && forall i :: 0 <= i < n ==> a[i].text == b[i].text
    ensures Words(a, 0, n) == Words(b, 0, n)
  {
    if n > 0 {
      WordsOfPrefix(a, b, n - 1);
    }
  }

  lemma {:induction false} WordsOfConcat(a: seq<Segment>, b: seq<Segment>, n: nat)
    requires n <= |b|
    ensures Words(a + b, 0, |a| + n) == Words(a, 0, |a|) + Words(b, 0, n)
  {
    if n == 0 {
      WordsOfPrefix(a + b, a, |a|);
    } else {
      WordsOfConcat(a, b, n - 1);
      assert (a + b)[|a| + n - 1] == b[n - 1];
    }
  }

  lemma {:induction false} ShiftKeepsWords(segments: seq<Segment>, offset: real)
    ensures |Shift(segments, offset)| == |segments|
    ensures Words(Shift(segments, offset), 0, |segments|) == Words(segments, 0, |segments|)
  {
    ShiftLength(segments, offset);
    forall i | 0 <= i < |segments|
      ensures Shift(segments, offset)[i].text == segments[i].text
    {
      ShiftAt(segments, offset, i);
    }
    WordsOfPrefix(Shift(segments, offset), segments, |segments|);
  }

  /** Merging loses, repeats and reorders no word. */
  lemma {:induction false} MergedWords(parts: seq<Part>)
    ensures Words(Merged(parts), 0, |Merged(parts)|) == PartWords(parts)
  {
    if parts != [] {
      var before, p := parts[..|parts| - 1], parts[|parts| - 1];
      var b := Shift(p.segments, Elapsed(before));
      MergedWords(before);
      ShiftKeepsWords(p.segments, Elapsed(before));
      WordsOfConcat(Merged(before), b, |b|);
    }
  }

  /** Steps 4 and 5 of a job: from the parts to the chunks, one per run of the merged segments. */
  method MergeAndChunk(parts: seq<Part>, maxTokens: int, overlap: int) returns (chunks: seq<Chunk>, elapsed: real)
    ensures elapsed == Elapsed(parts)
    ensures Renders(Merged(parts),
                    Runs(TokenCounts(Merged(parts)), EffectiveMax(maxTokens), EffectiveOverlap(maxTokens, overlap)),
                    chunks)
  {
    var all;
    all, elapsed := Merge(parts);
    chunks := SplitIntoChunks(all, maxTokens, overlap);
  }

  /** Without overlap the chunks hold every word of the parts once, in order. */
  lemma {:induction false} NoOverlapKeepsPartWords(parts: seq<Part>, max: nat, chunks: seq<Chunk>)
    requires Renders(Merged(parts), Runs(TokenCounts(Merged(parts)), max, 0), chunks)
    ensures AllWords(chunks) == PartWords(parts)
  {
    NoOverlapKeepsWords(Merged(parts), max, chunks);
    MergedWords(parts);
  }

  /**
   * If every part is well timed, each chunk ends after it starts, inside the recording, and neither starts nor ends
   * ever go back from chunk to chunk.
   */
  lemma {:induction false} ChunkedTimes(parts: seq<Part>, max: nat, overlap: nat, chunks: seq<Chunk>)
    requires Renders(Merged(parts), Runs(TokenCounts(Merged(parts)), max, overlap), chunks)
    requires forall i :: 0 <= i < |parts| ==> WellTimed(parts[i])
    ensures forall k :: 0 <= k < |chunks| ==>
      0.0 <= chunks[k].startTime <= chunks[k].endTime <= Elapsed(parts)
    ensures forall k :: 0 < k < |chunks| ==> NoEarlier(chunks, k)
  {
    var all := Merged(parts);
    var r := Runs(TokenCounts(all), max, overlap);
    MergedSorted(parts);
    ChunkTimes(all, max, overlap, chunks);
    forall k | 0 <= k < |chunks|
      ensures 0.0 <= chunks[k].startTime && chunks[k].endTime <= Elapsed(parts)
    {
      assert chunks[k] == Render(all, r[k], k);
    }
  }

  /** ... and its times span exactly the segments of its run. */
  lemma {:induction false} ChunkedSpans(parts: seq<Part>, max: nat, overlap: nat, chunks: seq<Chunk>, k: nat)
    requires Renders(Merged(parts), Runs(TokenCounts(Merged(parts)), max, overlap), chunks) && k < |chunks|
    requires forall i :: 0 <= i < |parts| ==> WellTimed(parts[i])
    ensures var q := Runs(TokenCounts(Merged(parts)), max, overlap)[k];
      q.lo < q.hi <= |Merged(parts)| && Spans(Merged(parts), q, chunks[k].startTime, chunks[k].endTime)
  {
    MergedSorted(parts);
    ChunkSpans(Merged(parts), max, overlap, chunks, k);
  }
}

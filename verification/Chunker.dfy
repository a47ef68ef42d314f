/** Grouping of transcript segments into overlapping chunks (transcription/chunker.go). */
module Chunker {
  import opened Text

  datatype Segment = Segment(start: real, end: real, text: string)

  datatype Chunk = Chunk(order: nat, text: string, startTime: real, endTime: real, tokens: nat)

  /** The segments lo, ..., hi - 1. */
  datatype Run = Run(lo: nat, hi: nat)

  function ApproxTokens(s: string): nat {
    |Fields(s)| * 13 / 10
  }

  function TokenCounts(segments: seq<Segment>): (tok: seq<nat>)
    ensures |tok| == |segments|
  {
    if segments == [] then []
    else TokenCounts(segments[..|segments| - 1]) + [ApproxTokens(segments[|segments| - 1].text)]
  }

  lemma {:induction false} TokenCountAt(segments: seq<Segment>, i: nat)
    requires i < |segments|
    ensures TokenCounts(segments)[i] == ApproxTokens(segments[i].text)
  {
    var n := |segments| - 1;
    if i < n {
      TokenCountAt(segments[..n], i);
    }
  }

  // ---------- Sums, texts and words of a range of segments ----------

  function Sum(tok: seq<nat>, lo: nat, hi: nat): nat
    requires hi <= |tok|
  {
    if lo >= hi then 0 else Sum(tok, lo, hi - 1) + tok[hi - 1]
  }

  function JoinText(segments: seq<Segment>, lo: nat, hi: nat): string
    requires hi <= |segments|
  {
    if lo >= hi then "" else JoinText(segments, lo, hi - 1) + segments[hi - 1].text + " "
  }

  function Words(segments: seq<Segment>, lo: nat, hi: nat): seq<string>
    requires hi <= |segments|
  {
    if lo >= hi then [] else Words(segments, lo, hi - 1) + Fields(segments[hi - 1].text)
  }

  lemma {:induction false} SumSplit(tok: seq<nat>, lo: nat, mid: nat, hi: nat)
    requires lo <= mid <= hi <= |tok|
    ensures Sum(tok, lo, hi) == Sum(tok, lo, mid) + Sum(tok, mid, hi)
  {
    if mid < hi {
      SumSplit(tok, lo, mid, hi - 1);
    }
  }

  lemma {:induction false} WordsSplit(segments: seq<Segment>, lo: nat, mid: nat, hi: nat)
    requires lo <= mid <= hi <= |segments|
    ensures Words(segments, lo, hi) == Words(segments, lo, mid) + Words(segments, mid, hi)
  {
    if mid < hi {
      WordsSplit(segments, lo, mid, hi - 1);
    }
  }

  lemma {:induction false} SumAtMost(tok: seq<nat>, lo: nat, hi: nat, i: nat)
    requires lo <= i < hi <= |tok|
    ensures tok[i] <= Sum(tok, lo, hi)
  {
    SumSplit(tok, lo, i, hi);
    SumSplit(tok, i, i + 1, hi);
    assert Sum(tok, i, i + 1) == tok[i];
  }

  lemma {:induction false} NoTokensNoWords(segments: seq<Segment>, lo: nat, hi: nat)
    requires lo <= hi <= |segments| && Sum(TokenCounts(segments), lo, hi) == 0
    ensures Words(segments, lo, hi) == []
  {
    if lo < hi {
      NoTokensNoWords(segments, lo, hi - 1);
      TokenCountAt(segments, hi - 1);
    }
  }

  /** The words of a joined and trimmed range are the words of its segments. */
  lemma {:induction false} FieldsOfJoin(segments: seq<Segment>, lo: nat, hi: nat)
    requires lo <= hi <= |segments|
    ensures Fields(TrimSpace(JoinText(segments, lo, hi))) == Words(segments, lo, hi)
  {
    FieldsTrimSpace(JoinText(segments, lo, hi));
    JoinedFields(segments, lo, hi);
  }

  lemma {:induction false} JoinOne(segments: seq<Segment>, i: nat)
    requires i < |segments|
    ensures JoinText(segments, i, i + 1) == segments[i].text + " "
  {
    assert JoinText(segments, i, i) == "";
    assert "" + segments[i].text == segments[i].text;
  }

  lemma {:induction false} AppendAssociates(a: string, b: string, t: string)
    ensures a + (b + t + " ") == a + b + t + " "
  {
  }

  /** With JoinOne: a joined range is each segment's text and a blank, in order. */
  lemma {:induction false} JoinSplit(segments: seq<Segment>, lo: nat, mid: nat, hi: nat)
    requires lo <= mid <= hi <= |segments|
    ensures JoinText(segments, lo, hi) == JoinText(segments, lo, mid) + JoinText(segments, mid, hi)
  {
    if mid < hi {
      JoinSplit(segments, lo, mid, hi - 1);
      AppendAssociates(JoinText(segments, lo, mid), JoinText(segments, mid, hi - 1), segments[hi - 1].text);
    } else {
      assert JoinText(segments, lo, mid) + "" == JoinText(segments, lo, mid);
    }
  }

  /** x is empty or ends with a blank, so the words of x and t do not run together. */
  lemma {:induction false} AppendWords(x: string, t: string)
    requires x == "" || x[|x| - 1] == ' '
    ensures Fields(x + t + " ") == Fields(x) + Fields(t)
  {
    assert x + t + " " == (x + t) + [' '] + "";
    FieldsSplit(x + t, ' ', "");
    if x == "" {
      assert x + t == t;
    } else {
      var y := x[..|x| - 1];
      assert x == y + [' '] + "" && x + t == y + [' '] + t;
      FieldsSplit(y, ' ', t);
      FieldsSplit(y, ' ', "");
    }
  }

  lemma {:induction false} JoinedFields(segments: seq<Segment>, lo: nat, hi: nat)
    requires lo <= hi <= |segments|
    ensures Fields(JoinText(segments, lo, hi)) == Words(segments, lo, hi)
  {
    if lo < hi {
      JoinedFields(segments, lo, hi - 1);
      AppendWords(JoinText(segments, lo, hi - 1), segments[hi - 1].text);
    }
  }

  // ---------- What the chunker promises: the runs ----------

  /** Where the run that starts at lo and holds the segments up to i ends. */
  function Grow(tok: seq<nat>, lo: nat, i: nat, max: nat): (hi: nat)
    requires lo <= i <= |tok|
    ensures i <= hi <= |tok|
    decreases |tok| - i
  {
    if i == |tok| || (Sum(tok, lo, i) > 0 && Sum(tok, lo, i) + tok[i] > max) then i
    else Grow(tok, lo, i + 1, max)
  }

  /** How many tokens the run after [lo, hi) repeats. */
  function Wanted(tok: seq<nat>, lo: nat, hi: nat, overlap: nat): nat
    requires lo <= hi <= |tok|
  {
    if Sum(tok, lo, hi) < overlap then Sum(tok, lo, hi) else overlap
  }

  /** The start of the shortest range that ends at hi, starts in [lo, c] and has want tokens. */
  function Carry(tok: seq<nat>, lo: nat, hi: nat, c: nat, want: nat): (start: nat)
    requires lo <= c <= hi <= |tok|
    ensures lo <= start <= c
  {
    if c == lo || Sum(tok, c, hi) >= want then c else Carry(tok, lo, hi, c - 1, want)
  }

  /** The runs still to come when the current one starts at lo and holds the segments up to i. */
  function RunsFrom(tok: seq<nat>, lo: nat, i: nat, max: nat, overlap: nat): (runs: seq<Run>)
    requires lo <= i <= |tok|
    decreases |tok| - i
  {
    var hi := Grow(tok, lo, i, max);
    if Sum(tok, lo, hi) == 0 then []
    else if hi == |tok| then [Run(lo, hi)]
    else [Run(lo, hi)] + RunsFrom(tok, Carry(tok, lo, hi, hi, Wanted(tok, lo, hi, overlap)), hi + 1, max, overlap)
  }

  function Runs(tok: seq<nat>, max: nat, overlap: nat): seq<Run> {
    RunsFrom(tok, 0, 0, max, overlap)
  }

  /** The maxTokens and overlap that are in effect. */
  function EffectiveMax(maxTokens: int): (m: nat)
    ensures m >= 1
  {
    if maxTokens < 1 then 1 else maxTokens
  }

  function EffectiveOverlap(maxTokens: int, overlap: int): (o: nat)
    ensures o < EffectiveMax(maxTokens)
  {
    var o := if overlap < 0 then 0 else overlap;
    if o >= EffectiveMax(maxTokens) then EffectiveMax(maxTokens) - 1 else o
  }

  predicate InRange(tok: seq<nat>, r: Run) {
    r.lo < r.hi <= |tok|
  }

  /** The chunk that holds exactly the segments of r. */
  function Render(segments: seq<Segment>, r: Run, order: nat): Chunk
    requires InRange(TokenCounts(segments), r)
  {
    Chunk(order, TrimSpace(JoinText(segments, r.lo, r.hi)), segments[r.lo].start, segments[r.hi - 1].end,
          Sum(TokenCounts(segments), r.lo, r.hi))
  }

  /** out is one chunk per run, in order. */
  ghost predicate Renders(segments: seq<Segment>, runs: seq<Run>, out: seq<Chunk>) {
    && |out| == |runs|
    && forall k :: 0 <= k < |runs| ==>
         InRange(TokenCounts(segments), runs[k]) && out[k] == Render(segments, runs[k], k)
  }

  // ---------- Facts about Grow and Carry ----------

  lemma {:induction false} GrowStops(tok: seq<nat>, lo: nat, i: nat, max: nat)
    requires lo <= i <= |tok|
    ensures var hi := Grow(tok, lo, i, max);
      && (hi < |tok| ==> Sum(tok, lo, hi) > 0 && Sum(tok, lo, hi) + tok[hi] > max)
      && (forall j :: i <= j < hi ==> Sum(tok, lo, j) == 0 || Sum(tok, lo, j) + tok[j] <= max)
    decreases |tok| - i
  {
    if Grow(tok, lo, i, max) != i {
      GrowStops(tok, lo, i + 1, max);
    }
  }

  /** [start, hi) has want tokens, and no shorter range that ends at hi has. */
  ghost predicate ShortestSuffix(tok: seq<nat>, start: nat, hi: nat, want: nat)
    requires start <= hi <= |tok|
  {
    Sum(tok, start, hi) >= want && forall d :: start < d <= hi ==> Sum(tok, d, hi) < want
  }

  lemma {:induction false} CarryIsShortest(tok: seq<nat>, lo: nat, hi: nat, c: nat, want: nat)
    requires lo <= c <= hi <= |tok| && want <= Sum(tok, lo, hi)
    requires forall d :: c < d <= hi ==> Sum(tok, d, hi) < want
    ensures ShortestSuffix(tok, Carry(tok, lo, hi, c, want), hi, want)
  {
    if c != lo && Sum(tok, c, hi) < want {
      CarryIsShortest(tok, lo, hi, c - 1, want);
    }
  }

  lemma {:induction false} CarryUnique(tok: seq<nat>, lo: nat, hi: nat, c: nat, want: nat, s: nat)
    requires lo <= s <= c <= hi <= |tok|
    requires Sum(tok, s, hi) >= want && forall d :: s < d <= c ==> Sum(tok, d, hi) < want
    ensures Carry(tok, lo, hi, c, want) == s
  {
    if s < c {
      assert Sum(tok, c, hi) < want;
      CarryUnique(tok, lo, hi, c - 1, want, s);
    }
  }

  /** The start of the run that follows [lo, hi). */
  function Next(tok: seq<nat>, lo: nat, hi: nat, overlap: nat): (start: nat)
    requires lo <= hi <= |tok|
    ensures lo <= start <= hi
  {
    Carry(tok, lo, hi, hi, Wanted(tok, lo, hi, overlap))
  }

  // ---------- Order, coverage and number of the runs ----------

  /** Run k starts where the overlap with the run before it begins, and goes further. */
  predicate Continues(tok: seq<nat>, r: seq<Run>, k: int, overlap: nat) {
    && 0 < k < |r| && InRange(tok, r[k-1])
    && r[k-1].hi < r[k].hi && r[k].lo == Next(tok, r[k-1].lo, r[k-1].hi, overlap)
  }

  /** Run k ends later than the run before it, starts no earlier and leaves no gap. */
  predicate Follows(r: seq<Run>, k: int) {
    0 < k < |r| && r[k-1].hi < r[k].hi && r[k-1].lo <= r[k].lo <= r[k-1].hi
  }

  /** Run k starts where the run before it ends. */
  predicate Abuts(r: seq<Run>, k: int) {
    0 < k < |r| && r[k].lo == r[k-1].hi
  }

  lemma {:induction false} RunsFromShape(tok: seq<nat>, lo: nat, i: nat, max: nat, overlap: nat)
    requires lo <= i <= |tok|
    ensures var r := RunsFrom(tok, lo, i, max, overlap);
      && (|r| > 0 ==> r[0].lo == lo && r[0].hi >= i)
      && (forall k :: 0 <= k < |r| ==> InRange(tok, r[k]) && Sum(tok, r[k].lo, r[k].hi) > 0)
      && (forall k :: 0 < k < |r| ==> Continues(tok, r, k, overlap))
      && |r| <= |tok| - i + 1
    decreases |tok| - i
  {
    var hi := Grow(tok, lo, i, max);
    if Sum(tok, lo, hi) > 0 && hi < |tok| {
      var r := RunsFrom(tok, lo, i, max, overlap);
      var rest := RunsFrom(tok, Next(tok, lo, hi, overlap), hi + 1, max, overlap);
      RunsFromShape(tok, Next(tok, lo, hi, overlap), hi + 1, max, overlap);
      assert r[0] == Run(lo, hi) && r[1..] == rest;
      forall k | 0 < k < |r|
        ensures Continues(tok, r, k, overlap)
      {
        assert r[k] == rest[k-1];
        assert k > 1 ==> r[k-1] == rest[k-2] && Continues(tok, rest, k - 1, overlap);
      }
    }
  }

  ghost predicate Covered(r: seq<Run>, j: nat) {
    exists k :: 0 <= k < |r| && r[k].lo <= j < r[k].hi
  }

  lemma {:induction false} RunsFromCover(tok: seq<nat>, lo: nat, i: nat, max: nat, overlap: nat, j: nat)
    requires lo <= i <= |tok| && lo <= j < |tok| && tok[j] > 0
    ensures Covered(RunsFrom(tok, lo, i, max, overlap), j)
    decreases |tok| - i
  {
    var hi := Grow(tok, lo, i, max);
    var r := RunsFrom(tok, lo, i, max, overlap);
    GrowStops(tok, lo, i, max);
    if j < hi {
      SumAtMost(tok, lo, hi, j);
      assert r[0] == Run(lo, hi);
    } else {
      RunsFromCover(tok, Next(tok, lo, hi, overlap), hi + 1, max, overlap, j);
      var rest := r[1..];
      var k :| 0 <= k < |rest| && rest[k].lo <= j < rest[k].hi;
      assert r[k + 1] == rest[k];
    }
  }

  /** Ends strictly increase, starts never decrease, and neighbouring runs leave no gap. */
  lemma {:induction false} RunsAreOrdered(tok: seq<nat>, max: nat, overlap: nat)
    ensures var r := Runs(tok, max, overlap);
      && |r| <= |tok|
      && (|r| > 0 ==> r[0].lo == 0)
      && (forall k :: 0 <= k < |r| ==> InRange(tok, r[k]))
      && (forall k :: 0 < k < |r| ==> Follows(r, k))
  {
    RunsFromShape(tok, 0, 0, max, overlap);
    var r := Runs(tok, max, overlap);
    forall k | 0 < k < |r|
      ensures Follows(r, k)
    {
      assert Continues(tok, r, k, overlap);
    }
    if |r| > 1 {
      var hi := r[0].hi;
      RunsFromShape(tok, Next(tok, 0, hi, overlap), hi + 1, max, overlap);
    }
  }

  /** Every segment with a token is in a run. */
  lemma {:induction false} RunsCoverTokens(tok: seq<nat>, max: nat, overlap: nat, j: nat)
    requires j < |tok| && tok[j] > 0
    ensures Covered(Runs(tok, max, overlap), j)
  {
    RunsFromCover(tok, 0, 0, max, overlap, j);
  }

  /** A run starts with the shortest suffix of the previous run that has `overlap` tokens, or all its tokens. */
  lemma {:induction false} ConsecutiveRunsOverlap(tok: seq<nat>, max: nat, overlap: nat, k: nat)
    requires 0 < k < |Runs(tok, max, overlap)|
    ensures var r := Runs(tok, max, overlap);
      && InRange(tok, r[k-1]) && r[k-1].lo <= r[k].lo <= r[k-1].hi
      && ShortestSuffix(tok, r[k].lo, r[k-1].hi, Wanted(tok, r[k-1].lo, r[k-1].hi, overlap))
  {
    RunsFromShape(tok, 0, 0, max, overlap);
    var r := Runs(tok, max, overlap);
    var p := r[k-1];
    assert Continues(tok, r, k, overlap);
    CarryIsShortest(tok, p.lo, p.hi, p.hi, Wanted(tok, p.lo, p.hi, overlap));
  }

  // ---------- Sizes ----------

  function Max(a: int, b: int): int {
    if a < b then b else a
  }

  /** The size no chunk exceeds when no segment has more than s tokens. */
  function SizeBound(max: nat, overlap: nat, s: nat): nat {
    if overlap == 0 then Max(max, s) else Max(max, 2 * s + overlap - 1)
  }

  lemma {:induction false} GrowSize(tok: seq<nat>, lo: nat, i: nat, max: nat, s: nat)
    requires lo <= i <= |tok| && forall j :: 0 <= j < |tok| ==> tok[j] <= s
    ensures Sum(tok, lo, Grow(tok, lo, i, max)) <= Max(Sum(tok, lo, i), Max(max, s))
    decreases |tok| - i
  {
    if Grow(tok, lo, i, max) != i {
      GrowSize(tok, lo, i + 1, max, s);
    }
  }

  lemma {:induction false} CarrySize(tok: seq<nat>, lo: nat, hi: nat, overlap: nat, s: nat)
    requires lo <= hi <= |tok| && forall j :: 0 <= j < |tok| ==> tok[j] <= s
    ensures Sum(tok, Next(tok, lo, hi, overlap), hi) <= if overlap == 0 then 0 else overlap - 1 + s
  {
    var want := Wanted(tok, lo, hi, overlap);
    CarryIsShortest(tok, lo, hi, hi, want);
    var c := Next(tok, lo, hi, overlap);
    if c < hi {
      SumSplit(tok, c, c + 1, hi);
      assert Sum(tok, c + 1, hi) < want;
      assert Sum(tok, c, c + 1) == tok[c];
    }
  }

  lemma {:induction false} RunsFromSize(tok: seq<nat>, lo: nat, i: nat, max: nat, overlap: nat, s: nat)
    requires lo <= i <= |tok| && forall j :: 0 <= j < |tok| ==> tok[j] <= s
    requires Sum(tok, lo, i) <= SizeBound(max, overlap, s)
    ensures forall k :: 0 <= k < |RunsFrom(tok, lo, i, max, overlap)| ==>
      var q := RunsFrom(tok, lo, i, max, overlap)[k];
      InRange(tok, q) && Sum(tok, q.lo, q.hi) <= SizeBound(max, overlap, s)
    decreases |tok| - i
  {
    var hi := Grow(tok, lo, i, max);
    GrowSize(tok, lo, i, max, s);
    RunsFromShape(tok, lo, i, max, overlap);
    if Sum(tok, lo, hi) > 0 && hi < |tok| {
      CarrySize(tok, lo, hi, overlap, s);
      RunsFromSize(tok, Next(tok, lo, hi, overlap), hi + 1, max, overlap, s);
      var r := RunsFrom(tok, lo, i, max, overlap);
      assert forall k :: 0 < k < |r| ==> r[k] == r[1..][k-1];
    }
  }

  /** The true size bound: maxTokens alone is not one, see OverlapExceedsMax. */
  lemma {:induction false} RunsAreBounded(tok: seq<nat>, max: nat, overlap: nat, s: nat, k: nat)
    requires forall j :: 0 <= j < |tok| ==> tok[j] <= s
    requires k < |Runs(tok, max, overlap)|
    ensures var q := Runs(tok, max, overlap)[k];
      InRange(tok, q) && Sum(tok, q.lo, q.hi) <= SizeBound(max, overlap, s)
  {
    RunsFromSize(tok, 0, 0, max, overlap, s);
  }

  /** The first segment that the k-th run does not share with the run before it. */
  function FirstNew(r: seq<Run>, k: nat): nat
    requires k < |r|
  {
    if k == 0 then 0 else r[k-1].hi
  }

  /**
   * q is maximal unless it is the last run; and from segment `from` on it takes a segment only if it has no
   * token yet or stays within max.
   */
  ghost predicate Greedy(tok: seq<nat>, q: Run, from: nat, max: nat) {
    && InRange(tok, q)
    && (q.hi < |tok| ==> Sum(tok, q.lo, q.hi) + tok[q.hi] > max)
    && (forall j :: from <= j < q.hi ==> Sum(tok, q.lo, j) == 0 || Sum(tok, q.lo, j) + tok[j] <= max)
  }

  /** Where the size test starts in the k-th run: a run that follows another takes its first new segment untested. */
  function TestFrom(r: seq<Run>, i: nat, k: nat): nat
    requires k < |r|
  {
    if k == 0 then i else r[k-1].hi + 1
  }

  lemma {:induction false} RunsFromGreedy(tok: seq<nat>, lo: nat, i: nat, max: nat, overlap: nat, k: nat)
    requires lo <= i <= |tok| && k < |RunsFrom(tok, lo, i, max, overlap)|
    ensures var r := RunsFrom(tok, lo, i, max, overlap);
      Greedy(tok, r[k], TestFrom(r, i, k), max)
    decreases |tok| - i
  {
    var hi := Grow(tok, lo, i, max);
    GrowStops(tok, lo, i, max);
    var r := RunsFrom(tok, lo, i, max, overlap);
    if k == 0 {
      assert r[0] == Run(lo, hi);
    } else {
      var rest := RunsFrom(tok, Next(tok, lo, hi, overlap), hi + 1, max, overlap);
      RunsFromGreedy(tok, Next(tok, lo, hi, overlap), hi + 1, max, overlap, k - 1);
      assert r == [Run(lo, hi)] + rest;
      assert r[k] == rest[k-1] && TestFrom(r, i, k) == TestFrom(rest, hi + 1, k - 1);
    }
  }

  /** Every run but the last is maximal: the next segment would not have fitted. */
  lemma {:induction false} RunsAreMaximal(tok: seq<nat>, max: nat, overlap: nat, k: nat)
    requires k < |Runs(tok, max, overlap)| && Runs(tok, max, overlap)[k].hi < |tok|
    ensures var q := Runs(tok, max, overlap)[k];
      InRange(tok, q) && Sum(tok, q.lo, q.hi) + tok[q.hi] > max
  {
    RunsFromGreedy(tok, 0, 0, max, overlap, k);
  }

  /** A run that is above max takes no further segment; the one that took it there was its first. */
  lemma {:induction false} OversizeRunStops(tok: seq<nat>, max: nat, overlap: nat, k: nat)
    requires k < |Runs(tok, max, overlap)|
    ensures var r := Runs(tok, max, overlap);
      && InRange(tok, r[k])
      && (forall j :: FirstNew(r, k) < j < r[k].hi ==> Sum(tok, r[k].lo, j) <= max)
      && (Sum(tok, r[k].lo, r[k].hi) > max ==>
            r[k].hi == FirstNew(r, k) + 1 || Sum(tok, r[k].lo, r[k].hi - 1) == 0)
  {
    RunsFromGreedy(tok, 0, 0, max, overlap, k);
    RunsAreOrdered(tok, max, overlap);
    var r := Runs(tok, max, overlap);
    assert k > 0 ==> Follows(r, k);
    var last := r[k].hi - 1;
    if r[k].lo <= FirstNew(r, k) < last {
      assert Sum(tok, r[k].lo, last) == 0 || Sum(tok, r[k].lo, last) + tok[last] <= max;
    }
  }

  // ---------- Without overlap nothing is repeated or lost ----------

  function TotalTokens(tok: seq<nat>, r: seq<Run>): nat
    requires forall k :: 0 <= k < |r| ==> InRange(tok, r[k])
  {
    if r == [] then 0 else assert InRange(tok, r[0]); Sum(tok, r[0].lo, r[0].hi) + TotalTokens(tok, r[1..])
  }

  lemma {:induction false} TotalFrom(tok: seq<nat>, lo: nat, i: nat, max: nat)
    requires lo <= i <= |tok|
    ensures var r := RunsFrom(tok, lo, i, max, 0);
      (forall k :: 0 <= k < |r| ==> InRange(tok, r[k])) && TotalTokens(tok, r) == Sum(tok, lo, |tok|)
    decreases |tok| - i
  {
    var r := RunsFrom(tok, lo, i, max, 0);
    RunsFromShape(tok, lo, i, max, 0);
    var hi := Grow(tok, lo, i, max);
    GrowStops(tok, lo, i, max);
    SumSplit(tok, lo, hi, |tok|);
    if Sum(tok, lo, hi) > 0 && hi < |tok| {
      TotalFrom(tok, hi, hi + 1, max);
      assert r[0] == Run(lo, hi) && r[1..] == RunsFrom(tok, hi, hi + 1, max, 0);
    } else if r != [] {
      assert r[1..] == [];
    }
  }

  /** With overlap 0 the runs are disjoint and hold all tokens once. */
  lemma {:induction false} NoOverlapTokens(tok: seq<nat>, max: nat)
    ensures var r := Runs(tok, max, 0);
      && (forall k :: 0 <= k < |r| ==> InRange(tok, r[k]))
      && (forall k :: 0 < k < |r| ==> Abuts(r, k))
      && TotalTokens(tok, r) == Sum(tok, 0, |tok|)
  {
    TotalFrom(tok, 0, 0, max);
    RunsFromShape(tok, 0, 0, max, 0);
    var r := Runs(tok, max, 0);
    forall k | 0 < k < |r|
      ensures Abuts(r, k)
    {
      assert Continues(tok, r, k, 0);
    }
  }

  // ---------- When no chunk exceeds maxTokens ----------

  predicate AtMost(tok: seq<nat>, s: nat) {
    forall j :: 0 <= j < |tok| ==> tok[j] <= s
  }

  predicate AllFit(tok: seq<nat>, r: seq<Run>, max: nat) {
    forall k :: 0 <= k < |r| ==> InRange(tok, r[k]) && Sum(tok, r[k].lo, r[k].hi) <= max
  }

  /** What run k repeats and the segment at which the run before it was cut fit into one chunk. */
  predicate CutFits(tok: seq<nat>, r: seq<Run>, k: int, max: nat) {
    && 0 < k < |r| && r[k-1].hi < |tok|
    && Sum(tok, r[k].lo, r[k-1].hi) + tok[r[k-1].hi] <= max
  }

  lemma {:induction false} FittingCut(tok: seq<nat>, max: nat, overlap: nat, k: nat)
    requires 0 < k < |Runs(tok, max, overlap)| && AllFit(tok, Runs(tok, max, overlap), max)
    ensures CutFits(tok, Runs(tok, max, overlap), k, max)
  {
    var r := Runs(tok, max, overlap);
    RunsAreOrdered(tok, max, overlap);
    assert Follows(r, k) && InRange(tok, r[k]);
    SumSplit(tok, r[k].lo, r[k-1].hi + 1, r[k].hi);
  }

  lemma {:induction false} FittingRun(tok: seq<nat>, max: nat, overlap: nat, k: nat)
    requires k < |Runs(tok, max, overlap)| && AtMost(tok, max)
    requires k > 0 ==> CutFits(tok, Runs(tok, max, overlap), k, max)
    ensures var q := Runs(tok, max, overlap)[k];
      InRange(tok, q) && Sum(tok, q.lo, q.hi) <= max
  {
    OversizeRunStops(tok, max, overlap, k);
    RunsAreOrdered(tok, max, overlap);
  }

  /** No run is above max exactly if no segment is, and at every cut the repeated tail leaves room for the next one. */
  lemma {:induction false} FitsExactly(tok: seq<nat>, max: nat, overlap: nat)
    ensures var r := Runs(tok, max, overlap);
      AllFit(tok, r, max) <==> AtMost(tok, max) && forall k :: 0 < k < |r| ==> CutFits(tok, r, k, max)
  {
    var r := Runs(tok, max, overlap);
    if AllFit(tok, r, max) {
      forall j | 0 <= j < |tok|
        ensures tok[j] <= max
      {
        if tok[j] > 0 {
          RunsCoverTokens(tok, max, overlap, j);
          var k :| 0 <= k < |r| && r[k].lo <= j < r[k].hi;
          SumAtMost(tok, r[k].lo, r[k].hi, j);
        }
      }
      forall k | 0 < k < |r|
        ensures CutFits(tok, r, k, max)
      {
        FittingCut(tok, max, overlap, k);
      }
    } else if AtMost(tok, max) && forall k :: 0 < k < |r| ==> CutFits(tok, r, k, max) {
      forall k | 0 <= k < |r|
        ensures InRange(tok, r[k]) && Sum(tok, r[k].lo, r[k].hi) <= max
      {
        FittingRun(tok, max, overlap, k);
      }
    }
  }

  /** Without overlap no run is above max exactly if no segment is. */
  lemma {:induction false} FitsWithoutOverlap(tok: seq<nat>, max: nat)
    ensures AllFit(tok, Runs(tok, max, 0), max) <==> AtMost(tok, max)
  {
    var r := Runs(tok, max, 0);
    FitsExactly(tok, max, 0);
    if AtMost(tok, max) {
      RunsAreOrdered(tok, max, 0);
      NoOverlapTokens(tok, max);
      forall k | 0 < k < |r|
        ensures CutFits(tok, r, k, max)
      {
        assert Follows(r, k) && Abuts(r, k) && InRange(tok, r[k]);
      }
    }
  }

  /** One segment of s tokens, n of one token, one of s tokens. */
  function Bracketed(s: nat, n: nat): (tok: seq<nat>)
    ensures |tok| == n + 2 && tok[0] == s && tok[n+1] == s
    ensures forall j :: 1 <= j <= n ==> tok[j] == 1
  {
    [s] + seq(n, _ => 1) + [s]
  }

  lemma {:induction false} BracketedSum(s: nat, n: nat, lo: nat, hi: nat)
    requires lo <= hi <= n + 1
    ensures Sum(Bracketed(s, n), lo, hi) == if lo == 0 && hi > 0 then s + hi - 1 else hi - lo
  {
    if lo < hi {
      BracketedSum(s, n, lo, hi - 1);
    }
  }

  /** The second run repeats the whole first one, as everything behind the first segment is less than the overlap. */
  lemma {:induction false} BracketedNext(s: nat, overlap: nat, hi: nat)
    requires s >= 1 && 1 <= hi <= overlap
    ensures Next(Bracketed(s, overlap - 1), 0, hi, overlap) == 0
  {
    var tok := Bracketed(s, overlap - 1);
    var want := Wanted(tok, 0, hi, overlap);
    BracketedSum(s, overlap - 1, 0, hi);
    forall d: nat | 0 < d <= hi
      ensures Sum(tok, d, hi) < want
    {
      BracketedSum(s, overlap - 1, d, hi);
    }
    CarryUnique(tok, 0, hi, hi, want, 0);
  }

  /** A transcript that goes above max although no segment has more than s tokens. */
  lemma {:induction false} BracketedExceeds(s: nat, max: nat, overlap: nat)
    requires s >= 1 && overlap >= 1 && 2 * s + overlap - 1 > max
    ensures !AllFit(Bracketed(s, overlap - 1), Runs(Bracketed(s, overlap - 1), max, overlap), max)
  {
    var n := overlap - 1;
    var tok, r := Bracketed(s, n), Runs(Bracketed(s, n), max, overlap);
    var hi := Grow(tok, 0, 0, max);
    GrowStops(tok, 0, 0, max);
    BracketedSum(s, n, 0, n + 1);
    assert hi < |tok|;
    BracketedSum(s, n, 0, hi);
    BracketedNext(s, overlap, hi);
    var rest := RunsFrom(tok, 0, hi + 1, max, overlap);
    var end := Grow(tok, 0, hi + 1, max);
    SumSplit(tok, 0, hi + 1, end);
    assert r[1] == rest[0] == Run(0, end);
  }

  /**
   * maxTokens is kept for every transcript whose segments have at most s tokens exactly if s is within max and,
   * with an overlap, two such segments and the overlap less one are.
   */
  lemma {:induction false} SizeGuarantee(s: nat, max: nat, overlap: nat)
    requires overlap < max
    ensures (forall tok :: AtMost(tok, s) ==> AllFit(tok, Runs(tok, max, overlap), max))
            <==> (s == 0 || (if overlap == 0 then s <= max else 2 * s + overlap - 1 <= max))
  {
    if s == 0 || (if overlap == 0 then s <= max else 2 * s + overlap - 1 <= max) {
      forall tok | AtMost(tok, s)
        ensures AllFit(tok, Runs(tok, max, overlap), max)
      {
        RunsFromSize(tok, 0, 0, max, overlap, s);
      }
    } else if overlap == 0 {
      FitsWithoutOverlap([s], max);
      assert AtMost([s], s) && [s][0] > max;
    } else {
      BracketedExceeds(s, max, overlap);
      assert AtMost(Bracketed(s, overlap - 1), s);
    }
  }

  /** n times the word "a" and a blank. */
  function Repeated(n: nat): string {
    if n == 0 then "" else "a" + [' '] + Repeated(n - 1)
  }

  lemma {:induction false} RepeatedFields(n: nat)
    ensures |Fields(Repeated(n))| == n
  {
    if n > 0 {
      RepeatedFields(n - 1);
      FieldsSplit("a", ' ', Repeated(n - 1));
      assert "a"[WordLength("a")..] == "";
    }
  }

  /** Two segments that both fit, but not together: any overlap puts them into one chunk. */
  lemma {:induction false} OverlapExceedsMax(n: nat, max: nat, overlap: nat, out: seq<Chunk>)
    requires n * 13 / 10 <= max < 2 * (n * 13 / 10) && 1 <= overlap < max
    requires var segment := Segment(0.0, 1.0, Repeated(n));
      Renders([segment, segment], Runs(TokenCounts([segment, segment]), max, overlap), out)
    ensures |out| == 2 && out[0].tokens == n * 13 / 10 && out[1].tokens == 2 * (n * 13 / 10) > max
  {
    var segment := Segment(0.0, 1.0, Repeated(n));
    var segments := [segment, segment];
    var t := n * 13 / 10;
    RepeatedFields(n);
    TokenCountAt(segments, 0);
    TokenCountAt(segments, 1);
    var tok := TokenCounts(segments);
    assert Sum(tok, 0, 1) == t && Sum(tok, 0, 2) == 2 * t;
    assert Grow(tok, 0, 0, max) == Grow(tok, 0, 1, max) == 1;
    assert Carry(tok, 0, 1, 1, Wanted(tok, 0, 1, overlap)) == 0;
    assert RunsFrom(tok, 0, 2, max, overlap) == [Run(0, 2)];
    assert Runs(tok, max, overlap) == [Run(0, 1), Run(0, 2)];
  }

  predicate WordsAtMost(segments: seq<Segment>, w: nat) {
    forall i :: 0 <= i < |segments| ==> |Fields(segments[i].text)| <= w
  }

  lemma {:induction false} TokensAtMost(segments: seq<Segment>, w: nat)
    requires WordsAtMost(segments, w)
    ensures AtMost(TokenCounts(segments), w * 13 / 10)
  {
    forall i | 0 <= i < |segments|
      ensures TokenCounts(segments)[i] <= w * 13 / 10
    {
      TokenCountAt(segments, i);
    }
  }

  lemma {:induction false} SegmentOf(w: nat) returns (segment: Segment)
    ensures |Fields(segment.text)| == w && ApproxTokens(segment.text) == w * 13 / 10
  {
    segment := Segment(0.0, 1.0, Repeated(w));
    RepeatedFields(w);
  }

  lemma {:induction false} BracketedTokens(long: Segment, short: Segment, n: nat)
    requires ApproxTokens(short.text) == 1
    ensures TokenCounts([long] + seq(n, _ => short) + [long]) == Bracketed(ApproxTokens(long.text), n)
  {
    var segments := [long] + seq(n, _ => short) + [long];
    forall i | 0 <= i < |segments|
      ensures TokenCounts(segments)[i] == Bracketed(ApproxTokens(long.text), n)[i]
    {
      TokenCountAt(segments, i);
    }
  }

  /** Segments of w, 1, ..., 1 and w words, with n ones. */
  lemma {:induction false} BracketedSegments(w: nat, n: nat) returns (segments: seq<Segment>)
    requires w >= 1
    ensures WordsAtMost(segments, w) && TokenCounts(segments) == Bracketed(w * 13 / 10, n)
  {
    var long := SegmentOf(w);
    var short := SegmentOf(1);
    segments := [long] + seq(n, _ => short) + [long];
    BracketedTokens(long, short, n);
  }

  function AllWords(chunks: seq<Chunk>): seq<string> {
    if chunks == [] then [] else AllWords(chunks[..|chunks| - 1]) + Fields(chunks[|chunks| - 1].text)
  }

  lemma {:induction false} RunWords(segments: seq<Segment>, r: Run, c: Chunk, order: nat)
    requires InRange(TokenCounts(segments), r) && c == Render(segments, r, order)
    ensures Fields(c.text) == Words(segments, r.lo, r.hi)
    ensures Words(segments, 0, r.hi) == Words(segments, 0, r.lo) + Fields(c.text)
  {
    FieldsOfJoin(segments, r.lo, r.hi);
    WordsSplit(segments, 0, r.lo, r.hi);
  }

  lemma {:induction false} ChunkWords(segments: seq<Segment>, r: seq<Run>, out: seq<Chunk>, k: nat)
    requires Renders(segments, r, out) && k <= |out|
    requires |r| > 0 ==> r[0].lo == 0
    requires forall j :: 0 < j < |r| ==> Abuts(r, j)
    ensures AllWords(out[..k]) == Words(segments, 0, if k == 0 then 0 else r[k-1].hi)
  {
    if k > 0 {
      ChunkWords(segments, r, out, k - 1);
      assert out[..k][..k-1] == out[..k-1];
      assert k > 1 ==> Abuts(r, k - 1);
      RunWords(segments, r[k-1], out[k-1], k - 1);
    }
  }

  lemma {:induction false} TailHasNoTokens(tok: seq<nat>, lo: nat, i: nat, max: nat)
    requires lo <= i <= |tok|
    ensures var r := RunsFrom(tok, lo, i, max, 0);
      var end := if |r| == 0 then lo else r[|r| - 1].hi;
      end <= |tok| && Sum(tok, end, |tok|) == 0
    decreases |tok| - i
  {
    var hi := Grow(tok, lo, i, max);
    GrowStops(tok, lo, i, max);
    if Sum(tok, lo, hi) > 0 && hi < |tok| {
      TailHasNoTokens(tok, hi, hi + 1, max);
      var r := RunsFrom(tok, lo, i, max, 0);
      assert r[1..] == RunsFrom(tok, hi, hi + 1, max, 0);
    }
  }

  /** The end of the last run. */
  function LastEnd(r: seq<Run>): nat {
    if r == [] then 0 else r[|r| - 1].hi
  }

  lemma {:induction false} NothingAfterLast(segments: seq<Segment>, max: nat)
    ensures var end := LastEnd(Runs(TokenCounts(segments), max, 0));
      end <= |segments| && Words(segments, 0, end) == Words(segments, 0, |segments|)
  {
    var tok := TokenCounts(segments);
    var end := LastEnd(Runs(tok, max, 0));
    TailHasNoTokens(tok, 0, 0, max);
    NoTokensNoWords(segments, end, |segments|);
    WordsSplit(segments, 0, end, |segments|);
  }

  lemma {:induction false} AllChunkWords(segments: seq<Segment>, r: seq<Run>, out: seq<Chunk>)
    requires Renders(segments, r, out)
    requires |r| > 0 ==> r[0].lo == 0
    requires forall j :: 0 < j < |r| ==> Abuts(r, j)
    ensures LastEnd(r) <= |segments| && AllWords(out) == Words(segments, 0, LastEnd(r))
  {
    ChunkWords(segments, r, out, |out|);
    assert out[..|out|] == out;
  }

  /** With overlap 0 the words of the chunks, one chunk after another, are the words of the transcript. */
  lemma {:induction false} NoOverlapKeepsWords(segments: seq<Segment>, max: nat, out: seq<Chunk>)
    requires Renders(segments, Runs(TokenCounts(segments), max, 0), out)
    ensures AllWords(out) == Words(segments, 0, |segments|)
  {
    var r := Runs(TokenCounts(segments), max, 0);
    RunsAreOrdered(TokenCounts(segments), max, 0);
    NoOverlapTokens(TokenCounts(segments), max);
    AllChunkWords(segments, r, out);
    NothingAfterLast(segments, max);
  }

  // ---------- Time stamps ----------

  /** Whisper's order: neither starts nor ends go back, and no segment ends before it starts. */
  predicate Sorted(segments: seq<Segment>) {
    && (forall i :: 0 <= i < |segments| ==> segments[i].start <= segments[i].end)
    && (forall i, j :: 0 <= i <= j < |segments| ==>
          segments[i].start <= segments[j].start && segments[i].end <= segments[j].end)
  }

  /** Chunk k neither starts nor ends before the chunk before it. */
  predicate NoEarlier(out: seq<Chunk>, k: int) {
    0 < k < |out| && out[k-1].startTime <= out[k].startTime && out[k-1].endTime <= out[k].endTime
  }

  /** Sorted segments give chunks that end after they start and whose starts and ends never go back. */
  lemma {:induction false} ChunkTimes(segments: seq<Segment>, max: nat, overlap: nat, out: seq<Chunk>)
    requires Sorted(segments) && Renders(segments, Runs(TokenCounts(segments), max, overlap), out)
    ensures forall k :: 0 <= k < |out| ==> out[k].startTime <= out[k].endTime
    ensures forall k :: 0 < k < |out| ==> NoEarlier(out, k)
  {
    var tok := TokenCounts(segments);
    RunsAreOrdered(tok, max, overlap);
    forall k | 0 < k < |out|
      ensures NoEarlier(out, k)
    {
      assert Follows(Runs(tok, max, overlap), k);
    }
  }

  /** [start, end] is the smallest interval that holds the segments of r. */
  ghost predicate Spans(segments: seq<Segment>, r: Run, start: real, end: real)
    requires r.hi <= |segments|
  {
    && (forall i :: r.lo <= i < r.hi ==> start <= segments[i].start && segments[i].end <= end)
    && (exists i :: r.lo <= i < r.hi && segments[i].start == start)
    && (exists i :: r.lo <= i < r.hi && segments[i].end == end)
  }

  /** From sorted segments every chunk's times span exactly the segments of its run. */
  lemma {:induction false} ChunkSpans(segments: seq<Segment>, max: nat, overlap: nat, out: seq<Chunk>, k: nat)
    requires Sorted(segments) && Renders(segments, Runs(TokenCounts(segments), max, overlap), out) && k < |out|
    ensures var q := Runs(TokenCounts(segments), max, overlap)[k];
      q.lo < q.hi <= |segments| && Spans(segments, q, out[k].startTime, out[k].endTime)
  {
    var q := Runs(TokenCounts(segments), max, overlap)[k];
    assert InRange(TokenCounts(segments), q);
    assert segments[q.lo].start == out[k].startTime && segments[q.hi - 1].end == out[k].endTime;
  }

  /** Chunk k has position k, the joined and trimmed text of its run, its tokens, its first start and its last end. */
  lemma {:induction false} ChunkMeans(segments: seq<Segment>, max: nat, overlap: nat, out: seq<Chunk>, k: nat)
    requires Renders(segments, Runs(TokenCounts(segments), max, overlap), out) && k < |out|
    ensures var q := Runs(TokenCounts(segments), max, overlap)[k];
      && q.lo < q.hi <= |segments| && out[k].order == k
      && out[k].text == TrimSpace(JoinText(segments, q.lo, q.hi))
      && Fields(out[k].text) == Words(segments, q.lo, q.hi)
      && out[k].tokens == Sum(TokenCounts(segments), q.lo, q.hi)
      && out[k].startTime == segments[q.lo].start && out[k].endTime == segments[q.hi - 1].end
  {
    var q := Runs(TokenCounts(segments), max, overlap)[k];
    assert InRange(TokenCounts(segments), q);
    FieldsOfJoin(segments, q.lo, q.hi);
  }

  /** The limits are taken as they are given where they make sense, and moved to the nearest that do where not. */
  lemma {:induction false} EffectiveParameters(maxTokens: int, overlap: int)
    ensures EffectiveMax(maxTokens) == if maxTokens >= 1 then maxTokens else 1
    ensures 0 <= overlap < maxTokens ==> EffectiveOverlap(maxTokens, overlap) == overlap
    ensures overlap < 0 ==> EffectiveOverlap(maxTokens, overlap) == 0
    ensures overlap >= maxTokens >= 1 ==> EffectiveOverlap(maxTokens, overlap) == maxTokens - 1
    ensures maxTokens < 1 ==> EffectiveOverlap(maxTokens, overlap) == 0
  {
  }

  // ---------- The loop ----------

  /** Behind curFirst there is a token left, so a suffix that starts after it is not the whole chunk. */
  lemma {:induction false} StillShort(tok: seq<nat>, lo: nat, curFirst: nat, carry: nat, i: nat, overlap: nat)
    requires lo <= curFirst < carry <= i <= |tok| && FirstToken(tok, lo, curFirst, i)
    requires Sum(tok, lo, i) > 0 && Sum(tok, carry, i) < overlap
    ensures Sum(tok, carry, i) < Wanted(tok, lo, i, overlap)
  {
    SumSplit(tok, lo, carry, i);
    SumAtMost(tok, lo, carry, curFirst);
  }

  /** The backtrack stops on a segment with tokens, or repeats nothing. */
  lemma {:induction false} CarryKeepsFirst(tok: seq<nat>, lo: nat, curFirst: nat, carry: nat, i: nat, overlap: nat)
    requires lo <= curFirst <= carry <= i <= |tok| && FirstToken(tok, lo, curFirst, i)
    requires Sum(tok, lo, i) > 0
    requires carry == curFirst || Sum(tok, carry, i) >= Wanted(tok, lo, i, overlap)
    requires forall d :: carry < d <= i ==> Sum(tok, d, i) < Wanted(tok, lo, i, overlap)
    ensures FirstToken(tok, carry, carry, i)
  {
    if curFirst < carry < i {
      SumSplit(tok, carry, carry + 1, i);
      assert Sum(tok, carry, carry + 1) == tok[carry];
      assert Sum(tok, carry + 1, i) < Wanted(tok, lo, i, overlap);
    }
  }

  /** The chunk in progress that holds the segments lo, ..., i - 1: not yet trimmed or numbered. */
  function Open(segments: seq<Segment>, lo: nat, i: nat): Chunk
    requires lo <= i <= |segments| && lo < |segments|
  {
    Chunk(0, JoinText(segments, lo, i), segments[lo].start, if lo < i then segments[i-1].end else 0.0,
          Sum(TokenCounts(segments), lo, i))
  }

  /** curFirst skips only blank segments, and stands on a segment with tokens if there is one. */
  ghost predicate FirstToken(tok: seq<nat>, lo: nat, curFirst: nat, i: nat)
    requires lo <= curFirst <= i <= |tok|
  {
    && Sum(tok, lo, curFirst) == 0
    && (Sum(tok, lo, i) > 0 ==> curFirst < i && tok[curFirst] > 0)
  }

  /** Walks back from i to the segment at which the next chunk starts. */
  method Backtrack(tok: seq<nat>, ghost lo: nat, curFirst: nat, i: nat, overlap: nat) returns (carry: nat)
    requires lo <= curFirst <= i <= |tok| && FirstToken(tok, lo, curFirst, i) && Sum(tok, lo, i) > 0
    ensures carry == Next(tok, lo, i, overlap)
    ensures FirstToken(tok, carry, carry, i)
  {
    ghost var want := Wanted(tok, lo, i, overlap);
    carry := i;
    var carried := 0;
    var j := i - 1;
    while j >= curFirst && carried < overlap
      invariant curFirst <= carry <= i && j == carry - 1
      invariant carried == Sum(tok, carry, i)
      invariant forall d :: carry < d <= i ==> Sum(tok, d, i) < want
    {
      StillShort(tok, lo, curFirst, carry, i, overlap);
      SumSplit(tok, j, j + 1, i);
      assert Sum(tok, j, j + 1) == tok[j];
      carried := carried + tok[j];
      carry := j;
      j := j - 1;
    }
    SumSplit(tok, lo, curFirst, i);
    CarryUnique(tok, lo, i, i, want, carry);
    CarryKeepsFirst(tok, lo, curFirst, carry, i, overlap);
  }

  /** Adds segment i to the current chunk. */
  method Add(segments: seq<Segment>, tok: seq<nat>, ghost lo: nat, i: nat, cur: Chunk) returns (next: Chunk)
    requires tok == TokenCounts(segments) && lo <= i < |segments| && cur == Open(segments, lo, i)
    ensures next == Open(segments, lo, i + 1)
  {
    next := cur.(text := cur.text + segments[i].text + " ", tokens := cur.tokens + tok[i], endTime := segments[i].end);
  }

  /** A new chunk that repeats the segments carry, ..., i - 1. */
  method Replay(segments: seq<Segment>, tok: seq<nat>, carry: nat, i: nat) returns (cur: Chunk)
    requires tok == TokenCounts(segments) && carry <= i < |segments|
    ensures cur == Open(segments, carry, i)
  {
    cur := Chunk(0, "", segments[carry].start, 0.0, 0);
    for j := carry to i
      invariant cur == Open(segments, carry, j)
    {
      cur := Add(segments, tok, carry, j, cur);
    }
  }

  lemma {:induction false} RendersAppend(segments: seq<Segment>, done: seq<Run>, out: seq<Chunk>, r: Run, c: Chunk)
    requires Renders(segments, done, out) && InRange(TokenCounts(segments), r) && c == Render(segments, r, |out|)
    ensures Renders(segments, done + [r], out + [c])
  {
  }

  /** Numbers, trims and appends the current chunk, unless it has no tokens. */
  method Flush(segments: seq<Segment>, ghost done: seq<Run>, ghost lo: nat, ghost i: nat, cur: Chunk, out: seq<Chunk>)
    returns (all: seq<Chunk>)
    requires Renders(segments, done, out) && lo < i <= |segments| && cur == Open(segments, lo, i)
    ensures Renders(segments, if cur.tokens == 0 then done else done + [Run(lo, i)], all)
  {
    if cur.tokens == 0 {
      return out;
    }
    var c := cur.(order := |out|, text := TrimSpace(cur.text));
    RendersAppend(segments, done, out, Run(lo, i), c);
    all := out + [c];
  }

  /** Emits the current chunk and opens one that repeats its tail. */
  method StartNext(segments: seq<Segment>, tok: seq<nat>, overlap: nat, ghost done: seq<Run>, ghost lo: nat,
                   curFirst: nat, i: nat, cur: Chunk, out: seq<Chunk>)
    returns (all: seq<Chunk>, carry: nat, next: Chunk)
    requires tok == TokenCounts(segments) && lo <= curFirst <= i < |segments| && lo < i
    requires cur == Open(segments, lo, i) && FirstToken(tok, lo, curFirst, i) && Renders(segments, done, out)
    requires cur.tokens > 0
    ensures Renders(segments, done + [Run(lo, i)], all)
    ensures carry == Next(tok, lo, i, overlap) && FirstToken(tok, carry, carry, i)
    ensures next == Open(segments, carry, i)
  {
    all := Flush(segments, done, lo, i, cur, out);
    carry := Backtrack(tok, lo, curFirst, i, overlap);
    next := Replay(segments, tok, carry, i);
  }

  /** Adding segment i: curFirst moves to it exactly when the chunk had no token yet. */
  lemma {:induction false} AddSegment(tok: seq<nat>, lo: nat, curFirst: nat, i: nat)
    requires lo <= curFirst <= i < |tok| && FirstToken(tok, lo, curFirst, i)
    ensures Sum(tok, lo, i + 1) == Sum(tok, lo, i) + tok[i]
    ensures FirstToken(tok, lo, if Sum(tok, lo, i + 1) == tok[i] then i else curFirst, i + 1)
  {
  }

  /** The runs flushed so far and those still to come are all the runs. */
  ghost predicate Pending(tok: seq<nat>, max: nat, overlap: nat, done: seq<Run>, lo: nat, i: nat)
    requires lo <= i <= |tok|
  {
    done + RunsFrom(tok, lo, i, max, overlap) == Runs(tok, max, overlap)
  }

  lemma {:induction false} PendingStep(tok: seq<nat>, max: nat, overlap: nat, done: seq<Run>, lo: nat, i: nat)
    requires lo <= i < |tok| && Pending(tok, max, overlap, done, lo, i)
    ensures if Sum(tok, lo, i) > 0 && Sum(tok, lo, i) + tok[i] > max then
        Pending(tok, max, overlap, done + [Run(lo, i)], Next(tok, lo, i, overlap), i + 1)
      else
        Pending(tok, max, overlap, done, lo, i + 1)
  {
  }

  lemma {:induction false} PendingEnd(tok: seq<nat>, max: nat, overlap: nat, done: seq<Run>, lo: nat)
    requires lo <= |tok| && Pending(tok, max, overlap, done, lo, |tok|)
    ensures Runs(tok, max, overlap) == if Sum(tok, lo, |tok|) == 0 then done else done + [Run(lo, |tok|)]
  {
  }

  /**
   * One pass over the segments, as the source walks them, with `curFirst` the index at which the backtrack
   * stops. `lo` is the true start of the current chunk; blank segments may lie between.
   */
  method Scan(segments: seq<Segment>, max: nat, overlap: nat) returns (out: seq<Chunk>)
    requires |segments| > 0
    ensures Renders(segments, Runs(TokenCounts(segments), max, overlap), out)
  {
    var tok := TokenCounts(segments);
    var cur := Chunk(0, "", segments[0].start, 0.0, 0);
    var curFirst := 0;
    ghost var lo: nat := 0;
    ghost var done: seq<Run> := [];
    out := [];
    for i := 0 to |segments|
      invariant lo <= curFirst <= i && (i > 0 ==> lo < i)
      invariant cur == Open(segments, lo, i)
      invariant FirstToken(tok, lo, curFirst, i)
      invariant Renders(segments, done, out)
      invariant Pending(tok, max, overlap, done, lo, i)
    {
      var tks := tok[i];
      PendingStep(tok, max, overlap, done, lo, i);
      if cur.tokens > 0 && cur.tokens + tks > max {
        out, curFirst, cur := StartNext(segments, tok, overlap, done, lo, curFirst, i, cur, out);
        done, lo := done + [Run(lo, i)], curFirst;
      }
      AddSegment(tok, lo, curFirst, i);
      cur := Add(segments, tok, lo, i, cur);
      if cur.order == 0 && cur.tokens == tks {
        curFirst := i;
      }
    }
    out := Flush(segments, done, lo, |segments|, cur, out);
    PendingEnd(tok, max, overlap, done, lo);
  }

  /** The chunker: the parameters are clamped, and no segments give no chunks. */
  method SplitIntoChunks(segments: seq<Segment>, maxTokens: int, overlap: int) returns (out: seq<Chunk>)
    ensures Renders(segments,
                    Runs(TokenCounts(segments), EffectiveMax(maxTokens), EffectiveOverlap(maxTokens, overlap)), out)
  {
    if |segments| == 0 {
      assert Runs([], EffectiveMax(maxTokens), EffectiveOverlap(maxTokens, overlap)) == [];
      return [];
    }
    var max, ov := maxTokens, overlap;
    if max < 1 {
      max := 1;
    }
    if ov < 0 {
      ov := 0;
    }
    if ov >= max {
      ov := max - 1;
    }
    out := Scan(segments, max, ov);
  }
}

/** Reassembly of embedding vectors (transcription/openai.go) and the batch loop around it (pipeline.go, step 5). */
module Embedding {
  import opened Collections
  import opened Wrappers

  type Vector = seq<real>

  /** One entry of the API's answer; the vector is missing when the answer holds null. */
  datatype Entry = Entry(index: int, vector: Option<Vector>)

  datatype Error = BadIndex(index: int) | MissingVector(position: nat) | CallFailed

  /** What one call to the API gives. */
  datatype Reply = HttpError | Answer(data: seq<Entry>)

  const BATCH_SIZE: nat := 96

  predicate AllInRange(n: nat, data: seq<Entry>) {
    forall k :: 0 <= k < |data| ==> 0 <= data[k].index < n
  }

  /** The vector of the last entry for position i. */
  function LastFor(data: seq<Entry>, i: nat): Option<Vector> {
    if data == [] then None
    else
      var e := data[|data| - 1];
      if e.index == i then e.vector else LastFor(data[..|data| - 1], i)
  }

  predicate Complete(n: nat, data: seq<Entry>) {
    forall i: nat :: i < n ==> LastFor(data, i).Some?
  }

  method EmbedBatch(n: nat, data: seq<Entry>) returns (r: Result<seq<Vector>, Error>)
    ensures r.Success? <==> AllInRange(n, data) && Complete(n, data)
    ensures r.Success? ==> |r.value| == n && forall i :: 0 <= i < n ==> Some(r.value[i]) == LastFor(data, i)
    ensures r.Failure? && !AllInRange(n, data) ==>
      exists k :: 0 <= k < |data| && AllInRange(n, data[..k]) && !(0 <= data[k].index < n) &&
                  r.error == BadIndex(data[k].index)
    ensures r.Failure? && AllInRange(n, data) ==>
      && r.error.MissingVector? && r.error.position < n && LastFor(data, r.error.position) == None
      && forall i :: 0 <= i < r.error.position ==> LastFor(data, i).Some?
  {
    var vecs := new Option<Vector>[n](_ => None);
    for k := 0 to |data|
      invariant AllInRange(n, data[..k])
      invariant forall i :: 0 <= i < n ==> vecs[i] == LastFor(data[..k], i)
    {
      assert data[..k+1][..k] == data[..k];
      var d := data[k];
      if d.index < 0 || d.index >= n {
        assert !AllInRange(n, data);
        return Failure(BadIndex(d.index));
      }
      vecs[d.index] := d.vector;
    }
    assert data[..|data|] == data;
    var out: seq<Vector> := [];
    for i := 0 to n
      invariant |out| == i && forall j :: 0 <= j < i ==> Some(out[j]) == vecs[j]
      invariant forall j :: 0 <= j < n ==> vecs[j] == LastFor(data, j)
    {
      if vecs[i].None? {
        return Failure(MissingVector(i));
      }
      out := out + [vecs[i].value];
    }
    return Success(out);
  }

  // ---------- The order of the answer does not matter ----------

  predicate DistinctIndices(data: seq<Entry>) {
    forall j, k :: 0 <= j < k < |data| ==> data[j].index != data[k].index
  }

  lemma {:induction false} LastForIsOnly(data: seq<Entry>, i: nat)
    requires DistinctIndices(data)
    ensures forall v :: Entry(i, v) in data ==> LastFor(data, i) == v
    ensures (forall v :: Entry(i, v) !in data) ==> LastFor(data, i) == None
  {
    if data != [] {
      var n := |data| - 1;
      var e, rest := data[n], data[..n];
      LastForIsOnly(rest, i);
      assert data == rest + [e];
      forall v | Entry(i, v) in data
        ensures LastFor(data, i) == v
      {
        if e.index == i {
          var k :| 0 <= k < |data| && data[k] == Entry(i, v);
          assert k == n;
        }
      }
      if e.index == i {
        assert Entry(i, e.vector) in data;
      }
    }
  }

  /** With distinct indices every permutation of the answer succeeds alike, with the same vectors. */
  lemma {:induction false} OrderIrrelevant(n: nat, data: seq<Entry>, permuted: seq<Entry>)
    requires DistinctIndices(data) && multiset(permuted) == multiset(data)
    ensures AllInRange(n, permuted) && Complete(n, permuted) <==> AllInRange(n, data) && Complete(n, data)
    ensures forall i: nat :: LastFor(permuted, i) == LastFor(data, i)
  {
    SameEntries(data, permuted);
    PermutedDistinct(data, permuted);
    forall i: nat
      ensures LastFor(permuted, i) == LastFor(data, i)
    {
      LastForIsOnly(data, i);
      LastForIsOnly(permuted, i);
      if v :| Entry(i, v) in data {
        assert Entry(i, v) in permuted;
      }
    }
    InRangeByMembership(n, data);
    InRangeByMembership(n, permuted);
  }

  lemma {:induction false} InRangeByMembership(n: nat, data: seq<Entry>)
    ensures AllInRange(n, data) <==> forall e :: e in data ==> 0 <= e.index < n
  {
  }

  lemma {:induction false} SameEntries(data: seq<Entry>, permuted: seq<Entry>)
    requires multiset(permuted) == multiset(data)
    ensures |permuted| == |data|
    ensures forall e :: e in data <==> e in permuted
  {
    assert |multiset(permuted)| == |permuted| && |multiset(data)| == |data|;
    forall e
      ensures e in data <==> e in permuted
    {
      assert e in data <==> e in multiset(data);
      assert e in permuted <==> e in multiset(permuted);
    }
  }

  function Indices(data: seq<Entry>): set<int> {
    set e | e in data :: e.index
  }

  lemma {:induction false} IndicesBound(data: seq<Entry>)
    ensures |Indices(data)| <= |data|
  {
    if data != [] {
      var n := |data| - 1;
      IndicesBound(data[..n]);
      assert data == data[..n] + [data[n]];
      assert Indices(data) == Indices(data[..n]) + {data[n].index};
    }
  }

  lemma {:induction false} DistinctCount(data: seq<Entry>)
    requires DistinctIndices(data)
    ensures |Indices(data)| == |data|
  {
    if data != [] {
      var n := |data| - 1;
      var rest := data[..n];
      DistinctCount(rest);
      assert data == rest + [data[n]];
      assert Indices(data) == Indices(rest) + {data[n].index};
      forall d | d in rest
        ensures d.index != data[n].index
      {
        var k :| 0 <= k < n && rest[k] == d;
        assert data[k] == d;
      }
    }
  }

  lemma {:induction false} RepeatedCount(data: seq<Entry>, j: nat, k: nat)
    requires j < k < |data| && data[j].index == data[k].index
    ensures |Indices(data)| < |data|
  {
    var rest := data[..k] + data[k+1..];
    IndicesBound(rest);
    assert forall e :: e in data ==> e.index in Indices(rest) by {
      forall e | e in data
        ensures e.index in Indices(rest)
      {
        var m :| 0 <= m < |data| && data[m] == e;
        if m == k {
          assert rest[j] in rest;
        } else {
          assert rest[if m < k then m else m - 1] in rest;
        }
      }
    }
    assert Indices(data) <= Indices(rest);
    SubsetSize(Indices(data), Indices(rest));
  }

  lemma {:induction false} PermutedDistinct(data: seq<Entry>, permuted: seq<Entry>)
    requires DistinctIndices(data) && multiset(permuted) == multiset(data)
    ensures DistinctIndices(permuted)
  {
    SameEntries(data, permuted);
    DistinctCount(data);
    assert Indices(permuted) == Indices(data);
    forall j, k | 0 <= j < k < |permuted|
      ensures permuted[j].index != permuted[k].index
    {
      if permuted[j].index == permuted[k].index {
        RepeatedCount(permuted, j, k);
      }
    }
  }

  // ---------- The batch loop ----------

  /** The size of batch b of n texts: the last one may be short. */
  function SizeOfBatch(n: nat, b: nat): (size: nat) {
    if n <= BATCH_SIZE * b then 0
    else if n < BATCH_SIZE * (b + 1) then n - BATCH_SIZE * b
    else BATCH_SIZE
  }

  /** The b-th call for n texts gave a vector for each of them. */
  predicate BatchSucceeds(n: nat, replies: seq<Reply>, b: nat)
    requires b < |replies|
  {
    && replies[b].Answer?
    && AllInRange(SizeOfBatch(n, b), replies[b].data)
    && Complete(SizeOfBatch(n, b), replies[b].data)
  }

  /** Every call that n texts take succeeds. */
  predicate AllBatchesSucceed(n: nat, replies: seq<Reply>) {
    forall b :: 0 <= b < |replies| && BATCH_SIZE * b < n ==> BatchSucceeds(n, replies, b)
  }

  /**
   * One call per batch of 96. It succeeds exactly if every call does; text i then holds what call i / 96
   * answered for position i % 96.
   */
  method EmbedAll(texts: seq<string>, replies: seq<Reply>) returns (r: Result<seq<Vector>, Error>)
    requires |texts| <= BATCH_SIZE * |replies|
    ensures r.Success? <==> AllBatchesSucceed(|texts|, replies)
    ensures r.Success? ==> |r.value| == |texts|
    ensures r.Success? ==> forall i :: 0 <= i < |texts| ==>
      && i / 96 < |replies| && replies[i / 96].Answer?
      && Some(r.value[i]) == LastFor(replies[i / 96].data, i % 96)
  {
    var embeddings := new Vector[|texts|](_ => []);
    var start, b := 0, 0;
    while start < |texts|
      invariant start == BATCH_SIZE * b && b <= |replies|
      invariant forall c :: 0 <= c < b ==> BatchSucceeds(|texts|, replies, c)
      invariant forall i :: 0 <= i < |texts| && i < start ==>
        && i / BATCH_SIZE < b && replies[i / BATCH_SIZE].Answer?
        && Some(embeddings[i]) == LastFor(replies[i / BATCH_SIZE].data, i % BATCH_SIZE)
      decreases |texts| - start
    {
      var end := start + BATCH_SIZE;
      if end > |texts| {
        end := |texts|;
      }
      assert SizeOfBatch(|texts|, b) == end - start;
      if replies[b].HttpError? {
        assert !BatchSucceeds(|texts|, replies, b);
        return Failure(CallFailed);
      }
      var vecs := EmbedBatch(end - start, replies[b].data);
      if vecs.Failure? {
        assert !BatchSucceeds(|texts|, replies, b);
        return Failure(vecs.error);
      }
      forall i | start <= i < end {
        embeddings[i] := vecs.value[i - start];
      }
      forall i | start <= i < end
        ensures i / BATCH_SIZE == b && i % BATCH_SIZE == i - start
      {
      }
      b, start := b + 1, start + BATCH_SIZE;
    }
    return Success(embeddings[..]);
  }

  /** Every vector an answer holds is the embedding of the text at its index in the batch. */
  ghost predicate Honest(embed: string -> Vector, texts: seq<string>, replies: seq<Reply>) {
    forall b, k :: 0 <= b < |replies| && replies[b].Answer? && 0 <= k < |replies[b].data| ==>
      var e := replies[b].data[k];
      0 <= e.index && BATCH_SIZE * b + e.index < |texts| && e.vector.Some? ==>
        e.vector.value == embed(texts[BATCH_SIZE * b + e.index])
  }

  lemma {:induction false} LastForIsMember(data: seq<Entry>, i: nat)
    requires LastFor(data, i).Some?
    ensures exists k :: 0 <= k < |data| && data[k] == Entry(i, LastFor(data, i))
  {
    var n := |data| - 1;
    if data[n].index == i {
      assert data[n] == Entry(i, LastFor(data, i));
    } else {
      LastForIsMember(data[..n], i);
      var k :| 0 <= k < n && data[..n][k] == Entry(i, LastFor(data, i));
      assert data[k] == Entry(i, LastFor(data, i));
    }
  }

  /** With an honest API every text ends up with its own vector, in whatever order each answer comes. */
  method EmbedTexts(texts: seq<string>, replies: seq<Reply>, ghost embed: string -> Vector)
    returns (r: Result<seq<Vector>, Error>)
    requires |texts| <= BATCH_SIZE * |replies| && Honest(embed, texts, replies)
    ensures r.Success? <==> AllBatchesSucceed(|texts|, replies)
    ensures r.Success? ==> |r.value| == |texts| && forall i :: 0 <= i < |texts| ==> r.value[i] == embed(texts[i])
  {
    r := EmbedAll(texts, replies);
    if r.Success? {
      forall i | 0 <= i < |texts|
        ensures r.value[i] == embed(texts[i])
      {
        var b, j := i / BATCH_SIZE, i % BATCH_SIZE;
        assert i == BATCH_SIZE * b + j;
        LastForIsMember(replies[b].data, j);
        var k :| 0 <= k < |replies[b].data| && replies[b].data[k] == Entry(j, LastFor(replies[b].data, j));
      }
    }
  }
}

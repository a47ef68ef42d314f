/** A transcription job from its audio parts to the stored rows (transcription/pipeline.go). */
module Pipeline {
  import opened Wrappers
  import Chunker
  import Embedding
  import Store = TranscriptStore
  import Transcript

  const MAX_TOKENS: int := 500
  const OVERLAP: int := 50

  /** The chunks of a job: one per run of the merged transcript. */
  function JobChunks(parts: seq<Transcript.Part>): (chunks: seq<Chunker.Chunk>)
    ensures Chunker.Renders(Transcript.Merged(parts), JobRuns(parts), chunks)
  {
    Chunker.RunsAreOrdered(Chunker.TokenCounts(Transcript.Merged(parts)), MAX_TOKENS, OVERLAP);
    var all, runs := Transcript.Merged(parts), JobRuns(parts);
    seq(|runs|, k requires 0 <= k < |runs| => Chunker.Render(all, runs[k], k))
  }

  function JobRuns(parts: seq<Transcript.Part>): seq<Chunker.Run> {
    Chunker.Runs(Chunker.TokenCounts(Transcript.Merged(parts)), MAX_TOKENS, OVERLAP)
  }

  /** With segments of at most s tokens no stored chunk has more than 500 tokens or 2s + 49, whichever is more. */
  lemma {:induction false} JobChunkSize(parts: seq<Transcript.Part>, s: nat, k: nat)
    requires forall i :: 0 <= i < |Transcript.Merged(parts)| ==>
      Chunker.ApproxTokens(Transcript.Merged(parts)[i].text) <= s
    requires k < |JobChunks(parts)|
    ensures JobChunks(parts)[k].tokens <= 500 || JobChunks(parts)[k].tokens <= 2 * s + 49
  {
    var all := Transcript.Merged(parts);
    forall i | 0 <= i < |all|
      ensures Chunker.TokenCounts(all)[i] <= s
    {
      Chunker.TokenCountAt(all, i);
    }
    Chunker.RunsAreBounded(Chunker.TokenCounts(all), MAX_TOKENS, OVERLAP, s, k);
  }

  ghost predicate FitsAlways(w: nat) {
    forall segments :: Chunker.WordsAtMost(segments, w) ==>
      Chunker.AllFit(Chunker.TokenCounts(segments), Chunker.Runs(Chunker.TokenCounts(segments), MAX_TOKENS, OVERLAP),
                     MAX_TOKENS)
  }

  lemma {:induction false} LongSegmentsExceed(w: nat)
    requires w >= 174
    ensures !FitsAlways(w)
  {
    var segments := Chunker.BracketedSegments(w, OVERLAP - 1);
    Chunker.BracketedExceeds(w * 13 / 10, MAX_TOKENS, OVERLAP);
  }

  /** With the constants in use all chunks have at most 500 tokens, always, exactly if no segment has over 173 words. */
  lemma {:induction false} ChunksFitExactly(w: nat)
    ensures FitsAlways(w) <==> w <= 173
  {
    if w <= 173 {
      forall segments | Chunker.WordsAtMost(segments, w)
        ensures Chunker.AllFit(Chunker.TokenCounts(segments),
                               Chunker.Runs(Chunker.TokenCounts(segments), MAX_TOKENS, OVERLAP), MAX_TOKENS)
      {
        Chunker.TokensAtMost(segments, w);
        Chunker.SizeGuarantee(w * 13 / 10, MAX_TOKENS, OVERLAP);
      }
    } else {
      LongSegmentsExceed(w);
    }
  }

  function Texts(chunks: seq<Chunker.Chunk>): (texts: seq<string>)
    ensures |texts| == |chunks| && forall k :: 0 <= k < |chunks| ==> texts[k] == chunks[k].text
  {
    seq(|chunks|, k requires 0 <= k < |chunks| => chunks[k].text)
  }

  /** What is stored for the chunks when every text has the vector that `embed` gives it. */
  ghost function Contents(chunks: seq<Chunker.Chunk>, embed: string -> Embedding.Vector): (contents: seq<Store.Content>)
    ensures |contents| == |chunks|
    ensures forall k :: 0 <= k < |chunks| ==>
      contents[k] == Store.Content(chunks[k].text, chunks[k].startTime, chunks[k].endTime, embed(chunks[k].text))
  {
    seq(|chunks|, k requires 0 <= k < |chunks| =>
      Store.Content(chunks[k].text, chunks[k].startTime, chunks[k].endTime, embed(chunks[k].text)))
  }

  /** The rows of video v: one transcript, of attempt a, with these contents in order. */
  predicate Holds(db: Store.Db, v: nat, key: Store.Key, lesson: nat, a: nat, contents: seq<Store.Content>) {
    && v in db.videos && db.videos[v] == Store.Video(key, lesson, Store.Completed)
    && Store.TranscriptsOf(db, v) == {Store.Transcript(a, v)}
    && Store.ChunksOf(db, v) == Store.Rows(contents, |contents|, v, a, lesson)
  }

  lemma {:induction false} ReplacedHolds(db: Store.Db, v: nat, a: nat, j: nat, job: Store.Job,
                                         contents: seq<Store.Content>)
    ensures var db' := Store.Replaced(db, a, Store.Own(db, j, contents, v), job);
      Holds(db', v, job.key, job.lesson, a, contents) && OthersKept(db, db', v)
  {
  }

  /** All rows but those of video v are the same. */
  ghost predicate OthersKept(db: Store.Db, db': Store.Db, v: nat) {
    && (forall w: nat :: w != v ==> (w in db'.videos <==> w in db.videos))
    && (forall w: nat :: w != v && w in db.videos && w in db'.videos ==> db'.videos[w] == db.videos[w])
    && (forall r: Store.Transcript :: r.video != v ==> (r in db'.transcripts <==> r in db.transcripts))
    && (forall c: Store.Chunk :: c.video != v ==> (c in db'.chunks <==> c in db.chunks))
  }

  /** The job gets as far as storing: there is something to transcribe, something to store and a vector for each. */
  predicate Embeds(parts: seq<Transcript.Part>, replies: seq<Embedding.Reply>) {
    parts != [] && JobChunks(parts) != [] && Embedding.AllBatchesSucceed(|JobChunks(parts)|, replies)
  }

  /**
   * The job: merge, chunk, embed, store. It stores exactly if every step before and every statement succeeds; what
   * the store then holds for the job's URL is exactly the chunks of the merged transcript, numbered in order, each
   * with the vector of its own text. It succeeds exactly if besides it can be marked as completed.
   */
  method ExecuteJob(store: Store.Store, job: Store.Job, parts: seq<Transcript.Part>, replies: seq<Embedding.Reply>,
                    faults: Store.Faults, j: nat, a: nat, ghost embed: string -> Embedding.Vector, ghost s: Store.State)
    returns (ok: bool, ghost trace: seq<Store.Step>)
    requires Store.Shows(s, store.db, store.flagged, store.completed)
    requires a == |s.attempts| && j < |s.jobs| && s.jobs[j] == job && Store.Untouched(s, job.key)
    requires |JobChunks(parts)| <= Embedding.BATCH_SIZE * |replies|
    requires Embedding.Honest(embed, Texts(JobChunks(parts)), replies)
    modifies store
    ensures Store.ValidRun(s, trace) && Store.Shows(Store.Run(s, trace), store.db, store.flagged, store.completed)
    ensures ok <==> Embeds(parts, replies) && faults.failing > 6 && faults.completes
    ensures Embeds(parts, replies) && faults.failing > 6 ==>
      && (exists v ::
            Store.UpsertReturns(old(store.db), job.key, a, v) && OthersKept(old(store.db), store.db, v) &&
            Holds(store.db, v, job.key, job.lesson, a, Contents(JobChunks(parts), embed)))
      && store.flagged == old(store.flagged) + (if faults.flags then {job.lesson} else {})
      && store.completed == old(store.completed) + (if faults.completes then {j} else {})
    ensures !Embeds(parts, replies) || faults.failing <= 6 ==>
      store.db == old(store.db) && store.flagged == old(store.flagged) && store.completed == old(store.completed)
  {
    trace := [];
    if parts == [] {
      return false, trace;
    }
    var chunks, elapsed := Transcript.MergeAndChunk(parts, MAX_TOKENS, OVERLAP);
    assert chunks == JobChunks(parts);
    if chunks == [] {
      return false, trace;
    }
    var vectors := Embedding.EmbedTexts(Texts(chunks), replies, embed);
    if vectors.Failure? {
      return false, trace;
    }
    var contents := seq(|chunks|, k requires 0 <= k < |chunks| =>
      Store.Content(chunks[k].text, chunks[k].startTime, chunks[k].endTime, vectors.value[k]));
    assert contents == Contents(chunks, embed);
    ghost var before := store.db;
    ok, trace := Store.ExecuteJob(store, job, contents, faults, j, a, s);
    if faults.failing > 6 {
      ghost var v :| Store.UpsertReturns(before, job.key, a, v) &&
        store.db == Store.Replaced(before, a, Store.Own(before, j, contents, v), job);
      ReplacedHolds(before, v, a, j, job, contents);
    }
  }
}

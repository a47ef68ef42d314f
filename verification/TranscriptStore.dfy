/**
 * Storing transcripts (transcription/pipeline.go, sql.go): the statements of any number of attempts, at any jobs,
 * interleave; each attempt replaces the rows of its video in one transaction, which may abort.
 */
module TranscriptStore {
  /** What the unique index on videos is over. */
  datatype Key = Key(tenant: nat, url: nat)

  datatype Job = Job(key: Key, lesson: nat)

  datatype VideoStatus = GeneratingEmbeddings | Completed

  datatype Video = Video(key: Key, lesson: nat, status: VideoStatus)

  datatype Transcript = Transcript(id: nat, video: nat)

  datatype Content = Content(text: string, startTime: real, endTime: real, vector: seq<real>)

  datatype Chunk = Chunk(video: nat, transcript: nat, lesson: nat, order: nat, content: Content)

  /** The committed rows. */
  datatype Db = Db(videos: map<nat, Video>, transcripts: set<Transcript>, chunks: set<Chunk>)

  datatype Phase =
    | Prepared
    | Upserted | ChunksDeleted | TranscriptsDeleted | Copying(n: nat) | Marked
    | Committed | Flagged
    | Finished | Aborted

  /**
   * An attempt at a job. The ids it generates for a video and a transcript are both its own number: all that
   * matters about them is that no other attempt generates them.
   */
  datatype Attempt = Attempt(job: nat, contents: seq<Content>, phase: Phase, video: nat,
                             oldChunks: set<Chunk>, oldTranscripts: set<Transcript>)

  datatype State = State(jobs: seq<Job>, db: Db, attempts: seq<Attempt>, flagged: set<nat>, completed: set<nat>)

  datatype Step =
    | Enqueue(row: Job)
    | Prepare(job: nat, contents: seq<Content>)
    | Upsert(a: nat, video: nat)
    | DeleteChunks(a: nat)
    | DeleteTranscripts(a: nat)
    | InsertTranscript(a: nat)
    | CopyChunk(a: nat)
    | MarkVideo(a: nat)
    | Commit(a: nat)
    | Abort(a: nat)
    | FlagLesson(a: nat, ok: bool)
    | CompleteJob(a: nat, ok: bool)

  const EMPTY: State := State([], Db(map[], {}, {}), [], {}, {})

  // ---------- Rows ----------

  function ChunksOf(db: Db, v: nat): set<Chunk> {
    set c | c in db.chunks && c.video == v
  }

  function TranscriptsOf(db: Db, v: nat): set<Transcript> {
    set t | t in db.transcripts && t.video == v
  }

  /** The first n rows an attempt copies in: one per chunk, numbered in order. */
  function Rows(contents: seq<Content>, n: nat, video: nat, transcript: nat, lesson: nat): set<Chunk>
    requires n <= |contents|
  {
    set i | 0 <= i < n :: Chunk(video, transcript, lesson, i, contents[i])
  }

  predicate HasVideo(db: Db, key: Key) {
    exists v :: v in db.videos && db.videos[v].key == key
  }

  // ---------- The steps ----------

  predicate InTx(p: Phase) {
    p.Upserted? || p.ChunksDeleted? || p.TranscriptsDeleted? || p.Copying? || p.Marked?
  }

  /** The job's rows are committed, and the attempt may still have flags to set. */
  predicate Stored(p: Phase) {
    p.Committed? || p.Flagged? || p.Finished?
  }

  predicate In(s: State, a: nat, p: Phase) {
    a < |s.attempts| && s.attempts[a].phase == p && s.attempts[a].job < |s.jobs|
  }

  function JobOf(s: State, a: nat): Job
    requires a < |s.attempts| && s.attempts[a].job < |s.jobs|
  {
    s.jobs[s.attempts[a].job]
  }

  /** The attempt has upserted its video and holds the lock on that row. */
  predicate Holds(s: State, a: nat, key: Key) {
    a < |s.attempts| && s.attempts[a].job < |s.jobs| && InTx(s.attempts[a].phase) && JobOf(s, a).key == key
  }

  /** ON CONFLICT: the row that has the key, or a new one under the id that attempt a generated. */
  predicate UpsertReturns(db: Db, key: Key, a: nat, v: nat) {
    if HasVideo(db, key) then v in db.videos && db.videos[v].key == key else v == a
  }

  /** No attempt holds the lock on the row with this key. */
  predicate Untouched(s: State, key: Key) {
    forall b: nat :: b < |s.attempts| ==> !Holds(s, b, key)
  }

  predicate Enabled(s: State, step: Step) {
    match step
    case Enqueue(_) => true
    case Prepare(job, contents) => job < |s.jobs| && contents != []
    case Upsert(a, v) =>
      && In(s, a, Prepared)
      && Untouched(s, JobOf(s, a).key)
      && UpsertReturns(s.db, JobOf(s, a).key, a, v)
    case DeleteChunks(a) => In(s, a, Upserted)
    case DeleteTranscripts(a) => In(s, a, ChunksDeleted)
    case InsertTranscript(a) => In(s, a, TranscriptsDeleted)
    case CopyChunk(a) =>
      a < |s.attempts| && s.attempts[a].phase.Copying? && s.attempts[a].phase.n < |s.attempts[a].contents|
    case MarkVideo(a) => a < |s.attempts| && s.attempts[a].phase == Copying(|s.attempts[a].contents|)
    case Commit(a) => In(s, a, Marked)
    case Abort(a) => a < |s.attempts| && (s.attempts[a].phase.Prepared? || InTx(s.attempts[a].phase))
    case FlagLesson(a, _) => In(s, a, Committed)
    case CompleteJob(a, _) => In(s, a, Flagged)
  }

  function At(s: State, a: nat, p: Phase): State
    requires a < |s.attempts|
  {
    s.(attempts := s.attempts[a := s.attempts[a].(phase := p)])
  }

  /** What the commit of attempt a makes visible. */
  function Replaced(db: Db, a: nat, p: Attempt, job: Job): Db {
    Db(db.videos[p.video := Video(job.key, job.lesson, Completed)],
       db.transcripts - p.oldTranscripts + {Transcript(a, p.video)},
       db.chunks - p.oldChunks + Rows(p.contents, |p.contents|, p.video, a, job.lesson))
  }

  function Apply(s: State, step: Step): State
    requires Enabled(s, step)
  {
    match step
    case Enqueue(row) => s.(jobs := s.jobs + [row])
    case Prepare(job, contents) => s.(attempts := s.attempts + [Attempt(job, contents, Prepared, 0, {}, {})])
    case Upsert(a, v) => s.(attempts := s.attempts[a := s.attempts[a].(phase := Upserted, video := v)])
    case DeleteChunks(a) =>
      s.(attempts := s.attempts[a := s.attempts[a].(phase := ChunksDeleted,
                                                    oldChunks := ChunksOf(s.db, s.attempts[a].video))])
    case DeleteTranscripts(a) =>
      s.(attempts := s.attempts[a := s.attempts[a].(phase := TranscriptsDeleted,
                                                    oldTranscripts := TranscriptsOf(s.db, s.attempts[a].video))])
    case InsertTranscript(a) => At(s, a, Copying(0))
    case CopyChunk(a) => At(s, a, Copying(s.attempts[a].phase.n + 1))
    case MarkVideo(a) => At(s, a, Marked)
    case Commit(a) => At(s, a, Phase.Committed).(db := Replaced(s.db, a, s.attempts[a], JobOf(s, a)))
    case Abort(a) => At(s, a, Aborted)
    case FlagLesson(a, ok) => At(s, a, Flagged).(flagged := s.flagged + if ok then {JobOf(s, a).lesson} else {})
    case CompleteJob(a, ok) => At(s, a, Finished).(completed := s.completed + if ok then {s.attempts[a].job} else {})
  }

  predicate ValidRun(s: State, steps: seq<Step>)
    decreases |steps|
  {
    steps == [] || (Enabled(s, steps[0]) && ValidRun(Apply(s, steps[0]), steps[1..]))
  }

  function Run(s: State, steps: seq<Step>): State
    requires ValidRun(s, steps)
    decreases |steps|
  {
    if steps == [] then s else Run(Apply(s, steps[0]), steps[1..])
  }

  // ---------- What every run keeps ----------

  /** All that is stored for video v was stored by attempt t, and t stored all it had. */
  predicate StoredBy(s: State, v: nat, t: nat) {
    && t < |s.attempts| && s.attempts[t].job < |s.jobs| && Stored(s.attempts[t].phase)
    && v in s.db.videos && s.db.videos[v] == Video(JobOf(s, t).key, JobOf(s, t).lesson, VideoStatus.Completed)
    && s.attempts[t].video == v && s.attempts[t].contents != []
    && TranscriptsOf(s.db, v) == {Transcript(t, v)}
    && ChunksOf(s.db, v) == Rows(s.attempts[t].contents, |s.attempts[t].contents|, v, t, JobOf(s, t).lesson)
  }

  ghost predicate VideoInv(s: State, v: nat) {
    && v < |s.attempts| && Stored(s.attempts[v].phase)
    && exists t: nat :: StoredBy(s, v, t)
  }

  predicate UniqueKeys(db: Db) {
    forall v, w :: v in db.videos && w in db.videos && db.videos[v].key == db.videos[w].key ==> v == w
  }

  predicate NoDangling(db: Db) {
    && (forall t :: t in db.transcripts ==> t.video in db.videos)
    && (forall c :: c in db.chunks ==> c.video in db.videos)
  }

  ghost predicate DbInv(s: State) {
    UniqueKeys(s.db) && NoDangling(s.db) && forall v :: v in s.db.videos ==> VideoInv(s, v)
  }

  /** Attempt a knows the id of its video and what was stored for it when it deleted. */
  predicate TxInv(s: State, a: nat)
    requires a < |s.attempts| && s.attempts[a].job < |s.jobs|
  {
    var p := s.attempts[a];
    && UpsertReturns(s.db, JobOf(s, a).key, a, p.video)
    && (!p.phase.Upserted? ==> p.oldChunks == ChunksOf(s.db, p.video))
    && (!p.phase.Upserted? && !p.phase.ChunksDeleted? ==> p.oldTranscripts == TranscriptsOf(s.db, p.video))
  }

  predicate AttemptInv(s: State, a: nat) {
    && a < |s.attempts| && s.attempts[a].job < |s.jobs| && s.attempts[a].contents != []
    && (InTx(s.attempts[a].phase) ==> TxInv(s, a))
    && (Stored(s.attempts[a].phase) ==> HasVideo(s.db, JobOf(s, a).key))
  }

  /** The row lock. */
  ghost predicate Exclusive(s: State) {
    forall a: nat, b: nat, key: Key :: Holds(s, a, key) && Holds(s, b, key) ==> a == b
  }

  predicate JobCovered(s: State, j: nat) {
    j < |s.jobs| && HasVideo(s.db, s.jobs[j].key)
  }

  ghost predicate LessonCovered(s: State, lesson: nat) {
    exists j: nat :: JobCovered(s, j) && s.jobs[j].lesson == lesson
  }

  ghost predicate FlagInv(s: State) {
    && (forall j :: j in s.completed ==> JobCovered(s, j))
    && (forall lesson :: lesson in s.flagged ==> LessonCovered(s, lesson))
  }

  ghost predicate Inv(s: State) {
    && DbInv(s)
    && (forall a: nat :: a < |s.attempts| ==> AttemptInv(s, a))
    && Exclusive(s)
    && FlagInv(s)
  }

  // ---------- Steps other than a commit ----------

  /** What was stored stays stored by whom it was. */
  ghost predicate Grows(s: State, t: State) {
    && s.jobs <= t.jobs && |s.attempts| <= |t.attempts|
    && forall a :: 0 <= a < |s.attempts| && Stored(s.attempts[a].phase) ==>
         && Stored(t.attempts[a].phase) && t.attempts[a].video == s.attempts[a].video
         && t.attempts[a].job == s.attempts[a].job && t.attempts[a].contents == s.attempts[a].contents
  }

  lemma {:induction false} VideoKeeps(s: State, t: State, v: nat)
    requires VideoInv(s, v) && Grows(s, t) && v in t.db.videos && t.db.videos[v] == s.db.videos[v]
    requires ChunksOf(t.db, v) == ChunksOf(s.db, v) && TranscriptsOf(t.db, v) == TranscriptsOf(s.db, v)
    ensures VideoInv(t, v)
  {
    var w: nat :| StoredBy(s, v, w);
    assert StoredBy(t, v, w);
  }

  lemma {:induction false} DbKeeps(s: State, t: State)
    requires DbInv(s) && Grows(s, t) && t.db == s.db
    ensures DbInv(t)
  {
    forall v | v in t.db.videos
      ensures VideoInv(t, v)
    {
      VideoKeeps(s, t, v);
    }
  }

  lemma {:induction false} FlagsKeep(s: State, t: State)
    requires FlagInv(s) && s.jobs <= t.jobs && t.flagged == s.flagged && t.completed == s.completed
    requires forall j: nat :: JobCovered(s, j) ==> JobCovered(t, j)
    ensures FlagInv(t)
  {
  }

  /** Attempt a moves on without touching the database. */
  lemma {:induction false} MoveKeeps(s: State, t: State, a: nat)
    requires Inv(s) && t.db == s.db && t.jobs == s.jobs && a < |s.attempts| == |t.attempts|
    requires forall b :: 0 <= b < |s.attempts| && b != a ==> t.attempts[b] == s.attempts[b]
    requires t.attempts[a].job == s.attempts[a].job && t.attempts[a].contents == s.attempts[a].contents
    requires Stored(s.attempts[a].phase) ==> Stored(t.attempts[a].phase) && t.attempts[a].video == s.attempts[a].video
    requires s.attempts[a].job < |s.jobs| && AttemptInv(t, a) && FlagInv(t)
    requires InTx(t.attempts[a].phase) ==>
      InTx(s.attempts[a].phase) || Untouched(s, JobOf(s, a).key)
    ensures Inv(t)
  {
    DbKeeps(s, t);
    forall b: nat | b < |t.attempts|
      ensures AttemptInv(t, b)
    {
      assert AttemptInv(s, b);
    }
    forall b: nat, c: nat, key: Key | Holds(t, b, key) && Holds(t, c, key)
      ensures b == c
    {
      MoveExclusive(s, t, a, b, c, key);
    }
  }

  lemma {:induction false} MoveExclusive(s: State, t: State, a: nat, b: nat, c: nat, key: Key)
    requires Exclusive(s) && t.jobs == s.jobs && a < |s.attempts| == |t.attempts|
    requires forall e :: 0 <= e < |s.attempts| && e != a ==> t.attempts[e] == s.attempts[e]
    requires t.attempts[a].job == s.attempts[a].job < |s.jobs|
    requires InTx(t.attempts[a].phase) ==>
      InTx(s.attempts[a].phase) || Untouched(s, JobOf(s, a).key)
    requires Holds(t, b, key) && Holds(t, c, key)
    ensures b == c
  {
    assert b != a ==> Holds(s, b, key);
    assert c != a ==> Holds(s, c, key);
    if b == a || c == a {
      assert JobOf(s, a).key == JobOf(t, a).key == key;
      assert InTx(s.attempts[a].phase) ==> Holds(s, a, key);
      assert c != a ==> c < |s.attempts|;
      assert b != a ==> b < |s.attempts|;
    }
  }

  lemma {:induction false} EnqueueStep(s: State, row: Job)
    requires Inv(s)
    ensures Inv(Apply(s, Enqueue(row)))
  {
    var t := Apply(s, Enqueue(row));
    DbKeeps(s, t);
    FlagsKeep(s, t);
    forall b: nat | b < |t.attempts|
      ensures AttemptInv(t, b)
    {
      assert AttemptInv(s, b);
    }
    forall b: nat, c: nat, key: Key | Holds(t, b, key) && Holds(t, c, key)
      ensures b == c
    {
      assert AttemptInv(s, b) && AttemptInv(s, c);
      assert Holds(s, b, key) && Holds(s, c, key);
    }
  }

  lemma {:induction false} PrepareStep(s: State, job: nat, contents: seq<Content>)
    requires Inv(s) && Enabled(s, Prepare(job, contents))
    ensures Inv(Apply(s, Prepare(job, contents)))
  {
    var t := Apply(s, Prepare(job, contents));
    DbKeeps(s, t);
    FlagsKeep(s, t);
    forall b: nat | b < |t.attempts|
      ensures AttemptInv(t, b)
    {
      if b < |s.attempts| {
        assert AttemptInv(s, b);
      }
    }
    forall b: nat, c: nat, key: Key | Holds(t, b, key) && Holds(t, c, key)
      ensures b == c
    {
      assert Holds(s, b, key) && Holds(s, c, key);
    }
  }

  predicate IsMove(step: Step) {
    step.Upsert? || step.DeleteChunks? || step.DeleteTranscripts? || step.InsertTranscript? ||
    step.CopyChunk? || step.MarkVideo? || step.Abort?
  }

  lemma {:induction false} MovedInv(s: State, step: Step)
    requires Enabled(s, step) && IsMove(step) && AttemptInv(s, step.a)
    ensures AttemptInv(Apply(s, step), step.a)
  {
  }

  lemma {:induction false} MoveStep(s: State, step: Step)
    requires Inv(s) && Enabled(s, step) && IsMove(step)
    ensures Inv(Apply(s, step))
  {
    var t := Apply(s, step);
    assert AttemptInv(s, step.a);
    MovedInv(s, step);
    MoveShape(s, step);
    FlagsKeep(s, t);
    MoveKeeps(s, t, step.a);
  }

  lemma {:induction false} MoveShape(s: State, step: Step)
    requires Enabled(s, step) && IsMove(step) && AttemptInv(s, step.a)
    ensures var t, a := Apply(s, step), step.a;
      && t.db == s.db && t.jobs == s.jobs && t.flagged == s.flagged && t.completed == s.completed
      && |t.attempts| == |s.attempts|
      && (forall b :: 0 <= b < |s.attempts| && b != a ==> t.attempts[b] == s.attempts[b])
      && t.attempts[a].job == s.attempts[a].job && t.attempts[a].contents == s.attempts[a].contents
      && !Stored(s.attempts[a].phase)
      && (InTx(t.attempts[a].phase) ==> InTx(s.attempts[a].phase) || Untouched(s, JobOf(s, a).key))
  {
  }

  lemma {:induction false} FlagsGrow(s: State, step: Step)
    requires FlagInv(s) && Enabled(s, step) && (step.FlagLesson? || step.CompleteJob?) && AttemptInv(s, step.a)
    ensures FlagInv(Apply(s, step))
  {
    var t := Apply(s, step);
    var own := s.attempts[step.a].job;
    assert JobCovered(t, own);
    forall lesson | lesson in t.flagged
      ensures LessonCovered(t, lesson)
    {
      if lesson in s.flagged {
        assert LessonCovered(s, lesson);
        var j: nat :| JobCovered(s, j) && s.jobs[j].lesson == lesson;
        assert JobCovered(t, j);
      }
    }
    forall j | j in t.completed
      ensures JobCovered(t, j)
    {
      assert j in s.completed ==> JobCovered(s, j);
    }
  }

  lemma {:induction false} FlagStep(s: State, step: Step)
    requires Inv(s) && Enabled(s, step) && (step.FlagLesson? || step.CompleteJob?)
    ensures Inv(Apply(s, step))
  {
    var t := Apply(s, step);
    var a := step.a;
    assert AttemptInv(s, a);
    FlagsGrow(s, step);
    assert AttemptInv(t, a);
    MoveKeeps(s, t, a);
  }

  // ---------- The commit ----------

  /** Two attempts in a transaction work on different videos. */
  lemma {:induction false} DifferentVideos(s: State, a: nat, b: nat)
    requires Inv(s) && a != b && a < |s.attempts| && b < |s.attempts|
    requires InTx(s.attempts[a].phase) && InTx(s.attempts[b].phase)
    requires s.attempts[a].job < |s.jobs| && s.attempts[b].job < |s.jobs|
    ensures s.attempts[a].video != s.attempts[b].video && JobOf(s, a).key != JobOf(s, b).key
  {
    assert AttemptInv(s, a) && AttemptInv(s, b);
    if JobOf(s, a).key == JobOf(s, b).key {
      assert Holds(s, a, JobOf(s, a).key) && Holds(s, b, JobOf(s, a).key);
    }
  }

  /** A commit replaces what is stored for its own video, and nothing else. */
  lemma {:induction false} ReplacedRows(s: State, a: nat)
    requires Enabled(s, Commit(a)) && TxInv(s, a)
    ensures var p, db := s.attempts[a], Replaced(s.db, a, s.attempts[a], JobOf(s, a));
      && TranscriptsOf(db, p.video) == {Transcript(a, p.video)}
      && ChunksOf(db, p.video) == Rows(p.contents, |p.contents|, p.video, a, JobOf(s, a).lesson)
      && (forall v :: v != p.video ==> TranscriptsOf(db, v) == TranscriptsOf(s.db, v))
      && (forall v :: v != p.video ==> ChunksOf(db, v) == ChunksOf(s.db, v))
  {
  }

  lemma {:induction false} CommitOther(s: State, a: nat, v: nat)
    requires Inv(s) && Enabled(s, Commit(a)) && v in s.db.videos && v != s.attempts[a].video
    ensures VideoInv(Apply(s, Commit(a)), v)
  {
    assert AttemptInv(s, a);
    ReplacedRows(s, a);
    VideoKeeps(s, Apply(s, Commit(a)), v);
  }

  lemma {:induction false} CommitOwn(s: State, a: nat)
    requires Inv(s) && Enabled(s, Commit(a))
    ensures VideoInv(Apply(s, Commit(a)), s.attempts[a].video)
  {
    assert AttemptInv(s, a);
    ReplacedRows(s, a);
    assert StoredBy(Apply(s, Commit(a)), s.attempts[a].video, a);
    if s.attempts[a].video in s.db.videos {
      assert VideoInv(s, s.attempts[a].video);
    }
  }

  lemma {:induction false} CommitKeys(s: State, a: nat)
    requires Inv(s) && Enabled(s, Commit(a))
    ensures UniqueKeys(Apply(s, Commit(a)).db) && NoDangling(Apply(s, Commit(a)).db)
  {
    assert AttemptInv(s, a);
  }

  /** Whatever else is in flight, a commit replaces the rows of its own video and leaves those of all others. */
  lemma {:induction false} CommitDb(s: State, a: nat)
    requires Inv(s) && Enabled(s, Commit(a))
    ensures DbInv(Apply(s, Commit(a)))
    ensures var p, db := s.attempts[a], Apply(s, Commit(a)).db;
      && TranscriptsOf(db, p.video) == {Transcript(a, p.video)}
      && ChunksOf(db, p.video) == Rows(p.contents, |p.contents|, p.video, a, JobOf(s, a).lesson)
      && (forall v :: v != p.video ==> TranscriptsOf(db, v) == TranscriptsOf(s.db, v))
      && (forall v :: v != p.video ==> ChunksOf(db, v) == ChunksOf(s.db, v))
  {
    var t := Apply(s, Commit(a));
    assert AttemptInv(s, a);
    ReplacedRows(s, a);
    CommitKeys(s, a);
    CommitOwn(s, a);
    forall v | v in t.db.videos
      ensures VideoInv(t, v)
    {
      if v != s.attempts[a].video {
        CommitOther(s, a, v);
      }
    }
  }

  /** What attempt b has seen of its own video is still true after another attempt's commit. */
  lemma {:induction false} CommitElsewhere(s: State, a: nat, b: nat)
    requires Inv(s) && Enabled(s, Commit(a)) && b < |s.attempts| && b != a && InTx(s.attempts[b].phase)
    requires s.attempts[b].job < |s.jobs|
    ensures TxInv(Apply(s, Commit(a)), b)
  {
    assert AttemptInv(s, a) && AttemptInv(s, b);
    ReplacedRows(s, a);
    DifferentVideos(s, a, b);
  }

  lemma {:induction false} CommitAttempt(s: State, a: nat, b: nat)
    requires Inv(s) && Enabled(s, Commit(a)) && b < |s.attempts|
    ensures AttemptInv(Apply(s, Commit(a)), b)
  {
    assert AttemptInv(s, b);
    VideosStay(s, a);
    if b != a && InTx(s.attempts[b].phase) {
      CommitElsewhere(s, a, b);
    }
  }

  lemma {:induction false} VideosStay(s: State, a: nat)
    requires Inv(s) && Enabled(s, Commit(a))
    ensures HasVideo(Apply(s, Commit(a)).db, JobOf(s, a).key)
    ensures forall v :: v in s.db.videos ==>
      v in Apply(s, Commit(a)).db.videos && Apply(s, Commit(a)).db.videos[v].key == s.db.videos[v].key
    ensures forall key :: HasVideo(s.db, key) ==> HasVideo(Apply(s, Commit(a)).db, key)
  {
    var t := Apply(s, Commit(a));
    assert AttemptInv(s, a);
    assert s.attempts[a].video in t.db.videos;
    forall key | HasVideo(s.db, key)
      ensures HasVideo(t.db, key)
    {
      var v :| v in s.db.videos && s.db.videos[v].key == key;
      assert v in t.db.videos;
    }
  }

  lemma {:induction false} CommitStep(s: State, a: nat)
    requires Inv(s) && Enabled(s, Commit(a))
    ensures Inv(Apply(s, Commit(a)))
  {
    var t := Apply(s, Commit(a));
    CommitDb(s, a);
    VideosStay(s, a);
    FlagsKeep(s, t);
    forall b: nat | b < |t.attempts|
      ensures AttemptInv(t, b)
    {
      CommitAttempt(s, a, b);
    }
    forall b: nat, c: nat, key: Key | Holds(t, b, key) && Holds(t, c, key)
      ensures b == c
    {
      assert Holds(s, b, key) && Holds(s, c, key);
    }
  }

  lemma {:induction false} InvStep(s: State, step: Step)
    requires Inv(s) && Enabled(s, step)
    ensures Inv(Apply(s, step))
  {
    match step {
      case Enqueue(row) => EnqueueStep(s, row);
      case Prepare(job, contents) => PrepareStep(s, job, contents);
      case Commit(a) => CommitStep(s, a);
      case FlagLesson(_, _) => FlagStep(s, step);
      case CompleteJob(_, _) => FlagStep(s, step);
      case _ => MoveStep(s, step);
    }
  }

  lemma {:induction false} InvRun(s: State, steps: seq<Step>)
    requires Inv(s) && ValidRun(s, steps)
    ensures Inv(Run(s, steps))
    decreases |steps|
  {
    if steps != [] {
      InvStep(s, steps[0]);
      InvRun(Apply(s, steps[0]), steps[1..]);
    }
  }

  lemma {:induction false} RowsAreNumbered(contents: seq<Content>, v: nat, t: nat, lesson: nat)
    ensures var rows := Rows(contents, |contents|, v, t, lesson);
      && |rows| == |contents|
      && (forall c :: c in rows ==> c.order < |contents| && c.content == contents[c.order] && c.transcript == t)
      && (forall i :: 0 <= i < |contents| ==> Chunk(v, t, lesson, i, contents[i]) in rows)
  {
    RowsSize(contents, |contents|, v, t, lesson);
  }

  lemma {:induction false} RowsSize(contents: seq<Content>, n: nat, v: nat, t: nat, lesson: nat)
    requires n <= |contents|
    ensures |Rows(contents, n, v, t, lesson)| == n
  {
    if n > 0 {
      RowsSize(contents, n - 1, v, t, lesson);
      RowsGrow(contents, n - 1, v, t, lesson);
    } else {
      assert Rows(contents, 0, v, t, lesson) == {};
    }
  }

  lemma {:induction false} RowsGrow(contents: seq<Content>, n: nat, v: nat, t: nat, lesson: nat)
    requires n < |contents|
    ensures Rows(contents, n + 1, v, t, lesson) ==
            Rows(contents, n, v, t, lesson) + {Chunk(v, t, lesson, n, contents[n])}
    ensures Chunk(v, t, lesson, n, contents[n]) !in Rows(contents, n, v, t, lesson)
  {
  }

  /** The rows of video v: one transcript, and that transcript's chunks 0, ..., |contents| - 1. */
  predicate Coherent(db: Db, v: nat, t: nat, contents: seq<Content>)
    requires v in db.videos
  {
    && contents != []
    && TranscriptsOf(db, v) == {Transcript(t, v)}
    && (forall c :: c in ChunksOf(db, v) ==>
          c.order < |contents| && c == Chunk(v, t, db.videos[v].lesson, c.order, contents[c.order]))
    && (forall i :: 0 <= i < |contents| ==> Chunk(v, t, db.videos[v].lesson, i, contents[i]) in ChunksOf(db, v))
  }

  /**
   * After any run: at most one video per tenant and URL, each with exactly one transcript and with that transcript's
   * chunks, numbered without gaps and all from one attempt; no rows without a video; and every completed job and
   * every flagged lesson has its video.
   */
  lemma {:induction false} StoreIsCoherent(steps: seq<Step>)
    requires ValidRun(EMPTY, steps)
    ensures var s := Run(EMPTY, steps);
      && UniqueKeys(s.db) && NoDangling(s.db)
      && (forall v :: v in s.db.videos ==>
            s.db.videos[v].status.Completed? &&
            exists t: nat :: t < |s.attempts| && Coherent(s.db, v, t, s.attempts[t].contents))
      && (forall j :: j in s.completed ==> JobCovered(s, j))
      && (forall lesson :: lesson in s.flagged ==> LessonCovered(s, lesson))
  {
    EmptyInv();
    InvRun(EMPTY, steps);
    var s := Run(EMPTY, steps);
    forall v | v in s.db.videos
      ensures s.db.videos[v].status.Completed?
      ensures exists t: nat :: t < |s.attempts| && Coherent(s.db, v, t, s.attempts[t].contents)
    {
      assert VideoInv(s, v);
      var t: nat :| StoredBy(s, v, t);
      assert Coherent(s.db, v, t, s.attempts[t].contents);
    }
  }

  lemma {:induction false} EmptyInv()
    ensures Inv(EMPTY)
  {
  }

  /** A committed video keeps its id and its key for ever, however often its job is retried. */
  lemma {:induction false} VideoIdsAreStable(s: State, steps: seq<Step>, v: nat)
    requires Inv(s) && ValidRun(s, steps) && v in s.db.videos
    ensures v in Run(s, steps).db.videos && Run(s, steps).db.videos[v].key == s.db.videos[v].key
    decreases |steps|
  {
    if steps != [] {
      InvStep(s, steps[0]);
      if steps[0].Commit? {
        VideosStay(s, steps[0].a);
      }
      VideoIdsAreStable(Apply(s, steps[0]), steps[1..], v);
    }
  }

  // ---------- Lessons that share a URL ----------

  predicate HasChunks(db: Db, lesson: nat) {
    exists c :: c in db.chunks && c.lesson == lesson
  }

  /** Exactly when a lesson has chunks: when some video row still names it. */
  lemma {:induction false} LessonHasChunks(s: State, lesson: nat)
    requires Inv(s)
    ensures HasChunks(s.db, lesson) <==>
            (exists v :: v in s.db.videos && s.db.videos[v].lesson == lesson)
  {
    if c :| c in s.db.chunks && c.lesson == lesson {
      assert VideoInv(s, c.video);
      var t: nat :| StoredBy(s, c.video, t);
      assert c in ChunksOf(s.db, c.video);
      assert s.db.videos[c.video].lesson == lesson;
    }
    if v :| v in s.db.videos && s.db.videos[v].lesson == lesson {
      assert VideoInv(s, v);
      var t: nat :| StoredBy(s, v, t);
      var c := Chunk(v, t, lesson, 0, s.attempts[t].contents[0]);
      assert c in ChunksOf(s.db, v);
    }
  }

  /** A step takes a video's chunks from a lesson exactly if it commits another lesson's job for the same URL. */
  lemma {:induction false} LosesChunks(s: State, step: Step, v: nat)
    requires Inv(s) && Enabled(s, step) && v in s.db.videos
    ensures v in Apply(s, step).db.videos
    ensures Apply(s, step).db.videos[v].lesson != s.db.videos[v].lesson <==>
            step.Commit? && JobOf(s, step.a).key == s.db.videos[v].key &&
            JobOf(s, step.a).lesson != s.db.videos[v].lesson
  {
    if step.Commit? {
      assert AttemptInv(s, step.a);
    }
  }

  datatype Owner = Nobody | Lesson(lesson: nat)

  /** The lesson of the last commit of the run for this tenant and URL. */
  function LastCommitted(s: State, steps: seq<Step>, key: Key, before: Owner): Owner
    requires ValidRun(s, steps)
    decreases |steps|
  {
    if steps == [] then before
    else
      var here := steps[0].Commit? && JobOf(s, steps[0].a).key == key;
      LastCommitted(Apply(s, steps[0]), steps[1..], key, if here then Lesson(JobOf(s, steps[0].a).lesson) else before)
  }

  /** The video with this key, if there is one, names this lesson. */
  predicate Owns(db: Db, key: Key, o: Owner) {
    if o.Nobody? then !HasVideo(db, key)
    else exists v :: v in db.videos && db.videos[v].key == key && db.videos[v].lesson == o.lesson
  }

  lemma {:induction false} VideoHasJobsKey(s: State, a: nat)
    requires Inv(s) && Enabled(s, Commit(a))
    ensures s.attempts[a].video in s.db.videos ==> s.db.videos[s.attempts[a].video].key == JobOf(s, a).key
  {
    assert AttemptInv(s, a);
    if s.attempts[a].video in s.db.videos {
      assert VideoInv(s, s.attempts[a].video);
    }
  }

  lemma {:induction false} CommitOwns(s: State, a: nat, key: Key, before: Owner)
    requires Inv(s) && Enabled(s, Commit(a)) && Owns(s.db, key, before)
    ensures Owns(Apply(s, Commit(a)).db, key, if JobOf(s, a).key == key then Lesson(JobOf(s, a).lesson) else before)
  {
    var t := Apply(s, Commit(a));
    VideoHasJobsKey(s, a);
    var v := s.attempts[a].video;
    assert t.db.videos[v] == Video(JobOf(s, a).key, JobOf(s, a).lesson, VideoStatus.Completed);
    if JobOf(s, a).key != key && before.Lesson? {
      var w :| w in s.db.videos && s.db.videos[w].key == key && s.db.videos[w].lesson == before.lesson;
      assert w in t.db.videos && t.db.videos[w] == s.db.videos[w];
    }
  }

  lemma {:induction false} LastCommittedOwns(s: State, steps: seq<Step>, key: Key, before: Owner)
    requires Inv(s) && ValidRun(s, steps) && Owns(s.db, key, before)
    ensures Owns(Run(s, steps).db, key, LastCommitted(s, steps, key, before))
    decreases |steps|
  {
    if steps != [] {
      var t := Apply(s, steps[0]);
      InvStep(s, steps[0]);
      if steps[0].Commit? {
        CommitOwns(s, steps[0].a, key, before);
        LastCommittedOwns(t, steps[1..], key,
                          if JobOf(s, steps[0].a).key == key then Lesson(JobOf(s, steps[0].a).lesson) else before);
      } else {
        LastCommittedOwns(t, steps[1..], key, before);
      }
    }
  }

  lemma {:induction false} NamedIfLast(steps: seq<Step>, lesson: nat, v: nat)
    requires ValidRun(EMPTY, steps) && v in Run(EMPTY, steps).db.videos
    requires Inv(Run(EMPTY, steps)) && Run(EMPTY, steps).db.videos[v].lesson == lesson
    ensures LastCommitted(EMPTY, steps, Run(EMPTY, steps).db.videos[v].key, Nobody) == Lesson(lesson)
  {
    var key := Run(EMPTY, steps).db.videos[v].key;
    EmptyInv();
    LastCommittedOwns(EMPTY, steps, key, Nobody);
    assert UniqueKeys(Run(EMPTY, steps).db);
  }

  /** After any run a lesson, flagged or not, has chunks exactly if it was the last to be committed for some URL. */
  lemma {:induction false} HasChunksIfLast(steps: seq<Step>, lesson: nat)
    requires ValidRun(EMPTY, steps)
    ensures HasChunks(Run(EMPTY, steps).db, lesson) <==>
            exists key :: LastCommitted(EMPTY, steps, key, Nobody) == Lesson(lesson)
  {
    EmptyInv();
    InvRun(EMPTY, steps);
    LessonHasChunks(Run(EMPTY, steps), lesson);
    if v :| v in Run(EMPTY, steps).db.videos && Run(EMPTY, steps).db.videos[v].lesson == lesson {
      NamedIfLast(steps, lesson, v);
    }
    if key :| LastCommitted(EMPTY, steps, key, Nobody) == Lesson(lesson) {
      LastCommittedOwns(EMPTY, steps, key, Nobody);
    }
  }

  predicate OneLessonPerUrl(jobs: seq<Job>) {
    forall j, k :: 0 <= j < |jobs| && 0 <= k < |jobs| && jobs[j].key == jobs[k].key ==> jobs[j].lesson == jobs[k].lesson
  }

  /** As long as no two lessons share a URL, every flagged lesson has its chunks, whatever happens. */
  lemma {:induction false} FlaggedLessonsHaveChunks(steps: seq<Step>, lesson: nat)
    requires ValidRun(EMPTY, steps)
    requires OneLessonPerUrl(Run(EMPTY, steps).jobs)
    requires lesson in Run(EMPTY, steps).flagged
    ensures HasChunks(Run(EMPTY, steps).db, lesson)
  {
    EmptyInv();
    InvRun(EMPTY, steps);
    var s := Run(EMPTY, steps);
    var j: nat :| JobCovered(s, j) && s.jobs[j].lesson == lesson;
    var v :| v in s.db.videos && s.db.videos[v].key == s.jobs[j].key;
    assert VideoInv(s, v);
    var t: nat :| StoredBy(s, v, t);
    assert s.jobs[s.attempts[t].job].key == s.jobs[j].key;
    LessonHasChunks(s, lesson);
  }

  lemma {:induction false} RunConcat(s: State, a: seq<Step>, b: seq<Step>)
    requires ValidRun(s, a) && ValidRun(Run(s, a), b)
    ensures ValidRun(s, a + b) && Run(s, a + b) == Run(Run(s, a), b)
    decreases |a|
  {
    if a == [] {
      assert a + b == b;
    } else {
      RunConcat(Apply(s, a[0]), a[1..], b);
      assert (a + b)[1..] == a[1..] + b;
    }
  }

  lemma {:induction false} RunExtends(s: State, steps: seq<Step>, step: Step)
    requires ValidRun(s, steps) && Enabled(Run(s, steps), step)
    ensures ValidRun(s, steps + [step]) && Run(s, steps + [step]) == Apply(Run(s, steps), step)
  {
    var t := Run(s, steps);
    assert [step][1..] == [] && ValidRun(Apply(t, step), []);
    RunConcat(s, steps, [step]);
  }

  // ---------- One attempt, statement by statement ----------

  /** Which statement fails first, and whether the two updates after the commit succeed. */
  datatype Faults = Faults(failing: nat, flags: bool, completes: bool)

  class Store {
    var db: Db
    var flagged: set<nat>
    var completed: set<nat>

    constructor ()
      ensures db == EMPTY.db && flagged == EMPTY.flagged && completed == EMPTY.completed
    {
      db, flagged, completed := Db(map[], {}, {}), {}, {};
    }

    /** The row that has the key already, or the given id. */
    method UpsertVideo(id: nat, key: Key) returns (video: nat)
      ensures UpsertReturns(db, key, id, video)
    {
      if v :| v in db.videos && db.videos[v].key == key {
        return v;
      }
      return id;
    }
  }

  /** The store is what the state says. */
  predicate Shows(s: State, db: Db, flagged: set<nat>, completed: set<nat>) {
    s.db == db && s.flagged == flagged && s.completed == completed
  }

  /** So far the run has only added an attempt that stands at p. */
  ghost predicate StandsAt(s: State, trace: seq<Step>, p: Attempt) {
    ValidRun(s, trace) && Run(s, trace) == s.(attempts := s.attempts + [p])
  }

  lemma {:induction false} StandsNext(s: State, trace: seq<Step>, p: Attempt, step: Step, p': Attempt)
    requires StandsAt(s, trace, p) && IsMove(step) && step.a == |s.attempts| && Enabled(Run(s, trace), step)
    requires Apply(Run(s, trace), step).attempts[|s.attempts|] == p'
    ensures StandsAt(s, trace + [step], p')
  {
    RunExtends(s, trace, step);
    assert (s.attempts + [p])[|s.attempts| := p'] == s.attempts + [p'];
  }

  /** The upsert waits for nobody if no other attempt holds the key. */
  lemma {:induction false} StandsUpserted(s: State, j: nat, contents: seq<Content>, v: nat)
    requires j < |s.jobs| && contents != [] && Untouched(s, s.jobs[j].key)
    requires UpsertReturns(s.db, s.jobs[j].key, |s.attempts|, v)
    ensures StandsAt(s, [Prepare(j, contents), Upsert(|s.attempts|, v)], Attempt(j, contents, Upserted, v, {}, {}))
  {
    var a := |s.attempts|;
    var t := Apply(s, Prepare(j, contents));
    RunExtends(s, [], Prepare(j, contents));
    assert [] + [Prepare(j, contents)] == [Prepare(j, contents)];
    forall b: nat | b < |t.attempts|
      ensures !Holds(t, b, s.jobs[j].key)
    {
      assert b < a ==> !Holds(s, b, s.jobs[j].key);
    }
    StandsNext(s, [Prepare(j, contents)], t.attempts[a], Upsert(a, v), Attempt(j, contents, Upserted, v, {}, {}));
    assert [Prepare(j, contents)] + [Upsert(a, v)] == [Prepare(j, contents), Upsert(a, v)];
  }

  lemma {:induction false} Aborts(s: State, trace: seq<Step>, p: Attempt) returns (trace': seq<Step>)
    requires StandsAt(s, trace, p) && InTx(p.phase)
    ensures ValidRun(s, trace') && Shows(Run(s, trace'), s.db, s.flagged, s.completed)
  {
    StandsNext(s, trace, p, Abort(|s.attempts|), p.(phase := Aborted));
    trace' := trace + [Abort(|s.attempts|)];
  }

  /** The CopyIn loop: one row per chunk, with the chunk's position as its order. */
  method CopyChunks(contents: seq<Content>, video: nat, transcript: nat, lesson: nat,
                    ghost s: State, ghost trace0: seq<Step>, ghost p: Attempt)
    returns (rows: set<Chunk>, ghost trace: seq<Step>)
    requires StandsAt(s, trace0, p) && p.phase == Copying(0) && p.contents == contents
    ensures rows == Rows(contents, |contents|, video, transcript, lesson)
    ensures StandsAt(s, trace, p.(phase := Copying(|contents|)))
  {
    rows, trace := {}, trace0;
    for i := 0 to |contents|
      invariant rows == Rows(contents, i, video, transcript, lesson)
      invariant StandsAt(s, trace, p.(phase := Copying(i)))
    {
      rows := rows + {Chunk(video, transcript, lesson, i, contents[i])};
      RowsGrow(contents, i, video, transcript, lesson);
      StandsNext(s, trace, p.(phase := Copying(i)), CopyChunk(|s.attempts|), p.(phase := Copying(i + 1)));
      trace := trace + [CopyChunk(|s.attempts|)];
    }
  }

  /** An attempt that has seen what db holds for its video. */
  function Own(db: Db, j: nat, contents: seq<Content>, video: nat): Attempt {
    Attempt(j, contents, Marked, video, ChunksOf(db, video), TranscriptsOf(db, video))
  }

  /** The statements of the transaction after the upsert, up to the video's new status. */
  method Replace(store: Store, job: Job, contents: seq<Content>, failing: nat, a: nat, video: nat,
                 ghost s: State, ghost j: nat, ghost trace0: seq<Step>)
    returns (ok: bool, oldChunks: set<Chunk>, oldTranscripts: set<Transcript>, rows: set<Chunk>, ghost trace: seq<Step>)
    requires Shows(s, store.db, store.flagged, store.completed) && a == |s.attempts| && j < |s.jobs|
    requires StandsAt(s, trace0, Attempt(j, contents, Upserted, video, {}, {}))
    ensures ok <==> failing > 5
    ensures !ok ==> ValidRun(s, trace) && Shows(Run(s, trace), store.db, store.flagged, store.completed)
    ensures ok ==>
      && oldChunks == ChunksOf(store.db, video) && oldTranscripts == TranscriptsOf(store.db, video)
      && rows == Rows(contents, |contents|, video, a, job.lesson)
      && StandsAt(s, trace, Own(store.db, j, contents, video))
  {
    trace := trace0;
    oldTranscripts, rows := {}, {};
    ghost var p := Attempt(j, contents, Upserted, video, {}, {});
    oldChunks := ChunksOf(store.db, video);
    StandsNext(s, trace, p, DeleteChunks(a), p.(phase := ChunksDeleted, oldChunks := oldChunks));
    p, trace := p.(phase := ChunksDeleted, oldChunks := oldChunks), trace + [DeleteChunks(a)];
    if failing <= 2 {
      trace := Aborts(s, trace, p);
      ok := false;
      return;
    }
    oldTranscripts := TranscriptsOf(store.db, video);
    StandsNext(s, trace, p, DeleteTranscripts(a), p.(phase := TranscriptsDeleted, oldTranscripts := oldTranscripts));
    p, trace := p.(phase := TranscriptsDeleted, oldTranscripts := oldTranscripts), trace + [DeleteTranscripts(a)];
    if failing == 3 {
      trace := Aborts(s, trace, p);
      ok := false;
      return;
    }
    StandsNext(s, trace, p, InsertTranscript(a), p.(phase := Copying(0)));
    rows, trace := CopyChunks(contents, video, a, job.lesson, s, trace + [InsertTranscript(a)],
                                p.(phase := Copying(0)));
    p := p.(phase := Copying(|contents|));
    if failing <= 5 {
      trace := Aborts(s, trace, p);
      ok := false;
      return;
    }
    StandsNext(s, trace, p, MarkVideo(a), p.(phase := Marked));
    trace := trace + [MarkVideo(a)];
    ok := true;
  }

  lemma {:induction false} StandsCommitted(s: State, trace: seq<Step>, p: Attempt)
    requires StandsAt(s, trace, p) && p.phase.Marked? && p.job < |s.jobs|
    ensures var a := |s.attempts|;
      && ValidRun(s, trace + [Commit(a)])
      && Run(s, trace + [Commit(a)]) ==
         s.(db := Replaced(s.db, a, p, s.jobs[p.job]), attempts := s.attempts + [p.(phase := Phase.Committed)])
  {
    var a := |s.attempts|;
    RunExtends(s, trace, Commit(a));
    assert (s.attempts + [p])[a := p.(phase := Phase.Committed)] == s.attempts + [p.(phase := Phase.Committed)];
  }

  /** An attempt with one chunk that stands before its inserts. */
  function Emptied(s: State, j: nat, content: Content, v: nat): Attempt {
    Attempt(j, [content], TranscriptsDeleted, v, ChunksOf(s.db, v), TranscriptsOf(s.db, v))
  }

  lemma {:induction false} RunsToDeleted(s: State, j: nat, content: Content, v: nat) returns (steps: seq<Step>)
    requires j < |s.jobs| && Untouched(s, s.jobs[j].key) && UpsertReturns(s.db, s.jobs[j].key, |s.attempts|, v)
    ensures StandsAt(s, steps, Emptied(s, j, content, v))
  {
    var a, p := |s.attempts|, Attempt(j, [content], Upserted, v, {}, {});
    StandsUpserted(s, j, [content], v);
    steps := [Prepare(j, [content]), Upsert(a, v)];
    var q := p.(phase := ChunksDeleted, oldChunks := ChunksOf(s.db, v));
    StandsNext(s, steps, p, DeleteChunks(a), q);
    steps := steps + [DeleteChunks(a)];
    StandsNext(s, steps, q, DeleteTranscripts(a), Emptied(s, j, content, v));
    steps := steps + [DeleteTranscripts(a)];
  }

  lemma {:induction false} RunsToMarked(s: State, trace: seq<Step>, p: Attempt) returns (steps: seq<Step>)
    requires StandsAt(s, trace, p) && p.phase.TranscriptsDeleted? && |p.contents| == 1 && p.job < |s.jobs|
    ensures StandsAt(s, steps, p.(phase := Marked))
  {
    var a := |s.attempts|;
    StandsNext(s, trace, p, InsertTranscript(a), p.(phase := Copying(0)));
    steps := trace + [InsertTranscript(a)];
    StandsNext(s, steps, p.(phase := Copying(0)), CopyChunk(a), p.(phase := Copying(1)));
    steps := steps + [CopyChunk(a)];
    StandsNext(s, steps, p.(phase := Copying(1)), MarkVideo(a), p.(phase := Marked));
    steps := steps + [MarkVideo(a)];
  }

  /** An attempt at job j with one chunk that runs from its start to the lesson's flag while nobody else is at work. */
  lemma {:induction false} CommitAndFlag(s: State, j: nat, content: Content, v: nat) returns (steps: seq<Step>)
    requires j < |s.jobs| && Untouched(s, s.jobs[j].key) && UpsertReturns(s.db, s.jobs[j].key, |s.attempts|, v)
    ensures ValidRun(s, steps)
    ensures var p := Own(s.db, j, [content], v);
      Run(s, steps) == s.(db := Replaced(s.db, |s.attempts|, p, s.jobs[j]),
                          attempts := s.attempts + [p.(phase := Flagged)], flagged := s.flagged + {s.jobs[j].lesson})
  {
    var a, p := |s.attempts|, Own(s.db, j, [content], v);
    steps := RunsToDeleted(s, j, content, v);
    steps := RunsToMarked(s, steps, Emptied(s, j, content, v));
    StandsCommitted(s, steps, p);
    steps := steps + [Commit(a)];
    RunExtends(s, steps, FlagLesson(a, true));
    steps := steps + [FlagLesson(a, true)];
    assert (s.attempts + [p.(phase := Phase.Committed)])[a := p.(phase := Flagged)] ==
           s.attempts + [p.(phase := Flagged)];
  }

  lemma {:induction false} EnqueueAll(jobs: seq<Job>) returns (steps: seq<Step>)
    ensures ValidRun(EMPTY, steps) && Run(EMPTY, steps) == EMPTY.(jobs := jobs)
  {
    if jobs == [] {
      steps := [];
    } else {
      var n := |jobs| - 1;
      steps := EnqueueAll(jobs[..n]);
      RunExtends(EMPTY, steps, Enqueue(jobs[n]));
      steps := steps + [Enqueue(jobs[n])];
      assert jobs[..n] + [jobs[n]] == jobs;
    }
  }

  /** The first of two jobs with one key and then the second, each up to its lesson's flag. */
  lemma {:induction false} OneAfterAnother(s: State, j: nat, k: nat, content: Content) returns (steps: seq<Step>)
    requires j < |s.jobs| && k < |s.jobs| && s.jobs[j].key == s.jobs[k].key
    requires s.db == EMPTY.db && s.attempts == [] && s.flagged == {}
    ensures ValidRun(s, steps)
    ensures var t := Run(s, steps);
      && t.jobs == s.jobs && t.flagged == {s.jobs[j].lesson, s.jobs[k].lesson}
      && t.db.videos == map[0 := Video(s.jobs[j].key, s.jobs[k].lesson, VideoStatus.Completed)]
  {
    steps := CommitAndFlag(s, j, content, 0);
    var s1 := Run(s, steps);
    assert s1.db.videos[0].key == s.jobs[j].key;
    var more := CommitAndFlag(s1, k, content, 0);
    RunConcat(s, steps, more);
    steps := steps + more;
  }

  /** Two jobs with one URL and different lessons: both lessons end flagged, and the first one without chunks. */
  lemma {:induction false} SharedUrlTakesChunks(jobs: seq<Job>, j: nat, k: nat, content: Content)
    returns (steps: seq<Step>)
    requires j < |jobs| && k < |jobs| && jobs[j].key == jobs[k].key && jobs[j].lesson != jobs[k].lesson
    ensures ValidRun(EMPTY, steps) && Run(EMPTY, steps).jobs == jobs
    ensures var s := Run(EMPTY, steps);
      s.flagged == {jobs[j].lesson, jobs[k].lesson} && !HasChunks(s.db, jobs[j].lesson)
  {
    steps := EnqueueAll(jobs);
    var more := OneAfterAnother(Run(EMPTY, steps), j, k, content);
    RunConcat(EMPTY, steps, more);
    steps := steps + more;
    EmptyInv();
    InvRun(EMPTY, steps);
    LessonHasChunks(Run(EMPTY, steps), jobs[j].lesson);
  }

  /** After every run over these jobs every flagged lesson has chunks. */
  ghost predicate FlagsAreHonest(jobs: seq<Job>) {
    forall steps, lesson ::
      ValidRun(EMPTY, steps) && Run(EMPTY, steps).jobs == jobs && lesson in Run(EMPTY, steps).flagged ==>
        HasChunks(Run(EMPTY, steps).db, lesson)
  }

  /** Flagged lessons have chunks, after every run over a list of jobs, exactly if no two lessons in it share a URL. */
  lemma {:induction false} FlagsAreHonestExactly(jobs: seq<Job>)
    ensures FlagsAreHonest(jobs) <==> OneLessonPerUrl(jobs)
  {
    if OneLessonPerUrl(jobs) {
      forall steps, lesson |
        ValidRun(EMPTY, steps) && Run(EMPTY, steps).jobs == jobs && lesson in Run(EMPTY, steps).flagged
        ensures HasChunks(Run(EMPTY, steps).db, lesson)
      {
        FlaggedLessonsHaveChunks(steps, lesson);
      }
    } else {
      var j, k :| 0 <= j < |jobs| && 0 <= k < |jobs| && jobs[j].key == jobs[k].key && jobs[j].lesson != jobs[k].lesson;
      var steps := SharedUrlTakesChunks(jobs, j, k, Content("", 0.0, 0.0, []));
      assert jobs[j].lesson in Run(EMPTY, steps).flagged;
    }
  }

  /**
   * The transaction of an attempt at job j, with the ids numbered a: the upsert, the two deletes, the inserts and
   * the commit. The statement numbered `failing` fails, if there is one, and then nothing becomes visible.
   */
  method Persist(store: Store, job: Job, contents: seq<Content>, failing: nat, a: nat, ghost s: State, ghost j: nat)
    returns (ok: bool, video: nat, ghost trace: seq<Step>)
    requires Shows(s, store.db, store.flagged, store.completed)
    requires a == |s.attempts| && j < |s.jobs| && s.jobs[j] == job && contents != [] && Untouched(s, job.key)
    modifies store`db
    ensures ok <==> failing > 6
    ensures !ok ==> store.db == old(store.db)
    ensures !ok ==> ValidRun(s, trace) && Shows(Run(s, trace), store.db, store.flagged, store.completed)
    ensures ok ==>
      && UpsertReturns(old(store.db), job.key, a, video)
      && store.db == Replaced(old(store.db), a, Own(old(store.db), j, contents, video), job)
      && ValidRun(s, trace)
      && Run(s, trace) == s.(db := store.db,
                             attempts := s.attempts + [Own(s.db, j, contents, video).(phase := Phase.Committed)])
  {
    if failing == 0 {
      RunExtends(s, [], Prepare(j, contents));
      return false, a, [] + [Prepare(j, contents)];
    }
    video := store.UpsertVideo(a, job.key);
    StandsUpserted(s, j, contents, video);
    trace := [Prepare(j, contents), Upsert(a, video)];
    if failing == 1 {
      trace := Aborts(s, trace, Attempt(j, contents, Upserted, video, {}, {}));
      return false, video, trace;
    }
    var oldChunks, oldTranscripts, rows;
    ok, oldChunks, oldTranscripts, rows, trace := Replace(store, job, contents, failing, a, video, s, j, trace);
    if !ok {
      return;
    }
    if failing == 6 {
      trace := Aborts(s, trace, Own(s.db, j, contents, video));
      return false, video, trace;
    }
    store.db := Db(store.db.videos[video := Video(job.key, job.lesson, Completed)],
                   store.db.transcripts - oldTranscripts + {Transcript(a, video)},
                   store.db.chunks - oldChunks + rows);
    StandsCommitted(s, trace, Own(s.db, j, contents, video));
    trace := trace + [Commit(a)];
  }

  /**
   * The storing part of an attempt at job j. All or nothing becomes visible; a failure to set the lesson's flag is
   * ignored, a failure to complete the job is reported.
   */
  method ExecuteJob(store: Store, job: Job, contents: seq<Content>, faults: Faults, j: nat, a: nat, ghost s: State)
    returns (ok: bool, ghost trace: seq<Step>)
    requires Shows(s, store.db, store.flagged, store.completed)
    requires a == |s.attempts| && j < |s.jobs| && s.jobs[j] == job && contents != [] && Untouched(s, job.key)
    modifies store
    ensures ValidRun(s, trace) && Shows(Run(s, trace), store.db, store.flagged, store.completed)
    ensures ok <==> faults.failing > 6 && faults.completes
    ensures faults.failing <= 6 ==>
      store.db == old(store.db) && store.flagged == old(store.flagged) && store.completed == old(store.completed)
    ensures faults.failing > 6 ==>
      && (exists v ::
            UpsertReturns(old(store.db), job.key, a, v) &&
            store.db == Replaced(old(store.db), a, Own(old(store.db), j, contents, v), job))
      && store.flagged == old(store.flagged) + (if faults.flags then {job.lesson} else {})
      && store.completed == old(store.completed) + (if faults.completes then {j} else {})
  {
    var video;
    ok, video, trace := Persist(store, job, contents, faults.failing, a, s, j);
    if !ok {
      return;
    }
    if faults.flags {
      store.flagged := store.flagged + {job.lesson};
    }
    RunExtends(s, trace, FlagLesson(a, faults.flags));
    trace := trace + [FlagLesson(a, faults.flags)];
    if faults.completes {
      store.completed := store.completed + {j};
    }
    RunExtends(s, trace, CompleteJob(a, faults.completes));
    trace := trace + [CompleteJob(a, faults.completes)];
    ok := faults.completes;
  }
}

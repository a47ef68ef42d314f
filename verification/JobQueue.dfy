/**
 * Every run of the job queue: enqueueing, claims, workers that finish, fail or vanish, and orphan resets, in any
 * order and on any number of replicas (transcription/worker.go, worker_claim.go, sql.go).
 */
module JobQueue {
  import opened JobsTable

  /**
   * One execution of a job. A worker whose COMPLETED update was applied but came back as an error is Reporting:
   * it goes on to mark the job failed.
   */
  datatype Phase = Working(since: int) | Reporting(since: int) | Gone

  /** execs[i][a] is the execution that claim a + 1 of job i started. */
  datatype State = State(rows: seq<Job>, execs: seq<seq<Phase>>, now: int)

  datatype Step =
    | Insert(kind: Kind, priority: int, maxAttempts: nat)
    | Claim(ids: set<nat>)
    | Complete(job: nat, a: nat)
    | CompleteUnacked(job: nat, a: nat)
    | Fail(job: nat, a: nat)
    | Die(job: nat, a: nat)
    | ResetOrphans
    | Tick(seconds: nat)

  const EMPTY: State := State([], [], 0)

  predicate Live(s: State, i: nat, a: nat) {
    i < |s.rows| && i < |s.execs| && a < |s.execs[i]| && !s.execs[i][a].Gone?
  }

  predicate Enabled(s: State, step: Step) {
    |s.rows| == |s.execs| &&
    match step
    case Insert(_, _, maxAttempts) => maxAttempts > 0
    case Claim(ids) => ids != {} && forall i :: i in ids ==> ClaimableAt(s.rows, i)
    case Complete(i, a) => Live(s, i, a) && s.execs[i][a].Working?
    case CompleteUnacked(i, a) => Live(s, i, a) && s.execs[i][a].Working?
    case Fail(i, a) => Live(s, i, a)
    case Die(i, a) => Live(s, i, a)
    case ResetOrphans => true
    case Tick(_) => true
  }

  function Started(execs: seq<seq<Phase>>, ids: set<nat>, now: int): (r: seq<seq<Phase>>)
    ensures |r| == |execs|
    ensures forall i :: 0 <= i < |execs| ==> r[i] == if i in ids then execs[i] + [Working(now)] else execs[i]
  {
    seq(|execs|, i requires 0 <= i < |execs| => if i in ids then execs[i] + [Working(now)] else execs[i])
  }

  function Set(execs: seq<seq<Phase>>, i: nat, a: nat, p: Phase): seq<seq<Phase>>
    requires i < |execs| && a < |execs[i]|
  {
    execs[i := execs[i][a := p]]
  }

  function Apply(s: State, step: Step): State
    requires Enabled(s, step)
  {
    match step
    case Insert(kind, priority, maxAttempts) =>
      s.(rows := s.rows + [Job(kind, Pending, 0, maxAttempts, priority, s.now, 0)], execs := s.execs + [[]])
    case Claim(ids) => s.(rows := WithClaimed(s.rows, ids, s.now), execs := Started(s.execs, ids, s.now))
    case Complete(i, a) => s.(rows := s.rows[i := CompleteRow(s.rows[i])], execs := Set(s.execs, i, a, Gone))
    case CompleteUnacked(i, a) =>
      s.(rows := s.rows[i := CompleteRow(s.rows[i])], execs := Set(s.execs, i, a, Reporting(s.execs[i][a].since)))
    case Fail(i, a) => s.(rows := s.rows[i := FailRow(s.rows[i])], execs := Set(s.execs, i, a, Gone))
    case Die(i, a) => s.(execs := Set(s.execs, i, a, Gone))
    case ResetOrphans => s.(rows := WithoutOrphans(s.rows, s.now))
    case Tick(seconds) => s.(now := s.now + seconds)
  }

  predicate ValidRun(s: State, steps: seq<Step>)
    decreases |steps|
  {
    steps == [] || (Enabled(s, steps[0]) && ValidRun(Apply(s, steps[0]), steps[1..]))
  }

  function Run(s: State, steps: seq<Step>): State
    requires ValidRun(s, steps)
    decreases |steps|
  {
    if steps == [] then s else Run(Apply(s, steps[0]), steps[1..])
  }

  /** What the table's claim does is a claim step, and an enabled one. */
  lemma {:induction false} TableClaimIsStep(s: State, limit: int, ids: seq<nat>)
    requires |s.rows| == |s.execs| && FirstClaimable(s.rows, limit, ids) && ids != []
    ensures var step := Claim(set id | id in ids);
      Enabled(s, step) && Apply(s, step).rows == WithClaimed(s.rows, step.ids, s.now)
  {
    var step := Claim(set id | id in ids);
    assert ids[0] in step.ids;
    forall i | i in step.ids
      ensures ClaimableAt(s.rows, i)
    {
      var k :| 0 <= k < |ids| && ids[k] == i;
    }
  }

  // ---------- What holds whatever the workers do ----------

  predicate RowInv(j: Job, execs: seq<Phase>) {
    && |execs| == j.attempts <= j.maxAttempts && 0 < j.maxAttempts
    && (j.status.Pending? ==> j.attempts < j.maxAttempts)
    && (j.status.Failed? ==> j.attempts == j.maxAttempts)
  }

  predicate Inv(s: State) {
    |s.rows| == |s.execs| && forall i :: 0 <= i < |s.rows| ==> RowInv(s.rows[i], s.execs[i])
  }

  lemma {:induction false} InvStep(s: State, step: Step)
    requires Inv(s) && Enabled(s, step)
    ensures Inv(Apply(s, step))
    ensures |s.rows| <= |Apply(s, step).rows|
    ensures forall i :: 0 <= i < |s.rows| ==> Apply(s, step).rows[i].maxAttempts == s.rows[i].maxAttempts
  {
  }

  /** attempts never passes max_attempts, a pending job has an attempt left and a failed one has none. */
  lemma {:induction false} InvRun(s: State, steps: seq<Step>)
    requires Inv(s) && ValidRun(s, steps)
    ensures Inv(Run(s, steps))
    ensures |s.rows| <= |Run(s, steps).rows|
    ensures forall i :: 0 <= i < |s.rows| ==> Run(s, steps).rows[i].maxAttempts == s.rows[i].maxAttempts
    decreases |steps|
  {
    if steps != [] {
      InvStep(s, steps[0]);
      InvRun(Apply(s, steps[0]), steps[1..]);
    }
  }

  /** How often the run starts an execution of job i. */
  function ExecutionsOf(steps: seq<Step>, i: nat): nat {
    if steps == [] then 0
    else (if steps[0].Claim? && i in steps[0].ids then 1 else 0) + ExecutionsOf(steps[1..], i)
  }

  function Attempts(s: State, i: nat): nat {
    if i < |s.rows| then s.rows[i].attempts else 0
  }

  lemma {:induction false} AttemptsCountExecutions(s: State, steps: seq<Step>, i: nat)
    requires Inv(s) && ValidRun(s, steps)
    ensures Attempts(Run(s, steps), i) == Attempts(s, i) + ExecutionsOf(steps, i)
    decreases |steps|
  {
    if steps != [] {
      InvStep(s, steps[0]);
      AttemptsCountExecutions(Apply(s, steps[0]), steps[1..], i);
    }
  }

  /** Over any run from the empty table a job is executed at most max_attempts times. */
  lemma {:induction false} ExecutionsAreBounded(steps: seq<Step>, i: nat)
    requires ValidRun(EMPTY, steps)
    ensures var s := Run(EMPTY, steps);
      if i < |s.rows| then ExecutionsOf(steps, i) == s.rows[i].attempts <= s.rows[i].maxAttempts
      else ExecutionsOf(steps, i) == 0
  {
    InvRun(EMPTY, steps);
    AttemptsCountExecutions(EMPTY, steps, i);
  }

  /** A failed job, like any job without attempts left, is never claimed again. */
  lemma {:induction false} ExhaustedIsNeverClaimed(s: State, steps: seq<Step>, i: nat)
    requires Inv(s) && ValidRun(s, steps) && i < |s.rows|
    requires s.rows[i].status.Failed? || s.rows[i].attempts == s.rows[i].maxAttempts
    ensures ExecutionsOf(steps, i) == 0
  {
    InvRun(s, steps);
    AttemptsCountExecutions(s, steps, i);
  }

  // ---------- Every run is finite ----------

  function PhaseWeight(p: Phase): nat {
    match p
    case Working(_) => 2
    case Reporting(_) => 1
    case Gone => 0
  }

  function ExecWeight(execs: seq<Phase>): nat {
    if execs == [] then 0 else ExecWeight(execs[..|execs| - 1]) + PhaseWeight(execs[|execs| - 1])
  }

  /** What a job can still do: four per attempt left, one if it is running, and what its executions have left. */
  function Weight(j: Job, execs: seq<Phase>): int {
    4 * (j.maxAttempts - j.attempts) + (if j.status.Running? then 1 else 0) + ExecWeight(execs)
  }

  function Total(rows: seq<Job>, execs: seq<seq<Phase>>): int
    requires |rows| == |execs|
  {
    if rows == [] then 0
    else
      var n := |rows| - 1;
      Total(rows[..n], execs[..n]) + Weight(rows[n], execs[n])
  }

  function Measure(s: State): int
    requires |s.rows| == |s.execs|
  {
    Total(s.rows, s.execs)
  }

  lemma {:induction false} ExecWeightAppend(execs: seq<Phase>, p: Phase)
    ensures ExecWeight(execs + [p]) == ExecWeight(execs) + PhaseWeight(p)
  {
  }

  lemma {:induction false} ExecWeightUpdate(execs: seq<Phase>, a: nat, p: Phase)
    requires a < |execs|
    ensures ExecWeight(execs[a := p]) == ExecWeight(execs) - PhaseWeight(execs[a]) + PhaseWeight(p)
  {
    var n := |execs| - 1;
    if a == n {
      assert execs[a := p][..n] == execs[..n];
    } else {
      ExecWeightUpdate(execs[..n], a, p);
      assert execs[a := p][..n] == execs[..n][a := p];
    }
  }

  lemma {:induction false} TotalNonNegative(rows: seq<Job>, execs: seq<seq<Phase>>)
    requires |rows| == |execs| && forall i :: 0 <= i < |rows| ==> RowInv(rows[i], execs[i])
    ensures Total(rows, execs) >= 0
  {
    if rows != [] {
      TotalNonNegative(rows[..|rows| - 1], execs[..|rows| - 1]);
    }
  }

  /** If no job's weight grows the total does not grow, and it shrinks if the weight of job k does. */
  lemma {:induction false} TotalShrinks(rows: seq<Job>, execs: seq<seq<Phase>>, rows': seq<Job>,
                                        execs': seq<seq<Phase>>, k: int)
    requires |rows| == |execs| == |rows'| == |execs'|
    requires forall i :: 0 <= i < |rows| ==> Weight(rows'[i], execs'[i]) <= Weight(rows[i], execs[i])
    requires 0 <= k < |rows| ==> Weight(rows'[k], execs'[k]) < Weight(rows[k], execs[k])
    ensures Total(rows', execs') <= Total(rows, execs)
    ensures 0 <= k < |rows| ==> Total(rows', execs') < Total(rows, execs)
  {
    if rows != [] {
      var n := |rows| - 1;
      TotalShrinks(rows[..n], execs[..n], rows'[..n], execs'[..n], k);
    }
  }

  /** The step changes something: it is no enqueueing, no passing of time and no reset without orphans. */
  predicate Effective(s: State, step: Step) {
    match step
    case Insert(_, _, _) => false
    case Tick(_) => false
    case ResetOrphans => OrphanCount(s.rows, s.now) > 0
    case _ => true
  }

  lemma {:induction false} AnOrphan(rows: seq<Job>, now: int) returns (k: nat)
    requires OrphanCount(rows, now) > 0
    ensures k < |rows| && Orphaned(rows[k], now)
  {
    var n := |rows| - 1;
    if Orphaned(rows[n], now) {
      k := n;
    } else {
      k := AnOrphan(rows[..n], now);
    }
  }

  /** An execution of job i moves on, and the job does not become running by it. */
  lemma {:induction false} ReportShrinks(s: State, i: nat, a: nat, p: Phase, j: Job)
    requires |s.rows| == |s.execs| && Live(s, i, a) && PhaseWeight(p) < PhaseWeight(s.execs[i][a])
    requires j.maxAttempts == s.rows[i].maxAttempts && j.attempts == s.rows[i].attempts
    requires j.status.Running? ==> s.rows[i].status.Running?
    ensures Total(s.rows[i := j], Set(s.execs, i, a, p)) < Measure(s)
  {
    ExecWeightUpdate(s.execs[i], a, p);
    TotalShrinks(s.rows, s.execs, s.rows[i := j], Set(s.execs, i, a, p), i);
  }

  lemma {:induction false} ClaimShrinks(s: State, ids: set<nat>)
    requires Inv(s) && Enabled(s, Claim(ids))
    ensures Measure(Apply(s, Claim(ids))) < Measure(s)
  {
    var t := Apply(s, Claim(ids));
    forall i | 0 <= i < |s.rows| && i in ids
      ensures Weight(t.rows[i], t.execs[i]) == Weight(s.rows[i], s.execs[i]) - 1
    {
      ExecWeightAppend(s.execs[i], Working(s.now));
    }
    var k :| k in ids;
    TotalShrinks(s.rows, s.execs, t.rows, t.execs, k);
  }

  lemma {:induction false} ResetShrinks(s: State)
    requires Inv(s)
    ensures Measure(Apply(s, ResetOrphans)) <= Measure(s)
    ensures OrphanCount(s.rows, s.now) > 0 ==> Measure(Apply(s, ResetOrphans)) < Measure(s)
  {
    var t := Apply(s, ResetOrphans);
    var k: int := -1;
    if OrphanCount(s.rows, s.now) > 0 {
      k := AnOrphan(s.rows, s.now);
    }
    TotalShrinks(s.rows, s.execs, t.rows, t.execs, k);
  }

  lemma {:induction false} MeasureStep(s: State, step: Step)
    requires Inv(s) && Enabled(s, step) && !step.Insert?
    ensures Measure(Apply(s, step)) <= Measure(s)
    ensures Effective(s, step) ==> Measure(Apply(s, step)) < Measure(s)
  {
    match step {
      case Claim(ids) => ClaimShrinks(s, ids);
      case Complete(i, a) => ReportShrinks(s, i, a, Gone, CompleteRow(s.rows[i]));
      case CompleteUnacked(i, a) =>
        ReportShrinks(s, i, a, Reporting(s.execs[i][a].since), CompleteRow(s.rows[i]));
      case Fail(i, a) => ReportShrinks(s, i, a, Gone, FailRow(s.rows[i]));
      case Die(i, a) =>
        ReportShrinks(s, i, a, Gone, s.rows[i]);
        assert s.rows[i := s.rows[i]] == s.rows;
      case ResetOrphans => ResetShrinks(s);
      case Tick(_) =>
    }
  }

  function EffectiveSteps(s: State, steps: seq<Step>): nat
    requires ValidRun(s, steps)
    decreases |steps|
  {
    if steps == [] then 0
    else (if Effective(s, steps[0]) then 1 else 0) + EffectiveSteps(Apply(s, steps[0]), steps[1..])
  }

  /** The attempts that the jobs enqueued in the run may use. */
  function Enqueued(steps: seq<Step>): nat {
    if steps == [] then 0
    else (if steps[0].Insert? then steps[0].maxAttempts else 0) + Enqueued(steps[1..])
  }

  /** However claims, failures, crashes and resets interleave, a run of jobs ends. */
  lemma {:induction false} RunsAreFinite(s: State, steps: seq<Step>)
    requires Inv(s) && ValidRun(s, steps)
    ensures EffectiveSteps(s, steps) <= Measure(s) + 4 * Enqueued(steps)
    decreases |steps|
  {
    if steps == [] {
      TotalNonNegative(s.rows, s.execs);
    } else {
      InvStep(s, steps[0]);
      RunsAreFinite(Apply(s, steps[0]), steps[1..]);
      if !steps[0].Insert? {
        MeasureStep(s, steps[0]);
      }
    }
  }

  // ---------- When a completed job is undone ----------

  /** Exactly when a completed job stops being completed: when one of its executions reports a failure. */
  lemma {:induction false} LeavesCompleted(s: State, step: Step, i: nat)
    requires Inv(s) && Enabled(s, step) && i < |s.rows| && s.rows[i].status.Completed?
    ensures Apply(s, step).rows[i].status != Completed <==> step.Fail? && step.job == i
  {
  }

  /** Exactly when a failed job stops being failed: when one of its executions completes it. */
  lemma {:induction false} LeavesFailed(s: State, step: Step, i: nat)
    requires Inv(s) && Enabled(s, step) && i < |s.rows| && s.rows[i].status.Failed?
    ensures Apply(s, step).rows[i].status != Failed <==> (step.Complete? || step.CompleteUnacked?) && step.job == i
  {
  }

  predicate Done(s: State, i: nat) {
    i < |s.rows| && s.rows[i].status.Completed?
  }

  ghost predicate NobodyAt(s: State, i: nat) {
    forall a: nat :: !Live(s, i, a)
  }

  lemma {:induction false} DoneAndLeftStep(s: State, step: Step, i: nat)
    requires Inv(s) && Enabled(s, step) && Done(s, i) && NobodyAt(s, i)
    ensures Done(Apply(s, step), i) && NobodyAt(Apply(s, step), i)
  {
    var t := Apply(s, step);
    assert t.execs[i] == s.execs[i];
    forall a: nat
      ensures !Live(t, i, a)
    {
      assert !Live(s, i, a);
    }
  }

  lemma {:induction false} DoneAndLeftStays(s: State, steps: seq<Step>, i: nat)
    requires Inv(s) && ValidRun(s, steps) && Done(s, i) && NobodyAt(s, i)
    ensures Done(Run(s, steps), i) && NobodyAt(Run(s, steps), i)
    decreases |steps|
  {
    if steps != [] {
      InvStep(s, steps[0]);
      DoneAndLeftStep(s, steps[0], i);
      DoneAndLeftStays(Apply(s, steps[0]), steps[1..], i);
    }
  }

  lemma {:induction false} FailureUndoes(s: State, i: nat, a: nat)
    requires Inv(s) && Done(s, i) && Live(s, i, a)
    ensures exists steps :: ValidRun(s, steps) && !Done(Run(s, steps), i)
  {
    var t, steps := Apply(s, Fail(i, a)), [Fail(i, a)];
    LeavesCompleted(s, Fail(i, a), i);
    assert steps[1..] == [] && ValidRun(t, []);
    assert ValidRun(s, steps) && Run(s, steps) == t;
  }

  /** A completed job is completed after every run exactly if nobody is at work on it any more. */
  lemma {:induction false} CompletedForGood(s: State, i: nat)
    requires Inv(s) && Done(s, i)
    ensures NobodyAt(s, i) <==> forall steps :: ValidRun(s, steps) ==> Done(Run(s, steps), i)
  {
    if NobodyAt(s, i) {
      forall steps | ValidRun(s, steps)
        ensures Done(Run(s, steps), i)
      {
        DoneAndLeftStays(s, steps, i);
      }
    } else {
      var a: nat :| Live(s, i, a);
      FailureUndoes(s, i, a);
    }
  }

  predicate GivenUp(s: State, i: nat) {
    i < |s.rows| && s.rows[i].status.Failed?
  }

  ghost predicate NobodyWorksAt(s: State, i: nat) {
    forall a: nat :: Live(s, i, a) ==> s.execs[i][a].Reporting?
  }

  lemma {:induction false} GivenUpStep(s: State, step: Step, i: nat)
    requires Inv(s) && Enabled(s, step) && GivenUp(s, i) && NobodyWorksAt(s, i)
    ensures GivenUp(Apply(s, step), i) && NobodyWorksAt(Apply(s, step), i)
  {
    var t := Apply(s, step);
    assert |t.execs[i]| == |s.execs[i]|;
    forall a: nat | Live(t, i, a)
      ensures t.execs[i][a].Reporting?
    {
      assert Live(s, i, a);
    }
  }

  lemma {:induction false} GivenUpStays(s: State, steps: seq<Step>, i: nat)
    requires Inv(s) && ValidRun(s, steps) && GivenUp(s, i) && NobodyWorksAt(s, i)
    ensures GivenUp(Run(s, steps), i)
    decreases |steps|
  {
    if steps != [] {
      InvStep(s, steps[0]);
      GivenUpStep(s, steps[0], i);
      GivenUpStays(Apply(s, steps[0]), steps[1..], i);
    }
  }

  lemma {:induction false} CompletionRevives(s: State, i: nat, a: nat)
    requires Inv(s) && GivenUp(s, i) && Live(s, i, a) && s.execs[i][a].Working?
    ensures exists steps :: ValidRun(s, steps) && !GivenUp(Run(s, steps), i)
  {
    var t, steps := Apply(s, Complete(i, a)), [Complete(i, a)];
    LeavesFailed(s, Complete(i, a), i);
    assert steps[1..] == [] && ValidRun(t, []);
    assert ValidRun(s, steps) && Run(s, steps) == t;
  }

  /** A failed job is failed after every run exactly if no execution of it can still complete. */
  lemma {:induction false} FailedForGood(s: State, i: nat)
    requires Inv(s) && GivenUp(s, i)
    ensures NobodyWorksAt(s, i) <==> forall steps :: ValidRun(s, steps) ==> GivenUp(Run(s, steps), i)
  {
    if NobodyWorksAt(s, i) {
      forall steps | ValidRun(s, steps)
        ensures GivenUp(Run(s, steps), i)
      {
        GivenUpStays(s, steps, i);
      }
    } else {
      var a: nat :| Live(s, i, a) && s.execs[i][a].Working?;
      CompletionRevives(s, i, a);
    }
  }

  /** How often the run completes job i with an acknowledged update. */
  function CompletionsOf(steps: seq<Step>, i: nat): nat {
    if steps == [] then 0
    else (if steps[0].Complete? && steps[0].job == i then 1 else 0) + CompletionsOf(steps[1..], i)
  }

  /** A table with one job. */
  function One(j: Job, execs: seq<Phase>, now: int): State {
    State([j], [execs], now)
  }

  lemma {:induction false} ClaimOne(j: Job, execs: seq<Phase>, now: int)
    requires Claimable(j)
    ensures Enabled(One(j, execs, now), Claim({0}))
    ensures Apply(One(j, execs, now), Claim({0})) == One(ClaimRow(j, now), execs + [Working(now)], now)
  {
  }

  lemma {:induction false} ReportOne(j: Job, execs: seq<Phase>, a: nat, now: int)
    requires a < |execs| && execs[a].Working?
    ensures Enabled(One(j, execs, now), Complete(0, a)) && Enabled(One(j, execs, now), Fail(0, a))
    ensures Apply(One(j, execs, now), Complete(0, a)) == One(CompleteRow(j), execs[a := Gone], now)
    ensures Apply(One(j, execs, now), Fail(0, a)) == One(FailRow(j), execs[a := Gone], now)
  {
  }

  lemma {:induction false} ResetOne(j: Job, execs: seq<Phase>, now: int)
    requires Orphaned(j, now)
    ensures Apply(One(j, execs, now), ResetOrphans) == One(ResetRow(j), execs, now)
  {
  }

  lemma {:induction false} Prepend(s: State, step: Step, rest: seq<Step>)
    requires Enabled(s, step) && ValidRun(Apply(s, step), rest)
    ensures ValidRun(s, [step] + rest)
    ensures CompletionsOf([step] + rest, 0) ==
            (if step.Complete? && step.job == 0 then 1 else 0) + CompletionsOf(rest, 0)
    ensures ExecutionsOf([step] + rest, 0) == (if step.Claim? && 0 in step.ids then 1 else 0) + ExecutionsOf(rest, 0)
  {
  }

  /** From a reset job whose first worker is still alive: claim, completion, the stale failure, claim, completion. */
  lemma {:induction false} StaleTail(j: Job, w: Phase, now: int) returns (steps: seq<Step>)
    requires j.kind.VideoProcessing? && j.status.Pending? && j.attempts == 1 && j.maxAttempts == 3 && w.Working?
    ensures ValidRun(One(j, [w], now), steps) && CompletionsOf(steps, 0) == 2 && ExecutionsOf(steps, 0) == 2
  {
    var x := Working(now);
    var j1 := ClaimRow(j, now);
    var j2 := FailRow(CompleteRow(j1));
    var j3 := ClaimRow(j2, now);
    ClaimOne(j, [w], now);
    ReportOne(j1, [w, x], 1, now);
    ReportOne(CompleteRow(j1), [w, Gone], 0, now);
    ClaimOne(j2, [Gone, Gone], now);
    ReportOne(j3, [Gone, Gone, x], 2, now);
    assert [w] + [x] == [w, x] && [w, x][1 := Gone] == [w, Gone] && [w, Gone][0 := Gone] == [Gone, Gone];
    assert [Gone, Gone] + [x] == [Gone, Gone, x];
    Prepend(One(j3, [Gone, Gone, x], now), Complete(0, 2), []);
    steps := [Complete(0, 2)] + [];
    Prepend(One(j2, [Gone, Gone], now), Claim({0}), steps);
    steps := [Claim({0})] + steps;
    Prepend(One(CompleteRow(j1), [w, Gone], now), Fail(0, 0), steps);
    steps := [Fail(0, 0)] + steps;
    Prepend(One(j1, [w, x], now), Complete(0, 1), steps);
    steps := [Complete(0, 1)] + steps;
    Prepend(One(j, [w], now), Claim({0}), steps);
    steps := [Claim({0})] + steps;
  }

  /** A claimed job whose worker stalls past the threshold. */
  lemma {:induction false} StaleRun(j: Job) returns (steps: seq<Step>)
    requires j.kind.VideoProcessing? && j.status.Running? && j.attempts == 1 && j.maxAttempts == 3 && j.startedAt == 0
    ensures ValidRun(One(j, [Working(0)], 0), steps) && CompletionsOf(steps, 0) == 2 && ExecutionsOf(steps, 0) == 2
  {
    var w := Working(0);
    steps := StaleTail(ResetRow(j), w, 1801);
    ResetOne(j, [w], 1801);
    Prepend(One(j, [w], 1801), ResetOrphans, steps);
    steps := [ResetOrphans] + steps;
    Prepend(One(j, [w], 0), Tick(1801), steps);
    steps := [Tick(1801)] + steps;
  }

  /**
   * A worker that outlives the stale threshold undoes a completion: the job goes back to pending, is
   * executed a third time and completes a second time.
   */
  lemma {:induction false} StaleWorkerCompletesTwice()
    ensures exists steps ::
      ValidRun(EMPTY, steps) && CompletionsOf(steps, 0) == 2 && ExecutionsOf(steps, 0) == 3
  {
    var j := Job(VideoProcessing, Pending, 0, 3, 0, 0, 0);
    var steps := StaleRun(ClaimRow(j, 0));
    ClaimOne(j, [], 0);
    assert [] + [Working(0)] == [Working(0)];
    Prepend(One(j, [], 0), Claim({0}), steps);
    steps := [Claim({0})] + steps;
    assert Apply(EMPTY, Insert(VideoProcessing, 0, 3)) == One(j, [], 0);
    Prepend(EMPTY, Insert(VideoProcessing, 0, 3), steps);
    steps := [Insert(VideoProcessing, 0, 3)] + steps;
  }

  lemma {:induction false} Then(s: State, step: Step, rest: seq<Step>) returns (steps: seq<Step>)
    requires Enabled(s, step) && !step.ResetOrphans?
    requires ValidRun(Apply(s, step), rest) && TimelyRun(Apply(s, step), rest)
    ensures steps == [step] + rest && ValidRun(s, steps) && TimelyRun(s, steps)
    ensures Run(s, steps) == Run(Apply(s, step), rest)
    ensures ExecutionsOf(steps, 0) == (if step.Claim? && 0 in step.ids then 1 else 0) + ExecutionsOf(rest, 0)
  {
    steps := [step] + rest;
    assert steps[1..] == rest;
  }

  /** The first execution loses the answer to its completion and reports a failure; the job is claimed again. */
  lemma {:induction false} LostAnswer(j: Job) returns (steps: seq<Step>)
    requires j.kind.VideoProcessing? && j.status.Running? && j.attempts == 1 && j.maxAttempts == 3
    ensures var s := One(j, [Working(0)], 0);
      && ValidRun(s, steps) && TimelyRun(s, steps) && ExecutionsOf(steps, 0) == 1
      && steps[..1] == [CompleteUnacked(0, 0)]
      && Apply(s, steps[0]) == One(CompleteRow(j), [Reporting(0)], 0)
      && !Done(Run(s, steps), 0)
  {
    var s1 := One(CompleteRow(j), [Reporting(0)], 0);
    var j2 := FailRow(CompleteRow(j));
    var s2 := One(j2, [Gone], 0);
    assert [Working(0)][0 := Reporting(0)] == [Reporting(0)] && [Reporting(0)][0 := Gone] == [Gone];
    assert Apply(One(j, [Working(0)], 0), CompleteUnacked(0, 0)) == s1;
    assert Apply(s1, Fail(0, 0)) == s2;
    ClaimOne(j2, [Gone], 0);
    steps := Then(s2, Claim({0}), []);
    steps := Then(s1, Fail(0, 0), steps);
    steps := Then(One(j, [Working(0)], 0), CompleteUnacked(0, 0), steps);
  }

  /** A job with so many attempts after its first claim. */
  function Claimed(max: nat): State {
    One(ClaimRow(Job(VideoProcessing, Pending, 0, max, 0, 0, 0), 0), [Working(0)], 0)
  }

  lemma {:induction false} EnqueueAndClaim(max: nat, tail: seq<Step>) returns (steps: seq<Step>)
    requires max > 0 && ValidRun(Claimed(max), tail) && TimelyRun(Claimed(max), tail)
    ensures steps == [Insert(VideoProcessing, 0, max), Claim({0})] + tail
    ensures ValidRun(EMPTY, steps) && TimelyRun(EMPTY, steps) && Run(EMPTY, steps) == Run(Claimed(max), tail)
    ensures ExecutionsOf(steps, 0) == 1 + ExecutionsOf(tail, 0)
  {
    var j := Job(VideoProcessing, Pending, 0, max, 0, 0, 0);
    ClaimOne(j, [], 0);
    assert [] + [Working(0)] == [Working(0)];
    assert Apply(EMPTY, Insert(VideoProcessing, 0, max)) == One(j, [], 0);
    steps := Then(One(j, [], 0), Claim({0}), tail);
    steps := Then(EMPTY, Insert(VideoProcessing, 0, max), steps);
  }

  /** However prompt the workers are, a completion whose answer is lost is undone, and the job is executed again. */
  lemma {:induction false} LostAnswerUndoesCompletion() returns (steps: seq<Step>, done: seq<Step>)
    ensures done <= steps && ValidRun(EMPTY, done) && ValidRun(EMPTY, steps) && TimelyRun(EMPTY, steps)
    ensures Done(Run(EMPTY, done), 0) && !Done(Run(EMPTY, steps), 0) && ExecutionsOf(steps, 0) == 2
  {
    var tail := LostAnswer(Claimed(3).rows[0]);
    steps := EnqueueAndClaim(3, tail);
    done := Then(Claimed(3), tail[0], []);
    done := EnqueueAndClaim(3, done);
  }

  // ---------- What holds while workers are prompt ----------

  /** When orphans are reset no worker has been executing for longer than the stale threshold. */
  ghost predicate Timely(s: State, step: Step) {
    step.ResetOrphans? ==>
      forall i: nat, a: nat :: Live(s, i, a) && s.execs[i][a].Working? ==> s.now <= s.execs[i][a].since + STALE_AFTER
  }

  ghost predicate TimelyRun(s: State, steps: seq<Step>)
    requires ValidRun(s, steps)
    decreases |steps|
  {
    steps == [] || (Timely(s, steps[0]) && TimelyRun(Apply(s, steps[0]), steps[1..]))
  }

  /** Execution p works on the running job, or reports on the job it has completed. */
  predicate Attends(j: Job, p: Phase) {
    (j.status.Running? && p == Working(j.startedAt)) || (j.status.Completed? && p.Reporting?)
  }

  /** Only its latest execution is at work on a job. */
  ghost predicate SingleWorker(s: State) {
    forall i: nat, a: nat :: Live(s, i, a) ==> a + 1 == |s.execs[i]| && Attends(s.rows[i], s.execs[i][a])
  }

  /**
   * While workers are prompt: a job keeps one worker, its latest; a failed job does not change; a completed one
   * changes exactly if the execution that completed it lost the answer and reports a failure.
   */
  lemma {:induction false} SingleWorkerStep(s: State, step: Step)
    requires Inv(s) && SingleWorker(s) && Enabled(s, step) && Timely(s, step)
    ensures SingleWorker(Apply(s, step))
    ensures forall i :: 0 <= i < |s.rows| && s.rows[i].status.Failed? ==> Apply(s, step).rows[i] == s.rows[i]
    ensures forall i: nat :: Done(s, i) ==>
      (Apply(s, step).rows[i] != s.rows[i] <==> step.Fail? && step.job == i) &&
      (step.Fail? && step.job == i ==> s.execs[i][step.a].Reporting? && step.a + 1 == |s.execs[i]|)
  {
    var t := Apply(s, step);
    forall i: nat, a: nat | Live(t, i, a)
      ensures a + 1 == |t.execs[i]| && Attends(t.rows[i], t.execs[i][a])
    {
      if i < |s.rows| && a < |s.execs[i]| {
        assert Live(s, i, a);
      }
    }
  }

  /** How often the run reports a failure of job i. */
  function FailuresOf(steps: seq<Step>, i: nat): nat {
    if steps == [] then 0 else (if steps[0].Fail? && steps[0].job == i then 1 else 0) + FailuresOf(steps[1..], i)
  }

  /** How often the run completes job i with an update whose answer is lost. */
  function LostAnswersOf(steps: seq<Step>, i: nat): nat {
    if steps == [] then 0
    else (if steps[0].CompleteUnacked? && steps[0].job == i then 1 else 0) + LostAnswersOf(steps[1..], i)
  }

  /** Job i is past its k-th execution, or waits for the next one with nobody at work on it. */
  ghost predicate MovedOn(s: State, i: nat, k: nat) {
    && i < |s.rows|
    && (s.rows[i].attempts > k ||
        (s.rows[i].attempts == k && (s.rows[i].status.Pending? || s.rows[i].status.Failed?) && NobodyAt(s, i)))
  }

  lemma {:induction false} MovedOnStays(s: State, steps: seq<Step>, i: nat, k: nat)
    requires Inv(s) && ValidRun(s, steps) && MovedOn(s, i, k)
    ensures MovedOn(Run(s, steps), i, k)
    decreases |steps|
  {
    if steps != [] {
      var t := Apply(s, steps[0]);
      InvStep(s, steps[0]);
      if t.rows[i].attempts == k {
        assert t.execs[i] == s.execs[i];
        forall a: nat
          ensures !Live(t, i, a)
        {
          assert !Live(s, i, a);
        }
      }
      MovedOnStays(t, steps[1..], i, k);
    }
  }

  lemma {:induction false} FailureMovesOn(s: State, i: nat, a: nat)
    requires Inv(s) && SingleWorker(s) && Enabled(s, Fail(i, a))
    ensures MovedOn(Apply(s, Fail(i, a)), i, s.rows[i].attempts)
  {
    var t := Apply(s, Fail(i, a));
    assert Live(s, i, a);
    forall b: nat
      ensures !Live(t, i, b)
    {
      assert Live(s, i, b) ==> b == a;
    }
  }

  /** Over any run with prompt workers a completed job is left as it is exactly if no failure of it is reported. */
  lemma {:induction false} UndoneByOwnReport(s: State, steps: seq<Step>, i: nat)
    requires Inv(s) && SingleWorker(s) && ValidRun(s, steps) && TimelyRun(s, steps) && Done(s, i)
    ensures i < |Run(s, steps).rows|
    ensures Run(s, steps).rows[i] == s.rows[i] <==> FailuresOf(steps, i) == 0
    ensures FailuresOf(steps, i) > 0 ==> !NobodyAt(s, i)
    decreases |steps|
  {
    if steps != [] {
      var t := Apply(s, steps[0]);
      InvStep(s, steps[0]);
      SingleWorkerStep(s, steps[0]);
      if steps[0].Fail? && steps[0].job == i {
        assert Live(s, i, steps[0].a);
        FailureMovesOn(s, i, steps[0].a);
        MovedOnStays(t, steps[1..], i, s.rows[i].attempts);
      } else {
        UndoneByOwnReport(t, steps[1..], i);
        if NobodyAt(s, i) {
          DoneAndLeftStep(s, steps[0], i);
        }
      }
    }
  }

  /** 1 if job i is completed and nobody is at work on it. */
  ghost function Settled(s: State, i: nat): nat {
    if Done(s, i) && NobodyAt(s, i) then 1 else 0
  }

  lemma {:induction false} SettledStep(s: State, step: Step, i: nat)
    requires Inv(s) && SingleWorker(s) && Enabled(s, step) && Timely(s, step)
    ensures (if step.Complete? && step.job == i then 1 else 0) + Settled(s, i) <= Settled(Apply(s, step), i)
  {
    var t := Apply(s, step);
    if step.Complete? && step.job == i {
      assert Live(s, i, step.a);
      forall b: nat
        ensures !Live(t, i, b)
      {
        assert Live(s, i, b) ==> b == step.a;
      }
    } else if Settled(s, i) == 1 {
      DoneAndLeftStep(s, step, i);
    }
  }

  /** With prompt workers, over any run: one worker per job, failed jobs final, at most one acknowledged completion. */
  lemma {:induction false} TimelyRuns(s: State, steps: seq<Step>, i: nat)
    requires Inv(s) && SingleWorker(s) && ValidRun(s, steps) && TimelyRun(s, steps)
    ensures SingleWorker(Run(s, steps))
    ensures i < |s.rows| && s.rows[i].status.Failed? ==>
      i < |Run(s, steps).rows| && Run(s, steps).rows[i] == s.rows[i]
    ensures CompletionsOf(steps, i) + Settled(s, i) <= Settled(Run(s, steps), i)
    decreases |steps|
  {
    if steps != [] {
      InvStep(s, steps[0]);
      SingleWorkerStep(s, steps[0]);
      SettledStep(s, steps[0], i);
      TimelyRuns(Apply(s, steps[0]), steps[1..], i);
    }
  }

  /** From the empty table, with prompt workers, no job completes twice with an acknowledged update. */
  lemma {:induction false} CompletesAtMostOnce(steps: seq<Step>, i: nat)
    requires ValidRun(EMPTY, steps) && TimelyRun(EMPTY, steps)
    ensures CompletionsOf(steps, i) <= 1
    ensures CompletionsOf(steps, i) == 1 ==> Done(Run(EMPTY, steps), i) && NobodyAt(Run(EMPTY, steps), i)
    ensures SingleWorker(Run(EMPTY, steps))
  {
    TimelyRuns(EMPTY, steps, i);
  }

  lemma {:induction false} NoReportsStep(s: State, step: Step, i: nat)
    requires Inv(s) && SingleWorker(s) && Enabled(s, step) && Timely(s, step)
    requires !(step.CompleteUnacked? && step.job == i) && (Done(s, i) ==> NobodyAt(s, i))
    ensures Done(Apply(s, step), i) ==> NobodyAt(Apply(s, step), i)
    ensures Done(s, i) ==> Done(Apply(s, step), i) && Apply(s, step).rows[i] == s.rows[i]
    ensures (if step.Complete? && step.job == i then 1 else 0) + (if Done(s, i) then 1 else 0) ==
            if Done(Apply(s, step), i) then 1 else 0
  {
    InvStep(s, step);
    SingleWorkerStep(s, step);
    SettledStep(s, step, i);
    if step.Complete? && step.job == i {
      assert Live(s, i, step.a);
    } else if step.Fail? && step.job == i {
      assert Live(s, i, step.a);
    }
  }

  /** If besides no answer is lost, a completed job never changes, and each completes as often as it is completed. */
  lemma {:induction false} PromptRuns(s: State, steps: seq<Step>, i: nat)
    requires Inv(s) && SingleWorker(s) && ValidRun(s, steps) && TimelyRun(s, steps)
    requires LostAnswersOf(steps, i) == 0 && (Done(s, i) ==> NobodyAt(s, i))
    ensures Done(s, i) ==> Done(Run(s, steps), i) && Run(s, steps).rows[i] == s.rows[i]
    ensures CompletionsOf(steps, i) + (if Done(s, i) then 1 else 0) == if Done(Run(s, steps), i) then 1 else 0
    decreases |steps|
  {
    if steps != [] {
      InvStep(s, steps[0]);
      SingleWorkerStep(s, steps[0]);
      NoReportsStep(s, steps[0], i);
      PromptRuns(Apply(s, steps[0]), steps[1..], i);
    }
  }

  // ---------- What the orphan reset does not cover ----------

  predicate IsRunning(s: State, i: nat) {
    i < |s.rows| && s.rows[i].status.Running?
  }

  /** A job whose worker vanished on its last attempt stays running for ever: no step of any run touches it. */
  lemma {:induction false} LostLastAttemptStays(s: State, steps: seq<Step>, i: nat)
    requires Inv(s) && ValidRun(s, steps) && IsRunning(s, i)
    requires s.rows[i].attempts == s.rows[i].maxAttempts && NobodyAt(s, i)
    ensures i < |Run(s, steps).rows| && Run(s, steps).rows[i] == s.rows[i]
    decreases |steps|
  {
    if steps != [] {
      var t := Apply(s, steps[0]);
      InvStep(s, steps[0]);
      assert t.rows[i] == s.rows[i] && t.execs[i] == s.execs[i];
      forall a: nat
        ensures !Live(t, i, a)
      {
        assert !Live(s, i, a);
      }
      LostLastAttemptStays(t, steps[1..], i);
    }
  }

  lemma {:induction false} FailureStops(s: State, i: nat, a: nat)
    requires Inv(s) && IsRunning(s, i) && Live(s, i, a)
    ensures exists steps :: ValidRun(s, steps) && !IsRunning(Run(s, steps), i)
  {
    var t, steps := Apply(s, Fail(i, a)), [Fail(i, a)];
    assert steps[1..] == [] && ValidRun(t, []);
    assert t.rows[i] == FailRow(s.rows[i]);
    assert ValidRun(s, steps) && Run(s, steps) == t;
  }

  lemma {:induction false} ResetStops(s: State, i: nat)
    requires Inv(s) && IsRunning(s, i) && s.rows[i].attempts < s.rows[i].maxAttempts
    ensures exists steps :: ValidRun(s, steps) && !IsRunning(Run(s, steps), i)
  {
    var wait := s.rows[i].startedAt + STALE_AFTER + 1 - s.now;
    var tick := Tick(if wait < 0 then 0 else wait);
    var s1 := Apply(s, tick);
    var s2 := Apply(s1, ResetOrphans);
    var steps := [tick, ResetOrphans];
    assert steps[1..] == [ResetOrphans] && [ResetOrphans][1..] == [] && ValidRun(s2, []);
    assert ValidRun(s1, [ResetOrphans]) && Run(s1, [ResetOrphans]) == s2;
    assert Orphaned(s1.rows[i], s1.now) && !IsRunning(s2, i);
    assert ValidRun(s, steps) && Run(s, steps) == s2;
  }

  /** A running job is running after every run exactly if it has no attempt left and nobody is at work on it. */
  lemma {:induction false} RunningForGood(s: State, i: nat)
    requires Inv(s) && IsRunning(s, i)
    ensures s.rows[i].attempts == s.rows[i].maxAttempts && NobodyAt(s, i) <==>
            forall steps :: ValidRun(s, steps) ==> IsRunning(Run(s, steps), i)
  {
    if s.rows[i].attempts < s.rows[i].maxAttempts {
      ResetStops(s, i);
    } else if NobodyAt(s, i) {
      forall steps | ValidRun(s, steps)
        ensures IsRunning(Run(s, steps), i)
      {
        LostLastAttemptStays(s, steps, i);
      }
    } else {
      var a: nat :| Live(s, i, a);
      FailureStops(s, i, a);
    }
  }

  /** A job with one attempt whose worker vanishes: it is running, and stays so. */
  lemma {:induction false} VanishedWorkerLeavesRunning() returns (steps: seq<Step>)
    ensures ValidRun(EMPTY, steps) && IsRunning(Run(EMPTY, steps), 0)
    ensures forall more :: ValidRun(Run(EMPTY, steps), more) ==> IsRunning(Run(Run(EMPTY, steps), more), 0)
  {
    var s := One(Claimed(1).rows[0], [Gone], 0);
    assert [Working(0)][0 := Gone] == [Gone];
    assert Apply(Claimed(1), Die(0, 0)) == s;
    steps := Then(Claimed(1), Die(0, 0), []);
    steps := EnqueueAndClaim(1, steps);
    assert NobodyAt(s, 0);
    RunningForGood(s, 0);
  }
}

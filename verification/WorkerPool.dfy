/**
 * The worker pool of lessons/pdf_processor_usecase.go, as interleaved steps of the sender, the workers, the closer
 * and the collector, with a context that may be cancelled at any moment. Job i is the i-th image.
 */
module WorkerPool {
  import opened Collections

  /** Sent on the result channel. */
  datatype Result = Result(job: nat, success: bool)

  datatype Worker = Idle | Got(job: nat) | Saved(result: Result) | Exited

  /**
   * jobs and results are the contents of the two channels, each of capacity n. outcome says for each job whether
   * saving it succeeds; tried and lost are the jobs whose save was carried out and those that were dropped.
   */
  datatype State = State(
    outcome: seq<bool>,
    sending: bool, next: nat, jobs: seq<nat>, jobsClosed: bool,
    workers: seq<Worker>,
    results: seq<Result>, resultsClosed: bool,
    collected: seq<Result>, processed: nat, done: bool,
    cancelled: bool, tried: set<nat>, lost: seq<nat>)

  datatype Step =
    | Send | SenderClose | SenderQuit
    | Receive(w: nat) | Save(w: nat) | Put(w: nat) | WorkerEnd(w: nat) | WorkerQuit(w: nat)
    | CloseResults
    | Collect | Finish
    | Cancel

  function Start(outcome: seq<bool>, workers: nat): State {
    State(outcome, true, 0, [], false, seq(workers, _ => Idle), [], false, [], 0, false, false, {}, [])
  }

  predicate AllExited(workers: seq<Worker>) {
    forall w :: 0 <= w < |workers| ==> workers[w].Exited?
  }

  predicate Enabled(s: State, step: Step) {
    var n := |s.outcome|;
    match step
    case Send => s.sending && s.next < n && |s.jobs| < n
    case SenderClose => s.sending && s.next == n
    case SenderQuit => s.sending && s.next < n && s.cancelled
    case Receive(w) => w < |s.workers| && s.workers[w].Idle? && s.jobs != []
    case Save(w) => w < |s.workers| && s.workers[w].Got? && s.workers[w].job < n && !s.cancelled
    case Put(w) => w < |s.workers| && s.workers[w].Saved? && |s.results| < n
    case WorkerEnd(w) => w < |s.workers| && s.workers[w].Idle? && s.jobs == [] && s.jobsClosed
    case WorkerQuit(w) => w < |s.workers| && (s.workers[w].Got? || s.workers[w].Saved?) && s.cancelled
    case CloseResults => AllExited(s.workers) && !s.resultsClosed
    case Collect => s.results != [] && !s.done
    case Finish => s.results == [] && s.resultsClosed && !s.done
    case Cancel => !s.cancelled
  }

  function JobOf(w: Worker): nat
    requires w.Got? || w.Saved?
  {
    if w.Got? then w.job else w.result.job
  }

  function DoSend(s: State): State {
    s.(jobs := s.jobs + [s.next], next := s.next + 1)
  }

  function DoReceive(s: State, w: nat): State
    requires Enabled(s, Receive(w))
  {
    s.(jobs := s.jobs[1..], workers := s.workers[w := Got(s.jobs[0])])
  }

  function DoSave(s: State, w: nat): State
    requires Enabled(s, Save(w))
  {
    var j := s.workers[w].job;
    s.(workers := s.workers[w := Saved(Result(j, s.outcome[j]))],
       tried := s.tried + {j})
  }

  function DoPut(s: State, w: nat): State
    requires Enabled(s, Put(w))
  {
    s.(results := s.results + [s.workers[w].result], workers := s.workers[w := Idle])
  }

  function DoQuit(s: State, w: nat): State
    requires Enabled(s, WorkerQuit(w))
  {
    s.(workers := s.workers[w := Exited], lost := s.lost + [JobOf(s.workers[w])])
  }

  function DoEnd(s: State, w: nat): State
    requires Enabled(s, WorkerEnd(w))
  {
    s.(workers := s.workers[w := Exited])
  }

  function DoCollect(s: State): State
    requires Enabled(s, Collect)
  {
    s.(results := s.results[1..], collected := s.collected + [s.results[0]],
       processed := s.processed + if s.results[0].success then 1 else 0)
  }

  function CloseJobs(s: State): State {
    s.(sending := false, jobsClosed := true)
  }

  function Apply(s: State, step: Step): State
    requires Enabled(s, step)
  {
    match step
    case Send => DoSend(s)
    case SenderClose => CloseJobs(s)
    case SenderQuit => CloseJobs(s)
    case Receive(w) => DoReceive(s, w)
    case Save(w) => DoSave(s, w)
    case Put(w) => DoPut(s, w)
    case WorkerEnd(w) => DoEnd(s, w)
    case WorkerQuit(w) => DoQuit(s, w)
    case CloseResults => s.(resultsClosed := true)
    case Collect => DoCollect(s)
    case Finish => s.(done := true)
    case Cancel => s.(cancelled := true)
  }

  predicate ValidRun(s: State, steps: seq<Step>)
    decreases |steps|
  {
    steps == [] || (Enabled(s, steps[0]) && ValidRun(Apply(s, steps[0]), steps[1..]))
  }

  function Run(s: State, steps: seq<Step>): State
    requires ValidRun(s, steps)
    decreases |steps|
  {
    if steps == [] then s else Run(Apply(s, steps[0]), steps[1..])
  }

  // ---------- Where the jobs are ----------

  /** What is added up over the workers: who holds job j, who holds any job, or the steps they have left. */
  datatype Quantity = HoldsJob(j: nat) | Busy | StepsLeft

  function Amount(w: Worker, q: Quantity): nat {
    match q
    case HoldsJob(j) => One((w.Got? || w.Saved?) && JobOf(w) == j)
    case Busy => One(w.Got? || w.Saved?)
    case StepsLeft => match w { case Idle => 1 case Got(_) => 4 case Saved(_) => 3 case Exited => 0 }
  }

  function Total(workers: seq<Worker>, q: Quantity): nat {
    if workers == [] then 0 else Total(workers[..|workers| - 1], q) + Amount(workers[|workers| - 1], q)
  }

  function One(b: bool): nat {
    if b then 1 else 0
  }

  function Count(jobs: seq<nat>, j: nat): nat {
    if jobs == [] then 0 else Count(jobs[..|jobs| - 1], j) + One(jobs[|jobs| - 1] == j)
  }

  function Jobs(results: seq<Result>): (jobs: seq<nat>)
    ensures |jobs| == |results|
    ensures forall k :: 0 <= k < |results| ==> jobs[k] == results[k].job
  {
    seq(|results|, k requires 0 <= k < |results| => results[k].job)
  }

  function Successes(results: seq<Result>): nat {
    if results == [] then 0 else Successes(results[..|results| - 1]) + One(results[|results| - 1].success)
  }

  /** In how many places job j is. */
  function Places(s: State, j: nat): nat {
    Count(s.jobs, j) + Total(s.workers, HoldsJob(j)) + Count(Jobs(s.results), j) + Count(Jobs(s.collected), j)
    + Count(s.lost, j)
  }

  function Size(s: State): nat {
    |s.jobs| + Total(s.workers, Busy) + |s.results| + |s.collected| + |s.lost|
  }

  predicate Honest(s: State, r: Result) {
    r.job < |s.outcome| && r.success == s.outcome[r.job] && r.job in s.tried
  }

  predicate WorkerInv(s: State, w: Worker) {
    match w
    case Got(job) => job < |s.outcome|
    case Saved(r) => Honest(s, r)
    case Exited => s.cancelled || (s.jobsClosed && s.jobs == [])
    case Idle => true
  }

  predicate ChannelInv(s: State) {
    && s.sending == !s.jobsClosed
    && (s.jobsClosed && !s.cancelled ==> s.next == |s.outcome|)
    && (s.resultsClosed ==> AllExited(s.workers))
    && (s.done ==> s.resultsClosed && s.results == [])
    && (!s.cancelled ==> s.lost == [])
  }

  predicate ResultInv(s: State) {
    && (forall k :: 0 <= k < |s.jobs| ==> s.jobs[k] < |s.outcome|)
    && (forall k :: 0 <= k < |s.results| ==> Honest(s, s.results[k]))
    && (forall k :: 0 <= k < |s.collected| ==> Honest(s, s.collected[k]))
    && s.processed == Successes(s.collected)
    && (forall j :: j in s.tried ==> j < |s.outcome|)
  }

  /** Every job sent so far is in exactly one place. */
  ghost predicate Conserved(s: State) {
    Size(s) == s.next && forall j: nat :: Places(s, j) == One(j < s.next)
  }

  ghost predicate Inv(s: State) {
    && |s.workers| > 0 && s.next <= |s.outcome|
    && Conserved(s) && ChannelInv(s) && ResultInv(s)
    && forall w :: 0 <= w < |s.workers| ==> WorkerInv(s, s.workers[w])
  }

  lemma {:induction false} TotalUpdate(workers: seq<Worker>, w: nat, x: Worker, q: Quantity)
    requires w < |workers|
    ensures Total(workers[w := x], q) == Total(workers, q) - Amount(workers[w], q) + Amount(x, q)
  {
    var n := |workers| - 1;
    if w == n {
      assert workers[w := x][..n] == workers[..n];
    } else {
      TotalUpdate(workers[..n], w, x, q);
      assert workers[w := x][..n] == workers[..n][w := x];
    }
  }

  lemma {:induction false} TotalOf(workers: seq<Worker>, q: Quantity, each: nat)
    requires forall w :: 0 <= w < |workers| ==> Amount(workers[w], q) == each
    ensures Total(workers, q) == each * |workers|
  {
    if workers != [] {
      TotalOf(workers[..|workers| - 1], q, each);
    }
  }

  lemma {:induction false} CountAppend(jobs: seq<nat>, x: nat, j: nat)
    ensures Count(jobs + [x], j) == Count(jobs, j) + One(x == j)
  {
  }

  lemma {:induction false} CountRemove(jobs: seq<nat>, k: nat, j: nat)
    requires k < |jobs|
    ensures Count(jobs, j) == Count(jobs[..k] + jobs[k+1..], j) + One(jobs[k] == j)
  {
    var n := |jobs| - 1;
    if k == n {
      assert jobs[..k] + jobs[k+1..] == jobs[..n];
    } else {
      CountRemove(jobs[..n], k, j);
      var rest := jobs[..n][..k] + jobs[..n][k+1..];
      assert jobs[..k] + jobs[k+1..] == rest + [jobs[n]];
      CountAppend(rest, jobs[n], j);
    }
  }

  lemma {:induction false} CountTail(jobs: seq<nat>, j: nat)
    requires jobs != []
    ensures Count(jobs, j) == Count(jobs[1..], j) + One(jobs[0] == j)
  {
    CountRemove(jobs, 0, j);
    assert jobs[..0] + jobs[1..] == jobs[1..];
  }

  lemma {:induction false} CollectPlaces(results: seq<Result>, collected: seq<Result>, j: nat)
    requires results != []
    ensures Count(Jobs(results[1..]), j) + Count(Jobs(collected + [results[0]]), j) ==
            Count(Jobs(results), j) + Count(Jobs(collected), j)
  {
    CountTail(Jobs(results), j);
    assert Jobs(results[1..]) == Jobs(results)[1..];
    assert Jobs(collected + [results[0]]) == Jobs(collected) + [results[0].job];
    CountAppend(Jobs(collected), results[0].job, j);
  }

  lemma {:induction false} SendConserves(s: State)
    requires Conserved(s) && Enabled(s, Send)
    ensures Conserved(DoSend(s))
  {
    forall j: nat
      ensures Places(DoSend(s), j) == One(j < s.next + 1)
    {
      CountAppend(s.jobs, s.next, j);
      assert Places(s, j) == One(j < s.next);
    }
  }

  lemma {:induction false} ReceivePlaces(s: State, w: nat, j: nat)
    requires Enabled(s, Receive(w))
    ensures Places(DoReceive(s, w), j) == Places(s, j)
  {
    TotalUpdate(s.workers, w, Got(s.jobs[0]), HoldsJob(j));
    CountTail(s.jobs, j);
  }

  lemma {:induction false} ReceiveConserves(s: State, w: nat)
    requires Conserved(s) && Enabled(s, Receive(w))
    ensures Conserved(DoReceive(s, w))
  {
    TotalUpdate(s.workers, w, Got(s.jobs[0]), Busy);
    forall j: nat
      ensures Places(DoReceive(s, w), j) == One(j < s.next)
    {
      ReceivePlaces(s, w, j);
      assert Places(s, j) == One(j < s.next);
    }
  }

  lemma {:induction false} SaveConserves(s: State, w: nat)
    requires Conserved(s) && Enabled(s, Save(w))
    ensures Conserved(DoSave(s, w))
  {
    var x := DoSave(s, w).workers[w];
    TotalUpdate(s.workers, w, x, Busy);
    forall j: nat
      ensures Places(DoSave(s, w), j) == One(j < s.next)
    {
      TotalUpdate(s.workers, w, x, HoldsJob(j));
      assert Places(s, j) == One(j < s.next);
    }
  }

  lemma {:induction false} PutPlaces(s: State, w: nat, j: nat)
    requires Enabled(s, Put(w))
    ensures Places(DoPut(s, w), j) == Places(s, j)
  {
    var r := s.workers[w].result;
    TotalUpdate(s.workers, w, Idle, HoldsJob(j));
    assert Jobs(s.results + [r]) == Jobs(s.results) + [r.job];
    CountAppend(Jobs(s.results), r.job, j);
  }

  lemma {:induction false} PutConserves(s: State, w: nat)
    requires Conserved(s) && Enabled(s, Put(w))
    ensures Conserved(DoPut(s, w))
  {
    TotalUpdate(s.workers, w, Idle, Busy);
    forall j: nat
      ensures Places(DoPut(s, w), j) == One(j < s.next)
    {
      PutPlaces(s, w, j);
      assert Places(s, j) == One(j < s.next);
    }
  }

  lemma {:induction false} EndConserves(s: State, w: nat)
    requires Conserved(s) && Enabled(s, WorkerEnd(w))
    ensures Conserved(DoEnd(s, w))
  {
    TotalUpdate(s.workers, w, Exited, Busy);
    forall j: nat
      ensures Places(DoEnd(s, w), j) == One(j < s.next)
    {
      TotalUpdate(s.workers, w, Exited, HoldsJob(j));
      assert Places(s, j) == One(j < s.next);
    }
  }

  lemma {:induction false} QuitPlaces(s: State, w: nat, j: nat)
    requires Enabled(s, WorkerQuit(w))
    ensures Places(DoQuit(s, w), j) == Places(s, j)
  {
    TotalUpdate(s.workers, w, Exited, HoldsJob(j));
    CountAppend(s.lost, JobOf(s.workers[w]), j);
  }

  lemma {:induction false} QuitConserves(s: State, w: nat)
    requires Conserved(s) && Enabled(s, WorkerQuit(w))
    ensures Conserved(DoQuit(s, w))
  {
    TotalUpdate(s.workers, w, Exited, Busy);
    forall j: nat
      ensures Places(DoQuit(s, w), j) == One(j < s.next)
    {
      QuitPlaces(s, w, j);
      assert Places(s, j) == One(j < s.next);
    }
  }

  lemma {:induction false} CollectConserves(s: State)
    requires Conserved(s) && Enabled(s, Collect)
    ensures Conserved(DoCollect(s))
  {
    forall j: nat
      ensures Places(DoCollect(s), j) == One(j < s.next)
    {
      CollectPlaces(s.results, s.collected, j);
      assert Places(s, j) == One(j < s.next);
    }
  }

  lemma {:induction false} SaveStep(s: State, w: nat)
    requires Inv(s) && Enabled(s, Save(w))
    ensures Inv(DoSave(s, w))
  {
    var t := DoSave(s, w);
    SaveConserves(s, w);
    forall v | 0 <= v < |t.workers|
      ensures WorkerInv(t, t.workers[v])
    {
      assert WorkerInv(s, s.workers[v]);
    }
    assert ChannelInv(t);
    HonestKeeps(s, t, s.results);
    HonestKeeps(s, t, s.collected);
  }

  lemma {:induction false} SendStep(s: State)
    requires Inv(s) && Enabled(s, Send)
    ensures Inv(DoSend(s))
  {
    SendConserves(s);
  }

  lemma {:induction false} ReceiveStep(s: State, w: nat)
    requires Inv(s) && Enabled(s, Receive(w))
    ensures Inv(DoReceive(s, w))
  {
    ReceiveConserves(s, w);
  }

  lemma {:induction false} PutStep(s: State, w: nat)
    requires Inv(s) && Enabled(s, Put(w))
    ensures Inv(DoPut(s, w))
  {
    PutConserves(s, w);
    assert WorkerInv(s, s.workers[w]);
  }

  lemma {:induction false} EndStep(s: State, w: nat)
    requires Inv(s) && Enabled(s, WorkerEnd(w))
    ensures Inv(DoEnd(s, w))
  {
    EndConserves(s, w);
  }

  lemma {:induction false} QuitStep(s: State, w: nat)
    requires Inv(s) && Enabled(s, WorkerQuit(w))
    ensures Inv(DoQuit(s, w))
  {
    QuitConserves(s, w);
  }

  lemma {:induction false} CollectStep(s: State)
    requires Inv(s) && Enabled(s, Collect)
    ensures Inv(DoCollect(s))
  {
    CollectConserves(s);
    assert (s.collected + [s.results[0]])[..|s.collected|] == s.collected;
  }

  /** s and t differ in their flags only. */
  predicate SameFlow(s: State, t: State) {
    && t.outcome == s.outcome && t.next == s.next && t.jobs == s.jobs && t.workers == s.workers && t.tried == s.tried
    && t.results == s.results && t.collected == s.collected && t.processed == s.processed && t.lost == s.lost
  }

  lemma {:induction false} FlowKeeps(s: State, t: State)
    requires Inv(s) && SameFlow(s, t)
    ensures Conserved(t) && ResultInv(t)
  {
    forall j: nat
      ensures Places(t, j) == One(j < t.next)
    {
      assert Places(s, j) == One(j < s.next);
    }
    HonestKeeps(s, t, s.results);
    HonestKeeps(s, t, s.collected);
  }

  lemma {:induction false} HonestKeeps(s: State, t: State, results: seq<Result>)
    requires t.outcome == s.outcome && s.tried <= t.tried
    requires forall k :: 0 <= k < |results| ==> Honest(s, results[k])
    ensures forall k :: 0 <= k < |results| ==> Honest(t, results[k])
  {
  }

  lemma {:induction false} FlagStep(s: State, step: Step)
    requires Inv(s) && Enabled(s, step)
    requires step.SenderClose? || step.SenderQuit? || step.CloseResults? || step.Finish? || step.Cancel?
    ensures Inv(Apply(s, step))
  {
    var t := Apply(s, step);
    FlowKeeps(s, t);
  }

  lemma {:induction false} SamePool(s: State, step: Step)
    requires Enabled(s, step)
    ensures Apply(s, step).outcome == s.outcome && |Apply(s, step).workers| == |s.workers|
  {
  }

  lemma {:induction false} InvStep(s: State, step: Step)
    requires Inv(s) && Enabled(s, step)
    ensures Inv(Apply(s, step))
  {
    match step {
      case Send => SendStep(s);
      case Receive(w) => ReceiveStep(s, w);
      case Save(w) => SaveStep(s, w);
      case Put(w) => PutStep(s, w);
      case WorkerEnd(w) => EndStep(s, w);
      case WorkerQuit(w) => QuitStep(s, w);
      case Collect => CollectStep(s);
      case _ => FlagStep(s, step);
    }
  }

  lemma {:induction false} InvRun(s: State, steps: seq<Step>)
    requires Inv(s) && ValidRun(s, steps)
    ensures Inv(Run(s, steps))
    ensures Run(s, steps).outcome == s.outcome && |Run(s, steps).workers| == |s.workers|
    decreases |steps|
  {
    if steps != [] {
      InvStep(s, steps[0]);
      SamePool(s, steps[0]);
      InvRun(Apply(s, steps[0]), steps[1..]);
    }
  }

  lemma {:induction false} StartInv(outcome: seq<bool>, workers: nat)
    requires workers > 0
    ensures Inv(Start(outcome, workers))
  {
    var s := Start(outcome, workers);
    TotalOf(s.workers, Busy, 0);
    forall j: nat
      ensures Places(s, j) == One(j < s.next)
    {
      TotalOf(s.workers, HoldsJob(j), 0);
    }
  }

  // ---------- Channels are used correctly, and nobody is ever stuck ----------

  lemma {:induction false} AmountMember(workers: seq<Worker>, w: nat, q: Quantity)
    requires w < |workers|
    ensures Amount(workers[w], q) <= Total(workers, q)
  {
    var n := |workers| - 1;
    if w < n {
      AmountMember(workers[..n], w, q);
    }
  }

  /** The channels' capacities are never the reason to wait. */
  lemma {:induction false} NeverFull(s: State)
    requires Inv(s)
    ensures s.sending && s.next < |s.outcome| ==> |s.jobs| < |s.outcome|
    ensures forall w :: 0 <= w < |s.workers| && s.workers[w].Saved? ==> |s.results| < |s.outcome|
  {
    forall w | 0 <= w < |s.workers| && s.workers[w].Saved?
      ensures |s.results| < |s.outcome|
    {
      AmountMember(s.workers, w, Busy);
    }
  }

  /** No step sends on a closed channel or closes a channel twice. */
  lemma {:induction false} ChannelsAreUsedOpen(s: State, step: Step)
    requires Inv(s) && Enabled(s, step)
    ensures step.Send? || step.SenderClose? || step.SenderQuit? ==> !s.jobsClosed
    ensures step.Put? || step.CloseResults? ==> !s.resultsClosed
  {
  }

  /** Until the collector is done something other than a cancellation can happen. */
  lemma {:induction false} NoDeadlock(s: State) returns (step: Step)
    requires Inv(s) && !s.done
    ensures Enabled(s, step) && !step.Cancel?
  {
    NeverFull(s);
    if s.results != [] {
      step := Collect;
    } else if s.sending {
      step := if s.next < |s.outcome| then Send else SenderClose;
    } else if AllExited(s.workers) {
      step := if s.resultsClosed then Finish else CloseResults;
    } else {
      var w :| 0 <= w < |s.workers| && !s.workers[w].Exited?;
      assert WorkerInv(s, s.workers[w]);
      step :=
        if s.workers[w].Idle? then if s.jobs == [] then WorkerEnd(w) else Receive(w)
        else if s.workers[w].Saved? then Put(w)
        else if s.cancelled then WorkerQuit(w) else Save(w);
    }
  }

  // ---------- Every run ends ----------

  function Measure(s: State): int {
    5 * (|s.outcome| - s.next) + 4 * |s.jobs| + Total(s.workers, StepsLeft) + |s.results|
    + One(s.sending) + One(!s.resultsClosed) + One(!s.done) + One(!s.cancelled)
  }

  lemma {:induction false} WorkerMeasure(s: State, t: State, w: nat, x: Worker)
    requires w < |s.workers| && t.workers == s.workers[w := x]
    requires 5 * (|t.outcome| - t.next) + 4 * |t.jobs| + Amount(x, StepsLeft) + |t.results| <
             5 * (|s.outcome| - s.next) + 4 * |s.jobs| + Amount(s.workers[w], StepsLeft) + |s.results|
    requires t.sending == s.sending && t.resultsClosed == s.resultsClosed
    requires t.done == s.done && t.cancelled == s.cancelled
    ensures Measure(t) < Measure(s)
  {
    TotalUpdate(s.workers, w, x, StepsLeft);
  }

  lemma {:induction false} MeasureStep(s: State, step: Step)
    requires Enabled(s, step)
    ensures Measure(Apply(s, step)) < Measure(s)
  {
    match step {
      case Receive(w) => ReceiveMeasure(s, w);
      case Save(w) => SaveMeasure(s, w);
      case Put(w) => PutMeasure(s, w);
      case WorkerEnd(w) => WorkerMeasure(s, DoEnd(s, w), w, Exited);
      case WorkerQuit(w) => WorkerMeasure(s, DoQuit(s, w), w, Exited);
      case _ => OtherMeasure(s, step);
    }
  }

  lemma {:induction false} ReceiveMeasure(s: State, w: nat)
    requires Enabled(s, Receive(w))
    ensures Measure(DoReceive(s, w)) < Measure(s)
  {
    WorkerMeasure(s, DoReceive(s, w), w, Got(s.jobs[0]));
  }

  lemma {:induction false} SaveMeasure(s: State, w: nat)
    requires Enabled(s, Save(w))
    ensures Measure(DoSave(s, w)) < Measure(s)
  {
    WorkerMeasure(s, DoSave(s, w), w, DoSave(s, w).workers[w]);
  }

  lemma {:induction false} PutMeasure(s: State, w: nat)
    requires Enabled(s, Put(w))
    ensures Measure(DoPut(s, w)) < Measure(s)
  {
    WorkerMeasure(s, DoPut(s, w), w, Idle);
  }

  lemma {:induction false} OtherMeasure(s: State, step: Step)
    requires Enabled(s, step)
    requires !step.Receive? && !step.Save? && !step.Put? && !step.WorkerEnd? && !step.WorkerQuit?
    ensures Measure(Apply(s, step)) < Measure(s)
  {
  }

  lemma {:induction false} MeasureRun(s: State, steps: seq<Step>)
    requires Inv(s) && ValidRun(s, steps)
    ensures |steps| <= Measure(s)
    decreases |steps|
  {
    if steps != [] {
      MeasureStep(s, steps[0]);
      InvStep(s, steps[0]);
      MeasureRun(Apply(s, steps[0]), steps[1..]);
    }
  }

  /** Under every schedule a pool for n images takes at most 5n + workers + 4 steps. */
  lemma {:induction false} RunsAreFinite(outcome: seq<bool>, workers: nat, steps: seq<Step>)
    requires workers > 0 && ValidRun(Start(outcome, workers), steps)
    ensures |steps| <= 5 * |outcome| + workers + 4
  {
    StartInv(outcome, workers);
    MeasureRun(Start(outcome, workers), steps);
    TotalOf(Start(outcome, workers).workers, StepsLeft, 1);
  }

  // ---------- The result does not depend on the schedule ----------

  function CountTrue(outcome: seq<bool>): nat {
    if outcome == [] then 0 else CountTrue(outcome[..|outcome| - 1]) + One(outcome[|outcome| - 1])
  }

  /** One result per job, each with the outcome of its job. */
  ghost predicate OnePerJob(results: seq<Result>, outcome: seq<bool>) {
    && |results| == |outcome| && Reports(results, outcome)
    && forall j: nat :: Count(Jobs(results), j) == One(j < |outcome|)
  }

  predicate Reports(results: seq<Result>, outcome: seq<bool>) {
    forall k :: 0 <= k < |results| ==> results[k].job < |outcome| && results[k].success == outcome[results[k].job]
  }

  lemma {:induction false} Find(jobs: seq<nat>, j: nat) returns (k: nat)
    requires Count(jobs, j) > 0
    ensures k < |jobs| && jobs[k] == j
  {
    var n := |jobs| - 1;
    if jobs[n] == j {
      k := n;
    } else {
      k := Find(jobs[..n], j);
    }
  }

  lemma {:induction false} CountMember(jobs: seq<nat>, k: nat)
    requires k < |jobs|
    ensures Count(jobs, jobs[k]) > 0
  {
    CountRemove(jobs, k, jobs[k]);
  }

  lemma {:induction false} SuccessesRemove(results: seq<Result>, k: nat)
    requires k < |results|
    ensures Successes(results) == Successes(results[..k] + results[k+1..]) + One(results[k].success)
  {
    var n := |results| - 1;
    if k == n {
      assert results[..k] + results[k+1..] == results[..n];
    } else {
      SuccessesRemove(results[..n], k);
      var rest := results[..n][..k] + results[..n][k+1..];
      assert results[..k] + results[k+1..] == rest + [results[n]];
      assert (rest + [results[n]])[..|rest|] == rest;
    }
  }

  /** Without the result of the last job, the rest is one result per remaining job. */
  lemma {:induction false} DropLastJob(results: seq<Result>, outcome: seq<bool>, k: nat)
    requires OnePerJob(results, outcome) && k < |results| && results[k].job == |outcome| - 1
    ensures OnePerJob(results[..k] + results[k+1..], outcome[..|outcome| - 1])
  {
    var rest := results[..k] + results[k+1..];
    var n := |outcome| - 1;
    assert Jobs(rest) == Jobs(results)[..k] + Jobs(results)[k+1..];
    forall j: nat
      ensures Count(Jobs(rest), j) == One(j < n)
    {
      CountRemove(Jobs(results), k, j);
    }
    forall i | 0 <= i < |rest|
      ensures rest[i].job < n && rest[i].success == outcome[..n][rest[i].job]
    {
      CountMember(Jobs(rest), i);
      assert rest[i] == results[if i < k then i else i + 1];
    }
  }

  /** However they are ordered, such results hold as many successes as there are. */
  lemma {:induction false} SuccessesOfAll(results: seq<Result>, outcome: seq<bool>)
    requires OnePerJob(results, outcome)
    ensures Successes(results) == CountTrue(outcome)
    decreases |outcome|
  {
    var n := |outcome|;
    if n > 0 {
      assert Count(Jobs(results), n - 1) == 1;
      var k := Find(Jobs(results), n - 1);
      DropLastJob(results, outcome, k);
      SuccessesRemove(results, k);
      SuccessesOfAll(results[..k] + results[k+1..], outcome[..n - 1]);
    }
  }

  /**
   * A pool that is done without being cancelled has collected exactly one result per job; what is counted and what
   * is saved depends on the jobs alone, not on the schedule.
   */
  lemma {:induction false} UncancelledRunsAgree(outcome: seq<bool>, workers: nat, steps: seq<Step>)
    requires workers > 0 && ValidRun(Start(outcome, workers), steps)
    requires Run(Start(outcome, workers), steps).done && !Run(Start(outcome, workers), steps).cancelled
    ensures var s := Run(Start(outcome, workers), steps);
      && s.outcome == outcome && OnePerJob(s.collected, outcome)
      && s.processed == CountTrue(outcome)
      && forall j: nat :: j in s.tried <==> j < |outcome|
  {
    StartInv(outcome, workers);
    InvRun(Start(outcome, workers), steps);
    var s := Run(Start(outcome, workers), steps);
    assert WorkerInv(s, s.workers[0]);
    TotalOf(s.workers, Busy, 0);
    forall j: nat
      ensures Count(Jobs(s.collected), j) == One(j < |outcome|)
    {
      TotalOf(s.workers, HoldsJob(j), 0);
      assert Places(s, j) == One(j < s.next);
    }
    SuccessesOfAll(s.collected, outcome);
    forall j: nat | j < |outcome|
      ensures j in s.tried
    {
      var k := Find(Jobs(s.collected), j);
      assert Honest(s, s.collected[k]);
    }
  }

  /** Cancelled or not, and done or not: no job is collected twice, and every collected one was carried out. */
  lemma {:induction false} CollectedAtMostOnce(outcome: seq<bool>, workers: nat, steps: seq<Step>)
    requires workers > 0 && ValidRun(Start(outcome, workers), steps)
    ensures var s := Run(Start(outcome, workers), steps);
      && s.outcome == outcome
      && (forall j, k :: 0 <= j < k < |s.collected| ==> s.collected[j].job != s.collected[k].job)
      && Reports(s.collected, outcome)
      && s.processed == Successes(s.collected)
      && (forall k :: 0 <= k < |s.collected| ==> s.collected[k].job in s.tried)
      && (forall j :: j in s.tried ==> j < |outcome|)
  {
    StartInv(outcome, workers);
    InvRun(Start(outcome, workers), steps);
    var s := Run(Start(outcome, workers), steps);
    forall j, k | 0 <= j < k < |s.collected|
      ensures s.collected[j].job != s.collected[k].job
    {
      var jobs := Jobs(s.collected);
      CountRemove(jobs, k, jobs[k]);
      CountRemove(jobs[..k] + jobs[k+1..], j, jobs[k]);
      assert Places(s, jobs[k]) == One(jobs[k] < s.next);
    }
  }

  /** The jobs with a successful result. */
  function SuccessfulJobs(results: seq<Result>): set<nat> {
    if results == [] then {}
    else
      SuccessfulJobs(results[..|results| - 1]) +
      if results[|results| - 1].success then {results[|results| - 1].job} else {}
  }

  lemma {:induction false} SuccessAt(results: seq<Result>, j: nat) returns (k: nat)
    requires j in SuccessfulJobs(results)
    ensures k < |results| && results[k].job == j && results[k].success
  {
    var n := |results| - 1;
    if results[n].success && results[n].job == j {
      k := n;
    } else {
      k := SuccessAt(results[..n], j);
    }
  }

  predicate DifferentJobs(results: seq<Result>) {
    forall j, k :: 0 <= j < k < |results| ==> results[j].job != results[k].job
  }

  lemma {:induction false} SuccessesDiffer(results: seq<Result>)
    requires DifferentJobs(results)
    ensures |SuccessfulJobs(results)| == Successes(results)
  {
    if results != [] {
      var n := |results| - 1;
      SuccessesDiffer(results[..n]);
      forall j | j in SuccessfulJobs(results[..n])
        ensures j != results[n].job
      {
        var k := SuccessAt(results[..n], j);
      }
    }
  }

  /** The jobs whose save was carried out and succeeded. */
  function SavedJobs(s: State): set<nat> {
    set j | j in s.tried && j < |s.outcome| && s.outcome[j]
  }

  /**
   * Cancelled or not: a pool never counts more pages than it has saved, although it may have saved more; so if it
   * counts every job, every page is saved.
   */
  lemma {:induction false} CountedAreSaved(outcome: seq<bool>, workers: nat, steps: seq<Step>)
    requires workers > 0 && ValidRun(Start(outcome, workers), steps)
    ensures var s := Run(Start(outcome, workers), steps);
      && s.processed <= |SavedJobs(s)| <= |outcome|
      && (s.processed == |outcome| ==> forall j: nat :: j in SavedJobs(s) <==> j < |outcome|)
  {
    CollectedAtMostOnce(outcome, workers, steps);
    var s := Run(Start(outcome, workers), steps);
    SuccessesDiffer(s.collected);
    forall j | j in SuccessfulJobs(s.collected)
      ensures j in SavedJobs(s)
    {
      var k := SuccessAt(s.collected, j);
    }
    SubsetSize(SuccessfulJobs(s.collected), SavedJobs(s));
    SubsetSize(SavedJobs(s), Below(|outcome|));
  }
}

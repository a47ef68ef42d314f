/**
 * Dispatch of one notification (notifications/worker.go, repo.go, recipients.go): every run of claims, batches of
 * 500, progress writes, dead-token deletions, crashes and orphan resets, with any number of dispatchers at work.
 */
module Notifications {
  import opened Collections
  import opened Wrappers

  type Token = nat

  const BATCH_SIZE: nat := 500

  datatype Status = Pending | Sending | Sent | Failed

  /** last is the index of the last batch whose progress was written. */
  datatype Row = Row(status: Status, sent: nat, failed: nat, last: Option<nat>)

  datatype Phase = Claimed | Ready | Unsaved | Failing | Gone

  /**
   * A dispatcher at batch `next` of its recipient list; Unsaved means that this batch is sent but its progress is
   * not written yet. `seen` is the number of deletions that had happened when it read the list.
   */
  datatype Dispatcher = Dispatcher(phase: Phase, next: nat, sent: nat, failed: nat, list: seq<Token>, seen: nat)

  /** devices is what the recipient query returns now; reached holds the tokens some batch was sent to. */
  datatype State = State(row: Row, devices: seq<Token>, reached: set<Token>, deletions: nat, disps: seq<Dispatcher>)

  datatype Step =
    | Claim
    | Resolve(d: nat)
    | Send(d: nat, successes: nat)
    | Delete(i: nat)
    | SaveProgress(d: nat, applied: bool)
    | Err(d: nat)
    | MarkSent(d: nat, applied: bool, acked: bool)
    | MarkFailed(d: nat, applied: bool)
    | Crash(d: nat)
    | ResetOrphans

  function Init(devices: seq<Token>): State {
    State(Row(Pending, 0, 0, None), devices, {}, 0, [])
  }

  // ---------- Batches ----------

  /** The batch a dispatcher of this row starts with. */
  function StartBatch(r: Row): nat {
    if r.last.None? then 0 else r.last.value + 1
  }

  /** How many of n recipients the first b batches hold. */
  function Upto(b: nat, n: nat): (m: nat)
    ensures m <= n
  {
    if BATCH_SIZE * b < n then BATCH_SIZE * b else n
  }

  function Batch(list: seq<Token>, b: nat): seq<Token> {
    list[Upto(b, |list|)..Upto(b + 1, |list|)]
  }

  function Without(list: seq<Token>, i: nat): seq<Token>
    requires i < |list|
  {
    list[..i] + list[i+1..]
  }

  // ---------- The steps ----------

  predicate In(s: State, d: nat, phase: Phase) {
    d < |s.disps| && s.disps[d].phase == phase
  }

  predicate More(p: Dispatcher) {
    BATCH_SIZE * p.next < |p.list|
  }

  predicate AllFailed(p: Dispatcher) {
    p.sent == 0 && p.failed > 0
  }

  predicate Enabled(s: State, step: Step) {
    match step
    case Claim => s.row.status.Pending?
    case Resolve(d) => In(s, d, Claimed)
    case Send(d, successes) =>
      In(s, d, Ready) && More(s.disps[d]) && successes <= |Batch(s.disps[d].list, s.disps[d].next)|
    case Delete(i) => i < |s.devices|
    case SaveProgress(d, _) => In(s, d, Unsaved)
    case Err(d) => In(s, d, Claimed) || (In(s, d, Ready) && (More(s.disps[d]) || AllFailed(s.disps[d])))
    case MarkSent(d, _, _) => In(s, d, Ready) && !More(s.disps[d]) && !AllFailed(s.disps[d])
    case MarkFailed(d, _) => In(s, d, Failing)
    case Crash(d) => d < |s.disps| && !s.disps[d].phase.Gone?
    case ResetOrphans => true
  }

  /** Reading the recipients; an empty list is closed with 0/0. */
  function Resolved(p: Dispatcher, devices: seq<Token>, deletions: nat): Dispatcher {
    var q := p.(phase := Ready, list := devices, seen := deletions);
    if devices == [] then q.(sent := 0, failed := 0) else q
  }

  function AfterSend(p: Dispatcher, successes: nat): Dispatcher
    requires successes <= |Batch(p.list, p.next)|
  {
    p.(phase := Unsaved, sent := p.sent + successes, failed := p.failed + (|Batch(p.list, p.next)| - successes))
  }

  function WithProgress(r: Row, p: Dispatcher): Row {
    r.(sent := p.sent, failed := p.failed, last := Some(p.next))
  }

  function Apply(s: State, step: Step): State
    requires Enabled(s, step)
  {
    match step
    case Claim =>
      s.(row := s.row.(status := Sending),
         disps := s.disps + [Dispatcher(Claimed, StartBatch(s.row), s.row.sent, s.row.failed, [], 0)])
    case Resolve(d) => s.(disps := s.disps[d := Resolved(s.disps[d], s.devices, s.deletions)])
    case Send(d, successes) =>
      s.(reached := s.reached + Elements(Batch(s.disps[d].list, s.disps[d].next)),
         disps := s.disps[d := AfterSend(s.disps[d], successes)])
    case Delete(i) => s.(devices := Without(s.devices, i), deletions := s.deletions + 1)
    case SaveProgress(d, applied) =>
      s.(row := if applied then WithProgress(s.row, s.disps[d]) else s.row,
         disps := s.disps[d := s.disps[d].(phase := Ready, next := s.disps[d].next + 1)])
    case Err(d) => s.(disps := s.disps[d := s.disps[d].(phase := Failing)])
    case MarkSent(d, applied, acked) =>
      s.(row := if applied then s.row.(status := Sent, sent := s.disps[d].sent, failed := s.disps[d].failed) else s.row,
         disps := s.disps[d := s.disps[d].(phase := if acked then Gone else Failing)])
    case MarkFailed(d, applied) =>
      s.(row := if applied then s.row.(status := Failed) else s.row, disps := s.disps[d := s.disps[d].(phase := Gone)])
    case Crash(d) => s.(disps := s.disps[d := s.disps[d].(phase := Gone)])
    case ResetOrphans => s.(row := if s.row.status.Sending? then s.row.(status := Pending) else s.row)
  }

  predicate ValidRun(s: State, steps: seq<Step>)
    decreases |steps|
  {
    steps == [] || (Enabled(s, steps[0]) && ValidRun(Apply(s, steps[0]), steps[1..]))
  }

  function Run(s: State, steps: seq<Step>): State
    requires ValidRun(s, steps)
    decreases |steps|
  {
    if steps == [] then s else Run(Apply(s, steps[0]), steps[1..])
  }

  lemma {:induction false} RunConcat(s: State, a: seq<Step>, b: seq<Step>)
    requires ValidRun(s, a) && ValidRun(Run(s, a), b)
    ensures ValidRun(s, a + b) && Run(s, a + b) == Run(Run(s, a), b)
    decreases |a|
  {
    if a == [] {
      assert a + b == b;
    } else {
      RunConcat(Apply(s, a[0]), a[1..], b);
      assert (a + b)[1..] == a[1..] + b;
    }
  }

  lemma {:induction false} RunExtends(s: State, steps: seq<Step>, step: Step)
    requires ValidRun(s, steps) && Enabled(Run(s, steps), step)
    ensures ValidRun(s, steps + [step]) && Run(s, steps + [step]) == Apply(Run(s, steps), step)
  {
    var t := Run(s, steps);
    assert [step][1..] == [] && ValidRun(Apply(t, step), []);
    RunConcat(s, steps, [step]);
  }

  lemma {:induction false} Prepend(s: State, step: Step, rest: seq<Step>) returns (steps: seq<Step>)
    requires Enabled(s, step) && ValidRun(Apply(s, step), rest)
    ensures ValidRun(s, steps) && Run(s, steps) == Run(Apply(s, step), rest)
    ensures DeletionsOf(steps) == (if step.Delete? then 1 else 0) + DeletionsOf(rest)
  {
    steps := [step] + rest;
    assert steps[1..] == rest;
  }

  // ---------- Who is skipped ----------

  /** The tokens among the first m of the list that no batch was sent to. */
  function Skipped(list: seq<Token>, m: nat, reached: set<Token>): set<Token> {
    Elements(list[..if m < |list| then m else |list|]) - reached
  }

  function Missed(list: seq<Token>, m: nat, reached: set<Token>): nat {
    |Skipped(list, m, reached)|
  }

  /** now is the list `was` with at most k of its entries removed. */
  ghost predicate Behind(now: seq<Token>, was: seq<Token>, k: nat) {
    forall i :: 0 <= i < |now| ==> Within(was, i + k, now[i])
  }

  ghost predicate Within(was: seq<Token>, i: int, t: Token) {
    exists j :: 0 <= j <= i && j < |was| && was[j] == t
  }

  lemma {:induction false} DeleteBehind(now: seq<Token>, was: seq<Token>, k: nat, i: nat)
    requires Behind(now, was, k) && i < |now|
    ensures Behind(Without(now, i), was, k + 1)
  {
  }

  /** The entries m, ..., m + k - 1 of the list, as far as it goes. */
  function Moved(list: seq<Token>, m: nat, k: nat): (moved: seq<Token>)
    ensures |moved| <= k
  {
    if |list| <= m then [] else if |list| <= m + k then list[m..] else list[m..m+k]
  }

  lemma {:induction false} BehindSkips(now: seq<Token>, was: seq<Token>, k: nat, m: nat, reached: set<Token>, t: Token)
    requires Behind(now, was, k) && t in Skipped(now, m, reached)
    ensures t in Skipped(was, m, reached) || t in Moved(was, m, k)
  {
  }

  /** Removing k entries moves at most k entries into the first m. */
  lemma {:induction false} BehindMissed(now: seq<Token>, was: seq<Token>, k: nat, m: nat, reached: set<Token>)
    requires Behind(now, was, k)
    ensures Missed(now, m, reached) <= Missed(was, m, reached) + k
  {
    var moved := Elements(Moved(was, m, k));
    ElementsSize(Moved(was, m, k));
    forall t | t in Skipped(now, m, reached)
      ensures t in Skipped(was, m, reached) + moved
    {
      BehindSkips(now, was, k, m, reached, t);
    }
    SubsetSize(Skipped(now, m, reached), Skipped(was, m, reached) + moved);
  }

  lemma {:induction false} ReachMore(list: seq<Token>, m: nat, reached: set<Token>, more: set<Token>)
    ensures Missed(list, m, reached + more) <= Missed(list, m, reached)
  {
    SubsetSize(Skipped(list, m, reached + more), Skipped(list, m, reached));
  }

  lemma {:induction false} BatchHolds(list: seq<Token>, b: nat)
    ensures forall i :: Upto(b, |list|) <= i < Upto(b + 1, |list|) ==> list[i] in Batch(list, b)
  {
  }

  lemma {:induction false} SendReaches(list: seq<Token>, b: nat, reached: set<Token>)
    ensures Missed(list, BATCH_SIZE * (b + 1), reached + Elements(Batch(list, b))) <=
            Missed(list, BATCH_SIZE * b, reached)
  {
    var r' := reached + Elements(Batch(list, b));
    BatchHolds(list, b);
    forall t | t in Skipped(list, BATCH_SIZE * (b + 1), r')
      ensures t in Skipped(list, BATCH_SIZE * b, reached)
    {
      var i :| 0 <= i < Upto(b + 1, |list|) && list[i] == t;
      assert i < Upto(b, |list|);
    }
    SubsetSize(Skipped(list, BATCH_SIZE * (b + 1), r'), Skipped(list, BATCH_SIZE * b, reached));
  }

  // ---------- The skip bound, over every run ----------

  /** The batches that p has sent or may leave out. */
  function Passed(p: Dispatcher): nat {
    if p.phase.Unsaved? then p.next + 1 else p.next
  }

  ghost predicate DispatcherInv(s: State, p: Dispatcher) {
    match p.phase
    case Claimed => Missed(s.devices, BATCH_SIZE * p.next, s.reached) <= s.deletions
    case Ready => ListInv(s, p)
    case Unsaved => ListInv(s, p)
    case _ => true
  }

  ghost predicate ListInv(s: State, p: Dispatcher) {
    && p.seen <= s.deletions
    && Behind(s.devices, p.list, s.deletions - p.seen)
    && Missed(p.list, BATCH_SIZE * Passed(p), s.reached) <= p.seen
  }

  ghost predicate RowInv(s: State) {
    && Missed(s.devices, BATCH_SIZE * StartBatch(s.row), s.reached) <= s.deletions
    && (s.row.status.Sent? ==> Missed(s.devices, |s.devices|, s.reached) <= s.deletions)
  }

  ghost predicate SkipInv(s: State) {
    RowInv(s) && forall d :: 0 <= d < |s.disps| ==> DispatcherInv(s, s.disps[d])
  }

  /** A token disappears, or a batch is sent: every dispatcher's claim survives. */
  lemma {:induction false} DeleteKeeps(s: State, i: nat, p: Dispatcher)
    requires i < |s.devices| && DispatcherInv(s, p)
    ensures DispatcherInv(Apply(s, Delete(i)), p)
  {
    if p.phase.Claimed? {
      DeleteMisses(s.devices, i, BATCH_SIZE * p.next, s.reached);
    } else if p.phase.Ready? || p.phase.Unsaved? {
      DeleteBehind(s.devices, p.list, s.deletions - p.seen, i);
    }
  }

  lemma {:induction false} DeleteMisses(list: seq<Token>, i: nat, m: nat, reached: set<Token>)
    requires i < |list|
    ensures Missed(Without(list, i), m, reached) <= Missed(list, m, reached) + 1
  {
    assert Behind(list, list, 0) by {
      forall j | 0 <= j < |list|
        ensures Within(list, j + 0, list[j])
      {
      }
    }
    DeleteBehind(list, list, 0, i);
    BehindMissed(Without(list, i), list, 1, m, reached);
  }

  lemma {:induction false} SendKeeps(s: State, more: set<Token>, p: Dispatcher)
    requires DispatcherInv(s, p)
    ensures DispatcherInv(s.(reached := s.reached + more), p)
  {
    ReachMore(s.devices, BATCH_SIZE * p.next, s.reached, more);
    ReachMore(p.list, BATCH_SIZE * Passed(p), s.reached, more);
  }

  lemma {:induction false} OthersKeep(s: State, t: State, d: nat)
    requires SkipInv(s) && t.devices == s.devices && t.reached == s.reached && t.deletions == s.deletions
    requires d < |s.disps| && |t.disps| == |s.disps| && t.disps == s.disps[d := t.disps[d]]
    requires RowInv(t) && DispatcherInv(t, t.disps[d])
    ensures SkipInv(t)
  {
    forall e | 0 <= e < |t.disps|
      ensures DispatcherInv(t, t.disps[e])
    {
      if e != d {
        assert t.disps[e] == s.disps[e];
        assert DispatcherInv(s, s.disps[e]);
      }
    }
  }

  lemma {:induction false} ClaimStep(s: State)
    requires SkipInv(s) && Enabled(s, Claim)
    ensures SkipInv(Apply(s, Claim))
  {
    var t := Apply(s, Claim);
    forall e | 0 <= e < |t.disps|
      ensures DispatcherInv(t, t.disps[e])
    {
      if e < |s.disps| {
        assert DispatcherInv(s, s.disps[e]);
      }
    }
  }

  lemma {:induction false} ResolveStep(s: State, d: nat)
    requires SkipInv(s) && Enabled(s, Resolve(d))
    ensures SkipInv(Apply(s, Resolve(d)))
  {
    var t := Apply(s, Resolve(d));
    assert DispatcherInv(s, s.disps[d]);
    forall j | 0 <= j < |s.devices|
      ensures Within(s.devices, j + 0, s.devices[j])
    {
    }
    OthersKeep(s, t, d);
  }

  lemma {:induction false} ReachStep(s: State, more: set<Token>)
    requires SkipInv(s)
    ensures SkipInv(s.(reached := s.reached + more))
  {
    ReachMore(s.devices, BATCH_SIZE * StartBatch(s.row), s.reached, more);
    ReachMore(s.devices, |s.devices|, s.reached, more);
    forall e | 0 <= e < |s.disps|
      ensures DispatcherInv(s.(reached := s.reached + more), s.disps[e])
    {
      SendKeeps(s, more, s.disps[e]);
    }
  }

  lemma {:induction false} ListKeeps(s: State, t: State, p: Dispatcher, q: Dispatcher)
    requires ListInv(s, p) && q.list == p.list && q.seen == p.seen
    requires t.devices == s.devices && t.deletions == s.deletions
    requires Missed(p.list, BATCH_SIZE * Passed(q), t.reached) <= Missed(p.list, BATCH_SIZE * Passed(p), s.reached)
    ensures ListInv(t, q)
  {
  }

  lemma {:induction false} SenderKeeps(s: State, p: Dispatcher, successes: nat)
    requires DispatcherInv(s, p) && p.phase.Ready? && successes <= |Batch(p.list, p.next)|
    ensures DispatcherInv(s.(reached := s.reached + Elements(Batch(p.list, p.next))), AfterSend(p, successes))
  {
    var t, q := s.(reached := s.reached + Elements(Batch(p.list, p.next))), AfterSend(p, successes);
    SendReaches(p.list, p.next, s.reached);
    ListKeeps(s, t, p, q);
  }

  lemma {:induction false} SendStep(s: State, d: nat, successes: nat)
    requires SkipInv(s) && Enabled(s, Send(d, successes))
    ensures SkipInv(Apply(s, Send(d, successes)))
  {
    var p := s.disps[d];
    var u := s.(reached := s.reached + Elements(Batch(p.list, p.next)));
    var t := u.(disps := u.disps[d := AfterSend(p, successes)]);
    ReachStep(s, Elements(Batch(p.list, p.next)));
    assert DispatcherInv(s, p);
    SenderKeeps(s, p, successes);
    assert DispatcherInv(t, t.disps[d]);
    OthersKeep(u, t, d);
  }

  lemma {:induction false} DeleteStep(s: State, i: nat)
    requires SkipInv(s) && Enabled(s, Delete(i))
    ensures SkipInv(Apply(s, Delete(i)))
  {
    var t := Apply(s, Delete(i));
    DeleteMisses(s.devices, i, BATCH_SIZE * StartBatch(s.row), s.reached);
    DeleteMisses(s.devices, i, |s.devices|, s.reached);
    assert Skipped(t.devices, |t.devices|, s.reached) == Skipped(t.devices, |s.devices|, s.reached);
    forall e | 0 <= e < |s.disps|
      ensures DispatcherInv(t, t.disps[e])
    {
      DeleteKeeps(s, i, s.disps[e]);
    }
  }

  /** What p is about to record as done is done, but for as many devices as were deleted. */
  lemma {:induction false} RecordedIsSent(s: State, p: Dispatcher)
    requires p.phase.Unsaved? && ListInv(s, p)
    ensures Missed(s.devices, BATCH_SIZE * StartBatch(WithProgress(s.row, p)), s.reached) <= s.deletions
  {
    var m := BATCH_SIZE * Passed(p);
    BehindMissed(s.devices, p.list, s.deletions - p.seen, m, s.reached);
    assert BATCH_SIZE * StartBatch(WithProgress(s.row, p)) == m;
  }

  lemma {:induction false} SaveStep(s: State, d: nat, applied: bool)
    requires SkipInv(s) && Enabled(s, SaveProgress(d, applied))
    ensures SkipInv(Apply(s, SaveProgress(d, applied)))
  {
    var t := Apply(s, SaveProgress(d, applied));
    var p := s.disps[d];
    assert DispatcherInv(s, p);
    RecordedIsSent(s, p);
    var q := t.disps[d];
    assert Passed(q) == Passed(p);
    assert ListInv(t, q);
    OthersKeep(s, t, d);
  }

  /** A dispatcher that is through with its list has skipped no more devices than were deleted. */
  lemma {:induction false} ThroughMisses(s: State, p: Dispatcher)
    requires p.phase.Ready? && DispatcherInv(s, p) && !More(p)
    ensures Missed(s.devices, |s.devices|, s.reached) <= s.deletions
  {
    assert Skipped(s.devices, |s.devices|, s.reached) <= Skipped(p.list, BATCH_SIZE * p.next, s.reached) by {
      forall t | t in Skipped(s.devices, |s.devices|, s.reached)
        ensures t in Skipped(p.list, BATCH_SIZE * p.next, s.reached)
      {
        var i :| 0 <= i < |s.devices| && s.devices[i] == t;
        assert Within(p.list, i + (s.deletions - p.seen), t);
        assert t in p.list;
        assert p.list[..|p.list|] == p.list;
      }
    }
    SubsetSize(Skipped(s.devices, |s.devices|, s.reached), Skipped(p.list, BATCH_SIZE * p.next, s.reached));
  }

  lemma {:induction false} RowKeeps(s: State, row: Row)
    requires RowInv(s) && row.last == s.row.last
    requires row.status.Sent? ==> Missed(s.devices, |s.devices|, s.reached) <= s.deletions
    ensures RowInv(s.(row := row))
  {
  }

  lemma {:induction false} CloseRow(s: State, d: nat, applied: bool, acked: bool)
    requires Enabled(s, MarkSent(d, applied, acked)) && RowInv(s) && DispatcherInv(s, s.disps[d])
    ensures RowInv(Apply(s, MarkSent(d, applied, acked)))
  {
    ThroughMisses(s, s.disps[d]);
    var t := Apply(s, MarkSent(d, applied, acked));
    RowKeeps(s, t.row);
    assert RowInv(s.(row := t.row)) ==> RowInv(t);
  }

  lemma {:induction false} CloseStep(s: State, d: nat, applied: bool, acked: bool)
    requires SkipInv(s) && Enabled(s, MarkSent(d, applied, acked))
    ensures SkipInv(Apply(s, MarkSent(d, applied, acked)))
  {
    CloseRow(s, d, applied, acked);
    OthersKeep(s, Apply(s, MarkSent(d, applied, acked)), d);
  }

  lemma {:induction false} StopStep(s: State, step: Step)
    requires SkipInv(s) && Enabled(s, step) && (step.Err? || step.MarkFailed? || step.Crash?)
    ensures SkipInv(Apply(s, step))
  {
    OthersKeep(s, Apply(s, step), step.d);
  }

  lemma {:induction false} ResetStep(s: State)
    requires SkipInv(s)
    ensures SkipInv(Apply(s, ResetOrphans))
  {
    forall e | 0 <= e < |s.disps|
      ensures DispatcherInv(Apply(s, ResetOrphans), s.disps[e])
    {
      assert DispatcherInv(s, s.disps[e]);
    }
  }

  lemma {:induction false} SkipInvStep(s: State, step: Step)
    requires SkipInv(s) && Enabled(s, step)
    ensures SkipInv(Apply(s, step))
  {
    match step {
      case Claim => ClaimStep(s);
      case Resolve(d) => ResolveStep(s, d);
      case Send(d, successes) => SendStep(s, d, successes);
      case Delete(i) => DeleteStep(s, i);
      case SaveProgress(d, applied) => SaveStep(s, d, applied);
      case MarkSent(d, applied, acked) => CloseStep(s, d, applied, acked);
      case ResetOrphans => ResetStep(s);
      case _ => StopStep(s, step);
    }
  }

  lemma {:induction false} SkipInvRun(s: State, steps: seq<Step>)
    requires SkipInv(s) && ValidRun(s, steps)
    ensures SkipInv(Run(s, steps))
    decreases |steps|
  {
    if steps != [] {
      SkipInvStep(s, steps[0]);
      SkipInvRun(Apply(s, steps[0]), steps[1..]);
    }
  }

  lemma {:induction false} InitSkips(devices: seq<Token>)
    ensures SkipInv(Init(devices))
  {
  }

  /** How many tokens the run deletes. */
  function DeletionsOf(steps: seq<Step>): nat {
    if steps == [] then 0 else (if steps[0].Delete? then 1 else 0) + DeletionsOf(steps[1..])
  }

  lemma {:induction false} DeletionsCount(s: State, steps: seq<Step>)
    requires ValidRun(s, steps)
    ensures Run(s, steps).deletions == s.deletions + DeletionsOf(steps)
    decreases |steps|
  {
    if steps != [] {
      DeletionsCount(Apply(s, steps[0]), steps[1..]);
    }
  }

  /** Once the row is sent, at most as many remaining devices were never sent to as tokens were deleted. */
  lemma {:induction false} SkippedAtMostDeleted(devices: seq<Token>, steps: seq<Step>)
    requires ValidRun(Init(devices), steps)
    ensures var s := Run(Init(devices), steps);
      s.row.status.Sent? ==> |Elements(s.devices) - s.reached| <= DeletionsOf(steps)
  {
    InitSkips(devices);
    SkipInvRun(Init(devices), steps);
    DeletionsCount(Init(devices), steps);
    var s := Run(Init(devices), steps);
    assert s.devices[..|s.devices|] == s.devices;
    assert Skipped(s.devices, |s.devices|, s.reached) == Elements(s.devices) - s.reached;
  }

  // ---------- Exactly who is skipped ----------

  lemma {:induction false} TokensAppend(a: seq<Token>, b: seq<Token>)
    ensures Elements(a + b) == Elements(a) + Elements(b)
  {
  }

  /** The list without the tokens in dead. */
  function Keep(list: seq<Token>, dead: set<Token>): seq<Token> {
    if list == [] then []
    else if list[0] in dead then Keep(list[1..], dead)
    else [list[0]] + Keep(list[1..], dead)
  }

  lemma {:induction false} KeepElements(list: seq<Token>, dead: set<Token>)
    ensures Elements(Keep(list, dead)) == Elements(list) - dead
  {
    if list != [] {
      KeepElements(list[1..], dead);
      assert list == [list[0]] + list[1..];
      TokensAppend([list[0]], list[1..]);
      TokensAppend([list[0]], Keep(list[1..], dead));
      assert Elements([list[0]]) == {list[0]};
    } else {
      assert Elements(list) == {};
    }
  }

  lemma {:induction false} Associates(a: seq<Token>, b: seq<Token>, c: seq<Token>)
    ensures a + (b + c) == (a + b) + c
  {
  }

  lemma {:induction false} KeepConcat(a: seq<Token>, b: seq<Token>, dead: set<Token>)
    ensures Keep(a + b, dead) == Keep(a, dead) + Keep(b, dead)
  {
    if a == [] {
      assert a + b == b;
      assert Keep(a, dead) + Keep(b, dead) == Keep(b, dead);
    } else {
      KeepConcat(a[1..], b, dead);
      assert (a + b)[1..] == a[1..] + b && (a + b)[0] == a[0];
      Associates([a[0]], Keep(a[1..], dead), Keep(b, dead));
    }
  }

  lemma {:induction false} KeepTwice(list: seq<Token>, a: set<Token>, b: set<Token>)
    ensures Keep(Keep(list, a), b) == Keep(list, a + b)
  {
    if list != [] {
      KeepTwice(list[1..], a, b);
      if list[0] !in a {
        assert Keep(list, a)[1..] == Keep(list[1..], a);
      }
    }
  }

  lemma {:induction false} KeepAll(list: seq<Token>, dead: set<Token>)
    requires Elements(list) !! dead
    ensures Keep(list, dead) == list
  {
    if list != [] {
      assert list[0] in Elements(list);
      KeepAll(list[1..], dead);
    }
  }

  lemma {:induction false} KeepDistinct(list: seq<Token>, dead: set<Token>)
    requires Distinct(list)
    ensures Distinct(Keep(list, dead))
  {
    if list != [] {
      var rest := Keep(list[1..], dead);
      assert forall j, k :: 0 <= j < k < |list[1..]| ==> list[1..][j] == list[j+1] && list[1..][k] == list[k+1];
      KeepDistinct(list[1..], dead);
      KeepElements(list[1..], dead);
      assert list[0] !in Elements(list[1..]);
      forall k | 0 <= k < |rest|
        ensures rest[k] != list[0]
      {
        assert rest[k] in Elements(rest);
      }
    }
  }

  lemma {:induction false} CommonSize(x: Token, rest: set<Token>, dead: set<Token>)
    requires x !in rest
    ensures |({x} + rest) * dead| == (if x in dead then 1 else 0) + |rest * dead|
  {
    var common := rest * dead;
    assert ({x} + rest) * dead == if x in dead then {x} + common else common;
  }

  lemma {:induction false} KeepSize(list: seq<Token>, dead: set<Token>)
    requires Distinct(list)
    ensures |Keep(list, dead)| == |list| - |Elements(list) * dead|
  {
    if list == [] {
      assert Elements(list) * dead == {};
    } else {
      KeepSize(list[1..], dead);
      assert Elements(list) == {list[0]} + Elements(list[1..]);
      CommonSize(list[0], Elements(list[1..]), dead);
    }
  }

  lemma {:induction false} KeepNext(list: seq<Token>, m: nat, dead: set<Token>)
    requires m < |list|
    ensures Keep(list[..m+1], dead) == Keep(list[..m], dead) + if list[m] in dead then [] else [list[m]]
    ensures list[m..] == [list[m]] + list[m+1..]
  {
    assert list[..m+1] == list[..m] + [list[m]];
    KeepConcat(list[..m], [list[m]], dead);
  }

  /** The first k entries of the list, or all if there are fewer. */
  function Front(list: seq<Token>, k: nat): seq<Token> {
    list[..if k < |list| then k else |list|]
  }

  lemma {:induction false} FrontOfKept(list: seq<Token>, m: nat, dead: set<Token>)
    requires Distinct(list) && m <= |list|
    ensures Front(Keep(list, dead), m) ==
            Keep(list[..m], dead) + Front(Keep(list[m..], dead), |Elements(list[..m]) * dead|)
  {
    assert list == list[..m] + list[m..];
    KeepConcat(list[..m], list[m..], dead);
    KeepSize(list[..m], dead);
  }

  /**
   * A resume behind the first m recipients, all of them sent to, skips exactly as many survivors as recipients
   * among those m were deleted: the ones that come next, as far as they were not sent to.
   */
  lemma {:induction false} SkippedExactly(list: seq<Token>, m: nat, dead: set<Token>, reached: set<Token>)
    requires Distinct(list) && m <= |list| && Elements(list[..m]) <= reached
    ensures var next := Front(Keep(list[m..], dead), |Elements(list[..m]) * dead|);
      && Skipped(Keep(list, dead), m, reached) == Elements(next) - reached
      && (reached == Elements(list[..m]) ==> Skipped(Keep(list, dead), m, reached) == Elements(next))
  {
    var next := Front(Keep(list[m..], dead), |Elements(list[..m]) * dead|);
    FrontOfKept(list, m, dead);
    KeepElements(list[..m], dead);
    KeepElements(list[m..], dead);
    TokensAppend(Keep(list[..m], dead), next);
    forall t | t in Elements(next)
      ensures t !in Elements(list[..m])
    {
      assert t in Elements(Keep(list[m..], dead));
    }
  }

  lemma {:induction false} WithoutIsKeep(list: seq<Token>, i: nat)
    requires Distinct(list) && i < |list|
    ensures Without(list, i) == Keep(list, {list[i]})
  {
    assert list == list[..i] + ([list[i]] + list[i+1..]);
    KeepConcat(list[..i], [list[i]] + list[i+1..], {list[i]});
    KeepAll(list[..i], {list[i]});
    KeepAll(list[i+1..], {list[i]});
  }

  /** One deletion before entry m shifts exactly that entry out of a resumed dispatch. */
  lemma {:induction false} OneDeletionSkips(list: seq<Token>, m: nat, i: nat)
    requires Distinct(list) && m <= |list| && i < |list|
    ensures Skipped(Without(list, i), m, Elements(list[..m])) == if i < m < |list| then {list[m]} else {}
  {
    WithoutIsKeep(list, i);
    SkippedExactly(list, m, {list[i]}, Elements(list[..m]));
    var k := |Elements(list[..m]) * {list[i]}|;
    if i < m {
      assert Elements(list[..m]) * {list[i]} == {list[i]};
      KeepAll(list[m..], {list[i]});
      assert Front(list[m..], 1) == if m < |list| then [list[m]] else [];
    } else {
      assert Elements(list[..m]) * {list[i]} == {};
      assert Front(Keep(list[m..], {list[i]}), 0) == [];
    }
  }

  /** The devices left are those of the start without the deleted tokens, in order. */
  predicate Thinned(devices: seq<Token>, now: seq<Token>) {
    now == Keep(devices, Elements(devices) - Elements(now))
  }

  lemma {:induction false} InitThinned(devices: seq<Token>)
    ensures Thinned(devices, devices)
  {
    KeepAll(devices, Elements(devices) - Elements(devices));
  }

  lemma {:induction false} ThinnedByDelete(devices: seq<Token>, now: seq<Token>, i: nat)
    requires Distinct(devices) && Thinned(devices, now) && i < |now|
    ensures Thinned(devices, Without(now, i))
  {
    var dead := Elements(devices) - Elements(now);
    KeepDistinct(devices, dead);
    KeepElements(devices, dead);
    WithoutIsKeep(now, i);
    KeepTwice(devices, dead, {now[i]});
    KeepElements(now, {now[i]});
    assert now[i] in Elements(now);
    assert Elements(devices) - Elements(Without(now, i)) == dead + {now[i]};
  }

  lemma {:induction false} DevicesThin(s: State, steps: seq<Step>, devices: seq<Token>)
    requires Distinct(devices) && Thinned(devices, s.devices) && ValidRun(s, steps)
    ensures Thinned(devices, Run(s, steps).devices)
    decreases |steps|
  {
    if steps != [] {
      if steps[0].Delete? {
        ThinnedByDelete(devices, s.devices, steps[0].i);
      }
      DevicesThin(Apply(s, steps[0]), steps[1..], devices);
    }
  }

  lemma {:induction false} BehindPrefix(list: seq<Token>, m: nat, dead: set<Token>)
    requires Distinct(list) && m <= |list|
    ensures Elements(Keep(list[m..], dead)) == Elements(Keep(list, dead)) - Elements(list[..m])
  {
    assert list == list[..m] + list[m..];
    KeepConcat(list[..m], list[m..], dead);
    TokensAppend(Keep(list[..m], dead), Keep(list[m..], dead));
    KeepElements(list[..m], dead);
    KeepElements(list[m..], dead);
    forall t | t in Elements(list[m..])
      ensures t !in Elements(list[..m])
    {
    }
  }

  function Min(a: nat, b: nat): nat {
    if a < b then a else b
  }

  lemma {:induction false} FrontSize(list: seq<Token>, k: nat)
    requires Distinct(list)
    ensures |Elements(Front(list, k))| == Min(k, |Elements(list)|)
  {
    ElementsSize(list);
    ElementsSize(Front(list, k));
  }

  /** How many a resume behind the first m recipients skips, when exactly those were sent to. */
  lemma {:induction false} SkippedCount(list: seq<Token>, m: nat, now: seq<Token>)
    requires Distinct(list) && m <= |list| && Thinned(list, now)
    ensures var reached := Elements(list[..m]);
      Missed(now, m, reached) == Min(|reached - Elements(now)|, |Elements(now) - reached|)
  {
    var reached, dead := Elements(list[..m]), Elements(list) - Elements(now);
    var rest := Keep(list[m..], dead);
    SkippedExactly(list, m, dead, reached);
    BehindPrefix(list, m, dead);
    KeepDistinct(list[m..], dead);
    FrontSize(rest, |reached * dead|);
    assert reached * dead == reached - Elements(now) by {
      assert reached <= Elements(list);
    }
  }

  lemma {:induction false} NoneIfContained(missed: set<Token>, a: set<Token>, b: set<Token>)
    requires |missed| == Min(|a - b|, |b - a|)
    ensures missed == {} <==> a <= b || b <= a
  {
    assert forall t :: t in a && t !in b ==> t in a - b;
    assert forall t :: t in b && t !in a ==> t in b - a;
    assert a <= b ==> a - b == {};
    assert b <= a ==> b - a == {};
  }

  /**
   * After any run that sent to exactly the first b batches of distinct recipients, a dispatch that starts with
   * batch b skips as many as those recipients lost, if so many are left; so it leaves nobody out exactly if none
   * of those recipients is gone, or nobody else is left to send to.
   */
  lemma {:induction false} ResumeReachesAll(devices: seq<Token>, steps: seq<Step>, b: nat)
    requires Distinct(devices) && ValidRun(Init(devices), steps) && BATCH_SIZE * b <= |devices|
    requires Run(Init(devices), steps).reached == Elements(devices[..BATCH_SIZE * b])
    ensures var s := Run(Init(devices), steps);
      && Missed(s.devices, BATCH_SIZE * b, s.reached) ==
         Min(|s.reached - Elements(s.devices)|, |Elements(s.devices) - s.reached|)
      && (Skipped(s.devices, BATCH_SIZE * b, s.reached) == {} <==>
            s.reached <= Elements(s.devices) || Elements(s.devices) <= s.reached)
  {
    InitThinned(devices);
    DevicesThin(Init(devices), steps, devices);
    var now := Run(Init(devices), steps).devices;
    SkippedCount(devices, BATCH_SIZE * b, now);
    var reached := Elements(devices[..BATCH_SIZE * b]);
    NoneIfContained(Skipped(now, BATCH_SIZE * b, reached), reached, Elements(now));
  }

  // ---------- A fixed recipient list ----------

  predicate Counted(sent: nat, failed: nat, b: nat, n: nat) {
    sent + failed == Upto(b, n)
  }

  predicate FixedDispatcher(p: Dispatcher, devices: seq<Token>) {
    match p.phase
    case Claimed => Counted(p.sent, p.failed, p.next, |devices|)
    case Ready => p.list == devices && Counted(p.sent, p.failed, p.next, |devices|)
    case Unsaved => p.list == devices && Counted(p.sent, p.failed, p.next + 1, |devices|)
    case _ => true
  }

  predicate FixedRow(r: Row, n: nat) {
    Counted(r.sent, r.failed, StartBatch(r), n) || ((r.status.Sent? || r.status.Failed?) && r.sent + r.failed == n)
  }

  /** Counts agree with the persisted index: only a row that was marked sent may be ahead of it. */
  predicate FixedInv(s: State, devices: seq<Token>) {
    && s.devices == devices && s.deletions == 0
    && FixedRow(s.row, |devices|)
    && forall d :: 0 <= d < |s.disps| ==> FixedDispatcher(s.disps[d], devices)
  }

  lemma {:induction false} BatchSize(list: seq<Token>, b: nat)
    ensures |Batch(list, b)| == Upto(b + 1, |list|) - Upto(b, |list|)
  {
  }

  lemma {:induction false} FixedKeeps(s: State, t: State, d: nat, devices: seq<Token>)
    requires FixedInv(s, devices) && t.devices == s.devices && t.deletions == s.deletions && d < |s.disps|
    requires |t.disps| == |s.disps| && t.disps == s.disps[d := t.disps[d]]
    requires FixedRow(t.row, |devices|) && FixedDispatcher(t.disps[d], devices)
    ensures FixedInv(t, devices)
  {
  }

  lemma {:induction false} FixedStep(s: State, step: Step, devices: seq<Token>)
    requires FixedInv(s, devices) && Enabled(s, step) && !step.Delete?
    ensures FixedInv(Apply(s, step), devices)
    ensures var r := Apply(s, step).row;
      r.status.Sent? && !s.row.status.Sent? ==> r.sent + r.failed == |devices|
  {
    var t := Apply(s, step);
    match step {
      case Claim =>
      case Delete(_) =>
      case ResetOrphans =>
      case Send(d, _) =>
        BatchSize(s.disps[d].list, s.disps[d].next);
        FixedKeeps(s, t, d, devices);
      case Resolve(d) => FixedKeeps(s, t, d, devices);
      case SaveProgress(d, _) => FixedKeeps(s, t, d, devices);
      case Err(d) => FixedKeeps(s, t, d, devices);
      case MarkSent(d, _, _) => FixedKeeps(s, t, d, devices);
      case MarkFailed(d, _) => FixedKeeps(s, t, d, devices);
      case Crash(d) => FixedKeeps(s, t, d, devices);
    }
  }

  /**
   * Without deletions, over any run: the counts of an open row are those of the batches up to the persisted index,
   * and once the row is sent every recipient was sent to.
   */
  lemma {:induction false} FixedRuns(devices: seq<Token>, steps: seq<Step>)
    requires ValidRun(Init(devices), steps) && DeletionsOf(steps) == 0
    ensures var s := Run(Init(devices), steps);
      && s.devices == devices
      && FixedRow(s.row, |devices|)
      && Elements(devices[..Upto(StartBatch(s.row), |devices|)]) <= s.reached
      && (s.row.status.Sent? ==> Elements(devices) <= s.reached)
  {
    InitSkips(devices);
    SkipInvRun(Init(devices), steps);
    FixedRunInv(Init(devices), steps, devices);
    var s := Run(Init(devices), steps);
    NoneSkipped(devices, BATCH_SIZE * StartBatch(s.row), s.reached);
    if s.row.status.Sent? {
      NoneSkipped(devices, |devices|, s.reached);
      assert devices[..|devices|] == devices;
    }
  }

  lemma {:induction false} NoneSkipped(list: seq<Token>, m: nat, reached: set<Token>)
    requires Missed(list, m, reached) == 0
    ensures Elements(list[..if m < |list| then m else |list|]) <= reached
  {
    forall t | t in Elements(list[..if m < |list| then m else |list|])
      ensures t in reached
    {
      assert t in reached || t in Skipped(list, m, reached);
    }
  }

  lemma {:induction false} FixedRunInv(s: State, steps: seq<Step>, devices: seq<Token>)
    requires FixedInv(s, devices) && ValidRun(s, steps) && DeletionsOf(steps) == 0
    ensures FixedInv(Run(s, steps), devices)
    decreases |steps|
  {
    if steps != [] {
      FixedStep(s, steps[0], devices);
      FixedRunInv(Apply(s, steps[0]), steps[1..], devices);
    }
  }

  /**
   * A step leaves a fully counted sent row as it is, unless a dispatcher that is still around writes the progress
   * of an earlier batch, or reports a failure.
   */
  lemma {:induction false} SentStays(s: State, step: Step, devices: seq<Token>)
    requires FixedInv(s, devices) && Enabled(s, step) && !step.Delete?
    requires s.row.status.Sent? && s.row.sent + s.row.failed == |devices|
    ensures var r := Apply(s, step).row;
      r.status.Sent? && r.sent + r.failed == |devices| <==>
      !(step.MarkFailed? && step.applied) &&
      !(step.SaveProgress? && step.applied && BATCH_SIZE * (s.disps[step.d].next + 1) < |devices|)
  {
  }

  /** The row is sent, and its counts are those of all n recipients. */
  predicate FullySent(r: Row, n: nat) {
    r.status.Sent? && r.sent + r.failed == n
  }

  predicate AllGone(s: State) {
    forall d :: 0 <= d < |s.disps| ==> s.disps[d].phase.Gone?
  }

  lemma {:induction false} GoneLeavesRow(s: State, steps: seq<Step>)
    requires AllGone(s) && s.row.status.Sent? && ValidRun(s, steps)
    ensures Run(s, steps).row == s.row
    decreases |steps|
  {
    if steps != [] {
      GoneLeavesRow(Apply(s, steps[0]), steps[1..]);
    }
  }

  /** How many steps dispatcher p is from reporting a failure. */
  function ToFailure(p: Dispatcher): nat {
    match p.phase
    case Unsaved => 3
    case Claimed => 2
    case Ready => 2
    case Failing => 1
    case Gone => 0
  }

  /** What takes a dispatcher towards a failure: lost progress writes, an error, or a lost answer to the last write. */
  function FailingStep(s: State, d: nat): Step
    requires d < |s.disps|
  {
    var p := s.disps[d];
    if p.phase.Unsaved? then SaveProgress(d, false)
    else if p.phase.Failing? then MarkFailed(d, true)
    else if p.phase.Ready? && !More(p) && !AllFailed(p) then MarkSent(d, false, false)
    else Err(d)
  }

  /** A dispatcher that is still around can mark the row failed. */
  lemma {:induction false} CanFail(s: State, d: nat) returns (steps: seq<Step>)
    requires d < |s.disps| && !s.disps[d].phase.Gone?
    ensures ValidRun(s, steps) && Run(s, steps).row.status.Failed?
    decreases ToFailure(s.disps[d])
  {
    var step := FailingStep(s, d);
    var t := Apply(s, step);
    if s.disps[d].phase.Failing? {
      steps := Prepend(s, step, []);
    } else {
      steps := CanFail(t, d);
      steps := Prepend(s, step, steps);
    }
  }

  /** A fully counted sent row is one after every run exactly if no dispatcher is around any more. */
  lemma {:induction false} SentForGood(s: State, n: nat)
    requires FullySent(s.row, n)
    ensures AllGone(s) <==> forall steps :: ValidRun(s, steps) ==> FullySent(Run(s, steps).row, n)
  {
    if AllGone(s) {
      forall steps | ValidRun(s, steps)
        ensures FullySent(Run(s, steps).row, n)
      {
        GoneLeavesRow(s, steps);
      }
    } else {
      var d :| 0 <= d < |s.disps| && !s.disps[d].phase.Gone?;
      var steps := CanFail(s, d);
    }
  }

  /** Dispatcher d claims the row, sends to its one device and closes the row. */
  lemma {:induction false} SendsToOne(s: State) returns (steps: seq<Step>)
    requires s.row == Row(Pending, 0, 0, None) && |s.devices| == 1
    ensures ValidRun(s, steps) && FullySent(Run(s, steps).row, 1)
    ensures |Run(s, steps).disps| > |s.disps| && Run(s, steps).disps[..|s.disps|] == s.disps
  {
    var d := |s.disps|;
    var s1 := Apply(s, Claim);
    var s2 := Apply(s1, Resolve(d));
    var s3 := Apply(s2, Send(d, 1));
    var s4 := Apply(s3, SaveProgress(d, true));
    steps := Prepend(s4, MarkSent(d, true, true), []);
    steps := Prepend(s3, SaveProgress(d, true), steps);
    steps := Prepend(s2, Send(d, 1), steps);
    steps := Prepend(s1, Resolve(d), steps);
    steps := Prepend(s, Claim, steps);
  }

  /** A dispatcher that is slow to start marks the row failed after another one has sent to everybody. */
  lemma {:induction false} LateDispatcherSpoils(devices: seq<Token>) returns (done: seq<Step>, late: seq<Step>)
    requires |devices| == 1
    ensures ValidRun(Init(devices), done) && FullySent(Run(Init(devices), done).row, 1)
    ensures ValidRun(Run(Init(devices), done), late)
    ensures Run(Run(Init(devices), done), late).row.status.Failed?
  {
    var s := Init(devices);
    var s1 := Apply(s, Claim);
    var s2 := Apply(s1, ResetOrphans);
    done := SendsToOne(s2);
    var t := Run(s2, done);
    assert t.disps[0] == t.disps[..|s2.disps|][0] == s2.disps[0];
    done := Prepend(s1, ResetOrphans, done);
    done := Prepend(s, Claim, done);
    late := CanFail(t, 0);
  }

  // ---------- Who is sent to again ----------

  /** How often the run sends batch b. */
  function SendsOf(s: State, steps: seq<Step>, b: nat): nat
    requires ValidRun(s, steps)
    decreases |steps|
  {
    if steps == [] then 0
    else (if steps[0].Send? && s.disps[steps[0].d].next == b then 1 else 0) + SendsOf(Apply(s, steps[0]), steps[1..], b)
  }

  /** How often the run claims the row while batch b is not persisted as done. */
  function ClaimsBefore(s: State, steps: seq<Step>, b: nat): nat
    requires ValidRun(s, steps)
    decreases |steps|
  {
    if steps == [] then 0
    else (if steps[0].Claim? && StartBatch(s.row) <= b then 1 else 0) + ClaimsBefore(Apply(s, steps[0]), steps[1..], b)
  }

  predicate MaySend(p: Dispatcher, b: nat) {
    ((p.phase.Claimed? || p.phase.Ready?) && p.next <= b) || (p.phase.Unsaved? && p.next < b)
  }

  function MayStillSend(disps: seq<Dispatcher>, b: nat): nat {
    if disps == [] then 0
    else MayStillSend(disps[..|disps| - 1], b) + if MaySend(disps[|disps| - 1], b) then 1 else 0
  }

  lemma {:induction false} MayStillSendUpdate(disps: seq<Dispatcher>, d: nat, p: Dispatcher, b: nat)
    requires d < |disps|
    ensures MayStillSend(disps[d := p], b) ==
            MayStillSend(disps, b) - (if MaySend(disps[d], b) then 1 else 0) + if MaySend(p, b) then 1 else 0
  {
    var n := |disps| - 1;
    if d == n {
      assert disps[d := p][..n] == disps[..n];
    } else {
      MayStillSendUpdate(disps[..n], d, p, b);
      assert disps[d := p][..n] == disps[..n][d := p];
    }
  }

  lemma {:induction false} MayStillSendAppend(disps: seq<Dispatcher>, p: Dispatcher, b: nat)
    ensures MayStillSend(disps + [p], b) == MayStillSend(disps, b) + if MaySend(p, b) then 1 else 0
  {
  }

  lemma {:induction false} MayStillSendStep(s: State, step: Step, b: nat)
    requires Enabled(s, step)
    ensures MayStillSend(Apply(s, step).disps, b) + (if step.Send? && s.disps[step.d].next == b then 1 else 0)
            <= MayStillSend(s.disps, b) + if step.Claim? && StartBatch(s.row) <= b then 1 else 0
  {
    var t := Apply(s, step);
    match step {
      case Claim => MayStillSendAppend(s.disps, t.disps[|s.disps|], b);
      case Delete(_) =>
      case ResetOrphans =>
      case Resolve(d) => MayStillSendUpdate(s.disps, d, t.disps[d], b);
      case Send(d, _) => MayStillSendUpdate(s.disps, d, t.disps[d], b);
      case SaveProgress(d, _) => MayStillSendUpdate(s.disps, d, t.disps[d], b);
      case Err(d) => MayStillSendUpdate(s.disps, d, t.disps[d], b);
      case MarkSent(d, _, _) => MayStillSendUpdate(s.disps, d, t.disps[d], b);
      case MarkFailed(d, _) => MayStillSendUpdate(s.disps, d, t.disps[d], b);
      case Crash(d) => MayStillSendUpdate(s.disps, d, t.disps[d], b);
    }
  }

  lemma {:induction false} SendsAreClaimed(s: State, steps: seq<Step>, b: nat)
    requires ValidRun(s, steps)
    ensures SendsOf(s, steps, b) <= MayStillSend(s.disps, b) + ClaimsBefore(s, steps, b)
    decreases |steps|
  {
    if steps != [] {
      MayStillSendStep(s, steps[0], b);
      SendsAreClaimed(Apply(s, steps[0]), steps[1..], b);
    }
  }

  /** A batch is sent at most once for each claim made before it was persisted: later claims never send it again. */
  lemma {:induction false} ResendsOnlyUnpersisted(devices: seq<Token>, steps: seq<Step>, b: nat)
    requires ValidRun(Init(devices), steps)
    ensures SendsOf(Init(devices), steps, b) <= ClaimsBefore(Init(devices), steps, b)
  {
    SendsAreClaimed(Init(devices), steps, b);
  }

  // ---------- When a batch can be sent again ----------

  /** The list from which dispatcher p sends, or would send if it read it now. */
  function ListOf(s: State, p: Dispatcher): seq<Token> {
    if p.phase.Claimed? then s.devices else p.list
  }

  /** Dispatcher p can get to batch b. */
  predicate MayGetTo(s: State, p: Dispatcher, b: nat) {
    MaySend(p, b) && BATCH_SIZE * b < |ListOf(s, p)|
  }

  /** The row can still be claimed, with a start no later than batch b, and there is such a batch. */
  predicate MayBeClaimedFor(s: State, b: nat) {
    (s.row.status.Pending? || s.row.status.Sending?) && StartBatch(s.row) <= b && BATCH_SIZE * b < |s.devices|
  }

  ghost predicate MayStillSendBatch(s: State, b: nat) {
    MayBeClaimedFor(s, b) || exists d: nat :: d < |s.disps| && MayGetTo(s, s.disps[d], b)
  }

  /** Lists that were read only lose entries, so they are at least as long as the one there is now. */
  predicate ListsCover(s: State) {
    forall d :: 0 <= d < |s.disps| ==>
      (s.disps[d].phase.Ready? || s.disps[d].phase.Unsaved? ==> |s.devices| <= |s.disps[d].list|)
  }

  lemma {:induction false} ListsCoverRun(s: State, steps: seq<Step>)
    requires ListsCover(s) && ValidRun(s, steps)
    ensures ListsCover(Run(s, steps))
    decreases |steps|
  {
    if steps != [] {
      ListsCoverRun(Apply(s, steps[0]), steps[1..]);
    }
  }

  lemma {:induction false} GetsToEarlier(s: State, step: Step, b: nat, d: nat)
    requires ListsCover(s) && Enabled(s, step) && d < |Apply(s, step).disps|
    requires MayGetTo(Apply(s, step), Apply(s, step).disps[d], b)
    ensures MayStillSendBatch(s, b)
  {
    if d < |s.disps| {
      assert MayGetTo(s, s.disps[d], b);
    }
  }

  lemma {:induction false} ClaimedEarlier(s: State, step: Step, b: nat)
    requires ListsCover(s) && Enabled(s, step) && MayBeClaimedFor(Apply(s, step), b)
    ensures MayStillSendBatch(s, b)
  {
    if step.SaveProgress? && step.applied && !MayBeClaimedFor(s, b) {
      assert MayGetTo(s, s.disps[step.d], b);
    }
  }

  lemma {:induction false} SendsComeFromState(s: State, steps: seq<Step>, b: nat)
    requires ListsCover(s) && ValidRun(s, steps) && SendsOf(s, steps, b) > 0
    ensures MayStillSendBatch(s, b)
    decreases |steps|
  {
    if steps[0].Send? && s.disps[steps[0].d].next == b {
      assert MayGetTo(s, s.disps[steps[0].d], b);
    } else {
      var t := Apply(s, steps[0]);
      SendsComeFromState(t, steps[1..], b);
      if MayBeClaimedFor(t, b) {
        ClaimedEarlier(s, steps[0], b);
      } else {
        var d: nat :| d < |t.disps| && MayGetTo(t, t.disps[d], b);
        GetsToEarlier(s, steps[0], b, d);
      }
    }
  }

  lemma {:induction false} SendsAfter(s: State, step: Step, rest: seq<Step>, b: nat) returns (steps: seq<Step>)
    requires Enabled(s, step) && ValidRun(Apply(s, step), rest)
    ensures ValidRun(s, steps) && Run(s, steps) == Run(Apply(s, step), rest)
    ensures SendsOf(s, steps, b) ==
            (if step.Send? && s.disps[step.d].next == b then 1 else 0) + SendsOf(Apply(s, step), rest, b)
    ensures DeletionsOf(steps) == (if step.Delete? then 1 else 0) + DeletionsOf(rest)
  {
    steps := [step] + rest;
    assert steps[1..] == rest;
  }

  /** How far dispatcher p is from batch b, in steps. */
  function Distance(p: Dispatcher, b: nat): nat
    requires MaySend(p, b)
  {
    3 * (b - p.next) + if p.phase.Claimed? then 2 else if p.phase.Ready? then 1 else 0
  }

  /** A dispatcher that may get to batch b does so if left alone. */
  lemma {:induction false} GetsToBatch(s: State, d: nat, b: nat) returns (steps: seq<Step>)
    requires d < |s.disps| && MayGetTo(s, s.disps[d], b)
    ensures ValidRun(s, steps) && SendsOf(s, steps, b) > 0
    decreases Distance(s.disps[d], b)
  {
    var p := s.disps[d];
    var step := if p.phase.Claimed? then Resolve(d) else if p.phase.Ready? then Send(d, 0) else SaveProgress(d, false);
    if p.phase.Ready? && p.next == b {
      steps := SendsAfter(s, step, [], b);
    } else {
      steps := GetsToBatch(Apply(s, step), d, b);
      steps := SendsAfter(s, step, steps, b);
    }
  }

  lemma {:induction false} ClaimGetsToBatch(s: State, b: nat) returns (steps: seq<Step>)
    requires MayBeClaimedFor(s, b)
    ensures ValidRun(s, steps) && SendsOf(s, steps, b) > 0
  {
    var s1 := Apply(s, ResetOrphans);
    steps := GetsToBatch(Apply(s1, Claim), |s.disps|, b);
    steps := SendsAfter(s1, Claim, steps, b);
    steps := SendsAfter(s, ResetOrphans, steps, b);
  }

  /**
   * At every point of every run: batch b may be sent once more exactly if a dispatcher at work can get to it, or
   * the row can be claimed again while the persisted index is before it. Whether it was sent already plays no part.
   */
  lemma {:induction false} MayBeSentAgain(devices: seq<Token>, steps: seq<Step>, b: nat)
    requires ValidRun(Init(devices), steps)
    ensures var s := Run(Init(devices), steps);
      MayStillSendBatch(s, b) <==> exists more :: ValidRun(s, more) && SendsOf(s, more, b) > 0
  {
    ListsCoverRun(Init(devices), steps);
    var s := Run(Init(devices), steps);
    if more :| ValidRun(s, more) && SendsOf(s, more, b) > 0 {
      SendsComeFromState(s, more, b);
    }
    if MayBeClaimedFor(s, b) {
      var more := ClaimGetsToBatch(s, b);
    } else if d: nat :| d < |s.disps| && MayGetTo(s, s.disps[d], b) {
      var more := GetsToBatch(s, d, b);
    }
  }

  /** A pending row without progress is claimed and its first batch sent. */
  lemma {:induction false} FirstSend(s: State) returns (steps: seq<Step>)
    requires s.row.status.Pending? && StartBatch(s.row) == 0 && s.devices != []
    ensures ValidRun(s, steps) && DeletionsOf(steps) == 0 && SendsOf(s, steps, 0) == 1
    ensures var t := Run(s, steps);
      && t.row == s.row.(status := Sending) && t.devices == s.devices
      && |t.disps| == |s.disps| + 1 && t.disps[|s.disps|].phase.Unsaved?
  {
    var d := |s.disps|;
    var s1 := Apply(s, Claim);
    var s2 := Apply(s1, Resolve(d));
    steps := SendsAfter(s2, Send(d, 0), [], 0);
    steps := SendsAfter(s1, Resolve(d), steps, 0);
    steps := SendsAfter(s, Claim, steps, 0);
  }

  lemma {:induction false} SendsConcat(s: State, a: seq<Step>, b: seq<Step>, batch: nat)
    requires ValidRun(s, a) && ValidRun(Run(s, a), b)
    ensures ValidRun(s, a + b) && Run(s, a + b) == Run(Run(s, a), b)
    ensures SendsOf(s, a + b, batch) == SendsOf(s, a, batch) + SendsOf(Run(s, a), b, batch)
    ensures DeletionsOf(a + b) == DeletionsOf(a) + DeletionsOf(b)
    decreases |a|
  {
    if a == [] {
      assert a + b == b;
    } else {
      SendsConcat(Apply(s, a[0]), a[1..], b, batch);
      assert (a + b)[0] == a[0] && (a + b)[1..] == a[1..] + b;
    }
  }

  lemma {:induction false} CrashAndReset(s: State, d: nat) returns (steps: seq<Step>)
    requires In(s, d, Unsaved) && s.row.status.Sending?
    ensures ValidRun(s, steps) && DeletionsOf(steps) == 0 && SendsOf(s, steps, 0) == 0
    ensures Run(s, steps).row == s.row.(status := Pending) && Run(s, steps).devices == s.devices
  {
    steps := SendsAfter(Apply(s, Crash(d)), ResetOrphans, [], 0);
    steps := SendsAfter(s, Crash(d), steps, 0);
  }

  /** A crash between a send and its progress write: the first batch goes out twice, with no token deleted. */
  lemma {:induction false} CrashSendsTwice(devices: seq<Token>) returns (steps: seq<Step>)
    requires devices != []
    ensures ValidRun(Init(devices), steps) && DeletionsOf(steps) == 0
    ensures SendsOf(Init(devices), steps, 0) == 2
  {
    var s := Init(devices);
    steps := FirstSend(s);
    var crash := CrashAndReset(Run(s, steps), 0);
    SendsConcat(s, steps, crash, 0);
    steps := steps + crash;
    var again := FirstSend(Run(s, steps));
    SendsConcat(s, steps, again, 0);
    steps := steps + again;
  }

  // ---------- A dead token makes a resumed dispatch skip somebody ----------

  /** The first dispatch finds one dead token in its first batch and has not written its progress yet. */
  lemma {:induction false} FirstBatch(devices: seq<Token>) returns (steps: seq<Step>)
    requires |devices| == 501
    ensures ValidRun(Init(devices), steps)
    ensures Run(Init(devices), steps) ==
            State(Row(Sending, 0, 0, None), devices[1..], Elements(devices[..500]), 1,
                  [Dispatcher(Unsaved, 0, 499, 1, devices, 0)])
  {
    var s := Init(devices);
    var s1 := Apply(s, Claim);
    var s2 := Apply(s1, Resolve(0));
    BatchSize(devices, 0);
    var s3 := Apply(s2, Send(0, 499));
    steps := Prepend(s3, Delete(0), []);
    steps := Prepend(s2, Send(0, 499), steps);
    steps := Prepend(s1, Resolve(0), steps);
    steps := Prepend(s, Claim, steps);
  }

  /** It writes its progress and crashes; the row is reset. */
  lemma {:induction false} SaveAndCrash(s: State) returns (steps: seq<Step>)
    requires In(s, 0, Unsaved) && s.row.status.Sending?
    ensures ValidRun(s, steps)
    ensures Run(s, steps) ==
            s.(row := WithProgress(s.row, s.disps[0]).(status := Pending), disps := Run(s, steps).disps)
  {
    var s1 := Apply(s, SaveProgress(0, true));
    var s2 := Apply(s1, Crash(0));
    steps := Prepend(s2, ResetOrphans, []);
    steps := Prepend(s1, Crash(0), steps);
    steps := Prepend(s, SaveProgress(0, true), steps);
  }

  /** The resumed dispatch: it reads 500 devices, starts at batch 1 and closes the row at once. */
  lemma {:induction false} ResumeCloses(s: State) returns (steps: seq<Step>)
    requires s.row == Row(Pending, 499, 1, Some(0)) && |s.devices| == 500
    ensures ValidRun(s, steps)
    ensures var t := Run(s, steps);
      t.row.status.Sent? && t.devices == s.devices && t.reached == s.reached && t.deletions == s.deletions
  {
    var d := |s.disps|;
    var s1 := Apply(s, Claim);
    var s2 := Apply(s1, Resolve(d));
    steps := Prepend(s2, MarkSent(d, true, true), []);
    steps := Prepend(s1, Resolve(d), steps);
    steps := Prepend(s, Claim, steps);
  }

  /** The bound is met: one deleted token can cost the last of 501 devices its notification. */
  lemma {:induction false} DeadTokenSkipsSurvivor(devices: seq<Token>) returns (steps: seq<Step>)
    requires |devices| == 501 && devices[500] !in devices[..500]
    ensures ValidRun(Init(devices), steps) && DeletionsOf(steps) == 1
    ensures var t := Run(Init(devices), steps);
      t.row.status.Sent? && devices[500] in t.devices && devices[500] !in t.reached
  {
    var s := Init(devices);
    steps := FirstBatch(devices);
    var crash := SaveAndCrash(Run(s, steps));
    RunConcat(s, steps, crash);
    steps := steps + crash;
    var resume := ResumeCloses(Run(s, steps));
    RunConcat(s, steps, resume);
    steps := steps + resume;
    DeletionsCount(s, steps);
    assert devices[1..][499] == devices[500];
  }

  // ---------- The database, and the dispatcher that works on it ----------

  datatype Outcome = Delivered | Rejected | Unregistered

  datatype Reply = Answer(outcomes: seq<Outcome>) | CallFailed

  /** What became of a write: Unacked is a write that was applied although it came back as an error. */
  datatype Write = Stored | NotStored | Unacked

  /** How everything outside behaves: FCM's reply to each batch, and which statements fail. */
  datatype World = World(resolves: bool, replies: seq<Reply>, undeletable: set<Token>, saves: seq<bool>,
                         markSent: Write, markFailed: Write)

  lemma {:induction false} WithoutMembers(list: seq<Token>, i: nat)
    requires i < |list|
    ensures forall t :: t in Without(list, i) ==> t in list
    ensures forall t :: t in list && t != list[i] ==> t in Without(list, i)
    ensures Without(list, i)[..i] == list[..i]
  {
  }

  const STALE_SECONDS: int := 300

  /** A row without a schedule is always due. */
  predicate Due(scheduledAt: Option<int>, now: int) {
    scheduledAt.None? || scheduledAt.value <= now
  }

  class Store {
    const scheduledAt: Option<int>
    var row: Row
    var devices: seq<Token>

    constructor (devices: seq<Token>, scheduledAt: Option<int>)
      ensures row == Init(devices).row && this.devices == devices && this.scheduledAt == scheduledAt
    {
      row := Row(Pending, 0, 0, None);
      this.scheduledAt := scheduledAt;
      this.devices := devices;
    }

    /** Flips a pending row that is due to sending and returns it with the progress it has so far. */
    method ClaimPending(now: int) returns (n: Option<Row>)
      modifies this`row
      ensures n.Some? <==> old(row).status.Pending? && (scheduledAt.None? || scheduledAt.value <= now)
      ensures row == if n.Some? then old(row).(status := Sending) else old(row)
      ensures n.Some? ==> n.value == row
    {
      if !row.status.Pending? || !Due(scheduledAt, now) {
        return None;
      }
      row := row.(status := Sending);
      return Some(row);
    }

    /** Resets a row that has been sending for more than five minutes since it was last written. */
    method ResetOrphans(updatedAt: int, now: int) returns (n: nat)
      modifies this`row
      ensures row == if n == 1 then old(row).(status := Pending) else old(row)
      ensures n == if old(row).status.Sending? && updatedAt < now - 5 * 60 then 1 else 0
    {
      if !row.status.Sending? || updatedAt >= now - STALE_SECONDS {
        return 0;
      }
      row := row.(status := Pending);
      return 1;
    }

    method MarkSent(sent: nat, failed: nat, write: Write) returns (ok: bool)
      modifies this`row
      ensures ok == write.Stored?
      ensures row == if write.NotStored? then old(row) else Row(Sent, sent, failed, old(row).last)
    {
      if !write.NotStored? {
        row := row.(status := Sent, sent := sent, failed := failed);
      }
      return write.Stored?;
    }

    method MarkFailed(write: Write)
      modifies this`row
      ensures row == if write.NotStored? then old(row) else old(row).(status := Failed)
    {
      if !write.NotStored? {
        row := row.(status := Failed);
      }
    }

    method UpdateProgress(sent: nat, failed: nat, batch: nat, stored: bool)
      modifies this`row
      ensures row == if stored then Row(old(row).status, sent, failed, Some(batch)) else old(row)
    {
      if stored {
        row := row.(sent := sent, failed := failed, last := Some(batch));
      }
    }

    /** Deletes every device with this token, one step per row; the others stay, in order. */
    method DeleteDevice(token: Token, ghost s: State) returns (ghost trace: seq<Step>)
      requires s.devices == devices
      modifies this`devices
      ensures OnlyDeletes(s, trace, devices)
      ensures devices == Keep(old(devices), {token})
      ensures forall t :: t in devices <==> t in old(devices) && t != token
    {
      trace := [];
      ghost var m := 0;
      var i := 0;
      while i < |devices|
        invariant Sifted(old(devices), m, token, devices, i)
        invariant OnlyDeletes(s, trace, devices)
        decreases |devices| - i
      {
        SiftNext(old(devices), m, token, devices, i);
        if devices[i] == token {
          RunExtends(s, trace, Delete(i));
          trace := trace + [Delete(i)];
          devices := devices[..i] + devices[i+1..];
        } else {
          i := i + 1;
        }
        m := m + 1;
      }
      SiftEnd(old(devices), m, token, devices, i);
    }
  }

  /** The first m entries are gone through: of these the first i of the list now are left. */
  predicate Sifted(was: seq<Token>, m: nat, token: Token, now: seq<Token>, i: nat) {
    m <= |was| && i == |Keep(was[..m], {token})| && now == Keep(was[..m], {token}) + was[m..]
  }

  lemma {:induction false} SiftNext(was: seq<Token>, m: nat, token: Token, now: seq<Token>, i: nat)
    requires Sifted(was, m, token, now, i) && i < |now|
    ensures m < |was| && now[i] == was[m]
    ensures if now[i] == token then Sifted(was, m + 1, token, Without(now, i), i)
            else Sifted(was, m + 1, token, now, i + 1)
  {
    KeepNext(was, m, {token});
  }

  lemma {:induction false} SiftEnd(was: seq<Token>, m: nat, token: Token, now: seq<Token>, i: nat)
    requires Sifted(was, m, token, now, i) && i >= |now|
    ensures now == Keep(was, {token}) && forall t :: t in now <==> t in was && t != token
  {
    assert was[..m] == was;
    KeepElements(was, {token});
    assert forall t :: t in now <==> t in Elements(now);
    assert forall t :: t in was <==> t in Elements(was);
  }

  /** The trace leads from s to s with these devices, and does nothing else. */
  ghost predicate OnlyDeletes(s: State, trace: seq<Step>, devices: seq<Token>) {
    && ValidRun(s, trace)
    && var t := Run(s, trace);
       t == s.(devices := devices, deletions := t.deletions)
  }

  // ---------- One dispatch ----------

  function Batches(n: nat): nat {
    (n + BATCH_SIZE - 1) / BATCH_SIZE
  }

  predicate Fits(world: World, list: seq<Token>) {
    && |world.replies| >= Batches(|list|) && |world.saves| >= Batches(|list|)
    && forall b :: 0 <= b < Batches(|list|) ==>
      (world.replies[b].Answer? ==> |world.replies[b].outcomes| == |Batch(list, b)|)
  }

  function Successes(outcomes: seq<Outcome>): (n: nat)
    ensures n <= |outcomes|
  {
    if outcomes == [] then 0
    else Successes(outcomes[..|outcomes| - 1]) + if outcomes[|outcomes| - 1].Delivered? then 1 else 0
  }

  /** The positions of the delivered outcomes. */
  function DeliveredAt(outcomes: seq<Outcome>): set<nat> {
    set k: nat | k < |outcomes| && outcomes[k].Delivered?
  }

  lemma {:induction false} DeliveredNext(outcomes: seq<Outcome>)
    requires outcomes != []
    ensures var n := |outcomes| - 1;
      DeliveredAt(outcomes) == DeliveredAt(outcomes[..n]) + if outcomes[n].Delivered? then {n} else {}
  {
  }

  /** The successes are the delivered outcomes. */
  lemma {:induction false} SuccessesAreDelivered(outcomes: seq<Outcome>)
    ensures Successes(outcomes) == |DeliveredAt(outcomes)|
  {
    if outcomes == [] {
      assert DeliveredAt(outcomes) == {};
    } else {
      var n := |outcomes| - 1;
      SuccessesAreDelivered(outcomes[..n]);
      DeliveredNext(outcomes);
      assert n !in DeliveredAt(outcomes[..n]);
    }
  }

  method CountSuccesses(outcomes: seq<Outcome>) returns (n: nat)
    ensures n == Successes(outcomes)
  {
    n := 0;
    for k := 0 to |outcomes|
      invariant n == Successes(outcomes[..k])
    {
      assert outcomes[..k+1][..k] == outcomes[..k];
      if outcomes[k].Delivered? {
        n := n + 1;
      }
    }
    assert outcomes[..|outcomes|] == outcomes;
  }

  /** The successes of the batches b0, ..., b1 - 1. */
  function SuccessesIn(world: World, b0: nat, b1: nat): nat
    requires b1 <= |world.replies|
  {
    if b1 <= b0 then 0
    else SuccessesIn(world, b0, b1 - 1) +
         if world.replies[b1 - 1].Answer? then Successes(world.replies[b1 - 1].outcomes) else 0
  }

  /** The tokens reported as unregistered whose delete succeeds. */
  function DeadOf(tokens: seq<Token>, outcomes: seq<Outcome>, undeletable: set<Token>): set<Token> {
    set k | 0 <= k < |tokens| && k < |outcomes| && outcomes[k].Unregistered? && tokens[k] !in undeletable :: tokens[k]
  }

  lemma {:induction false} DeadNext(tokens: seq<Token>, outcomes: seq<Outcome>, undeletable: set<Token>, k: nat)
    requires k < |tokens| == |outcomes|
    ensures DeadOf(tokens[..k+1], outcomes[..k+1], undeletable) ==
            DeadOf(tokens[..k], outcomes[..k], undeletable) +
            if outcomes[k].Unregistered? && tokens[k] !in undeletable then {tokens[k]} else {}
  {
    var before := DeadOf(tokens[..k], outcomes[..k], undeletable);
    var after := DeadOf(tokens[..k+1], outcomes[..k+1], undeletable);
    forall t | t in before
      ensures t in after
    {
      var j :| 0 <= j < k && outcomes[j].Unregistered? && tokens[j] !in undeletable && tokens[j] == t;
      assert tokens[..k+1][j] == t && outcomes[..k+1][j].Unregistered?;
    }
    forall t | t in after
      ensures t in before || (t == tokens[k] && outcomes[k].Unregistered? && t !in undeletable)
    {
      var j :| 0 <= j < k + 1 && outcomes[j].Unregistered? && tokens[j] !in undeletable && tokens[j] == t;
      if j < k {
        assert tokens[..k][j] == t && outcomes[..k][j].Unregistered?;
      }
    }
    if outcomes[k].Unregistered? && tokens[k] !in undeletable {
      assert tokens[..k+1][k] == tokens[k] && outcomes[..k+1][k].Unregistered?;
    }
  }

  /** Drops the tokens that FCM reported as unregistered, as far as the deletes succeed, and no others. */
  method DropDead(store: Store, tokens: seq<Token>, outcomes: seq<Outcome>, undeletable: set<Token>, ghost s: State)
    returns (ghost trace: seq<Step>)
    requires s.devices == store.devices && |tokens| == |outcomes|
    modifies store`devices
    ensures OnlyDeletes(s, trace, store.devices)
    ensures store.devices == Keep(old(store.devices), DeadOf(tokens, outcomes, undeletable))
    ensures forall t :: t in store.devices <==>
      t in old(store.devices) &&
      !exists k :: 0 <= k < |tokens| && tokens[k] == t && outcomes[k].Unregistered? && t !in undeletable
  {
    trace := [];
    ghost var was := store.devices;
    KeepAll(was, {});
    assert DeadOf(tokens[..0], outcomes[..0], undeletable) == {};
    for k := 0 to |tokens|
      invariant OnlyDeletes(s, trace, store.devices)
      invariant store.devices == Keep(was, DeadOf(tokens[..k], outcomes[..k], undeletable))
    {
      DeadNext(tokens, outcomes, undeletable, k);
      if outcomes[k].Unregistered? && tokens[k] !in undeletable {
        KeepTwice(was, DeadOf(tokens[..k], outcomes[..k], undeletable), {tokens[k]});
        ghost var more := store.DeleteDevice(tokens[k], Run(s, trace));
        RunConcat(s, trace, more);
        trace := trace + more;
      } else {
        assert DeadOf(tokens[..k+1], outcomes[..k+1], undeletable) == DeadOf(tokens[..k], outcomes[..k], undeletable);
      }
    }
    assert tokens[..|tokens|] == tokens && outcomes[..|outcomes|] == outcomes;
    KeptMeans(was, tokens, outcomes, undeletable);
  }

  lemma {:induction false} KeptMeans(list: seq<Token>, tokens: seq<Token>, outcomes: seq<Outcome>,
                                     undeletable: set<Token>)
    requires |tokens| == |outcomes|
    ensures forall t :: t in Keep(list, DeadOf(tokens, outcomes, undeletable)) <==>
      t in list && !exists k :: 0 <= k < |tokens| && tokens[k] == t && outcomes[k].Unregistered? && t !in undeletable
  {
    var dead := DeadOf(tokens, outcomes, undeletable);
    KeepElements(list, dead);
    assert forall t :: t in Keep(list, dead) <==> t in Elements(Keep(list, dead));
    assert forall t :: t in list <==> t in Elements(list);
  }

  /** The tokens that the batches b0, ..., b - 1 drop. */
  function DeadIn(world: World, list: seq<Token>, b0: nat, b: nat): set<Token> {
    if b <= b0 then {}
    else
      DeadIn(world, list, b0, b - 1) +
      if b - 1 < |world.replies| && world.replies[b - 1].Answer?
      then DeadOf(Batch(list, b - 1), world.replies[b - 1].outcomes, world.undeletable) else {}
  }

  /** Batch c drops token t: it is reported as unregistered there, and its delete succeeds. */
  predicate DropsIn(world: World, list: seq<Token>, c: nat, t: Token) {
    && c < |world.replies| && world.replies[c].Answer? && t !in world.undeletable
    && exists k :: 0 <= k < |Batch(list, c)| && k < |world.replies[c].outcomes| &&
                   Batch(list, c)[k] == t && world.replies[c].outcomes[k].Unregistered?
  }

  /** A token is dropped by a range of batches exactly if one of them drops it. */
  lemma {:induction false} DeadInMeans(world: World, list: seq<Token>, b0: nat, b: nat, t: Token)
    ensures t in DeadIn(world, list, b0, b) <==> exists c: nat :: b0 <= c < b && DropsIn(world, list, c, t)
  {
    if b > b0 {
      DeadInMeans(world, list, b0, b - 1, t);
      assert t in DeadIn(world, list, b0, b) <==>
             t in DeadIn(world, list, b0, b - 1) || DropsIn(world, list, b - 1, t);
    }
  }

  lemma {:induction false} BatchAppends(list: seq<Token>, b0: nat, b: nat)
    requires b0 <= b
    ensures list[Upto(b0, |list|)..Upto(b, |list|)] + Batch(list, b) == list[Upto(b0, |list|)..Upto(b + 1, |list|)]
  {
  }

  /** The trace leads from s to this database, with these tokens sent to on the way. */
  ghost predicate Leads(s: State, trace: seq<Step>, row: Row, devices: seq<Token>, sentTo: seq<Token>) {
    && ValidRun(s, trace)
    && var t := Run(s, trace);
       t.row == row && t.devices == devices && t.reached == s.reached + Elements(sentTo)
  }

  lemma {:induction false} LeadsOn(s: State, a: seq<Step>, row: Row, devices: seq<Token>, sentTo: seq<Token>,
                                   b: seq<Step>, row': Row, devices': seq<Token>, more: seq<Token>)
    requires Leads(s, a, row, devices, sentTo) && Leads(Run(s, a), b, row', devices', more)
    ensures Leads(s, a + b, row', devices', sentTo + more) && Run(s, a + b) == Run(Run(s, a), b)
  {
    RunConcat(s, a, b);
    TokensAppend(sentTo, more);
  }

  lemma {:induction false} LeadsBy(s: State, trace: seq<Step>, row: Row, devices: seq<Token>, sentTo: seq<Token>,
                                   step: Step)
    requires Leads(s, trace, row, devices, sentTo) && Enabled(Run(s, trace), step) && !step.Send?
    ensures var t := Apply(Run(s, trace), step);
      Leads(s, trace + [step], t.row, t.devices, sentTo) && Run(s, trace + [step]) == t
  {
    RunExtends(s, trace, step);
  }

  /** Dispatcher d of s stands before batch b with these running counts. */
  predicate Before(s: State, d: nat, list: seq<Token>, seen: nat, b: nat, sent: nat, failed: nat) {
    d < |s.disps| && s.disps[d] == Dispatcher(Ready, b, sent, failed, list, seen)
  }

  /** One turn of the loop, after FCM answered: count, drop dead tokens, write the progress. */
  method FinishBatch(store: Store, world: World, list: seq<Token>, b: nat, sent: nat, failed: nat,
                     ghost s: State, ghost d: nat)
    returns (sent': nat, failed': nat, ghost trace: seq<Step>)
    requires Fits(world, list) && BATCH_SIZE * b < |list| && world.replies[b].Answer?
    requires d < |s.disps| && Before(s, d, list, s.disps[d].seen, b, sent, failed)
    requires s.row == store.row && s.devices == store.devices
    modifies store
    ensures Leads(s, trace, store.row, store.devices, Batch(list, b))
    ensures Before(Run(s, trace), d, list, s.disps[d].seen, b + 1, sent', failed')
    ensures sent' == sent + Successes(world.replies[b].outcomes)
    ensures sent' + failed' == sent + failed + |Batch(list, b)|
    ensures store.row == if world.saves[b] then Row(old(store.row).status, sent', failed', Some(b)) else old(store.row)
    ensures store.devices ==
            Keep(old(store.devices), DeadOf(Batch(list, b), world.replies[b].outcomes, world.undeletable))
    ensures forall t :: t in store.devices <==>
      t in old(store.devices) &&
      !exists k :: 0 <= k < |Batch(list, b)| && Batch(list, b)[k] == t && world.replies[b].outcomes[k].Unregistered? &&
                   t !in world.undeletable
  {
    var outcomes := world.replies[b].outcomes;
    var tokens := Batch(list, b);
    var ok := CountSuccesses(outcomes);
    sent', failed' := sent + ok, failed + (|outcomes| - ok);
    trace := [];
    RunExtends(s, trace, Send(d, ok));
    trace := trace + [Send(d, ok)];
    ghost var s1 := Run(s, trace);
    ghost var drops := DropDead(store, tokens, outcomes, world.undeletable, s1);
    RunConcat(s, trace, drops);
    trace := trace + drops;
    store.UpdateProgress(sent', failed', b, world.saves[b]);
    RunExtends(s, trace, SaveProgress(d, world.saves[b]));
    trace := trace + [SaveProgress(d, world.saves[b])];
  }

  /** FCM answered the batches b0, ..., b1 - 1. */
  predicate Answered(replies: seq<Reply>, b0: nat, b1: nat) {
    forall b :: b0 <= b < b1 ==> b < |replies| && replies[b].Answer?
  }

  /** The last of the batches b0, ..., b - 1 whose progress was written. */
  function LastSaved(world: World, b0: nat, b: nat): Option<nat> {
    if b <= b0 then None
    else if b - 1 < |world.saves| && world.saves[b - 1] then Some(b - 1)
    else LastSaved(world, b0, b - 1)
  }

  lemma {:induction false} LastSavedMeans(world: World, b0: nat, b: nat)
    ensures var last := LastSaved(world, b0, b);
      && (last.Some? ==>
            && b0 <= last.value < b && last.value < |world.saves| && world.saves[last.value]
            && forall c :: last.value < c < b && c < |world.saves| ==> !world.saves[c])
      && (last.None? ==> forall c :: b0 <= c < b && c < |world.saves| ==> !world.saves[c])
  {
    if b > b0 {
      LastSavedMeans(world, b0, b - 1);
    }
  }

  /** The row after the batches start, ..., b - 1: the progress of the last one that was written, if there is one. */
  predicate Progress(row0: Row, row: Row, world: World, list: seq<Token>, start: nat, b: nat, sent0: nat,
                     failed0: nat)
  {
    match LastSaved(world, start, b)
    case None => row == row0
    case Some(m) =>
      && row.status == row0.status && row.last == Some(m) && m < |world.replies|
      && row.sent == sent0 + SuccessesIn(world, start, m + 1)
      && row.sent + row.failed == sent0 + failed0 + (Upto(m + 1, |list|) - Upto(start, |list|))
  }

  /** The batch with which the loop that stands before batch b stops: behind the last one, or not answered. */
  function StopBatch(world: World, n: nat, b: nat): (e: nat)
    ensures b <= e && (b < e ==> e <= |world.replies|)
    decreases |world.replies| - b
  {
    if BATCH_SIZE * b >= n || b >= |world.replies| || world.replies[b].CallFailed? then b
    else StopBatch(world, n, b + 1)
  }

  lemma {:induction false} AnsweredBeforeStop(world: World, n: nat, b: nat, c: nat)
    requires b <= c < StopBatch(world, n, b)
    ensures world.replies[c].Answer? && BATCH_SIZE * c < n
    decreases c - b
  {
    if c > b {
      AnsweredBeforeStop(world, n, b + 1, c);
    }
  }

  lemma {:induction false} StopsThere(world: World, n: nat, b: nat)
    ensures var e := StopBatch(world, n, b); BATCH_SIZE * e >= n || e >= |world.replies| || world.replies[e].CallFailed?
    decreases |world.replies| - b
  {
    if !(BATCH_SIZE * b >= n || b >= |world.replies| || world.replies[b].CallFailed?) {
      StopsThere(world, n, b + 1);
    }
  }

  /** All batches before the stop are answered, and the one it stops at is not, if there is such a batch. */
  lemma {:induction false} StopBatchMeans(world: World, n: nat, b: nat)
    ensures var e := StopBatch(world, n, b);
      && b <= e && (b < e ==> e <= |world.replies|)
      && (forall c :: b <= c < e ==> world.replies[c].Answer? && BATCH_SIZE * c < n)
      && (BATCH_SIZE * e >= n || e >= |world.replies| || world.replies[e].CallFailed?)
  {
    StopsThere(world, n, b);
    forall c | b <= c < StopBatch(world, n, b)
      ensures world.replies[c].Answer? && BATCH_SIZE * c < n
    {
      AnsweredBeforeStop(world, n, b, c);
    }
  }

  /** What the batches start, ..., b - 1 have done to the database, and whom they were sent to. */
  ghost predicate Done(row0: Row, devices0: seq<Token>, row: Row, devices: seq<Token>, sentTo: seq<Token>, world: World,
                       list: seq<Token>, start: nat, b: nat, sent0: nat, failed0: nat)
  {
    && start <= b
    && sentTo == list[Upto(start, |list|)..Upto(b, |list|)]
    && devices == Keep(devices0, DeadIn(world, list, start, b))
    && Progress(row0, row, world, list, start, b, sent0, failed0)
  }

  lemma {:induction false} DoneAtStart(row: Row, devices: seq<Token>, world: World, list: seq<Token>, start: nat,
                                       sent0: nat, failed0: nat)
    ensures Done(row, devices, row, devices, [], world, list, start, start, sent0, failed0)
  {
    KeepAll(devices, {});
  }

  lemma {:induction false} DoneNext(row0: Row, devices0: seq<Token>, row: Row, devices: seq<Token>, sentTo: seq<Token>,
                                    world: World, list: seq<Token>, start: nat, b: nat, sent0: nat, failed0: nat,
                                    row': Row, devices': seq<Token>, sent: nat, failed: nat)
    requires Done(row0, devices0, row, devices, sentTo, world, list, start, b, sent0, failed0)
    requires b < |world.replies| && world.replies[b].Answer? && b < |world.saves|
    requires devices' == Keep(devices, DeadOf(Batch(list, b), world.replies[b].outcomes, world.undeletable))
    requires row' == if world.saves[b] then Row(row.status, sent, failed, Some(b)) else row
    requires sent == sent0 + SuccessesIn(world, start, b + 1)
    requires sent + failed == sent0 + failed0 + (Upto(b + 1, |list|) - Upto(start, |list|))
    ensures Done(row0, devices0, row', devices', sentTo + Batch(list, b), world, list, start, b + 1, sent0, failed0)
  {
    KeepTwice(devices0, DeadIn(world, list, start, b),
              DeadOf(Batch(list, b), world.replies[b].outcomes, world.undeletable));
    BatchAppends(list, start, b);
  }

  lemma {:induction false} AnsweredOn(replies: seq<Reply>, b0: nat, b: nat)
    requires Answered(replies, b0, b) && b < |replies| && replies[b].Answer?
    ensures Answered(replies, b0, b + 1)
  {
  }

  /** Where the loop that starts with batch b0 ends. */
  function EndBatch(n: nat, b0: nat): nat {
    if Batches(n) < b0 then b0 else Batches(n)
  }

  /** The counts after the batches start, ..., b - 1. */
  predicate Counts(world: World, list: seq<Token>, start: nat, b: nat,
                   sent0: nat, failed0: nat, sent: nat, failed: nat) {
    && start <= b
    && (b == start ==> sent == sent0)
    && (b > start ==> b <= |world.replies| && sent == sent0 + SuccessesIn(world, start, b))
    && sent + failed == sent0 + failed0 + (Upto(b, |list|) - Upto(start, |list|))
  }

  /** Where the loop stands before batch b: dispatcher, counts and what was sent to agree. */
  ghost predicate Stands(s: State, trace: seq<Step>, row: Row, devices: seq<Token>, d: nat,
                         world: World, list: seq<Token>,
                         start: nat, sent0: nat, failed0: nat, b: nat, sent: nat, failed: nat, sentTo: seq<Token>)
    requires d < |s.disps|
  {
    && Leads(s, trace, row, devices, sentTo)
    && Before(Run(s, trace), d, list, s.disps[d].seen, b, sent, failed)
    && Counts(world, list, start, b, sent0, failed0, sent, failed)
    && b <= EndBatch(|list|, start) && Answered(world.replies, start, b)
    && sentTo == list[Upto(start, |list|)..Upto(b, |list|)]
  }

  /**
   * The loop gets to batch b and stands before it, and the batches before it have had their effect. The comparison
   * with `true` keeps the parts together, so that the loop's proof does not take them apart.
   */
  ghost predicate Underway(s: State, trace: seq<Step>, row: Row, devices: seq<Token>, d: nat, world: World,
                           list: seq<Token>, start: nat, sent0: nat, failed0: nat, b: nat, sent: nat, failed: nat,
                           sentTo: seq<Token>)
    requires d < |s.disps|
  {
    true == (
      && Fits(world, list) && StopBatch(world, |list|, b) == StopBatch(world, |list|, start)
      && Stands(s, trace, row, devices, d, world, list, start, sent0, failed0, b, sent, failed, sentTo)
      && Done(s.row, s.devices, row, devices, sentTo, world, list, start, b, sent0, failed0))
  }

  /** The loop has stopped with an error, at the first batch that was not answered. */
  ghost predicate Stopped(s: State, trace: seq<Step>, row: Row, devices: seq<Token>, d: nat, world: World,
                          list: seq<Token>, start: nat, sent0: nat, failed0: nat, sentTo: seq<Token>)
  {
    var e := StopBatch(world, |list|, start);
    true == (
      && BATCH_SIZE * e < |list| && Leads(s, trace, row, devices, sentTo) && In(Run(s, trace), d, Failing)
      && Done(s.row, s.devices, row, devices, sentTo, world, list, start, e, sent0, failed0))
  }

  /** One turn of the loop. */
  method SendBatch(store: Store, world: World, list: seq<Token>, ghost start: nat, ghost sent0: nat, ghost failed0: nat,
                   b: nat, sent: nat, failed: nat, sentTo: seq<Token>, ghost s: State, ghost trace: seq<Step>,
                   ghost d: nat)
    returns (ok: bool, sent': nat, failed': nat, sentTo': seq<Token>, ghost trace': seq<Step>)
    requires BATCH_SIZE * b < |list| && d < |s.disps|
    requires Underway(s, trace, store.row, store.devices, d, world, list, start, sent0, failed0, b, sent, failed,
                      sentTo)
    modifies store
    ensures ok <==> world.replies[b].Answer?
    ensures ok ==>
      Underway(s, trace', store.row, store.devices, d, world, list, start, sent0, failed0, b + 1, sent', failed',
               sentTo')
    ensures !ok ==>
      Stopped(s, trace', store.row, store.devices, d, world, list, start, sent0, failed0, sentTo')
  {
    if world.replies[b].CallFailed? {
      LeadsBy(s, trace, store.row, store.devices, sentTo, Err(d));
      return false, sent, failed, sentTo, trace + [Err(d)];
    }
    ghost var row, devices := store.row, store.devices;
    ghost var more;
    sent', failed', more := FinishBatch(store, world, list, b, sent, failed, Run(s, trace), d);
    LeadsOn(s, trace, row, devices, sentTo, more, store.row, store.devices, Batch(list, b));
    BatchAppends(list, start, b);
    AnsweredOn(world.replies, start, b);
    DoneNext(s.row, s.devices, row, devices, sentTo, world, list, start, b, sent0, failed0, store.row, store.devices,
             sent', failed');
    ok, sentTo', trace' := true, sentTo + Batch(list, b), trace + more;
  }

  lemma {:induction false} StandsAtStart(s: State, d: nat, world: World, list: seq<Token>, start: nat, sent0: nat,
                                         failed0: nat)
    requires d < |s.disps| && Before(s, d, list, s.disps[d].seen, start, sent0, failed0)
    ensures Stands(s, [], s.row, s.devices, d, world, list, start, sent0, failed0, start, sent0, failed0, [])
  {
    assert Elements([]) == {};
  }

  /** What the loop has done when no batch is left. */
  lemma {:induction false} StandsAtEnd(s: State, trace: seq<Step>, row: Row, devices: seq<Token>, d: nat, world: World,
                                       list: seq<Token>, start: nat, sent0: nat, failed0: nat, b: nat, sent: nat,
                                       failed: nat, sentTo: seq<Token>)
    requires d < |s.disps| && BATCH_SIZE * b >= |list|
    requires Stands(s, trace, row, devices, d, world, list, start, sent0, failed0, b, sent, failed, sentTo)
    ensures b == EndBatch(|list|, start) && Answered(world.replies, start, Batches(|list|))
    ensures sentTo == list[Upto(start, |list|)..]
  {
  }

  lemma {:induction false} StopsAtEnd(world: World, n: nat, b: nat)
    requires BATCH_SIZE * StopBatch(world, n, b) >= n
    ensures StopBatch(world, n, b) == EndBatch(n, b) && Upto(StopBatch(world, n, b), n) == n
    decreases |world.replies| - b
  {
    if !(BATCH_SIZE * b >= n || b >= |world.replies| || world.replies[b].CallFailed?) {
      StopsAtEnd(world, n, b + 1);
    }
  }

  /** The loop stops behind the last batch exactly if every batch is answered. */
  lemma {:induction false} StopsIfAnswered(world: World, list: seq<Token>, start: nat)
    requires Fits(world, list)
    ensures BATCH_SIZE * StopBatch(world, |list|, start) >= |list| <==>
            Answered(world.replies, start, Batches(|list|))
  {
    StopBatchMeans(world, |list|, start);
    var e := StopBatch(world, |list|, start);
    if BATCH_SIZE * e >= |list| {
      forall b | start <= b < Batches(|list|)
        ensures b < |world.replies| && world.replies[b].Answer?
      {
        assert b < e;
      }
    } else {
      assert start <= e < Batches(|list|);
    }
  }

  lemma {:induction false} UnderwayAtStart(s: State, d: nat, world: World, list: seq<Token>, start: nat, sent0: nat,
                                           failed0: nat)
    requires Fits(world, list) && d < |s.disps| && Before(s, d, list, s.disps[d].seen, start, sent0, failed0)
    ensures Underway(s, [], s.row, s.devices, d, world, list, start, sent0, failed0, start, sent0, failed0, [])
  {
    StandsAtStart(s, d, world, list, start, sent0, failed0);
    DoneAtStart(s.row, s.devices, world, list, start, sent0, failed0);
  }

  /** The loop is through with its batches: it has come to its stop, and every batch was answered. */
  lemma {:induction false} UnderwayAtEnd(s: State, trace: seq<Step>, row: Row, devices: seq<Token>, d: nat,
                                         world: World, list: seq<Token>, start: nat, sent0: nat, failed0: nat, b: nat,
                                         sent: nat, failed: nat, sentTo: seq<Token>)
    requires Fits(world, list) && d < |s.disps| && BATCH_SIZE * b >= |list|
    requires Underway(s, trace, row, devices, d, world, list, start, sent0, failed0, b, sent, failed, sentTo)
    ensures b == StopBatch(world, |list|, start) && Answered(world.replies, start, Batches(|list|))
  {
    StopsIfAnswered(world, list, start);
  }

  lemma {:induction false} StoppedUnanswered(s: State, trace: seq<Step>, row: Row, devices: seq<Token>, d: nat,
                                             world: World, list: seq<Token>, start: nat, sent0: nat, failed0: nat,
                                             sentTo: seq<Token>)
    requires Fits(world, list)
    requires Stopped(s, trace, row, devices, d, world, list, start, sent0, failed0, sentTo)
    ensures !Answered(world.replies, start, Batches(|list|))
  {
    StopsIfAnswered(world, list, start);
  }

  /** The loop over the batches from `start` on, up to the last or to the first that is not answered. */
  method BatchLoop(store: Store, world: World, list: seq<Token>, start: nat, sent0: nat, failed0: nat,
                   ghost s: State, ghost d: nat)
    returns (ok: bool, b: nat, sent: nat, failed: nat, sentTo: seq<Token>, ghost trace: seq<Step>)
    requires d < |s.disps|
    requires Underway(s, [], store.row, store.devices, d, world, list, start, sent0, failed0, start, sent0, failed0, [])
    modifies store
    ensures ok ==>
      BATCH_SIZE * b >= |list| &&
      Underway(s, trace, store.row, store.devices, d, world, list, start, sent0, failed0, b, sent, failed, sentTo)
    ensures !ok ==> Stopped(s, trace, store.row, store.devices, d, world, list, start, sent0, failed0, sentTo)
  {
    b, sent, failed, sentTo, trace := start, sent0, failed0, [], [];
    while BATCH_SIZE * b < |list|
      invariant Underway(s, trace, store.row, store.devices, d, world, list, start, sent0, failed0, b, sent, failed,
                         sentTo)
      decreases |list| - BATCH_SIZE * b
    {
      ok, sent, failed, sentTo, trace :=
        SendBatch(store, world, list, start, sent0, failed0, b, sent, failed, sentTo, s, trace, d);
      if !ok {
        return;
      }
      b := b + 1;
    }
    ok := true;
  }

  /** The batches from `start` on: it stops at the first that is not answered, if there is one. */
  method SendBatches(store: Store, world: World, list: seq<Token>, start: nat, sent0: nat, failed0: nat,
                     ghost s: State, ghost d: nat)
    returns (ok: bool, sent: nat, failed: nat, sentTo: seq<Token>, ghost trace: seq<Step>)
    requires Fits(world, list) && s.row == store.row && s.devices == store.devices
    requires d < |s.disps| && Before(s, d, list, s.disps[d].seen, start, sent0, failed0)
    modifies store
    ensures ok <==> Answered(world.replies, start, Batches(|list|))
    ensures ok ==>
      Underway(s, trace, store.row, store.devices, d, world, list, start, sent0, failed0,
               StopBatch(world, |list|, start), sent, failed, sentTo)
    ensures !ok ==>
      Stopped(s, trace, store.row, store.devices, d, world, list, start, sent0, failed0, sentTo)
  {
    UnderwayAtStart(s, d, world, list, start, sent0, failed0);
    var b;
    ok, b, sent, failed, sentTo, trace := BatchLoop(store, world, list, start, sent0, failed0, s, d);
    if ok {
      UnderwayAtEnd(s, trace, store.row, store.devices, d, world, list, start, sent0, failed0, b, sent, failed, sentTo);
    } else {
      StoppedUnanswered(s, trace, store.row, store.devices, d, world, list, start, sent0, failed0, sentTo);
    }
  }

  /** Every batch is answered, and not all sends ever made failed. */
  predicate Delivers(world: World, n: Row, list: seq<Token>)
    requires Fits(world, list)
  {
    && Answered(world.replies, StartBatch(n), Batches(|list|))
    && !(FinalSent(world, n, list) == 0 && n.sent + n.failed + (|list| - Upto(StartBatch(n), |list|)) > 0)
  }

  /** A dispatch of row n over this list succeeds. */
  predicate Succeeds(world: World, n: Row, list: seq<Token>)
    requires Fits(world, list)
  {
    world.resolves && world.markSent.Stored? && (list == [] || Delivers(world, n, list))
  }

  /** The sent count with which a dispatch of row n over this list ends. */
  function FinalSent(world: World, n: Row, list: seq<Token>): nat
    requires Fits(world, list)
  {
    var start := StartBatch(n);
    if start < Batches(|list|) then n.sent + SuccessesIn(world, start, Batches(|list|)) else n.sent
  }

  /** The row after a dispatch of row n over this list. */
  ghost predicate RowAfter(row0: Row, row: Row, world: World, n: Row, list: seq<Token>)
    requires Fits(world, list)
  {
    var start := StartBatch(n);
    var e := StopBatch(world, |list|, start);
    var last := LastSaved(world, start, e);
    if !world.resolves then row == row0
    else if list == [] then row == if world.markSent.NotStored? then row0 else Row(Sent, 0, 0, row0.last)
    else if Delivers(world, n, list) && !world.markSent.NotStored? then
      && row.status.Sent? && row.sent == FinalSent(world, n, list)
      && row.sent + row.failed == n.sent + n.failed + (|list| - Upto(start, |list|))
      && row.last == if last.Some? then last else row0.last
    else Progress(row0, row, world, list, start, e, n.sent, n.failed)
  }

  /**
   * Whom a dispatch from batch start on sends to, and which devices it leaves: it stops at the first batch that is
   * not answered, and drops exactly the tokens reported as unregistered on the way whose delete succeeds.
   */
  ghost predicate Effect(devices0: seq<Token>, devices: seq<Token>, sentTo: seq<Token>, world: World, start: nat) {
    var e := StopBatch(world, |devices0|, start);
    if !world.resolves then devices == devices0 && sentTo == []
    else
      && sentTo == devices0[Upto(start, |devices0|)..Upto(e, |devices0|)]
      && devices == Keep(devices0, DeadIn(world, devices0, start, e))
  }

  lemma {:induction false} NoEffect(world: World, start: nat)
    ensures Effect([], [], [], world, start)
  {
  }

  /** Marks the row sent with the counts of dispatcher d, which is through with its list. */
  method Close(store: Store, sent: nat, failed: nat, write: Write, ghost s: State, ghost trace0: seq<Step>,
               ghost sentTo: seq<Token>, ghost d: nat)
    returns (ok: bool, ghost trace: seq<Step>)
    requires Leads(s, trace0, store.row, store.devices, sentTo)
    requires Enabled(Run(s, trace0), MarkSent(d, true, true))
    requires Run(s, trace0).disps[d].sent == sent && Run(s, trace0).disps[d].failed == failed
    modifies store`row
    ensures Leads(s, trace, store.row, store.devices, sentTo)
    ensures ok == write.Stored? && In(Run(s, trace), d, if ok then Gone else Failing)
    ensures store.row ==
            if write.NotStored? then old(store.row) else Row(Sent, sent, failed, old(store.row).last)
  {
    ghost var row := store.row;
    ok := store.MarkSent(sent, failed, write);
    LeadsBy(s, trace0, row, store.devices, sentTo, MarkSent(d, !write.NotStored?, ok));
    trace := trace0 + [MarkSent(d, !write.NotStored?, ok)];
  }

  /** What a dispatch of row n does to a database and whom it sends to, and when it succeeds. */
  ghost predicate Dispatched(row0: Row, devices0: seq<Token>, row: Row, devices: seq<Token>, sentTo: seq<Token>,
                             world: World, n: Row, ok: bool)
    requires Fits(world, devices0)
  {
    && Effect(devices0, devices, sentTo, world, StartBatch(n))
    && RowAfter(row0, row, world, n, devices0)
    && (ok <==> Succeeds(world, n, devices0))
    && (ok ==> sentTo == devices0[Upto(StartBatch(n), |devices0|)..])
  }

  /** A loop that stops at a batch without an answer. */
  lemma {:induction false} StopIsDispatched(s: State, trace: seq<Step>, row: Row, devices: seq<Token>, d: nat,
                                            world: World, n: Row, sentTo: seq<Token>)
    requires Fits(world, s.devices) && s.devices != [] && world.resolves
    requires !Answered(world.replies, StartBatch(n), Batches(|s.devices|))
    requires Stopped(s, trace, row, devices, d, world, s.devices, StartBatch(n), n.sent, n.failed, sentTo)
    ensures Dispatched(s.row, s.devices, row, devices, sentTo, world, n, false)
  {
  }

  /** The row that closing leaves. */
  function Closed(row: Row, sent: nat, failed: nat, write: Write): Row {
    if write.NotStored? then row else Row(Sent, sent, failed, row.last)
  }

  /** A loop that comes to its end, with every send ever made failed or with the row closed. */
  lemma {:induction false} EndIsDispatched(s: State, trace: seq<Step>, row: Row, devices: seq<Token>, d: nat,
                                           world: World, n: Row, sent: nat, failed: nat, sentTo: seq<Token>)
    requires Fits(world, s.devices) && s.devices != [] && world.resolves && d < |s.disps|
    requires Answered(world.replies, StartBatch(n), Batches(|s.devices|))
    requires Underway(s, trace, row, devices, d, world, s.devices, StartBatch(n), n.sent, n.failed,
                      StopBatch(world, |s.devices|, StartBatch(n)), sent, failed, sentTo)
    ensures Enabled(Run(s, trace), if sent == 0 && failed > 0 then Err(d) else MarkSent(d, true, true))
    ensures Dispatched(s.row, s.devices,
                       if sent == 0 && failed > 0 then row else Closed(row, sent, failed, world.markSent),
                       devices, sentTo, world, n, !(sent == 0 && failed > 0) && world.markSent.Stored?)
  {
    var start := StartBatch(n);
    StopsIfAnswered(world, s.devices, start);
    StopsAtEnd(world, |s.devices|, start);
    StandsAtEnd(s, trace, row, devices, d, world, s.devices, start, n.sent, n.failed, EndBatch(|s.devices|, start),
                sent, failed, sentTo);
  }

  /** The dispatch to a resolved list: the loop, then the closing of the row unless every send failed. */
  method SendToAll(store: Store, n: Row, world: World, list: seq<Token>, ghost s: State, ghost d: nat)
    returns (ok: bool, sentTo: seq<Token>, ghost trace: seq<Step>)
    requires s.row == store.row && s.devices == store.devices == list && Fits(world, list)
    requires list != [] && world.resolves
    requires d < |s.disps| && Before(s, d, list, s.disps[d].seen, StartBatch(n), n.sent, n.failed)
    modifies store
    ensures Leads(s, trace, store.row, store.devices, sentTo)
    ensures In(Run(s, trace), d, if ok then Gone else Failing)
    ensures Dispatched(s.row, list, store.row, store.devices, sentTo, world, n, ok)
  {
    var start := StartBatch(n);
    var sent, failed;
    ok, sent, failed, sentTo, trace := SendBatches(store, world, list, start, n.sent, n.failed, s, d);
    if !ok {
      StopIsDispatched(s, trace, store.row, store.devices, d, world, n, sentTo);
      return;
    }
    ghost var row := store.row;
    EndIsDispatched(s, trace, row, store.devices, d, world, n, sent, failed, sentTo);
    if sent == 0 && failed > 0 {
      LeadsBy(s, trace, row, store.devices, sentTo, Err(d));
      return false, sentTo, trace + [Err(d)];
    }
    ok, trace := Close(store, sent, failed, world.markSent, s, trace, sentTo, d);
  }

  /** A dispatch that sends everything from entry m on leaves out exactly those before it that nobody sent to. */
  lemma {:induction false} UnsentAfter(list: seq<Token>, m: nat, reached: set<Token>)
    ensures var rest := Elements(list[if m < |list| then m else |list|..]);
      && Elements(list) - (reached + rest) == Skipped(list, m, reached) - rest
      && (Distinct(list) ==> (Elements(list) <= reached + rest <==> Skipped(list, m, reached) == {}))
  {
    var c := if m < |list| then m else |list|;
    var rest := Elements(list[c..]);
    assert list == list[..c] + list[c..];
    TokensAppend(list[..c], list[c..]);
    if Distinct(list) {
      forall t | t in Skipped(list, m, reached)
        ensures t !in rest
      {
      }
    }
    assert forall t :: t in Elements(list) && t !in reached + rest ==> t in Skipped(list, m, reached);
  }

  /** Reads the recipients and sends to them; an empty list is closed at once. */
  method Dispatch(store: Store, n: Row, world: World, ghost s: State, ghost d: nat)
    returns (ok: bool, sentTo: seq<Token>, ghost trace: seq<Step>)
    requires s.row == store.row && s.devices == store.devices && Fits(world, store.devices)
    requires d < |s.disps| && s.disps[d] == Dispatcher(Claimed, StartBatch(n), n.sent, n.failed, [], 0)
    modifies store
    ensures Leads(s, trace, store.row, store.devices, sentTo) && In(Run(s, trace), d, if ok then Gone else Failing)
    ensures Dispatched(s.row, s.devices, store.row, store.devices, sentTo, world, n, ok)
  {
    trace, sentTo := [], [];
    assert Leads(s, trace, store.row, store.devices, []) by {
      assert Elements([]) == {};
    }
    if !world.resolves {
      LeadsBy(s, trace, store.row, store.devices, [], Err(d));
      return false, sentTo, trace + [Err(d)];
    }
    var recipients := store.devices;
    LeadsBy(s, trace, store.row, store.devices, [], Resolve(d));
    trace := trace + [Resolve(d)];
    if |recipients| == 0 {
      NoEffect(world, StartBatch(n));
      ok, trace := Close(store, 0, 0, world.markSent, s, trace, [], d);
      return;
    }
    ghost var more;
    ok, sentTo, more := SendToAll(store, n, world, recipients, Run(s, trace), d);
    LeadsOn(s, trace, old(store.row), old(store.devices), [], more, store.row, store.devices, sentTo);
    assert [] + sentTo == sentTo;
    trace := trace + more;
  }

  lemma {:induction false} SucceedsMeans(row0: Row, row: Row, world: World, n: Row, list: seq<Token>)
    requires Fits(world, list) && Succeeds(world, n, list) && RowAfter(row0, row, world, n, list)
    ensures row.status.Sent?
    ensures if list == [] then row.sent == row.failed == 0
            else row.sent == FinalSent(world, n, list) &&
                 row.sent + row.failed == n.sent + n.failed + (|list| - Upto(StartBatch(n), |list|))
  {
  }

  /**
   * The dispatch of a claimed row n by dispatcher d of s. What it does to the database is a run of the state
   * machine; if it succeeds it has sent exactly the recipients from its start batch on, in order, each once, and
   * has left out exactly those before it that nobody sent to.
   */
  method SendMulticast(store: Store, n: Row, world: World, ghost s: State, ghost d: nat)
    returns (ok: bool, sentTo: seq<Token>, ghost trace: seq<Step>)
    requires s.row == store.row && s.devices == store.devices && Fits(world, store.devices)
    requires d < |s.disps| && s.disps[d] == Dispatcher(Claimed, StartBatch(n), n.sent, n.failed, [], 0)
    modifies store
    ensures Leads(s, trace, store.row, store.devices, sentTo)
    ensures In(Run(s, trace), d, if ok then Gone else Failing)
    ensures Effect(old(store.devices), store.devices, sentTo, world, StartBatch(n))
    ensures RowAfter(old(store.row), store.row, world, n, old(store.devices))
    ensures ok <==> Succeeds(world, n, old(store.devices))
    ensures ok ==>
      && store.row.status.Sent?
      && sentTo == old(store.devices)[Upto(StartBatch(n), |old(store.devices)|)..]
      && if old(store.devices) == [] then store.row.sent == store.row.failed == 0
         else store.row.sent == FinalSent(world, n, old(store.devices)) &&
              store.row.sent + store.row.failed == n.sent + n.failed + |sentTo|
    ensures ok ==>
      Elements(old(store.devices)) - Run(s, trace).reached ==
      Skipped(old(store.devices), BATCH_SIZE * StartBatch(n), s.reached) - Elements(sentTo)
    ensures ok && Distinct(old(store.devices)) ==>
      (Elements(old(store.devices)) <= Run(s, trace).reached <==>
       Skipped(old(store.devices), BATCH_SIZE * StartBatch(n), s.reached) == {})
  {
    UnsentAfter(store.devices, BATCH_SIZE * StartBatch(n), s.reached);
    ok, sentTo, trace := Dispatch(store, n, world, s, d);
    if ok {
      SucceedsMeans(old(store.row), store.row, world, n, old(store.devices));
    }
  }

  /** One poll of the worker: claim, dispatch and, if that fails, mark the row failed. */
  method Tick(store: Store, world: World, now: int, ghost s: State)
    returns (sentTo: seq<Token>, ghost trace: seq<Step>)
    requires s.row == store.row && s.devices == store.devices && Fits(world, store.devices)
    modifies store
    ensures Leads(s, trace, store.row, store.devices, sentTo)
    ensures old(store.row).status.Pending? && Due(store.scheduledAt, now) ==>
      var row0, list := old(store.row).(status := Sending), old(store.devices);
      && Effect(list, store.devices, sentTo, world, StartBatch(row0))
      && (exists row :: RowAfter(row0, row, world, row0, list) &&
            store.row == if Succeeds(world, row0, list) || world.markFailed.NotStored? then row
                         else row.(status := Failed))
      && (Succeeds(world, row0, list) ==>
            store.row.status.Sent? && sentTo == list[Upto(StartBatch(row0), |list|)..])
    ensures !(old(store.row).status.Pending? && Due(store.scheduledAt, now)) ==>
      trace == [] && sentTo == [] && store.row == old(store.row) && store.devices == old(store.devices)
  {
    trace, sentTo := [], [];
    var n := store.ClaimPending(now);
    if n.None? {
      return;
    }
    RunExtends(s, trace, Claim);
    trace := trace + [Claim];
    assert Leads(s, trace, store.row, store.devices, []);
    var ok;
    ghost var row, devices := store.row, store.devices;
    ghost var more;
    ok, sentTo, more := SendMulticast(store, n.value, world, Run(s, trace), |s.disps|);
    LeadsOn(s, trace, row, devices, [], more, store.row, store.devices, sentTo);
    assert [] + sentTo == sentTo;
    trace := trace + more;
    assert RowAfter(row, store.row, world, n.value, devices);
    if !ok {
      store.MarkFailed(world.markFailed);
      RunExtends(s, trace, MarkFailed(|s.disps|, !world.markFailed.NotStored?));
      trace := trace + [MarkFailed(|s.disps|, !world.markFailed.NotStored?)];
    }
  }
}

/**
 * The PDF asset of one lesson and its pages (lessons/pdf_processor_usecase.go): processing, retrying, regenerating
 * and cleaning up, one operation at a time, with any repository or storage call failing.
 */
module PdfAsset {
  import opened Collections
  import opened Wrappers
  import WorkerPool

  datatype Status = Pending | Processing | Done | Partial | Failed | PermanentlyFailed

  datatype Asset = Asset(status: Status, totalPages: Option<nat>)

  datatype Page = Page(number: nat, image: string)

  /**
   * What goes wrong while one page is saved: the lookup of the page, or decoding, uploading or inserting it;
   * StoreUnanswered is an insert that is applied although it comes back as an error.
   */
  datatype PageFault = NoFault | LookupFails | StoreFails | StoreUnanswered

  datatype State = State(asset: Option<Asset>, pages: seq<Page>)

  // ---------- Saving pages ----------

  predicate HasPage(pages: seq<Page>, number: nat) {
    exists k :: 0 <= k < |pages| && pages[k].number == number
  }

  predicate NoPageTwice(pages: seq<Page>) {
    forall j, k :: 0 <= j < k < |pages| ==> pages[j].number != pages[k].number
  }

  predicate HasAll(pages: seq<Page>, total: nat) {
    forall number: nat :: 1 <= number <= total ==> HasPage(pages, number)
  }

  /** Whether the save of page `number` is reported as a success. */
  predicate Succeeds(pages: seq<Page>, number: nat, fault: PageFault) {
    fault.NoFault? || (!fault.LookupFails? && HasPage(pages, number))
  }

  /** A save with this fault inserts a missing page. */
  predicate Inserts(fault: PageFault) {
    fault.NoFault? || fault.StoreUnanswered?
  }

  function SaveOne(pages: seq<Page>, number: nat, image: string, fault: PageFault): seq<Page> {
    if Inserts(fault) && !HasPage(pages, number) then pages + [Page(number, image)] else pages
  }

  /** order lists the jobs that the pool's workers save, as they come: each at most once. */
  predicate Schedule(order: seq<nat>, n: nat) {
    Distinct(order) && forall k :: 0 <= k < |order| ==> order[k] < n
  }

  function SaveAll(pages: seq<Page>, images: seq<string>, faults: seq<PageFault>, order: seq<nat>): seq<Page>
    requires |faults| == |images| && Schedule(order, |images|)
  {
    if order == [] then pages
    else
      var i := order[|order| - 1];
      SaveOne(SaveAll(pages, images, faults, order[..|order| - 1]), i + 1, images[i], faults[i])
  }

  /** How many of the scheduled saves succeed. */
  function Saves(pages: seq<Page>, faults: seq<PageFault>, order: seq<nat>): nat
    requires Schedule(order, |faults|)
  {
    if order == [] then 0
    else
      var i := order[|order| - 1];
      Saves(pages, faults, order[..|order| - 1]) + if Succeeds(pages, i + 1, faults[i]) then 1 else 0
  }

  /** The schedule without the jobs whose results a cancelled pool drops after it has saved them. */
  function Reported(order: seq<nat>, lost: set<nat>): seq<nat> {
    if order == [] then []
    else
      var i := order[|order| - 1];
      Reported(order[..|order| - 1], lost) + if i in lost then [] else [i]
  }

  lemma {:induction false} ReportedMember(order: seq<nat>, lost: set<nat>, k: nat)
    requires k < |Reported(order, lost)|
    ensures Reported(order, lost)[k] in order
  {
    var last := |order| - 1;
    if k < |Reported(order[..last], lost)| {
      ReportedMember(order[..last], lost, k);
    }
  }

  lemma {:induction false} ReportedDistinct(order: seq<nat>, lost: set<nat>)
    requires Distinct(order)
    ensures Distinct(Reported(order, lost))
  {
    if order != [] {
      var last := |order| - 1;
      ReportedDistinct(order[..last], lost);
      if order[last] in lost {
        assert Reported(order, lost) == Reported(order[..last], lost);
      } else {
        var rest := Reported(order[..last], lost);
        forall k | 0 <= k < |rest|
          ensures rest[k] != order[last]
        {
          ReportedMember(order[..last], lost, k);
        }
        DistinctAppend(rest, order[last]);
      }
    }
  }

  lemma {:induction false} ReportedDiffer(order: seq<nat>, lost: set<nat>, n: nat)
    requires Schedule(order, n)
    ensures Schedule(Reported(order, lost), n)
  {
    ReportedDistinct(order, lost);
    var reported := Reported(order, lost);
    forall k | 0 <= k < |reported|
      ensures reported[k] < n
    {
      ReportedMember(order, lost, k);
    }
  }

  /** How many successful saves are counted. */
  function Counted(pages: seq<Page>, faults: seq<PageFault>, order: seq<nat>, lost: set<nat>): nat
    requires Schedule(order, |faults|)
  {
    ReportedDiffer(order, lost, |faults|);
    Saves(pages, faults, Reported(order, lost))
  }

  /** The page is new, belongs to a scheduled job and holds its image. */
  predicate FreshPage(p: Page, pages: seq<Page>, images: seq<string>, order: seq<nat>) {
    && 1 <= p.number <= |images| && p.number - 1 in order
    && p.image == images[p.number - 1] && !HasPage(pages, p.number)
  }

  /** Saving only ever appends missing pages, each once and with its own image. */
  lemma {:induction false} SaveAllAppends(pages: seq<Page>, images: seq<string>, faults: seq<PageFault>,
                                          order: seq<nat>)
    requires |faults| == |images| && Schedule(order, |images|)
    ensures var after := SaveAll(pages, images, faults, order);
      Extends(after, pages, images, order)
      && (NoPageTwice(pages) ==> NoPageTwice(after))
  {
    if order != [] {
      var n := |order| - 1;
      SaveAllAppends(pages, images, faults, order[..n]);
      assert order == order[..n] + [order[n]];
      SaveOneAppends(pages, SaveAll(pages, images, faults, order[..n]), images, faults, order);
    }
  }

  /** `after` is `pages` followed by fresh pages. */
  predicate Extends(after: seq<Page>, pages: seq<Page>, images: seq<string>, order: seq<nat>) {
    pages <= after && forall k :: |pages| <= k < |after| ==> FreshPage(after[k], pages, images, order)
  }

  lemma {:induction false} SaveOneAppends(pages: seq<Page>, before: seq<Page>, images: seq<string>,
                                          faults: seq<PageFault>,
                                          order: seq<nat>)
    requires |faults| == |images| && Schedule(order, |images|) && order != []
    requires Extends(before, pages, images, order[..|order| - 1])
    ensures var i := order[|order| - 1];
      Extends(SaveOne(before, i + 1, images[i], faults[i]), pages, images, order)
  {
  }

  lemma {:induction false} PrefixHasPage(pages: seq<Page>, more: seq<Page>, number: nat)
    requires pages <= more
    ensures HasPage(pages, number) ==> HasPage(more, number)
  {
  }

  /** After saving, a page is there exactly if it was there or its save was scheduled and the insert applied. */
  lemma {:induction false} SavedPages(pages: seq<Page>, images: seq<string>, faults: seq<PageFault>, order: seq<nat>,
                                      i: nat)
    requires |faults| == |images| && Schedule(order, |images|) && i < |images|
    ensures HasPage(SaveAll(pages, images, faults, order), i + 1) <==>
            HasPage(pages, i + 1) || (i in order && Inserts(faults[i]))
  {
    if order != [] {
      var n := |order| - 1;
      SavedPages(pages, images, faults, order[..n], i);
      var before := SaveAll(pages, images, faults, order[..n]);
      var after := SaveAll(pages, images, faults, order);
      assert order == order[..n] + [order[n]];
      PrefixHasPage(before, after, i + 1);
      if after != before {
        assert after[|before|].number == order[n] + 1;
        if HasPage(after, i + 1) && order[n] != i {
          var k :| 0 <= k < |after| && after[k].number == i + 1;
          assert before[k].number == i + 1;
        }
      }
    }
  }

  lemma {:induction false} CountNext(pages: seq<Page>, faults: seq<PageFault>, order: seq<nat>, lost: set<nat>, k: nat)
    requires Schedule(order, |faults|) && k < |order|
    ensures Counted(pages, faults, order[..k+1], lost) ==
            Counted(pages, faults, order[..k], lost) +
            if order[k] !in lost && Succeeds(pages, order[k] + 1, faults[order[k]]) then 1 else 0
  {
    assert order[..k+1][..k] == order[..k];
    ReportedDiffer(order[..k+1], lost, |faults|);
    var done := Reported(order[..k], lost);
    if order[k] in lost {
      assert Reported(order[..k+1], lost) == done;
    } else {
      assert Reported(order[..k+1], lost) == done + [order[k]];
      assert (done + [order[k]])[..|done|] == done;
    }
  }

  /** The k-th scheduled save, after the first k. */
  lemma {:induction false} SaveNext(pages: seq<Page>, images: seq<string>, faults: seq<PageFault>, order: seq<nat>,
                                    k: nat)
    requires |faults| == |images| && Schedule(order, |images|) && k < |order|
    ensures var before, i := SaveAll(pages, images, faults, order[..k]), order[k];
      && SaveAll(pages, images, faults, order[..k+1]) == SaveOne(before, i + 1, images[i], faults[i])
      && (Succeeds(before, i + 1, faults[i]) <==> Succeeds(pages, i + 1, faults[i]))
  {
    assert order[..k+1][..k] == order[..k];
    SavedPages(pages, images, faults, order[..k], order[k]);
  }

  // ---------- What is counted ----------

  /** The outcomes that the pool's jobs report. */
  function Outcomes(pages: seq<Page>, faults: seq<PageFault>): (o: seq<bool>)
    ensures |o| == |faults|
    ensures forall i :: 0 <= i < |faults| ==> o[i] == Succeeds(pages, i + 1, faults[i])
  {
    seq(|faults|, i requires 0 <= i < |faults| => Succeeds(pages, i + 1, faults[i]))
  }

  /** The results that the pool collects for a schedule. */
  function Results(pages: seq<Page>, faults: seq<PageFault>, order: seq<nat>): (r: seq<WorkerPool.Result>)
    requires Schedule(order, |faults|)
    ensures |r| == |order|
    ensures forall k :: 0 <= k < |order| ==>
      r[k] == WorkerPool.Result(order[k], Succeeds(pages, order[k] + 1, faults[order[k]]))
  {
    seq(|order|, k requires 0 <= k < |order| =>
      WorkerPool.Result(order[k], Succeeds(pages, order[k] + 1, faults[order[k]])))
  }

  lemma {:induction false} SavesAreSuccesses(pages: seq<Page>, faults: seq<PageFault>, order: seq<nat>)
    requires Schedule(order, |faults|)
    ensures Saves(pages, faults, order) == WorkerPool.Successes(Results(pages, faults, order))
  {
    if order != [] {
      var n := |order| - 1;
      SavesAreSuccesses(pages, faults, order[..n]);
      assert Results(pages, faults, order)[..n] == Results(pages, faults, order[..n]);
    }
  }

  lemma {:induction false} SavesAtMost(pages: seq<Page>, faults: seq<PageFault>, order: seq<nat>)
    requires Schedule(order, |faults|)
    ensures Saves(pages, faults, order) <= |order|
    ensures Saves(pages, faults, order) == |order| ==>
      forall k :: 0 <= k < |order| ==> Succeeds(pages, order[k] + 1, faults[order[k]])
  {
    if order != [] {
      SavesAtMost(pages, faults, order[..|order| - 1]);
    }
  }

  lemma {:induction false} ScheduleSize(order: seq<nat>, n: nat)
    requires Schedule(order, n)
    ensures |Elements(order)| == |order| && Elements(order) <= Below(n) && |order| <= n
  {
    ElementsSize(order);
    SubsetSize(Elements(order), Below(n));
  }

  lemma {:induction false} FullSchedule(order: seq<nat>, n: nat, i: nat)
    requires Schedule(order, n) && |order| == n && i < n
    ensures i in order
  {
    ScheduleSize(order, n);
    SubsetSize(Elements(order), Below(n));
    assert i in Elements(order);
  }

  lemma {:induction false} CountedAtMost(pages: seq<Page>, faults: seq<PageFault>, order: seq<nat>, lost: set<nat>)
    requires Schedule(order, |faults|)
    ensures Counted(pages, faults, order, lost) <= |faults|
  {
    ReportedDiffer(order, lost, |faults|);
    SavesAtMost(pages, faults, Reported(order, lost));
    ScheduleSize(Reported(order, lost), |faults|);
  }

  /** If as many saves are counted as there are images, every page is there. */
  lemma {:induction false} AllSaved(pages: seq<Page>, images: seq<string>, faults: seq<PageFault>, order: seq<nat>,
                                    lost: set<nat>)
    requires |faults| == |images| && Schedule(order, |images|) && Counted(pages, faults, order, lost) == |images|
    ensures HasAll(SaveAll(pages, images, faults, order), |images|)
  {
    var reported := Reported(order, lost);
    ReportedDiffer(order, lost, |images|);
    SavesAtMost(pages, faults, reported);
    ScheduleSize(reported, |images|);
    forall number: nat | 1 <= number <= |images|
      ensures HasPage(SaveAll(pages, images, faults, order), number)
    {
      var i := number - 1;
      FullSchedule(reported, |images|, i);
      var k :| 0 <= k < |reported| && reported[k] == i;
      ReportedMember(order, lost, k);
      SavedPages(pages, images, faults, order, i);
    }
  }

  /** An uncancelled pool counts the same in whatever order its workers save: one per outcome that is a success. */
  lemma {:induction false} CountIsPools(pages: seq<Page>, faults: seq<PageFault>, order: seq<nat>)
    requires Schedule(order, |faults|) && |order| == |faults|
    ensures Saves(pages, faults, order) == WorkerPool.CountTrue(Outcomes(pages, faults))
  {
    var results := Results(pages, faults, order);
    SavesAreSuccesses(pages, faults, order);
    assert WorkerPool.Jobs(results) == order;
    forall j: nat
      ensures WorkerPool.Count(order, j) == WorkerPool.One(j < |faults|)
    {
      CountOnce(order, j);
      if j < |faults| {
        FullSchedule(order, |faults|, j);
      }
    }
    WorkerPool.SuccessesOfAll(results, Outcomes(pages, faults));
  }

  /** What any uncancelled run of the pool reports and stores is what saving in any order does. */
  lemma {:induction false} PoolAgrees(pages: seq<Page>, images: seq<string>, faults: seq<PageFault>, order: seq<nat>,
                                      workers: nat, steps: seq<WorkerPool.Step>, i: nat)
    requires |faults| == |images| == |order| && Schedule(order, |images|) && workers > 0 && i < |images|
    requires WorkerPool.ValidRun(WorkerPool.Start(Outcomes(pages, faults), workers), steps)
    requires var s := WorkerPool.Run(WorkerPool.Start(Outcomes(pages, faults), workers), steps); s.done && !s.cancelled
    ensures var s := WorkerPool.Run(WorkerPool.Start(Outcomes(pages, faults), workers), steps);
      && s.processed == Saves(pages, faults, order)
      && i in s.tried && (i in WorkerPool.SavedJobs(s) <==> Succeeds(pages, i + 1, faults[i]))
      && (HasPage(SaveAll(pages, images, faults, order), i + 1) <==>
            HasPage(pages, i + 1) || i in WorkerPool.SavedJobs(s) || faults[i].StoreUnanswered?)
  {
    WorkerPool.UncancelledRunsAgree(Outcomes(pages, faults), workers, steps);
    CountIsPools(pages, faults, order);
    SavedPages(pages, images, faults, order, i);
    FullSchedule(order, |images|, i);
  }

  /** Page i + 1 is stored afterwards exactly if it was before, or the pool has carried out its save and inserted it. */
  predicate StoresPage(pages: seq<Page>, after: seq<Page>, faults: seq<PageFault>, tried: set<nat>, i: nat)
    requires i < |faults|
  {
    HasPage(after, i + 1) <==> HasPage(pages, i + 1) || (i in tried && Inserts(faults[i]))
  }

  predicate Stores(pages: seq<Page>, after: seq<Page>, faults: seq<PageFault>, tried: set<nat>) {
    forall i: nat :: i < |faults| ==> StoresPage(pages, after, faults, tried, i)
  }

  /** What a pool over these pages may have collected and carried out. */
  ghost predicate Plausible(pages: seq<Page>, faults: seq<PageFault>, collected: seq<WorkerPool.Result>,
                            tried: set<nat>) {
    && WorkerPool.DifferentJobs(collected) && WorkerPool.Reports(collected, Outcomes(pages, faults))
    && (forall k :: 0 <= k < |collected| ==> collected[k].job in tried)
    && (forall j :: j in tried ==> j < |faults|)
  }

  /** The jobs collected, and then those that were carried out but lost. */
  lemma {:induction false} OrderOf(pages: seq<Page>, faults: seq<PageFault>, collected: seq<WorkerPool.Result>,
                                   tried: set<nat>)
    returns (more: seq<nat>, lost: set<nat>)
    requires Plausible(pages, faults, collected, tried)
    ensures Schedule(WorkerPool.Jobs(collected) + more, |faults|) && Schedule(WorkerPool.Jobs(collected), |faults|)
    ensures forall x: nat :: x in more <==> x in tried && x !in WorkerPool.Jobs(collected)
    ensures Reported(WorkerPool.Jobs(collected) + more, lost) == WorkerPool.Jobs(collected)
  {
    var jobs := WorkerPool.Jobs(collected);
    lost := tried - Elements(jobs);
    more := Listed(lost);
    JobsThenLost(jobs, more, |faults|);
    assert forall k :: 0 <= k < |more| ==> more[k] in more;
    assert forall k :: 0 <= k < |jobs| ==> jobs[k] in Elements(jobs);
    ReportedJobs(jobs, more, lost);
  }

  lemma {:induction false} CountsCollected(pages: seq<Page>, faults: seq<PageFault>, collected: seq<WorkerPool.Result>,
                                           tried: set<nat>, order: seq<nat>, lost: set<nat>)
    requires Plausible(pages, faults, collected, tried) && Schedule(order, |faults|)
    requires Schedule(WorkerPool.Jobs(collected), |faults|) && Reported(order, lost) == WorkerPool.Jobs(collected)
    ensures Counted(pages, faults, order, lost) == WorkerPool.Successes(collected)
  {
    var jobs := WorkerPool.Jobs(collected);
    var results := Results(pages, faults, jobs);
    forall k | 0 <= k < |collected|
      ensures results[k] == collected[k]
    {
      assert results[k] == WorkerPool.Result(jobs[k], Succeeds(pages, jobs[k] + 1, faults[jobs[k]]));
      assert collected[k].success == Outcomes(pages, faults)[collected[k].job];
    }
    assert results == collected;
    SavesAreSuccesses(pages, faults, jobs);
    ReportedDiffer(order, lost, |faults|);
  }

  lemma {:induction false} StoresTried(pages: seq<Page>, images: seq<string>, faults: seq<PageFault>,
                                       collected: seq<WorkerPool.Result>, tried: set<nat>, more: seq<nat>)
    requires Plausible(pages, faults, collected, tried) && |images| == |faults|
    requires Schedule(WorkerPool.Jobs(collected) + more, |faults|)
    requires forall x: nat :: x in more <==> x in tried && x !in WorkerPool.Jobs(collected)
    ensures Stores(pages, SaveAll(pages, images, faults, WorkerPool.Jobs(collected) + more), faults, tried)
  {
    var order := WorkerPool.Jobs(collected) + more;
    forall i: nat | i < |images|
      ensures StoresPage(pages, SaveAll(pages, images, faults, order), faults, tried, i)
    {
      SavedPages(pages, images, faults, order, i);
      TriedInOrder(collected, tried, more, i);
    }
  }

  /**
   * Every run of the pool, cancelled or not, counts and stores what saving in some order does, with the results of
   * some jobs dropped.
   */
  lemma {:induction false} PoolIsSchedule(pages: seq<Page>, images: seq<string>, faults: seq<PageFault>, workers: nat,
                                          steps: seq<WorkerPool.Step>)
    returns (order: seq<nat>, lost: set<nat>)
    requires |faults| == |images| && workers > 0
    requires WorkerPool.ValidRun(WorkerPool.Start(Outcomes(pages, faults), workers), steps)
    ensures Schedule(order, |images|)
    ensures var s := WorkerPool.Run(WorkerPool.Start(Outcomes(pages, faults), workers), steps);
      && s.processed == Counted(pages, faults, order, lost)
      && Stores(pages, SaveAll(pages, images, faults, order), faults, s.tried)
  {
    WorkerPool.CollectedAtMostOnce(Outcomes(pages, faults), workers, steps);
    var s := WorkerPool.Run(WorkerPool.Start(Outcomes(pages, faults), workers), steps);
    var more;
    more, lost := OrderOf(pages, faults, s.collected, s.tried);
    order := WorkerPool.Jobs(s.collected) + more;
    CountsCollected(pages, faults, s.collected, s.tried, order, lost);
    StoresTried(pages, images, faults, s.collected, s.tried, more);
  }

  lemma {:induction false} JobsThenLost(jobs: seq<nat>, more: seq<nat>, n: nat)
    requires Schedule(jobs, n) && Distinct(more)
    requires forall x: nat :: x in more ==> x < n && x !in jobs
    ensures Schedule(jobs + more, n)
  {
    assert forall k :: 0 <= k < |more| ==> more[k] in more;
    assert forall k :: 0 <= k < |jobs| ==> jobs[k] in jobs;
  }

  lemma {:induction false} NoneLost(jobs: seq<nat>, lost: set<nat>)
    requires forall k :: 0 <= k < |jobs| ==> jobs[k] !in lost
    ensures Reported(jobs, lost) == jobs
  {
    if jobs != [] {
      var n := |jobs| - 1;
      NoneLost(jobs[..n], lost);
      assert jobs == jobs[..n] + [jobs[n]];
    }
  }

  /** Without the lost jobs only the others are left. */
  lemma {:induction false} ReportedJobs(jobs: seq<nat>, more: seq<nat>, lost: set<nat>)
    requires (forall k :: 0 <= k < |more| ==> more[k] in lost) && (forall k :: 0 <= k < |jobs| ==> jobs[k] !in lost)
    ensures Reported(jobs + more, lost) == jobs
  {
    if more == [] {
      assert jobs + more == jobs;
      NoneLost(jobs, lost);
    } else {
      var n := |more| - 1;
      assert (jobs + more)[..|jobs| + n] == jobs + more[..n];
      ReportedJobs(jobs, more[..n], lost);
    }
  }

  /** The jobs carried out are those collected and those lost. */
  lemma {:induction false} TriedInOrder(collected: seq<WorkerPool.Result>, tried: set<nat>, more: seq<nat>, i: nat)
    requires forall x: nat :: x in more <==> x in tried && x !in WorkerPool.Jobs(collected)
    requires forall k :: 0 <= k < |collected| ==> collected[k].job in tried
    ensures i in WorkerPool.Jobs(collected) + more <==> i in tried
  {
    var jobs := WorkerPool.Jobs(collected);
    assert forall k :: 0 <= k < |jobs| ==> jobs[k] in tried;
  }

  lemma {:induction false} CountOnce(order: seq<nat>, j: nat)
    requires Distinct(order)
    ensures WorkerPool.Count(order, j) == WorkerPool.One(j in order)
  {
    if order != [] {
      var n := |order| - 1;
      CountOnce(order[..n], j);
      assert order == order[..n] + [order[n]];
    }
  }

  // ---------- The operations ----------

  /**
   * What one processing of the lesson meets: None for images is a PDF that does not convert; lost are the jobs whose
   * results are dropped because the context is cancelled.
   */
  datatype Attempt = Attempt(
    lookupFails: bool, claimFails: bool,
    images: Option<seq<string>>, faults: seq<PageFault>, order: seq<nat>, lost: set<nat>,
    statusFails: bool)

  predicate Fits(t: Attempt) {
    t.images.Some? ==> |t.faults| == |t.images.value| && Schedule(t.order, |t.images.value|)
  }

  datatype Op =
    | Process(t: Attempt)
    | Regenerate(deleteFails: bool, statusFails: bool)
    | CleanupFailed(permanent: bool, deleteFails: bool, statusFails: bool)
    | CleanupPages(kept: set<nat>)

  predicate Allowed(op: Op) {
    op.Process? ==> Fits(op.t)
  }

  function WithStatus(s: State, status: Status, total: Option<nat>, fails: bool): State {
    if fails || s.asset.None? then s else s.(asset := Some(Asset(status, total)))
  }

  /** The asset as the processing claims it: a new one, or the old one with its page count. */
  function Claimed(s: State): State {
    s.(asset := Some(Asset(Processing, if s.asset.Some? then s.asset.value.totalPages else None)))
  }

  function AfterProcess(s: State, t: Attempt): State
    requires Fits(t)
  {
    if t.lookupFails || t.claimFails then s
    else if t.images.None? then WithStatus(Claimed(s), Failed, None, t.statusFails)
    else
      var n := |t.images.value|;
      var status := if Counted(s.pages, t.faults, t.order, t.lost) < n then Partial else Done;
      WithStatus(Claimed(s).(pages := SaveAll(s.pages, t.images.value, t.faults, t.order)), status,
                 Some(n), t.statusFails)
  }

  function AfterRegenerate(s: State, deleteFails: bool, statusFails: bool): State {
    if s.asset.Some? then
      WithStatus(s.(pages := if deleteFails then s.pages else []), Pending, None, statusFails)
    else if statusFails then s
    else s.(asset := Some(Asset(Pending, None)))
  }

  predicate Retryable(s: State) {
    s.asset.Some? && (s.asset.value.status.Failed? || s.asset.value.status.Partial?)
  }

  function Kept(pages: seq<Page>, kept: set<nat>): seq<Page> {
    if pages == [] then []
    else
      var p := pages[|pages| - 1];
      Kept(pages[..|pages| - 1], kept) + if p.number in kept then [p] else []
  }

  function Apply(s: State, op: Op): State
    requires Allowed(op)
  {
    match op
    case Process(t) => AfterProcess(s, t)
    case Regenerate(deleteFails, statusFails) => AfterRegenerate(s, deleteFails, statusFails)
    case CleanupFailed(permanent, deleteFails, statusFails) =>
      if !Retryable(s) || !permanent then s
      else WithStatus(s.(pages := if deleteFails then s.pages else []), PermanentlyFailed, None, statusFails)
    case CleanupPages(kept) => if Retryable(s) then s.(pages := Kept(s.pages, kept)) else s
  }

  // ---------- Done means that every page is stored ----------

  predicate DoneIsComplete(s: State) {
    s.asset.Some? && s.asset.value.status.Done? ==>
      s.asset.value.totalPages.Some? && HasAll(s.pages, s.asset.value.totalPages.value)
  }

  predicate Good(s: State) {
    DoneIsComplete(s) && NoPageTwice(s.pages)
  }

  lemma {:induction false} KeptAre(pages: seq<Page>, kept: set<nat>)
    ensures forall p :: p in Kept(pages, kept) <==> p in pages && p.number in kept
  {
    if pages != [] {
      var n := |pages| - 1;
      KeptAre(pages[..n], kept);
      assert pages == pages[..n] + [pages[n]];
    }
  }

  lemma {:induction false} KeptPages(pages: seq<Page>, kept: set<nat>)
    requires NoPageTwice(pages)
    ensures NoPageTwice(Kept(pages, kept))
  {
    if pages != [] {
      var n := |pages| - 1;
      KeptPages(pages[..n], kept);
      KeptAre(pages[..n], kept);
      var rest := Kept(pages[..n], kept);
      forall j | 0 <= j < |rest|
        ensures rest[j].number != pages[n].number
      {
        assert rest[j] in pages[..n];
      }
    }
  }

  /** A regeneration that throws the pages of a done asset away but cannot reset its status. */
  predicate LosesPages(s: State, op: Op) {
    && op.Regenerate? && !op.deleteFails && op.statusFails
    && s.asset.Some? && s.asset.value.status.Done? && s.asset.value.totalPages != Some(0)
  }

  /** Exactly one kind of failure breaks "done means complete"; every other operation keeps it, whatever fails. */
  lemma {:induction false} GoodStep(s: State, op: Op)
    requires Good(s) && Allowed(op)
    ensures NoPageTwice(Apply(s, op).pages)
    ensures Good(Apply(s, op)) <==> !LosesPages(s, op)
  {
    var t := Apply(s, op);
    match op {
      case Process(a) =>
        if a.images.Some? {
          SaveAllAppends(s.pages, a.images.value, a.faults, a.order);
          CountedAtMost(s.pages, a.faults, a.order, a.lost);
          if Counted(s.pages, a.faults, a.order, a.lost) == |a.images.value| {
            AllSaved(s.pages, a.images.value, a.faults, a.order, a.lost);
          }
        }
      case Regenerate(_, _) =>
        if LosesPages(s, op) {
          assert !HasPage(t.pages, 1);
        }
      case CleanupFailed(_, _, _) =>
      case CleanupPages(kept) => KeptPages(s.pages, kept);
    }
  }

  /** That one failure: the page of a done asset is deleted, and the asset stays done. */
  lemma {:induction false} RegenerationLosesPages(image: string)
    ensures var s := State(Some(Asset(Done, Some(1))), [Page(1, image)]);
      Good(s) && !DoneIsComplete(Apply(s, Regenerate(false, true)))
  {
    var s := State(Some(Asset(Done, Some(1))), [Page(1, image)]);
    assert s.pages[0].number == 1;
    assert !HasPage(Apply(s, Regenerate(false, true)).pages, 1);
  }

  predicate ValidRun(s: State, ops: seq<Op>)
    decreases |ops|
  {
    ops == [] || (Allowed(ops[0]) && !LosesPages(s, ops[0]) && ValidRun(Apply(s, ops[0]), ops[1..]))
  }

  function Run(s: State, ops: seq<Op>): State
    requires ValidRun(s, ops)
    decreases |ops|
  {
    if ops == [] then s else Run(Apply(s, ops[0]), ops[1..])
  }

  /** Over any sequence of operations and failures but that one, done means complete and no page is stored twice. */
  lemma {:induction false} DoneMeansStored(s: State, ops: seq<Op>)
    requires Good(s) && ValidRun(s, ops)
    ensures Good(Run(s, ops))
    decreases |ops|
  {
    if ops != [] {
      GoodStep(s, ops[0]);
      DoneMeansStored(Apply(s, ops[0]), ops[1..]);
    }
  }

  // ---------- Processing again, and regenerating ----------

  predicate Clean(t: Attempt) {
    && Fits(t) && !t.lookupFails && !t.claimFails && !t.statusFails && t.images.Some?
    && |t.order| == |t.images.value| && t.lost == {} && forall i :: 0 <= i < |t.faults| ==> t.faults[i].NoFault?
  }

  /** Every page up to the number of images holds its image. */
  predicate ShowsImages(pages: seq<Page>, images: seq<string>) {
    forall k :: 0 <= k < |pages| && 1 <= pages[k].number <= |images| ==> pages[k].image == images[pages[k].number - 1]
  }

  /** Nothing going wrong, processing ends with all pages, having created exactly the missing ones. */
  lemma {:induction false} CleanProcess(s: State, t: Attempt)
    requires Good(s) && Clean(t)
    ensures var u, n := AfterProcess(s, t), |t.images.value|;
      && u.asset == Some(Asset(Done, Some(n)))
      && HasAll(u.pages, n) && NoPageTwice(u.pages)
      && Extends(u.pages, s.pages, t.images.value, t.order)
      && (HasAll(s.pages, n) ==> u.pages == s.pages)
  {
    var n := |t.images.value|;
    CleanCount(s.pages, t);
    AllSaved(s.pages, t.images.value, t.faults, t.order, t.lost);
    SaveAllAppends(s.pages, t.images.value, t.faults, t.order);
    var u := AfterProcess(s, t);
    if HasAll(s.pages, n) {
      NothingMissing(s.pages, t.images.value, t.faults, t.order);
    }
  }

  lemma {:induction false} NothingMissing(pages: seq<Page>, images: seq<string>, faults: seq<PageFault>,
                                          order: seq<nat>)
    requires |faults| == |images| && Schedule(order, |images|) && HasAll(pages, |images|)
    ensures SaveAll(pages, images, faults, order) == pages
  {
    if order != [] {
      var n := |order| - 1;
      NothingMissing(pages, images, faults, order[..n]);
      assert HasPage(pages, order[n] + 1);
    }
  }

  lemma {:induction false} CleanCount(pages: seq<Page>, t: Attempt)
    requires Clean(t)
    ensures Counted(pages, t.faults, t.order, t.lost) == |t.images.value|
  {
    NoneLost(t.order, {});
    CleanPrefix(pages, t, |t.order|);
    assert t.order[..|t.order|] == t.order;
  }

  lemma {:induction false} CleanPrefix(pages: seq<Page>, t: Attempt, k: nat)
    requires Clean(t) && k <= |t.order|
    ensures Saves(pages, t.faults, t.order[..k]) == k
  {
    if k > 0 {
      CleanPrefix(pages, t, k - 1);
      assert t.order[..k][..k - 1] == t.order[..k - 1];
    }
  }

  lemma {:induction false} FreshPagesShow(pages: seq<Page>, after: seq<Page>, images: seq<string>, order: seq<nat>)
    requires Extends(after, pages, images, order)
    ensures ShowsImages(after, images) <==> ShowsImages(pages, images)
  {
    if ShowsImages(after, images) {
      assert forall k :: 0 <= k < |pages| ==> after[k] == pages[k];
    } else if ShowsImages(pages, images) {
      forall k | 0 <= k < |after| && 1 <= after[k].number <= |images|
        ensures after[k].image == images[after[k].number - 1]
      {
        if k < |pages| {
          assert after[k] == pages[k];
        } else {
          assert FreshPage(after[k], pages, images, order);
        }
      }
    }
  }

  /** Processing never replaces a page: the pages show the new images exactly if the stored ones did before. */
  lemma {:induction false} ProcessKeepsStalePages(s: State, t: Attempt)
    requires Clean(t)
    ensures ShowsImages(AfterProcess(s, t).pages, t.images.value) <==> ShowsImages(s.pages, t.images.value)
  {
    SaveAllAppends(s.pages, t.images.value, t.faults, t.order);
    FreshPagesShow(s.pages, AfterProcess(s, t).pages, t.images.value, t.order);
  }

  /** A PDF with one page is processed, changed and processed again: the asset is done and shows the old page. */
  lemma {:induction false} StalePageStays(a: string, b: string)
    ensures var first := Attempt(false, false, Some([a]), [NoFault], [0], {}, false);
      var second := first.(images := Some([b]));
      && Clean(first) && Clean(second)
      && AfterProcess(AfterProcess(State(None, []), first), second) == State(Some(Asset(Done, Some(1))), [Page(1, a)])
  {
    var first := Attempt(false, false, Some([a]), [NoFault], [0], {}, false);
    var second := first.(images := Some([b]));
    var s := AfterProcess(State(None, []), first);
    CleanProcess(State(None, []), first);
    assert [0][..0] == [];
    assert SaveAll([], [a], [NoFault], [0]) == [Page(1, a)];
    assert s.pages[0].number == 1;
    CleanProcess(s, second);
  }

  /** After a regeneration, processing stores exactly one page per image, and each shows its image. */
  lemma {:induction false} RegenerateThenProcess(s: State, t: Attempt)
    requires Clean(t) && s.asset.Some?
    ensures var u := AfterProcess(AfterRegenerate(s, false, false), t);
      && u.asset == Some(Asset(Done, Some(|t.images.value|)))
      && HasAll(u.pages, |t.images.value|) && NoPageTwice(u.pages) && ShowsImages(u.pages, t.images.value)
      && forall p :: p in u.pages ==> 1 <= p.number <= |t.images.value|
  {
    var r := AfterRegenerate(s, false, false);
    CleanProcess(r, t);
    ProcessKeepsStalePages(r, t);
    var u := AfterProcess(r, t);
    forall p | p in u.pages
      ensures 1 <= p.number <= |t.images.value|
    {
      var k :| 0 <= k < |u.pages| && u.pages[k] == p;
      assert FreshPage(u.pages[k], r.pages, t.images.value, t.order);
    }
  }

  // ---------- The repository, and the use case that works on it ----------

  datatype Outcome = Outcome(success: bool, totalPages: nat, processedPages: nat)

  class Repository {
    var asset: Option<Asset>
    var pages: seq<Page>

    function Contents(): State
      reads this
    {
      State(asset, pages)
    }

    constructor ()
      ensures Contents() == State(None, [])
    {
      asset, pages := None, [];
    }

    method GetPage(number: nat) returns (found: bool)
      ensures found == HasPage(pages, number)
    {
      found := false;
      for k := 0 to |pages|
        invariant found ==> HasPage(pages, number)
        invariant !found ==> forall j :: 0 <= j < k ==> pages[j].number != number
      {
        if pages[k].number == number {
          found := true;
        }
      }
    }

    /** Returns whether page `number` is known to be stored afterwards. */
    method SaveSinglePage(number: nat, image: string, fault: PageFault) returns (success: bool)
      modifies this`pages
      ensures pages == SaveOne(old(pages), number, image, fault)
      ensures success == Succeeds(old(pages), number, fault)
    {
      if fault.LookupFails? {
        return false;
      }
      var existing := GetPage(number);
      if existing {
        return true;
      }
      if fault.StoreFails? {
        return false;
      }
      pages := pages + [Page(number, image)];
      return fault.NoFault?;
    }

    /** Saves the pages in the order in which the pool's workers get to them; the results in `lost` are dropped. */
    method SavePages(images: seq<string>, faults: seq<PageFault>, order: seq<nat>, lost: set<nat>)
      returns (processed: nat)
      requires |faults| == |images| && Schedule(order, |images|)
      modifies this`pages
      ensures pages == SaveAll(old(pages), images, faults, order)
      ensures processed == Counted(old(pages), faults, order, lost)
    {
      processed := 0;
      for k := 0 to |order|
        invariant pages == SaveAll(old(pages), images, faults, order[..k])
        invariant processed == Counted(old(pages), faults, order[..k], lost)
      {
        var i := order[k];
        SaveNext(old(pages), images, faults, order, k);
        CountNext(old(pages), faults, order, lost, k);
        var success := SaveSinglePage(i + 1, images[i], faults[i]);
        if success && i !in lost {
          processed := processed + 1;
        }
      }
      assert order[..|order|] == order;
    }

    method UpdateStatus(status: Status, total: Option<nat>, fails: bool) returns (ok: bool)
      modifies this`asset
      ensures Contents() == WithStatus(old(Contents()), status, total, fails) && ok == !fails
    {
      if !fails && asset.Some? {
        asset := Some(Asset(status, total));
      }
      return !fails;
    }

    /** None is an error. */
    method ProcessLesson(t: Attempt) returns (r: Option<Outcome>)
      requires Fits(t)
      modifies this
      ensures Contents() == AfterProcess(old(Contents()), t)
      ensures r.Some? <==> !t.lookupFails && !t.claimFails && t.images.Some? && !t.statusFails
      ensures r.Some? ==>
        && r.value.totalPages == |t.images.value|
        && r.value.processedPages == Counted(old(pages), t.faults, t.order, t.lost)
        && r.value.success == (r.value.processedPages > 0)
        && (asset.value.status.Done? <==> r.value.processedPages == r.value.totalPages)
        && (asset.value.status.Done? ==> HasAll(pages, r.value.totalPages))
      ensures t.lookupFails || t.claimFails ==> asset == old(asset) && pages == old(pages)
      ensures !t.lookupFails && !t.claimFails ==>
        var total := if old(asset).Some? then old(asset).value.totalPages else None;
        if t.statusFails then asset == Some(Asset(Processing, total))
        else if t.images.None? then asset == Some(Asset(Failed, None))
        else
          var n := |t.images.value|;
          asset == Some(Asset(if Counted(old(pages), t.faults, t.order, t.lost) < n then Partial else Done, Some(n)))
      ensures t.images.None? ==> pages == old(pages)
    {
      if t.lookupFails || t.claimFails {
        return None;
      }
      asset := Some(Asset(Processing, if asset.Some? then asset.value.totalPages else None));
      if t.images.None? {
        var _ := UpdateStatus(Failed, None, t.statusFails);
        return None;
      }
      var images := t.images.value;
      ghost var before := pages;
      CountedAtMost(pages, t.faults, t.order, t.lost);
      var processed := SavePages(images, t.faults, t.order, t.lost);
      var status := Done;
      if processed < |images| {
        status := Partial;
      } else {
        AllSaved(before, images, t.faults, t.order, t.lost);
      }
      var ok := UpdateStatus(status, Some(|images|), t.statusFails);
      if !ok {
        return None;
      }
      return Some(Outcome(processed > 0, |images|, processed));
    }

    method RegeneratePDF(deleteFails: bool, statusFails: bool) returns (ok: bool)
      modifies this
      ensures Contents() == AfterRegenerate(old(Contents()), deleteFails, statusFails)
      ensures ok <==> old(asset).Some? || !statusFails
      ensures asset == if statusFails then old(asset) else Some(Asset(Pending, None))
      ensures pages == if old(asset).Some? && !deleteFails then [] else old(pages)
    {
      if asset.Some? {
        if !deleteFails {
          pages := [];
        }
        var _ := UpdateStatus(Pending, None, statusFails);
        return true;
      }
      if statusFails {
        return false;
      }
      asset := Some(Asset(Pending, None));
      return true;
    }

    /** Deletes the pages one by one; the deletes of those in `kept` fail. */
    method CleanupAssetPages(kept: set<nat>)
      modifies this`pages
      ensures Contents() == Apply(old(Contents()), CleanupPages(kept))
      ensures asset.Some? && (asset.value.status.Failed? || asset.value.status.Partial?) ==>
        forall p :: p in pages <==> p in old(pages) && p.number in kept
      ensures !(asset.Some? && (asset.value.status.Failed? || asset.value.status.Partial?)) ==> pages == old(pages)
    {
      KeptAre(pages, kept);
      if !Retryable(Contents()) {
        return;
      }
      var left: seq<Page> := [];
      for k := 0 to |pages|
        invariant left == Kept(old(pages)[..k], kept) && pages == old(pages)
      {
        assert old(pages)[..k+1][..k] == old(pages)[..k];
        if pages[k].number in kept {
          left := left + [pages[k]];
        }
      }
      assert old(pages)[..|pages|] == old(pages);
      pages := left;
    }

    method CleanupPermanentlyFailed(permanent: bool, deleteFails: bool, statusFails: bool) returns (removed: nat)
      modifies this
      ensures Contents() == Apply(old(Contents()), CleanupFailed(permanent, deleteFails, statusFails))
      ensures removed == if Retryable(old(Contents())) && permanent && !statusFails then 1 else 0
      ensures old(asset).Some? && (old(asset).value.status.Failed? || old(asset).value.status.Partial?) && permanent ==>
        && asset == (if statusFails then old(asset) else Some(Asset(PermanentlyFailed, None)))
        && pages == if deleteFails then old(pages) else []
      ensures !(old(asset).Some? && (old(asset).value.status.Failed? || old(asset).value.status.Partial?) && permanent)
        ==> asset == old(asset) && pages == old(pages)
    {
      if !Retryable(Contents()) || !permanent {
        return 0;
      }
      if !deleteFails {
        pages := [];
      }
      var ok := UpdateStatus(PermanentlyFailed, None, statusFails);
      return if ok then 1 else 0;
    }
  }
}

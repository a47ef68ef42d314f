/** The `jobs` table and the statements on it (transcription/sql.go, worker_claim.go). A row's id is its position. */
module JobsTable {
  import opened Wrappers

  datatype Status = Pending | Running | Completed | Failed

  datatype Kind = VideoProcessing | EmbeddingGeneration

  datatype Job = Job(kind: Kind, status: Status, attempts: nat, maxAttempts: nat, priority: int,
                     createdAt: int, startedAt: int)

  /** Seconds after which a running row counts as orphaned. */
  const STALE_AFTER: int := 1800

  // ---------- What each statement does to a row ----------

  predicate Claimable(j: Job) {
    j.status.Pending? && j.kind.VideoProcessing? && j.attempts < j.maxAttempts
  }

  function ClaimRow(j: Job, now: int): Job {
    j.(status := Running, startedAt := now, attempts := j.attempts + 1)
  }

  function CompleteRow(j: Job): Job {
    j.(status := Completed)
  }

  function FailRow(j: Job): Job {
    j.(status := if j.attempts >= j.maxAttempts then Failed else Pending)
  }

  predicate Orphaned(j: Job, now: int) {
    j.status.Running? && j.startedAt < now - STALE_AFTER && j.attempts < j.maxAttempts
  }

  function ResetRow(j: Job): Job {
    j.(status := Pending)
  }

  // ---------- ... and to the table ----------

  function WithClaimed(rows: seq<Job>, ids: set<nat>, now: int): (r: seq<Job>)
    ensures |r| == |rows|
    ensures forall i :: 0 <= i < |rows| ==> r[i] == if i in ids then ClaimRow(rows[i], now) else rows[i]
  {
    seq(|rows|, i requires 0 <= i < |rows| => if i in ids then ClaimRow(rows[i], now) else rows[i])
  }

  function WithoutOrphans(rows: seq<Job>, now: int): (r: seq<Job>)
    ensures |r| == |rows|
    ensures forall i :: 0 <= i < |rows| ==> r[i] == if Orphaned(rows[i], now) then ResetRow(rows[i]) else rows[i]
  {
    seq(|rows|, i requires 0 <= i < |rows| => if Orphaned(rows[i], now) then ResetRow(rows[i]) else rows[i])
  }

  function OrphanCount(rows: seq<Job>, now: int): nat {
    if rows == [] then 0
    else OrphanCount(rows[..|rows| - 1], now) + if Orphaned(rows[|rows| - 1], now) then 1 else 0
  }

  // ---------- The claim's choice ----------

  /** a is claimed before b: higher priority, or the same and older. */
  predicate Before(a: Job, b: Job) {
    a.priority > b.priority || (a.priority == b.priority && a.createdAt < b.createdAt)
  }

  predicate ClaimableAt(rows: seq<Job>, i: nat) {
    i < |rows| && Claimable(rows[i])
  }

  /** ids are the first `limit` claimable rows, or all of them if there are fewer. */
  ghost predicate FirstClaimable(rows: seq<Job>, limit: int, ids: seq<nat>) {
    && |ids| <= Max0(limit)
    && (forall j, k :: 0 <= j < k < |ids| ==> ids[j] != ids[k])
    && (forall k :: 0 <= k < |ids| ==> ClaimableAt(rows, ids[k]))
    && (forall i: nat, k: nat :: ClaimableAt(rows, i) && i !in ids && 0 <= k < |ids| ==> !Before(rows[i], rows[ids[k]]))
    && (|ids| < Max0(limit) ==> forall i: nat :: ClaimableAt(rows, i) ==> i in ids)
  }

  /** Of two claimable rows of which one is claimed, that one has the higher priority, or the same and is no younger. */
  lemma {:induction false} ClaimedFirst(rows: seq<Job>, limit: int, ids: seq<nat>, i: nat, k: nat)
    requires FirstClaimable(rows, limit, ids) && k in ids && i !in ids && i < |rows|
    requires rows[i].status.Pending? && rows[i].kind.VideoProcessing? && rows[i].attempts < rows[i].maxAttempts
    ensures k < |rows| && |ids| == limit
    ensures rows[k].status.Pending? && rows[k].kind.VideoProcessing? && rows[k].attempts < rows[k].maxAttempts
    ensures rows[k].priority > rows[i].priority ||
            (rows[k].priority == rows[i].priority && rows[k].createdAt <= rows[i].createdAt)
  {
    assert ClaimableAt(rows, i);
    var at :| 0 <= at < |ids| && ids[at] == k;
    assert ClaimableAt(rows, ids[at]) && !Before(rows[i], rows[ids[at]]);
  }

  /** The positions of the orphaned rows. */
  function OrphansAt(rows: seq<Job>, now: int): set<nat> {
    set k: nat | k < |rows| && rows[k].status.Running? && rows[k].startedAt < now - 1800 &&
                 rows[k].attempts < rows[k].maxAttempts
  }

  /** The orphans are the rows that run for more than half an hour and have attempts left. */
  lemma {:induction false} OrphansAreCounted(rows: seq<Job>, now: int)
    ensures OrphanCount(rows, now) == |OrphansAt(rows, now)|
  {
    if rows == [] {
      assert OrphansAt(rows, now) == {};
    } else {
      var n := |rows| - 1;
      OrphansAreCounted(rows[..n], now);
      assert OrphansAt(rows, now) == OrphansAt(rows[..n], now) + if Orphaned(rows[n], now) then {n} else {};
      assert n !in OrphansAt(rows[..n], now);
    }
  }

  function Max0(limit: int): nat {
    if limit < 0 then 0 else limit
  }

  class Table {
    var rows: seq<Job>

    constructor ()
      ensures rows == []
    {
      rows := [];
    }

    method Insert(kind: Kind, priority: int, maxAttempts: nat, now: int) returns (id: nat)
      modifies this
      ensures id == |old(rows)|
      ensures rows == old(rows) + [Job(kind, Pending, 0, maxAttempts, priority, now, 0)]
    {
      id := |rows|;
      rows := rows + [Job(kind, Pending, 0, maxAttempts, priority, now, 0)];
    }

    /** The first claimable row that is not yet in `taken`, if there is one. */
    method Best(taken: seq<nat>) returns (best: Option<nat>)
      ensures best.None? ==> forall i: nat :: ClaimableAt(rows, i) ==> i in taken
      ensures best.Some? ==>
        && ClaimableAt(rows, best.value) && best.value !in taken
        && forall i: nat :: ClaimableAt(rows, i) && i !in taken ==> !Before(rows[i], rows[best.value])
    {
      best := None;
      for i := 0 to |rows|
        invariant best.None? ==> forall k: nat :: ClaimableAt(rows, k) && k < i ==> k in taken
        invariant best.Some? ==>
          && ClaimableAt(rows, best.value) && best.value !in taken
          && forall k: nat :: ClaimableAt(rows, k) && k < i && k !in taken ==> !Before(rows[k], rows[best.value])
      {
        if Claimable(rows[i]) && i !in taken {
          if best.None? || Before(rows[i], rows[best.value]) {
            best := Some(i);
          }
        }
      }
    }

    /** Picks the first `limit` claimable rows and flips them to running in one go. */
    method Claim(limit: int, now: int) returns (ids: seq<nat>)
      modifies this
      ensures FirstClaimable(old(rows), limit, ids)
      ensures rows == WithClaimed(old(rows), (set id | id in ids), now)
      ensures forall i :: 0 <= i < |rows| ==>
        rows[i] ==
          if i in ids then old(rows)[i].(status := Running, startedAt := now, attempts := old(rows)[i].attempts + 1)
          else old(rows)[i]
    {
      ids := [];
      if limit <= 0 {
        return;
      }
      var more := true;
      while more && |ids| < limit
        invariant rows == old(rows) && |ids| <= limit
        invariant forall j, k :: 0 <= j < k < |ids| ==> ids[j] != ids[k]
        invariant forall k :: 0 <= k < |ids| ==> ClaimableAt(rows, ids[k])
        invariant forall i: nat, k: nat :: ClaimableAt(rows, i) && i !in ids && 0 <= k < |ids| ==>
          !Before(rows[i], rows[ids[k]])
        invariant !more ==> forall i: nat :: ClaimableAt(rows, i) ==> i in ids
        decreases more, limit - |ids|
      {
        var best := Best(ids);
        if best.None? {
          more := false;
        } else {
          ids := ids + [best.value];
        }
      }
      for k := 0 to |ids|
        invariant |rows| == |old(rows)|
        invariant forall i :: 0 <= i < |rows| ==>
          rows[i] == if i in ids[..k] then ClaimRow(old(rows)[i], now) else old(rows)[i]
      {
        assert ids[..k+1] == ids[..k] + [ids[k]];
        rows := rows[ids[k] := ClaimRow(rows[ids[k]], now)];
      }
      assert ids[..|ids|] == ids;
    }

    method MarkCompleted(id: nat)
      modifies this
      ensures rows == if id < |old(rows)| then old(rows)[id := old(rows)[id].(status := Completed)] else old(rows)
    {
      if id < |rows| {
        rows := rows[id := CompleteRow(rows[id])];
      }
    }

    /** Returns the new status, or none if there is no such row. */
    method MarkFailed(id: nat) returns (status: Option<Status>)
      modifies this
      ensures |rows| == |old(rows)| && forall i :: 0 <= i < |rows| && i != id ==> rows[i] == old(rows)[i]
      ensures id < |rows| ==>
        var j := old(rows)[id];
        rows[id] == j.(status := if j.attempts >= j.maxAttempts then Failed else Pending)
      ensures status == if id < |rows| then Some(rows[id].status) else None
    {
      if id >= |rows| {
        return None;
      }
      rows := rows[id := FailRow(rows[id])];
      return Some(rows[id].status);
    }

    method ResetOrphans(now: int) returns (n: nat)
      modifies this
      ensures rows == WithoutOrphans(old(rows), now) && n == OrphanCount(old(rows), now)
      ensures n == |OrphansAt(old(rows), now)| && |rows| == |old(rows)|
      ensures forall i :: 0 <= i < |rows| ==>
        rows[i] == if i in OrphansAt(old(rows), now) then old(rows)[i].(status := Pending) else old(rows)[i]
    {
      OrphansAreCounted(rows, now);
      n := 0;
      for i := 0 to |rows|
        invariant |rows| == |old(rows)| && n == OrphanCount(old(rows)[..i], now)
        invariant forall k :: 0 <= k < |rows| ==>
          rows[k] == if k < i && Orphaned(old(rows)[k], now) then ResetRow(old(rows)[k]) else old(rows)[k]
      {
        assert old(rows)[..i+1][..i] == old(rows)[..i];
        if Orphaned(rows[i], now) {
          rows := rows[i := ResetRow(rows[i])];
          n := n + 1;
        }
      }
      assert old(rows)[..|rows|] == old(rows);
    }
  }
}

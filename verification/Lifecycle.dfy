/**
 * One row of the `analyses` table and the row-level writers of the analysis lifecycle
 * (sitescore-api lifecycle.py, worker.py).
 *
 * The functions give the row each writer leaves behind; `AnalysisRecord` is the mutable row the
 * program works on, and its methods are proved against them.
 */
module Lifecycle {
  import opened Prelude

  /** A JSON document, kept as its canonical text. */
  type Json = string

  datatype Status = Queued | Running | Completed | NotScoreReady | Failed | TimedOut

  predicate Terminal(s: Status) {
    s != Queued && s != Running
  }

  datatype Failure = DeadlineExceeded | ExecutionFailed

  datatype Row = Row(
    state: Status,
    deadlineAt: int,
    startedAt: Option<int>,
    successAt: Option<int>,
    finishedAt: Option<int>,
    updatedAt: int,
    result: Option<Json>,
    readiness: Option<Json>,
    failure: Option<Failure>)

  /** The check constraints PostgreSQL enforces on the table when a transaction writes the row. */
  predicate CheckConstraints(r: Row) {
    && !(r.state == NotScoreReady && r.result.Some?)
    && !(!Terminal(r.state) && r.finishedAt.Some?)
    && (r.successAt.Some? ==> r.successAt.value < r.deadlineAt)
    && (r.successAt.Some? ==> r.state == Running || r.state == Completed)
  }

  /** What the lifecycle keeps beyond the constraints: the fields agree with the state. */
  predicate Coherent(r: Row) {
    && CheckConstraints(r)
    && (Terminal(r.state) <==> r.finishedAt.Some?)
    && (r.state == Completed <==> r.result.Some?)
    && (r.state == Completed ==> r.successAt.Some?)
    && (r.state == NotScoreReady <==> r.readiness.Some?)
    && (r.state == TimedOut <==> r.failure == Some(DeadlineExceeded))
    && (r.state == Failed <==> r.failure == Some(ExecutionFailed))
    && (r.failure.Some? ==> r.state == TimedOut || r.state == Failed)
  }

  function NewRow(now: int, deadlineSeconds: int): Row {
    Row(Queued, now + deadlineSeconds, None, None, None, now, None, None, None)
  }

  function TimedOutRow(r: Row, now: int): Row {
    r.(state := TimedOut, updatedAt := now, finishedAt := Some(now), failure := Some(DeadlineExceeded))
  }

  function FailedRow(r: Row, now: int): Row {
    r.(state := Failed, updatedAt := now, finishedAt := Some(now), failure := Some(ExecutionFailed))
  }

  function StartedRow(r: Row, now: int): Row {
    r.(state := Running, updatedAt := now, startedAt := if r.startedAt.None? then Some(now) else r.startedAt)
  }

  function NotReadyRow(r: Row, readiness: Json, now: int): Row {
    if Terminal(r.state) || r.successAt.Some? then r
    else if now >= r.deadlineAt then TimedOutRow(r, now)
    else r.(state := NotScoreReady, result := None, readiness := Some(readiness), failure := None,
            finishedAt := Some(now), updatedAt := now)
  }

  /** What `persist_completed` does: store the result, leave or time out the row, or raise. */
  datatype Completion = Stored(row: Row) | Refused(row: Row) | Corrupt

  function Complete(r: Row, body: Json, now: int): Completion {
    if Terminal(r.state) then Refused(r)
    else if r.successAt.None? && now >= r.deadlineAt then Refused(TimedOutRow(r, now))
    else if r.successAt.Some? && r.successAt.value >= r.deadlineAt then Corrupt
    else Stored(r.(state := Completed, result := Some(body), readiness := None, failure := None,
                   successAt := if r.successAt.None? then Some(now) else r.successAt,
                   finishedAt := Some(now), updatedAt := now))
  }

  /** What the success boundary does to the row it locked. */
  datatype Boundary =
    | Protect(row: Row)  // commit this row and go on to the report
    | Settle(row: Row)   // commit this row and answer with its state
    | Leave              // roll back and answer with the durable state
    | Broken             // raise

  function SuccessBoundary(r: Row, at: int): Boundary {
    if r.successAt.Some? then
      if r.successAt.value >= r.deadlineAt then Broken
      else if Terminal(r.state) then Leave
      else Protect(r.(state := Running, finishedAt := None, failure := None))
    else if at >= r.deadlineAt then
      Settle(if Terminal(r.state) then r else TimedOutRow(r, at))
    else if Terminal(r.state) then Leave
    else Protect(r.(successAt := Some(at), state := Running, updatedAt := at, finishedAt := None, failure := None))
  }

  /** The row a poll or the periodic reconciler publishes when it owns the timeout authority. */
  function PolledRow(r: Row, now: int): Row {
    if !Terminal(r.state) && r.successAt.None? && now >= r.deadlineAt then TimedOutRow(r, now) else r
  }

  /** The mutable row object of the ORM. */
  class AnalysisRecord {
    var state: Status
    var deadlineAt: int
    var startedAt: Option<int>
    var successAt: Option<int>
    var finishedAt: Option<int>
    var updatedAt: int
    var result: Option<Json>
    var readiness: Option<Json>
    var failure: Option<Failure>

    function Snapshot(): Row
      reads this
    {
      Row(state, deadlineAt, startedAt, successAt, finishedAt, updatedAt, result, readiness, failure)
    }

    constructor (now: int, deadlineSeconds: int)
      ensures Snapshot() == NewRow(now, deadlineSeconds)
    {
      state, deadlineAt, updatedAt := Queued, now + deadlineSeconds, now;
      startedAt, successAt, finishedAt := None, None, None;
      result, readiness, failure := None, None, None;
    }

    method TimeOut(now: int)
      modifies this
      ensures Snapshot() == TimedOutRow(old(Snapshot()), now)
    {
      state := TimedOut;
      updatedAt := now;
      finishedAt := Some(now);
      failure := Some(DeadlineExceeded);
    }

    method PersistNotScoreReady(projection: Json, now: int) returns (stored: bool)
      modifies this
      ensures Snapshot() == NotReadyRow(old(Snapshot()), projection, now)
      ensures stored <==> old(!Terminal(state) && successAt.None? && now < deadlineAt)
    {
      if Terminal(state) { return false; }
      if successAt.Some? { return false; }
      if now >= deadlineAt {
        TimeOut(now);
        return false;
      }
      state := NotScoreReady;
      result := None;
      readiness := Some(projection);
      failure := None;
      finishedAt := Some(now);
      updatedAt := now;
      return true;
    }

    /** `raised` is the ValueError for a marker that does not precede the deadline. */
    method PersistCompleted(body: Json, now: int) returns (stored: bool, raised: bool)
      modifies this
      ensures raised <==> Complete(old(Snapshot()), body, now).Corrupt?
      ensures raised ==> Snapshot() == old(Snapshot())
      ensures !raised ==> Snapshot() == Complete(old(Snapshot()), body, now).row
      ensures stored <==> Complete(old(Snapshot()), body, now).Stored?
    {
      if Terminal(state) { return false, false; }
      if successAt.None? {
        if now >= deadlineAt {
          TimeOut(now);
          return false, false;
        }
        successAt := Some(now);
      } else if successAt.value >= deadlineAt {
        return false, true;
      }
      state := Completed;
      result := Some(body);
      readiness := None;
      failure := None;
      finishedAt := Some(now);
      updatedAt := now;
      return true, false;
    }

    /** `commits` says whether the caller's session commits (true) or rolls back (false). */
    method RecordSuccessBoundary(at: int) returns (isProtected: bool, commits: bool, raised: bool)
      modifies this
      ensures raised <==> SuccessBoundary(old(Snapshot()), at).Broken?
      ensures isProtected <==> SuccessBoundary(old(Snapshot()), at).Protect?
      ensures commits <==> SuccessBoundary(old(Snapshot()), at).Protect? || SuccessBoundary(old(Snapshot()), at).Settle?
      ensures commits ==> Snapshot() == SuccessBoundary(old(Snapshot()), at).row
      ensures !commits ==> Snapshot() == old(Snapshot())
    {
      if successAt.Some? {
        if successAt.value >= deadlineAt { return false, false, true; }
        if Terminal(state) { return false, false, false; }
        state := Running;
        finishedAt := None;
        failure := None;
        return true, true, false;
      }
      if at >= deadlineAt {
        if !Terminal(state) { TimeOut(at); }
        return false, true, false;
      }
      if Terminal(state) { return false, false, false; }
      successAt := Some(at);
      state := Running;
      updatedAt := at;
      finishedAt := None;
      failure := None;
      return true, true, false;
    }
  }

  function Owned(flags: seq<bool>): nat {
    if flags == [] then 0 else Owned(flags[..|flags| - 1]) + if flags[|flags| - 1] then 1 else 0
  }

  /**
   * The loop of `reconcile_expired` over the expired rows it has locked; `owned` says where the timeout
   * authority was won. A row whose analysis a worker owns is left alone.
   */
  method ReconcileExpired(rows: seq<AnalysisRecord>, owned: seq<bool>, now: int) returns (count: nat)
    requires |owned| == |rows|
    requires forall i, j :: 0 <= i < j < |rows| ==> rows[i] != rows[j]
    requires forall i :: 0 <= i < |rows| ==>
                           !Terminal(rows[i].state) && rows[i].successAt.None? && rows[i].deadlineAt <= now
    modifies set i | 0 <= i < |rows| :: rows[i]
    ensures forall i :: 0 <= i < |rows| ==>
                          rows[i].Snapshot() == if owned[i] then PolledRow(old(rows[i].Snapshot()),
                              now) else old(rows[i].Snapshot())
    ensures count == Owned(owned)
  {
    count := 0;
    var k := 0;
    while k < |rows|
      invariant 0 <= k <= |rows|
      invariant count == Owned(owned[..k])
      invariant forall i :: 0 <= i < k ==>
                              rows[i].Snapshot() == if owned[i] then PolledRow(old(rows[i].Snapshot()), now)
                                                    else old(rows[i].Snapshot())
      invariant forall i :: k <= i < |rows| ==> rows[i].Snapshot() == old(rows[i].Snapshot())
    {
      assert owned[..k + 1][..k] == owned[..k];
      if owned[k] {
        rows[k].TimeOut(now);
        count := count + 1;
      }
      k := k + 1;
    }
    assert owned[..k] == owned;
  }
}

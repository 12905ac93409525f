/** Runs that exist: a retry that completes, and the two boundaries of what the system guarantees. */
module FinalizationRuns {
  import opened Prelude
  import opened Lifecycle
  import opened Finalization
  import opened FinalizationInvariant
  import opened FinalizationSafety

  /** An undisturbed step: nothing raises, every call is acknowledged. */
  function Fine(now: int, body: Json, bytes: Bytes): Choice {
    Choice(now, false, false, Acked, Some(Scored(body)), Some(bytes), None, 7, 1)
  }

  /** The same with a lost commit acknowledgement and an unreadable object store. */
  function LostAck(now: int, body: Json, bytes: Bytes, commit: Commit): Choice {
    Choice(now, false, true, commit, Some(Scored(body)), Some(bytes), None, 7, 1)
  }

  /** One attempt taken from its start up to the point before the pair commit. */
  lemma AttemptToPair(c: Config, s: State, w: WorkerId, now: int, body: Json, bytes: Bytes) returns (s': State)
    requires Inv(c, s) && Startable(s, w)
    requires s.analysis.Some? && !Terminal(s.analysis.value.state) && s.report.None?
    requires s.analysis.value.successAt.Some? || now < s.analysis.value.deadlineAt
    requires ValidPdf(c, bytes)
    ensures Leads(c, s, s')
    ensures Sheltered(s') && s'.lock == Some(w) && w in s'.workers && s'.workers.Keys == s.workers.Keys + {w}
    ensures s'.workers[w] == Prepared(body, now, Artifact(7, 1, now, ReadyReport(c.sha(bytes), |bytes|, PDF_MIME, Key(c))))
    ensures s'.bucket == s.bucket[Key(c) := bytes]
    ensures s.analysis.value.successAt.Some? ==> s'.analysis.value.successAt == s.analysis.value.successAt
    ensures s'.analysis.value.deadlineAt == s.analysis.value.deadlineAt
  {
    var go := Work(w, Fine(now, body, bytes));
    LeadsNowhere(c, s);
    var s1 := Apply(c, s, Start(w));
    LeadsStep(c, s, s, Start(w));
    var s2 := Apply(c, s1, go);
    LeadsStep(c, s, s1, go);
    assert s2.workers[w] == Executing;
    var s3 := Apply(c, s2, go);
    LeadsStep(c, s, s2, go);
    assert s3.workers[w] == Deciding(Scored(body), now);
    var s4 := Apply(c, s3, go);
    LeadsStep(c, s, s3, go);
    assert s4.workers[w] == Generating(body, now);
    s' := ReportUploaded(c, s, s4, w, now, body, bytes);
  }

  /** From the durable success to the verified upload. */
  lemma ReportUploaded(c: Config, s: State, s4: State, w: WorkerId, now: int, body: Json, bytes: Bytes) returns (s': State)
    requires Leads(c, s, s4) && Sheltered(s4) && s4.lock == Some(w) && w in s4.workers
    requires s4.workers[w] == Generating(body, now) && ValidPdf(c, bytes)
    ensures Leads(c, s, s') && s'.analysis == s4.analysis && s'.report == s4.report
    ensures Sheltered(s') && s'.lock == Some(w) && s'.workers.Keys == s4.workers.Keys
    ensures w in s'.workers
    ensures s'.workers[w] == Prepared(body, now, Artifact(7, 1, now, ReadyReport(c.sha(bytes), |bytes|, PDF_MIME, Key(c))))
    ensures s'.bucket == s4.bucket[Key(c) := bytes]
  {
    var go := Work(w, Fine(now, body, bytes));
    var s5 := Apply(c, s4, go);
    LeadsStep(c, s, s4, go);
    assert s5.workers[w] == HeadChecking(body, now, 7, 1, bytes);
    s' := Apply(c, s5, go);
    LeadsStep(c, s, s5, go);
  }

  /**
   * However often earlier attempts crashed or lost their commits, one undisturbed attempt finishes a
   * marked analysis, at any time, even long after its deadline.
   */
  lemma RetryCompletes(c: Config, s: State, w: WorkerId, now: int, body: Json, bytes: Bytes) returns (s': State)
    requires WellFormed(c) && Reachable(c, s)
    requires Startable(s, w) && Sheltered(s) && ValidPdf(c, bytes)
    ensures Leads(c, s, s')
    ensures s'.analysis.Some? && s'.analysis.value.state == Completed && s'.analysis.value.result == Some(body)
    ensures s'.report.Some? && s'.report.value.body.ReadyReport? && w !in s'.workers
    ensures Content(c, s', s'.report.value, None, false, false) == Served(bytes)
  {
    ReachableInv(c, s);
    var go := Work(w, Fine(now, body, bytes));
    var s1 := AttemptToPair(c, s, w, now, body, bytes);
    var s2 := Apply(c, s1, go);
    LeadsStep(c, s, s1, go);
    assert s2.workers[w] == Leaving(Reports(Completed));
    s' := Apply(c, s2, go);
    LeadsStep(c, s, s2, go);
  }

  /** A submitted, unexpired analysis. */
  lemma Submitted(c: Config) returns (s: State)
    ensures Reachable(c, s) && Inv(c, s)
    ensures s == INIT.(analysis := Some(NewRow(0, 60)))
  {
    LeadsNowhere(c, INIT);
    LeadsStep(c, INIT, INIT, Submit(0, 60));
    s := Apply(c, INIT, Submit(0, 60));
  }

  /**
   * A report that readers may already have seen as ready can still become failed: its commit was
   * applied, the acknowledgement was lost, and the object's metadata could not be read back.
   */
  lemma ReadyReportCanBeWithdrawn(c: Config, bytes: Bytes) returns (s: State, s': State)
    requires WellFormed(c) && ValidPdf(c, bytes)
    ensures Reachable(c, s) && Leads(c, s, s')
    ensures Resolve(s).Resource? && s.report.value.body.ReadyReport?
    ensures Resolve(s').Resource? && s'.report.value.body.FailedReport?
    ensures s'.report.value.reportId == s.report.value.reportId
  {
    var w, body := 0, "{}";
    var lost := Work(w, LostAck(0, body, bytes, AckLost));
    var s0 := Submitted(c);
    var s1 := AttemptToPair(c, s0, w, 0, body, bytes);
    LeadsTransitive(c, INIT, s0, s1);
    s := Apply(c, s1, lost);
    LeadsStep(c, INIT, s1, lost);
    ReachableInv(c, s);
    assert s.workers[w].Reconciling? && Coherent(s.analysis.value);
    LeadsNowhere(c, s);
    var s2 := Apply(c, s, lost);
    LeadsStep(c, s, s, lost);
    assert s2.workers[w].Demoting?;
    s' := Apply(c, s2, lost);
    LeadsStep(c, s, s2, lost);
  }

  lemma LeadsTransitive(c: Config, s0: State, s1: State, s2: State)
    requires Leads(c, s0, s1) && Leads(c, s1, s2)
    ensures Leads(c, s0, s2)
  {
    var es1 :| s1 == Run(c, s0, es1);
    var es2 :| s2 == Run(c, s1, es2);
    RunConcat(c, s0, es1, es2);
  }

  lemma {:induction false} RunConcat(c: Config, s: State, es1: seq<Event>, es2: seq<Event>)
    ensures Run(c, s, es1 + es2) == Run(c, Run(c, s, es1), es2)
    decreases |es1|
  {
    if es1 == [] {
      assert es1 + es2 == es2;
    } else {
      assert (es1 + es2)[1..] == es1[1..] + es2;
      RunConcat(c, Apply(c, s, es1[0]), es1[1..], es2);
    }
  }

  /** The server ends a live attempt's lock session: what the first assumption rules out. */
  function LoseLock(s: State): State {
    s.(lock := None, depth := 0)
  }

  /**
   * The lock assumption is necessary. If an attempt outlives its lock once, a second attempt can publish
   * a ready report over the shared key and the first attempt's cleanup then deletes that object.
   */
  lemma LockLossDestroysReadyObject(c: Config, bytes: Bytes) returns (s: State, s': State)
    requires WellFormed(c) && ValidPdf(c, bytes)
    ensures Reachable(c, s) && Leads(c, LoseLock(s), s')
    ensures s'.report.Some? && s'.report.value.body.ReadyReport? && Key(c) !in s'.bucket
    ensures forall mime, h, g :: Content(c, s', s'.report.value, mime, h, g) == IntegrityError
  {
    var body := "{}";
    var fine := Work(0, Fine(0, body, bytes));
    var dropped := Work(0, LostAck(0, body, bytes, Dropped));
    var s0 := Submitted(c);
    var s1 := AttemptToPair(c, s0, 0, 0, body, bytes);
    LeadsTransitive(c, INIT, s0, s1);
    var s2 := Apply(c, s1, dropped);
    LeadsStep(c, INIT, s1, dropped);
    assert s2.workers[0].Reconciling?;
    s := Apply(c, s2, fine);
    LeadsStep(c, INIT, s2, fine);
    ReachableInv(c, s);
    assert s.workers[0].Discarding? && Sheltered(s);
    s' := SecondAttemptThenCleanup(c, LoseLock(s), body, bytes);
  }

  lemma SecondAttemptThenCleanup(c: Config, t: State, body: Json, bytes: Bytes) returns (t': State)
    requires ValidPdf(c, bytes) && Sheltered(t) && t.lock.None? && Coherent(t.analysis.value)
    requires t.workers.Keys == {0} && t.workers[0].Discarding?
    requires t.workers[0].art.body.ReadyReport? && t.workers[0].art.body.storageKey == Key(c)
    ensures Leads(c, t, t')
    ensures t'.report.Some? && t'.report.value.body.ReadyReport? && t'.report.value.body.storageKey == Key(c)
    ensures Key(c) !in t'.bucket
  {
    var go := Work(1, Fine(0, body, bytes));
    LeadsNowhere(c, t);
    var t1 := Apply(c, t, Start(1));
    LeadsStep(c, t, t, Start(1));
    var t2 := Apply(c, t1, go);
    LeadsStep(c, t, t1, go);
    var t3 := Apply(c, t2, go);
    LeadsStep(c, t, t2, go);
    assert t3.workers[1] == Deciding(Scored(body), 0);
    var t4 := Apply(c, t3, go);
    LeadsStep(c, t, t3, go);
    assert t4.workers[1] == Generating(body, 0);
    var t5 := Apply(c, t4, go);
    LeadsStep(c, t, t4, go);
    var t6 := Apply(c, t5, go);
    LeadsStep(c, t, t5, go);
    assert t6.workers[1].Prepared?;
    var t7 := Apply(c, t6, go);
    LeadsStep(c, t, t6, go);
    assert t7.report.Some? && t7.workers[0] == t.workers[0];
    var cleanup := Work(0, Fine(0, body, bytes));
    t' := Apply(c, t7, cleanup);
    LeadsStep(c, t, t7, cleanup);
  }
}

/** What holds in every reachable state of the finalization system, and along every run. */
module FinalizationSafety {
  import opened Prelude
  import opened Lifecycle
  import opened Finalization
  import opened FinalizationInvariant

  ghost predicate Leads(c: Config, s: State, s': State) {
    exists es: seq<Event> :: s' == Run(c, s, es)
  }

  ghost predicate Reachable(c: Config, s: State) {
    Leads(c, INIT, s)
  }

  lemma {:induction false} RunAppend(c: Config, s: State, es: seq<Event>, e: Event)
    ensures Run(c, s, es + [e]) == Apply(c, Run(c, s, es), e)
    decreases |es|
  {
    if es == [] {
      assert [] + [e] == [e];
      assert Run(c, s, [e]) == Run(c, Apply(c, s, e), [e][1..]);
    } else {
      assert (es + [e])[1..] == es[1..] + [e];
      RunAppend(c, Apply(c, s, es[0]), es[1..], e);
    }
  }

  lemma LeadsNowhere(c: Config, s: State)
    ensures Leads(c, s, s)
  {
    assert s == Run(c, s, []);
  }

  lemma LeadsStep(c: Config, s: State, s': State, e: Event)
    requires Leads(c, s, s')
    ensures Leads(c, s, Apply(c, s', e))
  {
    var es :| s' == Run(c, s, es);
    RunAppend(c, s, es, e);
  }

  lemma ReachableInv(c: Config, s: State)
    requires WellFormed(c) && Reachable(c, s)
    ensures Inv(c, s)
  {
    var es :| s == Run(c, INIT, es);
    RunKeepsInv(c, INIT, es);
  }

  // ---- Readers ----

  datatype Resolution =
    | NotFound | NotYetReportable | NotReportable | InvariantViolation | Resource(report: Artifact)

  /** `POST /v1/reports`: resolve the report of an analysis. */
  function Resolve(s: State): Resolution {
    if s.analysis.None? then NotFound
    else if !Terminal(s.analysis.value.state) then NotYetReportable
    else if s.analysis.value.state != Completed then NotReportable
    else if s.report.None? then InvariantViolation
    else Resource(s.report.value)
  }

  datatype Download = Unavailable | IntegrityError | Served(bytes: Bytes)

  /** `GET /v1/reports/{id}/content`; `getFault` is a failed object read. */
  function Content(c: Config, s: State, row: Artifact, mime: Option<string>, headFault: bool, getFault: bool): Download {
    if row.body.FailedReport? then Unavailable
    else
      var key := row.body.storageKey;
      if row.body.mime != PDF_MIME || headFault || key !in s.bucket then IntegrityError
      else if |s.bucket[key]| != row.body.byteLength then IntegrityError
      else if mime.Some? && mime.value != row.body.mime then IntegrityError
      else if getFault || |s.bucket[key]| > c.maxBytes then IntegrityError
      else if c.sha(s.bucket[key]) != row.body.sha256 || !(PDF_MAGIC <= s.bucket[key]) then IntegrityError
      else Served(s.bucket[key])
  }

  /** Completed analyses and report rows come and go together, so resolving never finds a hole. */
  lemma CompletedIffReported(c: Config, s: State)
    requires WellFormed(c) && Reachable(c, s)
    ensures s.report.Some? <==> s.analysis.Some? && s.analysis.value.state == Completed
    ensures Resolve(s) != InvariantViolation
    ensures Resolve(s).Resource? <==> s.analysis.Some? && s.analysis.value.state == Completed
  {
    ReachableInv(c, s);
  }

  /** A durable ready row is served exactly, unless the storage itself fails or mislabels the object. */
  lemma ReadyRowIsServed(c: Config, s: State, mime: Option<string>, headFault: bool, getFault: bool)
    requires WellFormed(c) && Reachable(c, s)
    requires s.report.Some? && s.report.value.body.ReadyReport?
    ensures Key(c) in s.bucket && c.sha(s.bucket[Key(c)]) == s.report.value.body.sha256
    ensures |s.bucket[Key(c)]| == s.report.value.body.byteLength
    ensures Content(c, s, s.report.value, mime, headFault, getFault) == Served(s.bucket[Key(c)])
            <==> !headFault && !getFault && (mime.None? || mime == Some(PDF_MIME))
  {
    ReachableInv(c, s);
  }

  /** No step of anybody deletes or overwrites the object a durable ready row names. */
  lemma ReadyObjectUntouched(c: Config, s: State, e: Event)
    requires WellFormed(c) && Reachable(c, s)
    requires s.report.Some? && s.report.value.body.ReadyReport?
    ensures Key(c) in s.bucket && Key(c) in Apply(c, s, e).bucket
    ensures Apply(c, s, e).bucket[Key(c)] == s.bucket[Key(c)]
  {
    ReachableInv(c, s);
    if e.ForeignWrite? && UuidText(e.consumer) && UuidText(e.analysis)
       && StorageKey(e.consumer, e.analysis) == Key(c) {
      StorageKeyInjective(e.consumer, e.analysis, c.consumer, c.analysis);
    }
  }

  // ---- The analysis row ----

  /** A terminal row never changes again, in any field, along any run. */
  lemma {:induction false} TerminalRowsAreFrozen(c: Config, s: State, es: seq<Event>)
    requires WellFormed(c) && Inv(c, s)
    requires s.analysis.Some? && Terminal(s.analysis.value.state)
    ensures Run(c, s, es).analysis == s.analysis
    decreases |es|
  {
    if es != [] {
      var s' := Apply(c, s, es[0]);
      TerminalRowStep(c, s, es[0]);
      StepKeepsInv(c, s, es[0]);
      TerminalRowsAreFrozen(c, s', es[1..]);
    }
  }

  lemma TerminalRowStep(c: Config, s: State, e: Event)
    requires WellFormed(c) && Inv(c, s)
    requires s.analysis.Some? && Terminal(s.analysis.value.state)
    ensures Apply(c, s, e).analysis == s.analysis
  {
    if e.Work? && e.w in s.workers {
      assert PcRows(s, s.workers[e.w]);
    }
  }

  /** Once a pre-deadline success is marked, it is never unmarked, moved or overtaken by another outcome. */
  lemma {:induction false} MarkedSuccessPrevails(c: Config, s: State, es: seq<Event>)
    requires WellFormed(c) && Inv(c, s)
    requires s.analysis.Some? && s.analysis.value.successAt.Some?
    ensures var s' := Run(c, s, es);
            && s'.analysis.Some?
            && s'.analysis.value.successAt == s.analysis.value.successAt
            && s'.analysis.value.deadlineAt == s.analysis.value.deadlineAt
            && s'.analysis.value.successAt.value < s'.analysis.value.deadlineAt
            && s'.analysis.value.state in {Running, Completed}
    decreases |es|
  {
    if es != [] {
      MarkedSuccessStep(c, s, es[0]);
      StepKeepsInv(c, s, es[0]);
      MarkedSuccessPrevails(c, Apply(c, s, es[0]), es[1..]);
    }
  }

  lemma MarkedSuccessStep(c: Config, s: State, e: Event)
    requires WellFormed(c) && Inv(c, s)
    requires s.analysis.Some? && s.analysis.value.successAt.Some?
    ensures var s' := Apply(c, s, e);
            && s'.analysis.Some?
            && s'.analysis.value.successAt == s.analysis.value.successAt
            && s'.analysis.value.deadlineAt == s.analysis.value.deadlineAt
  {
    if e.Work? && e.w in s.workers {
      assert PcRows(s, s.workers[e.w]);
    }
  }

  /** Every row a transaction leaves satisfies the table's check constraints, so none aborts a commit. */
  lemma ConstraintsNeverAbort(c: Config, s: State, e: Event)
    requires WellFormed(c) && Reachable(c, s)
    requires Apply(c, s, e).analysis.Some?
    ensures CheckConstraints(Apply(c, s, e).analysis.value)
  {
    ReachableInv(c, s);
    StepKeepsInv(c, s, e);
  }

  // ---- Authority ----

  /** While an attempt lives, only that attempt moves the row, the report or the analysis's object. */
  lemma OwnerWritesAlone(c: Config, s: State, w: WorkerId, e: Event)
    requires WellFormed(c) && Reachable(c, s)
    requires w in s.workers && e.Work? ==> e.w != w
    requires w in s.workers && s.analysis.Some?
    ensures var s' := Apply(c, s, e);
            && s'.analysis == s.analysis && s'.report == s.report
            && (Key(c) in s'.bucket <==> Key(c) in s.bucket)
            && (Key(c) in s.bucket ==> s'.bucket[Key(c)] == s.bucket[Key(c)])
            && (w in s'.workers ==> s'.workers == s.workers)
  {
    ReachableInv(c, s);
    assert s.lock == Some(w);
    if e.ForeignWrite? && UuidText(e.consumer) && UuidText(e.analysis)
       && StorageKey(e.consumer, e.analysis) == Key(c) {
      StorageKeyInjective(e.consumer, e.analysis, c.consumer, c.analysis);
    }
  }

  /** At most one attempt is alive, and it holds the lock. */
  lemma OneAttemptAtATime(c: Config, s: State, v: WorkerId, w: WorkerId)
    requires WellFormed(c) && Reachable(c, s)
    requires v in s.workers && w in s.workers
    ensures v == w && s.lock == Some(w)
  {
    ReachableInv(c, s);
    assert s.lock == Some(v);
  }

  /** What an attempt answers is durable when it answers. */
  lemma AnswersAreDurable(c: Config, s: State, w: WorkerId)
    requires WellFormed(c) && Reachable(c, s)
    requires w in s.workers && s.workers[w].Leaving? && s.workers[w].answer.Reports?
    ensures s.analysis.Some? && s.analysis.value.state == s.workers[w].answer.state
    ensures Terminal(s.workers[w].answer.state)
    ensures s.workers[w].answer.state == Completed ==> s.report.Some?
  {
    ReachableInv(c, s);
    assert PcRows(s, s.workers[w]);
  }

  /**
   * The verdicts on an ambiguous pair commit are exact: with the database readable, "absent" means the
   * commit was lost and "ready", "ready_invalid" or "failed" that it was applied. The remaining
   * classifications of the source are unreachable.
   */
  lemma ReconciliationIsExact(c: Config, s: State, w: WorkerId, body: Json, art: Artifact, ch: Choice)
    requires WellFormed(c) && Reachable(c, s)
    requires w in s.workers && s.workers[w] == Reconciling(body, art)
    ensures Classify(s, body, art, ch) !in {Conflict, CompletedMissing, MissingVerdict}
    ensures Classify(s, body, art, ch) == Unknown <==> ch.fault
    ensures !ch.fault ==> (Classify(s, body, art, ch) == Absent <==> s.analysis.value.state != Completed)
    ensures !ch.fault ==> (Classify(s, body, art, ch) == FailedVerdict <==> s.report == Some(art) && art.body.FailedReport?)
    ensures Classify(s, body, art, ch) in {ReadyVerdict, ReadyInvalid} ==> s.report == Some(art) && Backed(c, s.bucket, art)
  {
    ReachableInv(c, s);
    assert PcRows(s, s.workers[w]) && PcBucket(c, s, s.workers[w]);
  }

  // ---- The report row ----

  /** A demotion becomes durable. */
  predicate DemotesNow(s: State, e: Event) {
    && e.Work? && e.w in s.workers && s.workers[e.w].Demoting?
    && !e.ch.fault && e.ch.commit.Durable()
  }

  /** A demotion is begun: not the retry of one, which comes from rereading. */
  predicate EntersDemotion(c: Config, s: State, e: Event) {
    && e.Work? && e.w in s.workers && !s.workers[e.w].Demoting? && !s.workers[e.w].Rereading?
    && e.w in Apply(c, s, e).workers && Apply(c, s, e).workers[e.w].Demoting?
  }

  /**
   * What begins one: the attempt lost the acknowledgement of its own pair, finds its own ready row in the
   * database, and the storage metadata cannot be read or names another content type than a PDF.
   */
  predicate LostOwnReadyCommit(s: State, e: Event) {
    && e.Work? && e.w in s.workers && s.workers[e.w].Reconciling? && !e.ch.fault
    && s.report == Some(s.workers[e.w].art) && s.workers[e.w].art.body.ReadyReport?
    && (e.ch.headFault || e.ch.mime !in {None, Some(PDF_MIME)})
  }

  lemma DemotionBeginsExactly(c: Config, s: State, e: Event)
    requires WellFormed(c) && Reachable(c, s)
    ensures EntersDemotion(c, s, e) <==> LostOwnReadyCommit(s, e)
  {
    ReachableInv(c, s);
    if e.Work? && e.w in s.workers {
      assert PcRows(s, s.workers[e.w]) && PcBucket(c, s, s.workers[e.w]);
    }
  }

  /** A report row is never removed, keeps its report id, and changes in one way: a durable demotion. */
  lemma ReportRowChangesOnlyByDemotion(c: Config, s: State, e: Event)
    requires WellFormed(c) && Reachable(c, s)
    requires s.report.Some?
    ensures var s' := Apply(c, s, e);
            && s'.report.Some? && s'.report.value.reportId == s.report.value.reportId
            && (s'.report != s.report <==> s.report.value.body.ReadyReport? && DemotesNow(s, e))
            && (s'.report != s.report ==> s'.report == Some(FailedOf(s.report.value)))
  {
    ReachableInv(c, s);
    if e.Work? && e.w in s.workers {
      assert PcRows(s, s.workers[e.w]);
    }
  }

  /** No attempt is in the middle of demoting a report. */
  predicate NoDemotionUnderWay(s: State) {
    forall w :: w in s.workers ==> !s.workers[w].Demoting? && !s.workers[w].Rereading?
  }

  ghost predicate SomeDemotionBegins(c: Config, s: State, es: seq<Event>)
    decreases |es|
  {
    es != [] && (LostOwnReadyCommit(s, es[0]) || SomeDemotionBegins(c, Apply(c, s, es[0]), es[1..]))
  }

  lemma DemotionStays(c: Config, s: State, e: Event)
    requires WellFormed(c) && Reachable(c, s) && NoDemotionUnderWay(s) && !LostOwnReadyCommit(s, e)
    ensures NoDemotionUnderWay(Apply(c, s, e))
  {
    DemotionBeginsExactly(c, s, e);
    ReachableInv(c, s);
    if e.Work? && e.w in s.workers {
      assert PcRows(s, s.workers[e.w]);
      RereadingFollowsDemotion(c, s, e.w, e.ch);
    }
  }

  lemma RereadingFollowsDemotion(c: Config, s: State, w: WorkerId, ch: Choice)
    requires w in s.workers && !s.workers[w].Demoting? && !s.workers[w].Rereading?
    requires s.workers[w].Discarding? ==> AfterCleanup(s.workers[w].after)
    ensures w in WorkerStep(c, s, w, ch).workers ==> !WorkerStep(c, s, w, ch).workers[w].Rereading?
  {
  }

  /** A ready report stays ready along every run in which no attempt meets its own lost ready commit unreadable. */
  lemma {:induction false} ReadyReportStays(c: Config, s: State, es: seq<Event>)
    requires WellFormed(c) && Reachable(c, s) && NoDemotionUnderWay(s) && s.report.Some?
    requires !SomeDemotionBegins(c, s, es)
    ensures Run(c, s, es).report == s.report
    decreases |es|
  {
    hide Reachable;
    if es != [] {
      ReportRowChangesOnlyByDemotion(c, s, es[0]);
      DemotionStays(c, s, es[0]);
      ReachableStep(c, s, es[0]);
      ReadyReportStays(c, Apply(c, s, es[0]), es[1..]);
    }
  }

  lemma ReachableStep(c: Config, s: State, e: Event)
    requires Reachable(c, s)
    ensures Reachable(c, Apply(c, s, e))
  {
    LeadsStep(c, INIT, s, e);
  }

  /** And as soon as one does, a single further step of that attempt can fail the report. */
  lemma LostReadyCommitCanFail(c: Config, s: State, e: Event) returns (e': Event)
    requires WellFormed(c) && Reachable(c, s) && LostOwnReadyCommit(s, e)
    ensures var s' := Apply(c, s, e);
            && s'.report == s.report && s.report.Some?
            && Apply(c, s', e').report == Some(FailedOf(s.report.value))
  {
    ReachableInv(c, s);
    assert PcRows(s, s.workers[e.w]);
    e' := Work(e.w, e.ch.(fault := false, commit := Acked));
    DemotionBeginsExactly(c, s, e);
    ReachableStep(c, s, e);
    ReportRowChangesOnlyByDemotion(c, s, e);
    ReportRowChangesOnlyByDemotion(c, Apply(c, s, e), e');
  }

  /** A report that readers may see is lost along a run exactly if the run contains a durable demotion of it. */
  lemma {:induction false} ReportIsLostIffDemoted(c: Config, s: State, es: seq<Event>)
    requires WellFormed(c) && Reachable(c, s) && s.report.Some? && s.report.value.body.ReadyReport?
    ensures Run(c, s, es).report != s.report <==> SomeDemotionLands(c, s, es)
    ensures Run(c, s, es).report in {s.report, Some(FailedOf(s.report.value))}
    decreases |es|
  {
    hide Reachable;
    if es != [] {
      ReportRowChangesOnlyByDemotion(c, s, es[0]);
      ReachableStep(c, s, es[0]);
      var s' := Apply(c, s, es[0]);
      if s'.report == s.report {
        ReportIsLostIffDemoted(c, s', es[1..]);
      } else {
        ReachableInv(c, s');
        FailedReportIsFrozen(c, s', es[1..]);
      }
    }
  }

  ghost predicate SomeDemotionLands(c: Config, s: State, es: seq<Event>)
    decreases |es|
  {
    es != [] && (DemotesNow(s, es[0]) || SomeDemotionLands(c, Apply(c, s, es[0]), es[1..]))
  }

  lemma {:induction false} FailedReportIsFrozen(c: Config, s: State, es: seq<Event>)
    requires WellFormed(c) && Inv(c, s)
    requires s.report.Some? && s.report.value.body.FailedReport?
    ensures Run(c, s, es).report == s.report
    decreases |es|
  {
    if es != [] {
      if es[0].Work? && es[0].w in s.workers {
        assert PcRows(s, s.workers[es[0].w]);
      }
      StepKeepsInv(c, s, es[0]);
      FailedReportIsFrozen(c, Apply(c, s, es[0]), es[1..]);
    }
  }

  // ---- Every attempt ends ----

  function Rank(pc: Pc): nat
    decreases pc
  {
    match pc
    case Opening => 40
    case Executing => 39
    case Deciding(_, _) => 38
    case Generating(_, _) => 37
    case HeadChecking(_, _, _, _, _) => 36
    case Retracting(_, _, _, _) => 35
    case Prepared(_, _, _) => 34
    case Discarding(_, after) => 1 + Rank(after)
    case Settling(_, _, _) => 32
    case Reconciling(_, _) => 31
    case FailingPair(_, _) => 29
    case ReconcilingFailed(_, _) => 28
    case Demoting(_, _, tries) => 8 + 2 * tries
    case Rereading(_, _, tries) => 7 + 2 * tries
    case Pairing(_, _) => 5
    case PairChecking(_, _) => 4
    case Filling(_, _) => 3
    case FillChecking(_, _) => 2
    case Handling => 1
    case Leaving(_) => 0
  }

  /** Each step brings the attempt closer to its end, whatever the environment chooses. */
  lemma AttemptsEnd(c: Config, s: State, w: WorkerId, ch: Choice)
    requires WellFormed(c) && Reachable(c, s)
    requires w in s.workers
    ensures Rank(s.workers[w]) <= 40
    ensures var s' := Apply(c, s, Work(w, ch));
            w in s'.workers ==> Rank(s'.workers[w]) < Rank(s.workers[w])
  {
    ReachableInv(c, s);
    assert PcRows(s, s.workers[w]);
    RankDrops(c, s, w, ch);
  }

  lemma RankDrops(c: Config, s: State, w: WorkerId, ch: Choice)
    requires w in s.workers && PcRows(s, s.workers[w])
    ensures Rank(s.workers[w]) <= 40
    ensures var s' := WorkerStep(c, s, w, ch);
            w in s'.workers ==> Rank(s'.workers[w]) < Rank(s.workers[w])
  {
    var pc := s.workers[w];
    if BeforePair(pc) {
      EarlyRankDrops(c, s, w, ch);
    } else if pc.Discarding? {
      DiscardRankDrops(c, s, w, ch);
    } else if pc.Settling? || pc.Reconciling? || pc.FailingPair? || pc.ReconcilingFailed? {
      MiddleRankDrops(c, s, w, ch);
    } else {
      assert pc.Demoting? || pc.Rereading? ==> 0 < pc.tries <= DEMOTION_TRIES;
      hide PcRows, WorkerStep;
      LateRankDrops(c, s, w, ch);
    }
  }

  predicate BeforePair(pc: Pc) {
    pc.Opening? || pc.Executing? || pc.Deciding? || pc.Generating? || pc.HeadChecking? || pc.Retracting? || pc.Prepared?
  }

  lemma EarlyRankDrops(c: Config, s: State, w: WorkerId, ch: Choice)
    requires w in s.workers && BeforePair(s.workers[w])
    ensures Rank(s.workers[w]) <= 40
    ensures var s' := WorkerStep(c, s, w, ch);
            w in s'.workers ==> Rank(s'.workers[w]) < Rank(s.workers[w])
  {
    hide SettleRefusal, Reconcile, Discard, Demote, Reread, Pair, PairCheck, FailPair, ReconcileFailed, Fill, FillCheck, Handle;
  }

  lemma DiscardRankDrops(c: Config, s: State, w: WorkerId, ch: Choice)
    requires w in s.workers && PcRows(s, s.workers[w]) && s.workers[w].Discarding?
    ensures Rank(s.workers[w]) <= 40
    ensures var s' := WorkerStep(c, s, w, ch);
            w in s'.workers ==> Rank(s'.workers[w]) < Rank(s.workers[w])
  {
    hide Open, Execute, Decide, Generate, HeadCheck, Retract, PersistPair;
    hide SettleRefusal, Reconcile, Demote, Reread, Pair, PairCheck, FailPair, ReconcileFailed, Fill, FillCheck, Handle;
  }

  lemma MiddleRankDrops(c: Config, s: State, w: WorkerId, ch: Choice)
    requires w in s.workers
    requires var pc := s.workers[w]; pc.Settling? || pc.Reconciling? || pc.FailingPair? || pc.ReconcilingFailed?
    ensures Rank(s.workers[w]) <= 40
    ensures var s' := WorkerStep(c, s, w, ch);
            w in s'.workers ==> Rank(s'.workers[w]) < Rank(s.workers[w])
  {
    hide Open, Execute, Decide, Generate, HeadCheck, Retract, PersistPair;
    hide Discard, Demote, Reread, Pair, PairCheck, Fill, FillCheck, Handle;
  }

  lemma LateRankDrops(c: Config, s: State, w: WorkerId, ch: Choice)
    requires w in s.workers && !BeforePair(s.workers[w])
    requires var pc := s.workers[w];
             !pc.Discarding? && !pc.Settling? && !pc.Reconciling? && !pc.FailingPair? && !pc.ReconcilingFailed?
    requires var pc := s.workers[w]; pc.Demoting? || pc.Rereading? ==> 0 < pc.tries <= DEMOTION_TRIES
    ensures Rank(s.workers[w]) <= 40
    ensures var s' := WorkerStep(c, s, w, ch);
            w in s'.workers ==> Rank(s'.workers[w]) < Rank(s.workers[w])
  {
    hide Open, Execute, Decide, Generate, HeadCheck, Retract, PersistPair, SettleRefusal, Reconcile, Discard, FailPair,
         ReconcileFailed;
  }
}

/**
 * The worker in the form the program has it: one attempt that holds the analysis lock and works on the
 * durable rows and the bucket in place. Each method is proved to take exactly the steps of the step
 * system; `FinalizationSafety.OwnerWritesAlone` is why nobody else's step falls between them.
 */
module FinalizationWorker {
  import opened Prelude
  import opened Lifecycle
  import opened Finalization
  import opened FinalizationInvariant

  /** The steps one attempt takes when the environment makes these choices. */
  function Attempt(c: Config, s: State, w: WorkerId, chs: seq<Choice>): State
    decreases |chs|
  {
    if chs == [] || w !in s.workers then s else Attempt(c, WorkerStep(c, s, w, chs[0]), w, chs[1..])
  }

  lemma {:induction false} AttemptConcat(c: Config, s: State, w: WorkerId, a: seq<Choice>, b: seq<Choice>)
    ensures Attempt(c, s, w, a + b) == Attempt(c, Attempt(c, s, w, a), w, b)
    decreases |a|
  {
    if a == [] {
      assert a + b == b;
    } else if w in s.workers {
      assert (a + b)[1..] == a[1..] + b;
      AttemptConcat(c, WorkerStep(c, s, w, a[0]), w, a[1..], b);
    } else {
      assert Attempt(c, s, w, a + b) == s && Attempt(c, s, w, a) == s;
    }
  }

  lemma {:induction false} AttemptKeepsInv(c: Config, s: State, w: WorkerId, chs: seq<Choice>)
    requires WellFormed(c) && Inv(c, s)
    ensures Inv(c, Attempt(c, s, w, chs))
    decreases |chs|
  {
    if chs != [] && w in s.workers {
      WorkKeepsInv(c, s, w, chs[0]);
      AttemptKeepsInv(c, WorkerStep(c, s, w, chs[0]), w, chs[1..]);
    }
  }

  class Worker {
    const c: Config
    const w: WorkerId
    const depth: nat         // how often its session has taken the lock
    const tape: seq<Choice>  // what the environment will answer, call by call
    var next: nat
    var analysis: Option<Row>
    var report: Option<Artifact>
    var bucket: map<string, Bytes>
    var pc: Pc               // where the attempt is, in the step system's names

    constructor (c: Config, w: WorkerId, depth: nat, tape: seq<Choice>, analysis: Option<Row>, report: Option<Artifact>,
                 bucket: map<string, Bytes>)
      ensures this.c == c && this.w == w && this.depth == depth && this.tape == tape && next == 0
      ensures pc == Opening && this.analysis == analysis && this.report == report && this.bucket == bucket
    {
      this.c, this.w, this.depth, this.tape, next := c, w, depth, tape, 0;
      this.analysis, this.report, this.bucket := analysis, report, bucket;
      pc := Opening;
    }

    ghost function View(): State
      reads this
    {
      var active: map<WorkerId, Pc> := map[w := pc];
      State(analysis, report, bucket, Some(w), active, depth)
    }

    ghost predicate Room(n: nat)
      reads this
    {
      next + n <= |tape|
    }

    /** Since `s0` at tape position `n0`, exactly the steps of the system were taken. */
    ghost predicate Since(s0: State, n0: nat)
      reads this
    {
      n0 <= next <= |tape| && View() == Attempt(c, s0, w, tape[n0..next])
    }

    lemma Extend(s0: State, n0: nat, s1: State, n1: nat)
      requires n0 <= n1 && n1 <= |tape| && s1 == Attempt(c, s0, w, tape[n0..n1])
      requires Since(s1, n1)
      ensures Since(s0, n0)
    {
      assert tape[n0..next] == tape[n0..n1] + tape[n1..next];
      AttemptConcat(c, s0, w, tape[n0..n1], tape[n1..next]);
    }

    /** One step, driven by the choice at tape position `n0`. */
    ghost predicate Stepped(s0: State, n0: nat)
      reads this
    {
      && n0 < |tape| && next == n0 + 1
      && w in s0.workers && View() == WorkerStep(c, s0, w, tape[n0])
    }

    lemma OneStep(s0: State, n0: nat)
      requires Stepped(s0, n0)
      ensures Since(s0, n0)
    {
      var chs := tape[n0..next];
      assert chs == [tape[n0]];
      assert Attempt(c, s0, w, chs) == Attempt(c, WorkerStep(c, s0, w, chs[0]), w, chs[1..]);
    }

    lemma ThenStep(s0: State, n0: nat, s1: State, n1: nat)
      requires n0 <= n1 <= |tape| && s1 == Attempt(c, s0, w, tape[n0..n1])
      requires Stepped(s1, n1)
      ensures Since(s0, n0)
    {
      OneStep(s1, n1);
      Extend(s0, n0, s1, n1);
    }

    lemma Begin(s0: State)
      requires next <= |tape| && View() == s0
      ensures Since(s0, next)
    {
      assert tape[next..next] == [];
    }

    method Ask() returns (ch: Choice)
      requires Room(1)
      modifies this`next
      ensures next == old(next) + 1 && ch == tape[old(next)]
    {
      ch := tape[next];
      next := next + 1;
    }

    method CommitRows(row: Option<Row>, art: Option<Artifact>, how: Commit) returns (acked: bool)
      modifies this`analysis, this`report
      ensures analysis == if how.Durable() then row else old(analysis)
      ensures report == if how.Durable() then art else old(report)
      ensures acked <==> how.Acked?
    {
      if how.Durable() {
        analysis, report := row, art;
      }
      return how.Acked?;
    }

    method DeleteObject(key: string, how: Commit)
      modifies this`bucket
      ensures bucket == if how.Durable() then old(bucket) - {key} else old(bucket)
    {
      if how.Durable() {
        bucket := bucket - {key};
      }
    }

    // ---- Report generation and cleanup ----

    /** Render and upload. `uploaded` is the flag of the same name: the put was acknowledged. */
    method RenderAndPut(body: Json, at: int) returns (uploaded: bool)
      requires Room(1) && pc == Generating(body, at)
      modifies this`next, this`bucket, this`pc
      ensures Stepped(old(View()), old(next))
      ensures uploaded <==> pc.HeadChecking?
      ensures pc.HeadChecking? || pc.Prepared? || pc == Leaving(Retry)
    {
      var ch := Ask();
      if ch.fault {
        pc := Leaving(Retry);
        return false;
      }
      pc := Prepared(body, at, Artifact(ch.reportId, ch.provenance, at, FailedReport));
      if ch.rendered.None? || !ValidPdf(c, ch.rendered.value) {
        return false;
      }
      var payload := ch.rendered.value;
      if ch.commit.Durable() {
        bucket := bucket[Key(c) := payload];
      }
      if ch.commit.Acked? {
        pc := HeadChecking(body, at, ch.reportId, ch.provenance, payload);
      }
      return ch.commit.Acked?;
    }

    method HeadObject() returns (matches: bool)
      requires Room(1) && pc.HeadChecking?
      modifies this`next, this`pc
      ensures Stepped(old(View()), old(next))
      ensures if matches then pc.Prepared? else pc.Retracting?
    {
      var ch := Ask();
      var key, payload := Key(c), pc.bytes;
      matches := !ch.headFault && key in bucket && |bucket[key]| == |payload| && (ch.mime.None? || ch.mime == Some(PDF_MIME));
      if matches {
        pc := Prepared(pc.body, pc.at,
                       Artifact(pc.reportId, pc.provenance, pc.at, ReadyReport(c.sha(payload), |payload|, PDF_MIME, key)));
      } else {
        pc := Retracting(pc.body, pc.at, pc.reportId, pc.provenance);
      }
    }

    method RetractObject()
      requires Room(1) && pc.Retracting?
      modifies this`next, this`bucket, this`pc
      ensures Stepped(old(View()), old(next))
      ensures pc.Prepared?
    {
      var ch := Ask();
      DeleteObject(Key(c), ch.commit);
      pc := Prepared(pc.body, pc.at, Artifact(pc.reportId, pc.provenance, pc.at, FailedReport));
    }

    /** `ReportArtifactGenerator.generate`: ends prepared, or raises before its own handler. */
    method GenerateArtifact(body: Json, at: int)
      requires Room(3) && pc == Generating(body, at)
      modifies this`next, this`bucket, this`pc
      ensures Since(old(View()), old(next)) && next <= old(next) + 3
      ensures pc.Prepared? || pc == Leaving(Retry)
    {
      ghost var s0, n0 := View(), next;
      var uploaded := RenderAndPut(body, at);
      OneStep(s0, n0);
      if uploaded {
        ghost var s1, n1 := View(), next;
        var matches := HeadObject();
        ThenStep(s0, n0, s1, n1);
        if !matches {
          ghost var s2, n2 := View(), next;
          RetractObject();
          ThenStep(s0, n0, s2, n2);
        }
      }
    }

    /** `ReportArtifactGenerator.compensate`. */
    method Compensate()
      requires Room(1) && pc.Discarding?
      modifies this`next, this`bucket, this`pc
      ensures Stepped(old(View()), old(next))
      ensures pc == old(pc.after)
    {
      var ch := Ask();
      if pc.art.body.ReadyReport? {
        DeleteObject(pc.art.body.storageKey, ch.commit);
      }
      pc := pc.after;
    }

    // ---- Failing a durable report ----

    /** One try: true when the row is failed for certain, false when the answer is not known. */
    method TryDemote(body: Json, art: Artifact, tries: nat) returns (certain: bool)
      requires Room(1) && pc == Demoting(body, art, tries)
      modifies this`next, this`analysis, this`report, this`pc
      ensures Stepped(old(View()), old(next))
      ensures if certain then pc == Discarding(art, Pairing(body, art)) || pc == Leaving(Retry)
              else pc == Rereading(body, art, tries)
    {
      var ch := Ask();
      if !ch.fault {
        if report.None? {
          pc := Leaving(Retry);
          return true;
        }
        var acked := true;
        if report.value.body.ReadyReport? {
          acked := CommitRows(analysis, Some(Demoted(report.value, art)), ch.commit);
        }
        if acked {
          pc := Discarding(art, Pairing(body, art));
          return true;
        }
      }
      pc := Rereading(body, art, tries);
      return false;
    }

    method RereadState(body: Json, art: Artifact, tries: nat) returns (settled: bool)
      requires Room(1) && pc == Rereading(body, art, tries) && tries > 0
      modifies this`next, this`pc
      ensures Stepped(old(View()), old(next))
      ensures if settled then pc == Discarding(art, Pairing(body, art)) || pc == Leaving(Retry)
              else if tries > 1 then pc == Demoting(body, art, tries - 1) else pc == Leaving(Retry)
    {
      var ch := Ask();
      if ch.fault {
        pc := Leaving(Retry);
        return true;
      }
      if report.Some? && report.value.body.FailedReport? {
        pc := Discarding(art, Pairing(body, art));
        return true;
      }
      pc := if tries > 1 then Demoting(body, art, tries - 1) else Leaving(Retry);
      return false;
    }

    /** The bounded loop of `_transition_resource_to_failed`. */
    method TransitionResourceToFailed(body: Json, art: Artifact)
      requires Room(6) && pc == Demoting(body, art, DEMOTION_TRIES)
      modifies this`next, this`analysis, this`report, this`pc
      ensures Since(old(View()), old(next)) && next <= old(next) + 6
      ensures pc == Discarding(art, Pairing(body, art)) || pc == Leaving(Retry)
    {
      ghost var s0, n0 := View(), next;
      Begin(s0);
      var tries: nat := DEMOTION_TRIES;
      while tries > 0
        invariant tries <= DEMOTION_TRIES
        invariant Since(s0, n0) && next <= n0 + 2 * (DEMOTION_TRIES - tries)
        invariant if tries > 0 then pc == Demoting(body, art, tries) else pc == Leaving(Retry)
      {
        ghost var s1, n1 := View(), next;
        var certain := TryDemote(body, art, tries);
        ThenStep(s0, n0, s1, n1);
        if certain { return; }
        ghost var s2, n2 := View(), next;
        var settled := RereadState(body, art, tries);
        ThenStep(s0, n0, s2, n2);
        if settled { return; }
        tries := tries - 1;
      }
    }

    // ---- Terminal pairs ----

    /** The transaction of `_persist_completed_report_pair`. */
    method PersistPairTransaction()
      requires Room(1) && pc.Prepared?
      modifies this`next, this`analysis, this`report, this`pc
      ensures Stepped(old(View()), old(next))
      ensures pc in {Handling, Leaving(Reports(Completed)), Reconciling(old(pc.body), old(pc.art))}
              || (pc.Discarding? && pc.after == Leaving(Missing))
              || (pc.Discarding? && pc.after.Settling? && pc.after.body == old(pc.body) && pc.after.art == old(pc.art))
    {
      var body, at, art := pc.body, pc.at, pc.art;
      var ch := Ask();
      if ch.fault {
        pc := Handling;
        return;
      }
      if analysis.None? {
        pc := Discarding(art, Leaving(Missing));
        return;
      }
      pc := Reconciling(body, art);
      match Complete(analysis.value, body, at)
      case Corrupt =>
      case Refused(row) => pc := Discarding(art, Settling(row, body, art));
      case Stored(row) =>
        if report.Some? && report.value != art { return; }
        var acked := CommitRows(Some(row), Some(art), ch.commit);
        if acked { pc := Leaving(Reports(Completed)); }
    }

    method SettleTransaction()
      requires Room(1) && pc.Settling?
      modifies this`next, this`analysis, this`report, this`pc
      ensures Stepped(old(View()), old(next))
      ensures pc == Leaving(Reports(old(pc.row).state)) || pc == Reconciling(old(pc.body), old(pc.art))
    {
      var row, body, art := pc.row, pc.body, pc.art;
      var ch := Ask();
      var acked := CommitRows(Some(row), report, ch.commit);
      pc := if acked then Leaving(Reports(row.state)) else Reconciling(body, art);
    }

    /** `_complete_analysis_with_failed_resource`: the transaction, then the check when it is ambiguous. */
    method CompleteWithFailedResource(body: Json, art: Artifact)
      requires Room(2) && pc == Pairing(body, art)
      modifies this`next, this`analysis, this`report, this`pc
      ensures Since(old(View()), old(next)) && next <= old(next) + 2
      ensures pc.Leaving?
    {
      ghost var s0, n0 := View(), next;
      PairTransaction(body, art);
      OneStep(s0, n0);
      if pc.PairChecking? {
        ghost var s1, n1 := View(), next;
        var ch := Ask();
        var durable := && !ch.fault
                       && analysis.Some? && analysis.value.state == Completed
                       && analysis.value.result == Some(body) && analysis.value.failure.None?
                       && report.Some? && report.value.body.FailedReport?;
        pc := Leaving(if durable then Reports(Completed) else Retry);
        ThenStep(s0, n0, s1, n1);
      }
    }

    method PairTransaction(body: Json, art: Artifact)
      requires Room(1) && pc == Pairing(body, art)
      modifies this`next, this`analysis, this`report, this`pc
      ensures Stepped(old(View()), old(next))
      ensures pc.Leaving? || pc == PairChecking(body, art)
    {
      var ch := Ask();
      pc := PairChecking(body, art);
      if ch.fault { return; }
      if analysis.None? {
        pc := Leaving(Missing);
      } else if analysis.value.state == Completed {
        pc := Leaving(if report.Some? then Reports(Completed) else Retry);
      } else if Terminal(analysis.value.state) {
        pc := Leaving(Reports(analysis.value.state));
      } else if report.None? || !report.value.body.FailedReport? {
        pc := Leaving(Retry);
      } else {
        match Complete(analysis.value, body, ch.now)
        case Corrupt =>
        case Refused(row) => pc := Leaving(Reports(row.state));
        case Stored(row) =>
          var acked := CommitRows(Some(row), report, ch.commit);
          if acked { pc := Leaving(Reports(Completed)); }
      }
    }

    /** `_persist_failed_report_fresh`, then the resource state it is judged by. */
    method PersistFailedReport(body: Json, art: Artifact)
      requires Room(2) && pc == Filling(body, art)
      modifies this`next, this`analysis, this`report, this`pc
      ensures Since(old(View()), old(next)) && next <= old(next) + 2
      ensures pc.Leaving?
    {
      ghost var s0, n0 := View(), next;
      FillTransaction(body, art);
      OneStep(s0, n0);
      ghost var s1, n1 := View(), next;
      ReadResourceState();
      ThenStep(s0, n0, s1, n1);
    }

    method FillTransaction(body: Json, art: Artifact)
      requires Room(1) && pc == Filling(body, art)
      modifies this`next, this`analysis, this`report, this`pc
      ensures Stepped(old(View()), old(next))
      ensures pc == FillChecking(body, art)
    {
      var ch := Ask();
      var failed := FailedOf(art);
      if !ch.fault && analysis.Some? && analysis.value.state == Completed && (report.None? || report.value == failed) {
        var _ := CommitRows(analysis, Some(failed), ch.commit);
      }
      pc := FillChecking(body, art);
    }

    method ReadResourceState()
      requires Room(1) && pc.FillChecking?
      modifies this`next, this`pc
      ensures Stepped(old(View()), old(next))
      ensures pc.Leaving?
    {
      var ch := Ask();
      pc := Leaving(if !ch.fault && report.Some? && report.value.body.FailedReport? then Reports(Completed) else Retry);
    }

    method FailedPairTransaction(body: Json, art: Artifact)
      requires Room(1) && pc == FailingPair(body, art)
      modifies this`next, this`analysis, this`report, this`pc
      ensures Stepped(old(View()), old(next))
      ensures pc.Leaving? || pc == ReconcilingFailed(body, FailedOf(art))
    {
      var ch := Ask();
      var failed := FailedOf(art);
      pc := ReconcilingFailed(body, failed);
      if ch.fault { return; }
      if analysis.None? {
        pc := Leaving(Missing);
      } else if analysis.value.state == Completed {
        pc := Leaving(if report.Some? then Reports(Completed) else Retry);
      } else if Terminal(analysis.value.state) {
        pc := Leaving(Reports(analysis.value.state));
      } else {
        match Complete(analysis.value, body, ch.now)
        case Corrupt =>
        case Refused(row) => pc := Leaving(Reports(row.state));
        case Stored(row) =>
          if report.Some? && report.value != failed { return; }
          var acked := CommitRows(Some(row), Some(failed), ch.commit);
          if acked { pc := Leaving(Reports(Completed)); }
      }
    }

    /** `_reconcile_paired_commit`: reads only. */
    method ReconcilePairedCommit(body: Json, art: Artifact, ch: Choice) returns (v: Verdict)
      ensures v == Classify(View(), body, art, ch)
    {
      if ch.fault { return Unknown; }
      if analysis.None? { return MissingVerdict; }
      var row := analysis.value;
      if row.state == Completed {
        if row.result != Some(body) || row.readiness.Some? || row.failure.Some? { return Conflict; }
        if report.None? { return CompletedMissing; }
        if report.value.reportId != art.reportId { return Conflict; }
        if report.value == art && art.body.ReadyReport? {
          var key := art.body.storageKey;
          var matches := !ch.headFault && key in bucket && |bucket[key]| == art.body.byteLength
                         && (ch.mime.None? || ch.mime == Some(PDF_MIME));
          return if matches then ReadyVerdict else ReadyInvalid;
        }
        return if report.value == FailedOf(art) then FailedVerdict else Conflict;
      }
      if !Terminal(row.state) {
        return if report.None? then Absent else Conflict;
      }
      return Conflict;
    }

    /** `_persist_failed_pair_fresh`. */
    method PersistFailedPair(body: Json, art: Artifact)
      requires Room(12) && pc == FailingPair(body, art)
      modifies this
      ensures Since(old(View()), old(next)) && next <= old(next) + 12
      ensures pc.Leaving?
    {
      ghost var s0, n0 := View(), next;
      FailedPairTransaction(body, art);
      OneStep(s0, n0);
      if pc.Leaving? { return; }
      ghost var s1, n1 := View(), next;
      var failed := FailedOf(art);
      var ch := Ask();
      var verdict := ReconcilePairedCommit(body, failed, ch);
      pc := match verdict
            case ReadyVerdict => Leaving(Reports(Completed))
            case FailedVerdict => Leaving(Reports(Completed))
            case Conflict => Demoting(body, failed, DEMOTION_TRIES)
            case CompletedMissing => Filling(body, failed)
            case _ => Leaving(Retry);
      ThenStep(s0, n0, s1, n1);
      ghost var s2, n2 := View(), next;
      if verdict == Conflict {
        Repair(body, failed);
        Extend(s0, n0, s2, n2);
      } else if verdict == CompletedMissing {
        PersistFailedReport(body, failed);
        Extend(s0, n0, s2, n2);
      }
    }

    /** Fail the durable report, remove its object, and pair it with the completed analysis. */
    method Repair(body: Json, art: Artifact)
      requires Room(9) && pc == Demoting(body, art, DEMOTION_TRIES)
      modifies this
      ensures Since(old(View()), old(next)) && next <= old(next) + 9
      ensures pc.Leaving?
    {
      ghost var s0, n0 := View(), next;
      TransitionResourceToFailed(body, art);
      if pc.Leaving? { return; }
      ghost var s1, n1 := View(), next;
      Compensate();
      ThenStep(s0, n0, s1, n1);
      ghost var s2, n2 := View(), next;
      CompleteWithFailedResource(body, art);
      Extend(s0, n0, s2, n2);
    }

    /** The repair part of `_persist_completed_report_pair`. */
    method ReconcileAndRepair(body: Json, art: Artifact)
      requires Room(14) && pc == Reconciling(body, art)
      modifies this
      ensures Since(old(View()), old(next)) && next <= old(next) + 14
      ensures pc.Leaving?
    {
      ghost var s0, n0 := View(), next;
      var ch := Ask();
      var verdict := ReconcilePairedCommit(body, art, ch);
      pc := match verdict
            case ReadyVerdict => Leaving(Reports(Completed))
            case FailedVerdict => Discarding(art, Leaving(Reports(Completed)))
            case ReadyInvalid => Demoting(body, art, DEMOTION_TRIES)
            case Conflict => Demoting(body, art, DEMOTION_TRIES)
            case CompletedMissing => Discarding(art, Filling(body, art))
            case MissingVerdict => Discarding(art, Leaving(Missing))
            case Absent => Discarding(art, FailingPair(body, art))
            case Unknown => Leaving(Retry);
      OneStep(s0, n0);
      if verdict == ReadyInvalid || verdict == Conflict {
        ghost var s1, n1 := View(), next;
        Repair(body, art);
        Extend(s0, n0, s1, n1);
      } else if pc.Discarding? {
        ghost var s1, n1 := View(), next;
        Compensate();
        ThenStep(s0, n0, s1, n1);
        ghost var s2, n2 := View(), next;
        if verdict == Absent {
          PersistFailedPair(body, art);
          Extend(s0, n0, s2, n2);
        } else if verdict == CompletedMissing {
          PersistFailedReport(body, art);
          Extend(s0, n0, s2, n2);
        }
      }
    }

    /** `_persist_completed_report_pair`; only a failing first read leaves it for the exception handler. */
    method PersistCompletedReportPair()
      requires Room(17) && pc.Prepared?
      modifies this
      ensures Since(old(View()), old(next)) && next <= old(next) + 17
      ensures pc.Leaving? || pc == Handling
    {
      ghost var s0, n0 := View(), next;
      PersistPairTransaction();
      OneStep(s0, n0);
      if pc.Discarding? {
        ghost var s1, n1 := View(), next;
        Compensate();
        ThenStep(s0, n0, s1, n1);
      }
      if pc.Settling? {
        ghost var s2, n2 := View(), next;
        SettleTransaction();
        ThenStep(s0, n0, s2, n2);
      }
      if pc.Reconciling? {
        ghost var s3, n3 := View(), next;
        ReconcileAndRepair(pc.body, pc.art);
        Extend(s0, n0, s3, n3);
      }
    }

    // ---- The whole attempt ----

    method OpenTransaction()
      requires Room(1) && pc == Opening
      modifies this`next, this`analysis, this`report, this`pc
      ensures Stepped(old(View()), old(next))
      ensures pc.Leaving? || pc in {Executing, Handling}
    {
      var ch := Ask();
      pc := Handling;
      if ch.fault { return; }
      if analysis.None? {
        pc := Leaving(Missing);
        return;
      }
      var row := analysis.value;
      if Terminal(row.state) {
        pc := Leaving(Reports(row.state));
      } else if row.successAt.None? && ch.now >= row.deadlineAt {
        var acked := CommitRows(Some(TimedOutRow(row, ch.now)), report, ch.commit);
        if acked { pc := Leaving(Reports(TimedOut)); }
      } else {
        var acked := CommitRows(Some(StartedRow(row, ch.now)), report, ch.commit);
        if acked { pc := Executing; }
      }
    }

    method OutcomeTransaction()
      requires Room(1) && pc.Deciding?
      modifies this`next, this`analysis, this`report, this`pc
      ensures Stepped(old(View()), old(next))
      ensures pc.Leaving? || pc == Handling || pc.Generating?
    {
      var outcome, at := pc.outcome, pc.at;
      var ch := Ask();
      pc := Handling;
      if ch.fault { return; }
      if analysis.None? {
        pc := Leaving(Missing);
        return;
      }
      var row := analysis.value;
      match outcome
      case NotReady(projection) =>
        if row.successAt.Some? {
          pc := Leaving(Retry);
        } else {
          var settled := NotReadyRow(row, projection, at);
          var acked := CommitRows(Some(settled), report, ch.commit);
          if acked { pc := Leaving(Reports(settled.state)); }
        }
      case Scored(body) =>
        match SuccessBoundary(row, at)
        case Broken =>
        case Leave => pc := Leaving(Reports(row.state));
        case Settle(settled) =>
          var acked := CommitRows(Some(settled), report, ch.commit);
          if acked { pc := Leaving(Reports(settled.state)); }
        case Protect(marked) =>
          var acked := CommitRows(Some(marked), report, ch.commit);
          if acked { pc := Generating(body, at); }
    }

    /** The `except Exception` block. */
    method HandleException()
      requires Room(1) && pc == Handling
      modifies this`next, this`analysis, this`report, this`pc
      ensures Stepped(old(View()), old(next))
      ensures pc.Leaving?
    {
      var ch := Ask();
      pc := Leaving(Raised);
      if ch.fault { return; }
      if analysis.None? {
        if ch.commit.Acked? { pc := Leaving(FailedWithoutRow); }
        return;
      }
      var row := analysis.value;
      if !Terminal(row.state) && row.successAt.Some? {
        pc := Leaving(Retry);
        return;
      }
      if !Terminal(row.state) {
        row := if ch.now >= row.deadlineAt then TimedOutRow(row, ch.now) else FailedRow(row, ch.now);
      }
      var acked := CommitRows(Some(row), report, ch.commit);
      if acked { pc := Leaving(Reports(row.state)); }
    }

    /** The `try` block of `execute_analysis`: it ends in an answer or with an exception to handle. */
    method TryExecute()
      requires Room(23) && pc == Opening
      modifies this
      ensures Since(old(View()), old(next)) && next <= old(next) + 23
      ensures pc.Leaving? || pc == Handling
    {
      ghost var s0, n0 := View(), next;
      OpenTransaction();
      OneStep(s0, n0);
      if pc != Executing { return; }
      ghost var s1, n1 := View(), next;
      var ch := Ask();
      pc := if ch.outcome.None? then Handling else Deciding(ch.outcome.value, ch.now);
      ThenStep(s0, n0, s1, n1);
      if pc == Handling { return; }
      ghost var s2, n2 := View(), next;
      OutcomeTransaction();
      ThenStep(s0, n0, s2, n2);
      if !pc.Generating? { return; }
      ghost var s3, n3 := View(), next;
      GenerateArtifact(pc.body, pc.at);
      Extend(s0, n0, s3, n3);
      if !pc.Prepared? { return; }
      ghost var s4, n4 := View(), next;
      PersistCompletedReportPair();
      Extend(s0, n0, s4, n4);
    }

    /**
     * `execute_analysis` up to the release of the lock. It takes exactly the steps of the step system,
     * keeps its invariant, and answers with a state only when that state is durable.
     */
    method ExecuteAnalysis() returns (answer: Answer)
      requires WellFormed(c) && Room(24) && pc == Opening && Inv(c, View())
      modifies this
      ensures Since(old(View()), old(next))
      ensures pc == Leaving(answer) && Inv(c, View())
      ensures answer.Reports? ==> analysis.Some? && analysis.value.state == answer.state && Terminal(answer.state)
      ensures answer == Reports(Completed) ==> report.Some? && Backed(c, bucket, report.value)
      ensures old(analysis).Some? && Terminal(old(analysis).value.state) ==> analysis == old(analysis)
    {
      ghost var s0, n0 := View(), next;
      TryExecute();
      if pc == Handling {
        ghost var s1, n1 := View(), next;
        HandleException();
        ThenStep(s0, n0, s1, n1);
      }
      hide Attempt;
      AttemptKeepsInv(c, s0, w, tape[n0..next]);
      if s0.analysis.Some? && Terminal(s0.analysis.value.state) {
        AttemptFreezesTerminal(c, s0, w, tape[n0..next]);
      }
      answer := pc.answer;
      hide WellFormed;
      LeavingIsDurable(c, View(), w);
    }
  }

  /** An answer about to be given is what the rows say. */
  lemma LeavingIsDurable(c: Config, s: State, w: WorkerId)
    requires Inv(c, s) && w in s.workers && s.workers[w].Leaving?
    ensures var answer := s.workers[w].answer;
            answer.Reports? ==> s.analysis.Some? && s.analysis.value.state == answer.state && Terminal(answer.state)
    ensures s.workers[w].answer == Reports(Completed) ==> s.report.Some? && Backed(c, s.bucket, s.report.value)
  {
    assert PcRows(s, s.workers[w]);
  }

  lemma {:induction false} AttemptFreezesTerminal(c: Config, s: State, w: WorkerId, chs: seq<Choice>)
    requires WellFormed(c) && Inv(c, s) && s.analysis.Some? && Terminal(s.analysis.value.state)
    ensures Attempt(c, s, w, chs).analysis == s.analysis
    decreases |chs|
  {
    if chs != [] && w in s.workers {
      assert PcRows(s, s.workers[w]);
      WorkKeepsInv(c, s, w, chs[0]);
      AttemptFreezesTerminal(c, WorkerStep(c, s, w, chs[0]), w, chs[1..]);
    }
  }
}

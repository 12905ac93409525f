/**
 * Analysis and report finalization as a step system: any number of worker attempts, poll and
 * reconciler timeouts, crashes, lost commit acknowledgements and other analyses' uploads,
 * interleaved in any order around one analysis (sitescore-api worker.py, report_artifacts.py).
 *
 * A step is one database transaction, one read, or one object-storage call. What the source cannot
 * control (clock readings, faults, rendered bytes, commit outcomes) is chosen by the event.
 *
 * Assumptions: a worker loses its advisory lock only when it stops; a commit, put or delete is
 * decided before the step after it; the bucket is written only by report workers.
 */
module Finalization {
  import opened Prelude
  import opened Lifecycle

  newtype byte = x: int | 0 <= x < 256
  type Bytes = seq<byte>
  type WorkerId = int

  const PDF_MAGIC: Bytes := [0x25, 0x50, 0x44, 0x46, 0x2d]
  const ARTIFACT_VERSION := "sitescore-report-artifact-v1"
  const PDF_MIME := "application/pdf"
  const DEMOTION_TRIES: nat := 3

  /** `consumer` and `analysis` are UUID texts; `sha` is SHA-256 in hex, never inspected. */
  datatype Config = Config(consumer: string, analysis: string, maxBytes: nat, sha: Bytes -> string)

  predicate UuidText(s: string) {
    '/' !in s
  }

  predicate WellFormed(c: Config) {
    UuidText(c.consumer) && UuidText(c.analysis)
  }

  function StorageKey(consumer: string, analysis: string): string {
    Path("reports/", consumer, analysis, ARTIFACT_VERSION + ".pdf")
  }

  function Path(prefix: string, consumer: string, analysis: string, leaf: string): string {
    prefix + consumer + "/" + analysis + "/" + leaf
  }

  function Key(c: Config): string {
    StorageKey(c.consumer, c.analysis)
  }

  // ---- Report rows and prepared artifacts ----

  datatype ReportBody =
    | ReadyReport(sha256: string, byteLength: nat, mime: string, storageKey: string)
    | FailedReport

  /** A prepared artifact, and equally the report row that stores exactly its fields. */
  datatype Artifact = Artifact(reportId: nat, provenance: nat, generatedAt: int, body: ReportBody)

  function FailedOf(a: Artifact): Artifact {
    a.(body := FailedReport)
  }

  /** The row after it was failed in favour of `candidate`: only the durable report id survives. */
  function Demoted(row: Artifact, candidate: Artifact): Artifact {
    FailedOf(candidate).(reportId := row.reportId)
  }

  predicate ValidPdf(c: Config, bytes: Bytes) {
    PDF_MAGIC <= bytes && |bytes| <= c.maxBytes
  }

  /** The object in the bucket is the one this row promises. */
  predicate Backed(c: Config, bucket: map<string, Bytes>, a: Artifact) {
    a.body.ReadyReport? ==>
      && a.body.storageKey == Key(c)
      && a.body.mime == PDF_MIME
      && Key(c) in bucket
      && ValidPdf(c, bucket[Key(c)])
      && a.body.sha256 == c.sha(bucket[Key(c)])
      && a.body.byteLength == |bucket[Key(c)]|
  }

  // ---- Worker-local state ----

  datatype Outcome = Scored(body: Json) | NotReady(projection: Json)

  datatype Answer =
    | Reports(state: Status)
    | Missing
    | FailedWithoutRow
    | Retry   // RetryableReportFinalization: the job is queued again
    | Raised  // another exception leaves the attempt

  /** Where an attempt is: each constructor names the step it takes next. */
  datatype Pc =
    | Opening
    | Executing
    | Deciding(outcome: Outcome, at: int)
    | Generating(body: Json, at: int)
    | HeadChecking(body: Json, at: int, reportId: nat, provenance: nat, bytes: Bytes)
    | Retracting(body: Json, at: int, reportId: nat, provenance: nat)
    | Prepared(body: Json, at: int, art: Artifact)
    | Settling(row: Row, body: Json, art: Artifact)
    | Reconciling(body: Json, art: Artifact)
    | Discarding(art: Artifact, after: Pc)
    | Demoting(body: Json, art: Artifact, tries: nat)
    | Rereading(body: Json, art: Artifact, tries: nat)
    | Pairing(body: Json, art: Artifact)
    | PairChecking(body: Json, art: Artifact)
    | FailingPair(body: Json, art: Artifact)
    | ReconcilingFailed(body: Json, art: Artifact)
    | Filling(body: Json, art: Artifact)
    | FillChecking(body: Json, art: Artifact)
    | Handling
    | Leaving(answer: Answer)

  /** Everything a step leaves to the environment; each step reads only the parts it needs. */
  datatype Choice = Choice(
    now: int,
    fault: bool,               // the database read that opens the step raises
    headFault: bool,           // the storage metadata read raises
    commit: Commit,            // how the step's commit, put or delete ends
    outcome: Option<Outcome>,  // None: canonical execution raises
    rendered: Option<Bytes>,   // None: building or rendering the report raises
    mime: Option<string>,      // content type the storage reports
    reportId: nat,
    provenance: nat)

  /** `lock` is the session that holds the advisory lock, `depth` how often it has taken it. */
  datatype State = State(
    analysis: Option<Row>,
    report: Option<Artifact>,
    bucket: map<string, Bytes>,
    lock: Option<WorkerId>,
    workers: map<WorkerId, Pc>,
    depth: nat)

  const INIT := State(None, None, map[], None, map[], 0)

  function Go(s: State, w: WorkerId, pc: Pc): State {
    s.(workers := s.workers[w := pc])
  }

  /** Commit `next`: continue at `acked` if the acknowledgement arrives and at `raised` otherwise. */
  function Transact(s: State, next: State, w: WorkerId, commit: Commit, acked: Pc, raised: Pc): State {
    match commit
    case Acked => Go(next, w, acked)
    case AckLost => Go(next, w, raised)
    case Dropped => Go(s, w, raised)
  }

  function Delete(s: State, key: string, commit: Commit): State {
    if commit.Durable() then s.(bucket := s.bucket - {key}) else s
  }

  // ---- The worker's steps ----

  function Open(s: State, w: WorkerId, ch: Choice): State {
    if ch.fault then Go(s, w, Handling)
    else if s.analysis.None? then Go(s, w, Leaving(Missing))
    else
      var r := s.analysis.value;
      if Terminal(r.state) then Go(s, w, Leaving(Reports(r.state)))
      else if r.successAt.None? && ch.now >= r.deadlineAt then
        Transact(s, s.(analysis := Some(TimedOutRow(r, ch.now))), w, ch.commit, Leaving(Reports(TimedOut)), Handling)
      else
        Transact(s, s.(analysis := Some(StartedRow(r, ch.now))), w, ch.commit, Executing, Handling)
  }

  function Execute(s: State, w: WorkerId, ch: Choice): State {
    Go(s, w, if ch.outcome.None? then Handling else Deciding(ch.outcome.value, ch.now))
  }

  function Decide(s: State, w: WorkerId, o: Outcome, at: int, ch: Choice): State {
    if ch.fault then Go(s, w, Handling)
    else if s.analysis.None? then Go(s, w, Leaving(Missing))
    else
      var r := s.analysis.value;
      match o
      case NotReady(projection) =>
        if r.successAt.Some? then Go(s, w, Leaving(Retry))
        else
          var row := NotReadyRow(r, projection, at);
          Transact(s, s.(analysis := Some(row)), w, ch.commit, Leaving(Reports(row.state)), Handling)
      case Scored(body) =>
        match SuccessBoundary(r, at)
        case Broken => Go(s, w, Handling)
        case Leave => Go(s, w, Leaving(Reports(r.state)))
        case Settle(row) =>
          Transact(s, s.(analysis := Some(row)), w, ch.commit, Leaving(Reports(row.state)), Handling)
        case Protect(row) =>
          Transact(s, s.(analysis := Some(row)), w, ch.commit, Generating(body, at), Handling)
  }

  function Generate(c: Config, s: State, w: WorkerId, body: Json, at: int, ch: Choice): State {
    var failed := Prepared(body, at, Artifact(ch.reportId, ch.provenance, at, FailedReport));
    if ch.fault then Go(s, w, Leaving(Retry))
    else if ch.rendered.None? || !ValidPdf(c, ch.rendered.value) then Go(s, w, failed)
    else
      var bytes := ch.rendered.value;
      Transact(s, s.(bucket := s.bucket[Key(c) := bytes]), w, ch.commit,
               HeadChecking(body, at, ch.reportId, ch.provenance, bytes), failed)
  }

  predicate HeadMatches(s: State, key: string, byteLength: nat, ch: Choice) {
    && !ch.headFault
    && key in s.bucket
    && |s.bucket[key]| == byteLength
    && (ch.mime.None? || ch.mime == Some(PDF_MIME))
  }

  function HeadCheck(c: Config, s: State, w: WorkerId, body: Json, at: int, id: nat, prov: nat, bytes: Bytes,
                     ch: Choice): State {
    Go(s, w,
       if HeadMatches(s, Key(c), |bytes|, ch) then
         Prepared(body, at, Artifact(id, prov, at, ReadyReport(c.sha(bytes), |bytes|, PDF_MIME, Key(c))))
       else Retracting(body, at, id, prov))
  }

  function Retract(c: Config, s: State, w: WorkerId, body: Json, at: int, id: nat, prov: nat, ch: Choice): State {
    Go(Delete(s, Key(c), ch.commit), w, Prepared(body, at, Artifact(id, prov, at, FailedReport)))
  }

  /** Whether `persist_report_artifact` plus the equality test accept the stored row for `art`. */
  predicate Insertable(s: State, art: Artifact) {
    s.report.None? || s.report.value == art
  }

  function PersistPair(s: State, w: WorkerId, body: Json, at: int, art: Artifact, ch: Choice): State {
    if ch.fault then Go(s, w, Handling)
    else if s.analysis.None? then Go(s, w, Discarding(art, Leaving(Missing)))
    else
      match Complete(s.analysis.value, body, at)
      case Corrupt => Go(s, w, Reconciling(body, art))
      case Refused(row) => Go(s, w, Discarding(art, Settling(row, body, art)))
      case Stored(row) =>
        if !Insertable(s, art) then Go(s, w, Reconciling(body, art))
        else Transact(s, s.(analysis := Some(row), report := Some(art)), w, ch.commit,
                      Leaving(Reports(Completed)), Reconciling(body, art))
  }

  function SettleRefusal(s: State, w: WorkerId, row: Row, body: Json, art: Artifact, ch: Choice): State {
    Transact(s, s.(analysis := Some(row)), w, ch.commit, Leaving(Reports(row.state)), Reconciling(body, art))
  }

  datatype Verdict =
    | ReadyVerdict | ReadyInvalid | FailedVerdict | Conflict | CompletedMissing | MissingVerdict | Absent | Unknown

  function Classify(s: State, body: Json, art: Artifact, ch: Choice): Verdict {
    if ch.fault then Unknown
    else if s.analysis.None? then MissingVerdict
    else
      var r := s.analysis.value;
      if r.state == Completed then
        if r.result != Some(body) || r.readiness.Some? || r.failure.Some? then Conflict
        else if s.report.None? then CompletedMissing
        else if s.report.value.reportId != art.reportId then Conflict
        else if s.report.value == art && art.body.ReadyReport? then
          if HeadMatches(s, art.body.storageKey, art.body.byteLength, ch) then ReadyVerdict else ReadyInvalid
        else if s.report.value == FailedOf(art) then FailedVerdict
        else Conflict
      else if !Terminal(r.state) then if s.report.None? then Absent else Conflict
      else Conflict
  }

  function Reconcile(s: State, w: WorkerId, body: Json, art: Artifact, ch: Choice): State {
    Go(s, w,
       match Classify(s, body, art, ch)
       case ReadyVerdict => Leaving(Reports(Completed))
       case FailedVerdict => Discarding(art, Leaving(Reports(Completed)))
       case ReadyInvalid => Demoting(body, art, DEMOTION_TRIES)
       case Conflict => Demoting(body, art, DEMOTION_TRIES)
       case CompletedMissing => Discarding(art, Filling(body, art))
       case MissingVerdict => Discarding(art, Leaving(Missing))
       case Absent => Discarding(art, FailingPair(body, art))
       case Unknown => Leaving(Retry))
  }

  function Discard(s: State, w: WorkerId, art: Artifact, after: Pc, ch: Choice): State {
    Go(if art.body.ReadyReport? then Delete(s, art.body.storageKey, ch.commit) else s, w, after)
  }

  function Demote(s: State, w: WorkerId, body: Json, art: Artifact, tries: nat, ch: Choice): State {
    if ch.fault then Go(s, w, Rereading(body, art, tries))
    else if s.report.None? then Go(s, w, Leaving(Retry))
    else if s.report.value.body.FailedReport? then Go(s, w, Discarding(art, Pairing(body, art)))
    else Transact(s, s.(report := Some(Demoted(s.report.value, art))), w, ch.commit,
                  Discarding(art, Pairing(body, art)), Rereading(body, art, tries))
  }

  function Reread(s: State, w: WorkerId, body: Json, art: Artifact, tries: nat, ch: Choice): State {
    Go(s, w,
       if ch.fault then Leaving(Retry)
       else if s.report.Some? && s.report.value.body.FailedReport? then Discarding(art, Pairing(body, art))
       else if tries > 1 then Demoting(body, art, tries - 1)
       else Leaving(Retry))
  }

  function Pair(s: State, w: WorkerId, body: Json, art: Artifact, ch: Choice): State {
    if ch.fault then Go(s, w, PairChecking(body, art))
    else if s.analysis.None? then Go(s, w, Leaving(Missing))
    else
      var r := s.analysis.value;
      if r.state == Completed then Go(s, w, Leaving(if s.report.Some? then Reports(Completed) else Retry))
      else if Terminal(r.state) then Go(s, w, Leaving(Reports(r.state)))
      else if s.report.None? || !s.report.value.body.FailedReport? then Go(s, w, Leaving(Retry))
      else
        match Complete(r, body, ch.now)
        case Corrupt => Go(s, w, PairChecking(body, art))
        case Refused(row) => Go(s, w, Leaving(Reports(row.state)))
        case Stored(row) =>
          Transact(s, s.(analysis := Some(row)), w, ch.commit, Leaving(Reports(Completed)), PairChecking(body, art))
  }

  function PairCheck(s: State, w: WorkerId, body: Json, ch: Choice): State {
    Go(s, w, Leaving(
         if && !ch.fault
            && s.analysis.Some? && s.analysis.value.state == Completed
            && s.analysis.value.result == Some(body) && s.analysis.value.failure.None?
            && s.report.Some? && s.report.value.body.FailedReport?
         then Reports(Completed) else Retry))
  }

  function FailPair(s: State, w: WorkerId, body: Json, art: Artifact, ch: Choice): State {
    var failed := FailedOf(art);
    if ch.fault then Go(s, w, ReconcilingFailed(body, failed))
    else if s.analysis.None? then Go(s, w, Leaving(Missing))
    else
      var r := s.analysis.value;
      if r.state == Completed then Go(s, w, Leaving(if s.report.Some? then Reports(Completed) else Retry))
      else if Terminal(r.state) then Go(s, w, Leaving(Reports(r.state)))
      else
        match Complete(r, body, ch.now)
        case Corrupt => Go(s, w, ReconcilingFailed(body, failed))
        case Refused(row) => Go(s, w, Leaving(Reports(row.state)))
        case Stored(row) =>
          if !Insertable(s, failed) then Go(s, w, ReconcilingFailed(body, failed))
          else Transact(s, s.(analysis := Some(row), report := Some(failed)), w, ch.commit,
                        Leaving(Reports(Completed)), ReconcilingFailed(body, failed))
  }

  function ReconcileFailed(s: State, w: WorkerId, body: Json, art: Artifact, ch: Choice): State {
    Go(s, w,
       match Classify(s, body, art, ch)
       case ReadyVerdict => Leaving(Reports(Completed))
       case FailedVerdict => Leaving(Reports(Completed))
       case Conflict => Demoting(body, art, DEMOTION_TRIES)
       case CompletedMissing => Filling(body, art)
       case ReadyInvalid => Leaving(Retry)
       case MissingVerdict => Leaving(Retry)
       case Absent => Leaving(Retry)
       case Unknown => Leaving(Retry))
  }

  function Fill(s: State, w: WorkerId, body: Json, art: Artifact, ch: Choice): State {
    var next := FillChecking(body, art);
    if ch.fault || s.analysis.None? || s.analysis.value.state != Completed || !Insertable(s, FailedOf(art)) then
      Go(s, w, next)
    else
      Transact(s, s.(report := Some(FailedOf(art))), w, ch.commit, next, next)
  }

  function FillCheck(s: State, w: WorkerId, ch: Choice): State {
    Go(s, w, Leaving(
         if !ch.fault && s.report.Some? && s.report.value.body.FailedReport? then Reports(Completed) else Retry))
  }

  function Handle(s: State, w: WorkerId, ch: Choice): State {
    if ch.fault then Go(s, w, Leaving(Raised))
    else if s.analysis.None? then
      Transact(s, s, w, ch.commit, Leaving(FailedWithoutRow), Leaving(Raised))
    else
      var r := s.analysis.value;
      if !Terminal(r.state) && r.successAt.Some? then Go(s, w, Leaving(Retry))
      else
        var row := if Terminal(r.state) then r
                   else if ch.now >= r.deadlineAt then TimedOutRow(r, ch.now)
                   else FailedRow(r, ch.now);
        Transact(s, s.(analysis := Some(row)), w, ch.commit, Leaving(Reports(row.state)), Leaving(Raised))
  }

  /**
   * The `finally` block. An unlock that raises leaves the lock with the idle pooled connection, and a
   * session that had taken the lock before keeps it after one unlock.
   */
  function Leave(s: State, w: WorkerId, ch: Choice): State {
    if ch.fault then s.(workers := s.workers - {w})
    else if s.depth > 1 then s.(workers := s.workers - {w}, depth := s.depth - 1)
    else s.(workers := s.workers - {w}, lock := None, depth := 0)
  }

  function WorkerStep(c: Config, s: State, w: WorkerId, ch: Choice): State
    requires w in s.workers
  {
    match s.workers[w]
    case Opening => Open(s, w, ch)
    case Executing => Execute(s, w, ch)
    case Deciding(o, at) => Decide(s, w, o, at, ch)
    case Generating(body, at) => Generate(c, s, w, body, at, ch)
    case HeadChecking(body, at, id, prov, bytes) => HeadCheck(c, s, w, body, at, id, prov, bytes, ch)
    case Retracting(body, at, id, prov) => Retract(c, s, w, body, at, id, prov, ch)
    case Prepared(body, at, art) => PersistPair(s, w, body, at, art, ch)
    case Settling(row, body, art) => SettleRefusal(s, w, row, body, art, ch)
    case Reconciling(body, art) => Reconcile(s, w, body, art, ch)
    case Discarding(art, after) => Discard(s, w, art, after, ch)
    case Demoting(body, art, tries) => Demote(s, w, body, art, tries, ch)
    case Rereading(body, art, tries) => Reread(s, w, body, art, tries, ch)
    case Pairing(body, art) => Pair(s, w, body, art, ch)
    case PairChecking(body, art) => PairCheck(s, w, body, ch)
    case FailingPair(body, art) => FailPair(s, w, body, art, ch)
    case ReconcilingFailed(body, art) => ReconcileFailed(s, w, body, art, ch)
    case Filling(body, art) => Fill(s, w, body, art, ch)
    case FillChecking(body, art) => FillCheck(s, w, ch)
    case Handling => Handle(s, w, ch)
    case Leaving(_) => Leave(s, w, ch)
  }

  // ---- Events and runs ----

  datatype Event =
    | Submit(now: int, deadlineSeconds: int)
    | Start(w: WorkerId)
    | Work(w: WorkerId, ch: Choice)
    | Crash(w: WorkerId)
    | CloseIdleConnection              // frees a lock whose holder has already stopped
    | Poll(now: int)                   // retrieve, or one row of reconcile_expired
    | ForeignWrite(consumer: string, analysis: string, stored: Option<Bytes>)

  /** Start answers "busy" when another session holds the advisory lock; the same idle session re-enters it. */
  predicate Startable(s: State, w: WorkerId) {
    w !in s.workers && (s.lock.None? || s.lock == Some(w))
  }

  /** Events that are not enabled leave the state alone. */
  function Apply(c: Config, s: State, e: Event): State {
    match e
    case Submit(now, seconds) =>
      if s.analysis.None? then s.(analysis := Some(NewRow(now, seconds))) else s
    case Start(w) =>
      if Startable(s, w) then Go(s, w, Opening).(lock := Some(w), depth := s.depth + 1) else s
    case Work(w, ch) =>
      if w in s.workers then WorkerStep(c, s, w, ch) else s
    case Crash(w) =>
      if w in s.workers then s.(workers := s.workers - {w}, lock := None, depth := 0) else s
    case CloseIdleConnection =>
      if s.lock.Some? && s.lock.value !in s.workers then s.(lock := None, depth := 0) else s
    case Poll(now) =>
      if s.lock.None? && s.analysis.Some? then s.(analysis := Some(PolledRow(s.analysis.value, now))) else s
    case ForeignWrite(consumer, analysis, stored) =>
      if UuidText(consumer) && UuidText(analysis) && (consumer, analysis) != (c.consumer, c.analysis) then
        var key := StorageKey(consumer, analysis);
        s.(bucket := if stored.Some? then s.bucket[key := stored.value] else s.bucket - {key})
      else s
  }

  function Run(c: Config, s: State, es: seq<Event>): State
    decreases |es|
  {
    if es == [] then s else Run(c, Apply(c, s, es[0]), es[1..])
  }
}

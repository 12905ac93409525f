/** The inductive invariant of fulfillment, over every interleaving of its calls. */
module FulfillmentInvariant {
  import opened Prelude
  import opened Orders
  import opened Fulfillment
  import opened FulfillmentProtocol

  // ---- Rows ----

  predicate BindingOk(c: Config, b: Binding) {
    && b.key == AnalysisKey(c.settings) && b.request == c.settings.request
    && (b.analysisId.Some? <==> b.analysisState.Some?)
    && (b.reportId.Some? <==> b.reportState.Some?)
    && (b.analysisId.Some? ==> TrueAnalysis(c, b.analysisId.value, b.analysisState.value))
    && (b.reportId.Some? ==>
          && b.analysisId.Some? && c.analysisEnd(b.analysisId.value) == ACompleted
          && TrueReport(c, ReportEvidence(b.reportId.value, b.analysisId.value, b.reportState.value)))
  }

  /** The provider's final word about what is bound is a finished, readable report. */
  predicate Deliverable(c: Config, b: Binding) {
    && b.analysisId.Some? && c.analysisEnd(b.analysisId.value) == ACompleted
    && b.reportId.Some? && (c.reportsStay ==> c.reportEnd(b.reportId.value) == RReady)
  }

  /** The provider's final word about what is bound is the failure this refund reason names. */
  predicate Entitled(c: Config, b: Binding, reason: Reason, resource: Resource) {
    match resource
    case TheAnalysis(id) => b.analysisId == Some(id) && AnalysisEnd(reason) == Some(c.analysisEnd(id))
    case TheReport(id) => b.reportId == Some(id) && reason.BecauseReportFailed? && (c.reportsStay ==> c.reportEnd(id) == RFailed)
  }

  predicate RefundOk(c: Config, r: Refund, e: Eligibility, intent: Option<string>) {
    && c.received > 0
    && intent == Some(r.operation.intent)
    && r.operation == Operation(e.reason, e.resource, r.operation.intent, c.received, USD)
    && (r.refundId.Some? <==> r.status.Some?)
    && (r.refundId.Some? ==> r.amount == Some(c.received) && r.status != Some(Unknown))
  }

  predicate AttemptOk(a: Attempt, i: nat, reportId: Id) {
    && a.number == i + 1
    && a.reportId == reportId && a.grant.reportId == reportId
    && (a.status == Accepted ==> a.messageId.Some?)
  }

  predicate AttemptsOk(attempts: seq<Attempt>, reportId: Id) {
    && |attempts| <= MAX_ATTEMPTS
    && forall i :: 0 <= i < |attempts| ==> AttemptOk(attempts[i], i, reportId)
  }

  predicate HasAccepted(attempts: seq<Attempt>) {
    exists i :: 0 <= i < |attempts| && attempts[i].status == Accepted
  }

  predicate UnboundOk(db: Rows) {
    && db.eligibility.None? && db.refund.None? && db.attempts == []
    && db.order.fulfillment == NotStarted
    && match db.order.state
       case PendingPayment => db.order.payment == PayPending
       case Expired => db.order.payment == PayExpired
       case Paid => db.order.payment == PayPaid
       case _ => false
  }

  predicate BoundOk(c: Config, db: Rows, b: Binding) {
    && BindingOk(c, b)
    && db.order.state in {FulfillmentInProgress, Fulfilled, AttentionRequired, Refunded}
    && db.order.payment in {PayPaid, RefundPending, PayRefunded, RefundFailed}
    && (db.eligibility.Some? ==> Entitled(c, b, db.eligibility.value.reason, db.eligibility.value.resource))
    && (db.refund.Some? ==> db.eligibility.Some? && RefundOk(c, db.refund.value, db.eligibility.value, db.paymentIntent))
    && (db.attempts != [] ==> Deliverable(c, b) && AttemptsOk(db.attempts, b.reportId.value))
    && (db.order.state == Fulfilled ==>
          && (c.reportsStay ==> db.order.payment == PayPaid)
          && db.order.fulfillment == Delivered && HasAccepted(db.attempts))
    && (db.order.fulfillment in {Delivered, DeliveryFailed} ==> db.attempts != [])
    && (db.order.state == Refunded || db.order.payment != PayPaid ==> db.eligibility.Some?)
    && (db.order.state == Refunded ==> db.order.payment in {RefundPending, PayRefunded})
  }

  predicate RowsOk(c: Config, db: Rows) {
    if db.binding.None? then UnboundOk(db) else BoundOk(c, db, db.binding.value)
  }

  // ---- Providers and calls ----

  predicate OurRefundOk(c: Config, r: RefundEvidence, op: Operation) {
    r.amount == c.received && r.intent == op.intent && r.currency == op.currency && r.metadata == Metadata(c.settings, op)
  }

  predicate ProviderOk(c: Config, db: Rows, refunds: seq<ProviderRefund>) {
    && (forall i, j :: 0 <= i < |refunds| && 0 <= j < |refunds| && refunds[i].ours && refunds[j].ours ==> i == j)
    && (forall i :: 0 <= i < |refunds| && refunds[i].ours ==>
          && db.refund.Some?
          && OurRefundOk(c, refunds[i].evidence, db.refund.value.operation)
          && OurRefundOk(c, refunds[i].answer, db.refund.value.operation))
  }

  predicate HasOperation(db: Rows, op: Operation) {
    db.refund.Some? && db.refund.value.operation == op
  }

  predicate BoundAnalysis(db: Rows, id: Id) {
    db.binding.Some? && db.binding.value.analysisId == Some(id)
  }

  predicate BoundReport(db: Rows, id: Id) {
    db.binding.Some? && db.binding.value.reportId == Some(id)
  }

  predicate AdvanceOk(c: Config, db: Rows, pc: Advance) {
    match pc
    case Submitting(key, request, _) => db.binding.Some? && key == AnalysisKey(c.settings) && request == c.settings.request
    case BindingAnalysis(ev) => db.binding.Some? && TrueAnalysis(c, ev.id, ev.state)
    case PollingAnalysis(id) => BoundAnalysis(db, id)
    case ResolvingReport(id) => BoundAnalysis(db, id)
    case GettingReport(report, id) => BoundAnalysis(db, id) && BoundReport(db, report)
    case BindingReport(ev) =>
      BoundAnalysis(db, ev.analysis) && TrueReport(c, ev)
    case ReprovingAnalysis(_, id) => BoundAnalysis(db, id)
    case ReprovingReport(reason, report, of) =>
      BoundReport(db, report) && reason.BecauseReportFailed? && of.Some? && BoundAnalysis(db, of.value)
    case Claiming(reason, resource) => db.binding.Some? && Entitled(c, db.binding.value, reason, resource)
    case LoadingRefund => db.eligibility.Some?
    case RetrievingIntent(_) => db.eligibility.Some?
    case PreparingRefund(money) => db.eligibility.Some? && money.amountReceived == c.received
    case ListingRefunds(op) => HasOperation(db, op)
    case CreatingRefund(op) => HasOperation(db, op)
    case BindingRefund(op, _, _) => HasOperation(db, op)
    case Flagging(_, _) => db.eligibility.Some?
    case _ => true
  }

  /** The attempt a delivery call has prepared and not yet recorded. */
  function Holds(pc: Deliver): Option<nat> {
    match pc
    case Dispatching(i) => Some(i)
    case Sending(i) => Some(i)
    case Recording(i, _) => Some(i)
    case _ => None
  }

  predicate DeliverOk(db: Rows, mails: seq<nat>, pc: Deliver) {
    && (Holds(pc).Some? ==> Holds(pc).value < |db.attempts|)
    && (pc.Dispatching? || pc.Sending? ==> Holds(pc).value !in mails)
  }

  /** Calls hold different attempts, and every mail belongs to an attempt of its own. */
  predicate MailsOk(db: Rows, mails: seq<nat>, deliveries: map<int, Deliver>) {
    && (forall i, j :: 0 <= i < |mails| && 0 <= j < |mails| && mails[i] == mails[j] ==> i == j)
    && (forall i :: 0 <= i < |mails| ==> mails[i] < |db.attempts|)
    && (forall t :: t in deliveries ==> DeliverOk(db, mails, deliveries[t]))
    && (forall t, u ::
          t in deliveries && u in deliveries && Holds(deliveries[t]).Some? && Holds(deliveries[t]) == Holds(deliveries[u]) ==>
            t == u)
  }

  predicate Inv(c: Config, s: State) {
    && RowsOk(c, s.db)
    && ProviderOk(c, s.db, s.pv.refunds)
    && (forall t :: t in s.advances ==> AdvanceOk(c, s.db, s.advances[t]))
    && MailsOk(s.db, s.pv.mails, s.deliveries)
  }

  // ---- What every step leaves of the others' assumptions ----

  predicate IdKept<T(==)>(before: Option<T>, after: Option<T>) {
    before.Some? ==> after == before
  }

  predicate BindingGrows(before: Option<Binding>, after: Option<Binding>) {
    before.Some? ==>
      && after.Some?
      && after.value.key == before.value.key && after.value.request == before.value.request
      && IdKept(before.value.analysisId, after.value.analysisId)
      && IdKept(before.value.reportId, after.value.reportId)
  }

  predicate RefundGrows(before: Option<Refund>, after: Option<Refund>) {
    before.Some? ==>
      after.Some? && after.value.operation == before.value.operation && IdKept(before.value.refundId, after.value.refundId)
  }

  predicate AttemptGrows(before: Attempt, after: Attempt) {
    && after.number == before.number && after.reportId == before.reportId && after.recipient == before.recipient
    && after.grant.expiresAt == before.grant.expiresAt
    && (before.status == Accepted ==> after.status == Accepted && after.messageId == before.messageId)
  }

  predicate AttemptsGrow(before: seq<Attempt>, after: seq<Attempt>) {
    |before| <= |after| && forall i :: 0 <= i < |before| ==> AttemptGrows(before[i], after[i])
  }

  /** Write-once columns keep their values; attempts are only added; an acceptance is never taken back. */
  predicate Grows(db: Rows, db': Rows) {
    && db'.paymentIntent == db.paymentIntent
    && BindingGrows(db.binding, db'.binding)
    && IdKept(db.eligibility, db'.eligibility)
    && RefundGrows(db.refund, db'.refund)
    && AttemptsGrow(db.attempts, db'.attempts)
  }

  lemma AdvanceKept(c: Config, db: Rows, db': Rows, pc: Advance)
    requires AdvanceOk(c, db, pc) && Grows(db, db')
    ensures AdvanceOk(c, db', pc)
  {
  }

  lemma ProviderKept(c: Config, db: Rows, db': Rows, refunds: seq<ProviderRefund>)
    requires ProviderOk(c, db, refunds) && Grows(db, db')
    ensures ProviderOk(c, db', refunds)
  {
  }

  lemma GrowsReflexive(db: Rows)
    ensures Grows(db, db)
  {
  }

  lemma GrowsTransitive(db: Rows, mid: Rows, db': Rows)
    requires Grows(db, mid) && Grows(mid, db')
    ensures Grows(db, db')
  {
    forall i | 0 <= i < |db.attempts| ensures AttemptGrows(db.attempts[i], db'.attempts[i]) {
      assert AttemptGrows(db.attempts[i], mid.attempts[i]) && AttemptGrows(mid.attempts[i], db'.attempts[i]);
    }
  }

  // ---- Transactions ----

  /** An order cannot be both deliverable and refundable: the two truths contradict each other. */
  lemma EntitledIsNotDeliverable(c: Config, b: Binding, reason: Reason, resource: Resource)
    requires c.reportsStay && Entitled(c, b, reason, resource) && BindingOk(c, b)
    ensures !Deliverable(c, b)
  {
  }

  predicate Keeps(c: Config, db: Rows, db': Rows) {
    RowsOk(c, db') && Grows(db, db')
  }

  lemma PrepareAnalysisKeeps(c: Config, db: Rows)
    requires RowsOk(c, db)
    ensures var tx := PrepareAnalysis(c.settings, db);
            tx.Committed? ==>
              Keeps(c, db, tx.rows) && tx.rows.binding.Some?
              && tx.value.key == AnalysisKey(c.settings) && tx.value.request == c.settings.request
  {
    hide AttemptGrows, AttemptOk;
    AttemptsSame(db.attempts);
  }

  lemma AttemptsSame(attempts: seq<Attempt>)
    ensures AttemptsGrow(attempts, attempts)
  {
  }

  lemma BindAnalysisKeeps(c: Config, db: Rows, ev: AnalysisEvidence)
    requires RowsOk(c, db) && TrueAnalysis(c, ev.id, ev.state)
    ensures var tx := BindAnalysis(db, ev); tx.Committed? ==> Keeps(c, db, tx.rows)
  {
    hide AttemptsGrow, AttemptsOk;
    AttemptsSame(db.attempts);
  }

  lemma BindReportKeeps(c: Config, db: Rows, ev: ReportEvidence)
    requires RowsOk(c, db) && TrueReport(c, ev)
    ensures var tx := BindReport(db, ev); tx.Committed? ==> Keeps(c, db, tx.rows)
  {
    hide AttemptsGrow, AttemptsOk;
    AttemptsSame(db.attempts);
  }

  lemma PersistEligibilityKeeps(c: Config, db: Rows, reason: Reason, resource: Resource)
    requires RowsOk(c, db) && db.binding.Some? && Entitled(c, db.binding.value, reason, resource)
    ensures var tx := PersistEligibility(db, reason, resource);
            tx.Committed? ==> Keeps(c, db, tx.rows) && tx.rows.eligibility.Some?
  {
    hide AttemptsGrow, AttemptsOk;
    AttemptsSame(db.attempts);
  }

  lemma PrepareRefundKeeps(c: Config, db: Rows, money: IntentEvidence)
    requires RowsOk(c, db) && money.amountReceived == c.received
    ensures var tx := PrepareRefund(db, money); tx.Committed? ==> Keeps(c, db, tx.rows) && HasOperation(tx.rows, tx.value)
  {
    hide AttemptsGrow, AttemptsOk;
    AttemptsSame(db.attempts);
  }

  lemma BindRefundKeeps(c: Config, db: Rows, op: Operation, ev: RefundEvidence, external: bool, taken: bool)
    requires RowsOk(c, db) && HasOperation(db, op)
    ensures var tx := BindRefund(c.settings, db, op, ev, external, taken); tx.Committed? ==> Keeps(c, db, tx.rows)
  {
    hide AttemptsGrow, AttemptsOk, IsMatching;
    AttemptsSame(db.attempts);
    if c.reportsStay { EligibleIsUndelivered(c, db); }
  }

  /** An order with a refund reason has no delivery attempt, and was never fulfilled. */
  lemma EligibleIsUndelivered(c: Config, db: Rows)
    requires c.reportsStay && RowsOk(c, db) && db.eligibility.Some?
    ensures db.attempts == [] && db.order.state != Fulfilled
  {
    EntitledIsNotDeliverable(c, db.binding.value, db.eligibility.value.reason, db.eligibility.value.resource);
  }

  lemma MarkAttentionKeeps(c: Config, db: Rows, code: string, refundFailure: bool)
    requires RowsOk(c, db) && db.eligibility.Some?
    ensures Keeps(c, db, MarkAttention(db, code, refundFailure))
  {
    hide AttemptsGrow, AttemptsOk;
    AttemptsSame(db.attempts);
  }

  /** An order with an attempt was never entitled to a refund, so paid is all it can be. */
  lemma DeliverableIsPaid(c: Config, db: Rows)
    requires c.reportsStay && RowsOk(c, db) && db.attempts != []
    ensures db.binding.Some? && db.eligibility.None? && db.refund.None? && db.order.payment == PayPaid
        && db.order.state != Refunded
  {
    if db.eligibility.Some? { EligibleIsUndelivered(c, db); }
  }

  lemma ConvergeKeeps(c: Config, db: Rows, now: int)
    requires RowsOk(c, db)
    ensures var tx := Converge(db, now); tx.Committed? ==> Keeps(c, db, tx.rows) && tx.rows.attempts == db.attempts
  {
    hide AttemptsGrow, AttemptsOk, FirstAccepted;
    AttemptsSame(db.attempts);
    var first := FirstAccepted(db.attempts);
    if first.Some? { assert HasAccepted(db.attempts); }
  }

  lemma ExhaustKeeps(c: Config, db: Rows)
    requires RowsOk(c, db)
    ensures var tx := Exhaust(db); tx.Committed? ==> Keeps(c, db, tx.rows) && tx.rows.attempts == db.attempts
  {
    hide AttemptsGrow, AttemptsOk, FirstAccepted;
    AttemptsSame(db.attempts);
  }

  lemma {:induction false} MaxNumberIsCount(attempts: seq<Attempt>, reportId: Id)
    requires forall i :: 0 <= i < |attempts| ==> AttemptOk(attempts[i], i, reportId)
    ensures MaxNumber(attempts) == |attempts|
  {
    if attempts != [] { MaxNumberIsCount(attempts[..|attempts| - 1], reportId); }
  }

  lemma PrepareAttemptKeeps(c: Config, db: Rows, report: Id, analysis: Id, now: int)
    requires RowsOk(c, db)
    ensures var tx := PrepareAttempt(c.settings, db, report, analysis, now);
            tx.Committed? ==> Keeps(c, db, tx.rows) && |tx.rows.attempts| == |db.attempts| + 1 && tx.value == |db.attempts|
  {
    var tx := PrepareAttempt(c.settings, db, report, analysis, now);
    if tx.Committed? {
      MaxNumberIsCount(db.attempts, report);
      assert forall i :: 0 <= i < |db.attempts| ==> tx.rows.attempts[i] == db.attempts[i];
      hide PrepareAttempt, FirstAccepted, MaxNumber;
    }
  }

  /** Changing one attempt in place. */
  lemma AttemptChangeKeeps(c: Config, db: Rows, i: nat, a: Attempt, order: Order)
    requires RowsOk(c, db) && i < |db.attempts|
    requires AttemptGrows(db.attempts[i], a) && a.grant.reportId == db.attempts[i].grant.reportId
    requires a.status == Accepted ==> a.messageId.Some?
    requires order == db.order || order == GiveUp(db.order) || (order == Fulfil(db.order) && a.status == Accepted)
    ensures var db' := db.(attempts := db.attempts[i := a], order := order); Keeps(c, db, db')
  {
    var db' := db.(attempts := db.attempts[i := a], order := order);
    assert db.binding.Some?;
    var b := db.binding.value;
    assert AttemptsOk(db'.attempts, b.reportId.value) by {
      assert AttemptOk(db.attempts[i], i, b.reportId.value);
    }
    assert AttemptsGrow(db.attempts, db'.attempts);
    assert order.state == Fulfilled ==> HasAccepted(db'.attempts) by {
      if order == Fulfil(db.order) && a.status == Accepted {
        assert db'.attempts[i].status == Accepted;
      } else if HasAccepted(db.attempts) {
        var k :| 0 <= k < |db.attempts| && db.attempts[k].status == Accepted;
        assert db'.attempts[k].status == Accepted;
      }
    }
  }

  lemma StartDispatchKeeps(c: Config, db: Rows, i: nat)
    requires RowsOk(c, db)
    ensures var tx := StartDispatch(db, i); tx.Committed? ==> Keeps(c, db, tx.rows) && |tx.rows.attempts| == |db.attempts|
  {
    hide RowsOk, Grows;
    GrowsReflexive(db);
    if i < |db.attempts| && db.attempts[i].status == Prepared {
      AttemptChangeKeeps(c, db, i, db.attempts[i].(status := DispatchStarted), db.order);
    }
  }

  lemma RecordMailKeeps(c: Config, db: Rows, i: nat, mail: Mail, now: int, taken: bool)
    requires RowsOk(c, db)
    ensures var tx := RecordMail(db, i, mail, now, taken);
            tx.Committed? ==> Keeps(c, db, tx.rows) && |tx.rows.attempts| == |db.attempts|
  {
    hide RowsOk, Grows, ReadyContext, GrantValid;
    GrowsReflexive(db);
    var tx := RecordMail(db, i, mail, now, taken);
    if tx.Committed? && db.attempts[i].status != Accepted {
      var a := tx.rows.attempts[i];
      assert tx.rows == db.(attempts := db.attempts[i := a], order := tx.rows.order);
      AttemptChangeKeeps(c, db, i, a, tx.rows.order);
    }
  }
}

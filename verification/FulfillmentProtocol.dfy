/**
 * The processes that fulfil one order and their interleavings: `advance` calls
 * (fulfillment_runtime.py), `deliver` calls (delivery.py, delivery_runtime.py), the payment race before
 * them, and the providers they talk to. Any call may stop between any two steps: an exception, a crash,
 * a provider that is unavailable, or an answer or commit acknowledgement that was lost.
 *
 * Assumptions: the terminal state of an analysis never changes, and a report belongs to one analysis;
 * Stripe honours idempotency keys and reports the amount it received truthfully; refunds are only
 * labelled with this order's idempotency key by this system. `serial` and `reportsStay` are two further
 * assumptions that single theorems ask for.
 */
module FulfillmentProtocol {
  import opened Prelude
  import opened Orders
  import opened Fulfillment

  /**
   * `analysisEnd` and `reportAnalysis` are the truth behind every id; `received` is the amount behind the
   * payment intent. `serial`: advance calls do not overlap. `reportsStay`: the state of a report never
   * changes, and is `reportEnd`.
   */
  datatype Config = Config(
    settings: Settings,
    productCode: string,
    analysisEnd: Id -> AnalysisState,
    reportEnd: Id -> ReportState,
    reportAnalysis: Id -> Id,
    received: int,
    serial: bool,
    reportsStay: bool)

  /** Where a refund about to be bound comes from. */
  datatype Origin = Matched | External | Created

  /** One `advance` call; each constructor names its next transaction or provider call. */
  datatype Advance =
    | Reading
    | Preparing
    | Submitting(key: string, request: string, bound: Option<Id>)
    | BindingAnalysis(analysis: AnalysisEvidence)
    | CheckingBinding
    | LoadingAnalysis
    | PollingAnalysis(id: Id)
    | LoadingReport
    | ResolvingReport(id: Id)
    | GettingReport(report: Id, id: Id)
    | BindingReport(evidence: ReportEvidence)
    | Reproving(reason: Reason)
    | ReprovingAnalysis(reason: Reason, id: Id)
    | ReprovingReport(reason: Reason, report: Id, of: Option<Id>)
    | Claiming(reason: Reason, resource: Resource)
    | LoadingRefund
    | RetrievingIntent(intent: string)
    | PreparingRefund(money: IntentEvidence)
    | ListingRefunds(op: Operation)
    | CreatingRefund(op: Operation)
    | BindingRefund(op: Operation, refund: RefundEvidence, origin: Origin)
    | Flagging(code: string, refundFailure: bool)
    | AdvanceDone

  datatype Mail = MailAccepted(messageId: string) | MailUncertain(code: string) | MailRejected(code: string, retryable: bool)

  /** One `deliver` call. The wrapper converges first, and so does the call it wraps. */
  datatype Deliver =
    | Converging(wrapper: bool)
    | Exhausting
    | LoadingDelivery
    | FetchingReport(report: Id, analysis: Id)
    | PreparingAttempt(report: Id, analysis: Id)
    | Dispatching(i: nat)
    | Sending(i: nat)
    | Recording(i: nat, mail: Mail)
    | DeliverDone

  /**
   * A refund at Stripe; `ours` was created under this order's idempotency key, and `answer` is what its
   * creation answered.
   */
  datatype ProviderRefund = ProviderRefund(evidence: RefundEvidence, ours: bool, answer: RefundEvidence)

  /** `mails` lists the attempts whose message was handed to Postmark. */
  datatype Provider = Provider(refunds: seq<ProviderRefund>, mails: seq<nat>)

  datatype State = State(db: Rows, pv: Provider, advances: map<int, Advance>, deliveries: map<int, Deliver>)

  /** What a step learns from outside. `taken` is a unique key another order holds already. */
  datatype Choice = Choice(
    now: int, analysis: AnalysisEvidence, report: ReportEvidence, money: IntentEvidence, refundId: string,
    refundStatus: RefundStatus, taken: bool, mail: Mail)

  predicate TrueAnalysis(c: Config, id: Id, st: AnalysisState) {
    st in {AQueued, ARunning} || st == c.analysisEnd(id)
  }

  predicate TrueReport(c: Config, ev: ReportEvidence) {
    ev.analysis == c.reportAnalysis(ev.id) && (c.reportsStay ==> ev.state == c.reportEnd(ev.id))
  }

  predicate Truthful(c: Config, ch: Choice) {
    && TrueAnalysis(c, ch.analysis.id, ch.analysis.state)
    && TrueReport(c, ch.report)
    && ch.money.amountReceived == c.received
  }

  // ---- advance ----

  datatype Moved<P> = Moved(db: Rows, pv: Provider, next: P)

  function ReadStatus(db: Rows): Advance {
    if db.order.state in {Refunded, Fulfilled, Expired, AttentionRequired} then AdvanceDone
    else if db.order.payment != PayPaid && ReasonOf(db.order.fulfillment).None? then AdvanceDone
    else
      match db.order.fulfillment
      case NotStarted => Preparing
      case AnalysisPending => CheckingBinding
      case AnalysisRunning => LoadingAnalysis
      case ReportPending => LoadingReport
      case _ => if ReasonOf(db.order.fulfillment).Some? then Reproving(ReasonOf(db.order.fulfillment).value) else AdvanceDone
  }

  function LoadReport(db: Rows): Advance {
    if db.binding.None? || db.binding.value.analysisId.None? || db.binding.value.analysisState != Some(ACompleted) then
      AdvanceDone
    else if db.binding.value.reportId.None? then ResolvingReport(db.binding.value.analysisId.value)
    else GettingReport(db.binding.value.reportId.value, db.binding.value.analysisId.value)
  }

  function Reprove(db: Rows, reason: Reason): Advance {
    if db.binding.None? then AdvanceDone
    else if !reason.BecauseReportFailed? then
      if db.binding.value.analysisId.None? then AdvanceDone else ReprovingAnalysis(reason, db.binding.value.analysisId.value)
    else if db.binding.value.reportId.None? then AdvanceDone
    else ReprovingReport(reason, db.binding.value.reportId.value, db.binding.value.analysisId)
  }

  /** `validate_payment_intent`. */
  predicate IntentValid(c: Config, money: IntentEvidence, intent: string) {
    && "pi_" <= money.id && money.id == intent
    && money.currency == USD && money.amountReceived > 0
    && money.livemode == c.settings.expectedLivemode
    && "sitescore_order_id" in money.metadata && money.metadata["sitescore_order_id"] == c.settings.orderId
    && "sitescore_product_code" in money.metadata && money.metadata["sitescore_product_code"] == c.productCode
  }

  /** One page of `refunds.list`: at most the latest hundred. */
  function Page(refunds: seq<ProviderRefund>): seq<ProviderRefund> {
    if |refunds| <= 100 then refunds else refunds[|refunds| - 100..]
  }

  function Matching(c: Settings, page: seq<ProviderRefund>, op: Operation): seq<ProviderRefund> {
    if page == [] then []
    else (if IsMatching(c, page[0].evidence, op) then [page[0]] else []) + Matching(c, page[1..], op)
  }

  /** What the refund history at the provider means for the operation. */
  function JudgeRefunds(c: Settings, page: seq<ProviderRefund>, op: Operation): Advance {
    var matching := Matching(c, page, op);
    if |matching| > 1 || (|matching| > 0 && |page| != 1) then Flagging("conflicting_existing_refunds", true)
    else if |matching| > 0 then
      if RefundValid(c, matching[0].evidence, op) then BindingRefund(op, matching[0].evidence, Matched)
      else Flagging("matching_refund_conflict", true)
    else if |page| > 1 then Flagging("conflicting_existing_refunds", true)
    else if |page| == 1 then
      var ev := page[0].evidence;
      if exists k :: k in Metadata(c, op) && k in ev.metadata then Flagging("conflicting_refund_metadata", true)
      else if ev.intent == op.intent && ev.currency == op.currency && ev.amount == op.amount && ev.status == Succeeded then
        BindingRefund(op, ev, External)
      else Flagging("conflicting_existing_refund", true)
    else CreatingRefund(op)
  }

  /** The answer stored under the order's idempotency key. */
  function OurRefund(refunds: seq<ProviderRefund>): Option<RefundEvidence> {
    if refunds == [] then None
    else if refunds[0].ours then Some(refunds[0].answer)
    else OurRefund(refunds[1..])
  }

  /** Stripe's `refunds.create` under the order's idempotency key: the first answer is kept. */
  function CreateRefund(c: Settings, pv: Provider, op: Operation, ch: Choice): (Provider, RefundEvidence) {
    var known := OurRefund(pv.refunds);
    if known.Some? then (pv, known.value)
    else
      var ev := RefundEvidence(ch.refundId, op.intent, op.amount, op.currency, ch.refundStatus, Metadata(c, op));
      (pv.(refunds := pv.refunds + [ProviderRefund(ev, true, ev)]), ev)
  }

  /** A binding that is refused is flagged, except for a refund made elsewhere, where the error ends the call. */
  function AfterRefusedBinding(origin: Origin): Advance {
    match origin
    case Matched => Flagging("matching_refund_conflict", true)
    case External => AdvanceDone
    case Created => Flagging("refund_provider_binding_mismatch", true)
  }

  function AdvanceStep(c: Config, db: Rows, pv: Provider, pc: Advance, ch: Choice): Moved<Advance> {
    match pc
    case Reading => Moved(db, pv, ReadStatus(db))
    case Preparing =>
      var tx := PrepareAnalysis(c.settings, db);
      if tx.Committed? then Moved(tx.rows, pv, Submitting(tx.value.key, tx.value.request, tx.value.analysisId))
      else Moved(db, pv, AdvanceDone)
    case Submitting(_, _, bound) =>
      Moved(db, pv, if bound.Some? && bound.value != ch.analysis.id then AdvanceDone else BindingAnalysis(ch.analysis))
    case BindingAnalysis(ev) =>
      var tx := BindAnalysis(db, ev);
      Moved(if tx.Committed? && !ch.taken then tx.rows else db, pv, AdvanceDone)
    case CheckingBinding =>
      Moved(db, pv, if db.binding.None? || db.binding.value.analysisId.None? then Preparing else LoadingAnalysis)
    case LoadingAnalysis =>
      Moved(db, pv, if db.binding.None? || db.binding.value.analysisId.None? then AdvanceDone
                    else PollingAnalysis(db.binding.value.analysisId.value))
    case PollingAnalysis(id) => Moved(db, pv, if ch.analysis.id == id then BindingAnalysis(ch.analysis) else AdvanceDone)
    case LoadingReport => Moved(db, pv, LoadReport(db))
    case ResolvingReport(id) =>
      Moved(db, pv, if ch.report.analysis == id then BindingReport(ch.report) else AdvanceDone)
    case GettingReport(report, id) =>
      Moved(db, pv, if ch.report.id == report && ch.report.analysis == id then BindingReport(ch.report) else AdvanceDone)
    case BindingReport(ev) =>
      var tx := BindReport(db, ev);
      Moved(if tx.Committed? && !ch.taken then tx.rows else db, pv, AdvanceDone)
    case Reproving(reason) => Moved(db, pv, Reprove(db, reason))
    case ReprovingAnalysis(reason, id) =>
      Moved(db, pv, if ch.analysis.id == id && AnalysisEnd(reason) == Some(ch.analysis.state) then Claiming(reason,
          TheAnalysis(id))
                    else AdvanceDone)
    case ReprovingReport(reason, report, of) =>
      Moved(db, pv, if ch.report.id == report && Some(ch.report.analysis) == of && ch.report.state == RFailed
                    then Claiming(reason, TheReport(report)) else AdvanceDone)
    case Claiming(reason, resource) =>
      var tx := PersistEligibility(db, reason, resource);
      if tx.Committed? then Moved(tx.rows, pv, LoadingRefund) else Moved(db, pv, AdvanceDone)
    case LoadingRefund =>
      Moved(db, pv, if db.eligibility.None? then AdvanceDone
                    else if db.paymentIntent.None? then Flagging("payment_intent_missing", false)
                    else RetrievingIntent(db.paymentIntent.value))
    case RetrievingIntent(intent) =>
      Moved(db, pv, if IntentValid(c, ch.money, intent) then PreparingRefund(ch.money)
                    else Flagging("payment_intent_binding_mismatch", false))
    case PreparingRefund(money) =>
      var tx := PrepareRefund(db, money);
      if tx.Committed? then Moved(tx.rows, pv, ListingRefunds(tx.value)) else Moved(db, pv, AdvanceDone)
    case ListingRefunds(op) => Moved(db, pv, JudgeRefunds(c.settings, Page(pv.refunds), op))
    case CreatingRefund(op) =>
      var (pv', ev) := CreateRefund(c.settings, pv, op, ch);
      Moved(db, pv', if RefundValid(c.settings, ev, op) then BindingRefund(op, ev, Created)
                     else Flagging("refund_provider_binding_mismatch", true))
    case BindingRefund(op, ev, origin) =>
      var tx := BindRefund(c.settings, db, op, ev, origin.External?, ch.taken);
      if tx.Committed? then Moved(tx.rows, pv, AdvanceDone)
      else Moved(db, pv, AfterRefusedBinding(origin))
    case Flagging(code, refundFailure) => Moved(MarkAttention(db, code, refundFailure), pv, AdvanceDone)
    case AdvanceDone => Moved(db, pv, AdvanceDone)
  }

  // ---- deliver ----

  function DeliverStep(c: Config, db: Rows, pv: Provider, pc: Deliver, ch: Choice): Moved<Deliver> {
    match pc
    case Converging(wrapper) =>
      var tx := Converge(db, ch.now);
      if tx.Committed? && !tx.value then Moved(tx.rows, pv, if wrapper then Exhausting else LoadingDelivery)
      else Moved(if tx.Committed? then tx.rows else db, pv, DeliverDone)
    case Exhausting =>
      var tx := Exhaust(db);
      if tx.Committed? then Moved(tx.rows, pv, if tx.value then DeliverDone else Converging(false))
      else Moved(db, pv, DeliverDone)
    case LoadingDelivery =>
      var b := LoadContext(db);
      Moved(db, pv, if b.Some? && b.value.reportId.Some? && b.value.analysisId.Some?
                    then FetchingReport(b.value.reportId.value, b.value.analysisId.value) else DeliverDone)
    case FetchingReport(report, analysis) =>
      Moved(db, pv, if ch.report == ReportEvidence(report, analysis, RReady) then PreparingAttempt(report, analysis)
                    else DeliverDone)
    case PreparingAttempt(report, analysis) =>
      var tx := PrepareAttempt(c.settings, db, report, analysis, ch.now);
      if tx.Committed? then Moved(tx.rows, pv, Dispatching(tx.value)) else Moved(db, pv, DeliverDone)
    case Dispatching(i) =>
      var tx := StartDispatch(db, i);
      if tx.Committed? then Moved(tx.rows, pv, Sending(i)) else Moved(db, pv, DeliverDone)
    case Sending(i) => Moved(db, pv.(mails := pv.mails + [i]), Recording(i, ch.mail))
    case Recording(i, mail) =>
      var tx := RecordMail(db, i, mail, ch.now, ch.taken);
      Moved(if tx.Committed? then tx.rows else db, pv, DeliverDone)
    case DeliverDone => Moved(db, pv, DeliverDone)
  }

  function RecordMail(db: Rows, i: nat, mail: Mail, now: int, taken: bool): Tx<()> {
    match mail
    case MailAccepted(messageId) =>
      RecordAccepted(db, i, messageId, if i < |db.attempts| then db.attempts[i].recipient else "", now, taken)
    case MailUncertain(code) => RecordFailure(db, i, Uncertain, code, true)
    case MailRejected(code, retryable) => RecordFailure(db, i, Rejected, code, retryable)
  }

  // ---- Events ----

  datatype Event =
    | Decide(paid: bool)                              // the payment race ends
    | StartAdvance(t: int)
    | StepAdvance(t: int, ch: Choice)
    | StopAdvance(t: int)
    | StartDeliver(t: int)
    | StepDeliver(t: int, ch: Choice)
    | StopDeliver(t: int)
    | RefundElsewhere(evidence: RefundEvidence)       // someone refunds at Stripe by hand
    | RefundMoves(i: nat, status: RefundStatus)
    | Revoke(i: nat)                                  // an operator revokes a download grant

  function MoveAdvance(s: State, t: int, m: Moved<Advance>): State {
    s.(db := m.db, pv := m.pv,
    advances := if m.next.AdvanceDone? then s.advances - {t} else s.advances[t := m.next])
  }

  function MoveDeliver(s: State, t: int, m: Moved<Deliver>): State {
    s.(db := m.db, pv := m.pv,
    deliveries := if m.next.DeliverDone? then s.deliveries - {t} else s.deliveries[t := m.next])
  }

  function Apply(c: Config, s: State, ev: Event): State {
    match ev
    case Decide(paid) =>
      if s.db.order.state == PendingPayment && s.db.order.payment == PayPending then
        s.(db := s.db.(order := if paid then s.db.order.(state := Paid, payment := PayPaid)
                                else s.db.order.(state := Expired, payment := PayExpired)))
      else s
    case StartAdvance(t) =>
      if t !in s.advances && (c.serial ==> s.advances == map[]) then s.(advances := s.advances[t := Reading]) else s
    case StepAdvance(t, ch) =>
      if t in s.advances && Truthful(c, ch) then MoveAdvance(s, t, AdvanceStep(c, s.db, s.pv, s.advances[t], ch)) else s
    case StopAdvance(t) => s.(advances := s.advances - {t})
    case StartDeliver(t) =>
      if t !in s.deliveries then s.(deliveries := s.deliveries[t := Converging(true)]) else s
    case StepDeliver(t, ch) =>
      if t in s.deliveries && Truthful(c, ch) then MoveDeliver(s, t, DeliverStep(c, s.db, s.pv, s.deliveries[t], ch)) else s
    case StopDeliver(t) => s.(deliveries := s.deliveries - {t})
    case RefundElsewhere(ev) => s.(pv := s.pv.(refunds := s.pv.refunds + [ProviderRefund(ev, false, ev)]))
    case RefundMoves(i, status) =>
      if i < |s.pv.refunds| then
        s.(pv := s.pv.(refunds := s.pv.refunds[i := s.pv.refunds[i].(evidence := s.pv.refunds[i].evidence.(status := status))]))
      else s
    case Revoke(i) =>
      if i < |s.db.attempts| then
        s.(db := s.db.(attempts := s.db.attempts[i := s.db.attempts[i].(grant := s.db.attempts[i].grant.(revoked := true))]))
      else s
  }

  function Run(c: Config, s: State, es: seq<Event>): State
    decreases |es|
  {
    if es == [] then s else Run(c, Apply(c, s, es[0]), es[1..])
  }

  /** A new order, before its payment is decided. */
  function Init(product: string, catalog: string, email: string, intent: Option<string>): State {
    State(Rows(Order(product, catalog, email, PendingPayment, PayPending, NotStarted), intent, None, None, None, []),
          Provider([], []), map[], map[])
  }
}

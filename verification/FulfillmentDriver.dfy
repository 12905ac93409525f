/**
 * The drivers themselves: `FulfillmentRuntimeService.advance` (fulfillment_runtime.py) and
 * `RuntimeDeliveryService.deliver` (delivery_runtime.py, delivery.py), each proved to take exactly the
 * steps of the protocol, and to end. Every step has an answer and a clock reading of its own; a step is
 * told by its rank, which no two steps of a call share.
 */
module FulfillmentDriver {
  import opened Prelude
  import opened Orders
  import opened Fulfillment
  import opened FulfillmentProtocol
  import opened FulfillmentSafety
  import opened FulfillmentRuns
  import opened FulfillmentStores

  // ---- A call run to its end ----

  /** How many steps an advance call can still take. */
  function Rank(pc: Advance): nat {
    match pc
    case AdvanceDone => 0
    case Flagging(_, _) => 1
    case BindingAnalysis(_) => 1
    case BindingReport(_) => 1
    case BindingRefund(_, _, _) => 2
    case PollingAnalysis(_) => 2
    case Submitting(_, _, _) => 2
    case ResolvingReport(_) => 2
    case GettingReport(_, _) => 2
    case CreatingRefund(_) => 3
    case Preparing => 3
    case LoadingAnalysis => 3
    case LoadingReport => 3
    case ListingRefunds(_) => 4
    case CheckingBinding => 4
    case PreparingRefund(_) => 5
    case RetrievingIntent(_) => 6
    case LoadingRefund => 7
    case Claiming(_, _) => 8
    case ReprovingAnalysis(_, _) => 9
    case ReprovingReport(_, _, _) => 9
    case Reproving(_) => 10
    case Reading => 11
  }

  lemma RankDrops(c: Config, db: Rows, pv: Provider, pc: Advance, ch: Choice)
    requires !pc.AdvanceDone?
    ensures Rank(AdvanceStep(c, db, pv, pc, ch).next) < Rank(pc)
  {
    hide PrepareAnalysis, BindAnalysis, BindReport, PersistEligibility, PrepareRefund, BindRefund, Matching, CreateRefund,
         IntentValid, RefundValid;
  }

  datatype Ended = Ended(db: Rows, pv: Provider)

  /** What the providers and the clock answer to the steps of a call. */
  type Answers = nat -> Choice

  ghost predicate AllTruthful(c: Config, ch: Answers) {
    forall n :: Truthful(c, ch(n))
  }

  function AdvanceFrom(c: Config, db: Rows, pv: Provider, pc: Advance, ch: Answers): Ended
    decreases Rank(pc)
  {
    if pc.AdvanceDone? then Ended(db, pv)
    else
      RankDrops(c, db, pv, pc, ch(Rank(pc)));
      var m := AdvanceStep(c, db, pv, pc, ch(Rank(pc)));
      AdvanceFrom(c, m.db, m.pv, m.next, ch)
  }

  /** An uninterrupted advance call is a run of the protocol, and every call ends within eleven steps. */
  lemma AdvanceIsRun(c: Config, s: State, t: int, ch: Answers)
    requires MayStart(c, s, t) && AllTruthful(c, ch)
    ensures var e := AdvanceFrom(c, s.db, s.pv, Reading, ch); Leads(c, s, s.(db := e.db, pv := e.pv))
  {
    LeadsNowhere(c, s);
    Starts(c, s, s, t);
    AdvanceRunsOn(c, s, s, t, s.db, s.pv, Reading, ch);
  }

  lemma {:induction false} AdvanceRunsOn(c: Config, s0: State, base: State, t: int, db: Rows, pv: Provider, pc: Advance,
                                         ch: Answers)
    requires t !in base.advances && AllTruthful(c, ch) && !pc.AdvanceDone?
    requires Leads(c, s0, At(base, t, db, pv, pc))
    ensures var e := AdvanceFrom(c, db, pv, pc, ch); Leads(c, s0, base.(db := e.db, pv := e.pv))
    decreases Rank(pc)
  {
    hide Leads, Truthful, AdvanceStep;
    var answer := ch(Rank(pc));
    RankDrops(c, db, pv, pc, answer);
    var m := AdvanceStep(c, db, pv, pc, answer);
    GoesOn(c, s0, base, t, db, pv, pc, answer, m);
    if !m.next.AdvanceDone? { AdvanceRunsOn(c, s0, base, t, m.db, m.pv, m.next, ch); }
  }

  function DeliverRank(pc: Deliver): nat {
    match pc
    case DeliverDone => 0
    case Recording(_, _) => 1
    case Sending(_) => 2
    case Dispatching(_) => 3
    case PreparingAttempt(_, _) => 4
    case FetchingReport(_, _) => 5
    case LoadingDelivery => 6
    case Converging(wrapper) => if wrapper then 9 else 7
    case Exhausting => 8
  }

  lemma DeliverRankDrops(c: Config, db: Rows, pv: Provider, pc: Deliver, ch: Choice)
    requires !pc.DeliverDone?
    ensures DeliverRank(DeliverStep(c, db, pv, pc, ch).next) < DeliverRank(pc)
  {
    hide Converge, Exhaust, PrepareAttempt, StartDispatch, RecordMail, ReadyContext;
  }

  function DeliverFrom(c: Config, db: Rows, pv: Provider, pc: Deliver, ch: Answers): Ended
    decreases DeliverRank(pc)
  {
    if pc.DeliverDone? then Ended(db, pv)
    else
      DeliverRankDrops(c, db, pv, pc, ch(DeliverRank(pc)));
      var m := DeliverStep(c, db, pv, pc, ch(DeliverRank(pc)));
      DeliverFrom(c, m.db, m.pv, m.next, ch)
  }

  /** An uninterrupted deliver call is a run of the protocol, and every call ends within nine steps. */
  lemma DeliverIsRun(c: Config, s: State, t: int, ch: Answers)
    requires t !in s.deliveries && AllTruthful(c, ch)
    ensures var e := DeliverFrom(c, s.db, s.pv, Converging(true), ch); Leads(c, s, s.(db := e.db, pv := e.pv))
  {
    LeadsNowhere(c, s);
    LeadsStep(c, s, s, StartDeliver(t));
    assert Apply(c, s, StartDeliver(t)) == AtDelivery(s, t, s.db, s.pv, Converging(true));
    hide Leads;
    DeliverRunsOn(c, s, s, t, s.db, s.pv, Converging(true), ch);
  }

  lemma {:induction false} DeliverRunsOn(c: Config, s0: State, base: State, t: int, db: Rows, pv: Provider, pc: Deliver,
                                         ch: Answers)
    requires t !in base.deliveries && AllTruthful(c, ch) && !pc.DeliverDone?
    requires Leads(c, s0, AtDelivery(base, t, db, pv, pc))
    ensures var e := DeliverFrom(c, db, pv, pc, ch); Leads(c, s0, base.(db := e.db, pv := e.pv))
    decreases DeliverRank(pc)
  {
    hide Leads, Truthful, DeliverStep;
    var answer := ch(DeliverRank(pc));
    DeliverRankDrops(c, db, pv, pc, answer);
    var m := DeliverStep(c, db, pv, pc, answer);
    DeliverGoes(c, s0, base, t, db, pv, pc, answer, m);
    if !m.next.DeliverDone? { DeliverRunsOn(c, s0, base, t, m.db, m.pv, m.next, ch); }
  }

  lemma OneStep(c: Config, db: Rows, pv: Provider, pc: Advance, ch: Answers, m: Moved<Advance>)
    requires !pc.AdvanceDone? && AdvanceStep(c, db, pv, pc, ch(Rank(pc))) == m
    ensures AdvanceFrom(c, db, pv, pc, ch) == AdvanceFrom(c, m.db, m.pv, m.next, ch)
    ensures m.next.AdvanceDone? ==> AdvanceFrom(c, db, pv, pc, ch) == Ended(m.db, m.pv)
  {
    hide AdvanceStep;
    RankDrops(c, db, pv, pc, ch(Rank(pc)));
  }

  lemma OneDelivery(c: Config, db: Rows, pv: Provider, pc: Deliver, ch: Answers, m: Moved<Deliver>)
    requires !pc.DeliverDone? && DeliverStep(c, db, pv, pc, ch(DeliverRank(pc))) == m
    ensures DeliverFrom(c, db, pv, pc, ch) == DeliverFrom(c, m.db, m.pv, m.next, ch)
    ensures m.next.DeliverDone? ==> DeliverFrom(c, db, pv, pc, ch) == Ended(m.db, m.pv)
  {
    hide DeliverStep;
    DeliverRankDrops(c, db, pv, pc, ch(DeliverRank(pc)));
  }

  // ---- The drivers ----

  class RuntimeService {
    const c: Config
    const store: FulfillmentStore
    var pv: Provider

    ghost function Now(): Ended
      reads this, store
    {
      Ended(store.Db(), pv)
    }

    constructor (c: Config, store: FulfillmentStore)
      ensures this.c == c && this.store == store && pv == Provider([], [])
    {
      this.c, this.store, pv := c, store, Provider([], []);
    }

    method EnsureAnalysis(ch: Answers)
      modifies this, store
      ensures Now() == AdvanceFrom(c, old(store.Db()), old(pv), Preparing, ch)
    {
      ghost var db := store.Db();
      var ok, operation := store.PrepareAnalysisOperation(c.settings);
      ghost var db1 := store.Db();
      var submit := Submitting(operation.key, operation.request, operation.analysisId);
      OneStep(c, db, pv, Preparing, ch, Moved(db1, pv, if ok then submit else AdvanceDone));
      if !ok { return; }
      var evidence := ch(Rank(submit)).analysis;
      var refused := operation.analysisId.Some? && operation.analysisId.value != evidence.id;
      OneStep(c, db1, pv, submit, ch, Moved(db1, pv, if refused then AdvanceDone else BindingAnalysis(evidence)));
      if refused { return; }
      Bind(evidence, ch);
    }

    method Bind(evidence: AnalysisEvidence, ch: Answers)
      modifies this, store
      ensures Now() == AdvanceFrom(c, old(store.Db()), old(pv), BindingAnalysis(evidence), ch)
    {
      ghost var db := store.Db();
      var _ := store.BindAnalysis(evidence, ch(Rank(BindingAnalysis(evidence))).taken);
      OneStep(c, db, pv, BindingAnalysis(evidence), ch, Moved(store.Db(), pv, AdvanceDone));
    }

    method ReconcileAnalysis(ch: Answers)
      modifies this, store
      ensures Now() == AdvanceFrom(c, old(store.Db()), old(pv), LoadingAnalysis, ch)
    {
      ghost var db := store.Db();
      if store.binding.None? || store.binding.value.analysisId.None? { return; }
      var id := store.binding.value.analysisId.value;
      OneStep(c, db, pv, LoadingAnalysis, ch, Moved(db, pv, PollingAnalysis(id)));
      var evidence := ch(Rank(PollingAnalysis(id))).analysis;
      OneStep(c, db, pv, PollingAnalysis(id), ch,
              Moved(db, pv, if evidence.id == id then BindingAnalysis(evidence) else AdvanceDone));
      if evidence.id != id { return; }
      Bind(evidence, ch);
    }

    method EnsureReport(ch: Answers)
      modifies this, store
      ensures Now() == AdvanceFrom(c, old(store.Db()), old(pv), LoadingReport, ch)
    {
      ghost var db := store.Db();
      OneStep(c, db, pv, LoadingReport, ch, Moved(db, pv, LoadReport(db)));
      if store.binding.None? || store.binding.value.analysisId.None? || store.binding.value.analysisState != Some(ACompleted) {
        return;
      }
      var id := store.binding.value.analysisId.value;
      var evidence: ReportEvidence;
      if store.binding.value.reportId.None? {
        evidence := ch(Rank(ResolvingReport(id))).report;
        var resolved := evidence.analysis == id;
        OneStep(c, db, pv, ResolvingReport(id), ch, Moved(db, pv, if resolved then BindingReport(evidence) else AdvanceDone));
        if !resolved { return; }
      } else {
        var report := store.binding.value.reportId.value;
        evidence := ch(Rank(GettingReport(report, id))).report;
        var same := evidence.id == report && evidence.analysis == id;
        OneStep(c, db, pv, GettingReport(report, id), ch, Moved(db, pv, if same then BindingReport(evidence) else AdvanceDone));
        if !same { return; }
      }
      var _ := store.BindReport(evidence, ch(Rank(BindingReport(evidence))).taken);
      OneStep(c, db, pv, BindingReport(evidence), ch, Moved(store.Db(), pv, AdvanceDone));
    }

    method Advance(ch: Answers)
      modifies this, store
      ensures Now() == AdvanceFrom(c, old(store.Db()), old(pv), Reading, ch)
    {
      ghost var db := store.Db();
      var order := store.order;
      OneStep(c, db, pv, Reading, ch, Moved(db, pv, ReadStatus(db)));
      hide AdvanceFrom;
      if order.state in {Refunded, Fulfilled, Expired, AttentionRequired} { return; }
      if order.payment != PayPaid && ReasonOf(order.fulfillment).None? { return; }
      match order.fulfillment {
        case NotStarted => EnsureAnalysis(ch);
        case AnalysisPending =>
          var unbound := store.binding.None? || store.binding.value.analysisId.None?;
          OneStep(c, db, pv, CheckingBinding, ch, Moved(db, pv, if unbound then Preparing else LoadingAnalysis));
          if unbound { EnsureAnalysis(ch); } else { ReconcileAnalysis(ch); }
        case AnalysisRunning => ReconcileAnalysis(ch);
        case ReportPending => EnsureReport(ch);
        case _ =>
          if ReasonOf(order.fulfillment).Some? { EnsureRefund(ReasonOf(order.fulfillment).value, ch); }
      }
    }

    /** `_reprove_eligibility`: the resource whose terminal truth justifies the refund. */
    method ReproveEligibility(reason: Reason, ch: Answers) returns (resource: Option<Resource>)
      ensures AdvanceFrom(c, store.Db(), pv, Reproving(reason), ch)
           == if resource.None? then Ended(store.Db(), pv)
              else AdvanceFrom(c, store.Db(), pv, Claiming(reason, resource.value), ch)
    {
      ghost var db := store.Db();
      OneStep(c, db, pv, Reproving(reason), ch, Moved(db, pv, Reprove(db, reason)));
      if store.binding.None? { return None; }
      var binding := store.binding.value;
      if !reason.BecauseReportFailed? {
        if binding.analysisId.None? { return None; }
        var id := binding.analysisId.value;
        var evidence := ch(Rank(ReprovingAnalysis(reason, id))).analysis;
        resource := if evidence.id == id && AnalysisEnd(reason) == Some(evidence.state) then Some(TheAnalysis(id)) else None;
        OneStep(c, db, pv, ReprovingAnalysis(reason, id), ch,
                Moved(db, pv, if resource.Some? then Claiming(reason, resource.value) else AdvanceDone));
      } else {
        if binding.reportId.None? { return None; }
        var id := binding.reportId.value;
        var evidence := ch(Rank(ReprovingReport(reason, id, binding.analysisId))).report;
        resource := if evidence.id == id && Some(evidence.analysis) == binding.analysisId && evidence.state == RFailed
                    then Some(TheReport(id)) else None;
        OneStep(c, db, pv, ReprovingReport(reason, id, binding.analysisId), ch,
                Moved(db, pv, if resource.Some? then Claiming(reason, resource.value) else AdvanceDone));
      }
    }

    method EnsureRefund(reason: Reason, ch: Answers)
      modifies this, store
      ensures Now() == AdvanceFrom(c, old(store.Db()), old(pv), Reproving(reason), ch)
    {
      hide AdvanceFrom;
      var resource := ReproveEligibility(reason, ch);
      if resource.None? { return; }
      ghost var db := store.Db();
      var ok := store.PersistRefundEligibility(reason, resource.value);
      ghost var db1 := store.Db();
      OneStep(c, db, pv, Claiming(reason, resource.value), ch, Moved(db1, pv, if ok then LoadingRefund else AdvanceDone));
      if !ok { return; }
      LoadRefund(ch);
    }

    /** `_ensure_refund` from its loaded context to the validated payment intent. */
    method LoadRefund(ch: Answers)
      modifies this, store
      ensures Now() == AdvanceFrom(c, old(store.Db()), old(pv), LoadingRefund, ch)
    {
      ghost var db := store.Db();
      hide AdvanceFrom, IntentValid;
      if store.eligibility.None? {
        OneStep(c, db, pv, LoadingRefund, ch, Moved(db, pv, AdvanceDone));
        return;
      }
      if store.paymentIntent.None? {
        OneStep(c, db, pv, LoadingRefund, ch, Moved(db, pv, Flagging("payment_intent_missing", false)));
        Flag("payment_intent_missing", false, ch);
        return;
      }
      var intent := store.paymentIntent.value;
      OneStep(c, db, pv, LoadingRefund, ch, Moved(db, pv, RetrievingIntent(intent)));
      var money := ch(Rank(RetrievingIntent(intent))).money;
      if !IntentValid(c, money, intent) {
        OneStep(c, db, pv, RetrievingIntent(intent), ch, Moved(db, pv, Flagging("payment_intent_binding_mismatch", false)));
        Flag("payment_intent_binding_mismatch", false, ch);
        return;
      }
      OneStep(c, db, pv, RetrievingIntent(intent), ch, Moved(db, pv, PreparingRefund(money)));
      RefundMoney(money, ch);
    }

    method Flag(code: string, refundFailure: bool, ghost ch: Answers)
      modifies store
      ensures Now() == AdvanceFrom(c, old(store.Db()), pv, Flagging(code, refundFailure), ch)
    {
      ghost var db := store.Db();
      store.MarkAttention(code, refundFailure);
      OneStep(c, db, pv, Flagging(code, refundFailure), ch, Moved(store.Db(), pv, AdvanceDone));
    }

    /** `_ensure_refund` from the validated payment intent to the judged refund history. */
    method RefundMoney(money: IntentEvidence, ch: Answers)
      modifies this, store
      ensures Now() == AdvanceFrom(c, old(store.Db()), old(pv), PreparingRefund(money), ch)
    {
      hide AdvanceFrom, RefundValid, IsMatching, Matching;
      ghost var db := store.Db();
      var ok, operation := store.PrepareRefundOperation(money);
      ghost var db1 := store.Db();
      OneStep(c, db, pv, PreparingRefund(money), ch, Moved(db1, pv, if ok then ListingRefunds(operation) else AdvanceDone));
      if !ok { return; }
      var page := Page(pv.refunds);
      OneStep(c, db1, pv, ListingRefunds(operation), ch, Moved(db1, pv, JudgeRefunds(c.settings, page, operation)));
      var matching := Matching(c.settings, page, operation);
      if |matching| > 1 || (|matching| > 0 && |page| != 1) {
        Flag("conflicting_existing_refunds", true, ch);
      } else if |matching| > 0 {
        if RefundValid(c.settings, matching[0].evidence, operation) {
          BindOrFlag(operation, matching[0].evidence, Matched, ch);
        } else {
          Flag("matching_refund_conflict", true, ch);
        }
      } else if |page| > 1 {
        Flag("conflicting_existing_refunds", true, ch);
      } else if |page| == 1 {
        var existing := page[0].evidence;
        if exists k :: k in Metadata(c.settings, operation) && k in existing.metadata {
          Flag("conflicting_refund_metadata", true, ch);
        } else if existing.intent == operation.intent && existing.currency == operation.currency
                  && existing.amount == operation.amount && existing.status == Succeeded
        {
          BindOrFlag(operation, existing, External, ch);
        } else {
          Flag("conflicting_existing_refund", true, ch);
        }
      } else {
        CreateAndBind(operation, ch);
      }
    }

    method CreateAndBind(operation: Operation, ch: Answers)
      modifies this, store
      ensures Now() == AdvanceFrom(c, old(store.Db()), old(pv), CreatingRefund(operation), ch)
    {
      hide AdvanceFrom, RefundValid;
      ghost var db, pv0 := store.Db(), pv;
      var (pv1, evidence) := CreateRefund(c.settings, pv, operation, ch(Rank(CreatingRefund(operation))));
      pv := pv1;
      if RefundValid(c.settings, evidence, operation) {
        OneStep(c, db, pv0, CreatingRefund(operation), ch, Moved(db, pv, BindingRefund(operation, evidence, Created)));
        BindOrFlag(operation, evidence, Created, ch);
      } else {
        OneStep(c, db, pv0, CreatingRefund(operation), ch, Moved(db, pv, Flagging("refund_provider_binding_mismatch", true)));
        Flag("refund_provider_binding_mismatch", true, ch);
      }
    }

    method BindOrFlag(operation: Operation, evidence: RefundEvidence, origin: Origin, ch: Answers)
      modifies this, store
      ensures Now() == AdvanceFrom(c, old(store.Db()), old(pv), BindingRefund(operation, evidence, origin), ch)
    {
      hide AdvanceFrom;
      ghost var db := store.Db();
      var ok := store.BindRefund(c.settings, operation, evidence, origin.External?,
                                 ch(Rank(BindingRefund(operation, evidence, origin))).taken);
      OneStep(c, db, pv, BindingRefund(operation, evidence, origin), ch,
              Moved(store.Db(), pv, if ok then AdvanceDone else AfterRefusedBinding(origin)));
      if ok { return; }
      match origin {
        case Matched => Flag("matching_refund_conflict", true, ch);
        case External =>
        case Created => Flag("refund_provider_binding_mismatch", true, ch);
      }
    }

    // ---- deliver ----

    method Deliver(ch: Answers)
      modifies this, store
      ensures Now() == DeliverFrom(c, old(store.Db()), old(pv), Converging(true), ch)
    {
      hide DeliverFrom;
      ghost var db := store.Db();
      var ok, converged := store.ConvergeKnownAcceptance(ch(DeliverRank(Converging(true))).now);
      ghost var db1 := store.Db();
      OneDelivery(c, db, pv, Converging(true), ch, Moved(db1, pv, if ok && !converged then Exhausting else DeliverDone));
      if !ok || converged { return; }
      var terminal := store.CommitRetryExhaustion();
      OneDelivery(c, db1, pv, Exhausting, ch, Moved(store.Db(), pv, if terminal then DeliverDone else Converging(false)));
      if terminal { return; }
      DeliverOnce(ch);
    }

    /** `DeliveryService.deliver`, which the wrapper calls. */
    method DeliverOnce(ch: Answers)
      modifies this, store
      ensures Now() == DeliverFrom(c, old(store.Db()), old(pv), Converging(false), ch)
    {
      hide DeliverFrom;
      ghost var db := store.Db();
      var ok, converged := store.ConvergeKnownAcceptance(ch(DeliverRank(Converging(false))).now);
      ghost var db1 := store.Db();
      OneDelivery(c, db, pv, Converging(false), ch, Moved(db1, pv, if ok && !converged then LoadingDelivery else DeliverDone));
      if !ok || converged { return; }
      if store.binding.None? || !ReadyContext(store.order, store.binding.value, true) {
        OneDelivery(c, db1, pv, LoadingDelivery, ch, Moved(db1, pv, DeliverDone));
        return;
      }
      var report, analysis := store.binding.value.reportId.value, store.binding.value.analysisId.value;
      OneDelivery(c, db1, pv, LoadingDelivery, ch, Moved(db1, pv, FetchingReport(report, analysis)));
      var fetched := ch(DeliverRank(FetchingReport(report, analysis))).report == ReportEvidence(report, analysis, RReady);
      OneDelivery(c, db1, pv, FetchingReport(report, analysis), ch,
                  Moved(db1, pv, if fetched then PreparingAttempt(report, analysis) else DeliverDone));
      if !fetched { return; }
      var prepared, i := store.PrepareAttempt(c.settings, report, analysis,
                                                ch(DeliverRank(PreparingAttempt(report, analysis))).now);
      OneDelivery(c, db1, pv, PreparingAttempt(report, analysis), ch,
                  Moved(store.Db(), pv, if prepared then Dispatching(i) else DeliverDone));
      if !prepared { return; }
      SendPrepared(i, ch);
    }

    method SendPrepared(i: nat, ch: Answers)
      modifies this, store
      ensures Now() == DeliverFrom(c, old(store.Db()), old(pv), Dispatching(i), ch)
    {
      hide DeliverFrom;
      ghost var db, pv0 := store.Db(), pv;
      var started := store.MarkDispatchStarted(i);
      ghost var db1 := store.Db();
      OneDelivery(c, db, pv, Dispatching(i), ch, Moved(db1, pv, if started then Sending(i) else DeliverDone));
      if !started { return; }
      pv := pv.(mails := pv.mails + [i]);
      var mail := ch(DeliverRank(Sending(i))).mail;
      OneDelivery(c, db1, pv0, Sending(i), ch, Moved(db1, pv, Recording(i, mail)));
      var answer := ch(DeliverRank(Recording(i, mail)));
      match mail {
        case MailAccepted(messageId) =>
          var recipient := if i < |store.attempts| then store.attempts[i].recipient else "";
          var _ := store.RecordAccepted(i, messageId, recipient, answer.now, answer.taken);
        case MailUncertain(code) => var _ := store.RecordFailure(i, Uncertain, code, true);
        case MailRejected(code, retryable) => var _ := store.RecordFailure(i, Rejected, code, retryable);
      }
      OneDelivery(c, db1, pv, Recording(i, mail), ch, Moved(store.Db(), pv, DeliverDone));
    }
  }
}

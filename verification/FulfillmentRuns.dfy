/** Runs that exist: what an undisturbed call achieves, and what overlapping advance calls can spoil. */
module FulfillmentRuns {
  import opened Prelude
  import opened Orders
  import opened Fulfillment
  import opened FulfillmentProtocol
  import opened FulfillmentInvariant
  import opened FulfillmentSteps
  import opened FulfillmentSafety

  lemma {:induction false} RunAppend(c: Config, s: State, es: seq<Event>, e: Event)
    ensures Run(c, s, es + [e]) == Apply(c, Run(c, s, es), e)
    decreases |es|
  {
    hide Apply;
    if es == [] {
      assert [] + [e] == [e];
      assert Run(c, s, [e]) == Run(c, Apply(c, s, e), [e][1..]);
    } else {
      assert (es + [e])[1..] == es[1..] + [e];
      RunAppend(c, Apply(c, s, es[0]), es[1..], e);
    }
  }

  lemma LeadsNowhere(c: Config, s: State)
    ensures Leads(c, s, s)
  {
    assert s == Run(c, s, []);
  }

  lemma LeadsStep(c: Config, s: State, s': State, e: Event)
    requires Leads(c, s, s')
    ensures Leads(c, s, Apply(c, s', e))
  {
    hide Apply, Run;
    var es :| s' == Run(c, s, es);
    RunAppend(c, s, es, e);
  }

  // ---- advance ----

  /** A call of `base` at `pc`, over these rows and this provider. */
  function At(base: State, t: int, db: Rows, pv: Provider, pc: Advance): State {
    base.(db := db, pv := pv, advances := base.advances[t := pc])
  }

  /** An advance call taken one step further. */
  lemma GoesOn(c: Config, s0: State, base: State, t: int, db: Rows, pv: Provider, pc: Advance, ch: Choice, m: Moved<Advance>)
    requires Leads(c, s0, At(base, t, db, pv, pc)) && Truthful(c, ch) && t !in base.advances
    requires AdvanceStep(c, db, pv, pc, ch) == m
    ensures !m.next.AdvanceDone? ==> Leads(c, s0, At(base, t, m.db, m.pv, m.next))
    ensures m.next.AdvanceDone? ==> Leads(c, s0, base.(db := m.db, pv := m.pv))
  {
    hide AdvanceStep, Truthful, Leads;
    var s := At(base, t, db, pv, pc);
    LeadsStep(c, s0, s, StepAdvance(t, ch));
    if m.next.AdvanceDone? {
      assert s.advances - {t} == base.advances;
    } else {
      assert s.advances[t := m.next] == base.advances[t := m.next];
    }
    assert Apply(c, s, StepAdvance(t, ch)) == MoveAdvance(s, t, m);
  }

  lemma Starts(c: Config, s0: State, s: State, t: int)
    requires Leads(c, s0, s) && MayStart(c, s, t)
    ensures Leads(c, s0, At(s, t, s.db, s.pv, Reading))
  {
    hide Leads;
    LeadsStep(c, s0, s, StartAdvance(t));
  }

  predicate MayStart(c: Config, s: State, t: int) {
    t !in s.advances && (c.serial ==> s.advances == map[])
  }

  /** Nothing fails on the way to a refund. */
  predicate Undisturbed(c: Config, db: Rows, ch: Choice) {
    && Truthful(c, ch)
    && db.paymentIntent == Some(ch.money.id) && IntentValid(c, ch.money, ch.money.id)
    && ch.refundStatus == Succeeded && "re_" <= ch.refundId && !ch.taken
  }

  /** SiteScore confirms the reason once more. */
  predicate Confirmed(b: Binding, reason: Reason, ch: Choice) {
    if reason.BecauseReportFailed? then
      b.reportId == Some(ch.report.id) && b.analysisId == Some(ch.report.analysis) && ch.report.state == RFailed
    else b.analysisId == Some(ch.analysis.id) && AnalysisEnd(reason) == Some(ch.analysis.state)
  }

  function ConfirmedResource(reason: Reason, ch: Choice): Resource {
    if reason.BecauseReportFailed? then TheReport(ch.report.id) else TheAnalysis(ch.analysis.id)
  }

  /**
   * One undisturbed advance call takes an order whose analysis or report failed all the way to a full
   * refund.
   */
  lemma AdvanceRefunds(c: Config, s: State, t: int, ch: Choice) returns (s': State)
    requires MayStart(c, s, t) && Undisturbed(c, s.db, ch) && s.pv.refunds == []
    requires s.db.order.state == FulfillmentInProgress && s.db.refund.None? && s.db.eligibility.None?
    requires s.db.order.payment == PayPaid && s.db.binding.Some?
    requires ReasonOf(s.db.order.fulfillment).Some?
    requires Confirmed(s.db.binding.value, ReasonOf(s.db.order.fulfillment).value, ch)
    ensures Leads(c, s, s') && s'.advances == s.advances && s'.deliveries == s.deliveries
    ensures s'.db.order == s.db.order.(state := Refunded, payment := PayRefunded)
    ensures s'.db.binding == s.db.binding && s'.db.attempts == s.db.attempts && s'.pv.mails == s.pv.mails
    ensures OurTotal(s'.pv.refunds) == c.received
  {
    var reason := ReasonOf(s.db.order.fulfillment).value;
    var resource := ConfirmedResource(reason, ch);
    var db1 := s.db.(eligibility := Some(Eligibility(reason, resource)));
    LeadsNowhere(c, s);
    hide Leads, IntentValid, Truthful;
    Starts(c, s, s, t);
    GoesOn(c, s, s, t, s.db, s.pv, Reading, ch, Moved(s.db, s.pv, Reproving(reason)));
    Reproved(c, s, t, reason, ch);
    hide Confirmed;
    GoesOn(c, s, s, t, s.db, s.pv, Claiming(reason, resource), ch, Moved(db1, s.pv, LoadingRefund));
    s' := RefundFromClaim(c, s, t, db1, reason, resource, ch);
  }

  lemma Reproved(c: Config, s: State, t: int, reason: Reason, ch: Choice)
    requires t !in s.advances && Truthful(c, ch) && Leads(c, s, At(s, t, s.db, s.pv, Reproving(reason)))
    requires s.db.binding.Some? && Confirmed(s.db.binding.value, reason, ch)
    ensures Leads(c, s, At(s, t, s.db, s.pv, Claiming(reason, ConfirmedResource(reason, ch))))
  {
    hide Leads, Truthful;
    var pc := if reason.BecauseReportFailed? then ReprovingReport(reason, ch.report.id, Some(ch.report.analysis))
              else ReprovingAnalysis(reason, ch.analysis.id);
    GoesOn(c, s, s, t, s.db, s.pv, Reproving(reason), ch, Moved(s.db, s.pv, pc));
    GoesOn(c, s, s, t, s.db, s.pv, pc, ch, Moved(s.db, s.pv, Claiming(reason, ConfirmedResource(reason, ch))));
  }

  lemma RefundFromClaim(c: Config, s: State, t: int, db1: Rows, reason: Reason, resource: Resource, ch: Choice)
    returns (s': State)
    requires Leads(c, s, At(s, t, db1, s.pv, LoadingRefund))
    requires t !in s.advances && Undisturbed(c, db1, ch) && s.pv.refunds == []
    requires db1.eligibility == Some(Eligibility(reason, resource)) && db1.refund.None?
    requires db1.order.state == FulfillmentInProgress && db1.order.fulfillment != Delivered
    ensures Leads(c, s, s') && s'.advances == s.advances && s'.deliveries == s.deliveries
    ensures s'.db.order == db1.order.(state := Refunded, payment := PayRefunded)
    ensures s'.db.binding == db1.binding && s'.db.attempts == db1.attempts && s'.pv.mails == s.pv.mails
    ensures OurTotal(s'.pv.refunds) == c.received
  {
    hide Leads, Truthful;
    var money := ch.money;
    var op := Operation(reason, resource, money.id, money.amountReceived, USD);
    IntentRetrieved(c, s, t, db1, ch);
    hide Undisturbed;
    var db2 := db1.(refund := Some(Refund(op, None, None, None, None)));
    GoesOn(c, s, s, t, db1, s.pv, PreparingRefund(money), ch, Moved(db2, s.pv, ListingRefunds(op)));
    hide IntentValid;
    GoesOn(c, s, s, t, db2, s.pv, ListingRefunds(op), ch, Moved(db2, s.pv, CreatingRefund(op)));
    s' := RefundCreated(c, s, t, db2, op, ch);
    assert op.amount == c.received by { TruthfulMoney(c, ch); }
  }

  lemma IntentRetrieved(c: Config, s: State, t: int, db1: Rows, ch: Choice)
    requires Leads(c, s, At(s, t, db1, s.pv, LoadingRefund)) && t !in s.advances && Undisturbed(c, db1, ch)
    requires db1.eligibility.Some?
    ensures Leads(c, s, At(s, t, db1, s.pv, PreparingRefund(ch.money)))
    ensures Truthful(c, ch) && db1.paymentIntent == Some(ch.money.id) && ch.money.amountReceived > 0 && ch.money.currency == USD
    ensures ch.refundStatus == Succeeded && "re_" <= ch.refundId && !ch.taken
  {
    hide Leads, Truthful;
    GoesOn(c, s, s, t, db1, s.pv, LoadingRefund, ch, Moved(db1, s.pv, RetrievingIntent(ch.money.id)));
    GoesOn(c, s, s, t, db1, s.pv, RetrievingIntent(ch.money.id), ch, Moved(db1, s.pv, PreparingRefund(ch.money)));
  }

  lemma TruthfulMoney(c: Config, ch: Choice)
    requires Truthful(c, ch)
    ensures ch.money.amountReceived == c.received
  {
  }

  lemma RefundCreated(c: Config, s: State, t: int, db2: Rows, op: Operation, ch: Choice) returns (s': State)
    requires Leads(c, s, At(s, t, db2, s.pv, CreatingRefund(op)))
    requires t !in s.advances && Truthful(c, ch) && s.pv.refunds == []
    requires ch.refundStatus == Succeeded && "re_" <= ch.refundId && !ch.taken
    requires db2.refund == Some(Refund(op, None, None, None, None))
    ensures Leads(c, s, s') && s'.advances == s.advances && s'.deliveries == s.deliveries
    ensures s'.db.order == db2.order.(state := Refunded, payment := PayRefunded)
    ensures s'.db.binding == db2.binding && s'.db.attempts == db2.attempts && s'.pv.mails == s.pv.mails
    ensures OurTotal(s'.pv.refunds) == op.amount
  {
    hide Leads, Truthful;
    var ev := RefundEvidence(ch.refundId, op.intent, op.amount, op.currency, Succeeded, Metadata(c.settings, op));
    var pv := s.pv.(refunds := [ProviderRefund(ev, true, ev)]);
    GoesOn(c, s, s, t, db2, s.pv, CreatingRefund(op), ch, Moved(db2, pv, BindingRefund(op, ev, Created)));
    var db3 := BindRefund(c.settings, db2, op, ev, false, false).rows;
    GoesOn(c, s, s, t, db2, pv, BindingRefund(op, ev, Created), ch, Moved(db3, pv, AdvanceDone));
    s' := s.(db := db3, pv := pv);
    assert OurTotal(pv.refunds) == ev.amount + OurTotal([]);
  }

  // ---- Overlapping advance calls ----

  function Failing(): Config {
    Config(Settings("o", "{}", true, 7), "p", (id: Id) => AFailed, (id: Id) => RFailed, (id: Id) => 1, 100, false, true)
  }

  function Seen(st: AnalysisState): Choice {
    Choice(0, AnalysisEvidence(1, st), ReportEvidence(1, 1, RFailed),
           IntentEvidence("pi_1", 100, USD, true, map["sitescore_order_id" := "o", "sitescore_product_code" := "p"]),
           "re_1", Succeeded, false, MailUncertain("-"))
  }

  /**
   * Refunded is not final when advance calls overlap: one that polled the analysis while it was running
   * stores that observation after another has refunded the order, and the order is in progress again.
   */
  lemma OverlapRevivesARefundedOrder() returns (s: State, s': State)
    ensures Reachable(Failing(), s) && Leads(Failing(), s, s')
    ensures s.db.order.state == Refunded && OurTotal(s.pv.refunds) == 100
    ensures s'.db.order.state == FulfillmentInProgress && s'.db.order.payment == PayPaid
    ensures s'.db.order.fulfillment == AnalysisRunning && OurTotal(s'.pv.refunds) == 100
  {
    var c := Failing();
    var stale := BindingAnalysis(AnalysisEvidence(1, ARunning));
    var polled := SubmittedAndPolled();
    var failed := FoundFailed(polled);
    hide Leads, Reachable;
    s := AdvanceRefunds(c, failed, 4, Seen(AFailed));
    ReachableLeads(c, polled, failed);
    ReachableLeads(c, failed, s);
    assert s.advances[2] == stale;
    s' := StaleWrite(c, s);
  }

  lemma StaleWrite(c: Config, s: State) returns (s': State)
    requires c == Failing() && 2 in s.advances && s.advances[2] == BindingAnalysis(AnalysisEvidence(1, ARunning))
    requires s.db.binding.Some? && s.db.binding.value.analysisId == Some(1)
    ensures Leads(c, s, s') && s'.pv == s.pv && s'.db.order == AfterAnalysis(s.db.order, ARunning)
  {
    LeadsNowhere(c, s);
    LeadsStep(c, s, s, StepAdvance(2, Seen(ARunning)));
    s' := Apply(c, s, StepAdvance(2, Seen(ARunning)));
  }

  lemma ReachableLeads(c: Config, s: State, s': State)
    requires Reachable(c, s) && Leads(c, s, s')
    ensures Reachable(c, s')
  {
    hide Run, Init;
    var product: string, catalog: string, email: string, intent: Option<string> :|
      Leads(c, Init(product, catalog, email, intent), s);
    var init := Init(product, catalog, email, intent);
    var es :| s == Run(c, init, es);
    var fs :| s' == Run(c, s, fs);
    RunConcat(c, init, es, fs);
    assert Leads(c, init, s');
  }

  lemma {:induction false} RunConcat(c: Config, s: State, es: seq<Event>, fs: seq<Event>)
    ensures Run(c, s, es + fs) == Run(c, Run(c, s, es), fs)
    decreases |es|
  {
    hide Apply;
    if es == [] {
      assert es + fs == fs;
    } else {
      assert (es + fs)[1..] == es[1..] + fs;
      RunConcat(c, Apply(c, s, es[0]), es[1..], fs);
    }
  }

  function Running(st: AnalysisState, stale: map<int, Advance>): State {
    var b := Binding(AnalysisKey(Failing().settings), "{}", Some(1), Some(st), None, None);
    State(Rows(Order("p", "c", "e", FulfillmentInProgress, PayPaid, AfterAnalysis(Order("p", "c", "e", Paid, PayPaid, NotStarted), st).fulfillment),
               Some("pi_1"), Some(b), None, None, []), Provider([], []), stale, map[])
  }

  const STALE: map<int, Advance> := map[2 := BindingAnalysis(AnalysisEvidence(1, ARunning))]

  function FirstSubmission(c: Config): Advance {
    Submitting(AnalysisKey(c.settings), c.settings.request, None)
  }

  /** A new order, paid, its analysis submitted and the answer stored. */
  function Submitted(c: Config, product: string, catalog: string, email: string, intent: Option<string>,
      ev: AnalysisEvidence): State {
    State(Rows(AfterAnalysis(Order(product, catalog, email, Paid, PayPaid, NotStarted), ev.state), intent,
               Some(Binding(AnalysisKey(c.settings), c.settings.request, Some(ev.id), Some(ev.state), None, None)), None,
                   None, []),
          Provider([], []), map[], map[])
  }

  /** One undisturbed advance call submits the analysis of a paid order. */
  lemma AdvanceSubmits(c: Config, product: string, catalog: string, email: string, intent: Option<string>, ch: Choice)
    requires Truthful(c, ch) && !ch.taken
    ensures Reachable(c, Submitted(c, product, catalog, email, intent, ch.analysis))
  {
    var init := Init(product, catalog, email, intent);
    LeadsNowhere(c, init);
    LeadsStep(c, init, init, Decide(true));
    hide Leads, Truthful;
    var base := init.(db := init.db.(order := Order(product, catalog, email, Paid, PayPaid, NotStarted)));
    var pv := Provider([], []);
    var empty := Binding(AnalysisKey(c.settings), c.settings.request, None, None, None, None);
    var db1 := base.db.(order := Order(product, catalog, email, FulfillmentInProgress, PayPaid, AnalysisPending),
                        binding := Some(empty));
    Starts(c, init, base, 1);
    GoesOn(c, init, base, 1, base.db, pv, Reading, ch, Moved(base.db, pv, Preparing));
    GoesOn(c, init, base, 1, base.db, pv, Preparing, ch, Moved(db1, pv, FirstSubmission(c)));
    AnswerIsStored(c, init, base, db1, pv, ch);
    InitReaches(c, product, catalog, email, intent, Submitted(c, product, catalog, email, intent, ch.analysis));
  }

  lemma AnswerIsStored(c: Config, init: State, base: State, db1: Rows, pv: Provider, ch: Choice)
    requires Truthful(c, ch) && !ch.taken
    requires 1 !in base.advances && Leads(c, init, At(base, 1, db1, pv, FirstSubmission(c)))
    requires db1.binding.Some? && db1.binding.value.analysisId.None?
    ensures Leads(c, init, base.(db := BindAnalysis(db1, ch.analysis).rows, pv := pv))
  {
    hide Leads, Truthful;
    GoesOn(c, init, base, 1, db1, pv, FirstSubmission(c), ch, Moved(db1, pv, BindingAnalysis(ch.analysis)));
    GoesOn(c, init, base, 1, db1, pv, BindingAnalysis(ch.analysis), ch, Moved(BindAnalysis(db1, ch.analysis).rows, pv,
        AdvanceDone));
  }

  /** The analysis is submitted, and a second call has just polled it. */
  lemma SubmittedAndPolled() returns (s: State)
    ensures Reachable(Failing(), s) && s == Running(ARunning, STALE)
  {
    var c := Failing();
    var ch := Seen(ARunning);
    AdvanceSubmits(c, "p", "c", "e", Some("pi_1"), ch);
    hide Leads, Reachable;
    var s0 := Submitted(c, "p", "c", "e", Some("pi_1"), ch.analysis);
    assert s0 == Running(ARunning, map[]);
    LeadsNowhere(c, s0);
    Polled(c, s0, s0, 2, ARunning, ch);
    s := Running(ARunning, STALE);
    ReachableLeads(c, s0, s);
  }

  lemma InitReaches(c: Config, product: string, catalog: string, email: string, intent: Option<string>, s: State)
    requires Leads(c, Init(product, catalog, email, intent), s)
    ensures Reachable(c, s)
  {
  }

  /** An advance call polls the analysis and is about to store what it saw. */
  lemma Polled(c: Config, init: State, s: State, t: int, st: AnalysisState, ch: Choice)
    requires c == Failing() && ch == Seen(st) && st in {ARunning, AFailed}
    requires Leads(c, init, s) && t !in s.advances && s.db == Running(ARunning, map[]).db
    ensures Leads(c, init, At(s, t, s.db, s.pv, BindingAnalysis(ch.analysis)))
  {
    hide Leads;
    Starts(c, init, s, t);
    GoesOn(c, init, s, t, s.db, s.pv, Reading, ch, Moved(s.db, s.pv, LoadingAnalysis));
    GoesOn(c, init, s, t, s.db, s.pv, LoadingAnalysis, ch, Moved(s.db, s.pv, PollingAnalysis(1)));
    GoesOn(c, init, s, t, s.db, s.pv, PollingAnalysis(1), ch, Moved(s.db, s.pv, BindingAnalysis(ch.analysis)));
  }

  /** A third call finds that the analysis has failed. */
  lemma FoundFailed(s: State) returns (s': State)
    requires s == Running(ARunning, STALE)
    ensures Leads(Failing(), s, s') && s' == Running(AFailed, STALE)
  {
    hide Leads;
    var c, ch := Failing(), Seen(AFailed);
    LeadsNowhere(c, s);
    Polled(c, s, s, 3, AFailed, ch);
    GoesOn(c, s, s, 3, s.db, s.pv, BindingAnalysis(ch.analysis), ch, Moved(Running(AFailed, STALE).db, s.pv, AdvanceDone));
    s' := Running(AFailed, STALE);
  }

  // ---- deliver ----

  function AtDelivery(base: State, t: int, db: Rows, pv: Provider, pc: Deliver): State {
    base.(db := db, pv := pv, deliveries := base.deliveries[t := pc])
  }

  lemma DeliverGoes(c: Config, s0: State, base: State, t: int, db: Rows, pv: Provider, pc: Deliver, ch: Choice,
      m: Moved<Deliver>)
    requires Leads(c, s0, AtDelivery(base, t, db, pv, pc)) && Truthful(c, ch) && t !in base.deliveries
    requires DeliverStep(c, db, pv, pc, ch) == m
    ensures !m.next.DeliverDone? ==> Leads(c, s0, AtDelivery(base, t, m.db, m.pv, m.next))
    ensures m.next.DeliverDone? ==> Leads(c, s0, base.(db := m.db, pv := m.pv))
  {
    hide DeliverStep, Truthful, Leads;
    var s := AtDelivery(base, t, db, pv, pc);
    LeadsStep(c, s0, s, StepDeliver(t, ch));
    if m.next.DeliverDone? {
      assert s.deliveries - {t} == base.deliveries;
    } else {
      assert s.deliveries[t := m.next] == base.deliveries[t := m.next];
    }
    assert Apply(c, s, StepDeliver(t, ch)) == MoveDeliver(s, t, m);
  }

  predicate ReadyToDeliver(db: Rows, ch: Choice) {
    && db.binding.Some? && ReadyContext(db.order, db.binding.value, true)
    && db.binding.value.reportId == Some(ch.report.id) && db.binding.value.analysisId == Some(ch.report.analysis)
    && ch.report.state == RReady
    && FirstAccepted(db.attempts).None? && MaxNumber(db.attempts) == |db.attempts| < MAX_ATTEMPTS
  }

  function Dispatched(c: Config, db: Rows, ch: Choice): Attempt {
    Attempt(|db.attempts| + 1, ch.report.id, Grant(ch.report.id, ch.now + c.settings.grantTtl, false), db.order.email,
        DispatchStarted,
            None, None)
  }

  /** A deliver call up to the answer of the mail provider, not yet recorded. */
  lemma DeliverSends(c: Config, s0: State, s: State, t: int, ch: Choice)
    requires Leads(c, s0, s) && t !in s.deliveries && Truthful(c, ch) && ReadyToDeliver(s.db, ch)
    ensures Leads(c, s0, AtDelivery(s, t, s.db.(attempts := s.db.attempts + [Dispatched(c, s.db, ch)]),
                                    s.pv.(mails := s.pv.mails + [|s.db.attempts|]), Recording(|s.db.attempts|, ch.mail)))
  {
    hide Leads, FirstAccepted, MaxNumber, Truthful;
    var db, n := s.db, |s.db.attempts|;
    var a := Dispatched(c, db, ch);
    var prepared := db.(attempts := db.attempts + [a.(status := Prepared)]);
    var started := db.(attempts := db.attempts + [a]);
    NothingConverges(c, s0, s, t, ch);
    DeliverGoes(c, s0, s, t, db, s.pv, LoadingDelivery, ch, Moved(db, s.pv, FetchingReport(ch.report.id, ch.report.analysis)));
    DeliverGoes(c, s0, s, t, db, s.pv, FetchingReport(ch.report.id, ch.report.analysis), ch,
                Moved(db, s.pv, PreparingAttempt(ch.report.id, ch.report.analysis)));
    DeliverGoes(c, s0, s, t, db, s.pv, PreparingAttempt(ch.report.id, ch.report.analysis), ch,
                Moved(prepared, s.pv, Dispatching(n)));
    MailSent(c, s0, s, t, prepared, a, n, ch);
    assert prepared.attempts[n := a] == started.attempts;
  }

  lemma NothingConverges(c: Config, s0: State, s: State, t: int, ch: Choice)
    requires Leads(c, s0, s) && t !in s.deliveries && Truthful(c, ch) && ReadyToDeliver(s.db, ch)
    ensures Leads(c, s0, AtDelivery(s, t, s.db, s.pv, LoadingDelivery))
  {
    hide Leads, FirstAccepted, MaxNumber, Truthful;
    LeadsStep(c, s0, s, StartDeliver(t));
    DeliverGoes(c, s0, s, t, s.db, s.pv, Converging(true), ch, Moved(s.db, s.pv, Exhausting));
    DeliverGoes(c, s0, s, t, s.db, s.pv, Exhausting, ch, Moved(s.db, s.pv, Converging(false)));
    DeliverGoes(c, s0, s, t, s.db, s.pv, Converging(false), ch, Moved(s.db, s.pv, LoadingDelivery));
  }

  lemma MailSent(c: Config, s0: State, s: State, t: int, db: Rows, a: Attempt, n: nat, ch: Choice)
    requires Leads(c, s0, AtDelivery(s, t, db, s.pv, Dispatching(n))) && t !in s.deliveries && Truthful(c, ch)
    requires n < |db.attempts| && db.attempts[n] == a.(status := Prepared) && a.status == DispatchStarted
    ensures Leads(c, s0, AtDelivery(s, t, db.(attempts := db.attempts[n := a]), s.pv.(mails := s.pv.mails + [n]),
                                    Recording(n, ch.mail)))
  {
    hide Leads, Truthful;
    var started := db.(attempts := db.attempts[n := a]);
    DeliverGoes(c, s0, s, t, db, s.pv, Dispatching(n), ch, Moved(started, s.pv, Sending(n)));
    DeliverGoes(c, s0, s, t, started, s.pv, Sending(n), ch,
                Moved(started, s.pv.(mails := s.pv.mails + [n]), Recording(n, ch.mail)));
  }

  function Working(stay: bool): Config {
    Config(Settings("o", "{}", true, 7), "p", (id: Id) => ACompleted, (id: Id) => RReady, (id: Id) => 1, 100, false, stay)
  }

  function Ready(now: int, messageId: string): Choice {
    Choice(now, AnalysisEvidence(1, ACompleted), ReportEvidence(1, 1, RReady), IntentEvidence("-", 100, USD, true, map[]), "-", Unknown,
           false, MailAccepted(messageId))
  }

  /** The order with its ready report, and an advance call holding the same report unrecorded. */
  function Reported(attempts: seq<Attempt>, mails: seq<nat>): State {
    var b := Binding(AnalysisKey(Working(true).settings), "{}", Some(1), Some(ACompleted), Some(1), Some(RReady));
    State(Rows(Order("p", "c", "e", FulfillmentInProgress, PayPaid, DeliveryPending), None, Some(b), None, None, attempts),
          Provider([], mails), map[2 := BindingReport(ReportEvidence(1, 1, RReady))], map[])
  }

  lemma ReportedIsReachable()
    ensures Reachable(Working(true), Reported([], []))
  {
    var c := Working(true);
    var ch := Ready(0, "m");
    AdvanceSubmits(c, "p", "c", "e", None, ch);
    hide Leads, Reachable;
    var s0 := Submitted(c, "p", "c", "e", None, ch.analysis);
    LeadsNowhere(c, s0);
    Resolved(c, s0, s0, 2);
    var s1 := At(s0, 2, s0.db, s0.pv, BindingReport(ch.report));
    Resolved(c, s0, s1, 3);
    ReportIsStored(s0, s1);
    ReachableLeads(c, s0, Reported([], []));
  }

  lemma ReportIsStored(s0: State, s1: State)
    requires s0 == Submitted(Working(true), "p", "c", "e", None, AnalysisEvidence(1, ACompleted))
    requires s1 == At(s0, 2, s0.db, s0.pv, BindingReport(ReportEvidence(1, 1, RReady)))
    requires Leads(Working(true), s0, At(s1, 3, s1.db, s1.pv, BindingReport(ReportEvidence(1, 1, RReady))))
    ensures Leads(Working(true), s0, Reported([], []))
  {
    hide Leads;
    var ch := Ready(0, "m");
    var db := Reported([], []).db;
    GoesOn(Working(true), s0, s1, 3, s1.db, s1.pv, BindingReport(ch.report), ch, Moved(db, s1.pv, AdvanceDone));
    assert s1.(db := db, pv := s1.pv) == Reported([], []);
  }

  /** An advance call fetches the report and is about to store it. */
  lemma Resolved(c: Config, init: State, s: State, t: int)
    requires c == Working(c.reportsStay) && Leads(c, init, s) && t !in s.advances
    requires s.db.order == Order("p", "c", "e", FulfillmentInProgress, PayPaid, ReportPending)
    requires s.db.binding == Some(Binding(AnalysisKey(c.settings), "{}", Some(1), Some(ACompleted), None, None))
    ensures Leads(c, init, At(s, t, s.db, s.pv, BindingReport(ReportEvidence(1, 1, RReady))))
  {
    hide Leads;
    var ch := Ready(0, "m");
    Starts(c, init, s, t);
    GoesOn(c, init, s, t, s.db, s.pv, Reading, ch, Moved(s.db, s.pv, LoadingReport));
    GoesOn(c, init, s, t, s.db, s.pv, LoadingReport, ch, Moved(s.db, s.pv, ResolvingReport(1)));
    GoesOn(c, init, s, t, s.db, s.pv, ResolvingReport(1), ch, Moved(s.db, s.pv, BindingReport(ch.report)));
  }

  /**
   * Two attempts can both be accepted when advance calls overlap: a stale report observation opens the
   * delivered order again, for an attempt that was already under way.
   */
  lemma OverlapAcceptsTwice() returns (s: State)
    ensures Reachable(Working(true), s) && |s.db.attempts| == 2
    ensures s.db.attempts[0].status == Accepted && s.db.attempts[1].status == Accepted
    ensures s.db.attempts[0].messageId != s.db.attempts[1].messageId
  {
    var c := Working(true);
    var s0 := Reported([], []);
    var first, second := Ready(0, "m1"), Ready(0, "m2");
    LeadsNowhere(c, s0);
    hide Leads, Reachable;
    DeliverSends(c, s0, s0, 1, first);
    var a1 := Dispatched(c, s0.db, first);
    var s1 := AtDelivery(s0, 1, s0.db.(attempts := [a1]), Provider([], [0]), Recording(0, first.mail));
    assert s0.db.attempts + [a1] == [a1] && s0.pv.mails + [0] == [0];
    var acc2, pv2 := Dispatched(c, s1.db, second).(status := Accepted, messageId := Some("m2")), Provider([], [0, 1]);
    SecondAccepted(s0, s1, a1);
    s := StaleReportThenAcceptance(s0, s1.(db := s0.db.(attempts := [a1, acc2], order := Fulfil(s0.db.order)),
        pv := pv2), a1, acc2,
                                   pv2);
    ReportedIsReachable();
    ReachableLeads(c, s0, s);
  }

  /** While the first attempt's answer is outstanding, a second attempt is sent and accepted. */
  lemma SecondAccepted(s0: State, s1: State, a1: Attempt)
    requires s0 == Reported([], []) && a1 == Dispatched(Working(true), s0.db, Ready(0, "m1"))
    requires s1 == AtDelivery(s0, 1, s0.db.(attempts := [a1]), Provider([], [0]), Recording(0, MailAccepted("m1")))
    requires Leads(Working(true), s0, s1)
    ensures var acc2 := Dispatched(Working(true), s1.db, Ready(0, "m2")).(status := Accepted, messageId := Some("m2"));
            Leads(Working(true), s0, s1.(db := s0.db.(attempts := [a1, acc2], order := Fulfil(s0.db.order)),
                pv := Provider([], [0, 1])))
  {
    var c, second := Working(true), Ready(0, "m2");
    assert MaxNumber(s1.db.attempts[..0]) == 0;
    hide Leads;
    DeliverSends(c, s0, s1, 2, second);
    var a2 := Dispatched(c, s1.db, second);
    assert [a1] + [a2] == [a1, a2] && [0] + [1] == [0, 1];
    var db2 := s1.db.(attempts := [a1, a2]);
    var acc2 := a2.(status := Accepted, messageId := Some("m2"));
    assert [a1, a2][1 := acc2] == [a1, acc2];
    DeliverGoes(c, s0, s1, 2, db2, Provider([], [0, 1]), Recording(1, second.mail), second,
                Moved(s0.db.(attempts := [a1, acc2], order := Fulfil(s0.db.order)), Provider([], [0, 1]), DeliverDone));
  }

  lemma StaleReportThenAcceptance(s0: State, s: State, a1: Attempt, acc2: Attempt, pv: Provider) returns (s': State)
    requires Leads(Working(true), s0, s) && s0 == Reported([], [])
    requires a1 == Dispatched(Working(true), s0.db, Ready(0, "m1")) && acc2.status == Accepted && acc2.messageId == Some("m2")
    requires s == AtDelivery(s0, 1, s0.db.(attempts := [a1, acc2], order := Fulfil(s0.db.order)), pv, Recording(0, MailAccepted("m1")))
    ensures Leads(Working(true), s0, s') && s'.db.attempts == [a1.(status := Accepted, messageId := Some("m1")), acc2]
  {
    var c, ch := Working(true), Ready(0, "m1");
    LeadsStep(c, s0, s, StepAdvance(2, ch));
    hide Leads;
    var s1 := Apply(c, s, StepAdvance(2, ch));
    assert s1.db == s.db.(order := s0.db.order) && s1.deliveries == s.deliveries;
    s' := LateAcceptance(s0, s1, a1, acc2);
  }

  lemma LateAcceptance(s0: State, s: State, a1: Attempt, acc2: Attempt) returns (s': State)
    requires Leads(Working(true), s0, s) && s0 == Reported([], [])
    requires a1 == Dispatched(Working(true), s0.db, Ready(0, "m1"))
    requires s.db == s0.db.(attempts := [a1, acc2]) && 1 in s.deliveries && s.deliveries[1] == Recording(0, MailAccepted("m1"))
    ensures Leads(Working(true), s0, s') && s'.db.attempts == [a1.(status := Accepted, messageId := Some("m1")), acc2]
  {
    var c, ch := Working(true), Ready(0, "m1");
    LeadsStep(c, s0, s, StepDeliver(1, ch));
    hide Leads;
    s' := Apply(c, s, StepDeliver(1, ch));
    assert s'.db.attempts == [a1.(status := Accepted, messageId := Some("m1")), acc2];
  }

  // ---- A report that fails after it was found ready ----

  function Withdrawn(): Choice {
    Seen(ARunning).(report := ReportEvidence(1, 1, RFailed))
  }

  function Bound(report: Option<ReportState>, fulfillment: FulfillmentState, attempts: seq<Attempt>): Rows {
    var id: Option<Id> := if report.Some? then Some(1) else None;
    Rows(Order("p", "c", "e", FulfillmentInProgress, PayPaid, fulfillment), Some("pi_1"),
         Some(Binding(AnalysisKey(Working(false).settings), "{}", Some(1), Some(ACompleted), id, report)), None, None, attempts)
  }

  /** One advance call is about to ask for the report; a second has found it ready and stored it. */
  lemma AskedAndStored() returns (s: State)
    ensures Reachable(Working(false), s)
    ensures s == State(Bound(Some(RReady), DeliveryPending, []), Provider([], []), map[2 := ResolvingReport(1)], map[])
  {
    var c, ch := Working(false), Ready(0, "m");
    AdvanceSubmits(c, "p", "c", "e", Some("pi_1"), ch);
    hide Leads, Reachable;
    var s0 := Submitted(c, "p", "c", "e", Some("pi_1"), ch.analysis);
    assert s0.db == Bound(None, ReportPending, []);
    LeadsNowhere(c, s0);
    Starts(c, s0, s0, 2);
    GoesOn(c, s0, s0, 2, s0.db, s0.pv, Reading, ch, Moved(s0.db, s0.pv, LoadingReport));
    GoesOn(c, s0, s0, 2, s0.db, s0.pv, LoadingReport, ch, Moved(s0.db, s0.pv, ResolvingReport(1)));
    s := StoredBySecond(s0, At(s0, 2, s0.db, s0.pv, ResolvingReport(1)));
    ReachableLeads(c, s0, s);
  }

  lemma StoredBySecond(s0: State, s1: State) returns (s: State)
    requires Leads(Working(false), s0, s1)
    requires s1 == State(Bound(None, ReportPending, []), Provider([], []), map[2 := ResolvingReport(1)], map[])
    ensures Leads(Working(false), s0, s)
    ensures s == State(Bound(Some(RReady), DeliveryPending, []), Provider([], []), map[2 := ResolvingReport(1)], map[])
  {
    hide Leads;
    var c, ch := Working(false), Ready(0, "m");
    Resolved(c, s0, s1, 3);
    var db := Bound(Some(RReady), DeliveryPending, []);
    GoesOn(c, s0, s1, 3, s1.db, s1.pv, BindingReport(ch.report), ch, Moved(db, s1.pv, AdvanceDone));
    s := s1.(db := db, pv := s1.pv);
  }

  /** The report is delivered. */
  lemma DeliveredMeanwhile(s: State) returns (s': State, a: Attempt)
    requires s == State(Bound(Some(RReady), DeliveryPending, []), Provider([], []), map[2 := ResolvingReport(1)], map[])
    ensures Leads(Working(false), s, s') && a.status == Accepted
    ensures s'.db == Bound(Some(RReady), DeliveryPending, [a]).(order := Fulfil(s.db.order)) && s'.pv == Provider([], [0])
    ensures s'.advances == s.advances && s'.deliveries == map[]
  {
    var c, ch := Working(false), Ready(0, "m");
    LeadsNowhere(c, s);
    hide Leads;
    DeliverSends(c, s, s, 1, ch);
    var a0 := Dispatched(c, s.db, ch);
    a := a0.(status := Accepted, messageId := Some("m"));
    assert s.db.attempts + [a0] == [a0] && s.pv.mails + [0] == [0] && [a0][0 := a] == [a];
    var db := s.db.(attempts := [a], order := Fulfil(s.db.order));
    DeliverGoes(c, s, s, 1, s.db.(attempts := [a0]), Provider([], [0]), Recording(0, ch.mail), ch,
                Moved(db, Provider([], [0]), DeliverDone));
    s' := s.(db := db, pv := Provider([], [0]));
  }

  /** The first call now finds the report failed, and stores that. */
  lemma FailureStored(s: State, a: Attempt) returns (s': State)
    requires s.db == Bound(Some(RReady), DeliveryPending, [a]).(order := s.db.order)
    requires s.db.order.(state := FulfillmentInProgress, payment := PayPaid, fulfillment := ReportFailed)
          == Order("p", "c", "e", FulfillmentInProgress, PayPaid, ReportFailed)
    requires s.advances == map[2 := ResolvingReport(1)]
    ensures Leads(Working(false), s, s') && s'.db == Bound(Some(RFailed), ReportFailed, [a])
    ensures s'.pv == s.pv && s'.advances == map[] && s'.deliveries == s.deliveries
  {
    var c, ch := Working(false), Withdrawn();
    LeadsNowhere(c, s);
    hide Leads;
    var base := s.(advances := map[]);
    assert s == At(base, 2, s.db, s.pv, ResolvingReport(1));
    GoesOn(c, s, base, 2, s.db, s.pv, ResolvingReport(1), ch, Moved(s.db, s.pv, BindingReport(ch.report)));
    var db := Bound(Some(RFailed), ReportFailed, [a]);
    GoesOn(c, s, base, 2, s.db, s.pv, BindingReport(ch.report), ch, Moved(db, s.pv, AdvanceDone));
    s' := base.(db := db, pv := s.pv);
  }

  /** The mail of the one attempt is out, and its final rejection not yet recorded. */
  lemma RejectionOutstanding(s: State) returns (s': State, a: Attempt)
    requires s == State(Bound(Some(RReady), DeliveryPending, []), Provider([], []), map[2 := ResolvingReport(1)], map[])
    ensures Leads(Working(false), s, s') && a.status == DispatchStarted
    ensures s'.db == Bound(Some(RReady), DeliveryPending, [a]) && s'.pv == Provider([], [0]) && s'.advances == s.advances
    ensures s'.deliveries == map[1 := Recording(0, MailRejected("x", false))]
  {
    var c, ch := Working(false), Ready(0, "m").(mail := MailRejected("x", false));
    LeadsNowhere(c, s);
    hide Leads;
    DeliverSends(c, s, s, 1, ch);
    a := Dispatched(c, s.db, ch);
    assert s.db.attempts + [a] == [a] && s.pv.mails + [0] == [0];
    s' := AtDelivery(s, 1, s.db.(attempts := [a]), Provider([], [0]), Recording(0, ch.mail));
  }

  /**
   * Refunded is not final for deliveries either: one whose rejection is recorded after the refund writes the
   * order back to paid, with no advance call under way.
   */
  lemma LateRejectionTakesBackARefund() returns (s: State, s': State)
    ensures Reachable(Working(false), s) && Leads(Working(false), s, s') && s.advances == map[]
    ensures s.db.order.state == Refunded && s.db.order.payment == PayRefunded && OurTotal(s.pv.refunds) == 100
    ensures s'.db.order.state == AttentionRequired && s'.db.order.payment == PayPaid
    ensures s'.db.order.fulfillment == DeliveryFailed && OurTotal(s'.pv.refunds) == 100
  {
    var c := Working(false);
    var s1 := AskedAndStored();
    hide Leads, Reachable;
    var s2, a := RejectionOutstanding(s1);
    var s3 := FailureStored(s2, a);
    ReachableLeads(c, s1, s2);
    ReachableLeads(c, s2, s3);
    s := AdvanceRefunds(c, s3, 4, Withdrawn());
    ReachableLeads(c, s3, s);
    s' := RejectionRecorded(s);
  }

  lemma RejectionRecorded(s: State) returns (s': State)
    requires 1 in s.deliveries && s.deliveries[1] == Recording(0, MailRejected("x", false))
    requires |s.db.attempts| == 1 && s.db.attempts[0].status == DispatchStarted
    ensures Leads(Working(false), s, s') && s'.db.order == GiveUp(s.db.order) && s'.pv == s.pv
  {
    var c, ch := Working(false), Ready(0, "m");
    LeadsNowhere(c, s);
    LeadsStep(c, s, s, StepDeliver(1, ch));
    hide Leads;
    s' := Apply(c, s, StepDeliver(1, ch));
  }

  /**
   * The exclusion of delivery and refund does not survive both at once, overlapping advance calls and a
   * report that becomes failed after it was found ready: the customer has the mail and the money.
   */
  lemma WithdrawnReportIsDeliveredAndRefunded() returns (s: State)
    ensures Reachable(Working(false), s)
    ensures |s.db.attempts| == 1 && s.db.attempts[0].status == Accepted && s.pv.mails == [0]
    ensures s.db.order.state == Refunded && OurTotal(s.pv.refunds) == 100
  {
    var c := Working(false);
    var s1 := AskedAndStored();
    hide Leads, Reachable;
    var s2, a := DeliveredMeanwhile(s1);
    var s3 := FailureStored(s2, a);
    ReachableLeads(c, s1, s2);
    ReachableLeads(c, s2, s3);
    s := AdvanceRefunds(c, s3, 4, Withdrawn());
    ReachableLeads(c, s3, s);
  }

  /** One advance call holds the ready report unrecorded; another finds the report failed and stores that. */
  lemma HeldAndFailed() returns (s: State)
    ensures Reachable(Working(false), s)
    ensures s == State(Bound(Some(RFailed), ReportFailed, []), Provider([], []), map[2 := BindingReport(ReportEvidence(1, 1, RReady))],
                       map[])
  {
    var c, ch := Working(false), Ready(0, "m");
    AdvanceSubmits(c, "p", "c", "e", Some("pi_1"), ch);
    hide Leads, Reachable;
    var s0 := Submitted(c, "p", "c", "e", Some("pi_1"), ch.analysis);
    assert s0.db == Bound(None, ReportPending, []);
    LeadsNowhere(c, s0);
    Resolved(c, s0, s0, 2);
    s := FailedBySecond(s0, At(s0, 2, s0.db, s0.pv, BindingReport(ch.report)));
    ReachableLeads(c, s0, s);
  }

  lemma FailedBySecond(s0: State, s1: State) returns (s: State)
    requires Leads(Working(false), s0, s1) && s1.pv == Provider([], []) && s1.deliveries == map[]
    requires s1.db == Bound(None, ReportPending, []) && 3 !in s1.advances
    ensures Leads(Working(false), s0, s) && s == s1.(db := Bound(Some(RFailed), ReportFailed, []))
  {
    hide Leads;
    var c, ch, db := Working(false), Withdrawn(), Bound(Some(RFailed), ReportFailed, []);
    Starts(c, s0, s1, 3);
    GoesOn(c, s0, s1, 3, s1.db, s1.pv, Reading, ch, Moved(s1.db, s1.pv, LoadingReport));
    GoesOn(c, s0, s1, 3, s1.db, s1.pv, LoadingReport, ch, Moved(s1.db, s1.pv, ResolvingReport(1)));
    GoesOn(c, s0, s1, 3, s1.db, s1.pv, ResolvingReport(1), ch, Moved(s1.db, s1.pv, BindingReport(ch.report)));
    GoesOn(c, s0, s1, 3, s1.db, s1.pv, BindingReport(ch.report), ch, Moved(db, s1.pv, AdvanceDone));
    s := s1.(db := db);
  }

  /** The other way round: an order refunded in full is delivered afterwards, on a report that was ready once. */
  lemma RefundedOrderIsDelivered() returns (s: State, s': State)
    ensures Reachable(Working(false), s) && Leads(Working(false), s, s')
    ensures s.db.order.state == Refunded && OurTotal(s.pv.refunds) == 100 && s.db.attempts == []
    ensures s'.db.order.state == Fulfilled && s'.pv == s.pv.(mails := [0])
    ensures |s'.db.attempts| == 1 && s'.db.attempts[0].status == Accepted
  {
    var c := Working(false);
    var s1 := HeldAndFailed();
    hide Leads, Reachable;
    s := AdvanceRefunds(c, s1, 4, Withdrawn());
    ReachableLeads(c, s1, s);
    s' := StaleReadyIsDelivered(s);
  }

  lemma StaleReadyIsDelivered(s: State) returns (s': State)
    requires 2 in s.advances && s.advances[2] == BindingReport(ReportEvidence(1, 1, RReady)) && s.deliveries == map[]
    requires s.db.binding == Bound(Some(RFailed), ReportFailed, []).binding && s.db.attempts == [] && s.pv.mails == []
    ensures Leads(Working(false), s, s') && s'.db.order.state == Fulfilled && s'.pv == s.pv.(mails := [0])
    ensures |s'.db.attempts| == 1 && s'.db.attempts[0].status == Accepted
  {
    var c, ch := Working(false), Ready(0, "m");
    LeadsNowhere(c, s);
    LeadsStep(c, s, s, StepAdvance(2, ch));
    var s1 := Apply(c, s, StepAdvance(2, ch));
    assert MaxNumber([]) == 0;
    hide Leads;
    DeliverSends(c, s, s1, 1, ch);
    var a0 := Dispatched(c, s1.db, ch);
    var a := a0.(status := Accepted, messageId := Some("m"));
    assert s1.db.attempts + [a0] == [a0] && s1.pv.mails + [0] == [0] && [a0][0 := a] == [a];
    var db, pv := s1.db.(attempts := [a], order := Fulfil(s1.db.order)), s1.pv.(mails := [0]);
    DeliverGoes(c, s, s1, 1, s1.db.(attempts := [a0]), pv, Recording(0, ch.mail), ch, Moved(db, pv, DeliverDone));
    s' := s1.(db := db, pv := pv);
  }
}

/**
 * Exactly when overlapping advance calls and changing reports break the exclusion of delivery and refund,
 * and the single acceptance: over every reachable state, with neither assumption.
 */
module FulfillmentConflicts {
  import opened Prelude
  import opened Orders
  import opened Fulfillment
  import opened FulfillmentProtocol
  import opened FulfillmentInvariant
  import opened FulfillmentSteps
  import opened FulfillmentSafety
  import opened FulfillmentRuns

  /** Some event of the run is such a step, in the state it meets. */
  predicate Occurs(c: Config, s: State, es: seq<Event>, step: (Config, State, Event) -> bool)
    decreases |es|
  {
    es != [] && (step(c, s, es[0]) || Occurs(c, Apply(c, s, es[0]), es[1..], step))
  }

  predicate Advances(c: Config, s: State, ev: Event) {
    ev.StepAdvance? && ev.t in s.advances && Truthful(c, ev.ch)
  }

  predicate Delivers(c: Config, s: State, ev: Event) {
    ev.StepDeliver? && ev.t in s.deliveries && Truthful(c, ev.ch)
  }

  lemma StepReachable(c: Config, s: State, ev: Event)
    requires Reachable(c, s)
    ensures Reachable(c, Apply(c, s, ev))
  {
    hide Apply, Reachable;
    LeadsNowhere(c, s);
    LeadsStep(c, s, s, ev);
    ReachableLeads(c, s, Apply(c, s, ev));
  }

  // ---- The steps that break the exclusion ----

  /** An order is not both sent to the customer and given back to him. */
  predicate Exclusive(db: Rows) {
    db.attempts == [] || db.eligibility.None?
  }

  /** The claim of a failed report, for an order with an attempt. */
  predicate ClaimsOverDelivery(c: Config, s: State, ev: Event) {
    && Advances(c, s, ev) && s.advances[ev.t].Claiming? && s.advances[ev.t].reason.BecauseReportFailed?
    && s.db.attempts != [] && s.db.eligibility.None?
    && s.db.order.state != Fulfilled && s.db.order.fulfillment != Delivered
  }

  /** The first attempt, for an order with a refund reason. */
  predicate PreparesOverRefund(c: Config, s: State, ev: Event) {
    && Delivers(c, s, ev) && s.deliveries[ev.t].PreparingAttempt?
    && s.db.eligibility.Some? && s.db.attempts == []
    && ReadyPending(s.db)
    && s.db.binding.value.reportId == Some(s.deliveries[ev.t].report)
    && s.db.binding.value.analysisId == Some(s.deliveries[ev.t].analysis)
  }

  predicate ReadyPending(db: Rows) {
    db.binding.Some? && ReadyContext(db.order, db.binding.value, true)
  }

  predicate Breaks(c: Config, s: State, ev: Event) {
    ClaimsOverDelivery(c, s, ev) || PreparesOverRefund(c, s, ev)
  }

  /** What a step of an advance call does to the refund reason, and what a delivery does to the attempts. */
  lemma ClaimingAdvance(c: Config, db: Rows, pv: Provider, pc: Advance, ch: Choice)
    requires RowsOk(c, db) && AdvanceOk(c, db, pc) && db.eligibility.None?
    ensures var db' := AdvanceStep(c, db, pv, pc, ch).db;
            && db'.attempts == db.attempts
            && (db.attempts != [] ==>
                  (db'.eligibility.Some? <==> pc.Claiming? && pc.reason.BecauseReportFailed? && db.order.state != Fulfilled
                                              && db.order.fulfillment != Delivered))
  {
    hide JudgeRefunds, CreateRefund, IntentValid, IsMatching, RefundValid, AttemptsOk, TrueAnalysis, TrueReport, Metadata;
  }

  lemma PreparingDelivery(c: Config, db: Rows, pv: Provider, pc: Deliver, ch: Choice)
    requires db.attempts == []
    ensures var db' := DeliverStep(c, db, pv, pc, ch).db;
            && db'.eligibility == db.eligibility
            && (db'.attempts != [] <==>
                  && pc.PreparingAttempt? && ReadyPending(db) && db.binding.value.reportId == Some(pc.report)
                  && db.binding.value.analysisId == Some(pc.analysis))
  {
    hide ReadyContext, GrantValid;
    assert MaxNumber([]) == 0;
  }

  lemma DeliveryGrows(c: Config, db: Rows, pv: Provider, pc: Deliver, ch: Choice)
    ensures var db' := DeliverStep(c, db, pv, pc, ch).db;
            db'.eligibility == db.eligibility && |db.attempts| <= |db'.attempts|
  {
    hide ReadyContext, GrantValid, MaxNumber;
  }

  /** An order with an attempt gets a refund reason exactly by the claim of a failed report, short of fulfilment. */
  lemma RefundAfterDeliveryExactly(c: Config, s: State, ev: Event)
    requires Reachable(c, s) && s.db.attempts != [] && s.db.eligibility.None?
    ensures Apply(c, s, ev).db.eligibility.Some? <==> ClaimsOverDelivery(c, s, ev)
  {
    ReachableInv(c, s);
    assert RowsOk(c, s.db);
    if ev.StepAdvance? && ev.t in s.advances {
      assert AdvanceOk(c, s.db, s.advances[ev.t]);
      hide Inv, Reachable, RowsOk, AdvanceOk, AdvanceStep, Truthful;
      ClaimingAdvance(c, s.db, s.pv, s.advances[ev.t], ev.ch);
    } else if ev.StepDeliver? && ev.t in s.deliveries {
      hide Inv, Reachable, RowsOk, DeliverStep, Truthful;
      DeliveryGrows(c, s.db, s.pv, s.deliveries[ev.t], ev.ch);
    } else {
      hide Inv, Reachable, RowsOk, AdvanceStep, DeliverStep, Truthful;
    }
  }

  /** An order with a refund reason gets an attempt exactly by a delivery that finds it ready and pending. */
  lemma DeliveryAfterRefundExactly(c: Config, s: State, ev: Event)
    requires Reachable(c, s) && s.db.eligibility.Some? && s.db.attempts == []
    ensures Apply(c, s, ev).db.attempts != [] <==> PreparesOverRefund(c, s, ev)
  {
    hide Reachable, AdvanceStep, DeliverStep, Truthful, ReadyContext;
    if ev.StepAdvance? && ev.t in s.advances {
      AdvanceAttempts(c, s.db, s.pv, s.advances[ev.t], ev.ch);
    } else if ev.StepDeliver? && ev.t in s.deliveries {
      PreparingDelivery(c, s.db, s.pv, s.deliveries[ev.t], ev.ch);
    }
  }

  lemma AdvanceAttempts(c: Config, db: Rows, pv: Provider, pc: Advance, ch: Choice)
    ensures AdvanceStep(c, db, pv, pc, ch).db.attempts == db.attempts
  {
    hide JudgeRefunds, CreateRefund, IntentValid, IsMatching, RefundValid;
  }

  lemma NeverBothAtOnce(c: Config, s: State, ev: Event)
    requires s.db.attempts == [] && s.db.eligibility.None?
    ensures Exclusive(Apply(c, s, ev).db)
  {
    hide AdvanceStep, DeliverStep, Truthful;
    if ev.StepAdvance? && ev.t in s.advances {
      AdvanceAttempts(c, s.db, s.pv, s.advances[ev.t], ev.ch);
    } else if ev.StepDeliver? && ev.t in s.deliveries {
      DeliveryGrows(c, s.db, s.pv, s.deliveries[ev.t], ev.ch);
    }
  }

  lemma ExclusionBreaksExactly(c: Config, s: State, ev: Event)
    requires Reachable(c, s) && Exclusive(s.db)
    ensures Exclusive(Apply(c, s, ev).db) <==> !Breaks(c, s, ev)
  {
    ReachableInv(c, s);
    StepKeepsInv(c, s, ev);
    hide Reachable, Inv, Apply, Advances, Delivers;
    if s.db.attempts != [] {
      RefundAfterDeliveryExactly(c, s, ev);
    } else if s.db.eligibility.Some? {
      DeliveryAfterRefundExactly(c, s, ev);
    } else {
      NeverBothAtOnce(c, s, ev);
    }
  }

  lemma {:induction false} BrokenStaysBroken(c: Config, s: State, es: seq<Event>)
    requires Reachable(c, s) && !Exclusive(s.db)
    ensures !Exclusive(Run(c, s, es).db)
  {
    ReachableInv(c, s);
    hide Inv, Reachable, Run;
    RunKeepsInv(c, s, es);
  }

  /**
   * Along every run, delivery and refund exclude each other exactly as long as no step claims a failed
   * report over an attempt, or prepares an attempt over a refund reason.
   */
  lemma {:induction false} ExclusionHoldsIff(c: Config, s: State, es: seq<Event>)
    requires Reachable(c, s) && Exclusive(s.db)
    ensures Exclusive(Run(c, s, es).db) <==> !Occurs(c, s, es, Breaks)
    decreases |es|
  {
    hide Reachable, Apply, Breaks, Exclusive;
    if es != [] {
      StepReachable(c, s, es[0]);
      ExclusionBreaksExactly(c, s, es[0]);
      if Breaks(c, s, es[0]) {
        BrokenStaysBroken(c, Apply(c, s, es[0]), es[1..]);
      } else {
        ExclusionHoldsIff(c, Apply(c, s, es[0]), es[1..]);
      }
    }
  }

  // ---- Where such a step comes from ----

  /** A call on its way to claim a failed report. */
  predicate Pursues(pc: Advance) {
    (pc.Reproving? || pc.ReprovingReport? || pc.Claiming?) && pc.reason.BecauseReportFailed?
  }

  predicate Pursued(s: State) {
    exists t :: t in s.advances && Pursues(s.advances[t])
  }

  /** Delivery has begun, or may begin. */
  predicate Delivering(db: Rows) {
    db.attempts != [] || ReadyPending(db)
  }

  /** The refund has begun, or may begin. */
  predicate Refundable(s: State) {
    s.db.eligibility.Some? || s.db.order.fulfillment == ReportFailed || Pursued(s)
  }

  predicate Contested(s: State) {
    Delivering(s.db) && Refundable(s)
  }

  /** An advance call commits the report it fetched. */
  predicate StoresReport(c: Config, s: State, ev: Event, st: ReportState) {
    && Advances(c, s, ev) && s.advances[ev.t].BindingReport? && s.advances[ev.t].evidence.state == st && !ev.ch.taken
    && s.db.binding.Some? && s.db.binding.value.analysisState == Some(ACompleted)
    && s.db.binding.value.reportId in {None, Some(s.advances[ev.t].evidence.id)}
  }

  /** A failed report is stored over an attempt, or a ready one over a refund reason or a call pursuing one. */
  predicate StoresContradiction(c: Config, s: State, ev: Event) {
    || (StoresReport(c, s, ev, RFailed) && s.db.attempts != [])
    || (StoresReport(c, s, ev, RReady) && (s.db.eligibility.Some? || Pursued(s)))
  }

  /** What an advance step that stores no report leaves of the contest. */
  predicate Calm(db: Rows, pc: Advance, m: Moved<Advance>) {
    && m.db.attempts == db.attempts
    && (ReadyPending(m.db) ==> ReadyPending(db))
    && (Pursues(m.next) ==> Pursues(pc) || db.order.fulfillment == ReportFailed)
    && (m.db.order.fulfillment == ReportFailed ==> db.order.fulfillment == ReportFailed)
    && (Delivering(db) && m.db.eligibility.Some? ==> db.eligibility.Some? || Pursues(pc))
  }

  lemma AdvanceIsCalm(c: Config, db: Rows, pv: Provider, pc: Advance, ch: Choice)
    requires RowsOk(c, db) && AdvanceOk(c, db, pc) && !pc.BindingReport?
    ensures Calm(db, pc, AdvanceStep(c, db, pv, pc, ch))
  {
    if Reads(pc) || pc.CreatingRefund? {
      hide RowsOk, AdvanceOk;
      ReadingIsCalm(c, db, pv, pc, ch);
    } else if pc.Claiming? {
      hide AdvanceStep;
      ClaimingIsCalm(c, db, pv, pc, ch);
    } else {
      hide RowsOk, AdvanceOk;
      WritingIsCalm(c, db, pv, pc, ch);
    }
  }

  lemma ReadingIsCalm(c: Config, db: Rows, pv: Provider, pc: Advance, ch: Choice)
    requires Reads(pc) || pc.CreatingRefund?
    ensures Calm(db, pc, AdvanceStep(c, db, pv, pc, ch))
  {
    hide JudgeRefunds, CreateRefund, IntentValid, RefundValid, ReadyContext, ReadyPending;
    if pc.ListingRefunds? { JudgedGoOn(c.settings, Page(pv.refunds), pc.op); }
  }

  lemma ClaimingIsCalm(c: Config, db: Rows, pv: Provider, pc: Advance, ch: Choice)
    requires RowsOk(c, db) && AdvanceOk(c, db, pc) && pc.Claiming?
    ensures Calm(db, pc, AdvanceStep(c, db, pv, pc, ch))
  {
    hide AttemptsOk;
  }

  lemma WritingIsCalm(c: Config, db: Rows, pv: Provider, pc: Advance, ch: Choice)
    requires !Reads(pc) && !pc.CreatingRefund? && !pc.BindingReport? && !pc.Claiming?
    ensures Calm(db, pc, AdvanceStep(c, db, pv, pc, ch))
  {
    hide IsMatching;
  }

  lemma JudgedGoOn(c: Settings, page: seq<ProviderRefund>, op: Operation)
    ensures !Pursues(JudgeRefunds(c, page, op))
  {
    hide Matching, RefundValid;
  }

  lemma StoringContest(c: Config, db: Rows, pv: Provider, pc: Advance, ch: Choice)
    requires RowsOk(c, db) && AdvanceOk(c, db, pc) && pc.BindingReport?
    ensures var m := AdvanceStep(c, db, pv, pc, ch);
            && m.next.AdvanceDone? && m.db.attempts == db.attempts && m.db.eligibility == db.eligibility
            && (if db.binding.Some? && db.binding.value.analysisState == Some(ACompleted) && !ch.taken
                   && db.binding.value.reportId in {None, Some(pc.evidence.id)}
                then ReadyPending(m.db) == (pc.evidence.state == RReady)
                     && m.db.order.fulfillment == (if pc.evidence.state == RReady then DeliveryPending else ReportFailed)
                else m.db == db)
  {
    hide AttemptsOk;
  }

  lemma DeliveryContest(c: Config, db: Rows, pv: Provider, pc: Deliver, ch: Choice)
    ensures var db' := DeliverStep(c, db, pv, pc, ch).db;
            && db'.eligibility == db.eligibility
            && (db'.order.fulfillment == ReportFailed ==> db.order.fulfillment == ReportFailed)
            && (Delivering(db') ==> Delivering(db))
  {
    hide GrantValid, MaxNumber, FirstAccepted;
  }

  /** An order becomes contested by exactly the stores of a report that contradicts what was begun. */
  lemma ContestBeginsExactly(c: Config, s: State, ev: Event)
    requires Reachable(c, s) && !Contested(s)
    ensures Contested(Apply(c, s, ev)) <==> StoresContradiction(c, s, ev)
  {
    ReachableInv(c, s);
    hide Reachable;
    if ev.StepAdvance? && ev.t in s.advances && s.advances[ev.t].BindingReport? {
      StoreContests(c, s, ev);
    } else if ev.StepAdvance? && ev.t in s.advances {
      AdvanceContests(c, s, ev);
    } else {
      hide Inv;
      OthersContestNothing(c, s, ev);
    }
  }

  lemma StoreContests(c: Config, s: State, ev: Event)
    requires Inv(c, s) && !Contested(s) && ev.StepAdvance? && ev.t in s.advances && s.advances[ev.t].BindingReport?
    ensures Contested(Apply(c, s, ev)) <==> StoresContradiction(c, s, ev)
  {
    assert RowsOk(c, s.db) && AdvanceOk(c, s.db, s.advances[ev.t]);
    hide Inv, RowsOk, AdvanceOk, Truthful, AdvanceStep, ReadyContext;
    StoringContest(c, s.db, s.pv, s.advances[ev.t], ev.ch);
    var s' := Apply(c, s, ev);
    if Truthful(c, ev.ch) {
      assert s'.advances == s.advances - {ev.t};
      assert Pursued(s') <==> Pursued(s) by {
        if u :| u in s.advances && Pursues(s.advances[u]) { assert u in s'.advances && Pursues(s'.advances[u]); }
        if u :| u in s'.advances && Pursues(s'.advances[u]) { assert u in s.advances && Pursues(s.advances[u]); }
      }
      hide Pursued;
    }
  }

  lemma AdvanceContests(c: Config, s: State, ev: Event)
    requires Inv(c, s) && !Contested(s) && ev.StepAdvance? && ev.t in s.advances && !s.advances[ev.t].BindingReport?
    ensures !Contested(Apply(c, s, ev)) && !StoresContradiction(c, s, ev)
  {
    assert RowsOk(c, s.db) && AdvanceOk(c, s.db, s.advances[ev.t]);
    hide Inv, RowsOk, AdvanceOk, Truthful, AdvanceStep, ReadyPending;
    AdvanceIsCalm(c, s.db, s.pv, s.advances[ev.t], ev.ch);
  }

  lemma OthersContestNothing(c: Config, s: State, ev: Event)
    requires !Contested(s) && !(ev.StepAdvance? && ev.t in s.advances)
    ensures !Contested(Apply(c, s, ev)) && !StoresContradiction(c, s, ev)
  {
    hide Truthful, AdvanceStep, DeliverStep;
    if ev.StepDeliver? && ev.t in s.deliveries {
      hide ReadyPending;
      DeliveryContest(c, s.db, s.pv, s.deliveries[ev.t], ev.ch);
    }
  }

  predicate PassesContest(c: Config, s: State, es: seq<Event>)
    decreases |es|
  {
    Contested(s) || (es != [] && PassesContest(c, Apply(c, s, es[0]), es[1..]))
  }

  /**
   * A run from an uncontested order contests it exactly if it stores a contradicting report; without such a
   * store, delivery and refund exclude each other at its end.
   */
  lemma {:induction false} RunContestsIff(c: Config, s: State, es: seq<Event>)
    requires Reachable(c, s) && !Contested(s)
    ensures PassesContest(c, s, es) <==> Occurs(c, s, es, StoresContradiction)
    ensures !Occurs(c, s, es, StoresContradiction) ==> Exclusive(Run(c, s, es).db)
    decreases |es|
  {
    if es != [] {
      hide Reachable, Apply, StoresContradiction, Contested, Exclusive;
      StepReachable(c, s, es[0]);
      ContestBeginsExactly(c, s, es[0]);
      if Contested(Apply(c, s, es[0])) {
        assert PassesContest(c, Apply(c, s, es[0]), es[1..]);
      } else {
        RunContestsIff(c, Apply(c, s, es[0]), es[1..]);
      }
    }
  }

  /** From a new order on: every order that is sent and given back had a contradicting report stored before. */
  lemma NewOrdersExclude(c: Config, product: string, catalog: string, email: string, intent: Option<string>, es: seq<Event>)
    ensures var s := Init(product, catalog, email, intent);
            && (Exclusive(Run(c, s, es).db) <==> !Occurs(c, s, es, Breaks))
            && (!Exclusive(Run(c, s, es).db) ==> Occurs(c, s, es, StoresContradiction))
  {
    var s := Init(product, catalog, email, intent);
    assert !Contested(s);
    LeadsNowhere(c, s);
    InitReaches(c, product, catalog, email, intent, s);
    hide Reachable, Contested, Run;
    ExclusionHoldsIff(c, s, es);
    RunContestsIff(c, s, es);
  }

  // ---- A contradiction that was stored can break the exclusion ----

  /** The order may be refunded because of its report, and SiteScore says so. */
  predicate ClaimIsOpen(c: Config, db: Rows, ch: Choice) {
    && Truthful(c, ch) && ch.report.state == RFailed
    && db.binding.Some? && db.binding.value.reportId == Some(ch.report.id)
    && db.binding.value.analysisId == Some(ch.report.analysis)
    && db.eligibility.None? && db.order.payment == PayPaid
    && db.order.state == FulfillmentInProgress && db.order.fulfillment != Delivered
  }

  lemma ClaimCommits(c: Config, s0: State, base: State, t: int, db: Rows, pv: Provider, ch: Choice) returns (s: State)
    requires t !in base.advances && ClaimIsOpen(c, db, ch)
    requires Leads(c, s0, At(base, t, db, pv, Claiming(BecauseReportFailed, TheReport(ch.report.id))))
    ensures Leads(c, s0, s) && s.db.eligibility.Some? && s.db.attempts == db.attempts
  {
    hide Leads, Truthful;
    var e := Eligibility(BecauseReportFailed, TheReport(ch.report.id));
    var db' := db.(eligibility := Some(e));
    GoesOn(c, s0, base, t, db, pv, Claiming(e.reason, e.resource), ch, Moved(db', pv, LoadingRefund));
    s := At(base, t, db', pv, LoadingRefund);
  }

  lemma ReprovalClaims(c: Config, s0: State, base: State, t: int, db: Rows, pv: Provider, ch: Choice) returns (s: State)
    requires t !in base.advances && ClaimIsOpen(c, db, ch)
    requires Leads(c, s0, At(base, t, db, pv, ReprovingReport(BecauseReportFailed, ch.report.id, Some(ch.report.analysis))))
    ensures Leads(c, s0, s) && s.db.eligibility.Some? && s.db.attempts == db.attempts
  {
    assert Truthful(c, ch);
    var claim := Claiming(BecauseReportFailed, TheReport(ch.report.id));
    hide Leads, Truthful;
    GoesOn(c, s0, base, t, db, pv, ReprovingReport(BecauseReportFailed, ch.report.id, Some(ch.report.analysis)), ch,
           Moved(db, pv, claim));
    s := ClaimCommits(c, s0, base, t, db, pv, ch);
  }

  lemma ReasonClaims(c: Config, s0: State, base: State, t: int, db: Rows, pv: Provider, ch: Choice) returns (s: State)
    requires t !in base.advances && ClaimIsOpen(c, db, ch)
    requires Leads(c, s0, At(base, t, db, pv, Reproving(BecauseReportFailed)))
    ensures Leads(c, s0, s) && s.db.eligibility.Some? && s.db.attempts == db.attempts
  {
    var pc := ReprovingReport(BecauseReportFailed, ch.report.id, Some(ch.report.analysis));
    hide Leads, Truthful;
    GoesOn(c, s0, base, t, db, pv, Reproving(BecauseReportFailed), ch, Moved(db, pv, pc));
    s := ReprovalClaims(c, s0, base, t, db, pv, ch);
  }

  /** A call that pursues a failed report gets to claim it. */
  lemma PursuitClaims(c: Config, s0: State, s: State, t: int, ch: Choice) returns (s': State)
    requires Leads(c, s0, s) && t in s.advances && Pursues(s.advances[t])
    requires ClaimIsOpen(c, s.db, ch) && AdvanceOk(c, s.db, s.advances[t])
    ensures Leads(c, s0, s') && s'.db.eligibility.Some? && s'.db.attempts == s.db.attempts
  {
    var base := s.(advances := s.advances - {t});
    assert s == At(base, t, s.db, s.pv, s.advances[t]);
    hide Leads;
    match s.advances[t]
    case Reproving(_) => s' := ReasonClaims(c, s0, base, t, s.db, s.pv, ch);
    case ReprovingReport(_, _, _) => s' := ReprovalClaims(c, s0, base, t, s.db, s.pv, ch);
    case Claiming(_, _) => s' := ClaimCommits(c, s0, base, t, s.db, s.pv, ch);
  }

  /** What the store of a report leaves. */
  lemma Stored(c: Config, s: State, ev: Event, st: ReportState)
    requires Inv(c, s) && StoresReport(c, s, ev, st)
    ensures var db, evidence := Apply(c, s, ev).db, s.advances[ev.t].evidence;
            && db.attempts == s.db.attempts && db.eligibility == s.db.eligibility
            && db.binding.Some? && db.binding.value.reportId == Some(evidence.id)
            && db.binding.value.analysisId == Some(evidence.analysis) && TrueReport(c, evidence)
            && db.binding.value.analysisState == Some(ACompleted) && db.binding.value.reportState == Some(st)
            && db.order.state == FulfillmentInProgress && db.order.payment == PayPaid
            && db.order.fulfillment == (if st == RReady then DeliveryPending else ReportFailed)
  {
    assert AdvanceOk(c, s.db, s.advances[ev.t]);
    hide RowsOk, ProviderOk, MailsOk;
  }

  /** After a failed report is stored over an attempt, one more advance call can claim it. */
  lemma FailureCanBeClaimed(c: Config, s: State, ev: Event, t: int) returns (s': State)
    requires !c.reportsStay && Reachable(c, s) && StoresReport(c, s, ev, RFailed)
    requires s.db.attempts != [] && s.db.eligibility.None? && MayStart(c, Apply(c, s, ev), t)
    ensures Leads(c, Apply(c, s, ev), s') && !Exclusive(s'.db)
  {
    ReachableInv(c, s);
    Stored(c, s, ev, RFailed);
    var s1 := Apply(c, s, ev);
    var ch := ev.ch.(report := s.advances[ev.t].evidence.(state := RFailed));
    LeadsNowhere(c, s1);
    hide Leads, Inv, Reachable, Apply, AdvanceStep;
    Starts(c, s1, s1, t);
    GoesOn(c, s1, s1, t, s1.db, s1.pv, Reading, ch, Moved(s1.db, s1.pv, Reproving(BecauseReportFailed))) by {
      assert ReadStatus(s1.db) == Reproving(BecauseReportFailed);
      ReadingMoves(c, s1.db, s1.pv, ch);
    }
    s' := ReasonClaims(c, s1, s1, t, s1.db, s1.pv, ch);
  }

  lemma ReadingMoves(c: Config, db: Rows, pv: Provider, ch: Choice)
    ensures AdvanceStep(c, db, pv, Reading, ch) == Moved(db, pv, ReadStatus(db))
  {
  }

  /** After a ready report is stored over a refund begun, one delivery, and then the refund, can go on. */
  lemma RefundCanBeDelivered(c: Config, s: State, ev: Event, t: int) returns (s': State)
    requires !c.reportsStay && Reachable(c, s) && StoresReport(c, s, ev, RReady) && s.db.attempts == []
    requires Refundable(Apply(c, s, ev)) && t !in Apply(c, s, ev).deliveries
    ensures Leads(c, Apply(c, s, ev), s') && !Exclusive(s'.db)
  {
    ReachableInv(c, s);
    Stored(c, s, ev, RReady);
    var s1 := Apply(c, s, ev);
    StepKeepsInv(c, s, ev);
    var ch := ev.ch.(report := s.advances[ev.t].evidence);
    LeadsNowhere(c, s1);
    hide Leads, Reachable, Apply, RowsOk, ProviderOk, MailsOk, AdvanceOk;
    assert MaxNumber([]) == 0;
    DeliverSends(c, s1, s1, t, ch);
    var a := Dispatched(c, s1.db, ch);
    s' := AtDelivery(s1, t, s1.db.(attempts := s1.db.attempts + [a]), s1.pv.(mails := s1.pv.mails + [0]), Recording(0, ch.mail));
    if s1.db.eligibility.None? {
      var u :| u in s1.advances && Pursues(s1.advances[u]);
      AdvanceKept(c, s1.db, s'.db, s1.advances[u]) by { AttemptAdded(s1.db, a); }
      s' := PursuitClaims(c, s1, s', u, ch.(report := ch.report.(state := RFailed)));
    }
  }

  lemma AttemptAdded(db: Rows, a: Attempt)
    requires db.attempts == []
    ensures Grows(db, db.(attempts := db.attempts + [a]))
  {
  }

  /**
   * Every contradicting store can cost the exclusion: while reports may change their state, some run from
   * there ends with both an attempt and a refund reason.
   */
  lemma ContestCanBreak(c: Config, s: State, ev: Event, t: int) returns (s': State)
    requires !c.reportsStay && Reachable(c, s) && !Contested(s) && StoresContradiction(c, s, ev)
    requires MayStart(c, Apply(c, s, ev), t) && t !in Apply(c, s, ev).deliveries
    ensures Leads(c, Apply(c, s, ev), s') && !Exclusive(s'.db)
  {
    ContestBeginsExactly(c, s, ev);
    hide Reachable, Leads, Apply, Pursued, Exclusive;
    if StoresReport(c, s, ev, RFailed) && s.db.attempts != [] {
      s' := FailureCanBeClaimed(c, s, ev, t);
    } else {
      s' := RefundCanBeDelivered(c, s, ev, t);
    }
  }

  // ---- Acceptances ----

  predicate AcceptedAt(db: Rows, i: nat) {
    i < |db.attempts| && db.attempts[i].status == Accepted
  }

  ghost predicate SameAcceptances(db: Rows, db': Rows) {
    forall i: nat :: AcceptedAt(db, i) <==> AcceptedAt(db', i)
  }

  /** The mail provider's acceptance reaches an attempt that is under way while the order awaits delivery. */
  predicate Accepts(c: Config, s: State, ev: Event, i: nat) {
    && Delivers(c, s, ev) && s.deliveries[ev.t].Recording? && s.deliveries[ev.t].i == i && s.deliveries[ev.t].mail.MailAccepted?
    && i < |s.db.attempts| && s.db.attempts[i].status in {Prepared, DispatchStarted}
    && !s.db.attempts[i].grant.revoked && s.db.attempts[i].grant.expiresAt > ev.ch.now
    && ReadyPending(s.db) && !ev.ch.taken
  }

  predicate AcceptsAny(c: Config, s: State, ev: Event) {
    Delivers(c, s, ev) && s.deliveries[ev.t].Recording? && Accepts(c, s, ev, s.deliveries[ev.t].i)
  }

  /** An advance call stores a ready report of the order, whatever has been delivered. */
  predicate ReopensDelivery(c: Config, s: State, ev: Event) {
    s.db.binding.Some? && Advances(c, s, ev) && Reopens(s.db, s.advances[ev.t], ev.ch)
  }

  lemma AttemptMatches(c: Config, db: Rows, i: nat)
    requires RowsOk(c, db) && i < |db.attempts|
    ensures db.binding.Some? && db.binding.value.reportId == Some(db.attempts[i].reportId)
    ensures db.attempts[i].grant.reportId == db.attempts[i].reportId
  {
    assert AttemptOk(db.attempts[i], i, db.binding.value.reportId.value);
  }

  lemma AcceptingRecord(c: Config, db: Rows, k: nat, mail: Mail, now: int, taken: bool, i: nat)
    requires RowsOk(c, db)
    ensures var tx := RecordMail(db, k, mail, now, taken);
            var db' := if tx.Committed? then tx.rows else db;
            && |db.attempts| <= |db'.attempts|
            && (AcceptedAt(db, i) ==> AcceptedAt(db', i))
            && (!AcceptedAt(db, i) ==>
                  (AcceptedAt(db', i) <==>
                    && k == i && mail.MailAccepted?
                    && i < |db.attempts| && db.attempts[i].status in {Prepared, DispatchStarted}
                    && !db.attempts[i].grant.revoked && db.attempts[i].grant.expiresAt > now
                    && ReadyPending(db) && !taken))
  {
    if k < |db.attempts| { AttemptMatches(c, db, k); }
    hide RowsOk, ReadyContext;
  }

  lemma AcceptingDelivery(c: Config, db: Rows, pv: Provider, pc: Deliver, ch: Choice, i: nat)
    requires RowsOk(c, db)
    ensures var db' := DeliverStep(c, db, pv, pc, ch).db;
            && |db.attempts| <= |db'.attempts|
            && (AcceptedAt(db, i) ==> AcceptedAt(db', i))
            && (!AcceptedAt(db, i) ==>
                  (AcceptedAt(db', i) <==>
                    && pc.Recording? && pc.i == i && pc.mail.MailAccepted?
                    && i < |db.attempts| && db.attempts[i].status in {Prepared, DispatchStarted}
                    && !db.attempts[i].grant.revoked && db.attempts[i].grant.expiresAt > ch.now
                    && ReadyPending(db) && !ch.taken))
  {
    hide RowsOk, ReadyContext, MaxNumber, RecordMail;
    if pc.Recording? {
      hide AcceptedAt, ReadyPending;
      AcceptingRecord(c, db, pc.i, pc.mail, ch.now, ch.taken, i);
    }
  }

  /** An attempt becomes accepted by exactly these steps, whatever was accepted before. */
  lemma AcceptanceIsRecordedExactly(c: Config, s: State, ev: Event, i: nat)
    requires Reachable(c, s)
    ensures AcceptedAt(s.db, i) ==> AcceptedAt(Apply(c, s, ev).db, i)
    ensures !AcceptedAt(s.db, i) ==> (AcceptedAt(Apply(c, s, ev).db, i) <==> Accepts(c, s, ev, i))
  {
    ReachableInv(c, s);
    assert RowsOk(c, s.db);
    hide Inv, Reachable, RowsOk, AdvanceStep, DeliverStep, Truthful, ReadyPending;
    if ev.StepAdvance? && ev.t in s.advances {
      AdvanceAttempts(c, s.db, s.pv, s.advances[ev.t], ev.ch);
    } else if ev.StepDeliver? && ev.t in s.deliveries {
      AcceptingDelivery(c, s.db, s.pv, s.deliveries[ev.t], ev.ch, i);
    }
  }

  lemma StepAccepts(c: Config, s: State, ev: Event)
    requires Reachable(c, s)
    ensures SameAcceptances(s.db, Apply(c, s, ev).db) <==> !AcceptsAny(c, s, ev)
  {
    hide Reachable, Apply, Truthful, ReadyPending, AcceptedAt;
    var db' := Apply(c, s, ev).db;
    forall i: nat ensures AcceptedAt(s.db, i) ==> AcceptedAt(db', i)
      ensures !AcceptedAt(s.db, i) ==> (AcceptedAt(db', i) <==> Accepts(c, s, ev, i))
    {
      AcceptanceIsRecordedExactly(c, s, ev, i);
    }
    if AcceptsAny(c, s, ev) {
      var i := s.deliveries[ev.t].i;
      assert !AcceptedAt(s.db, i) by { NotYet(s.db, i); }
      assert AcceptedAt(db', i);
    }
  }

  lemma NotYet(db: Rows, i: nat)
    requires i < |db.attempts| && db.attempts[i].status != Accepted
    ensures !AcceptedAt(db, i)
  {
  }

  /** Along every run, the accepted attempts stay the same exactly if no such step occurs. */
  lemma {:induction false} AcceptancesChangeIff(c: Config, s: State, es: seq<Event>)
    requires Reachable(c, s)
    ensures SameAcceptances(s.db, Run(c, s, es).db) <==> !Occurs(c, s, es, AcceptsAny)
    decreases |es|
  {
    if es != [] {
      hide Reachable, Apply, AcceptsAny;
      var mid := Apply(c, s, es[0]);
      StepReachable(c, s, es[0]);
      StepAccepts(c, s, es[0]);
      AcceptancesChangeIff(c, mid, es[1..]);
      AcceptancesStay(c, s, es[..1]);
      AcceptancesStay(c, mid, es[1..]);
      assert Run(c, s, es[..1]) == mid by { OneStep(c, s, es[0]); assert es[..1] == [es[0]]; }
    }
  }

  lemma OneStep(c: Config, s: State, e: Event)
    ensures Run(c, s, [e]) == Apply(c, s, e)
  {
    hide Apply;
    assert [e][1..] == [];
  }

  /** No run takes an acceptance back. */
  lemma AcceptancesStay(c: Config, s: State, es: seq<Event>)
    requires Reachable(c, s)
    ensures |s.db.attempts| <= |Run(c, s, es).db.attempts|
    ensures forall i: nat :: AcceptedAt(s.db, i) ==> AcceptedAt(Run(c, s, es).db, i)
  {
    ReachableInv(c, s);
    hide Inv, Reachable, Run;
    RunKeepsInv(c, s, es);
    forall i: nat | AcceptedAt(s.db, i) ensures AcceptedAt(Run(c, s, es).db, i) {
      assert AttemptGrows(s.db.attempts[i], Run(c, s, es).db.attempts[i]);
    }
  }

  /**
   * Once an attempt is accepted and the order no longer awaits delivery, a further one is accepted only
   * after a ready report is stored again: without such a store, every run ends with exactly the same
   * acceptances, and with no further attempt.
   */
  lemma {:induction false} WithoutReopeningNothingIsAccepted(c: Config, s: State, es: seq<Event>)
    requires Reachable(c, s) && HasAccepted(s.db.attempts) && s.db.order.fulfillment != DeliveryPending
    requires !Occurs(c, s, es, ReopensDelivery)
    ensures var s' := Run(c, s, es);
            && SameAcceptances(s.db, s'.db) && |s'.db.attempts| == |s.db.attempts|
            && s'.db.order.fulfillment != DeliveryPending
    decreases |es|
  {
    if es != [] {
      hide Reachable, Apply, ReopensDelivery;
      var mid := Apply(c, s, es[0]);
      StepReachable(c, s, es[0]);
      StepWithoutReopening(c, s, es[0]);
      WithoutReopeningNothingIsAccepted(c, mid, es[1..]);
    }
  }

  lemma StepWithoutReopening(c: Config, s: State, ev: Event)
    requires Reachable(c, s) && HasAccepted(s.db.attempts) && s.db.order.fulfillment != DeliveryPending
    requires !ReopensDelivery(c, s, ev)
    ensures var s' := Apply(c, s, ev);
            && SameAcceptances(s.db, s'.db) && HasAccepted(s'.db.attempts) && |s'.db.attempts| == |s.db.attempts|
            && s'.db.order.fulfillment != DeliveryPending
  {
    DeliveryIsReopenedOnlyByStaleReports(c, s, ev);
    StepAccepts(c, s, ev);
    assert !AcceptsAny(c, s, ev);
    hide Reachable, DeliverStep, AdvanceStep, Truthful;
    if ev.StepAdvance? && ev.t in s.advances {
      AdvanceAttempts(c, s.db, s.pv, s.advances[ev.t], ev.ch);
    } else if ev.StepDeliver? && ev.t in s.deliveries {
      NothingPrepared(c, s.db, s.pv, s.deliveries[ev.t], ev.ch);
    }
    var i :| 0 <= i < |s.db.attempts| && s.db.attempts[i].status == Accepted;
    assert AcceptedAt(s.db, i) && AcceptedAt(Apply(c, s, ev).db, i);
  }

  lemma NothingPrepared(c: Config, db: Rows, pv: Provider, pc: Deliver, ch: Choice)
    requires db.order.fulfillment != DeliveryPending
    ensures |DeliverStep(c, db, pv, pc, ch).db.attempts| == |db.attempts|
  {
    hide GrantValid, MaxNumber;
  }
}

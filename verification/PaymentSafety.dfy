/** What holds in every reachable state of the payment protocol, and along every run. */
module PaymentSafety {
  import opened Prelude
  import opened Orders
  import opened L = Lease
  import opened Payment
  import opened PaymentProtocol
  import opened PaymentInvariant
  import opened PaymentSteps

  ghost predicate Leads(c: Config, s: State, s': State) {
    exists es: seq<Event> :: s' == Run(c, s, es)
  }

  ghost predicate Reachable(c: Config, s: State) {
    Leads(c, INIT, s)
  }

  lemma ReachableInv(c: Config, s: State)
    requires WellFormed(c) && Reachable(c, s)
    ensures Inv(c, s)
  {
    hide Inv;
    var es :| s == Run(c, INIT, es);
    InitInv(c);
    RunKeepsInv(c, INIT, es);
  }

  lemma {:induction false} RunAppend(c: Config, s: State, es: seq<Event>, e: Event)
    ensures Run(c, s, es + [e]) == Apply(c, Run(c, s, es), e)
    decreases |es|
  {
    hide Apply;
    if es == [] {
      assert [] + [e] == [e];
      assert Run(c, s, [e]) == Run(c, Apply(c, s, e), [e][1..]);
    } else {
      assert (es + [e])[1..] == es[1..] + [e];
      RunAppend(c, Apply(c, s, es[0]), es[1..], e);
    }
  }

  // ---- Lineage ----

  /**
   * Recovery accepts the payment lineage of exactly the orders that were ever paid, however webhook,
   * event-recovery and poll steps interleaved to get them there, and whatever fulfillment did since.
   */
  lemma LineageComplete(c: Config, s: State, o: OrderId)
    requires WellFormed(c) && Reachable(c, s) && o in s.db.orders
    ensures PaidAuthorityCode(c, s.db, o).None? <==> o in s.db.outbox
    ensures s.db.orders[o].state in {Paid, FulfillmentInProgress} ==> PaidAuthorityCode(c, s.db, o).None?
  {
    ReachableInv(c, s);
    InvOrder(c, s, o);
    hide Inv;
    PaidRowsAreQueued(c, o, s.db.orders[o], s.db.checkouts[o], s.db.wins[o], o in s.db.outbox, ReceiptRow(s.db, o),
                      LineageRow(s.db, s.db.checkouts[o]));
  }

  lemma PaidRowsAreQueued(c: Config, o: OrderId, order: Order, checkout: Checkout, wins: seq<Win>, queued: bool,
                          receipt: Option<Receipt>, event: Option<Inbox>)
    requires RowsOk(c, o, order, checkout, wins, queued, receipt, event)
    ensures PaidRowsCode(c, o, order, checkout, event, receipt).None? <==> queued
    ensures queued <==> !Unpaid(order)
  {
  }

  lemma InvOrder(c: Config, s: State, o: OrderId)
    requires Inv(c, s) && o in s.db.orders
    ensures o in s.db.checkouts && o in s.db.wins
    ensures RowsOk(c, o, s.db.orders[o], s.db.checkouts[o], s.db.wins[o], o in s.db.outbox, ReceiptRow(s.db, o),
                   LineageRow(s.db, s.db.checkouts[o]))
  {
    hide WebhookOk, ClaimOk, RowsOk;
    assert OrderOk(c, s.db, o);
  }

  // ---- The payment race ----

  /**
   * The outcome of the race in one state: at most one winner, an outbox row exactly if it paid the
   * order, a receipt exactly if it was a poll, and paid excludes expired.
   */
  lemma RaceHasOneWinner(c: Config, s: State, o: OrderId)
    requires WellFormed(c) && Reachable(c, s) && o in s.db.orders
    ensures o in s.db.wins && |s.db.wins[o]| <= 1
    ensures s.db.wins[o] == [] <==> s.db.orders[o].state == PendingPayment
    ensures o in s.db.outbox <==> s.db.wins[o] != [] && s.db.wins[o][0].target == ToPaid
    ensures s.db.orders[o].state == Expired <==> s.db.wins[o] != [] && s.db.wins[o][0].target == ToExpired
    ensures o in s.db.receipts <==> s.db.wins[o] != [] && s.db.wins[o][0].ByPoll?
    ensures o in s.db.outbox <==> s.db.orders[o].state !in {PendingPayment, Expired}
  {
    ReachableInv(c, s);
    InvDecided(c, s, o);
    hide Inv, Reachable;
  }

  predicate OrderAdvances(before: Order, after: Order) {
    && after.productCode == before.productCode && after.catalogVersion == before.catalogVersion && after.email == before.email
    && (before.state != PendingPayment ==> after.state != PendingPayment)
    && (before.state == Expired ==> after == before)
  }

  predicate CheckoutAdvances(before: Checkout, after: Checkout) {
    && (before.sessionId.Some? ==> after.sessionId == before.sessionId)
    && after.priceId == before.priceId && after.quantity == before.quantity
  }

  /** What a step leaves standing about one order. */
  predicate Advances(db: Tables, db': Tables, o: OrderId)
    requires o in db.orders && o in db.checkouts && o in db.wins
  {
    && o in db'.orders && o in db'.checkouts && o in db'.wins
    && OrderAdvances(db.orders[o], db'.orders[o])
    && CheckoutAdvances(db.checkouts[o], db'.checkouts[o])
    && db.wins[o] <= db'.wins[o]
    && (o in db.outbox ==> o in db'.outbox && (db.outbox[o].published ==> db'.outbox[o].published))
    && (o in db.receipts ==> o in db'.receipts && db'.receipts[o] == db.receipts[o])
  }

  /** The rows of every order are left alone, but for the publication of its outbox row. */
  predicate SameRows(db: Tables, db': Tables) {
    && db'.orders == db.orders && db'.checkouts == db.checkouts && db'.wins == db.wins && db'.receipts == db.receipts
    && (forall o :: o in db.outbox ==> o in db'.outbox && (db.outbox[o].published ==> db'.outbox[o].published))
  }

  lemma SameRowsAdvances(db: Tables, db': Tables, o: OrderId)
    requires SameRows(db, db') && o in db.orders && o in db.checkouts && o in db.wins
    ensures Advances(db, db', o)
  {
  }

  lemma TransitionAdvances(db: Tables, p: OrderId, ev: Evidence, target: Target, event: Option<EventId>, now: int, win: Win,
                           o: OrderId)
    requires p in db.orders && p in db.checkouts && p in db.wins && o in db.orders && o in db.checkouts && o in db.wins
    requires db.orders[p].state == Expired <==> db.orders[p].payment == PayExpired
    requires ApplyTransition(db.orders[p], db.checkouts[p], ev, target, event, now).Applied?
    ensures var t := ApplyTransition(db.orders[p], db.checkouts[p], ev, target, event, now);
            Advances(db, StoreTransition(db, p, t, target, win), o)
  {
  }

  lemma ReconcileAdvances(db: Tables, id: EventId, p: OrderId, ev: Evidence, target: Target, now: int, o: OrderId)
    requires id in db.inbox && o in db.orders && o in db.checkouts && o in db.wins && PaymentsAgree(db)
    ensures Advances(db, ReconcileEvent(db, id, p, ev, target, now).db, o)
  {
    hide Advances;
    var db' := ReconcileEvent(db, id, p, ev, target, now).db;
    if p in db.orders && p in db.checkouts {
      var t := ApplyTransition(db.orders[p], db.checkouts[p], ev, target, Some(id), now);
      if t.Applied? && SessionFree(db, p, ev.sessionId) {
        var mid := StoreTransition(db, p, t, target, ByEvent(id, target));
        TransitionAdvances(db, p, ev, target, Some(id), now, ByEvent(id, target), o);
        RelabelledAdvances(db, mid, db', o);
      } else {
        SameRowsAdvances(db, db', o);
      }
    } else {
      SameRowsAdvances(db, db', o);
    }
  }

  lemma RelabelledAdvances(db: Tables, mid: Tables, db': Tables, o: OrderId)
    requires o in db.orders && o in db.checkouts && o in db.wins && Advances(db, mid, o)
    requires db' == mid.(inbox := db'.inbox, fences := db'.fences, receipts := db'.receipts)
    requires o in mid.receipts ==> o in db'.receipts && db'.receipts[o] == mid.receipts[o]
    ensures Advances(db, db', o)
  {
  }

  lemma PollAdvances(c: Config, db: Tables, token: Token, p: OrderId, ev: Evidence, target: Target, leaseNow: int, now: int,
                     o: OrderId)
    requires o in db.orders && o in db.checkouts && o in db.wins && PaymentsAgree(db)
    ensures Advances(db, ApplyPollWithLease(c, db, token, p, ev, target, leaseNow, now).db, o)
  {
    hide Advances;
    var db' := ApplyPollWithLease(c, db, token, p, ev, target, leaseNow, now).db;
    if db' == db {
      SameRowsAdvances(db, db', o);
    } else {
      var t := ApplyTransition(db.orders[p], db.checkouts[p], ev, target, None, now);
      var mid := StoreTransition(db, p, t, target, ByPoll(token, target));
      TransitionAdvances(db, p, ev, target, None, now, ByPoll(token, target), o);
      RelabelledAdvances(db, mid, db', o);
    }
  }

  /** The writes of one webhook step. */
  function WebhookWrites(db: Tables, w: Webhook, ch: Choice): Tables {
    match w
    case Recording(id, e) => RecordEvent(db, id, e, ch.now).db
    case Applying(id, _, o, ev, target) => ApplyReconciliation(db, id, o, ev, target, ch.now).db
    case Marking(id, state, code) => FinishEvent(db, id, state, code)
    case _ => db
  }

  lemma WebhookStepWrites(c: Config, s: State, t: int, ch: Choice)
    requires t in s.webhooks
    ensures WebhookStep(c, s, t, ch).db == WebhookWrites(s.db, s.webhooks[t], ch)
    ensures WebhookStep(c, s, t, ch).sent == s.sent
  {
    hide RecordEvent, ApplyReconciliation, FinishEvent, Screen, ReadState, Correlate, Judge;
  }

  /** The writes of one claim step. */
  function ClaimWrites(c: Config, db: Tables, token: Token, o: OrderId, pc: ClaimPc, ch: Choice): Tables {
    match pc
    case ResumeApplying(id, _, ev, target) => ApplyEventWithLease(db, token, id, o, ev, target, ch.leaseNow, ch.now).db
    case InboxMarking(id, state, code) => MarkInboxWithLease(db, token, o, id, state, code, ch.leaseNow).db
    case PollApplying(ev, target) => ApplyPollWithLease(c, db, token, o, ev, target, ch.leaseNow, ch.now).db
    case Publishing => PublishWithLease(db, token, o, ch.leaseNow).db
    case Finishing => FinishLease(db, token, o, ch.leaseNow)
    case _ => db
  }

  lemma ClaimStepWrites(c: Config, s: State, token: Token, ch: Choice)
    requires token in s.claims
    ensures ClaimStep(c, s, token, ch).db == ClaimWrites(c, s.db, token, s.claims[token].order, s.claims[token].pc, ch)
    ensures ClaimStep(c, s, token, ch).sent
            == if s.claims[token].pc.Sending? then s.sent + [s.claims[token].order] else s.sent
  {
    hide ApplyEventWithLease, MarkInboxWithLease, ApplyPollWithLease, PublishWithLease, FinishLease, Snapshot, Look, Resume,
         ResumeJudge, PollJudge, PaidAuthorityCode;
  }

  lemma WebhookAdvances(db: Tables, w: Webhook, ch: Choice, o: OrderId)
    requires o in db.orders && o in db.checkouts && o in db.wins && PaymentsAgree(db)
    ensures Advances(db, WebhookWrites(db, w, ch), o)
  {
    hide Advances, ReconcileEvent, PaymentsAgree;
    if w.Applying? && w.id in db.inbox && db.inbox[w.id].state != Processed {
      ReconcileAdvances(db, w.id, w.o, w.ev, w.target, ch.now, o);
    } else {
      SameRowsAdvances(db, WebhookWrites(db, w, ch), o);
    }
  }

  /** Both state columns tell an expired order. */
  predicate PaymentsAgree(db: Tables) {
    && db.wins.Keys == db.orders.Keys == db.checkouts.Keys
    && forall p :: p in db.orders ==> (db.orders[p].state == Expired <==> db.orders[p].payment == PayExpired)
  }

  lemma InvPayments(c: Config, s: State)
    requires Inv(c, s)
    ensures PaymentsAgree(s.db)
  {
    forall p | p in s.db.orders ensures s.db.orders[p].state == Expired <==> s.db.orders[p].payment == PayExpired {
      InvOrder(c, s, p);
    }
    hide WebhookOk, ClaimOk, RowsOk, OrderOk;
  }

  lemma ClaimAdvances(c: Config, db: Tables, token: Token, p: OrderId, pc: ClaimPc, ch: Choice, o: OrderId)
    requires o in db.orders && o in db.checkouts && o in db.wins && PaymentsAgree(db)
    ensures Advances(db, ClaimWrites(c, db, token, p, pc, ch), o)
  {
    hide Advances, PaymentsAgree, ApplyEventWithLease, ApplyPollWithLease;
    match pc
    case ResumeApplying(id, _, ev, target) => ResumeAdvances(db, token, id, p, ev, target, ch, o);
    case PollApplying(ev, target) => PollAdvances(c, db, token, p, ev, target, ch.leaseNow, ch.now, o);
    case _ => OtherClaimsAdvance(c, db, token, p, pc, ch, o);
  }

  lemma OtherClaimsAdvance(c: Config, db: Tables, token: Token, p: OrderId, pc: ClaimPc, ch: Choice, o: OrderId)
    requires o in db.orders && o in db.checkouts && o in db.wins
    requires !pc.ResumeApplying? && !pc.PollApplying?
    ensures Advances(db, ClaimWrites(c, db, token, p, pc, ch), o)
  {
    hide Advances, ApplyEventWithLease, ApplyPollWithLease, Current, Finish, Write;
    SameRowsAdvances(db, ClaimWrites(c, db, token, p, pc, ch), o);
  }

  lemma ResumeAdvances(db: Tables, token: Token, id: EventId, p: OrderId, ev: Evidence, target: Target, ch: Choice, o: OrderId)
    requires o in db.orders && o in db.checkouts && o in db.wins && PaymentsAgree(db)
    ensures Advances(db, ApplyEventWithLease(db, token, id, p, ev, target, ch.leaseNow, ch.now).db, o)
  {
    hide Advances, ReconcileEvent, PaymentsAgree;
    var db' := ApplyEventWithLease(db, token, id, p, ev, target, ch.leaseNow, ch.now).db;
    if db' == db {
      SameRowsAdvances(db, db', o);
    } else {
      ReconcileAdvances(db, id, p, ev, target, ch.now, o);
      var out := ReconcileEvent(db, id, p, ev, target, ch.now);
      if !out.result.Aborted? { RelabelledAdvances(db, out.db, db', o); }
    }
  }

  lemma CreateAdvances(db: Tables, p: OrderId, product: string, catalog: string, email: string, price: string, o: OrderId)
    requires o in db.orders && o in db.checkouts && o in db.wins
    ensures Advances(db, CreateOrder(db, p, product, catalog, email, price), o)
  {
  }

  lemma BindAdvances(db: Tables, p: OrderId, sessionId: string, o: OrderId)
    requires o in db.orders && o in db.checkouts && o in db.wins
    ensures Advances(db, BindCheckout(db, p, sessionId), o)
  {
    hide SessionFree;
  }

  lemma FulfilAdvances(db: Tables, p: OrderId, after: Order, o: OrderId)
    requires o in db.orders && o in db.checkouts && o in db.wins && p in db.orders && FulfillmentMayWrite(db.orders[p], after)
    ensures Advances(db, db.(orders := db.orders[p := after]), o)
  {
  }

  lemma EnvironmentSameRows(c: Config, s: State, ev: Event)
    requires !ev.Handle? && !ev.Process? && !ev.Create? && !ev.Bind? && !ev.Fulfil?
    ensures SameRows(s.db, Apply(c, s, ev).db)
  {
    hide Claim, Claimable, WebhookStep, ClaimStep, CreateOrder, BindCheckout, FulfillmentMayWrite;
  }

  lemma EnvironmentAdvances(c: Config, s: State, ev: Event, o: OrderId)
    requires o in s.db.orders && o in s.db.checkouts && o in s.db.wins && !ev.Handle? && !ev.Process?
    ensures Advances(s.db, Apply(c, s, ev).db, o)
  {
    hide Advances, CreateOrder, BindCheckout, FulfillmentMayWrite, SameRows;
    SameRowsAdvances(s.db, s.db, o) by { SameRowsReflexive(s.db); }
    if ev.Create? {
      CreateAdvances(s.db, ev.o, ev.product, ev.catalog, ev.email, ev.price, o);
    } else if ev.Bind? {
      BindAdvances(s.db, ev.o, ev.sessionId, o);
    } else if ev.Fulfil? {
      if ev.o in s.db.orders && FulfillmentMayWrite(s.db.orders[ev.o], ev.after) { FulfilAdvances(s.db, ev.o, ev.after, o); }
    } else {
      hide Apply;
      EnvironmentSameRows(c, s, ev);
      SameRowsAdvances(s.db, Apply(c, s, ev).db, o);
    }
  }

  lemma SameRowsReflexive(db: Tables)
    ensures SameRows(db, db)
  {
  }

  lemma HandleAdvances(c: Config, s: State, t: int, ch: Choice, o: OrderId)
    requires o in s.db.orders && o in s.db.checkouts && o in s.db.wins && PaymentsAgree(s.db)
    ensures Advances(s.db, Apply(c, s, Handle(t, ch)).db, o)
  {
    hide WebhookStep, Advances, PaymentsAgree, WebhookWrites;
    if t in s.webhooks {
      WebhookStepWrites(c, s, t, ch);
      WebhookAdvances(s.db, s.webhooks[t], ch, o);
    } else {
      SameRowsAdvances(s.db, s.db, o);
    }
  }

  lemma ProcessAdvances(c: Config, s: State, token: Token, ch: Choice, o: OrderId)
    requires o in s.db.orders && o in s.db.checkouts && o in s.db.wins && PaymentsAgree(s.db)
    ensures Advances(s.db, Apply(c, s, Process(token, ch)).db, o)
  {
    hide ClaimStep, Advances, PaymentsAgree, ClaimWrites;
    if token in s.claims {
      ClaimStepWrites(c, s, token, ch);
      ClaimAdvances(c, s.db, token, s.claims[token].order, s.claims[token].pc, ch, o);
    } else {
      SameRowsAdvances(s.db, s.db, o);
    }
  }

  lemma StepAdvances(c: Config, s: State, ev: Event, o: OrderId)
    requires Inv(c, s) && o in s.db.orders
    ensures o in s.db.checkouts && o in s.db.wins && Advances(s.db, Apply(c, s, ev).db, o)
  {
    InvOrder(c, s, o);
    InvPayments(c, s);
    hide Inv, RowsOk, Advances, PaymentsAgree, Apply;
    match ev
    case Handle(t, ch) => HandleAdvances(c, s, t, ch, o);
    case Process(token, ch) => ProcessAdvances(c, s, token, ch, o);
    case _ => EnvironmentAdvances(c, s, ev, o);
  }

  lemma AdvancesTransitive(db: Tables, mid: Tables, db': Tables, o: OrderId)
    requires o in db.orders && o in db.checkouts && o in db.wins && Advances(db, mid, o) && Advances(mid, db', o)
    ensures Advances(db, db', o)
  {
  }

  lemma {:induction false} RunAdvances(c: Config, s: State, es: seq<Event>, o: OrderId)
    requires WellFormed(c) && Inv(c, s) && o in s.db.orders
    ensures o in s.db.checkouts && o in s.db.wins && Advances(s.db, Run(c, s, es).db, o)
    decreases |es|
  {
    hide Inv, Apply, Advances;
    assert o in s.db.checkouts && o in s.db.wins by { InvOrder(c, s, o); }
    if es == [] {
      SameRowsAdvances(s.db, s.db, o);
    } else {
      var mid := Apply(c, s, es[0]);
      StepAdvances(c, s, es[0], o);
      StepKeepsInv(c, s, es[0]);
      assert o in mid.db.orders by { AdvancesOrders(s.db, mid.db, o); }
      RunAdvances(c, mid, es[1..], o);
      AdvancesTransitive(s.db, mid.db, Run(c, mid, es[1..]).db, o);
    }
  }

  lemma AdvancesOrders(db: Tables, db': Tables, o: OrderId)
    requires o in db.orders && o in db.checkouts && o in db.wins && Advances(db, db', o)
    ensures o in db'.orders
  {
  }

  /**
   * A decided payment race stays decided: the winner is never replaced, a paid order is never expired
   * or pending again, an expired order is frozen, and outbox rows and receipts stay.
   */
  lemma RaceIsFinal(c: Config, s: State, s': State, o: OrderId)
    requires WellFormed(c) && Reachable(c, s) && Leads(c, s, s')
    requires o in s.db.orders && s.db.orders[o].state != PendingPayment
    ensures o in s'.db.orders && o in s.db.wins && o in s'.db.wins && s'.db.wins[o] == s.db.wins[o]
    ensures s.db.orders[o].state == Expired ==> s'.db.orders[o] == s.db.orders[o]
    ensures s.db.orders[o].state != Expired ==> s'.db.orders[o].state !in {PendingPayment, Expired}
    ensures o in s.db.outbox <==> o in s'.db.outbox
    ensures o in s.db.receipts <==> o in s'.db.receipts
    ensures o in s.db.receipts ==> s'.db.receipts[o] == s.db.receipts[o]
  {
    hide Inv, Run, Advances, Decided, Reachable;
    var es :| s' == Run(c, s, es);
    ReachableInv(c, s);
    RunKeepsInv(c, s, es);
    RunAdvances(c, s, es, o);
    InvDecided(c, s, o);
    AdvancesOrders(s.db, s'.db, o);
    InvDecided(c, s', o);
    DecidedStays(s.db, s'.db, o);
  }

  /** The outcome of the race for one order, as its rows tell it. */
  predicate Decided(db: Tables, o: OrderId)
    requires o in db.orders && o in db.wins
  {
    var wins := db.wins[o];
    && |wins| <= 1
    && (wins == [] <==> db.orders[o].state == PendingPayment)
    && (o in db.outbox <==> wins != [] && wins[0].target == ToPaid)
    && (db.orders[o].state == Expired <==> wins != [] && wins[0].target == ToExpired)
    && (o in db.receipts <==> wins != [] && wins[0].ByPoll?)
  }

  lemma InvDecided(c: Config, s: State, o: OrderId)
    requires Inv(c, s) && o in s.db.orders
    ensures o in s.db.wins && Decided(s.db, o)
  {
    InvOrder(c, s, o);
    hide Inv, RowsOk;
    DecidedRows(c, o, s.db.orders[o], s.db.checkouts[o], s.db.wins[o], o in s.db.outbox, ReceiptRow(s.db, o),
                LineageRow(s.db, s.db.checkouts[o]));
  }

  lemma DecidedStays(db: Tables, db': Tables, o: OrderId)
    requires o in db.orders && o in db.checkouts && o in db.wins && Advances(db, db', o)
    requires o in db'.orders && o in db'.wins && Decided(db, o) && Decided(db', o) && db.orders[o].state != PendingPayment
    ensures db'.wins[o] == db.wins[o]
    ensures db.orders[o].state == Expired ==> db'.orders[o] == db.orders[o]
    ensures db.orders[o].state != Expired ==> db'.orders[o].state !in {PendingPayment, Expired}
    ensures o in db.outbox <==> o in db'.outbox
    ensures o in db.receipts <==> o in db'.receipts
    ensures o in db.receipts ==> db'.receipts[o] == db.receipts[o]
  {
  }

  /** The rows of one order, read for the outcome of its race. */
  lemma DecidedRows(c: Config, o: OrderId, order: Order, checkout: Checkout, wins: seq<Win>, queued: bool,
                    receipt: Option<Receipt>, event: Option<Inbox>)
    requires RowsOk(c, o, order, checkout, wins, queued, receipt, event)
    ensures |wins| <= 1
    ensures wins == [] <==> order.state == PendingPayment
    ensures queued <==> wins != [] && wins[0].target == ToPaid
    ensures order.state == Expired <==> wins != [] && wins[0].target == ToExpired
    ensures receipt.Some? <==> wins != [] && wins[0].ByPoll?
  {
    hide PaidRowsCode, BoundToOrder;
  }

  // ---- Inbox ----

  lemma ReconcileProcessed(db: Tables, id: EventId, o: OrderId, ev: Evidence, target: Target, now: int)
    requires id in db.inbox && db.inbox[id].state != Processed
    ensures ProcessedStays(db, ReconcileEvent(db, id, o, ev, target, now).db)
  {
    hide ApplyTransition, SessionFree;
  }

  lemma WebhookProcessed(db: Tables, w: Webhook, ch: Choice)
    ensures ProcessedStays(db, WebhookWrites(db, w, ch))
  {
    hide ReconcileEvent;
    if w.Applying? && w.id in db.inbox && db.inbox[w.id].state != Processed {
      ReconcileProcessed(db, w.id, w.o, w.ev, w.target, ch.now);
    }
  }

  lemma ClaimProcessed(c: Config, db: Tables, token: Token, o: OrderId, pc: ClaimPc, ch: Choice)
    ensures ProcessedStays(db, ClaimWrites(c, db, token, o, pc, ch))
  {
    hide ReconcileEvent, Current, Finish, Write, ApplyTransition, SessionFree;
    if pc.ResumeApplying? && HoldsLease(db, o, token, ch.leaseNow) && pc.id in db.inbox && db.inbox[pc.id].state == Received {
      ReconcileProcessed(db, pc.id, o, pc.ev, pc.target, ch.now);
    }
  }

  lemma StepProcessed(c: Config, s: State, ev: Event)
    ensures ProcessedStays(s.db, Apply(c, s, ev).db)
  {
    hide WebhookStep, ClaimStep, WebhookWrites, ClaimWrites, Claim, Claimable, SessionFree;
    if ev.Handle? && ev.t in s.webhooks {
      WebhookStepWrites(c, s, ev.t, ev.ch);
      WebhookProcessed(s.db, s.webhooks[ev.t], ev.ch);
    } else if ev.Process? && ev.token in s.claims {
      ClaimStepWrites(c, s, ev.token, ev.ch);
      ClaimProcessed(c, s.db, ev.token, s.claims[ev.token].order, s.claims[ev.token].pc, ev.ch);
    }
  }

  /** A processed event is settled for good, with the envelope that was signed. */
  lemma {:induction false} ProcessedIsAbsorbing(c: Config, s: State, es: seq<Event>)
    ensures ProcessedStays(s.db, Run(c, s, es).db)
    decreases |es|
  {
    hide Apply;
    if es != [] {
      StepProcessed(c, s, es[0]);
      ProcessedIsAbsorbing(c, Apply(c, s, es[0]), es[1..]);
    }
  }

  // ---- Fencing ----

  /** In every reachable state the lease history of an order is a sequence of claim blocks. */
  lemma LeasedWritesAreFenced(c: Config, s: State, o: OrderId, k: nat) returns (i: nat)
    requires WellFormed(c) && Reachable(c, s) && o in s.db.fences && k < |s.db.fences[o].log|
    ensures var log := s.db.fences[o].log;
            && i <= k && log[i] == Claimed(log[k].token)
            && (forall j :: i < j < k ==> log[j] == Wrote(log[k].token))
            && (forall j :: 0 <= j < i ==> log[j].token != log[k].token)
            && (log[k].Finished? ==> forall j :: k < j < |log| ==> log[j].token != log[k].token)
  {
    ReachableInv(c, s);
    InvFence(c, s, o);
    hide Inv;
    var f := s.db.fences[o];
    i := FencedHistoryIsBlocks(f, k);
    if f.log[k].Finished? {
      forall j | k < j < |f.log| ensures f.log[j].token != f.log[k].token { FinishIsFinal(f, k, j); }
    }
  }

  lemma InvFence(c: Config, s: State, o: OrderId)
    requires Inv(c, s) && o in s.db.fences
    ensures Fenced(s.db.fences[o])
  {
    hide WebhookOk, ClaimOk, OrderOk, Fenced;
  }

  // ---- Dispatch ----

  predicate SentOnlyPaid(s: State) {
    forall i :: 0 <= i < |s.sent| ==> s.sent[i] in s.db.outbox
  }

  lemma StepSent(c: Config, s: State, ev: Event)
    requires WellFormed(c) && Inv(c, s) && SentOnlyPaid(s)
    ensures SentOnlyPaid(Apply(c, s, ev))
  {
    var s' := Apply(c, s, ev);
    hide Inv, Apply;
    if ev.Process? && ev.token in s.claims && s.claims[ev.token].pc.Sending? { SendingIsQueued(c, s, ev.token); }
    SentGrows(c, s, ev);
    forall i | 0 <= i < |s'.sent| ensures s'.sent[i] in s'.db.outbox {
      assert s'.sent[i] in s.db.outbox;
      OutboxStays(c, s, ev, s'.sent[i]);
    }
  }

  lemma SendingIsQueued(c: Config, s: State, token: Token)
    requires Inv(c, s) && token in s.claims && s.claims[token].pc.Sending?
    ensures s.claims[token].order in s.db.outbox
  {
    hide WebhookOk, TablesOk;
    assert ClaimOk(c, s.db, token, s.claims[token].order, s.claims[token].pc);
  }

  lemma OutboxStays(c: Config, s: State, ev: Event, o: OrderId)
    requires Inv(c, s) && o in s.db.outbox
    ensures o in Apply(c, s, ev).db.outbox
  {
    hide Inv, Apply;
    InvOutbox(c, s, o);
    StepAdvances(c, s, ev, o);
  }

  lemma SentGrows(c: Config, s: State, ev: Event)
    ensures Apply(c, s, ev).sent
            == if ev.Process? && ev.token in s.claims && s.claims[ev.token].pc.Sending? then s.sent + [s.claims[ev.token].order]
               else s.sent
  {
    hide WebhookStep, ClaimStep;
    if ev.Handle? && ev.t in s.webhooks {
      WebhookStepWrites(c, s, ev.t, ev.ch);
    } else if ev.Process? && ev.token in s.claims {
      ClaimStepWrites(c, s, ev.token, ev.ch);
    }
  }

  lemma InvOutbox(c: Config, s: State, o: OrderId)
    requires Inv(c, s) && o in s.db.outbox
    ensures o in s.db.orders
  {
    hide WebhookOk, ClaimOk, OrderOk;
  }

  lemma {:induction false} RunSent(c: Config, s: State, es: seq<Event>)
    requires WellFormed(c) && Inv(c, s) && SentOnlyPaid(s)
    ensures SentOnlyPaid(Run(c, s, es))
    decreases |es|
  {
    hide Inv, Apply, SentOnlyPaid;
    if es != [] {
      StepSent(c, s, es[0]);
      StepKeepsInv(c, s, es[0]);
      RunSent(c, Apply(c, s, es[0]), es[1..]);
    }
  }

  /** Whatever recovery hands to fulfillment is an order with a complete paid lineage, then and ever after. */
  lemma SentOrdersArePaid(c: Config, s: State, i: nat)
    requires WellFormed(c) && Reachable(c, s) && i < |s.sent|
    ensures s.sent[i] in s.db.orders && PaidAuthorityCode(c, s.db, s.sent[i]).None?
    ensures s.db.orders[s.sent[i]].state !in {PendingPayment, Expired}
  {
    ReachableInv(c, s);
    var es :| s == Run(c, INIT, es);
    InitInv(c);
    RunSent(c, INIT, es);
    hide Run;
    InvOutbox(c, s, s.sent[i]);
    hide Inv;
    LineageComplete(c, s, s.sent[i]);
    RaceHasOneWinner(c, s, s.sent[i]);
  }

  // ---- What fulfillment may rely on ----

  const FULFILLING: set<OrderState> := {FulfillmentInProgress, Fulfilled, AttentionRequired, Refunded}

  /** An order in the hands of fulfillment keeps its checkout row, and stays there. */
  predicate HandedOver(db: Tables, db': Tables, o: OrderId) {
    o in db.orders && o in db.checkouts && db.orders[o].state in FULFILLING ==>
      && o in db'.orders && o in db'.checkouts
      && db'.checkouts[o] == db.checkouts[o] && db'.orders[o].state in FULFILLING
  }

  lemma NoTransitionInFulfillment(order: Order, checkout: Checkout, ev: Evidence, target: Target, event: Option<EventId>,
      now: int)
    requires order.state in FULFILLING
    ensures ApplyTransition(order, checkout, ev, target, event, now).Refused?
  {
  }

  lemma ReconcileHandedOver(db: Tables, id: EventId, p: OrderId, ev: Evidence, target: Target, now: int, o: OrderId)
    requires id in db.inbox
    ensures HandedOver(db, ReconcileEvent(db, id, p, ev, target, now).db, o)
  {
    hide ApplyTransition, SessionFree;
    if p == o && o in db.orders && o in db.checkouts && db.orders[o].state in FULFILLING {
      NoTransitionInFulfillment(db.orders[o], db.checkouts[o], ev, target, Some(id), now);
    }
  }

  lemma PollHandedOver(c: Config, db: Tables, token: Token, p: OrderId, ev: Evidence, target: Target, leaseNow: int, now: int,
                       o: OrderId)
    ensures HandedOver(db, ApplyPollWithLease(c, db, token, p, ev, target, leaseNow, now).db, o)
  {
    hide ApplyTransition, SessionFree, Current, Write;
    if p == o && o in db.orders && o in db.checkouts && db.orders[o].state in FULFILLING {
      NoTransitionInFulfillment(db.orders[o], db.checkouts[o], ev, target, None, now);
    }
  }

  lemma WebhookHandedOver(db: Tables, w: Webhook, ch: Choice, o: OrderId)
    ensures HandedOver(db, WebhookWrites(db, w, ch), o)
  {
    hide ReconcileEvent;
    if w.Applying? && w.id in db.inbox && db.inbox[w.id].state != Processed {
      ReconcileHandedOver(db, w.id, w.o, w.ev, w.target, ch.now, o);
    }
  }

  lemma ClaimHandedOver(c: Config, db: Tables, token: Token, p: OrderId, pc: ClaimPc, ch: Choice, o: OrderId)
    ensures HandedOver(db, ClaimWrites(c, db, token, p, pc, ch), o)
  {
    hide ReconcileEvent, Current, Finish, Write, ApplyPollWithLease;
    if pc.ResumeApplying? && HoldsLease(db, p, token, ch.leaseNow) && pc.id in db.inbox && db.inbox[pc.id].state == Received {
      ReconcileHandedOver(db, pc.id, p, pc.ev, pc.target, ch.now, o);
    } else if pc.PollApplying? {
      PollHandedOver(c, db, token, p, pc.ev, pc.target, ch.leaseNow, ch.now, o);
    }
  }

  lemma StepHandedOver(c: Config, s: State, ev: Event, o: OrderId)
    requires Inv(c, s)
    ensures HandedOver(s.db, Apply(c, s, ev).db, o)
  {
    hide Inv, WebhookStep, ClaimStep, WebhookWrites, ClaimWrites, SessionFree, Claim, Claimable;
    if ev.Handle? && ev.t in s.webhooks {
      WebhookStepWrites(c, s, ev.t, ev.ch);
      WebhookHandedOver(s.db, s.webhooks[ev.t], ev.ch, o);
    } else if ev.Process? && ev.token in s.claims {
      ClaimStepWrites(c, s, ev.token, ev.ch);
      ClaimHandedOver(c, s.db, ev.token, s.claims[ev.token].order, s.claims[ev.token].pc, ev.ch, o);
    } else if ev.Bind? && o in s.db.orders && s.db.orders[o].state in FULFILLING {
      FulfillingIsBound(c, s, o);
    }
  }

  lemma FulfillingIsBound(c: Config, s: State, o: OrderId)
    requires Inv(c, s) && o in s.db.orders && s.db.orders[o].state in FULFILLING
    ensures o in s.db.checkouts && s.db.checkouts[o].sessionId.Some? && NonEmpty(s.db.checkouts[o].paymentIntent)
  {
    InvOrder(c, s, o);
    hide Inv, RowsOk, PaidRowsCode;
    FulfillingRows(c, o, s.db.orders[o], s.db.checkouts[o], s.db.wins[o], o in s.db.outbox, ReceiptRow(s.db, o),
                   LineageRow(s.db, s.db.checkouts[o]));
  }

  lemma FulfillingRows(c: Config, o: OrderId, order: Order, checkout: Checkout, wins: seq<Win>, queued: bool,
                       receipt: Option<Receipt>, event: Option<Inbox>)
    requires RowsOk(c, o, order, checkout, wins, queued, receipt, event) && order.state in FULFILLING
    ensures checkout.sessionId.Some? && NonEmpty(checkout.paymentIntent)
  {
  }

  lemma {:induction false} RunHandedOver(c: Config, s: State, es: seq<Event>, o: OrderId)
    requires WellFormed(c) && Inv(c, s)
    ensures HandedOver(s.db, Run(c, s, es).db, o)
    decreases |es|
  {
    hide Inv, Apply;
    if es != [] {
      StepHandedOver(c, s, es[0], o);
      StepKeepsInv(c, s, es[0]);
      RunHandedOver(c, Apply(c, s, es[0]), es[1..], o);
    }
  }

  /**
   * Once fulfillment has taken an order over, no webhook, poll or recovery changes its checkout row: the
   * payment intent a refund is later made against is the one that proved the payment.
   */
  lemma CheckoutIsFrozen(c: Config, s: State, s': State, o: OrderId)
    requires WellFormed(c) && Reachable(c, s) && Leads(c, s, s') && o in s.db.orders && s.db.orders[o].state in FULFILLING
    ensures o in s.db.checkouts && o in s'.db.checkouts && s'.db.checkouts[o] == s.db.checkouts[o]
    ensures NonEmpty(s.db.checkouts[o].paymentIntent)
  {
    ReachableInv(c, s);
    var es :| s' == Run(c, s, es);
    RunHandedOver(c, s, es, o);
    hide Run, Inv;
    FulfillingIsBound(c, s, o);
  }
}

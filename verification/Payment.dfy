/**
 * The payment protocol: Stripe webhooks, event recovery and server polls race to move orders from
 * pending to paid or expired (sitescore-commerce db.py, webhook.py, recovery_atomic.py,
 * recovery_lineage.py). Every `session_factory.begin()` block is one atomic step over the tables.
 */
module Payment {
  import opened Prelude
  import opened Orders
  import opened Lease

  type EventId = string

  const COMPLETED_EVENT := "checkout.session.completed"
  const EXPIRED_EVENT := "checkout.session.expired"
  const OPERATION_VERSION := "stripe_checkout_v1"
  const POLL_SOURCE := "stripe_checkout_server_poll_v1"

  // ---- Rows ----

  datatype Checkout = Checkout(
    sessionId: Option<string>,
    operationVersion: string,
    productCode: string,
    catalogVersion: string,
    priceId: string,
    quantity: int,
    email: string,
    paymentIntent: Option<string>,
    sessionStatus: Option<string>,
    paymentStatus: Option<string>,
    livemode: Option<bool>,
    reconciledAt: Option<int>,
    lastEvent: Option<EventId>)

  datatype InboxState = Received | Processed | Ignored | Attention

  /** A verified Stripe event: what its signature covers. */
  datatype Envelope = Envelope(
    eventType: string, sessionId: Option<string>, candidate: Option<string>, apiVersion: Option<string>, livemode: bool,
    createdAt: int)

  /** An inbox row: the envelope it was recorded with, and what became of it. */
  datatype Inbox = Inbox(envelope: Envelope, state: InboxState, failure: Option<string>, attempts: nat, receivedAt: int)

  datatype Receipt = Receipt(
    source: string, target: Target, sessionId: string, sessionStatus: string, paymentStatus: string,
    paymentIntent: Option<string>, livemode: bool, evidenceHash: string)

  datatype Outbox = Outbox(published: bool)

  datatype Target = ToPaid | ToExpired

  datatype Item = Item(priceId: string, quantity: int, currency: string)

  /** What Stripe says about one Checkout Session. */
  datatype Evidence = Evidence(
    sessionId: string, objectType: string, mode: string, livemode: bool, clientReference: string,
    metadata: map<string, string>, status: string, paymentStatus: string, paymentIntent: Option<string>, items: seq<Item>)

  /** `parseUuid` normalises UUID texts; `hash` is SHA-256 in hex over the canonical evidence. */
  datatype Config = Config(
    apiVersion: string, livemode: bool, parseUuid: string -> Option<OrderId>, hash: Evidence -> string)

  ghost predicate WellFormed(c: Config) {
    forall e :: |c.hash(e)| == 64
  }

  // ---- The payment transition ----

  datatype Transition =
    | Refused(code: string)
    | Applied(order: Order, checkout: Checkout, transitioned: bool)

  function ApplyTransition(order: Order, checkout: Checkout, ev: Evidence, target: Target, event: Option<EventId>,
                           now: int): Transition {
    if checkout.sessionId.Some? && checkout.sessionId.value != ev.sessionId then Refused("local_session_binding_conflict")
    else
      match target
      case ToPaid =>
        if order.state == Expired || order.payment == PayExpired then Refused("contradictory_terminal_payment_truth")
        else if order.state == PendingPayment && order.payment == PayPending then
          Applied(order.(state := Paid, payment := PayPaid), Observed(checkout, ev, event, now), true)
        else if order.state == Paid && order.payment == PayPaid then
          Applied(order, Observed(checkout, ev, event, now), false)
        else Refused("invalid_payment_state_transition")
      case ToExpired =>
        if order.state == Paid || order.payment == PayPaid then Refused("late_expiration_after_paid")
        else if order.state == PendingPayment && order.payment == PayPending then
          Applied(order.(state := Expired, payment := PayExpired), Observed(checkout, ev, event, now), true)
        else if order.state == Expired && order.payment == PayExpired then
          Applied(order, Observed(checkout, ev, event, now), false)
        else Refused("invalid_expiration_state_transition")
  }

  function Observed(checkout: Checkout, ev: Evidence, event: Option<EventId>, now: int): Checkout {
    checkout.(
    sessionId := Some(ev.sessionId),
    paymentIntent := ev.paymentIntent,
    sessionStatus := Some(ev.status),
    paymentStatus := Some(ev.paymentStatus),
    livemode := Some(ev.livemode),
    reconciledAt := Some(now),
    lastEvent := if event.Some? then event else checkout.lastEvent)
  }

  // ---- Provider evidence against local bindings ----

  /** `validate_binding`. */
  predicate BindingValid(c: Config, ev: Evidence, o: OrderId, order: Order, checkout: Checkout) {
    && ev.objectType == "checkout.session"
    && ev.mode == "payment"
    && ev.livemode == c.livemode
    && ev.clientReference == o
    && "sitescore_order_id" in ev.metadata && ev.metadata["sitescore_order_id"] == o
    && "sitescore_product_code" in ev.metadata && ev.metadata["sitescore_product_code"] == order.productCode
    && "sitescore_catalog_version" in ev.metadata && ev.metadata["sitescore_catalog_version"] == order.catalogVersion
    && (checkout.sessionId.Some? ==> checkout.sessionId.value == ev.sessionId)
    && |ev.items| == 1
    && ev.items[0].priceId == checkout.priceId
    && ev.items[0].quantity == checkout.quantity && ev.items[0].quantity == 1
    && ev.items[0].currency == "USD"
  }

  predicate NonEmpty(s: Option<string>) {
    s.Some? && s.value != ""
  }

  predicate ProvesPaid(ev: Evidence) {
    ev.status == "complete" && ev.paymentStatus == "paid" && NonEmpty(ev.paymentIntent)
  }

  predicate ProvesExpired(ev: Evidence) {
    ev.status == "expired" && ev.paymentStatus == "unpaid"
  }

  // ---- The authority recovery demands before it replays a paid order ----

  function PaidAuthorityCode(c: Config, db: Tables, o: OrderId): Option<string> {
    if o !in db.orders || o !in db.checkouts then Some("paid_checkout_binding_missing")
    else PaidRowsCode(c, o, db.orders[o], db.checkouts[o], LineageRow(db, db.checkouts[o]), ReceiptRow(db, o))
  }

  /** The inbox row of the event that reconciled the checkout last. */
  function LineageRow(db: Tables, checkout: Checkout): Option<Inbox> {
    if checkout.lastEvent.Some? && checkout.lastEvent.value in db.inbox then Some(db.inbox[checkout.lastEvent.value]) else None
  }

  function ReceiptRow(db: Tables, o: OrderId): Option<Receipt> {
    if o in db.receipts then Some(db.receipts[o]) else None
  }

  function PaidRowsCode(c: Config, o: OrderId, order: Order, checkout: Checkout, event: Option<Inbox>,
                        receipt: Option<Receipt>): Option<string> {
    if !NonEmpty(checkout.sessionId) then Some("paid_checkout_session_missing")
    else if checkout.operationVersion != OPERATION_VERSION then Some("paid_checkout_operation_invalid")
    else if || checkout.productCode != order.productCode
            || checkout.catalogVersion != order.catalogVersion
            || checkout.email != order.email
            || checkout.quantity != 1
            || checkout.priceId == ""
    then Some("paid_checkout_catalog_binding_invalid")
    else if checkout.sessionStatus != Some("complete") then Some("paid_stripe_session_status_invalid")
    else if checkout.paymentStatus != Some("paid") then Some("paid_stripe_payment_status_invalid")
    else if !NonEmpty(checkout.paymentIntent) then Some("paid_stripe_payment_intent_missing")
    else if checkout.livemode != Some(c.livemode) then Some("paid_stripe_livemode_invalid")
    else if checkout.reconciledAt.None? then Some("paid_stripe_reconciliation_missing")
    else if NonEmpty(checkout.lastEvent) then WebhookLineageCode(c, o, checkout, event)
    else PollLineageCode(c, checkout, receipt)
  }

  function WebhookLineageCode(c: Config, o: OrderId, checkout: Checkout, event: Option<Inbox>): Option<string> {
    if event.None? then Some("paid_webhook_lineage_missing")
    else
      var row := event.value;
      if || row.state != Processed
         || row.envelope.eventType != COMPLETED_EVENT
         || row.envelope.sessionId != checkout.sessionId
         || row.envelope.livemode != c.livemode
         || (row.envelope.apiVersion.Some? && row.envelope.apiVersion.value != c.apiVersion)
      then Some("paid_webhook_lineage_invalid")
      else if row.envelope.candidate.Some? && c.parseUuid(row.envelope.candidate.value) != Some(o)
      then Some("paid_webhook_order_lineage_invalid")
      else None
  }

  function PollLineageCode(c: Config, checkout: Checkout, receipt: Option<Receipt>): Option<string> {
    if receipt.None? then Some("paid_poll_lineage_missing")
    else
      var row := receipt.value;
      if || row.source != POLL_SOURCE
         || row.target != ToPaid
         || Some(row.sessionId) != checkout.sessionId
         || row.sessionStatus != "complete"
         || row.paymentStatus != "paid"
         || row.paymentIntent != checkout.paymentIntent
         || row.livemode != c.livemode
         || |row.evidenceHash| != 64
      then Some("paid_poll_lineage_invalid")
      else None
  }

  // ---- Tables and transactions ----

  /** A payment transition that happened: who won it, and what the order became. */
  datatype Win = ByEvent(event: EventId, target: Target) | ByPoll(token: Token, target: Target)

  /**
   * The durable tables. Map keys carry the unique keys of the schema: one outbox row per order and
   * type, one poll receipt per order. `wins` is history, never read by a transaction.
   */
  datatype Tables = Tables(
    orders: map<OrderId, Order>,
    checkouts: map<OrderId, Checkout>,
    inbox: map<EventId, Inbox>,
    outbox: map<OrderId, Outbox>,
    receipts: map<OrderId, Receipt>,
    fences: map<OrderId, Fence>,
    tokens: set<Token>,
    wins: map<OrderId, seq<Win>>)

  /** The UNIQUE constraint on the Stripe session id lets `o` hold this session. */
  predicate SessionFree(db: Tables, o: OrderId, sessionId: string) {
    forall p :: p in db.checkouts && p != o ==> db.checkouts[p].sessionId != Some(sessionId)
  }

  function CreateOrder(db: Tables, o: OrderId, product: string, catalog: string, email: string, price: string): Tables {
    if o in db.orders then db
    else db.(
      orders := db.orders[o := Order(product, catalog, email, PendingPayment, PayPending, NotStarted)],
      checkouts := db.checkouts[o := Checkout(None, OPERATION_VERSION, product, catalog, price, 1, email,
                                              None, None, None, None, None, None)],
      wins := db.wins[o := []])
  }

  function BindCheckout(db: Tables, o: OrderId, sessionId: string): Tables {
    if o in db.checkouts && db.checkouts[o].sessionId.None? && SessionFree(db, o, sessionId) then
      db.(checkouts := db.checkouts[o := db.checkouts[o].(sessionId := Some(sessionId))])
    else db
  }

  datatype Recorded = Recorded(db: Tables, conflict: bool)

  /** `record_stripe_event`, with the insert trigger that quarantines events without a candidate order. */
  function RecordEvent(db: Tables, id: EventId, e: Envelope, now: int): Recorded {
    if id !in db.inbox then
      var row := if e.candidate.None? then Inbox(e, Attention, Some("event_order_correlation_invalid"), 1, now)
                 else Inbox(e, Received, None, 1, now);
      Recorded(db.(inbox := db.inbox[id := row]), false)
    else if db.inbox[id].envelope != e then Recorded(db, true)
    else Recorded(db.(inbox := db.inbox[id := db.inbox[id].(attempts := db.inbox[id].attempts + 1)]), false)
  }

  /** `_finish_event`: only a processed row is left alone. */
  function FinishEvent(db: Tables, id: EventId, state: InboxState, code: string): Tables {
    if id !in db.inbox || db.inbox[id].state == Processed then db
    else SetInbox(db, id, state, Some(code))
  }

  function SetInbox(db: Tables, id: EventId, state: InboxState, failure: Option<string>): Tables
    requires id in db.inbox
  {
    db.(inbox := db.inbox[id := db.inbox[id].(state := state, failure := failure)])
  }

  /** The rows a successful transition writes, without the inbox row or the receipt. */
  function StoreTransition(db: Tables, o: OrderId, t: Transition, target: Target, win: Win): Tables
    requires t.Applied?
  {
    db.(
    orders := db.orders[o := t.order],
    checkouts := db.checkouts[o := t.checkout],
    outbox := if t.transitioned && target == ToPaid && o !in db.outbox then db.outbox[o := Outbox(false)] else db.outbox,
    wins := if t.transitioned && o in db.wins then db.wins[o := db.wins[o] + [win]] else db.wins)
  }

  datatype Result = LeaseLost | AlreadyTerminal | Refusal(code: string) | Done | Aborted

  datatype Outcome = Outcome(db: Tables, result: Result)

  /** The common body of the two event reconciliations, once the inbox row is known to be open. */
  function ReconcileEvent(db: Tables, id: EventId, o: OrderId, ev: Evidence, target: Target, now: int): Outcome
    requires id in db.inbox
  {
    if o !in db.orders || o !in db.checkouts then Outcome(db, Aborted)
    else
      var t := ApplyTransition(db.orders[o], db.checkouts[o], ev, target, Some(id), now);
      match t
      case Refused(code) => Outcome(SetInbox(db, id, Attention, Some(code)), Refusal(code))
      case Applied(_, _, _) =>
        if !SessionFree(db, o, ev.sessionId) then Outcome(db, Aborted)
        else Outcome(SetInbox(StoreTransition(db, o, t, target, ByEvent(id, target)), id, Processed, None), Done)
  }

  /** `apply_reconciliation`: a webhook's transaction. */
  function ApplyReconciliation(db: Tables, id: EventId, o: OrderId, ev: Evidence, target: Target, now: int): Outcome {
    if id !in db.inbox then Outcome(db, Aborted)
    else if db.inbox[id].state == Processed then Outcome(db, AlreadyTerminal)
    else ReconcileEvent(db, id, o, ev, target, now)
  }

  predicate HoldsLease(db: Tables, o: OrderId, token: Token, now: int) {
    o in db.fences && Current(db.fences[o].lease, token, now)
  }

  /** A transaction under the lease that wrote something leaves its mark in the fence history. */
  function FencedWrite(db: Tables, o: OrderId, token: Token): Tables
    requires o in db.fences
  {
    db.(fences := db.fences[o := Write(db.fences[o], token)])
  }

  /** `apply_event_reconciliation_with_lease`. */
  function ApplyEventWithLease(db: Tables, token: Token, id: EventId, o: OrderId, ev: Evidence, target: Target,
                               leaseNow: int, now: int): Outcome {
    if !HoldsLease(db, o, token, leaseNow) then Outcome(db, LeaseLost)
    else if id !in db.inbox then Outcome(db, Aborted)
    else if db.inbox[id].state != Received then Outcome(db, AlreadyTerminal)
    else
      var out := ReconcileEvent(db, id, o, ev, target, now);
      if out.result.Aborted? then out else Outcome(FencedWrite(out.db, o, token), out.result)
  }

  /** `apply_poll_reconciliation_with_lease`. */
  function ApplyPollWithLease(c: Config, db: Tables, token: Token, o: OrderId, ev: Evidence, target: Target,
                              leaseNow: int, now: int): Outcome {
    if !HoldsLease(db, o, token, leaseNow) then Outcome(db, LeaseLost)
    else if o !in db.orders || o !in db.checkouts then Outcome(db, Aborted)
    else
      var t := ApplyTransition(db.orders[o], db.checkouts[o], ev, target, None, now);
      match t
      case Refused(code) => Outcome(db, Refusal(code))
      case Applied(_, _, transitioned) =>
        if !SessionFree(db, o, ev.sessionId) then Outcome(db, Aborted)
        else if !transitioned then Outcome(StorePoll(c, db, token, o, t, ev, target), AlreadyTerminal)
        else if o in db.receipts then Outcome(db, Aborted)
        else Outcome(StorePoll(c, db, token, o, t, ev, target), Done)
  }

  /** A poll's rows: the transition, and a receipt exactly when the poll won it. */
  function StorePoll(c: Config, db: Tables, token: Token, o: OrderId, t: Transition, ev: Evidence, target: Target): Tables
    requires t.Applied? && o in db.fences
  {
    var stored := FencedWrite(StoreTransition(db, o, t, target, ByPoll(token, target)), o, token);
    if t.transitioned then stored.(receipts := stored.receipts[o := PollReceipt(c, ev, target)]) else stored
  }

  function PollReceipt(c: Config, ev: Evidence, target: Target): Receipt {
    Receipt(POLL_SOURCE, target, ev.sessionId, ev.status, ev.paymentStatus, ev.paymentIntent, ev.livemode, c.hash(ev))
  }

  /** `mark_inbox_state_with_lease`. */
  function MarkInboxWithLease(db: Tables, token: Token, o: OrderId, id: EventId, state: InboxState, code: string,
                              leaseNow: int): Outcome {
    if !HoldsLease(db, o, token, leaseNow) then Outcome(db, LeaseLost)
    else if id !in db.inbox then Outcome(db, Aborted)
    else if db.inbox[id].state != Received then Outcome(db, LeaseLost)
    else Outcome(FencedWrite(SetInbox(db, id, state, Some(code)), o, token), Done)
  }

  /** `mark_outbox_published_with_lease`; the row is left alone when it is published already. */
  function PublishWithLease(db: Tables, token: Token, o: OrderId, leaseNow: int): Outcome {
    if !HoldsLease(db, o, token, leaseNow) then Outcome(db, LeaseLost)
    else if o !in db.outbox then Outcome(db, Aborted)
    else Outcome(FencedWrite(db.(outbox := db.outbox[o := Outbox(true)]), o, token), Done)
  }

  /** `finish_claim` and `finish_attention_with_lease`. */
  function FinishLease(db: Tables, token: Token, o: OrderId, now: int): Tables {
    if o in db.fences then db.(fences := db.fences[o := Finish(db.fences[o], token, now)]) else db
  }
}

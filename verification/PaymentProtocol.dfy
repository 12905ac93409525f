/**
 * The processes of the payment protocol and their interleavings: webhook handlers, recovery claims,
 * checkout creation, the plain outbox dispatcher and every later writer of the order row. Any process
 * may stop between any two steps; a lost commit acknowledgement is a step followed by such a stop.
 *
 * Assumptions: a Stripe signature is not forged, so an event id is recorded with the envelope that was
 * signed; claim tokens are new; the configuration does not change during a run.
 */
module PaymentProtocol {
  import opened Prelude
  import opened Orders
  import opened Lease
  import opened Payment
  import opened Sorting

  /** One webhook delivery being handled; each constructor names its next step. */
  datatype Webhook =
    | Recording(id: EventId, e: Envelope)
    | Screening(id: EventId, e: Envelope)
    | ReadingState(id: EventId, e: Envelope)
    | Correlating(id: EventId, e: Envelope)
    | Retrieving(id: EventId, e: Envelope, o: OrderId, order: Order, checkout: Checkout)
    | Applying(id: EventId, e: Envelope, o: OrderId, ev: Evidence, target: Target)
    | Marking(id: EventId, state: InboxState, code: string)
    | HandlerDone

  /** One leased recovery claim being processed, under its token. */
  datatype ClaimPc =
    | Snapshotting
    | Looking(pending: bool, replayable: bool, bound: Option<string>)  // snapshot taken; stale event lookup next
    | Resuming(id: EventId, e: Envelope)
    | ResumeLoading(id: EventId, e: Envelope)
    | ResumeRetrieving(id: EventId, e: Envelope, order: Order, checkout: Checkout)
    | ResumeApplying(id: EventId, e: Envelope, ev: Evidence, target: Target)
    | InboxMarking(id: EventId, state: InboxState, code: string)
    | PollLoading(sessionId: string)
    | PollRetrieving(sessionId: string, order: Order, checkout: Checkout)
    | PollApplying(ev: Evidence, target: Target)
    | Authorizing
    | Sending
    | Publishing
    | Finishing
    | ClaimDone

  datatype Job = Job(order: OrderId, pc: ClaimPc)

  /** `due` is the age test of the order's rows; `cutoff` is when an inbox row becomes stale. */
  datatype Choice = Choice(
    now: int, leaseNow: int, cutoff: int, due: bool, event: EventId, evidence: Evidence, accepted: bool)

  datatype State = State(
    db: Tables,
    webhooks: map<int, Webhook>,
    claims: map<Token, Job>,
    sent: seq<OrderId>)  // paid events recovery handed to the orchestrator, in order

  const EMPTY := Tables(map[], map[], map[], map[], map[], map[], {}, map[])
  const INIT := State(EMPTY, map[], map[], [])

  // ---- Webhook steps ----

  predicate Supported(eventType: string) {
    eventType == COMPLETED_EVENT || eventType == EXPIRED_EVENT
  }

  function TargetOf(eventType: string): Target {
    if eventType == COMPLETED_EVENT then ToPaid else ToExpired
  }

  /** Whether the evidence proves what the event claims. */
  predicate Proves(ev: Evidence, target: Target) {
    match target
    case ToPaid => ProvesPaid(ev)
    case ToExpired => ProvesExpired(ev)
  }

  function Screen(c: Config, id: EventId, e: Envelope): Webhook {
    if e.apiVersion.Some? && e.apiVersion.value != c.apiVersion then Marking(id, Attention, "event_api_version_mismatch")
    else if e.livemode != c.livemode then Marking(id, Attention, "event_livemode_mismatch")
    else if !Supported(e.eventType) then Marking(id, Ignored, "unsupported_event")
    else ReadingState(id, e)
  }

  function ReadState(db: Tables, id: EventId, e: Envelope): Webhook {
    if id !in db.inbox || db.inbox[id].state != Received then HandlerDone else Correlating(id, e)
  }

  function Correlate(c: Config, db: Tables, id: EventId, e: Envelope): Webhook {
    var o := if e.candidate.Some? then c.parseUuid(e.candidate.value) else None;
    if o.None? || !NonEmpty(e.sessionId) then Marking(id, Attention, "event_correlation_invalid")
    else if o.value !in db.orders || o.value !in db.checkouts then Marking(id, Attention, "local_order_not_found")
    else Retrieving(id, e, o.value, db.orders[o.value], db.checkouts[o.value])
  }

  function Judge(c: Config, w: Webhook, ev: Evidence): Webhook
    requires w.Retrieving?
  {
    if Some(ev.sessionId) != w.e.sessionId then Marking(w.id, Attention, "provider_session_id_mismatch")
    else if !BindingValid(c, ev, w.o, w.order, w.checkout) then Marking(w.id, Attention, "provider_binding_mismatch")
    else if !Proves(ev, TargetOf(w.e.eventType)) then
      Marking(w.id, Attention,
              if w.e.eventType == COMPLETED_EVENT then "payment_not_authoritative" else "expiration_not_authoritative")
    else Applying(w.id, w.e, w.o, ev, TargetOf(w.e.eventType))
  }

  function WebhookStep(c: Config, s: State, t: int, ch: Choice): State
    requires t in s.webhooks
  {
    match s.webhooks[t]
    case Recording(id, e) =>
      var r := RecordEvent(s.db, id, e, ch.now);
      SetWebhook(s.(db := r.db), t, if r.conflict then HandlerDone else Screening(id, e))
    case Screening(id, e) => SetWebhook(s, t, Screen(c, id, e))
    case ReadingState(id, e) => SetWebhook(s, t, ReadState(s.db, id, e))
    case Correlating(id, e) => SetWebhook(s, t, Correlate(c, s.db, id, e))
    case Retrieving(_, _, _, _, _) => SetWebhook(s, t, Judge(c, s.webhooks[t], ch.evidence))
    case Applying(id, _, o, ev, target) =>
      SetWebhook(s.(db := ApplyReconciliation(s.db, id, o, ev, target, ch.now).db), t, HandlerDone)
    case Marking(id, state, code) => SetWebhook(s.(db := FinishEvent(s.db, id, state, code)), t, HandlerDone)
    case HandlerDone => s.(webhooks := s.webhooks - {t})
  }

  function SetWebhook(s: State, t: int, w: Webhook): State {
    s.(webhooks := s.webhooks[t := w])
  }

  // ---- Recovery claim steps ----

  function SetClaim(s: State, token: Token, o: OrderId, pc: ClaimPc): State {
    s.(claims := s.claims[token := Job(o, pc)])
  }

  predicate Active(order: Order) {
    order.state in {PendingPayment, Paid, FulfillmentInProgress}
  }

  function Snapshot(s: State, o: OrderId): ClaimPc {
    if o !in s.db.orders || o !in s.db.checkouts || !Active(s.db.orders[o]) then Finishing
    else
      var order := s.db.orders[o];
      Looking(order.state == PendingPayment && order.payment == PayPending,
              order.payment in {PayPaid, RefundPending} && order.state in {Paid, FulfillmentInProgress},
              s.db.checkouts[o].sessionId)
  }

  /** A received event of the session bound to the order, old enough to be resumed. */
  predicate StaleEvent(db: Tables, o: OrderId, id: EventId, cutoff: int) {
    && id in db.inbox && db.inbox[id].state == Received && db.inbox[id].receivedAt <= cutoff
    && o in db.checkouts && db.checkouts[o].sessionId.Some?
    && db.inbox[id].envelope.sessionId == db.checkouts[o].sessionId
  }

  /** `ORDER BY received_at, stripe_event_id LIMIT 1`. */
  predicate OldestStaleEvent(db: Tables, o: OrderId, id: EventId, cutoff: int) {
    && StaleEvent(db, o, id, cutoff)
    && forall other :: other in db.inbox && StaleEvent(db, o, other, cutoff) && other != id ==>
         || db.inbox[id].receivedAt < db.inbox[other].receivedAt
         || (db.inbox[id].receivedAt == db.inbox[other].receivedAt && TextLess(id, other))
  }

  /** `load_stale_received_event`, then the choice of action; only the oldest event lets the claim go on. */
  function Look(s: State, o: OrderId, pc: ClaimPc, ch: Choice): ClaimPc
    requires pc.Looking?
  {
    if exists id :: id in s.db.inbox && StaleEvent(s.db, o, id, ch.cutoff) then
      if OldestStaleEvent(s.db, o, ch.event, ch.cutoff) then Resuming(ch.event, s.db.inbox[ch.event].envelope) else pc
    else if pc.pending && ch.due && NonEmpty(pc.bound) then PollLoading(pc.bound.value)
    else if !pc.pending && pc.replayable && o in s.db.outbox && (ch.due || !s.db.outbox[o].published) then Authorizing
    else Finishing
  }

  /** `_correlate_stored_event_order`: signed lineage first, a unique local session binding otherwise. */
  predicate CorrelatesTo(c: Config, db: Tables, e: Envelope, o: OrderId) {
    if e.candidate.Some? then c.parseUuid(e.candidate.value) == Some(o)
    else
      && NonEmpty(e.sessionId)
      && o in db.checkouts && db.checkouts[o].sessionId == e.sessionId
      && (forall p :: p in db.checkouts && p != o ==> db.checkouts[p].sessionId != e.sessionId)
  }

  function Resume(c: Config, db: Tables, o: OrderId, id: EventId, e: Envelope): ClaimPc {
    if !CorrelatesTo(c, db, e, o) then InboxMarking(id, Attention, "event_order_correlation_invalid")
    else if e.apiVersion.Some? && e.apiVersion.value != c.apiVersion then
      InboxMarking(id, Attention, "event_api_version_mismatch")
    else if e.livemode != c.livemode then InboxMarking(id, Attention, "event_livemode_mismatch")
    else if !Supported(e.eventType) then InboxMarking(id, Ignored, "unsupported_event")
    else if !NonEmpty(e.sessionId) then InboxMarking(id, Attention, "event_correlation_invalid")
    else ResumeLoading(id, e)
  }

  function ResumeJudge(c: Config, o: OrderId, pc: ClaimPc, ev: Evidence): ClaimPc
    requires pc.ResumeRetrieving?
  {
    if Some(ev.sessionId) != pc.e.sessionId || !BindingValid(c, ev, o, pc.order, pc.checkout) then
      InboxMarking(pc.id, Attention, "provider_binding_mismatch")
    else if !Proves(ev, TargetOf(pc.e.eventType)) then
      InboxMarking(pc.id, Attention,
                   if pc.e.eventType == COMPLETED_EVENT then "payment_not_authoritative" else "expiration_not_authoritative")
    else ResumeApplying(pc.id, pc.e, ev, TargetOf(pc.e.eventType))
  }

  function PollJudge(c: Config, o: OrderId, pc: ClaimPc, ev: Evidence): ClaimPc
    requires pc.PollRetrieving?
  {
    if ev.sessionId != pc.sessionId || !BindingValid(c, ev, o, pc.order, pc.checkout) then Finishing
    else if ProvesPaid(ev) then PollApplying(ev, ToPaid)
    else if ProvesExpired(ev) && ev.paymentIntent.None? then PollApplying(ev, ToExpired)
    else Finishing
  }

  function ClaimStep(c: Config, s: State, token: Token, ch: Choice): State
    requires token in s.claims
  {
    var o, pc := s.claims[token].order, s.claims[token].pc;
    match pc
    case Snapshotting => SetClaim(s, token, o, Snapshot(s, o))
    case Looking(_, _, _) => SetClaim(s, token, o, Look(s, o, pc, ch))
    case Resuming(id, e) => SetClaim(s, token, o, Resume(c, s.db, o, id, e))
    case ResumeLoading(id, e) =>
      SetClaim(s, token, o,
               if o in s.db.orders && o in s.db.checkouts then ResumeRetrieving(id, e, s.db.orders[o], s.db.checkouts[o])
               else Finishing)
    case ResumeRetrieving(_, _, _, _) => SetClaim(s, token, o, ResumeJudge(c, o, pc, ch.evidence))
    case ResumeApplying(id, _, ev, target) =>
      SetClaim(s.(db := ApplyEventWithLease(s.db, token, id, o, ev, target, ch.leaseNow, ch.now).db), token, o, Finishing)
    case InboxMarking(id, state, code) =>
      SetClaim(s.(db := MarkInboxWithLease(s.db, token, o, id, state, code, ch.leaseNow).db), token, o, Finishing)
    case PollLoading(sessionId) =>
      SetClaim(s, token, o,
               if o in s.db.orders && o in s.db.checkouts then PollRetrieving(sessionId, s.db.orders[o], s.db.checkouts[o])
               else Finishing)
    case PollRetrieving(_, _, _) => SetClaim(s, token, o, PollJudge(c, o, pc, ch.evidence))
    case PollApplying(ev, target) =>
      SetClaim(s.(db := ApplyPollWithLease(c, s.db, token, o, ev, target, ch.leaseNow, ch.now).db), token, o, Finishing)
    case Authorizing => SetClaim(s, token, o, if PaidAuthorityCode(c, s.db, o).None? then Sending else Finishing)
    case Sending =>
      SetClaim(s.(sent := s.sent + [o]), token, o,
               if ch.accepted && o in s.db.outbox && !s.db.outbox[o].published then Publishing else Finishing)
    case Publishing =>
      SetClaim(s.(db := PublishWithLease(s.db, token, o, ch.leaseNow).db), token, o, Finishing)
    case Finishing => SetClaim(s.(db := FinishLease(s.db, token, o, ch.leaseNow)), token, o, ClaimDone)
    case ClaimDone => s.(claims := s.claims - {token})
  }

  // ---- Events ----

  datatype Event =
    | Create(o: OrderId, product: string, catalog: string, email: string, price: string)
    | Bind(o: OrderId, sessionId: string)
    | LegacyInsert(id: EventId, e: Envelope, now: int)  // an inbox row from before the candidate column
    | Deliver(t: int, id: EventId, e: Envelope)       // Stripe delivers or redelivers a signed event
    | Handle(t: int, ch: Choice)
    | StopHandler(t: int)
    | Seed(o: OrderId)
    | ClaimLease(o: OrderId, token: Token, now: int, seconds: int)
    | Process(token: Token, ch: Choice)
    | FailClaim(token: Token)                         // an exception: the claim goes straight to its finish
    | StopClaim(token: Token)
    | Dispatch(o: OrderId)                            // the plain dispatcher marks the row published
    | Fulfil(o: OrderId, after: Order)                // any write of fulfillment, refunds or delivery

  function Apply(c: Config, s: State, ev: Event): State {
    match ev
    case Create(o, product, catalog, email, price) =>
      if price != "" then s.(db := CreateOrder(s.db, o, product, catalog, email, price)) else s
    case Bind(o, sessionId) =>
      if sessionId != "" then s.(db := BindCheckout(s.db, o, sessionId)) else s
    case LegacyInsert(id, e, now) =>
      if id !in s.db.inbox && e.candidate.None? && id != "" then
        s.(db := s.db.(inbox := s.db.inbox[id := Inbox(e, Received, None, 1, now)]))
      else s
    case Deliver(t, id, e) =>
      if t !in s.webhooks && id != "" then SetWebhook(s, t, Recording(id, e)) else s
    case Handle(t, ch) => if t in s.webhooks then WebhookStep(c, s, t, ch) else s
    case StopHandler(t) => s.(webhooks := s.webhooks - {t})
    case Seed(o) =>
      if o in s.db.orders && o !in s.db.fences then s.(db := s.db.(fences := s.db.fences[o := Fence(FREE, [])])) else s
    case ClaimLease(o, token, now, seconds) =>
      if o in s.db.fences && token !in s.db.tokens && Claimable(s.db.fences[o].lease, now) then
        SetClaim(s.(db := s.db.(fences := s.db.fences[o := Claim(s.db.fences[o], token, now, seconds)],
                                tokens := s.db.tokens + {token})),
                 token, o, Snapshotting)
      else s
    case Process(token, ch) => if token in s.claims then ClaimStep(c, s, token, ch) else s
    case FailClaim(token) => if token in s.claims then SetClaim(s, token, s.claims[token].order, Finishing) else s
    case StopClaim(token) => s.(claims := s.claims - {token})
    case Dispatch(o) =>
      if o in s.db.outbox then s.(db := s.db.(outbox := s.db.outbox[o := Outbox(true)])) else s
    case Fulfil(o, after) =>
      if o in s.db.orders && FulfillmentMayWrite(s.db.orders[o], after) then
        s.(db := s.db.(orders := s.db.orders[o := after]))
      else s
  }

  function Run(c: Config, s: State, es: seq<Event>): State
    decreases |es|
  {
    if es == [] then s else Run(c, Apply(c, s, es[0]), es[1..])
  }
}

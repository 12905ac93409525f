/** The inductive invariant of the payment protocol. */
module PaymentInvariant {
  import opened Prelude
  import opened Orders
  import opened L = Lease
  import opened Payment
  import opened PaymentProtocol

  // ---- Per order ----

  /** What checkout creation binds and nothing ever changes. */
  predicate BoundToOrder(order: Order, checkout: Checkout) {
    && checkout.operationVersion == OPERATION_VERSION
    && checkout.productCode == order.productCode
    && checkout.catalogVersion == order.catalogVersion
    && checkout.email == order.email
    && checkout.quantity == 1
    && checkout.priceId != ""
    && (checkout.sessionId.Some? ==> NonEmpty(checkout.sessionId))
    && (checkout.lastEvent.Some? ==> NonEmpty(checkout.lastEvent))
  }

  /** How the two state columns, the history, the outbox and the receipt of one order hang together. */
  predicate RowsOk(c: Config, o: OrderId, order: Order, checkout: Checkout, wins: seq<Win>, queued: bool,
                   receipt: Option<Receipt>, event: Option<Inbox>) {
    && BoundToOrder(order, checkout)
    && (order.state == PendingPayment <==> order.payment == PayPending)
    && (order.state == Expired <==> order.payment == PayExpired)
    && (order.state == Paid ==> order.payment == PayPaid)
    && |wins| <= 1
    && (wins == [] <==> order.state == PendingPayment)
    && (wins != [] && wins[0].target == ToExpired <==> order.state == Expired)
    && (queued <==> wins != [] && wins[0].target == ToPaid)
    && (receipt.Some? <==> wins != [] && wins[0].ByPoll?)
    && (wins == [] ==> checkout.lastEvent.None?)
    && (wins != [] && wins[0].ByEvent? ==> checkout.lastEvent.Some?)
    && (queued ==> PaidRowsCode(c, o, order, checkout, event, receipt).None?)
    && (checkout.sessionStatus == Some("complete") ==> queued)
  }

  predicate OrderOk(c: Config, db: Tables, o: OrderId)
    requires o in db.orders && o in db.checkouts && o in db.wins
  {
    RowsOk(c, o, db.orders[o], db.checkouts[o], db.wins[o], o in db.outbox, ReceiptRow(db, o),
           LineageRow(db, db.checkouts[o]))
  }

  predicate Shape(db: Tables) {
    && db.checkouts.Keys == db.orders.Keys
    && db.wins.Keys == db.orders.Keys
    && db.outbox.Keys <= db.orders.Keys
    && db.receipts.Keys <= db.orders.Keys
    && db.fences.Keys <= db.orders.Keys
    && "" !in db.inbox
  }

  predicate SessionsDistinct(checkouts: map<OrderId, Checkout>) {
    forall o, p :: o in checkouts && p in checkouts && o != p && checkouts[o].sessionId.Some? ==>
      checkouts[o].sessionId != checkouts[p].sessionId
  }

  predicate FencesOk(fences: map<OrderId, Fence>, tokens: set<Token>) {
    forall o :: o in fences ==> Fenced(fences[o]) && Issued(fences[o], tokens)
  }

  predicate TablesOk(c: Config, db: Tables) {
    && Shape(db)
    && (forall o :: o in db.orders ==> OrderOk(c, db, o))
    && SessionsDistinct(db.checkouts)
    && FencesOk(db.fences, db.tokens)
  }

  // ---- Per process ----

  predicate Stored(db: Tables, id: EventId, e: Envelope) {
    id in db.inbox && db.inbox[id].envelope == e
  }

  predicate EventOk(c: Config, e: Envelope) {
    && (e.apiVersion.Some? ==> e.apiVersion.value == c.apiVersion)
    && e.livemode == c.livemode
    && Supported(e.eventType)
  }

  predicate CandidateOk(c: Config, e: Envelope, o: OrderId) {
    && (e.candidate.Some? ==> c.parseUuid(e.candidate.value) == Some(o))
    && NonEmpty(e.sessionId)
  }

  predicate EvidenceOk(c: Config, e: Envelope, ev: Evidence, target: Target) {
    && Some(ev.sessionId) == e.sessionId
    && ev.livemode == c.livemode
    && target == TargetOf(e.eventType)
    && Proves(ev, target)
  }

  predicate WebhookOk(c: Config, db: Tables, w: Webhook) {
    match w
    case Recording(id, _) => id != ""
    case Screening(id, e) => Stored(db, id, e)
    case ReadingState(id, e) => Stored(db, id, e) && EventOk(c, e)
    case Correlating(id, e) => Stored(db, id, e) && EventOk(c, e)
    case Retrieving(id, e, o, _, _) => Stored(db, id, e) && EventOk(c, e) && CandidateOk(c, e, o)
    case Applying(id, e, o, ev, target) =>
      Stored(db, id, e) && EventOk(c, e) && CandidateOk(c, e, o) && EvidenceOk(c, e, ev, target)
    case Marking(_, state, _) => state != Processed
    case HandlerDone => true
  }

  /** While this claim's token is current, no poll has decided the order. */
  predicate PollOpen(db: Tables, token: Token, o: OrderId) {
    o in db.fences && (db.fences[o].lease.token == Some(token) ==> o !in db.receipts)
  }

  predicate ClaimOk(c: Config, db: Tables, token: Token, o: OrderId, pc: ClaimPc) {
    && token in db.tokens && o in db.fences
    && match pc
       case Looking(pending, _, _) => pending ==> PollOpen(db, token, o)
       case Resuming(id, e) => Stored(db, id, e)
       case ResumeLoading(id, e) => Stored(db, id, e) && EventOk(c, e) && CandidateOk(c, e, o)
       case ResumeRetrieving(id, e, _, _) => Stored(db, id, e) && EventOk(c, e) && CandidateOk(c, e, o)
       case ResumeApplying(id, e, ev, target) =>
         Stored(db, id, e) && EventOk(c, e) && CandidateOk(c, e, o) && EvidenceOk(c, e, ev, target)
       case InboxMarking(_, state, _) => state != Processed
       case PollLoading(sid) => sid != "" && PollOpen(db, token, o)
       case PollRetrieving(sid, _, _) => sid != "" && PollOpen(db, token, o)
       case PollApplying(ev, target) =>
         PollOpen(db, token, o) && ev.sessionId != "" && ev.livemode == c.livemode && Proves(ev, target)
       case Snapshotting => true
       case Authorizing => o in db.outbox
       case Sending => o in db.outbox
       case Publishing => true
       case Finishing => true
       case ClaimDone => true
  }

  predicate Inv(c: Config, s: State) {
    && TablesOk(c, s.db)
    && (forall t :: t in s.webhooks ==> WebhookOk(c, s.db, s.webhooks[t]))
    && (forall k :: k in s.claims ==> ClaimOk(c, s.db, k, s.claims[k].order, s.claims[k].pc))
  }

  // ---- What every transaction leaves of the others' assumptions ----

  /** Facts that only grow: recorded envelopes, issued tokens, seeded fences, decided outcomes. */
  predicate Grows(db: Tables, db': Tables) {
    && (forall id :: id in db.inbox ==> id in db'.inbox && db'.inbox[id].envelope == db.inbox[id].envelope)
    && db.tokens <= db'.tokens
    && db.fences.Keys <= db'.fences.Keys
    && db.outbox.Keys <= db'.outbox.Keys
  }

  /** A current token is either the one that was current before or a new one. */
  predicate TokensMoveOn(db: Tables, db': Tables) {
    forall o :: o in db.fences && o in db'.fences && db'.fences[o].lease.token.Some? ==>
      db'.fences[o].lease.token == db.fences[o].lease.token || db'.fences[o].lease.token.value !in db.tokens
  }

  lemma WebhookKept(c: Config, db: Tables, db': Tables, w: Webhook)
    requires WebhookOk(c, db, w) && Grows(db, db')
    ensures WebhookOk(c, db', w)
  {
  }

  lemma ClaimKept(c: Config, db: Tables, db': Tables, token: Token, o: OrderId, pc: ClaimPc)
    requires ClaimOk(c, db, token, o, pc) && Grows(db, db') && TokensMoveOn(db, db')
    requires o in db'.receipts && o !in db.receipts ==>
               o in db'.fences && db'.fences[o].lease.token != Some(token)
    ensures ClaimOk(c, db', token, o, pc)
  {
  }

  /** Rows of other orders do not matter, and processed events stay processed. */
  predicate SameOrder(db: Tables, db': Tables, o: OrderId) {
    && o in db.orders && o in db.checkouts && o in db.wins
    && o in db'.orders && o in db'.checkouts && o in db'.wins
    && db'.orders[o] == db.orders[o] && db'.checkouts[o] == db.checkouts[o] && db'.wins[o] == db.wins[o]
    && (o in db'.outbox <==> o in db.outbox)
    && (o in db'.receipts <==> o in db.receipts)
    && (o in db.receipts ==> db'.receipts[o] == db.receipts[o])
  }

  predicate ProcessedStays(db: Tables, db': Tables) {
    forall id :: id in db.inbox && db.inbox[id].state == Processed ==>
      id in db'.inbox && db'.inbox[id].state == Processed && db'.inbox[id].envelope == db.inbox[id].envelope
  }

  lemma OrderFrame(c: Config, db: Tables, db': Tables, o: OrderId)
    requires SameOrder(db, db', o) && ProcessedStays(db, db') && OrderOk(c, db, o)
    ensures OrderOk(c, db', o)
  {
  }

  // ---- Transactions ----

  /** A transaction keeps the tables in order and everyone's assumptions, except for the poll it decides. */
  predicate Keeps(c: Config, db: Tables, db': Tables) {
    && TablesOk(c, db')
    && Grows(db, db')
    && TokensMoveOn(db, db')
    && ProcessedStays(db, db')
  }

  /** Inserting an inbox row, or changing one without unprocessing it or touching its envelope. */
  lemma InboxWriteKeeps(c: Config, db: Tables, id: EventId, row: Inbox)
    requires TablesOk(c, db) && id != ""
    requires id in db.inbox ==>
               row.envelope == db.inbox[id].envelope && (db.inbox[id].state == Processed ==> row.state == Processed)
    ensures Keeps(c, db, db.(inbox := db.inbox[id := row]))
  {
    hide OrderOk, FencesOk, SessionsDistinct;
    var db' := db.(inbox := db.inbox[id := row]);
    forall o | o in db'.orders ensures OrderOk(c, db', o) { OrderFrame(c, db, db', o); }
  }

  lemma SetInboxKeeps(c: Config, db: Tables, id: EventId, state: InboxState, failure: Option<string>)
    requires TablesOk(c, db) && id in db.inbox && db.inbox[id].state != Processed
    ensures Keeps(c, db, SetInbox(db, id, state, failure))
    ensures SetInbox(db, id, state, failure).receipts == db.receipts
  {
    InboxWriteKeeps(c, db, id, db.inbox[id].(state := state, failure := failure));
  }

  lemma RecordKeeps(c: Config, db: Tables, id: EventId, e: Envelope, now: int)
    requires TablesOk(c, db) && id != ""
    ensures Keeps(c, db, RecordEvent(db, id, e, now).db)
    ensures !RecordEvent(db, id, e, now).conflict ==> Stored(RecordEvent(db, id, e, now).db, id, e)
    ensures RecordEvent(db, id, e, now).db.receipts == db.receipts
  {
    hide OrderOk, FencesOk, SessionsDistinct, TablesOk;
    KeepsReflexive(c, db);
    var db' := RecordEvent(db, id, e, now).db;
    if id in db'.inbox && db' != db { InboxWriteKeeps(c, db, id, db'.inbox[id]); }
  }

  lemma KeepsReflexive(c: Config, db: Tables)
    requires TablesOk(c, db)
    ensures Keeps(c, db, db)
  {
    hide TablesOk;
  }

  lemma FinishEventKeeps(c: Config, db: Tables, id: EventId, state: InboxState, code: string)
    requires TablesOk(c, db)
    ensures Keeps(c, db, FinishEvent(db, id, state, code))
    ensures FinishEvent(db, id, state, code).receipts == db.receipts
  {
    hide OrderOk, FencesOk, SessionsDistinct;
    if id in db.inbox && db.inbox[id].state != Processed { SetInboxKeeps(c, db, id, state, Some(code)); }
  }

  /** An event's transition, applied together with the processed mark that is its lineage. */
  lemma EventTransitionKeeps(c: Config, db: Tables, id: EventId, o: OrderId, e: Envelope, ev: Evidence, target: Target,
                             now: int)
    requires TablesOk(c, db) && o in db.orders
    requires Stored(db, id, e) && db.inbox[id].state != Processed
    requires EventOk(c, e) && CandidateOk(c, e, o) && EvidenceOk(c, e, ev, target)
    requires SessionFree(db, o, ev.sessionId)
    requires ApplyTransition(db.orders[o], db.checkouts[o], ev, target, Some(id), now).Applied?
    ensures var t := ApplyTransition(db.orders[o], db.checkouts[o], ev, target, Some(id), now);
            Keeps(c, db, SetInbox(StoreTransition(db, o, t, target, ByEvent(id, target)), id, Processed, None))
  {
    hide OrderOk, FencesOk, SessionsDistinct, ApplyTransition, EventOk, CandidateOk, EvidenceOk;
    var t := ApplyTransition(db.orders[o], db.checkouts[o], ev, target, Some(id), now);
    var mid := StoreTransition(db, o, t, target, ByEvent(id, target));
    var db' := SetInbox(mid, id, Processed, None);
    assert OrderOk(c, db, o) && id != "";
    TransitionShape(db, o, t, target, ByEvent(id, target));
    TransitionSessions(db, o, ev, target, Some(id), now, ByEvent(id, target));
    TransitionKeys(db, o, t, target, ByEvent(id, target));
    SettledFrame(db, mid, db', id, o);
    hide StoreTransition, SetInbox, SameOrder, ProcessedStays, Grows, TokensMoveOn;
    forall p | p in db'.orders ensures OrderOk(c, db', p) {
      if p == o { EventOrderOk(c, db, db', id, o, e, ev, target, now); } else { OrderFrame(c, db, db', p); }
    }
  }

  /** Marking the event processed, after its transition. */
  lemma SettledFrame(db: Tables, mid: Tables, db': Tables, id: EventId, o: OrderId)
    requires Shape(mid) && Grows(db, mid) && mid.inbox == db.inbox && mid.fences == db.fences && mid.tokens == db.tokens
    requires id in db.inbox && db' == SetInbox(mid, id, Processed, None)
    ensures Shape(db') && Grows(db, db') && ProcessedStays(db, db') && TokensMoveOn(db, db')
    ensures forall p :: SameOrder(db, mid, p) ==> SameOrder(db, db', p)
  {
  }

  lemma TransitionShape(db: Tables, o: OrderId, t: Transition, target: Target, win: Win)
    requires Shape(db) && o in db.orders && t.Applied?
    ensures var db' := StoreTransition(db, o, t, target, win);
            && Shape(db') && Grows(db, db')
            && db'.inbox == db.inbox && db'.fences == db.fences && db'.tokens == db.tokens && db'.receipts == db.receipts
    ensures forall p :: p in db.orders && p != o ==> SameOrder(db, StoreTransition(db, o, t, target, win), p)
  {
  }

  lemma TransitionSessions(db: Tables, o: OrderId, ev: Evidence, target: Target, event: Option<EventId>, now: int, win: Win)
    requires Shape(db) && SessionsDistinct(db.checkouts) && o in db.orders && SessionFree(db, o, ev.sessionId)
    requires ApplyTransition(db.orders[o], db.checkouts[o], ev, target, event, now).Applied?
    ensures var t := ApplyTransition(db.orders[o], db.checkouts[o], ev, target, event, now);
            SessionsDistinct(StoreTransition(db, o, t, target, win).checkouts)
  {
    var t := ApplyTransition(db.orders[o], db.checkouts[o], ev, target, event, now);
    assert t.checkout.sessionId == Some(ev.sessionId);
  }

  lemma EventOrderOk(c: Config, db: Tables, db': Tables, id: EventId, o: OrderId, e: Envelope, ev: Evidence, target: Target,
                     now: int)
    requires o in db.orders && o in db.checkouts && o in db.wins && OrderOk(c, db, o) && id != ""
    requires Stored(db, id, e)
    requires EventOk(c, e) && CandidateOk(c, e, o) && EvidenceOk(c, e, ev, target)
    requires ApplyTransition(db.orders[o], db.checkouts[o], ev, target, Some(id), now).Applied?
    requires var t := ApplyTransition(db.orders[o], db.checkouts[o], ev, target, Some(id), now);
             db' == SetInbox(StoreTransition(db, o, t, target, ByEvent(id, target)), id, Processed, None)
    ensures OrderOk(c, db', o)
  {
    hide TablesOk;
    var t := ApplyTransition(db.orders[o], db.checkouts[o], ev, target, Some(id), now);
    var row := db.inbox[id].(state := Processed, failure := None);
    assert LineageRow(db', db'.checkouts[o]) == Some(row);
    EventRowsOk(c, o, db.orders[o], db.checkouts[o], db.wins[o], o in db.outbox, ReceiptRow(db, o),
                LineageRow(db, db.checkouts[o]), id, row, ev, target, now);
  }

  lemma EventRowsOk(c: Config, o: OrderId, order: Order, checkout: Checkout, wins: seq<Win>, queued: bool,
                    receipt: Option<Receipt>, event: Option<Inbox>, id: EventId, row: Inbox, ev: Evidence, target: Target,
                    now: int)
    requires RowsOk(c, o, order, checkout, wins, queued, receipt, event) && id != ""
    requires row.state == Processed
    requires EventOk(c, row.envelope) && CandidateOk(c, row.envelope, o) && EvidenceOk(c, row.envelope, ev, target)
    requires ApplyTransition(order, checkout, ev, target, Some(id), now).Applied?
    ensures var t := ApplyTransition(order, checkout, ev, target, Some(id), now);
            RowsOk(c, o, t.order, t.checkout, if t.transitioned then wins + [ByEvent(id, target)] else wins,
                   queued || (t.transitioned && target == ToPaid), receipt, Some(row))
  {
  }

  lemma ReconcileKeeps(c: Config, db: Tables, id: EventId, o: OrderId, e: Envelope, ev: Evidence, target: Target, now: int)
    requires TablesOk(c, db)
    requires Stored(db, id, e) && db.inbox[id].state != Processed
    requires EventOk(c, e) && CandidateOk(c, e, o) && EvidenceOk(c, e, ev, target)
    ensures Keeps(c, db, ReconcileEvent(db, id, o, ev, target, now).db)
    ensures ReconcileEvent(db, id, o, ev, target, now).db.receipts == db.receipts
    ensures ReconcileEvent(db, id, o, ev, target, now).db.fences == db.fences
  {
    hide OrderOk, FencesOk, SessionsDistinct;
    if o in db.orders {
      var t := ApplyTransition(db.orders[o], db.checkouts[o], ev, target, Some(id), now);
      match t
      case Refused(code) => SetInboxKeeps(c, db, id, Attention, Some(code));
      case Applied(_, _, _) =>
        if SessionFree(db, o, ev.sessionId) { EventTransitionKeeps(c, db, id, o, e, ev, target, now); }
    }
  }

  lemma FencedWriteKeeps(c: Config, db: Tables, o: OrderId, token: Token, now: int)
    requires TablesOk(c, db) && HoldsLease(db, o, token, now)
    ensures Keeps(c, db, FencedWrite(db, o, token))
  {
    hide OrderOk, SessionsDistinct, Fenced, Issued;
    var db' := FencedWrite(db, o, token);
    WriteKeepsFenced(db.fences[o], token, now, db.tokens);
    forall p | p in db'.orders ensures OrderOk(c, db', p) { OrderFrame(c, db, db', p); }
  }

  lemma KeepsTransitive(c: Config, db: Tables, mid: Tables, db': Tables)
    requires Keeps(c, db, mid) && Keeps(c, mid, db')
    ensures Keeps(c, db, db')
  {
    forall o | o in db.fences && o in db'.fences && db'.fences[o].lease.token.Some?
      ensures db'.fences[o].lease.token == db.fences[o].lease.token || db'.fences[o].lease.token.value !in db.tokens
    {
      assert o in mid.fences;
    }
  }

  lemma EventWithLeaseKeeps(c: Config, db: Tables, token: Token, id: EventId, o: OrderId, e: Envelope, ev: Evidence,
                            target: Target, leaseNow: int, now: int)
    requires TablesOk(c, db) && Stored(db, id, e)
    requires EventOk(c, e) && CandidateOk(c, e, o) && EvidenceOk(c, e, ev, target)
    ensures var db' := ApplyEventWithLease(db, token, id, o, ev, target, leaseNow, now).db;
            Keeps(c, db, db') && db'.receipts == db.receipts
  {
    hide OrderOk, FencesOk, SessionsDistinct;
    if HoldsLease(db, o, token, leaseNow) && db.inbox[id].state == Received {
      ReconcileKeeps(c, db, id, o, e, ev, target, now);
      var mid := ReconcileEvent(db, id, o, ev, target, now).db;
      FencedWriteKeeps(c, mid, o, token, leaseNow);
      KeepsTransitive(c, db, mid, FencedWrite(mid, o, token));
    }
  }

  /** A poll's transition and its receipt, for an order no poll has decided before. */
  lemma PollKeeps(c: Config, db: Tables, token: Token, o: OrderId, ev: Evidence, target: Target, leaseNow: int, now: int)
    requires WellFormed(c) && TablesOk(c, db) && PollOpen(db, token, o)
    requires ev.sessionId != "" && ev.livemode == c.livemode && Proves(ev, target)
    ensures var db' := ApplyPollWithLease(c, db, token, o, ev, target, leaseNow, now).db;
            && Keeps(c, db, db')
            && (db'.receipts != db.receipts ==> db.fences[o].lease.token == Some(token))
            && db'.receipts.Keys <= db.receipts.Keys + {o}
            && (o in db'.fences ==> db'.fences[o].lease == db.fences[o].lease)
  {
    hide OrderOk, FencesOk, SessionsDistinct, Proves, Shape;
    var db' := ApplyPollWithLease(c, db, token, o, ev, target, leaseNow, now).db;
    KeepsReflexive(c, db);
    if db' != db {
      assert o in db.orders && o in db.wins && "" !in db.inbox by { TablesShape(c, db); }
      assert OrderOk(c, db, o);
      var t := ApplyTransition(db.orders[o], db.checkouts[o], ev, target, None, now);
      PollShape(db, StoreTransition(db, o, t, target, ByPoll(token, target)), db', token, o, t, target, PollReceipt(c,
          ev, target));
      TransitionSessions(db, o, ev, target, None, now, ByPoll(token, target));
      FenceWriteOk(db.fences, db.tokens, o, token, leaseNow);
      forall p | p in db'.orders ensures p in db'.checkouts && p in db'.wins && OrderOk(c, db', p) {
        if p == o { PollOrderOk(c, db, token, o, ev, target, leaseNow, now); } else { OrderFrame(c, db, db', p); }
      }
    }
  }

  lemma TablesShape(c: Config, db: Tables)
    requires TablesOk(c, db)
    ensures Shape(db) && db.checkouts.Keys == db.orders.Keys && db.wins.Keys == db.orders.Keys && "" !in db.inbox
    ensures db.fences.Keys <= db.orders.Keys
  {
  }

  lemma PollShape(db: Tables, mid: Tables, db': Tables, token: Token, o: OrderId, t: Transition, target: Target,
                  receipt: Receipt)
    requires Shape(db) && o in db.orders && o in db.fences && t.Applied?
    requires mid == StoreTransition(db, o, t, target, ByPoll(token, target))
    requires db' == mid.(fences := db.fences[o := Write(db.fences[o], token)], receipts := db'.receipts)
    requires db'.receipts == db.receipts || (o !in db.receipts && db'.receipts == db.receipts[o := receipt])
    ensures Shape(db') && Grows(db, db') && ProcessedStays(db, db') && TokensMoveOn(db, db')
    ensures db'.orders.Keys == db.orders.Keys
    ensures forall p :: p in db.orders && p != o ==> SameOrder(db, db', p)
  {
    hide StoreTransition, Shape, Grows, ProcessedStays, TokensMoveOn, SameOrder;
    assert o in mid.orders && mid.orders.Keys == db.orders.Keys by { TransitionKeys(db, o, t, target, ByPoll(token, target)); }
    TransitionShape(db, o, t, target, ByPoll(token, target));
    ReceiptShape(db, mid, db', o, receipt);
    ReceiptGrows(db, mid, db');
  }

  lemma TransitionKeys(db: Tables, o: OrderId, t: Transition, target: Target, win: Win)
    requires t.Applied? && o in db.orders
    ensures StoreTransition(db, o, t, target, win).orders.Keys == db.orders.Keys
  {
  }

  lemma ReceiptShape(db: Tables, mid: Tables, db': Tables, o: OrderId, receipt: Receipt)
    requires Shape(mid) && o in mid.orders && mid.receipts == db.receipts && mid.fences == db.fences
    requires db' == mid.(fences := db'.fences, receipts := db'.receipts)
    requires db'.fences.Keys == mid.fences.Keys
    requires db'.receipts == mid.receipts || (o !in mid.receipts && db'.receipts == mid.receipts[o := receipt])
    ensures Shape(db')
    ensures forall p :: p != o && SameOrder(db, mid, p) ==> SameOrder(db, db', p)
  {
  }

  lemma ReceiptGrows(db: Tables, mid: Tables, db': Tables)
    requires Grows(db, mid) && mid.fences == db.fences && mid.tokens == db.tokens && mid.inbox == db.inbox
    requires db' == mid.(fences := db'.fences, receipts := db'.receipts)
    requires db'.fences.Keys == mid.fences.Keys
    requires forall o :: o in db.fences ==> db'.fences[o].lease == db.fences[o].lease
    ensures Grows(db, db') && ProcessedStays(db, db') && TokensMoveOn(db, db')
  {
  }

  lemma FenceWriteOk(fences: map<OrderId, Fence>, tokens: set<Token>, o: OrderId, token: Token, now: int)
    requires FencesOk(fences, tokens) && o in fences && Current(fences[o].lease, token, now)
    ensures FencesOk(fences[o := Write(fences[o], token)], tokens)
  {
    WriteKeepsFenced(fences[o], token, now, tokens);
  }

  lemma PollOrderOk(c: Config, db: Tables, token: Token, o: OrderId, ev: Evidence, target: Target, leaseNow: int, now: int)
    requires WellFormed(c) && o in db.orders && o in db.checkouts && o in db.wins && OrderOk(c, db, o) && o !in db.receipts
    requires "" !in db.inbox
    requires ev.sessionId != "" && ev.livemode == c.livemode && Proves(ev, target)
    ensures var db' := ApplyPollWithLease(c, db, token, o, ev, target, leaseNow, now).db;
            o in db'.orders && o in db'.checkouts && o in db'.wins && OrderOk(c, db', o)
  {
    hide TablesOk, RowsOk, SessionFree, Current, Write, PollReceipt, Proves;
    var db' := ApplyPollWithLease(c, db, token, o, ev, target, leaseNow, now).db;
    if db' != db {
      var t := ApplyTransition(db.orders[o], db.checkouts[o], ev, target, None, now);
      hide ApplyTransition, WellFormed;
      PollRowsOk(c, o, db.orders[o], db.checkouts[o], db.wins[o], o in db.outbox, LineageRow(db, db.checkouts[o]), token, ev,
                 target, now);
      assert db' == StorePoll(c, db, token, o, t, ev, target);
      hide ApplyPollWithLease;
      PolledLastEvent(db.orders[o], db.checkouts[o], ev, target, now);
      StoredPollRows(c, db, token, o, t, ev, target);
    }
  }

  lemma PolledLastEvent(order: Order, checkout: Checkout, ev: Evidence, target: Target, now: int)
    requires ApplyTransition(order, checkout, ev, target, None, now).Applied?
    ensures ApplyTransition(order, checkout, ev, target, None, now).checkout.lastEvent == checkout.lastEvent
  {
  }

  /** The rows a poll leaves for its order. */
  lemma StoredPollRows(c: Config, db: Tables, token: Token, o: OrderId, t: Transition, ev: Evidence, target: Target)
    requires t.Applied? && o in db.fences && o in db.orders && o in db.checkouts && o in db.wins && o !in db.receipts
    requires t.checkout.lastEvent == db.checkouts[o].lastEvent
    requires RowsOk(c, o, t.order, t.checkout, if t.transitioned then db.wins[o] + [ByPoll(token, target)] else db.wins[o],
                    o in db.outbox || (t.transitioned && target == ToPaid),
                    if t.transitioned then Some(PollReceipt(c, ev, target)) else None, LineageRow(db, db.checkouts[o]))
    ensures var db' := StorePoll(c, db, token, o, t, ev, target);
            o in db'.orders && o in db'.checkouts && o in db'.wins && OrderOk(c, db', o)
  {
    hide RowsOk, PollReceipt;
    var db' := StorePoll(c, db, token, o, t, ev, target);
    assert LineageRow(db', db'.checkouts[o]) == LineageRow(db, db.checkouts[o]);
  }

  lemma PollRowsOk(c: Config, o: OrderId, order: Order, checkout: Checkout, wins: seq<Win>, queued: bool,
                   event: Option<Inbox>, token: Token, ev: Evidence, target: Target, now: int)
    requires WellFormed(c) && RowsOk(c, o, order, checkout, wins, queued, None, event)
    requires ev.sessionId != "" && ev.livemode == c.livemode && Proves(ev, target)
    requires ApplyTransition(order, checkout, ev, target, None, now).Applied?
    ensures var t := ApplyTransition(order, checkout, ev, target, None, now);
            RowsOk(c, o, t.order, t.checkout, if t.transitioned then wins + [ByPoll(token, target)] else wins,
                   queued || (t.transitioned && target == ToPaid),
                   if t.transitioned then Some(PollReceipt(c, ev, target)) else None, event)
  {
  }

  lemma MarkInboxKeeps(c: Config, db: Tables, token: Token, o: OrderId, id: EventId, state: InboxState, code: string,
                       leaseNow: int)
    requires TablesOk(c, db)
    ensures var db' := MarkInboxWithLease(db, token, o, id, state, code, leaseNow).db;
            Keeps(c, db, db') && db'.receipts == db.receipts
  {
    hide OrderOk, FencesOk, SessionsDistinct;
    if HoldsLease(db, o, token, leaseNow) && id in db.inbox && db.inbox[id].state == Received {
      SetInboxKeeps(c, db, id, state, Some(code));
      var mid := SetInbox(db, id, state, Some(code));
      FencedWriteKeeps(c, mid, o, token, leaseNow);
      KeepsTransitive(c, db, mid, FencedWrite(mid, o, token));
    }
  }

  lemma PublishKeeps(c: Config, db: Tables, token: Token, o: OrderId, leaseNow: int)
    requires TablesOk(c, db)
    ensures var db' := PublishWithLease(db, token, o, leaseNow).db;
            Keeps(c, db, db') && db'.receipts == db.receipts
  {
    hide OrderOk, FencesOk, SessionsDistinct;
    if HoldsLease(db, o, token, leaseNow) && o in db.outbox {
      var mid := db.(outbox := db.outbox[o := Outbox(true)]);
      forall p | p in mid.orders ensures OrderOk(c, mid, p) { OrderFrame(c, db, mid, p); }
      FencedWriteKeeps(c, mid, o, token, leaseNow);
      KeepsTransitive(c, db, mid, FencedWrite(mid, o, token));
    }
  }

  lemma FinishKeeps(c: Config, db: Tables, token: Token, o: OrderId, now: int)
    requires TablesOk(c, db)
    ensures var db' := FinishLease(db, token, o, now);
            Keeps(c, db, db') && db'.receipts == db.receipts
  {
    hide OrderOk, SessionsDistinct, Fenced, Issued;
    var db' := FinishLease(db, token, o, now);
    if o in db.fences { FinishKeepsFenced(db.fences[o], token, now, db.tokens); }
    forall p | p in db'.orders ensures OrderOk(c, db', p) { OrderFrame(c, db, db', p); }
  }
}

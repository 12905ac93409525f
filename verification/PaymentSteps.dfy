/** Every step of the payment protocol keeps its invariant. */
module PaymentSteps {
  import opened Prelude
  import opened Orders
  import opened L = Lease
  import opened Payment
  import opened PaymentProtocol
  import opened PaymentInvariant

  // ---- Transactions of the environment ----

  lemma CreateKeeps(c: Config, db: Tables, o: OrderId, product: string, catalog: string, email: string, price: string)
    requires TablesOk(c, db) && price != ""
    ensures var db' := CreateOrder(db, o, product, catalog, email, price); Keeps(c, db, db') && db'.receipts == db.receipts
  {
    KeepsReflexive(c, db);
    if o !in db.orders {
      var db' := CreateOrder(db, o, product, catalog, email, price);
      NewOrderOk(c, db, db', o, product, catalog, email, price);
      NewOrderFrame(c, db, db', o, product, catalog, email, price);
      hide OrderOk, FencesOk, SessionsDistinct, Shape, SameOrder, CreateOrder, ProcessedStays, Grows, TokensMoveOn;
      forall p | p in db'.orders ensures OrderOk(c, db', p) {
        if p != o { OrderFrame(c, db, db', p); }
      }
    }
  }

  lemma NewOrderFrame(c: Config, db: Tables, db': Tables, o: OrderId, product: string, catalog: string, email: string,
                      price: string)
    requires Shape(db) && SessionsDistinct(db.checkouts) && FencesOk(db.fences, db.tokens) && o !in db.orders && price != ""
    requires db' == CreateOrder(db, o, product, catalog, email, price)
    ensures Shape(db') && SessionsDistinct(db'.checkouts) && FencesOk(db'.fences, db'.tokens)
    ensures ProcessedStays(db, db') && Grows(db, db') && TokensMoveOn(db, db')
    ensures db'.orders.Keys == db.orders.Keys + {o}
    ensures forall p :: p in db.orders ==> SameOrder(db, db', p)
  {
    assert o in db'.orders && o in db'.checkouts && o in db'.wins && db'.checkouts[o].sessionId.None?;
    assert db' == db.(orders := db.orders[o := db'.orders[o]], checkouts := db.checkouts[o := db'.checkouts[o]],
                      wins := db.wins[o := db'.wins[o]]);
    hide CreateOrder, FencesOk, SessionsDistinct, SameOrder, Shape, ProcessedStays, Grows, TokensMoveOn;
    NewOrderOthers(db, db', o);
    NewOrderRest(db, db', o);
    NewOrderSessions(db.checkouts, db'.checkouts, o);
  }

  lemma NewOrderRest(db: Tables, db': Tables, o: OrderId)
    requires Shape(db) && o !in db.orders && o in db'.orders && o in db'.checkouts && o in db'.wins
    requires db' == db.(orders := db.orders[o := db'.orders[o]], checkouts := db.checkouts[o := db'.checkouts[o]],
                        wins := db.wins[o := db'.wins[o]])
    ensures Shape(db') && ProcessedStays(db, db') && Grows(db, db') && TokensMoveOn(db, db')
    ensures db'.orders.Keys == db.orders.Keys + {o}
  {
  }

  lemma NewOrderSessions(before: map<OrderId, Checkout>, after: map<OrderId, Checkout>, o: OrderId)
    requires SessionsDistinct(before) && o in after && after == before[o := after[o]] && after[o].sessionId.None?
    ensures SessionsDistinct(after)
  {
  }

  lemma NewOrderOthers(db: Tables, db': Tables, o: OrderId)
    requires Shape(db) && o !in db.orders && o in db'.orders && o in db'.checkouts && o in db'.wins
    requires db' == db.(orders := db.orders[o := db'.orders[o]], checkouts := db.checkouts[o := db'.checkouts[o]],
                        wins := db.wins[o := db'.wins[o]])
    ensures forall p :: p in db.orders ==> SameOrder(db, db', p)
  {
  }

  lemma NewOrderOk(c: Config, db: Tables, db': Tables, o: OrderId, product: string, catalog: string, email: string,
                   price: string)
    requires Shape(db) && o !in db.orders && price != ""
    requires db' == CreateOrder(db, o, product, catalog, email, price)
    ensures OrderOk(c, db', o)
  {
  }

  lemma BindKeeps(c: Config, db: Tables, o: OrderId, sessionId: string)
    requires TablesOk(c, db) && sessionId != ""
    ensures var db' := BindCheckout(db, o, sessionId); Keeps(c, db, db') && db'.receipts == db.receipts
  {
    KeepsReflexive(c, db);
    var db' := BindCheckout(db, o, sessionId);
    if db' != db {
      assert o in db.orders && OrderOk(c, db, o);
      BoundOrderOk(c, db, db', o, sessionId);
      BoundFrame(c, db, db', o, sessionId);
      BoundOthers(db, o, sessionId);
      hide OrderOk, FencesOk, SessionsDistinct, Shape, SameOrder, BindCheckout, ProcessedStays, Grows, TokensMoveOn;
      forall p | p in db'.orders ensures OrderOk(c, db', p) {
        if p != o { OrderFrame(c, db, db', p); }
      }
    }
  }

  lemma BoundOrderOk(c: Config, db: Tables, db': Tables, o: OrderId, sessionId: string)
    requires Shape(db) && o in db.orders && OrderOk(c, db, o) && sessionId != ""
    requires db' == BindCheckout(db, o, sessionId)
    ensures o in db'.orders && o in db'.checkouts && o in db'.wins && OrderOk(c, db', o)
  {
    if db' != db {
      BoundRowsOk(c, o, db.orders[o], db.checkouts[o], db.wins[o], o in db.outbox, ReceiptRow(db, o),
                  LineageRow(db, db.checkouts[o]), sessionId);
    }
  }

  lemma BoundFrame(c: Config, db: Tables, db': Tables, o: OrderId, sessionId: string)
    requires Shape(db) && SessionsDistinct(db.checkouts) && FencesOk(db.fences, db.tokens)
    requires db' == BindCheckout(db, o, sessionId)
    ensures Shape(db') && SessionsDistinct(db'.checkouts) && FencesOk(db'.fences, db'.tokens)
    ensures ProcessedStays(db, db') && Grows(db, db') && TokensMoveOn(db, db')
    ensures db'.orders.Keys == db.orders.Keys
  {
    BoundSessions(db, o, sessionId);
    assert db'.checkouts.Keys == db.checkouts.Keys;
    assert db' == db.(checkouts := db'.checkouts);
    hide *;
    CheckoutsFrame(db, db');
  }

  lemma CheckoutsFrame(db: Tables, db': Tables)
    requires Shape(db) && db' == db.(checkouts := db'.checkouts) && db'.checkouts.Keys == db.checkouts.Keys
    ensures Shape(db') && ProcessedStays(db, db') && Grows(db, db') && TokensMoveOn(db, db')
  {
  }

  lemma BoundOthers(db: Tables, o: OrderId, sessionId: string)
    requires Shape(db)
    ensures forall p :: p in db.orders && p != o ==> SameOrder(db, BindCheckout(db, o, sessionId), p)
  {
    hide SessionFree;
  }

  lemma BoundSessions(db: Tables, o: OrderId, sessionId: string)
    requires SessionsDistinct(db.checkouts)
    ensures SessionsDistinct(BindCheckout(db, o, sessionId).checkouts)
  {
  }

  lemma OrderRows(c: Config, db: Tables, o: OrderId)
    requires o in db.orders && o in db.checkouts && o in db.wins && OrderOk(c, db, o)
    ensures RowsOk(c, o, db.orders[o], db.checkouts[o], db.wins[o], o in db.outbox, ReceiptRow(db, o),
                   LineageRow(db, db.checkouts[o]))
  {
  }

  lemma RowsOrder(c: Config, db: Tables, o: OrderId)
    requires o in db.orders && o in db.checkouts && o in db.wins
    requires RowsOk(c, o, db.orders[o], db.checkouts[o], db.wins[o], o in db.outbox, ReceiptRow(db, o),
                    LineageRow(db, db.checkouts[o]))
    ensures OrderOk(c, db, o)
  {
  }

  lemma BoundRowsOk(c: Config, o: OrderId, order: Order, checkout: Checkout, wins: seq<Win>, queued: bool,
                    receipt: Option<Receipt>, event: Option<Inbox>, sessionId: string)
    requires RowsOk(c, o, order, checkout, wins, queued, receipt, event)
    requires checkout.sessionId.None? && sessionId != ""
    ensures RowsOk(c, o, order, checkout.(sessionId := Some(sessionId)), wins, queued, receipt, event)
  {
  }

  lemma SeedKeeps(c: Config, db: Tables, o: OrderId)
    requires TablesOk(c, db) && o in db.orders && o !in db.fences
    ensures Keeps(c, db, db.(fences := db.fences[o := Fence(FREE, [])]))
  {
    hide OrderOk, SessionsDistinct, Fenced, Issued;
    var db' := db.(fences := db.fences[o := Fence(FREE, [])]);
    assert Fenced(Fence(FREE, [])) && Issued(Fence(FREE, []), db.tokens) by { NewFence(db.tokens); }
    forall p | p in db'.orders ensures OrderOk(c, db', p) { OrderFrame(c, db, db', p); }
  }

  lemma NewFence(tokens: set<Token>)
    ensures Fenced(Fence(FREE, [])) && Issued(Fence(FREE, []), tokens)
  {
  }

  lemma ClaimLeaseKeeps(c: Config, db: Tables, o: OrderId, token: Token, now: int, seconds: int)
    requires TablesOk(c, db) && o in db.fences && token !in db.tokens && Claimable(db.fences[o].lease, now)
    ensures Keeps(c, db, db.(fences := db.fences[o := Claim(db.fences[o], token, now, seconds)], tokens := db.tokens + {token}))
  {
    hide OrderOk, SessionsDistinct, Fenced, Issued;
    var db' := db.(fences := db.fences[o := Claim(db.fences[o], token, now, seconds)], tokens := db.tokens + {token});
    ClaimKeepsFenced(db.fences[o], token, now, seconds, db.tokens);
    forall p | p in db'.fences ensures Fenced(db'.fences[p]) && Issued(db'.fences[p], db'.tokens) {
      if p != o { IssuedGrows(db.fences[p], db.tokens, db'.tokens); }
    }
    forall p | p in db'.orders ensures OrderOk(c, db', p) { OrderFrame(c, db, db', p); }
  }

  lemma IssuedGrows(f: Fence, before: set<Token>, after: set<Token>)
    requires Issued(f, before) && before <= after
    ensures Issued(f, after)
  {
  }

  lemma DispatchKeeps(c: Config, db: Tables, o: OrderId)
    requires TablesOk(c, db) && o in db.outbox
    ensures Keeps(c, db, db.(outbox := db.outbox[o := Outbox(true)]))
  {
    hide OrderOk, SessionsDistinct, FencesOk;
    var db' := db.(outbox := db.outbox[o := Outbox(true)]);
    forall p | p in db'.orders ensures OrderOk(c, db', p) { OrderFrame(c, db, db', p); }
  }

  lemma FulfilKeeps(c: Config, db: Tables, o: OrderId, after: Order)
    requires TablesOk(c, db) && o in db.orders && FulfillmentMayWrite(db.orders[o], after)
    ensures Keeps(c, db, db.(orders := db.orders[o := after]))
  {
    hide OrderOk, SessionsDistinct, FencesOk;
    var db' := db.(orders := db.orders[o := after]);
    forall p | p in db'.orders ensures OrderOk(c, db', p) {
      if p == o {
        FulfilledRowsOk(c, o, db.orders[o], after, db.checkouts[o], db.wins[o], o in db.outbox, ReceiptRow(db, o),
                        LineageRow(db, db.checkouts[o])) by { OrderRows(c, db, o); }
        RowsOrder(c, db', o);
      } else {
        OrderFrame(c, db, db', p);
      }
    }
  }

  lemma FulfilledRowsOk(c: Config, o: OrderId, before: Order, after: Order, checkout: Checkout, wins: seq<Win>, queued: bool,
                        receipt: Option<Receipt>, event: Option<Inbox>)
    requires RowsOk(c, o, before, checkout, wins, queued, receipt, event) && FulfillmentMayWrite(before, after)
    ensures RowsOk(c, o, after, checkout, wins, queued, receipt, event)
  {
  }

  // ---- Steps of processes ----

  /** One process's transaction keeps what every other process relies on. */
  lemma OthersKept(c: Config, s: State, db': Tables, winner: Token)
    requires Inv(c, s) && Keeps(c, s.db, db')
    requires forall o :: o in db'.receipts && o !in s.db.receipts ==>
                           o in db'.fences && db'.fences[o].lease.token == Some(winner)
    ensures forall t :: t in s.webhooks ==> WebhookOk(c, db', s.webhooks[t])
    ensures forall k :: k in s.claims && (k != winner || db'.receipts == s.db.receipts) ==>
                          ClaimOk(c, db', k, s.claims[k].order, s.claims[k].pc)
  {
    hide TablesOk, WebhookOk, ClaimOk, Grows, TokensMoveOn, ProcessedStays;
    forall t | t in s.webhooks ensures WebhookOk(c, db', s.webhooks[t]) { WebhookKept(c, s.db, db', s.webhooks[t]); }
    forall k | k in s.claims && (k != winner || db'.receipts == s.db.receipts)
      ensures ClaimOk(c, db', k, s.claims[k].order, s.claims[k].pc)
    {
      ClaimKept(c, s.db, db', k, s.claims[k].order, s.claims[k].pc);
    }
  }

  /** A transaction that neither belongs to a process nor writes a receipt. */
  lemma QuietStep(c: Config, s: State, s': State)
    requires Inv(c, s) && Keeps(c, s.db, s'.db) && s'.db.receipts == s.db.receipts
    requires s'.webhooks == s.webhooks && s'.claims == s.claims
    ensures Inv(c, s')
  {
    hide TablesOk, WebhookOk, ClaimOk, Grows, TokensMoveOn, ProcessedStays;
    OthersKept(c, s, s'.db, 0);
  }

  lemma WebhookMoves(c: Config, s: State, db': Tables, t: int, w: Webhook)
    requires Inv(c, s) && Keeps(c, s.db, db') && db'.receipts == s.db.receipts && WebhookOk(c, db', w)
    ensures Inv(c, SetWebhook(s.(db := db'), t, w))
  {
    hide TablesOk, WebhookOk, ClaimOk, Grows, TokensMoveOn, ProcessedStays;
    OthersKept(c, s, db', 0);
  }

  lemma ClaimMoves(c: Config, s: State, db': Tables, token: Token, o: OrderId, pc: ClaimPc)
    requires Inv(c, s) && Keeps(c, s.db, db') && ClaimOk(c, db', token, o, pc)
    requires forall p :: p in db'.receipts && p !in s.db.receipts ==>
                           p in db'.fences && db'.fences[p].lease.token == Some(token)
    ensures Inv(c, SetClaim(s.(db := db'), token, o, pc))
  {
    hide TablesOk, WebhookOk, ClaimOk, Grows, TokensMoveOn, ProcessedStays;
    OthersKept(c, s, db', token);
  }

  lemma WebhookKeepsInv(c: Config, s: State, t: int, ch: Choice)
    requires Inv(c, s) && t in s.webhooks
    ensures Inv(c, WebhookStep(c, s, t, ch))
  {
    var w := s.webhooks[t];
    assert WebhookOk(c, s.db, w);
    var s' := WebhookStep(c, s, t, ch);
    hide TablesOk, ClaimOk, Keeps, Inv;
    assert TablesOk(c, s.db) by { InvTables(c, s); }
    KeepsReflexive(c, s.db);
    match w
    case Recording(id, e) =>
      RecordKeeps(c, s.db, id, e, ch.now);
      WebhookMoves(c, s, RecordEvent(s.db, id, e, ch.now).db, t, s'.webhooks[t]);
    case Applying(id, e, o, ev, target) =>
      var db' := ApplyReconciliation(s.db, id, o, ev, target, ch.now).db;
      if s.db.inbox[id].state != Processed { ReconcileKeeps(c, s.db, id, o, e, ev, target, ch.now); }
      WebhookMoves(c, s, db', t, HandlerDone);
    case Marking(id, state, code) =>
      MarkedStateKeeps(c, s.db, id, state, code);
      WebhookMoves(c, s, FinishEvent(s.db, id, state, code), t, HandlerDone);
    case HandlerDone =>
      StoppedHandler(c, s, t);
    case _ =>
      JudgedWebhookOk(c, s, t, ch);
      assert s'.db == s.db && s' == SetWebhook(s.(db := s.db), t, s'.webhooks[t]);
      WebhookMoves(c, s, s.db, t, s'.webhooks[t]);
  }

  lemma InvTables(c: Config, s: State)
    requires Inv(c, s)
    ensures TablesOk(c, s.db)
  {
  }

  lemma MarkedStateKeeps(c: Config, db: Tables, id: EventId, state: InboxState, code: string)
    requires TablesOk(c, db)
    ensures var db' := FinishEvent(db, id, state, code); Keeps(c, db, db') && db'.receipts == db.receipts
  {
    FinishEventKeeps(c, db, id, state, code);
  }

  lemma StoppedHandler(c: Config, s: State, t: int)
    requires Inv(c, s)
    ensures Inv(c, s.(webhooks := s.webhooks - {t}))
  {
    hide TablesOk, WebhookOk, ClaimOk;
  }

  lemma StoppedClaim(c: Config, s: State, token: Token)
    requires Inv(c, s)
    ensures Inv(c, s.(claims := s.claims - {token}))
  {
    hide TablesOk, WebhookOk, ClaimOk;
  }

  /** The decisions of a handler that write nothing. */
  lemma JudgedWebhookOk(c: Config, s: State, t: int, ch: Choice)
    requires t in s.webhooks && WebhookOk(c, s.db, s.webhooks[t])
    requires !s.webhooks[t].Recording? && !s.webhooks[t].Applying? && !s.webhooks[t].Marking? && !s.webhooks[t].HandlerDone?
    ensures var s' := WebhookStep(c, s, t, ch);
            s' == SetWebhook(s, t, s'.webhooks[t]) && WebhookOk(c, s.db, s'.webhooks[t])
  {
  }

  lemma ClaimKeepsInv(c: Config, s: State, token: Token, ch: Choice)
    requires WellFormed(c) && Inv(c, s) && token in s.claims
    ensures Inv(c, ClaimStep(c, s, token, ch))
  {
    var o, pc := s.claims[token].order, s.claims[token].pc;
    assert ClaimOk(c, s.db, token, o, pc);
    hide Inv, ClaimOk;
    if Writes(pc) {
      WritingClaimKeepsInv(c, s, token, ch);
    } else {
      hide ClaimStep;
      InvTables(c, s);
      var next := JudgedClaimOk(c, s, token, ch);
      KeepsReflexive(c, s.db);
      ClaimMoves(c, s, s.db, token, o, next);
    }
  }

  lemma WritingClaimKeepsInv(c: Config, s: State, token: Token, ch: Choice)
    requires WellFormed(c) && Inv(c, s) && token in s.claims && Writes(s.claims[token].pc)
    requires ClaimOk(c, s.db, token, s.claims[token].order, s.claims[token].pc)
    ensures Inv(c, ClaimStep(c, s, token, ch))
  {
    var o, pc := s.claims[token].order, s.claims[token].pc;
    hide Inv, ClaimOk, ClaimStep;
    match pc
    case ResumeApplying(id, e, ev, target) => ResumingClaim(c, s, token, o, id, e, ev, target, ch);
    case InboxMarking(id, state, code) => MarkingClaim(c, s, token, o, id, state, code, ch);
    case PollApplying(ev, target) => PollingClaim(c, s, token, o, ev, target, ch);
    case Publishing => PublishingClaim(c, s, token, o, ch);
    case Finishing => FinishingClaim(c, s, token, o, ch);
    case ClaimDone => EndingClaim(c, s, token, ch);
    case Sending => SendingClaim(c, s, token, o, ch);
  }

  lemma ResumingClaim(c: Config, s: State, token: Token, o: OrderId, id: EventId, e: Envelope, ev: Evidence, target: Target,
                      ch: Choice)
    requires Inv(c, s) && token in s.claims && s.claims[token] == Job(o, ResumeApplying(id, e, ev, target))
    requires ClaimOk(c, s.db, token, o, ResumeApplying(id, e, ev, target))
    ensures Inv(c, ClaimStep(c, s, token, ch))
  {
    hide TablesOk, WebhookOk, Keeps, Inv, ApplyEventWithLease;
    EventWithLeaseKeeps(c, s.db, token, id, o, e, ev, target, ch.leaseNow, ch.now) by { InvTables(c, s); }
    WritingClaimMoves(c, s, ApplyEventWithLease(s.db, token, id, o, ev, target, ch.leaseNow, ch.now).db, token, o, Finishing);
  }

  lemma MarkingClaim(c: Config, s: State, token: Token, o: OrderId, id: EventId, state: InboxState, code: string, ch: Choice)
    requires Inv(c, s) && token in s.claims && s.claims[token] == Job(o, InboxMarking(id, state, code))
    requires ClaimOk(c, s.db, token, o, InboxMarking(id, state, code))
    ensures Inv(c, ClaimStep(c, s, token, ch))
  {
    hide TablesOk, WebhookOk, Keeps, Inv, MarkInboxWithLease;
    MarkInboxKeeps(c, s.db, token, o, id, state, code, ch.leaseNow) by { InvTables(c, s); }
    WritingClaimMoves(c, s, MarkInboxWithLease(s.db, token, o, id, state, code, ch.leaseNow).db, token, o, Finishing);
  }

  lemma PublishingClaim(c: Config, s: State, token: Token, o: OrderId, ch: Choice)
    requires Inv(c, s) && token in s.claims && s.claims[token] == Job(o, Publishing)
    requires ClaimOk(c, s.db, token, o, Publishing)
    ensures Inv(c, ClaimStep(c, s, token, ch))
  {
    hide TablesOk, WebhookOk, Keeps, Inv, PublishWithLease;
    PublishKeeps(c, s.db, token, o, ch.leaseNow) by { InvTables(c, s); }
    WritingClaimMoves(c, s, PublishWithLease(s.db, token, o, ch.leaseNow).db, token, o, Finishing);
  }

  lemma FinishingClaim(c: Config, s: State, token: Token, o: OrderId, ch: Choice)
    requires Inv(c, s) && token in s.claims && s.claims[token] == Job(o, Finishing)
    requires ClaimOk(c, s.db, token, o, Finishing)
    ensures Inv(c, ClaimStep(c, s, token, ch))
  {
    hide TablesOk, WebhookOk, Keeps, Inv, FinishLease;
    FinishKeeps(c, s.db, token, o, ch.leaseNow) by { InvTables(c, s); }
    WritingClaimMoves(c, s, FinishLease(s.db, token, o, ch.leaseNow), token, o, ClaimDone);
  }

  lemma SendingClaim(c: Config, s: State, token: Token, o: OrderId, ch: Choice)
    requires Inv(c, s) && token in s.claims && s.claims[token] == Job(o, Sending) && ClaimOk(c, s.db, token, o, Sending)
    ensures Inv(c, ClaimStep(c, s, token, ch))
  {
    hide Inv, ClaimOk, PaidAuthorityCode;
    SentClaim(c, s, token, o,
              if ch.accepted && o in s.db.outbox && !s.db.outbox[o].published then Publishing else Finishing);
  }

  lemma SentClaim(c: Config, s: State, token: Token, o: OrderId, pc: ClaimPc)
    requires Inv(c, s) && ClaimOk(c, s.db, token, o, Sending) && (pc.Publishing? || pc.Finishing?)
    ensures Inv(c, SetClaim(s.(sent := s.sent + [o]), token, o, pc))
  {
    hide TablesOk, WebhookOk, Keeps, Inv;
    KeepsReflexive(c, s.db) by { InvTables(c, s); }
    ClaimMoves(c, s, s.db, token, o, pc);
    SentMatters(c, SetClaim(s, token, o, pc), s.sent + [o]);
  }

  lemma EndingClaim(c: Config, s: State, token: Token, ch: Choice)
    requires Inv(c, s) && token in s.claims && s.claims[token].pc.ClaimDone?
    ensures Inv(c, ClaimStep(c, s, token, ch))
  {
    hide Inv;
    StoppedClaim(c, s, token);
  }

  lemma SentMatters(c: Config, s: State, sent: seq<OrderId>)
    requires Inv(c, s)
    ensures Inv(c, s.(sent := sent))
  {
    hide TablesOk, WebhookOk, ClaimOk;
  }

  lemma WritingClaimMoves(c: Config, s: State, db': Tables, token: Token, o: OrderId, pc: ClaimPc)
    requires Inv(c, s) && Keeps(c, s.db, db') && db'.receipts == s.db.receipts && (pc.Finishing? || pc.ClaimDone?)
    requires ClaimOk(c, s.db, token, o, Finishing)
    ensures Inv(c, SetClaim(s.(db := db'), token, o, pc))
  {
    hide TablesOk, WebhookOk, TokensMoveOn, ProcessedStays;
    ClaimMoves(c, s, db', token, o, pc);
  }

  lemma PollingClaim(c: Config, s: State, token: Token, o: OrderId, ev: Evidence, target: Target, ch: Choice)
    requires WellFormed(c) && Inv(c, s) && token in s.claims && s.claims[token] == Job(o, PollApplying(ev, target))
    requires ClaimOk(c, s.db, token, o, PollApplying(ev, target))
    ensures Inv(c, ClaimStep(c, s, token, ch))
  {
    hide TablesOk, WebhookOk, TokensMoveOn, ProcessedStays, ApplyPollWithLease;
    PollKeeps(c, s.db, token, o, ev, target, ch.leaseNow, ch.now);
    var db' := ApplyPollWithLease(c, s.db, token, o, ev, target, ch.leaseNow, ch.now).db;
    ClaimMoves(c, s, db', token, o, Finishing);
  }

  /** The decisions of a claim that write nothing. */
  lemma JudgedClaimOk(c: Config, s: State, token: Token, ch: Choice) returns (next: ClaimPc)
    requires TablesOk(c, s.db) && token in s.claims
    requires ClaimOk(c, s.db, token, s.claims[token].order, s.claims[token].pc)
    requires !Writes(s.claims[token].pc)
    ensures ClaimStep(c, s, token, ch) == SetClaim(s, token, s.claims[token].order, next)
    ensures ClaimOk(c, s.db, token, s.claims[token].order, next)
  {
    hide TablesOk, PaidAuthorityCode;
    var o, pc := s.claims[token].order, s.claims[token].pc;
    next := ClaimStep(c, s, token, ch).claims[token].pc;
    if pc.Snapshotting? {
      SnapshotOk(c, s, token, o);
    } else if pc.Looking? {
      LookOk(c, s, token, o, pc, ch);
    }
  }

  lemma LookOk(c: Config, s: State, token: Token, o: OrderId, pc: ClaimPc, ch: Choice)
    requires pc.Looking? && ClaimOk(c, s.db, token, o, pc)
    ensures ClaimOk(c, s.db, token, o, Look(s, o, pc, ch))
  {
  }

  predicate Writes(pc: ClaimPc) {
    pc.ResumeApplying? || pc.InboxMarking? || pc.PollApplying? || pc.Sending? || pc.Publishing? || pc.Finishing?
        || pc.ClaimDone?
  }

  lemma SnapshotOk(c: Config, s: State, token: Token, o: OrderId)
    requires TablesOk(c, s.db) && ClaimOk(c, s.db, token, o, Snapshotting)
    ensures ClaimOk(c, s.db, token, o, Snapshot(s, o))
  {
    hide PaidRowsCode, BoundToOrder, FencesOk, SessionsDistinct, ClaimOk;
    if o in s.db.orders { assert OrderOk(c, s.db, o); }
    assert Snapshot(s, o).Looking? && Snapshot(s, o).pending ==> o !in s.db.receipts;
    LookingOk(c, s.db, token, o, Snapshot(s, o));
  }

  lemma LookingOk(c: Config, db: Tables, token: Token, o: OrderId, pc: ClaimPc)
    requires ClaimOk(c, db, token, o, Snapshotting) && (pc.Looking? || pc.Finishing?)
    requires pc.Looking? && pc.pending ==> o !in db.receipts
    ensures ClaimOk(c, db, token, o, pc)
  {
  }

  // ---- All events ----

  lemma StepKeepsInv(c: Config, s: State, ev: Event)
    requires WellFormed(c) && Inv(c, s)
    ensures Inv(c, Apply(c, s, ev))
  {
    var s' := Apply(c, s, ev);
    hide TablesOk, WebhookOk, ClaimOk, Keeps, Inv, WebhookStep, ClaimStep;
    assert TablesOk(c, s.db) by { InvTables(c, s); }
    match ev
    case Create(o, product, catalog, email, price) =>
      if price != "" { CreateKeeps(c, s.db, o, product, catalog, email, price); QuietStep(c, s, s'); }
    case Bind(o, sessionId) =>
      if sessionId != "" { BindKeeps(c, s.db, o, sessionId); QuietStep(c, s, s'); }
    case LegacyInsert(id, e, now) =>
      if s' != s { InboxWriteKeeps(c, s.db, id, Inbox(e, Received, None, 1, now)); QuietStep(c, s, s'); }
    case Deliver(t, id, e) => DeliverKeepsInv(c, s, t, id, e);
    case Handle(t, ch) => if t in s.webhooks { WebhookKeepsInv(c, s, t, ch); }
    case StopHandler(t) => StoppedHandler(c, s, t);
    case Seed(o) => if s' != s { SeedKeeps(c, s.db, o); QuietStep(c, s, s'); }
    case ClaimLease(o, token, now, seconds) =>
      if o in s.db.fences && token !in s.db.tokens && Claimable(s.db.fences[o].lease, now) {
        ClaimLeaseKeepsInv(c, s, o, token, now, seconds);
      }
    case Process(token, ch) => if token in s.claims { ClaimKeepsInv(c, s, token, ch); }
    case FailClaim(token) => if token in s.claims { FailedClaim(c, s, token); }
    case StopClaim(token) => StoppedClaim(c, s, token);
    case Dispatch(o) => if o in s.db.outbox { DispatchKeeps(c, s.db, o); QuietStep(c, s, s'); }
    case Fulfil(o, after) => if s' != s { FulfilKeeps(c, s.db, o, after); QuietStep(c, s, s'); }
  }

  lemma DeliverKeepsInv(c: Config, s: State, t: int, id: EventId, e: Envelope)
    requires Inv(c, s)
    ensures Inv(c, Apply(c, s, Deliver(t, id, e)))
  {
    hide TablesOk, ClaimOk;
  }

  lemma FailedClaim(c: Config, s: State, token: Token)
    requires Inv(c, s) && token in s.claims
    ensures Inv(c, SetClaim(s, token, s.claims[token].order, Finishing))
  {
    hide TablesOk, WebhookOk;
    assert ClaimOk(c, s.db, token, s.claims[token].order, s.claims[token].pc);
  }

  lemma ClaimLeaseKeepsInv(c: Config, s: State, o: OrderId, token: Token, now: int, seconds: int)
    requires Inv(c, s) && o in s.db.fences && token !in s.db.tokens && Claimable(s.db.fences[o].lease, now)
    ensures Inv(c, Apply(c, s, ClaimLease(o, token, now, seconds)))
  {
    hide TablesOk, WebhookOk, Keeps, Claim, Claimable;
    var db' := s.db.(fences := s.db.fences[o := Claim(s.db.fences[o], token, now, seconds)], tokens := s.db.tokens + {token});
    ClaimLeaseKeeps(c, s.db, o, token, now, seconds) by { InvTables(c, s); }
    ClaimMoves(c, s, db', token, o, Snapshotting);
  }

  lemma {:induction false} RunKeepsInv(c: Config, s: State, es: seq<Event>)
    requires WellFormed(c) && Inv(c, s)
    ensures Inv(c, Run(c, s, es))
    decreases |es|
  {
    hide Inv, Apply;
    if es != [] {
      StepKeepsInv(c, s, es[0]);
      RunKeepsInv(c, Apply(c, s, es[0]), es[1..]);
    }
  }

  lemma InitInv(c: Config)
    ensures Inv(c, INIT)
  {
  }
}

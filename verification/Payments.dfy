/** Payments: authorisation, idempotent capture, cash collection, refunds and the audit trail. */
module Payments {
  import opened Collections
  import opened DomainEvents

  datatype PaymentMethod = Card | ApplePay | GooglePay | Cash

  /** The program also names VOIDED and REFUNDED, which no call of this service sets. */
  datatype PaymentStatus = Initiated | Authorized | Captured

  datatype Intent = Intent(
    id: string, orderId: string, paymentMethod: PaymentMethod, status: PaymentStatus, amount: int,
    currency: string, providerReference: Option<string>, createdAt: int, updatedAt: int)

  datatype RefundStatus = Requested | Completed

  datatype Refund = Refund(
    id: string, orderId: string, intentId: string, amount: int, reasonCode: string, status: RefundStatus,
    requestedBy: string, approvedBy: Option<string>, createdAt: int, updatedAt: int)

  datatype AuditAction =
    | AuditAuthorized | AuditCaptured | AuditCashExpected | AuditCashCollected | AuditCashMismatch
    | AuditRefundRequested | AuditRefundCompleted

  datatype Audit = Audit(orderId: string, action: AuditAction, targetId: string, reasonCode: string, at: int)

  datatype PaymentEvent =
    | AuthorizedEvent(orderId: string, intentId: string, amount: int)
    | CapturedEvent(orderId: string, intentId: string, amount: int, idempotencyKey: string)
    | CashExpectedEvent(orderId: string, intentId: string, amount: int)
    | CashCollectedEvent(orderId: string, intentId: string, amount: int, collected: int, courierId: string,
                         mismatch: bool)
    | CashMismatchEvent(orderId: string, intentId: string, amount: int, collected: int, courierId: string)
    | RefundCompletedEvent(refundId: string, orderId: string, intentId: string, amount: int)
    | AuditRecordedEvent(audit: Audit)

  datatype PaymentError =
    | OrderNotFound | MethodNotSupported | IntentNotFound | CapturePrecondition
    | CashExpectationNotFound | RefundAmountInvalid | RefundNotFound

  /** Everything the service owns. */
  datatype Books = Books(
    intents: OrderedMap<string, Intent>, captures: map<string, Intent>,
    refunds: map<string, Refund>, audits: seq<Audit>, events: seq<PaymentEvent>)

  const OPENING := Books(EmptyMap(), map[], map[], [], [])

  datatype Request =
    | Authorize(orderId: string, orderExists: bool, paymentMethod: PaymentMethod, amount: int, currency: string,
                newId: string, providerReference: string, at: int)
    | Capture(intentId: string, idempotencyKey: string, orderStatus: Option<OrderStatus>, at: int)
    | ExpectCash(orderId: string, orderExists: bool, amount: int, currency: string, newId: string, at: int)
    | ConfirmCash(orderId: string, collected: int, courierId: string, at: int)
    | RequestRefund(orderId: string, intentId: string, amount: int, reasonCode: string, requestedBy: string,
                    newId: string, at: int)
    | ApproveRefund(refundId: string, approvedBy: string, at: int)

  function SaveIntent(b: Books, i: Intent): Books {
    b.(intents := b.intents.Put(i.id, i))
  }

  function Emit(b: Books, e: PaymentEvent): Books {
    b.(events := b.events + [e])
  }

  function Record(b: Books, a: Audit): Books {
    b.(audits := b.audits + [a], events := b.events + [AuditRecordedEvent(a)])
  }

  /** The position of the first intent of an order with a method, or the length. */
  function FirstMatch(intents: seq<Intent>, orderId: string, m: PaymentMethod): (i: nat)
    ensures i <= |intents|
    ensures i < |intents| ==> intents[i].orderId == orderId && intents[i].paymentMethod == m
    ensures forall j :: 0 <= j < i ==> !(intents[j].orderId == orderId && intents[j].paymentMethod == m)
  {
    if intents == [] || (intents[0].orderId == orderId && intents[0].paymentMethod == m) then 0
    else 1 + FirstMatch(intents[1..], orderId, m)
  }

  function AuthorizedIntent(r: Request): Intent
    requires r.Authorize?
  {
    Intent(r.newId, r.orderId, r.paymentMethod, Authorized, r.amount, r.currency, Some(r.providerReference), r.at, r.at)
  }

  function CashIntent(r: Request): Intent
    requires r.ExpectCash?
  {
    Intent(r.newId, r.orderId, Cash, Initiated, r.amount, r.currency, None, r.at, r.at)
  }

  function DoAuthorize(b: Books, r: Request): Books
    requires r.Authorize?
  {
    Record(Emit(SaveIntent(b, AuthorizedIntent(r)), AuthorizedEvent(r.orderId, r.newId, r.amount)),
           Audit(r.orderId, AuditAuthorized, r.newId, "PAYMENT_AUTHORIZED", r.at))
  }

  function DoCapture(b: Books, i: Intent, key: string, now: int): Books {
    var captured := i.(status := Captured, updatedAt := now);
    Record(Emit(SaveIntent(b, captured).(captures := b.captures[key := captured]),
                CapturedEvent(i.orderId, i.id, i.amount, key)),
           Audit(i.orderId, AuditCaptured, i.id, "PAYMENT_CAPTURED", now))
  }

  function DoExpectCash(b: Books, r: Request): Books
    requires r.ExpectCash?
  {
    Record(Emit(SaveIntent(b, CashIntent(r)), CashExpectedEvent(r.orderId, r.newId, r.amount)),
           Audit(r.orderId, AuditCashExpected, r.newId, "CASH_EXPECTED", r.at))
  }

  function DoConfirmCash(b: Books, i: Intent, r: Request): Books
    requires r.ConfirmCash?
  {
    var mismatch := i.amount != r.collected;
    var collected := Record(
      Emit(SaveIntent(b, i.(status := Captured, updatedAt := r.at)),
           CashCollectedEvent(r.orderId, i.id, i.amount, r.collected, r.courierId, mismatch)),
      Audit(r.orderId, AuditCashCollected, i.id,
            if mismatch then "CASH_COLLECTION_MISMATCH" else "CASH_COLLECTION_MATCHED", r.at));
    if !mismatch then collected
    else Record(Emit(collected, CashMismatchEvent(r.orderId, i.id, i.amount, r.collected, r.courierId)),
                Audit(r.orderId, AuditCashMismatch, i.id, "CASH_MISMATCH_DETECTED", r.at))
  }

  function NewRefund(r: Request): Refund
    requires r.RequestRefund?
  {
    Refund(r.newId, r.orderId, r.intentId, r.amount, r.reasonCode, Requested, r.requestedBy, None, r.at, r.at)
  }

  function DoRequestRefund(b: Books, r: Request): Books
    requires r.RequestRefund?
  {
    Record(b.(refunds := b.refunds[r.newId := NewRefund(r)]),
           Audit(r.orderId, AuditRefundRequested, r.newId, r.reasonCode, r.at))
  }

  function DoApproveRefund(b: Books, f: Refund, approvedBy: string, now: int): Books {
    var done := f.(status := Completed, approvedBy := Some(approvedBy), updatedAt := now);
    Record(Emit(b.(refunds := b.refunds[f.id := done]), RefundCompletedEvent(f.id, f.orderId, f.intentId, f.amount)),
           Audit(f.orderId, AuditRefundCompleted, f.id, f.reasonCode, now))
  }

  /** Why a request is refused, if it is. */
  function Refusal(b: Books, r: Request): Option<PaymentError>
    requires b.intents.Valid()
  {
    match r
    case Authorize(_, orderExists, m, _, _, _, _, _) =>
      if !orderExists then Some(OrderNotFound) else if m == Cash then Some(MethodNotSupported) else None
    case Capture(id, key, orderStatus, _) =>
      if key in b.captures then None
      else if id !in b.intents.data then Some(IntentNotFound)
      else if orderStatus.None? then Some(OrderNotFound)
      else if b.intents.data[id].status != Captured && orderStatus.value !in {MerchantAccepted, DispatchPending}
      then Some(CapturePrecondition)
      else None
    case ExpectCash(_, orderExists, _, _, _, _) => if !orderExists then Some(OrderNotFound) else None
    case ConfirmCash(orderId, _, _, _) =>
      if FirstMatch(b.intents.Values(), orderId, Cash) == |b.intents.keys| then Some(CashExpectationNotFound) else None
    case RequestRefund(orderId, id, amount, _, _, _, _) =>
      if id !in b.intents.data then Some(IntentNotFound)
      else if b.intents.data[id].orderId != orderId || b.intents.data[id].status != Captured then
        Some(CapturePrecondition)
      else if amount <= 0 || amount > b.intents.data[id].amount then Some(RefundAmountInvalid)
      else None
    case ApproveRefund(id, _, _) => if id !in b.refunds then Some(RefundNotFound) else None
  }

  /** What a request does to the books. */
  function Serve(b: Books, r: Request): Books
    requires b.intents.Valid()
  {
    if Refusal(b, r).Some? then b
    else
      match r
      case Authorize(_, _, _, _, _, _, _, _) => DoAuthorize(b, r)
      case Capture(id, key, _, now) =>
        if key in b.captures then b
        else if b.intents.data[id].status == Captured then b.(captures := b.captures[key := b.intents.data[id]])
        else DoCapture(b, b.intents.data[id], key, now)
      case ExpectCash(_, _, _, _, _, _) => DoExpectCash(b, r)
      case ConfirmCash(orderId, _, _, _) =>
        DoConfirmCash(b, b.intents.Values()[FirstMatch(b.intents.Values(), orderId, Cash)], r)
      case RequestRefund(_, _, _, _, _, _, _) => DoRequestRefund(b, r)
      case ApproveRefund(id, approvedBy, now) =>
        if b.refunds[id].status == Completed then b else DoApproveRefund(b, b.refunds[id], approvedBy, now)
  }

  /** What a capture answers. */
  function CaptureReply(b: Books, r: Request): Result<Intent, PaymentError>
    requires r.Capture? && b.intents.Valid()
  {
    if Refusal(b, r).Some? then Err(Refusal(b, r).value)
    else if r.idempotencyKey in b.captures then Ok(b.captures[r.idempotencyKey])
    else Ok(Serve(b, r).intents.data[r.intentId])
  }

  // ----- what every run keeps -----

  predicate Capturing(a: Audit, id: string) {
    (a.action == AuditCaptured || a.action == AuditCashCollected) && a.targetId == id
  }

  function CapturedEvents(events: seq<PaymentEvent>, id: string): nat {
    if events == [] then 0
    else CapturedEvents(events[..|events| - 1], id) +
         var e := events[|events| - 1]; if e.CapturedEvent? && e.intentId == id then 1 else 0
  }

  /** An intent is captured exactly when the audit trail says so; its capture was announced
      at most once, and never before. */
  ghost predicate IntentInvariant(b: Books, id: string) {
    && (id in b.intents.data ==>
          && b.intents.data[id].id == id
          && (b.intents.data[id].status == Captured <==> exists a :: a in b.audits && Capturing(a, id))
          && CapturedEvents(b.events, id) <= (if b.intents.data[id].status == Captured then 1 else 0))
    && (id !in b.intents.data ==> CapturedEvents(b.events, id) == 0 && forall a :: a in b.audits ==> !Capturing(a, id))
  }

  ghost predicate RefundInvariant(b: Books, id: string) {
    id in b.refunds ==>
      var f := b.refunds[id];
      && f.id == id && f.intentId in b.intents.data
      && var i := b.intents.data[f.intentId];
         i.status == Captured && i.orderId == f.orderId && 0 < f.amount <= i.amount
  }

  ghost predicate CaptureInvariant(b: Books, key: string) {
    key in b.captures ==>
      var i := b.captures[key];
      && i.status == Captured && i.id in b.intents.data
      && var j := b.intents.data[i.id];
         j.status == Captured && j.orderId == i.orderId && j.amount == i.amount
  }

  /** A capture announcement carries the order and amount of its intent, and its key is bound
      to that intent. */
  ghost predicate EventInvariant(b: Books, e: PaymentEvent) {
    e in b.events && e.CapturedEvent? ==>
      && e.intentId in b.intents.data
      && b.intents.data[e.intentId].orderId == e.orderId && b.intents.data[e.intentId].amount == e.amount
      && e.idempotencyKey in b.captures && b.captures[e.idempotencyKey].id == e.intentId
  }

  ghost predicate Sound(b: Books) {
    && b.intents.Valid()
    && (forall e :: EventInvariant(b, e))
    && (forall id :: IntentInvariant(b, id))
    && (forall id :: RefundInvariant(b, id))
    && (forall key :: CaptureInvariant(b, key))
  }

  /** Intents keep identity, order and amount, and stay captured; capture keys keep their result. */
  ghost predicate Grows(b: Books, c: Books) {
    && (forall id :: id in b.intents.data ==>
          && id in c.intents.data
          && c.intents.data[id].orderId == b.intents.data[id].orderId
          && c.intents.data[id].amount == b.intents.data[id].amount
          && (b.intents.data[id].status == Captured ==> c.intents.data[id].status == Captured))
    && (forall key :: key in b.captures ==> key in c.captures && c.captures[key] == b.captures[key])
  }

  /** Random identifiers are never drawn twice. */
  predicate Enabled(b: Books, r: Request) {
    match r
    case Authorize(_, _, _, _, _, newId, _, _) => newId !in b.intents.data
    case ExpectCash(_, _, _, _, newId, _) => newId !in b.intents.data
    case RequestRefund(_, _, _, _, _, newId, _) => newId !in b.refunds
    case _ => true
  }

  lemma CapturedEventsAppend(events: seq<PaymentEvent>, e: PaymentEvent, id: string)
    ensures CapturedEvents(events + [e], id) ==
              CapturedEvents(events, id) + if e.CapturedEvent? && e.intentId == id then 1 else 0
  {
    assert (events + [e])[..|events|] == events;
  }

  lemma SavingKeepsTheRest(b: Books, i: Intent, captures: map<string, Intent>, e: PaymentEvent, a: Audit)
    requires Sound(b)
    requires i.id in b.intents.data ==>
               var j := b.intents.data[i.id];
               i.orderId == j.orderId && i.amount == j.amount && i.status == Captured
    requires e.CapturedEvent? ==>
               && e.intentId == i.id && e.orderId == i.orderId && e.amount == i.amount
               && e.idempotencyKey in captures && captures[e.idempotencyKey].id == i.id
    requires captures == b.captures ||
             (i.status == Captured && exists key :: key !in b.captures && captures == b.captures[key := i])
    ensures var c := Record(Emit(SaveIntent(b, i).(captures := captures), e), a);
            && (forall x :: EventInvariant(c, x)) && (forall id :: RefundInvariant(c, id))
            && (forall key :: CaptureInvariant(c, key)) && Grows(b, c)
  {
    var c := Record(Emit(SaveIntent(b, i).(captures := captures), e), a);
    assert forall x :: x in c.events <==> x in b.events || x == e || x == AuditRecordedEvent(a);
    forall x ensures EventInvariant(c, x) { assert EventInvariant(b, x); }
    forall id ensures RefundInvariant(c, id) { assert RefundInvariant(b, id); }
    forall key ensures CaptureInvariant(c, key) { assert CaptureInvariant(b, key); }
  }

  /** Saving an intent that only advances, with its event and its audit record. */
  lemma SavingIsSound(b: Books, i: Intent, captures: map<string, Intent>, e: PaymentEvent, a: Audit)
    requires Sound(b) && a.targetId == i.id
    requires i.id in b.intents.data ==>
               var j := b.intents.data[i.id];
               i.orderId == j.orderId && i.amount == j.amount && i.status == Captured && Capturing(a, i.id)
    requires i.id !in b.intents.data ==> i.status != Captured && !Capturing(a, i.id) && !e.CapturedEvent?
    requires e.CapturedEvent? ==>
               && e.intentId == i.id && b.intents.data[i.id].status != Captured
               && e.orderId == i.orderId && e.amount == i.amount
               && e.idempotencyKey in captures && captures[e.idempotencyKey].id == i.id
    requires captures == b.captures ||
             (i.status == Captured && exists key :: key !in b.captures && captures == b.captures[key := i])
    ensures var c := Record(Emit(SaveIntent(b, i).(captures := captures), e), a);
            Sound(c) && Grows(b, c)
  {
    var c := Record(Emit(SaveIntent(b, i).(captures := captures), e), a);
    PutKeepsValid(b.intents, i.id, i);
    forall id ensures IntentInvariant(c, id) {
      assert IntentInvariant(b, id);
      CapturedEventsAppend(b.events, e, id);
      CapturedEventsAppend(b.events + [e], AuditRecordedEvent(a), id);
      assert c.events == b.events + [e] + [AuditRecordedEvent(a)];
      assert c.audits == b.audits + [a] && a in c.audits;
      assert forall x :: x in c.audits <==> x in b.audits || x == a;
    }
    SavingKeepsTheRest(b, i, captures, e, a);
  }

  /** Recording something that is no capture. */
  lemma RecordingIsSound(b: Books, a: Audit)
    requires Sound(b) && a.action !in {AuditCaptured, AuditCashCollected}
    ensures Sound(Record(b, a)) && Grows(b, Record(b, a))
  {
    var c := Record(b, a);
    forall id ensures IntentInvariant(c, id) {
      assert IntentInvariant(b, id);
      CapturedEventsAppend(b.events, AuditRecordedEvent(a), id);
      assert forall x :: x in c.audits <==> x in b.audits || x == a;
    }
    forall x ensures EventInvariant(c, x) { assert EventInvariant(b, x); }
    forall id ensures RefundInvariant(c, id) { assert RefundInvariant(b, id); }
    forall key ensures CaptureInvariant(c, key) { assert CaptureInvariant(b, key); }
  }

  lemma EmittingIsSound(b: Books, e: PaymentEvent)
    requires Sound(b) && !e.CapturedEvent?
    ensures Sound(Emit(b, e)) && Grows(b, Emit(b, e))
  {
    var c := Emit(b, e);
    forall id ensures IntentInvariant(c, id) {
      assert IntentInvariant(b, id);
      CapturedEventsAppend(b.events, e, id);
    }
    forall x ensures EventInvariant(c, x) { assert EventInvariant(b, x); }
    forall id ensures RefundInvariant(c, id) { assert RefundInvariant(b, id); }
    forall key ensures CaptureInvariant(c, key) { assert CaptureInvariant(b, key); }
  }

  lemma RefundingIsSound(b: Books, f: Refund)
    requires Sound(b) && RefundInvariant(b.(refunds := b.refunds[f.id := f]), f.id)
    ensures Sound(b.(refunds := b.refunds[f.id := f])) && Grows(b, b.(refunds := b.refunds[f.id := f]))
  {
    var c := b.(refunds := b.refunds[f.id := f]);
    forall id ensures IntentInvariant(c, id) { assert IntentInvariant(b, id); }
    forall x ensures EventInvariant(c, x) { assert EventInvariant(b, x); }
    forall id ensures RefundInvariant(c, id) { assert RefundInvariant(b, id); }
    forall key ensures CaptureInvariant(c, key) { assert CaptureInvariant(b, key); }
  }

  lemma CaptureIsSound(b: Books, r: Request)
    requires Sound(b) && r.Capture?
    ensures Sound(Serve(b, r)) && Grows(b, Serve(b, r))
  {
    if Refusal(b, r).None? && r.idempotencyKey !in b.captures {
      var i := b.intents.data[r.intentId];
      assert IntentInvariant(b, r.intentId);
      if i.status == Captured {
        var c := Serve(b, r);
        forall id ensures IntentInvariant(c, id) { assert IntentInvariant(b, id); }
        forall x ensures EventInvariant(c, x) { assert EventInvariant(b, x); }
        forall id ensures RefundInvariant(c, id) { assert RefundInvariant(b, id); }
        forall key ensures CaptureInvariant(c, key) { assert CaptureInvariant(b, key); }
      } else {
        var captured := i.(status := Captured, updatedAt := r.at);
        SavingIsSound(b, captured, b.captures[r.idempotencyKey := captured],
                      CapturedEvent(i.orderId, i.id, i.amount, r.idempotencyKey),
                      Audit(i.orderId, AuditCaptured, i.id, "PAYMENT_CAPTURED", r.at));
      }
    }
  }

  lemma ConfirmCashIsSound(b: Books, r: Request)
    requires Sound(b) && r.ConfirmCash?
    ensures Sound(Serve(b, r)) && Grows(b, Serve(b, r))
  {
    if Refusal(b, r).None? {
      var k := FirstMatch(b.intents.Values(), r.orderId, Cash);
      var i := b.intents.Values()[k];
      assert b.intents.keys[k] in b.intents.keys;
      assert IntentInvariant(b, b.intents.keys[k]);
      var mismatch := i.amount != r.collected;
      var e := CashCollectedEvent(r.orderId, i.id, i.amount, r.collected, r.courierId, mismatch);
      var a := Audit(r.orderId, AuditCashCollected, i.id,
                     if mismatch then "CASH_COLLECTION_MISMATCH" else "CASH_COLLECTION_MATCHED", r.at);
      SavingIsSound(b, i.(status := Captured, updatedAt := r.at), b.captures, e, a);
      if mismatch {
        var c := Record(Emit(SaveIntent(b, i.(status := Captured, updatedAt := r.at)).(captures := b.captures), e), a);
        var e2 := CashMismatchEvent(r.orderId, i.id, i.amount, r.collected, r.courierId);
        EmittingIsSound(c, e2);
        RecordingIsSound(Emit(c, e2), Audit(r.orderId, AuditCashMismatch, i.id, "CASH_MISMATCH_DETECTED", r.at));
      }
    }
  }

  lemma RefundCallsAreSound(b: Books, r: Request)
    requires Sound(b) && Enabled(b, r) && (r.RequestRefund? || r.ApproveRefund?)
    ensures Sound(Serve(b, r)) && Grows(b, Serve(b, r))
  {
    if Refusal(b, r).None? {
      if r.RequestRefund? {
        var f := NewRefund(r);
        RefundingIsSound(b, f);
        RecordingIsSound(b.(refunds := b.refunds[f.id := f]),
                         Audit(r.orderId, AuditRefundRequested, r.newId, r.reasonCode, r.at));
      } else if b.refunds[r.refundId].status != Completed {
        var f := b.refunds[r.refundId];
        assert RefundInvariant(b, r.refundId);
        var done := f.(status := Completed, approvedBy := Some(r.approvedBy), updatedAt := r.at);
        RefundingIsSound(b, done);
        var c := b.(refunds := b.refunds[f.id := done]);
        EmittingIsSound(c, RefundCompletedEvent(f.id, f.orderId, f.intentId, f.amount));
        RecordingIsSound(Emit(c, RefundCompletedEvent(f.id, f.orderId, f.intentId, f.amount)),
                         Audit(f.orderId, AuditRefundCompleted, f.id, f.reasonCode, r.at));
      }
    }
  }

  lemma ServeIsSound(b: Books, r: Request)
    requires Sound(b) && Enabled(b, r)
    ensures Sound(Serve(b, r)) && Grows(b, Serve(b, r))
  {
    match r
    case Authorize(orderId, _, _, amount, _, newId, _, now) =>
      SavingIsSound(b, AuthorizedIntent(r), b.captures, AuthorizedEvent(orderId, newId, amount),
                    Audit(orderId, AuditAuthorized, newId, "PAYMENT_AUTHORIZED", now));
    case Capture(_, _, _, _) => CaptureIsSound(b, r);
    case ExpectCash(orderId, _, amount, _, newId, now) =>
      SavingIsSound(b, CashIntent(r), b.captures, CashExpectedEvent(orderId, newId, amount),
                    Audit(orderId, AuditCashExpected, newId, "CASH_EXPECTED", now));
    case ConfirmCash(_, _, _, _) => ConfirmCashIsSound(b, r);
    case RequestRefund(_, _, _, _, _, _, _) => RefundCallsAreSound(b, r);
    case ApproveRefund(_, _, _) => RefundCallsAreSound(b, r);
  }

  /** Runs keep the books sound, so that every further request is defined. */
  ghost function ServeAll(b: Books, requests: seq<Request>): (c: Books)
    requires Sound(b)
    ensures Sound(c)
  {
    if requests == [] then b
    else
      var before, last := ServeAll(b, requests[..|requests| - 1]), requests[|requests| - 1];
      if !Enabled(before, last) then before
      else
        ServeIsSound(before, last);
        Serve(before, last)
  }

  lemma OpeningIsSound()
    ensures Sound(OPENING)
  {
    assert EmptyMap<string, Intent>().Valid();
  }

  ghost function BooksAfter(requests: seq<Request>): (c: Books)
    ensures Sound(c)
  {
    OpeningIsSound();
    ServeAll(OPENING, requests)
  }

  /** In every run an intent's capture is announced at most once, and the intent is captured
      exactly when a capture or a cash collection of it is on the audit trail. */
  lemma CapturesMatchTheAuditTrail(requests: seq<Request>, id: string)
    ensures var b := BooksAfter(requests);
            && CapturedEvents(b.events, id) <= 1
            && ((id in b.intents.data && b.intents.data[id].status == Captured) <==>
                  exists a :: a in b.audits && Capturing(a, id))
            && (CapturedEvents(b.events, id) == 1 ==> id in b.intents.data && b.intents.data[id].status == Captured)
            && (forall e :: e in b.events && e.CapturedEvent? && e.intentId == id ==>
                  && id in b.intents.data && b.intents.data[id].orderId == e.orderId
                  && b.intents.data[id].amount == e.amount
                  && e.idempotencyKey in b.captures && b.captures[e.idempotencyKey].id == id)
  {
    var b := BooksAfter(requests);
    assert IntentInvariant(b, id);
    forall e | e in b.events && e.CapturedEvent? && e.intentId == id
      ensures && id in b.intents.data && b.intents.data[id].orderId == e.orderId
              && b.intents.data[id].amount == e.amount
              && e.idempotencyKey in b.captures && b.captures[e.idempotencyKey].id == id
    {
      assert EventInvariant(b, e);
    }
  }

  /** In every run a refund is positive, at most the amount of its intent, and on a captured
      intent of the same order. */
  lemma RefundsAreCovered(requests: seq<Request>, id: string)
    requires id in BooksAfter(requests).refunds
    ensures var b := BooksAfter(requests);
            var f := b.refunds[id];
            && f.intentId in b.intents.data
            && b.intents.data[f.intentId].status == Captured
            && b.intents.data[f.intentId].orderId == f.orderId
            && 0 < f.amount <= b.intents.data[f.intentId].amount
  {
    assert RefundInvariant(BooksAfter(requests), id);
  }

  lemma {:induction false} RunGrows(b: Books, requests: seq<Request>)
    requires Sound(b)
    ensures Grows(b, ServeAll(b, requests))
  {
    if requests != [] {
      var before, last := ServeAll(b, requests[..|requests| - 1]), requests[|requests| - 1];
      RunGrows(b, requests[..|requests| - 1]);
      if Enabled(before, last) { ServeIsSound(before, last); }
    }
  }

  /** Once a capture under a key has succeeded, every later capture under that key, for
      whatever intent and order status, returns the first result and changes nothing. */
  lemma RepeatedKeyReturnsTheFirstResult(requests: seq<Request>, first: Request, later: seq<Request>, again: Request)
    requires first.Capture? && again.Capture? && again.idempotencyKey == first.idempotencyKey
    requires CaptureReply(BooksAfter(requests), first).Ok?
    ensures var b := BooksAfter(requests);
            && Sound(Serve(b, first))
            && var c := ServeAll(Serve(b, first), later);
               && CaptureReply(c, again) == CaptureReply(b, first)
               && Serve(c, again) == c
  {
    var b := BooksAfter(requests);
    ServeIsSound(b, first);
    RunGrows(Serve(b, first), later);
    assert first.idempotencyKey in Serve(b, first).captures;
    assert IntentInvariant(b, first.intentId);
  }

  // ----- the classes -----

  class InMemoryPaymentIntentRepository {
    var intents: OrderedMap<string, Intent>

    constructor ()
      ensures intents == EmptyMap()
    {
      intents := EmptyMap();
    }

    method Save(intent: Intent)
      modifies this
      ensures intents == old(intents).Put(intent.id, intent)
    {
      intents := intents.Put(intent.id, intent);
    }

    method FindById(id: string) returns (r: Option<Intent>)
      ensures r == intents.Get(id)
    {
      r := intents.Get(id);
    }

    /** The scan stops at the first match in insertion order. */
    method FindByOrderAndMethod(orderId: string, m: PaymentMethod) returns (r: Option<Intent>)
      requires intents.Valid()
      ensures var k := FirstMatch(intents.Values(), orderId, m);
              r == if k < |intents.Values()| then Some(intents.Values()[k]) else None
    {
      var values := intents.Values();
      for i := 0 to |values|
        invariant FirstMatch(values, orderId, m) >= i
      {
        if values[i].orderId == orderId && values[i].paymentMethod == m {
          return Some(values[i]);
        }
      }
      return None;
    }
  }

  class PaymentService {
    const intentRepository: InMemoryPaymentIntentRepository
    var captureByIdempotencyKey: map<string, Intent>
    var refunds: map<string, Refund>
    var audits: seq<Audit>
    var events: seq<PaymentEvent>

    ghost function State(): Books
      reads this, intentRepository
    {
      Books(intentRepository.intents, captureByIdempotencyKey, refunds, audits, events)
    }

    constructor (repository: InMemoryPaymentIntentRepository)
      requires repository.intents == EmptyMap()
      ensures intentRepository == repository && State() == OPENING
    {
      intentRepository := repository;
      captureByIdempotencyKey, refunds, audits, events := map[], map[], [], [];
    }

    method AppendAuditRecord(audit: Audit)
      modifies this
      ensures State() == Record(old(State()), audit)
    {
      audits := audits + [audit];
      events := events + [AuditRecordedEvent(audit)];
    }

    /** `r.newId` is the random identifier, `r.providerReference` the answer of the provider. */
    method AuthorizePayment(r: Request) returns (reply: Result<Intent, PaymentError>)
      requires r.Authorize? && State().intents.Valid()
      modifies this, intentRepository
      ensures State() == Serve(old(State()), r)
      ensures reply == match Refusal(old(State()), r) case Some(e) => Err(e) case None => Ok(AuthorizedIntent(r))
    {
      if !r.orderExists {
        return Err(OrderNotFound);
      }
      if r.paymentMethod == Cash {
        return Err(MethodNotSupported);
      }
      var intent := Intent(r.newId, r.orderId, r.paymentMethod, Authorized, r.amount, r.currency,
                           Some(r.providerReference), r.at, r.at);
      intentRepository.Save(intent);
      events := events + [AuthorizedEvent(r.orderId, intent.id, r.amount)];
      AppendAuditRecord(Audit(r.orderId, AuditAuthorized, intent.id, "PAYMENT_AUTHORIZED", r.at));
      return Ok(intent);
    }

    method CapturePayment(intentId: string, key: string, orderStatus: Option<OrderStatus>, now: int)
      returns (reply: Result<Intent, PaymentError>)
      requires State().intents.Valid() && forall id :: id in State().intents.data ==> State().intents.data[id].id == id
      modifies this, intentRepository
      ensures State() == Serve(old(State()), Capture(intentId, key, orderStatus, now))
      ensures reply == CaptureReply(old(State()), Capture(intentId, key, orderStatus, now))
    {
      if key in captureByIdempotencyKey {
        return Ok(captureByIdempotencyKey[key]);
      }
      var found := intentRepository.FindById(intentId);
      if found.None? {
        return Err(IntentNotFound);
      }
      if orderStatus.None? {
        return Err(OrderNotFound);
      }
      var intent := found.value;
      if intent.status == Captured {
        captureByIdempotencyKey := captureByIdempotencyKey[key := intent];
        return Ok(intent);
      }
      if orderStatus.value !in {MerchantAccepted, DispatchPending} {
        return Err(CapturePrecondition);
      }
      var captured := intent.(status := Captured, updatedAt := now);
      intentRepository.Save(captured);
      captureByIdempotencyKey := captureByIdempotencyKey[key := captured];
      events := events + [CapturedEvent(intent.orderId, captured.id, captured.amount, key)];
      AppendAuditRecord(Audit(intent.orderId, AuditCaptured, captured.id, "PAYMENT_CAPTURED", now));
      return Ok(captured);
    }

    method MarkCashExpected(r: Request) returns (reply: Result<Intent, PaymentError>)
      requires r.ExpectCash? && State().intents.Valid()
      modifies this, intentRepository
      ensures State() == Serve(old(State()), r)
      ensures reply == match Refusal(old(State()), r) case Some(e) => Err(e) case None => Ok(CashIntent(r))
    {
      if !r.orderExists {
        return Err(OrderNotFound);
      }
      var intent := Intent(r.newId, r.orderId, Cash, Initiated, r.amount, r.currency, None, r.at, r.at);
      intentRepository.Save(intent);
      events := events + [CashExpectedEvent(r.orderId, intent.id, r.amount)];
      AppendAuditRecord(Audit(r.orderId, AuditCashExpected, intent.id, "CASH_EXPECTED", r.at));
      return Ok(intent);
    }

    /** Answers whether the collected amount differs from the expected one. */
    method ConfirmCashCollection(r: Request) returns (reply: Result<bool, PaymentError>)
      requires r.ConfirmCash? && State().intents.Valid()
      modifies this, intentRepository
      ensures State() == Serve(old(State()), r)
      ensures reply == match Refusal(old(State()), r)
                       case Some(e) => Err(e)
                       case None =>
                         var values := old(State()).intents.Values();
                         Ok(values[FirstMatch(values, r.orderId, Cash)].amount != r.collected)
    {
      var found := intentRepository.FindByOrderAndMethod(r.orderId, Cash);
      if found.None? {
        return Err(CashExpectationNotFound);
      }
      var expected := found.value;
      var mismatch := expected.amount != r.collected;
      var captured := expected.(status := Captured, updatedAt := r.at);
      intentRepository.Save(captured);
      events := events +
        [CashCollectedEvent(r.orderId, captured.id, captured.amount, r.collected, r.courierId, mismatch)];
      AppendAuditRecord(Audit(r.orderId, AuditCashCollected, captured.id,
                              if mismatch then "CASH_COLLECTION_MISMATCH" else "CASH_COLLECTION_MATCHED", r.at));
      if mismatch {
        events := events + [CashMismatchEvent(r.orderId, captured.id, captured.amount, r.collected, r.courierId)];
        AppendAuditRecord(Audit(r.orderId, AuditCashMismatch, captured.id, "CASH_MISMATCH_DETECTED", r.at));
      }
      return Ok(mismatch);
    }

    method RequestRefundFor(r: Request) returns (reply: Result<Refund, PaymentError>)
      requires r.RequestRefund? && State().intents.Valid()
      modifies this
      ensures State() == Serve(old(State()), r)
      ensures reply == match Refusal(old(State()), r) case Some(e) => Err(e) case None => Ok(NewRefund(r))
    {
      var found := intentRepository.FindById(r.intentId);
      if found.None? {
        return Err(IntentNotFound);
      }
      var intent := found.value;
      if intent.orderId != r.orderId || intent.status != Captured {
        return Err(CapturePrecondition);
      }
      if r.amount <= 0 || r.amount > intent.amount {
        return Err(RefundAmountInvalid);
      }
      var refund := Refund(r.newId, r.orderId, r.intentId, r.amount, r.reasonCode, Requested, r.requestedBy, None,
                           r.at, r.at);
      refunds := refunds[refund.id := refund];
      AppendAuditRecord(Audit(refund.orderId, AuditRefundRequested, refund.id, refund.reasonCode, r.at));
      return Ok(refund);
    }

    method ApproveRefundOf(refundId: string, approvedBy: string, now: int) returns (reply: Result<Refund, PaymentError>)
      requires State().intents.Valid() && forall id :: id in refunds ==> refunds[id].id == id
      modifies this
      ensures State() == Serve(old(State()), ApproveRefund(refundId, approvedBy, now))
      ensures reply == if refundId in refunds then Ok(refunds[refundId]) else Err(RefundNotFound)
    {
      if refundId !in refunds {
        return Err(RefundNotFound);
      }
      var existing := refunds[refundId];
      if existing.status == Completed {
        return Ok(existing);
      }
      var completed := existing.(status := Completed, approvedBy := Some(approvedBy), updatedAt := now);
      refunds := refunds[completed.id := completed];
      events := events + [RefundCompletedEvent(completed.id, completed.orderId, completed.intentId, completed.amount)];
      AppendAuditRecord(Audit(completed.orderId, AuditRefundCompleted, completed.id, completed.reasonCode, now));
      return Ok(completed);
    }
  }
}

/** Which payment requests succeed, and which requests the entries of the books stem from. */
module PaymentHistory {
  import opened Collections
  import opened DomainEvents
  import opened Payments

  // ----- which requests succeed -----

  /** Before dispatch has found a courier, and after the merchant has accepted. */
  predicate Capturable(orderStatus: Option<OrderStatus>) {
    orderStatus == Some(MerchantAccepted) || orderStatus == Some(DispatchPending)
  }

  /** A capture under a new key succeeds exactly when intent and order exist and the intent is
      captured already or its order capturable; the intent it answers is then captured, and
      newly so exactly in the second case. */
  lemma CaptureSucceedsIff(b: Books, id: string, key: string, orderStatus: Option<OrderStatus>, now: int)
    requires Sound(b) && key !in b.captures
    ensures var r := Capture(id, key, orderStatus, now);
            var reply := CaptureReply(b, r);
            && (reply.Ok? <==>
                  id in b.intents.data && orderStatus.Some?
                  && (b.intents.data[id].status == Captured || Capturable(orderStatus)))
            && (reply == Err(IntentNotFound) <==> id !in b.intents.data)
            && (reply == Err(OrderNotFound) <==> id in b.intents.data && orderStatus.None?)
            && (reply.Ok? ==>
                  var i, j := b.intents.data[id], reply.value;
                  && j.status == Captured && Serve(b, r).intents.Get(id) == Some(j)
                  && (i.status == Captured ==> j == i && Serve(b, r).events == b.events)
                  && (i.status != Captured ==>
                        && j == i.(status := Captured, updatedAt := now)
                        && |Serve(b, r).events| == |b.events| + 2
                        && Serve(b, r).events[|b.events|] == CapturedEvent(i.orderId, id, i.amount, key)))
            && (reply.Err? ==> Serve(b, r) == b)
  {
    assert IntentInvariant(b, id);
  }

  /** A refund may be requested exactly on a captured intent of that order, for a positive
      amount up to the intent's. */
  lemma RefundIsAcceptedIff(b: Books, r: Request)
    requires Sound(b) && r.RequestRefund?
    ensures Refusal(b, r) == None <==>
              && r.intentId in b.intents.data
              && var i := b.intents.data[r.intentId];
                 i.status == Captured && i.orderId == r.orderId && 0 < r.amount <= i.amount
    ensures Refusal(b, r) == Some(IntentNotFound) <==> r.intentId !in b.intents.data
    ensures Refusal(b, r) == Some(RefundAmountInvalid) <==>
              && r.intentId in b.intents.data
              && var i := b.intents.data[r.intentId];
                 i.status == Captured && i.orderId == r.orderId && !(0 < r.amount <= i.amount)
    ensures Refusal(b, r).None? ==>
              && r.newId in Serve(b, r).refunds
              && var f := Serve(b, r).refunds[r.newId];
                 && f.orderId == r.orderId && f.intentId == r.intentId && f.amount == r.amount
                 && f.reasonCode == r.reasonCode && f.requestedBy == r.requestedBy
                 && f.status == Requested && f.approvedBy == None && f.createdAt == r.at
  {
  }

  /** The first approval of a refund completes it and names its approver; a later one changes
      nothing; an unknown refund cannot be approved. */
  lemma FirstApprovalCompletes(b: Books, id: string, approvedBy: string, now: int)
    requires Sound(b)
    ensures var r := ApproveRefund(id, approvedBy, now);
            && (Refusal(b, r) == None <==> id in b.refunds)
            && (id in b.refunds && b.refunds[id].status == Completed ==> Serve(b, r) == b)
            && (id in b.refunds && b.refunds[id].status == Requested ==>
                  && id in Serve(b, r).refunds
                  && Serve(b, r).refunds[id].status == Completed
                  && Serve(b, r).refunds[id].approvedBy == Some(approvedBy)
                  && |Serve(b, r).events| == |b.events| + 2
                  && Serve(b, r).events[|b.events|] ==
                       RefundCompletedEvent(id, b.refunds[id].orderId, b.refunds[id].intentId, b.refunds[id].amount))
  {
    assert RefundInvariant(b, id);
  }

  /** A payment is authorised exactly for a known order and any method but cash; cash is
      expected exactly for a known order. */
  lemma NewIntentsAreAcceptedIff(b: Books, r: Request)
    requires Sound(b)
    ensures r.Authorize? ==>
              && (Refusal(b, r) == None <==> r.orderExists && r.paymentMethod in {Card, ApplePay, GooglePay})
              && (Refusal(b, r) == Some(OrderNotFound) <==> !r.orderExists)
    ensures r.ExpectCash? ==> (Refusal(b, r) == None <==> r.orderExists)
    ensures (r.Authorize? || r.ExpectCash?) && Refusal(b, r) == None ==>
              && r.newId in Serve(b, r).intents.data
              && MadeIntent(r, Serve(b, r).intents.data[r.newId])
              && Serve(b, r).intents.data[r.newId].status == (if r.Authorize? then Authorized else Initiated)
              && |Serve(b, r).events| == |b.events| + 2 && |Serve(b, r).audits| == |b.audits| + 1
  {
  }

  /** Cash is collected exactly for an order with a cash intent: the earliest one is captured,
      and the mismatch is announced and recorded exactly when another amount was collected. */
  lemma CashIsCollectedIff(b: Books, r: Request)
    requires Sound(b) && r.ConfirmCash?
    ensures Refusal(b, r) == None <==>
              exists i :: i in b.intents.Values() && i.orderId == r.orderId && i.paymentMethod == Cash
    ensures Refusal(b, r) == None ==>
              var values, c := b.intents.Values(), Serve(b, r);
              exists k: nat ::
                && k < |values| && values[k].orderId == r.orderId && values[k].paymentMethod == Cash
                && (forall j :: 0 <= j < k ==> values[j].orderId != r.orderId || values[j].paymentMethod != Cash)
                && c.intents.Get(values[k].id) == Some(values[k].(status := Captured, updatedAt := r.at))
                && CollectionShows(b, c, r, values[k])
  {
    var values := b.intents.Values();
    var k := FirstMatch(values, r.orderId, Cash);
    if k < |values| {
      assert values[k] in values;
      CashInvariants(b, r);
      CashServed(b, r, values[k]);
      CollectionIsShown(b, r, values[k]);
    }
  }

  lemma CollectionIsShown(b: Books, r: Request, i: Intent)
    requires Sound(b) && r.ConfirmCash? && Refusal(b, r).None?
    requires i == b.intents.Values()[FirstMatch(b.intents.Values(), r.orderId, Cash)]
    ensures CollectionShows(b, Serve(b, r), r, i)
  {
    CashServed(b, r, i);
  }

  ghost predicate CollectionShows(b: Books, c: Books, r: Request, i: Intent)
    requires r.ConfirmCash?
  {
    var same := i.amount == r.collected;
    && |c.events| == |b.events| + (if same then 2 else 4)
    && c.events[|b.events|] == CashCollectedEvent(r.orderId, i.id, i.amount, r.collected, r.courierId, !same)
    && |c.audits| == |b.audits| + (if same then 1 else 2)
    && c.audits[|b.audits|] ==
         Audit(r.orderId, AuditCashCollected, i.id,
               if same then "CASH_COLLECTION_MATCHED" else "CASH_COLLECTION_MISMATCH", r.at)
    && (!same ==>
          && c.events[|b.events| + 2] == CashMismatchEvent(r.orderId, i.id, i.amount, r.collected, r.courierId)
          && c.audits[|b.audits| + 1].action == AuditCashMismatch && c.audits[|b.audits| + 1].targetId == i.id)
  }

  // ----- which requests the entries stem from -----

  /** The request that made an intent. */
  predicate MadeIntent(r: Request, i: Intent) {
    || (r.Authorize? && r.orderExists && i.paymentMethod == r.paymentMethod != Cash
        && i.orderId == r.orderId && i.amount == r.amount && i.currency == r.currency
        && i.id == r.newId && i.providerReference == Some(r.providerReference) && i.createdAt == r.at)
    || (r.ExpectCash? && r.orderExists && i.paymentMethod == Cash
        && i.orderId == r.orderId && i.amount == r.amount && i.currency == r.currency
        && i.id == r.newId && i.providerReference == None && i.createdAt == r.at)
  }

  predicate MadeRefund(r: Request, f: Refund) {
    && r.RequestRefund? && f.id == r.newId && f.orderId == r.orderId && f.intentId == r.intentId
    && f.amount == r.amount && f.reasonCode == r.reasonCode && f.requestedBy == r.requestedBy && f.createdAt == r.at
  }

  predicate MadeCapture(r: Request, e: PaymentEvent)
    requires e.CapturedEvent?
  {
    r.Capture? && r.intentId == e.intentId && r.idempotencyKey == e.idempotencyKey && Capturable(r.orderStatus)
  }

  predicate MadeCompletion(r: Request, f: Refund) {
    r.ApproveRefund? && r.refundId == f.id && f.approvedBy == Some(r.approvedBy)
  }

  ghost predicate IntentStems(requests: seq<Request>, i: Intent) {
    exists k :: 0 <= k < |requests| && MadeIntent(requests[k], i)
  }

  ghost predicate RefundStems(requests: seq<Request>, f: Refund) {
    && (exists k :: 0 <= k < |requests| && MadeRefund(requests[k], f))
    && (f.status == Completed ==> exists k :: 0 <= k < |requests| && MadeCompletion(requests[k], f))
    && (f.status == Requested ==> f.approvedBy == None)
  }

  ghost predicate EventStems(requests: seq<Request>, e: PaymentEvent) {
    e.CapturedEvent? ==> exists k :: 0 <= k < |requests| && MadeCapture(requests[k], e)
  }

  lemma IntentStemsLonger(requests: seq<Request>, r: Request, i: Intent)
    requires IntentStems(requests, i) || MadeIntent(r, i)
    ensures IntentStems(requests + [r], i)
  {
    if MadeIntent(r, i) {
      assert MadeIntent((requests + [r])[|requests|], i);
    } else {
      var k :| 0 <= k < |requests| && MadeIntent(requests[k], i);
      assert MadeIntent((requests + [r])[k], i);
    }
  }

  lemma RefundStemsLonger(requests: seq<Request>, r: Request, f: Refund)
    requires RefundStems(requests, f)
    ensures RefundStems(requests + [r], f)
  {
    var k :| 0 <= k < |requests| && MadeRefund(requests[k], f);
    assert MadeRefund((requests + [r])[k], f);
    if f.status == Completed {
      var j :| 0 <= j < |requests| && MadeCompletion(requests[j], f);
      assert MadeCompletion((requests + [r])[j], f);
    }
  }

  lemma EventStemsLonger(requests: seq<Request>, r: Request, e: PaymentEvent)
    requires EventStems(requests, e) || (e.CapturedEvent? && MadeCapture(r, e))
    ensures EventStems(requests + [r], e)
  {
    if e.CapturedEvent? {
      if MadeCapture(r, e) {
        assert MadeCapture((requests + [r])[|requests|], e);
      } else {
        var k :| 0 <= k < |requests| && MadeCapture(requests[k], e);
        assert MadeCapture((requests + [r])[k], e);
      }
    }
  }

  /** What a request leaves under an intent identifier: what was there, up to progress, or the
      intent it makes. */
  lemma ServedIntent(b: Books, r: Request, id: string)
    requires Sound(b) && Enabled(b, r) && id in Serve(b, r).intents.data
    ensures var j := Serve(b, r).intents.data[id];
            || (id in b.intents.data && j == b.intents.data[id].(status := j.status, updatedAt := j.updatedAt))
            || MadeIntent(r, j)
  {
    if r.ConfirmCash? && Refusal(b, r).None? {
      var k := FirstMatch(b.intents.Values(), r.orderId, Cash);
      assert b.intents.keys[k] in b.intents.keys;
      assert IntentInvariant(b, b.intents.keys[k]);
    }
    assert IntentInvariant(b, id);
    if r.Capture? && r.intentId in b.intents.data { assert IntentInvariant(b, r.intentId); }
  }

  lemma ServedRefund(b: Books, r: Request, id: string)
    requires Sound(b) && Enabled(b, r) && id in Serve(b, r).refunds
    ensures var f := Serve(b, r).refunds[id];
            || (id in b.refunds && f == b.refunds[id])
            || (id in b.refunds && b.refunds[id].status == Requested && MadeCompletion(r, f) && f.status == Completed
                && f == b.refunds[id].(status := Completed, approvedBy := f.approvedBy, updatedAt := f.updatedAt))
            || (MadeRefund(r, f) && f.status == Requested && f.approvedBy == None)
  {
    if r.ApproveRefund? { assert RefundInvariant(b, r.refundId); }
  }

  lemma ServedEvents(b: Books, r: Request, e: PaymentEvent)
    requires Sound(b) && Enabled(b, r) && e in Serve(b, r).events && e.CapturedEvent?
    ensures e in b.events || MadeCapture(r, e)
  {
    match r
    case Capture(_, _, _, _) => CaptureAnnounces(b, r, e);
    case ConfirmCash(_, _, _, _) => CashAnnouncesNoCapture(b, r, e);
    case _ =>
  }

  lemma CaptureAnnounces(b: Books, r: Request, e: PaymentEvent)
    requires Sound(b) && r.Capture? && e in Serve(b, r).events && e.CapturedEvent?
    ensures e in b.events || MadeCapture(r, e)
  {
    if r.intentId in b.intents.data { assert IntentInvariant(b, r.intentId); }
  }

  lemma CashAnnouncesNoCapture(b: Books, r: Request, e: PaymentEvent)
    requires Sound(b) && r.ConfirmCash? && e in Serve(b, r).events && e.CapturedEvent?
    ensures e in b.events
  {
    if Refusal(b, r).None? { CashServed(b, r, b.intents.Values()[FirstMatch(b.intents.Values(), r.orderId, Cash)]); }
  }

  lemma ProgressStems(requests: seq<Request>, i: Intent, j: Intent)
    requires IntentStems(requests, i) && j == i.(status := j.status, updatedAt := j.updatedAt)
    ensures IntentStems(requests, j)
  {
    var k :| 0 <= k < |requests| && MadeIntent(requests[k], i);
    assert MadeIntent(requests[k], j);
  }

  lemma RefundProgressStems(requests: seq<Request>, r: Request, f: Refund, g: Refund)
    requires RefundStems(requests, f) && f.status == Requested && g.status == Completed && MadeCompletion(r, g)
    requires g == f.(status := Completed, approvedBy := g.approvedBy, updatedAt := g.updatedAt)
    ensures RefundStems(requests + [r], g)
  {
    var k :| 0 <= k < |requests| && MadeRefund(requests[k], f);
    assert MadeRefund((requests + [r])[k], g);
    assert MadeCompletion((requests + [r])[|requests|], g);
  }

  lemma NewRefundStems(requests: seq<Request>, r: Request, f: Refund)
    requires MadeRefund(r, f) && f.status == Requested && f.approvedBy == None
    ensures RefundStems(requests + [r], f)
  {
    assert MadeRefund((requests + [r])[|requests|], f);
  }

  ghost predicate AllStem(requests: seq<Request>, b: Books) {
    && (forall id :: id in b.intents.data ==> IntentStems(requests, b.intents.data[id]))
    && (forall id :: id in b.refunds ==> RefundStems(requests, b.refunds[id]))
    && (forall e :: e in b.events ==> EventStems(requests, e))
  }

  lemma {:induction false} StemsLonger(requests: seq<Request>, r: Request, b: Books)
    requires AllStem(requests, b)
    ensures AllStem(requests + [r], b)
  {
    forall id | id in b.intents.data ensures IntentStems(requests + [r], b.intents.data[id]) {
      IntentStemsLonger(requests, r, b.intents.data[id]);
    }
    forall id | id in b.refunds ensures RefundStems(requests + [r], b.refunds[id]) {
      RefundStemsLonger(requests, r, b.refunds[id]);
    }
    forall e | e in b.events ensures EventStems(requests + [r], e) { EventStemsLonger(requests, r, e); }
  }

  lemma {:induction false} ServingStems(requests: seq<Request>, r: Request, b: Books)
    requires Sound(b) && Enabled(b, r) && AllStem(requests, b)
    ensures AllStem(requests + [r], Serve(b, r))
  {
    var c := Serve(b, r);
    forall id | id in c.intents.data ensures IntentStems(requests + [r], c.intents.data[id]) {
      ServedIntent(b, r, id);
      if !MadeIntent(r, c.intents.data[id]) { ProgressStems(requests, b.intents.data[id], c.intents.data[id]); }
      IntentStemsLonger(requests, r, c.intents.data[id]);
    }
    forall id | id in c.refunds ensures RefundStems(requests + [r], c.refunds[id]) {
      ServedRefund(b, r, id);
      if id in b.refunds && c.refunds[id] == b.refunds[id] {
        RefundStemsLonger(requests, r, c.refunds[id]);
      } else if MadeRefund(r, c.refunds[id]) {
        NewRefundStems(requests, r, c.refunds[id]);
      } else {
        RefundProgressStems(requests, r, b.refunds[id], c.refunds[id]);
      }
    }
    forall e | e in c.events ensures EventStems(requests + [r], e) {
      if e.CapturedEvent? {
        ServedEvents(b, r, e);
        EventStemsLonger(requests, r, e);
      }
    }
  }

  lemma {:induction false} LongerBooksStem(requests: seq<Request>)
    requires requests != [] && AllStem(requests[..|requests| - 1], BooksAfter(requests[..|requests| - 1]))
    ensures AllStem(requests, BooksAfter(requests))
  {
    var init, r := requests[..|requests| - 1], requests[|requests| - 1];
    var b := BooksAfter(init);
    OneMoreRequest(init, r);
    assert init + [r] == requests;
    if Enabled(b, r) { ServingStems(init, r, b); } else { StemsLonger(init, r, b); }
  }

  lemma {:induction false} OneMoreRequest(requests: seq<Request>, r: Request)
    ensures var b := BooksAfter(requests);
            BooksAfter(requests + [r]) == if Enabled(b, r) then Serve(b, r) else b
  {
    assert (requests + [r])[..|requests|] == requests;
  }

  /** In every run each intent was made by a request for a known order with its order, amount,
      currency and method; each refund was requested as it stands and, if completed, approved
      by the one it names; and each capture announced was requested while its order could be
      captured. */
  lemma {:induction false} BooksStemFromRequests(requests: seq<Request>)
    ensures AllStem(requests, BooksAfter(requests))
  {
    if requests != [] {
      BooksStemFromRequests(requests[..|requests| - 1]);
      LongerBooksStem(requests);
    }
  }

  // ----- the audit trail and the events -----

  predicate OnRefund(a: Audit) {
    a.action == AuditRefundRequested || a.action == AuditRefundCompleted
  }

  predicate ReasonFits(a: Audit) {
    match a.action
    case AuditAuthorized => a.reasonCode == "PAYMENT_AUTHORIZED"
    case AuditCaptured => a.reasonCode == "PAYMENT_CAPTURED"
    case AuditCashExpected => a.reasonCode == "CASH_EXPECTED"
    case AuditCashCollected => a.reasonCode in {"CASH_COLLECTION_MATCHED", "CASH_COLLECTION_MISMATCH"}
    case AuditCashMismatch => a.reasonCode == "CASH_MISMATCH_DETECTED"
    case _ => true
  }

  /** An audit record names the order of the intent or refund it is about, gives the reason
      of its kind, and was announced. */
  ghost predicate Truthful(b: Books, a: Audit) {
    && AuditRecordedEvent(a) in b.events
    && ReasonFits(a)
    && (OnRefund(a) ==> a.targetId in b.refunds && a.orderId == b.refunds[a.targetId].orderId
                        && a.reasonCode == b.refunds[a.targetId].reasonCode)
    && (!OnRefund(a) ==> a.targetId in b.intents.data && a.orderId == b.intents.data[a.targetId].orderId)
  }

  /** The intent an event names has that order and amount. */
  ghost predicate TellsIntent(b: Books, id: string, orderId: string, amount: int) {
    id in b.intents.data && b.intents.data[id].orderId == orderId && b.intents.data[id].amount == amount
  }

  /** An event tells what the books hold. */
  ghost predicate Telling(b: Books, e: PaymentEvent) {
    match e
    case AuthorizedEvent(orderId, id, amount) =>
      TellsIntent(b, id, orderId, amount) && b.intents.data[id].paymentMethod != Cash
    case CapturedEvent(orderId, id, amount, _) =>
      TellsIntent(b, id, orderId, amount) && b.intents.data[id].status == Captured
    case CashExpectedEvent(orderId, id, amount) =>
      TellsIntent(b, id, orderId, amount) && b.intents.data[id].paymentMethod == Cash
    case CashCollectedEvent(orderId, id, amount, collected, _, mismatch) =>
      TellsIntent(b, id, orderId, amount) && b.intents.data[id].status == Captured
      && (mismatch <==> collected != amount)
    case CashMismatchEvent(orderId, id, amount, collected, _) =>
      TellsIntent(b, id, orderId, amount) && collected != amount
    case RefundCompletedEvent(id, orderId, intentId, amount) =>
      id in b.refunds && b.refunds[id].status == Completed && b.refunds[id].orderId == orderId
      && b.refunds[id].intentId == intentId && b.refunds[id].amount == amount
    case AuditRecordedEvent(a) => a in b.audits
  }

  ghost predicate AllTold(b: Books) {
    && (forall a :: a in b.audits ==> Truthful(b, a))
    && (forall e :: e in b.events ==> Telling(b, e))
  }

  lemma CashInvariants(b: Books, r: Request)
    requires Sound(b) && r.ConfirmCash? && Refusal(b, r).None?
    ensures var i := b.intents.Values()[FirstMatch(b.intents.Values(), r.orderId, Cash)];
            && i.id in b.intents.data && b.intents.data[i.id] == i && i.orderId == r.orderId && i.paymentMethod == Cash
            && IntentInvariant(b, i.id)
  {
    var k := FirstMatch(b.intents.Values(), r.orderId, Cash);
    assert b.intents.keys[k] in b.intents.keys;
    assert IntentInvariant(b, b.intents.keys[k]);
  }

  /** The books a cash collection leaves. */
  lemma CashServed(b: Books, r: Request, i: Intent)
    requires Sound(b) && r.ConfirmCash? && Refusal(b, r).None?
    requires i == b.intents.Values()[FirstMatch(b.intents.Values(), r.orderId, Cash)]
    ensures var c := Serve(b, r);
            var mismatch := i.amount != r.collected;
            var a := Audit(r.orderId, AuditCashCollected, i.id,
                           if mismatch then "CASH_COLLECTION_MISMATCH" else "CASH_COLLECTION_MATCHED", r.at);
            var a2 := Audit(r.orderId, AuditCashMismatch, i.id, "CASH_MISMATCH_DETECTED", r.at);
            && c.intents == b.intents.Put(i.id, i.(status := Captured, updatedAt := r.at))
            && c.refunds == b.refunds && c.captures == b.captures
            && c.audits == b.audits + (if mismatch then [a, a2] else [a])
            && c.events == b.events +
                 [CashCollectedEvent(r.orderId, i.id, i.amount, r.collected, r.courierId, mismatch),
                  AuditRecordedEvent(a)]
                 + if mismatch
                   then [CashMismatchEvent(r.orderId, i.id, i.amount, r.collected, r.courierId), AuditRecordedEvent(a2)]
                   else []
  {
  }

  lemma CashRecord(b: Books, r: Request, a: Audit)
    requires Sound(b) && r.ConfirmCash?
    requires a in Serve(b, r).audits && a !in b.audits
    ensures Truthful(Serve(b, r), a)
  {
    if Refusal(b, r).None? {
      CashInvariants(b, r);
      CashServed(b, r, b.intents.Values()[FirstMatch(b.intents.Values(), r.orderId, Cash)]);
    }
  }

  lemma CashEvent(b: Books, r: Request, e: PaymentEvent)
    requires Sound(b) && r.ConfirmCash?
    requires e in Serve(b, r).events && e !in b.events
    ensures Telling(Serve(b, r), e)
  {
    if Refusal(b, r).None? {
      CashInvariants(b, r);
      CashServed(b, r, b.intents.Values()[FirstMatch(b.intents.Values(), r.orderId, Cash)]);
    }
  }

  lemma CaptureRecord(b: Books, r: Request, a: Audit)
    requires Sound(b) && r.Capture?
    requires a in Serve(b, r).audits && a !in b.audits
    ensures Truthful(Serve(b, r), a)
  {
    if r.intentId in b.intents.data { assert IntentInvariant(b, r.intentId); }
  }

  lemma CaptureEvent(b: Books, r: Request, e: PaymentEvent)
    requires Sound(b) && r.Capture?
    requires e in Serve(b, r).events && e !in b.events
    ensures Telling(Serve(b, r), e)
  {
    if r.intentId in b.intents.data { assert IntentInvariant(b, r.intentId); }
  }

  lemma AuthorizeRecord(b: Books, r: Request, a: Audit)
    requires Sound(b) && r.Authorize?
    requires a in Serve(b, r).audits && a !in b.audits
    ensures Truthful(Serve(b, r), a)
  {
  }

  lemma AuthorizeEvent(b: Books, r: Request, e: PaymentEvent)
    requires Sound(b) && r.Authorize?
    requires e in Serve(b, r).events && e !in b.events
    ensures Telling(Serve(b, r), e)
  {
  }

  lemma ExpectationRecord(b: Books, r: Request, a: Audit)
    requires Sound(b) && r.ExpectCash?
    requires a in Serve(b, r).audits && a !in b.audits
    ensures Truthful(Serve(b, r), a)
  {
  }

  lemma ExpectationEvent(b: Books, r: Request, e: PaymentEvent)
    requires Sound(b) && r.ExpectCash?
    requires e in Serve(b, r).events && e !in b.events
    ensures Telling(Serve(b, r), e)
  {
  }

  lemma RefundRecord(b: Books, r: Request, a: Audit)
    requires Sound(b) && (r.RequestRefund? || r.ApproveRefund?)
    requires a in Serve(b, r).audits && a !in b.audits
    ensures Truthful(Serve(b, r), a)
  {
    if r.ApproveRefund? { assert RefundInvariant(b, r.refundId); }
  }

  lemma RefundEvent(b: Books, r: Request, e: PaymentEvent)
    requires Sound(b) && (r.RequestRefund? || r.ApproveRefund?)
    requires e in Serve(b, r).events && e !in b.events
    ensures Telling(Serve(b, r), e)
  {
    if r.ApproveRefund? { assert RefundInvariant(b, r.refundId); }
  }

  /** What a request adds is told truthfully in the books it leaves. */
  lemma ServedRecord(b: Books, r: Request, a: Audit)
    requires Sound(b) && a in Serve(b, r).audits && a !in b.audits
    ensures Truthful(Serve(b, r), a)
  {
    match r
    case Capture(_, _, _, _) => CaptureRecord(b, r, a);
    case ConfirmCash(_, _, _, _) => CashRecord(b, r, a);
    case Authorize(_, _, _, _, _, _, _, _) => AuthorizeRecord(b, r, a);
    case ExpectCash(_, _, _, _, _, _) => ExpectationRecord(b, r, a);
    case _ => RefundRecord(b, r, a);
  }

  lemma ServedEvent(b: Books, r: Request, e: PaymentEvent)
    requires Sound(b) && e in Serve(b, r).events && e !in b.events
    ensures Telling(Serve(b, r), e)
  {
    match r
    case Capture(_, _, _, _) => CaptureEvent(b, r, e);
    case ConfirmCash(_, _, _, _) => CashEvent(b, r, e);
    case Authorize(_, _, _, _, _, _, _, _) => AuthorizeEvent(b, r, e);
    case ExpectCash(_, _, _, _, _, _) => ExpectationEvent(b, r, e);
    case _ => RefundEvent(b, r, e);
  }

  /** Books only grow: entries stay, and keep what events and records tell of them. */
  ghost predicate Stay(b: Books, c: Books) {
    && (forall e :: e in b.events ==> e in c.events)
    && (forall a :: a in b.audits ==> a in c.audits)
    && (forall id :: id in b.intents.data ==>
          id in c.intents.data
          && c.intents.data[id].orderId == b.intents.data[id].orderId
          && c.intents.data[id].amount == b.intents.data[id].amount
          && c.intents.data[id].paymentMethod == b.intents.data[id].paymentMethod
          && (b.intents.data[id].status == Captured ==> c.intents.data[id].status == Captured))
    && (forall id :: id in b.refunds ==>
          id in c.refunds
          && c.refunds[id].orderId == b.refunds[id].orderId && c.refunds[id].intentId == b.refunds[id].intentId
          && c.refunds[id].amount == b.refunds[id].amount && c.refunds[id].reasonCode == b.refunds[id].reasonCode
          && (b.refunds[id].status == Completed ==> c.refunds[id].status == Completed))
  }

  lemma CaptureStays(b: Books, r: Request)
    requires Sound(b) && r.Capture?
    ensures Stay(b, Serve(b, r))
  {
    if r.intentId in b.intents.data { assert IntentInvariant(b, r.intentId); }
  }

  lemma CashStays(b: Books, r: Request)
    requires Sound(b) && r.ConfirmCash?
    ensures Stay(b, Serve(b, r))
  {
    if Refusal(b, r).None? {
      CashInvariants(b, r);
      CashServed(b, r, b.intents.Values()[FirstMatch(b.intents.Values(), r.orderId, Cash)]);
    }
  }

  lemma NewIntentStays(b: Books, r: Request)
    requires Sound(b) && Enabled(b, r) && (r.Authorize? || r.ExpectCash?)
    ensures Stay(b, Serve(b, r))
  {
  }

  lemma RefundStays(b: Books, r: Request)
    requires Sound(b) && Enabled(b, r) && (r.RequestRefund? || r.ApproveRefund?)
    ensures Stay(b, Serve(b, r))
  {
    if r.ApproveRefund? { assert RefundInvariant(b, r.refundId); }
  }

  lemma ServingStays(b: Books, r: Request)
    requires Sound(b) && Enabled(b, r)
    ensures Stay(b, Serve(b, r))
  {
    match r
    case Capture(_, _, _, _) => CaptureStays(b, r);
    case ConfirmCash(_, _, _, _) => CashStays(b, r);
    case Authorize(_, _, _, _, _, _, _, _) => NewIntentStays(b, r);
    case ExpectCash(_, _, _, _, _, _) => NewIntentStays(b, r);
    case _ => RefundStays(b, r);
  }

  lemma TellingStays(b: Books, c: Books, e: PaymentEvent)
    requires Stay(b, c) && Telling(b, e)
    ensures Telling(c, e)
  {
  }

  lemma TruthStays(b: Books, c: Books, a: Audit)
    requires Stay(b, c) && Truthful(b, a)
    ensures Truthful(c, a)
  {
  }

  /** In every run each audit record was announced, gives the reason of its kind and names the
      order of what it is about, and each event tells what the books hold. */
  lemma {:induction false} EventsAndTrailAreTruthful(requests: seq<Request>)
    ensures AllTold(BooksAfter(requests))
  {
    if requests != [] {
      var init, r := requests[..|requests| - 1], requests[|requests| - 1];
      EventsAndTrailAreTruthful(init);
      var b := BooksAfter(init);
      OneMoreRequest(init, r);
      assert init + [r] == requests;
      if Enabled(b, r) {
        var c := Serve(b, r);
        ServingStays(b, r);
        forall a | a in c.audits ensures Truthful(c, a) {
          if a in b.audits { TruthStays(b, c, a); } else { ServedRecord(b, r, a); }
        }
        forall e | e in c.events ensures Telling(c, e) {
          if e in b.events { TellingStays(b, c, e); } else { ServedEvent(b, r, e); }
        }
      }
    }
  }

  /** The request that made an audit record. */
  predicate MadeAudit(r: Request, a: Audit) {
    && a.at == r.at
    && match a.action
       case AuditAuthorized => r.Authorize? && a.targetId == r.newId
       case AuditCaptured => r.Capture? && a.targetId == r.intentId
       case AuditCashExpected => r.ExpectCash? && a.targetId == r.newId
       case AuditCashCollected => r.ConfirmCash? && a.orderId == r.orderId
       case AuditCashMismatch => r.ConfirmCash? && a.orderId == r.orderId
       case AuditRefundRequested => r.RequestRefund? && a.targetId == r.newId
       case AuditRefundCompleted => r.ApproveRefund? && a.targetId == r.refundId
  }

  ghost predicate AuditStems(requests: seq<Request>, a: Audit) {
    exists k :: 0 <= k < |requests| && MadeAudit(requests[k], a)
  }

  lemma ServedAuditStems(b: Books, r: Request, a: Audit)
    requires Sound(b) && Enabled(b, r) && a in Serve(b, r).audits && a !in b.audits
    ensures MadeAudit(r, a)
  {
    if r.Capture? && r.intentId in b.intents.data { assert IntentInvariant(b, r.intentId); }
    if r.ApproveRefund? { assert RefundInvariant(b, r.refundId); }
  }

  /** In every run each audit record stems from a request of its kind, made at its time. */
  lemma {:induction false} AuditTrailStemsFromRequests(requests: seq<Request>, a: Audit)
    requires a in BooksAfter(requests).audits
    ensures AuditStems(requests, a)
  {
    var init, r := requests[..|requests| - 1], requests[|requests| - 1];
    var b := BooksAfter(init);
    OneMoreRequest(init, r);
    assert init + [r] == requests;
    if a in b.audits {
      AuditTrailStemsFromRequests(init, a);
      var k :| 0 <= k < |init| && MadeAudit(init[k], a);
      assert MadeAudit(requests[k], a);
    } else {
      ServedAuditStems(b, r, a);
      assert MadeAudit(requests[|requests| - 1], a);
    }
  }
}

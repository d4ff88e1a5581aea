/** The webhook (`callback`): signature check, reference and amount guards,
    and the mapping of the remote application status onto the local order.
    Sending the JSON acknowledgement ends the request. */
module Webhook {
  import opened Wrappers
  import opened OrderStore

  const Accepted := "ACCEPTED"
  const Declined := "DECLINED"
  const Referred := "REFERRED"
  const Signed := "SIGNED"
  const Ready := "READY"

  /** The decoded notification. `orderNumber` 0 stands for a missing or falsy
      `metadata.order_number`; a missing `application` is `None`. */
  datatype Payload = Payload(application: Option<string>, status: string, orderNumber: OrderId)

  /** What the request answers: nothing, a JSON acknowledgement
      `{status, message}`, or an uncaught error (loading an order that does not
      exist throws). */
  datatype Reply = NoReply | Ack(ackStatus: string, message: string) | Fatal

  datatype CallbackResult = CallbackResult(store: Store, reply: Reply)

  const OkAck := Ack("ok", "")
  const HashErrorAck := Ack("error", "Invalid Hash error")

  /** A secret is configured and the header is not exactly the signature of
      the raw body. `sign` is the HMAC-SHA256/Base64 signature function. */
  predicate SignatureRejected(secret: string, header: Option<string>, body: string, sign: (string, string) -> string)
  {
    secret != "" && header.GetOr("") != sign(body, secret)
  }

  /** The local status each handled remote status maps to (READY instead
      completes the payment). */
  function MappedStatus(remote: string): Option<string>
  {
    if remote == Declined then Some(Failed)
    else if remote == Signed then Some(Processing)
    else if remote == Referred then Some(OnHold)
    else if remote == Accepted then Some(PendingPayment)
    else None
  }

  /** The callback. `body` is the raw request body, `payload` its decoding
      (`None` when it is not a JSON object). */
  function Callback(secret: string, header: Option<string>, body: string, payload: Option<Payload>,
                    store: Store, sign: (string, string) -> string): (r: CallbackResult)
    ensures r.store.meta == store.meta
    ensures r.store.orders.Keys == store.orders.Keys
    ensures forall m :: m in store.orders ==> r.store.orders[m].totalCents == store.orders[m].totalCents
    ensures forall m :: m in store.orders && (payload.None? || m != payload.value.orderNumber)
              ==> r.store.orders[m] == store.orders[m]
  {
    if SignatureRejected(secret, header, body, sign) then
      if payload.Some? && payload.value.orderNumber != 0 then
        var n := payload.value.orderNumber;
        if n in store.orders then CallbackResult(AddNote(store, n, SharedSecretError), HashErrorAck)
        else CallbackResult(store, Fatal)
      else CallbackResult(store, NoReply)
    else if payload.None? || payload.value.orderNumber == 0 then CallbackResult(store, NoReply)
    else Reconcile(payload.value, store)
  }

  /** The stored reference exists and equals the notification's application. */
  predicate ReferenceMatches(p: Payload, store: Store)
  {
    MetaOf(store, p.orderNumber).reference.Some? && p.application == MetaOf(store, p.orderNumber).reference
  }

  /** The stored `_finance_amount` is exactly the order total's text. */
  predicate AmountMatches(n: OrderId, store: Store)
    requires n in store.orders
  {
    MetaOf(store, n).amount == Some(store.orders[n].TotalText())
  }

  function Reconcile(p: Payload, store: Store): CallbackResult
  {
    var n := p.orderNumber;
    if !ReferenceMatches(p, store) then CallbackResult(store, NoReply)
    else if n !in store.orders then CallbackResult(store, Fatal)
    else if !AmountMatches(n, store) then
      CallbackResult(AddNote(SetStatus(store, n, OnHold), n, AmountMismatch), OkAck)
    else ApplyStatus(p.status, n, store)
  }

  function ApplyStatus(remote: string, n: OrderId, store: Store): CallbackResult
    requires n in store.orders
  {
    if remote == Declined then CallbackResult(SetStatus(store, n, Failed), OkAck)
    else if remote == Signed then CallbackResult(SetStatus(store, n, Processing), OkAck)
    else if remote == Ready then
      CallbackResult(PaymentComplete(AddNote(store, n, FinanceStatus(remote)), n), OkAck)
    else if remote == Referred then
      CallbackResult(SetStatus(AddNote(store, n, FinanceStatus(remote)), n, OnHold), OkAck)
    else if remote == Accepted then
      CallbackResult(SetStatus(AddNote(store, n, FinanceStatus(remote)), n, PendingPayment), OkAck)
    else
      CallbackResult(AddNote(store, n, StatusLabel(remote)), NoReply)
  }

  /** A rejected signature changes no order's status or meta. At
      most the shared-secret note is added, and only then is the error
      acknowledgement sent: exactly when the payload names an existing order. */
  lemma SignatureMismatchChangesNoStatus(secret: string, header: Option<string>, body: string,
                                         payload: Option<Payload>, store: Store, sign: (string, string) -> string)
    requires SignatureRejected(secret, header, body, sign)
    ensures var r := Callback(secret, header, body, payload, store, sign);
      && Decisions(r.store) == Decisions(store)
      && (r.reply == HashErrorAck <==>
            payload.Some? && payload.value.orderNumber != 0 && payload.value.orderNumber in store.orders)
      && (r.reply == HashErrorAck ==>
            r.store == AddNote(store, payload.value.orderNumber, SharedSecretError))
      && (r.reply != HashErrorAck ==> r.store == store)
  {
    var r := Callback(secret, header, body, payload, store, sign);
    if payload.Some? && payload.value.orderNumber != 0 && payload.value.orderNumber in store.orders {
      var n := payload.value.orderNumber;
      assert Decisions(r.store) == Decisions(store) by {
        assert forall m :: m in store.orders ==> r.store.orders[m].status == store.orders[m].status;
      }
    }
  }

  /** With no secret configured the signature header and the signing function
      play no part. */
  lemma EmptySecretSkipsCheck(header1: Option<string>, header2: Option<string>, body: string, payload: Option<Payload>,
                              store: Store, sign1: (string, string) -> string, sign2: (string, string) -> string)
    ensures Callback("", header1, body, payload, store, sign1) == Callback("", header2, body, payload, store, sign2)
  {
  }

  /** A notification whose application is not the order's stored reference
      (or whose order has no reference) changes nothing and is not answered. */
  lemma ForeignReferenceIgnored(secret: string, header: Option<string>, body: string, p: Payload,
                                store: Store, sign: (string, string) -> string)
    requires !SignatureRejected(secret, header, body, sign)
    requires MetaOf(store, p.orderNumber).reference.None? || p.application != MetaOf(store, p.orderNumber).reference
    ensures Callback(secret, header, body, Some(p), store, sign) == CallbackResult(store, NoReply)
  {
  }

  /** Reference matches but the stored amount is not the order total: the
      order goes on hold with the amount-error note, `ok` is acknowledged and
      no mapped status or payment completion is applied. */
  lemma AmountMismatchHolds(secret: string, header: Option<string>, body: string, p: Payload,
                            store: Store, sign: (string, string) -> string)
    requires !SignatureRejected(secret, header, body, sign)
    requires p.orderNumber != 0 && p.orderNumber in store.orders
    requires ReferenceMatches(p, store) && !AmountMatches(p.orderNumber, store)
    ensures var r := Callback(secret, header, body, Some(p), store, sign);
      var o := store.orders[p.orderNumber];
      && r.reply == OkAck
      && r.store.orders[p.orderNumber] ==
           o.(status := OnHold, notes := o.notes + TransitionNotes(o.status, OnHold) + [AmountMismatch])
  {
    var n := p.orderNumber;
    var o := store.orders[n];
    NormaliseStatusFixes(OnHold);
    var held := SetStatus(store, n, OnHold);
    assert held.orders[n] == o.(status := OnHold, notes := o.notes + TransitionNotes(o.status, OnHold));
    assert Callback(secret, header, body, Some(p), store, sign) == CallbackResult(AddNote(held, n, AmountMismatch), OkAck);
  }

  /** Reference and amount both match: DECLINED, SIGNED, REFERRED and ACCEPTED
      set their mapped status (ACCEPTED's unregistered "pending-payment" is
      stored as "pending") and acknowledge `ok`; READY adds the finance status
      note and completes the payment, which moves an order awaiting payment to
      processing (or completed) and leaves any other order's status alone, and
      acknowledges `ok`. Every status change also gets WooCommerce's
      transition note, after the finance status note where there is one. Any
      other status only adds the "order status" note and is not
      acknowledged. */
  lemma StatusMapping(secret: string, header: Option<string>, body: string, p: Payload,
                      store: Store, sign: (string, string) -> string)
    requires !SignatureRejected(secret, header, body, sign)
    requires p.orderNumber != 0 && p.orderNumber in store.orders
    requires ReferenceMatches(p, store) && AmountMatches(p.orderNumber, store)
    ensures var r := Callback(secret, header, body, Some(p), store, sign);
      var o := store.orders[p.orderNumber];
      var o' := r.store.orders[p.orderNumber];
      && (MappedStatus(p.status).Some? ==>
            o'.status == NormaliseStatus(MappedStatus(p.status).value) && r.reply == OkAck)
      && (p.status == Accepted ==> o'.status == Pending)
      && (p.status in {Referred, Accepted, Ready} ==>
            o'.notes == o.notes + [FinanceStatus(p.status)] + TransitionNotes(o.status, o'.status))
      && (p.status in {Declined, Signed} ==> o'.notes == o.notes + TransitionNotes(o.status, o'.status))
      && (p.status == Ready ==>
            && o'.status == (if o.status in PayableStatuses then PaidStatus(o) else o.status)
            && r.reply == OkAck)
      && o'.needsProcessing == o.needsProcessing
      && (MappedStatus(p.status).None? && p.status != Ready ==>
            o' == o.(notes := o.notes + [StatusLabel(p.status)]) && r.reply == NoReply)
  {
    ApplyStatusEffects(p.status, p.orderNumber, store);
    NormaliseStatusFixes(PendingPayment);
  }

  /** What `ApplyStatus` does to the notified order, status by status. */
  lemma ApplyStatusEffects(remote: string, n: OrderId, store: Store)
    requires n in store.orders
    ensures var r := ApplyStatus(remote, n, store);
      var o := store.orders[n];
      var o' := r.store.orders[n];
      && (MappedStatus(remote).Some? ==>
            o'.status == NormaliseStatus(MappedStatus(remote).value) && r.reply == OkAck)
      && (remote in {Referred, Accepted, Ready} ==>
            o'.notes == o.notes + [FinanceStatus(remote)] + TransitionNotes(o.status, o'.status))
      && (remote in {Declined, Signed} ==> o'.notes == o.notes + TransitionNotes(o.status, o'.status))
      && (remote == Ready ==>
            && o'.status == (if o.status in PayableStatuses then PaidStatus(o) else o.status)
            && r.reply == OkAck)
      && o'.needsProcessing == o.needsProcessing
      && (MappedStatus(remote).None? && remote != Ready ==>
            o' == o.(notes := o.notes + [StatusLabel(remote)]) && r.reply == NoReply)
  {
    if remote == Ready {
      PaymentCompleteSettles(AddNote(store, n, FinanceStatus(remote)), n);
    }
  }

  /** Re-delivering the same notification reaches the same decisions and the
      same reply: the callback never alters what its guards read (meta and
      totals), and every mapping is idempotent. Only notes accumulate. */
  lemma {:induction false} RedeliveryIsStable(secret: string, header: Option<string>, body: string,
                                              payload: Option<Payload>, store: Store, sign: (string, string) -> string)
    ensures var r1 := Callback(secret, header, body, payload, store, sign);
      var r2 := Callback(secret, header, body, payload, r1.store, sign);
      Decisions(r2.store) == Decisions(r1.store) && r2.reply == r1.reply
  {
    var r1 := Callback(secret, header, body, payload, store, sign);
    var r2 := Callback(secret, header, body, payload, r1.store, sign);
    if payload.Some? && payload.value.orderNumber != 0 {
      var p := payload.value;
      var n := p.orderNumber;
      if !SignatureRejected(secret, header, body, sign) && ReferenceMatches(p, store) && n in store.orders {
        assert MetaOf(r1.store, n) == MetaOf(store, n);
        assert r1.store.orders[n].TotalText() == store.orders[n].TotalText();
        assert AmountMatches(n, r1.store) == AmountMatches(n, store);
        if AmountMatches(n, store) {
          ApplyStatusTwice(p.status, n, store);
        }
      }
      SameStatusesSameDecisions(r2.store, r1.store);
    }
  }

  /** Applying a remote status twice gives the same reply and the same
      statuses as applying it once. */
  lemma ApplyStatusTwice(remote: string, n: OrderId, store: Store)
    requires n in store.orders
    ensures var r1 := ApplyStatus(remote, n, store);
      var r2 := ApplyStatus(remote, n, r1.store);
      && r2.reply == r1.reply
      && r2.store.orders.Keys == r1.store.orders.Keys
      && forall m :: m in r1.store.orders ==> r2.store.orders[m].status == r1.store.orders[m].status
  {
    if remote == Ready {
      PaymentCompleteSettles(AddNote(store, n, FinanceStatus(remote)), n);
    }
  }
}

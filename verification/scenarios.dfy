/** End-to-end properties across the flows: a submission followed by its
    resubmission, and a submission followed by the lender's notification. */
module Scenarios {
  import opened Wrappers
  import opened MerchantApi
  import opened OrderStore
  import opened Settings
  import opened Submission
  import opened Webhook
  import Money

  /** After a successful submission that returned a non-empty application id,
      submitting the order again patches that application instead of creating
      a new one. */
  lemma ResubmissionPatches(orderId: OrderId, plan: string, app: Application, cfg: Config, store: Store,
                            encode: Application -> string, sign: (string, string) -> string,
                            transport: HttpRequest -> Result<HttpResponse, string>, first: PaymentResult,
                            plan2: string, app2: Application,
                            transport2: HttpRequest -> Result<HttpResponse, string>)
    requires orderId in store.orders
    requires first == Submit(orderId, plan, app, cfg, store, encode, sign, transport)
    requires first.outcome.Redirect? && first.sent.Some? && transport(first.sent.value).Success?
    requires !EmptyText(TextAt(transport(first.sent.value).value.body, ["data", "id"]))
    ensures var id := TextAt(transport(first.sent.value).value.body, ["data", "id"]);
      var again := Submit(orderId, plan2, app2, cfg, first.store, encode, sign, transport2);
      && again.sent.Some?
      && again.sent.value.verb == "PATCH"
      && again.sent.value.path == "/application/" + id
      && again.sent.value.payload == ApplicationBody(app2.(id := Some(id)))
  {
    SuccessStoresReference(orderId, plan, app, cfg, store, encode, sign, transport);
    SubmissionRequest(orderId, plan2, app2, cfg, first.store, encode, sign, transport2);
  }

  /** A successful submission keeps the order and stores the returned id as
      its reference. */
  lemma SuccessStoresReference(orderId: OrderId, plan: string, app: Application, cfg: Config, store: Store,
                               encode: Application -> string, sign: (string, string) -> string,
                               transport: HttpRequest -> Result<HttpResponse, string>)
    requires orderId in store.orders
    requires Submit(orderId, plan, app, cfg, store, encode, sign, transport).outcome.Redirect?
    ensures var r := Submit(orderId, plan, app, cfg, store, encode, sign, transport);
      && r.sent.Some? && transport(r.sent.value).Success?
      && r.store.orders == store.orders
      && MetaOf(r.store, orderId).reference == Some(TextAt(transport(r.sent.value).value.body, ["data", "id"]))
      && MetaOf(r.store, orderId).amount == Some(store.orders[orderId].TotalText())
  {
    SubmitSuccessMirrors(orderId, plan, app, cfg, store, encode, sign, transport);
  }

  /** After a successful submission, the lender's SIGNED notification for the
      returned application, correctly signed with the configured secret (or
      with none configured), moves the order to processing. */
  lemma SignedAfterSubmission(orderId: OrderId, plan: string, app: Application, cfg: Config, store: Store,
                              encode: Application -> string, sign: (string, string) -> string,
                              transport: HttpRequest -> Result<HttpResponse, string>,
                              header: Option<string>, body: string)
    requires orderId in store.orders && orderId != 0
    requires !SignatureRejected(cfg.secret, header, body, sign)
    requires Submit(orderId, plan, app, cfg, store, encode, sign, transport).outcome.Redirect?
    ensures var r := Submit(orderId, plan, app, cfg, store, encode, sign, transport);
      var id := TextAt(transport(r.sent.value).value.body, ["data", "id"]);
      var w := Callback(cfg.secret, header, body, Some(Payload(Some(id), Signed, orderId)), r.store, sign);
      w.reply == OkAck && w.store.orders[orderId].status == Processing
  {
    SubmitSuccessMirrors(orderId, plan, app, cfg, store, encode, sign, transport);
    var r := Submit(orderId, plan, app, cfg, store, encode, sign, transport);
    var id := TextAt(transport(r.sent.value).value.body, ["data", "id"]);
    var p := Payload(Some(id), Signed, orderId);
    assert ReferenceMatches(p, r.store);
    assert AmountMatches(orderId, r.store);
    StatusMapping(cfg.secret, header, body, p, r.store, sign);
    NormaliseStatusFixes(Processing);
  }

  /** An ACCEPTED notification leaves the order pending; the READY that
      follows completes its payment: processing, or completed when the order
      needs no processing. */
  lemma AcceptedThenReadyPays(secret: string, p: Webhook.Payload, store: Store, sign: (string, string) -> string,
                              header: Option<string>, body: string)
    requires p.orderNumber != 0 && p.orderNumber in store.orders
    requires !SignatureRejected(secret, header, body, sign)
    requires ReferenceMatches(p, store) && AmountMatches(p.orderNumber, store)
    ensures var n := p.orderNumber;
      var w1 := Callback(secret, header, body, Some(p.(status := Accepted)), store, sign);
      var w2 := Callback(secret, header, body, Some(p.(status := Ready)), w1.store, sign);
      && w1.store.orders[n].status == Pending
      && w2.store.orders[n].status == PaidStatus(store.orders[n])
      && w2.reply == OkAck
  {
    var n := p.orderNumber;
    var w1 := Callback(secret, header, body, Some(p.(status := Accepted)), store, sign);
    StatusMapping(secret, header, body, p.(status := Accepted), store, sign);
    assert MetaOf(w1.store, n) == MetaOf(store, n);
    assert ReferenceMatches(p.(status := Ready), w1.store);
    assert AmountMatches(n, w1.store);
    StatusMapping(secret, header, body, p.(status := Ready), w1.store, sign);
  }

  /** Two totals have the same two-decimal text only if they are equal. */
  lemma CentsTextInjective(a: int, b: int)
    requires Money.CentsText(a) == Money.CentsText(b)
    ensures a == b
  {
    Money.CentsTextRoundTrip(a);
    Money.CentsTextRoundTrip(b);
  }

  /** If the order total changes after submission, the lender's notification
      no longer applies its status: the order goes on hold with the
      amount-error note. */
  lemma TotalDriftHolds(orderId: OrderId, plan: string, app: Application, cfg: Config, store: Store,
                        encode: Application -> string, sign: (string, string) -> string,
                        transport: HttpRequest -> Result<HttpResponse, string>,
                        newTotal: int, status: string, header: Option<string>, body: string)
    requires orderId in store.orders && orderId != 0
    requires !SignatureRejected(cfg.secret, header, body, sign)
    requires Submit(orderId, plan, app, cfg, store, encode, sign, transport).outcome.Redirect?
    requires newTotal != store.orders[orderId].totalCents
    ensures var r := Submit(orderId, plan, app, cfg, store, encode, sign, transport);
      var id := TextAt(transport(r.sent.value).value.body, ["data", "id"]);
      var changed := ModifyOrder(r.store, orderId, r.store.orders[orderId].(totalCents := newTotal));
      var w := Callback(cfg.secret, header, body, Some(Payload(Some(id), status, orderId)), changed, sign);
      && w.reply == OkAck
      && w.store.orders[orderId].status == OnHold
      && var o := changed.orders[orderId];
         w.store.orders[orderId].notes == o.notes + TransitionNotes(o.status, OnHold) + [AmountMismatch]
  {
    SubmitSuccessMirrors(orderId, plan, app, cfg, store, encode, sign, transport);
    var r := Submit(orderId, plan, app, cfg, store, encode, sign, transport);
    var id := TextAt(transport(r.sent.value).value.body, ["data", "id"]);
    var changed := ModifyOrder(r.store, orderId, r.store.orders[orderId].(totalCents := newTotal));
    var p := Payload(Some(id), status, orderId);
    assert MetaOf(changed, orderId) == MetaOf(r.store, orderId);
    assert ReferenceMatches(p, changed);
    if AmountMatches(orderId, changed) {
      CentsTextInjective(newTotal, store.orders[orderId].totalCents);
    }
    AmountMismatchHolds(cfg.secret, header, body, p, changed, sign);
  }
}

/** `process_payment`: building the application from the cart and order,
    signing it, creating or updating it remotely and mirroring the result in
    the order's post meta. */
module Submission {
  import opened Wrappers
  import opened MerchantApi
  import opened OrderStore
  import opened Settings
  import opened ApplicationBuilder
  import Money

  /** The classic-checkout nonce: not posted, posted and valid, posted and invalid. */
  datatype Nonce = NoNonce | ValidNonce | InvalidNonce

  /** The checkout form fields `process_payment` reads. */
  datatype Form = Form(nonce: Nonce, plan: Option<string>, deposit: Option<int>)

  /** How the request ends: an exception before any request is sent, a
      redirect to the lender, a bad response rethrown to the caller, or a
      rejection recorded as an order note and a checkout notice (the method
      then returns nothing). */
  datatype PaymentOutcome =
    | Refused
    | Redirect(url: string)
    | Rethrown(error: ApiError)
    | Rejected(notice: string)

  datatype PaymentResult = PaymentResult(outcome: PaymentOutcome, store: Store, sent: Option<HttpRequest>)

  /** The proxy of the submission: with a shared secret configured, it carries
      the signature of the encoded application. */
  function SubmissionProxy(cfg: Config, app: Application, encode: Application -> string,
                           sign: (string, string) -> string): Proxy
  {
    var p := NewProxy(cfg.url, cfg.apiKey);
    if cfg.secret != "" then AddSecretHeader(p, sign(encode(app), cfg.secret)) else p
  }

  /** `_finance_description`: the plan description the lender returned, or
      the posted plan id when it returned none (missing or null). */
  function DescriptionOf(body: Json, plan: string): string
  {
    match Lookup(body, ["data", "finance_plan", "description"])
    case Some(d) => PhpText(d).GetOr(plan)
    case None => plan
  }

  /** The meta written after a successful call. */
  function MirrorMeta(prior: PostMeta, body: Json, plan: string, order: Order): PostMeta
  {
    prior.(reference := Some(TextAt(body, ["data", "id"])),
         description := Some(DescriptionOf(body, plan)),
         amount := Some(Money.Fixed2(order.Total())))
  }

  /** Sending an application built for an existing order and recording the
      outcome. */
  function Submit(orderId: OrderId, plan: string, app: Application, cfg: Config, store: Store,
                  encode: Application -> string, sign: (string, string) -> string,
                  transport: HttpRequest -> Result<HttpResponse, string>): PaymentResult
    requires orderId in store.orders
  {
    var call := SubmitCall(SubmissionProxy(cfg, app, encode, sign), app, SingleText(MetaOf(store, orderId).reference), transport);
    match call.result
    case Success(body) => Mirrored(orderId, plan, body, store).(sent := Some(call.request))
    case Failure(e) =>
      if e.BadResponse? then PaymentResult(Rethrown(e), store, Some(call.request))
      else PaymentResult(Rejected(e.GetMessage()),
                         AddNote(store, orderId, PaymentRejection(orderId, e.GetMessage())),
                         Some(call.request))
  }

  /** Create the application while there is no (non-empty) reference, else
      patch the referenced one: the method, path and body of each. */
  function SubmitCall(p: Proxy, app: Application, ref: string,
                      transport: HttpRequest -> Result<HttpResponse, string>): (r: CallResult)
    ensures r.request.headers == p.headers
    ensures EmptyText(ref) ==> r.request.verb == "POST" && r.request.path == "/applications"
                               && r.request.payload == ApplicationBody(app)
    ensures !EmptyText(ref) ==> r.request.verb == "PATCH" && r.request.path == "/application/" + ref
                                && r.request.payload == ApplicationBody(app.(id := Some(ref)))
    ensures r.result.Success? ==> transport(r.request).Success? && r.result.value == transport(r.request).value.body
  {
    if EmptyText(ref) then
      FixedPathsIgnoreId("");
      PostApplicationCall(p, app, transport)
    else
      PathsSubstituteId(ref);
      UpdateApplicationCall(p, app.(id := Some(ref)), transport)
  }

  /** The submission proxy's headers: the API key, and the signature exactly
      when a secret is configured. */
  lemma SubmissionHeaders(cfg: Config, app: Application, encode: Application -> string, sign: (string, string) -> string)
    ensures var h := SubmissionProxy(cfg, app, encode, sign).headers;
      && h[ApiKeyHeader] == cfg.apiKey
      && (SharedSecretHeader in h <==> cfg.secret != "")
      && (cfg.secret != "" ==> h[SharedSecretHeader] == sign(encode(app), cfg.secret))
  {
  }

  /** `process_payment`. `encode` is the JSON encoding of an application,
      `sign` the HMAC signature function, `transport` the HTTP client. */
  function ProcessPayment(orderId: OrderId, form: Form, cart: Cart, contact: Contact, cfg: Config, store: Store,
                          encode: Application -> string, sign: (string, string) -> string,
                          transport: HttpRequest -> Result<HttpResponse, string>): PaymentResult
  {
    if orderId !in store.orders || form.nonce == InvalidNonce || form.plan.None? then
      PaymentResult(Refused, store, None)
    else
      Submit(orderId, form.plan.value, OrderApplication(orderId, form, cart, contact, store), cfg, store, encode, sign, transport)
  }

  /** The application `process_payment` builds for an existing order. */
  function OrderApplication(orderId: OrderId, form: Form, cart: Cart, contact: Contact, store: Store): Application
    requires orderId in store.orders && form.plan.Some?
  {
    BuildApplication(contact, form.plan.value, form.deposit, BuildItems(cart, store.orders[orderId]), orderId)
  }

  /** The request is refused, with nothing sent and nothing stored, exactly
      when the order does not exist, a posted nonce is invalid or no plan was
      chosen; otherwise the order's application is submitted. */
  lemma RefusedExactly(orderId: OrderId, form: Form, cart: Cart, contact: Contact, cfg: Config, store: Store,
                       encode: Application -> string, sign: (string, string) -> string,
                       transport: HttpRequest -> Result<HttpResponse, string>)
    ensures var r := ProcessPayment(orderId, form, cart, contact, cfg, store, encode, sign, transport);
      && (r.outcome.Refused? <==> orderId !in store.orders || form.nonce == InvalidNonce || form.plan.None?)
      && (r.outcome.Refused? ==> r.store == store && r.sent.None?)
      && (!r.outcome.Refused? ==>
            r == Submit(orderId, form.plan.value, OrderApplication(orderId, form, cart, contact, store), cfg, store,
                        encode, sign, transport))
  {
    if orderId in store.orders && form.nonce != InvalidNonce && form.plan.Some? {
      var app := OrderApplication(orderId, form, cart, contact, store);
      SubmitNeverRefuses(orderId, form.plan.value, app, cfg, store, encode, sign, transport);
    }
  }

  lemma SubmitNeverRefuses(orderId: OrderId, plan: string, app: Application, cfg: Config, store: Store,
                           encode: Application -> string, sign: (string, string) -> string,
                           transport: HttpRequest -> Result<HttpResponse, string>)
    requires orderId in store.orders
    ensures !Submit(orderId, plan, app, cfg, store, encode, sign, transport).outcome.Refused?
    ensures Submit(orderId, plan, app, cfg, store, encode, sign, transport).sent.Some?
  {
  }

  /** What is sent: a POST to `/applications` while the order has no
      (non-empty) finance reference, otherwise a PATCH of that application;
      the body is the application, carrying the reference as id only when
      patching; the API key is always a header, and the signature header is
      present exactly when a secret is configured, signing the application
      without the id. */
  lemma SubmissionRequest(orderId: OrderId, plan: string, app: Application, cfg: Config, store: Store,
                          encode: Application -> string, sign: (string, string) -> string,
                          transport: HttpRequest -> Result<HttpResponse, string>)
    requires orderId in store.orders
    ensures var r := Submit(orderId, plan, app, cfg, store, encode, sign, transport);
      var ref := SingleText(MetaOf(store, orderId).reference);
      && r.sent.Some?
      && (EmptyText(ref) ==> r.sent.value.verb == "POST" && r.sent.value.path == "/applications"
                              && r.sent.value.payload == ApplicationBody(app))
      && (!EmptyText(ref) ==> r.sent.value.verb == "PATCH" && r.sent.value.path == "/application/" + ref
                               && r.sent.value.payload == ApplicationBody(app.(id := Some(ref))))
      && r.sent.value.headers[ApiKeyHeader] == cfg.apiKey
      && (SharedSecretHeader in r.sent.value.headers <==> cfg.secret != "")
      && (cfg.secret != "" ==> r.sent.value.headers[SharedSecretHeader] == sign(encode(app), cfg.secret))
  {
    SubmissionHeaders(cfg, app, encode, sign);
  }

  /** The outcome of a successful call: the redirect and the meta written. */
  function Mirrored(orderId: OrderId, plan: string, body: Json, store: Store): (r: PaymentResult)
    requires orderId in store.orders
    ensures r.outcome == Redirect(TextAt(body, ["data", "urls", "application_url"]))
    ensures r.store.orders == store.orders
    ensures MetaOf(r.store, orderId).reference == Some(TextAt(body, ["data", "id"]))
    ensures MetaOf(r.store, orderId).amount == Some(store.orders[orderId].TotalText())
    ensures var d := Lookup(body, ["data", "finance_plan", "description"]);
      && (d.None? || d == Some(JNull) ==> MetaOf(r.store, orderId).description == Some(plan))
      && (d.Some? && PhpText(d.value).Some? ==> MetaOf(r.store, orderId).description == PhpText(d.value))
    ensures MetaOf(r.store, orderId).paymentMethod == MetaOf(store, orderId).paymentMethod
    ensures forall k :: k != orderId ==> MetaOf(r.store, k) == MetaOf(store, k)
  {
    Money.Fixed2OfCents(store.orders[orderId].totalCents);
    PaymentResult(Redirect(TextAt(body, ["data", "urls", "application_url"])),
                  SetMeta(store, orderId, MirrorMeta(MetaOf(store, orderId), body, plan, store.orders[orderId])),
                  None)
  }

  /** A numeric application id is stored as its digits, as `update_post_meta`
      stores a number; only a missing or null id is stored as "". */
  lemma MirroredIdText(orderId: OrderId, plan: string, store: Store)
    requires orderId in store.orders
    ensures MetaOf(Mirrored(orderId, plan, JObj(map["data" := JObj(map["id" := JNum(123.0)])]), store).store,
                   orderId).reference == Some("123")
    ensures MetaOf(Mirrored(orderId, plan, JObj(map["data" := JObj(map["id" := JNull])]), store).store,
                   orderId).reference == Some("")
  {
    assert (123.0).Floor == 123;
    assert Money.NatText(123) == "123";
  }

  /** A successful call redirects to the lender's application URL and
      mirrors the response in the order's meta, as `Mirrored` states. */
  lemma SubmitSuccessMirrors(orderId: OrderId, plan: string, app: Application, cfg: Config, store: Store,
                             encode: Application -> string, sign: (string, string) -> string,
                             transport: HttpRequest -> Result<HttpResponse, string>)
    requires orderId in store.orders
    ensures var r := Submit(orderId, plan, app, cfg, store, encode, sign, transport);
      r.outcome.Redirect? ==>
        && r.sent.Some?
        && transport(r.sent.value).Success?
        && r.store == Mirrored(orderId, plan, transport(r.sent.value).value.body, store).store
        && r.outcome == Mirrored(orderId, plan, transport(r.sent.value).value.body, store).outcome
  {
  }

  /** A bad response is rethrown with nothing stored; any other failure adds
      one rejection note to the order and changes nothing else. */
  lemma SubmitFailureEffects(orderId: OrderId, plan: string, app: Application, cfg: Config, store: Store,
                             encode: Application -> string, sign: (string, string) -> string,
                             transport: HttpRequest -> Result<HttpResponse, string>)
    requires orderId in store.orders
    ensures var r := Submit(orderId, plan, app, cfg, store, encode, sign, transport);
      var order := store.orders[orderId];
      && (r.outcome.Rethrown? ==> r.outcome.error.BadResponse? && r.store == store)
      && (r.outcome.Rejected? ==>
            && r.store.meta == store.meta
            && r.store.orders.Keys == store.orders.Keys
            && r.store.orders[orderId].status == order.status
            && r.store.orders[orderId].notes == order.notes + [PaymentRejection(orderId, r.outcome.notice)]
            && (forall k :: k in store.orders && k != orderId ==> r.store.orders[k] == store.orders[k]))
  {
    var call := SubmitCall(SubmissionProxy(cfg, app, encode, sign), app, SingleText(MetaOf(store, orderId).reference), transport);
    if call.result.Failure? && !call.result.error.BadResponse? {
      var e := call.result.error;
      var r := Submit(orderId, plan, app, cfg, store, encode, sign, transport);
      assert r.store == AddNote(store, orderId, PaymentRejection(orderId, e.GetMessage()));
      assert r.outcome == Rejected(e.GetMessage());
    }
  }
}

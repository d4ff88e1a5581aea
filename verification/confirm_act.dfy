/** Merchant-initiated cancel/refund (`check_status` then `update_status`),
    the cancellation/refund/activation requests they send, and automatic
    fulfilment on order completion. The remote application fetch and the HTTP
    transport are parameters. */
module ConfirmAct {
  import opened Wrappers
  import opened OrderStore
  import opened Settings
  import opened MerchantApi
  import Money
  import Seqs

  const WcCancelled := "wc-cancelled"
  const WcRefunded := "wc-refunded"

  /** The fields of a fetched remote application the flows read. Amounts are
      in minor units. */
  datatype RemoteApplication = RemoteApplication(
    id: string,
    merchantReference: OrderId,
    cancelableAmount: int,
    refundableAmount: int,
    currency: string,
    lenderAppName: string)

  /** Fetching an application by id (deterministic within one request). */
  type Fetch = string -> Result<RemoteApplication, ApiError>

  type Transport = HttpRequest -> Result<HttpResponse, string>

  /** `_payment_method` of an order, "" when absent. */
  function PaymentMethodOf(store: Store, id: OrderId): string
  {
    SingleText(MetaOf(store, id).paymentMethod)
  }

  datatype Title = ProceedPrompt | CancelPrompt | RefundPrompt

  /** Lines of the confirmation message. A warning carries the amount as shown:
      the minor units formatted with two decimals, a space, the currency. */
  datatype CheckLine =
    | Unactionable
    | CancelWarning(cancelAmount: string)
    | RefundWarning(refundAmount: string)
    | ReasonRequest(lender: string)

  /** `number_format($minor/100, 2)` followed by the currency: PHP's default
      separators, so a thousands group is set off by ','. */
  function ShownAmount(minor: int, currency: string): string
  {
    Money.Fixed2Grouped(minor as real / 100.0) + " " + currency
  }

  datatype CheckMessage = NoMessage | ApiKeyMismatch | Lines(lines: seq<CheckLine>)

  /** The JSON `check_status` answers with. */
  datatype CheckReply = CheckReply(
    message: CheckMessage,
    reasons: Option<seq<Reason>>,
    notify: bool,
    bypass: bool,
    action: string,
    title: Title)

  /** A reply, or an error the handler does not catch. */
  datatype CheckOutcome = Replied(reply: CheckReply) | Uncaught(error: ApiError)

  const DefaultCheck := CheckReply(NoMessage, None, false, false, ProceedAction, ProceedPrompt)

  /** The merchant asks to cancel and automatic cancellation is on. */
  predicate CancelRequested(newStatus: string, cfg: Config)
  {
    newStatus == WcCancelled && cfg.autoCancel == Yes
  }

  /** The merchant asks to refund and automatic refunds are on. */
  predicate RefundRequested(newStatus: string, cfg: Config)
  {
    newStatus == WcRefunded && cfg.autoRefund == Yes
  }

  /** Adds the lender's reason codes when the lender is one that requires them. */
  function WithReasons(app: RemoteApplication, reply: CheckReply, lines: seq<CheckLine>): CheckOutcome
  {
    if app.lenderAppName in Reasons then
      Replied(reply.(reasons := Some(Reasons[app.lenderAppName]),
                     message := Lines(lines + [ReasonRequest(app.lenderAppName)])))
    else Replied(reply.(message := Lines(lines)))
  }

  /** `check_status`: phase one of confirm-then-act. */
  function CheckStatus(newStatus: string, applicationId: string, cfg: Config, store: Store, fetch: Fetch): CheckOutcome
  {
    match fetch(applicationId)
    case Failure(e) =>
      if e.BadResponse? then Replied(DefaultCheck.(message := ApiKeyMismatch)) else Uncaught(e)
    case Success(app) =>
      if PaymentMethodOf(store, app.merchantReference) != GatewayId then
        Replied(DefaultCheck.(bypass := true))
      else if CancelRequested(newStatus, cfg) then
        WithReasons(app, DefaultCheck.(title := CancelPrompt, notify := true, action := CancelAction),
                    [CancelWarning(ShownAmount(app.cancelableAmount, app.currency))])
      else if RefundRequested(newStatus, cfg) then
        // The refund branch fetches the application again, outside the handler's try.
        match fetch(applicationId)
        case Failure(e) => Uncaught(e)
        case Success(again) =>
          WithReasons(again, DefaultCheck.(title := RefundPrompt, notify := true, action := RefundAction),
                      [RefundWarning(ShownAmount(again.refundableAmount, again.currency))])
      else WithReasons(app, DefaultCheck, [Unactionable])
  }

  /** A foreign payment method bypasses the check: nothing to notify, no
      reasons, no message. Otherwise the lender is to be notified exactly for
      cancel-with-auto-cancel and refund-with-auto-refund, with the matching
      action and amount, and reasons are offered exactly when the lender is one
      that requires them. */
  lemma CheckStatusDecision(newStatus: string, applicationId: string, cfg: Config, store: Store, fetch: Fetch)
    requires fetch(applicationId).Success?
    ensures var app := fetch(applicationId).value;
      var out := CheckStatus(newStatus, applicationId, cfg, store, fetch);
      var foreign := PaymentMethodOf(store, app.merchantReference) != GatewayId;
      && out.Replied?
      && (out.reply.bypass <==> foreign)
      && (foreign ==> out.reply == DefaultCheck.(bypass := true))
      && (!foreign ==>
            && (out.reply.notify <==> CancelRequested(newStatus, cfg) || RefundRequested(newStatus, cfg))
            && (out.reply.action ==
                  if CancelRequested(newStatus, cfg) then CancelAction
                  else if RefundRequested(newStatus, cfg) then RefundAction
                  else ProceedAction)
            && (out.reply.reasons.Some? <==> app.lenderAppName in Reasons)
            && (out.reply.reasons.Some? ==> out.reply.reasons.value == Reasons[app.lenderAppName])
            && out.reply.message.Lines? && |out.reply.message.lines| > 0
            && (CancelRequested(newStatus, cfg) ==>
                  out.reply.message.lines[0] == CancelWarning(ShownAmount(app.cancelableAmount, app.currency)))
            && (!CancelRequested(newStatus, cfg) && RefundRequested(newStatus, cfg) ==>
                  out.reply.message.lines[0] == RefundWarning(ShownAmount(app.refundableAmount, app.currency))))
  {
  }

  /** A bad response from the fetch yields only the API-key message. */
  lemma CheckStatusBadResponse(newStatus: string, applicationId: string, cfg: Config, store: Store, fetch: Fetch)
    requires fetch(applicationId).Failure? && fetch(applicationId).error.BadResponse?
    ensures CheckStatus(newStatus, applicationId, cfg, store, fetch) == Replied(DefaultCheck.(message := ApiKeyMismatch))
  {
  }

  /** The single line item of a cancellation, refund or activation. */
  function OrderLine(orderId: string, price: int): LineItem
  {
    LineItem(OrderIdLabel(orderId), 1, price, None)
  }

  /** `set_cancelled`: one line item priced `toPence($order_total)`. */
  function SetCancelled(p: Proxy, applicationId: string, orderTotal: int, orderId: string,
                        reason: Option<string>, transport: Transport): (r: CallResult)
    ensures r.request.path == "/applications/" + applicationId + "/cancellations"
    ensures r.request.payload == CancellationBody([OrderLine(orderId, 100 * orderTotal)], reason)
  {
    Money.ToPenceOfMinorUnits(orderTotal);
    PathsSubstituteId(applicationId);
    PostCancellationCall(p, applicationId, [OrderLine(orderId, Money.ToPence(orderTotal as real))], reason, transport)
  }

  /** `set_refund`: one line item priced `toPence($order_total)`. */
  function SetRefund(p: Proxy, applicationId: string, orderTotal: int, orderId: string,
                     reason: Option<string>, transport: Transport): (r: CallResult)
    ensures r.request.path == "/application/" + applicationId + "/refunds"
    ensures r.request.payload == RefundBody([OrderLine(orderId, 100 * orderTotal)], reason)
  {
    Money.ToPenceOfMinorUnits(orderTotal);
    PathsSubstituteId(applicationId);
    PostRefundCall(p, applicationId, [OrderLine(orderId, Money.ToPence(orderTotal as real))], reason, transport)
  }

  /** The `update_status` JSON. `hasResponse` records that the `response` key
      was set (to the remote call's `null` result). */
  datatype UpdateReply = UpdateReply(
    success: bool,
    message: string,
    reason: Option<string>,
    hasResponse: bool,
    context: Option<Context>)

  datatype UpdateResult = UpdateResult(reply: UpdateReply, store: Store, sent: Option<HttpRequest>)

  const NotFinancedMessage := "This order doesn't appear to be financed"
  const NoOrderMessage := "There was an issue retrieving the order"
  const UnknownActionMessage := "Could not find action"
  const CancelSentMessage := "Lender successfully notified of cancellation request"
  const RefundSentMessage := "Lender successfully notified of refund request"

  /** The reply for an error caught by `update_status`. */
  function Caught(wfAction: string, reason: Option<string>, e: ApiError): UpdateReply
  {
    if e.BadResponse? then
      UpdateReply(false, "Application " + wfAction + " not possible: " + e.message, reason, false, Some(e.context))
    else UpdateReply(false, e.GetMessage(), reason, false, None)
  }

  /** The lender call of `update_status` for a cancel or refund action: one
      line for the order, priced `toPence` of the minor-unit amount as written
      or the amount itself when `corrected`. */
  function ActionCall(corrected: bool, wfAction: string, app: RemoteApplication, reason: Option<string>,
                      cfg: Config, transport: Transport): (r: CallResult)
    requires wfAction == CancelAction || wfAction == RefundAction
    ensures var amount := if wfAction == CancelAction then app.cancelableAmount else app.refundableAmount;
      && r.request.verb == "POST"
      && (wfAction == CancelAction ==>
            r.request.payload.CancellationBody? && r.request.path == "/applications/" + app.id + "/cancellations")
      && (wfAction == RefundAction ==>
            r.request.payload.RefundBody? && r.request.path == "/application/" + app.id + "/refunds")
      && r.request.payload.items ==
           [OrderLine(Money.NatText(app.merchantReference), if corrected then amount else 100 * amount)]
      && r.request.payload.reason == reason
      && (r.result.Success? <==>
            && transport(r.request).Success?
            && !SignalsError(transport(r.request).value.body)
            && transport(r.request).value.code == 201)
  {
    var p := NewProxy(cfg.url, cfg.apiKey);
    var ref := Money.NatText(app.merchantReference);
    PathsSubstituteId(app.id);
    if wfAction == CancelAction then
      if corrected then PostCancellationCall(p, app.id, [OrderLine(ref, app.cancelableAmount)], reason, transport)
      else SetCancelled(p, app.id, app.cancelableAmount, ref, reason, transport)
    else
      if corrected then PostRefundCall(p, app.id, [OrderLine(ref, app.refundableAmount)], reason, transport)
      else SetRefund(p, app.id, app.refundableAmount, ref, reason, transport)
  }

  /** `update_status`, phase two. With `corrected` false this is the code as
      written (the minor-unit amount goes through `toPence` again); with
      `corrected` true the amount is sent as it is. */
  function UpdateStatusWith(corrected: bool, applicationId: string, wfAction: string, reason: Option<string>,
                            cfg: Config, store: Store, fetch: Fetch, transport: Transport): UpdateResult
  {
    match fetch(applicationId)
    case Failure(e) => UpdateResult(Caught(wfAction, reason, e), store, None)
    case Success(app) =>
      var orderId := app.merchantReference;
      var p := NewProxy(cfg.url, cfg.apiKey);
      var ref := Money.NatText(orderId);
      if PaymentMethodOf(store, orderId) != GatewayId then
        UpdateResult(UpdateReply(false, NotFinancedMessage, reason, false, None), store, None)
      else if orderId !in store.orders then
        UpdateResult(UpdateReply(false, NoOrderMessage, reason, false, None), store, None)
      else if wfAction == CancelAction || wfAction == RefundAction then
        var call := ActionCall(corrected, wfAction, app, reason, cfg, transport);
        if call.result.Failure? then UpdateResult(Caught(wfAction, reason, call.result.error), store, Some(call.request))
        else if wfAction == CancelAction then
          UpdateResult(UpdateReply(true, CancelSentMessage, reason, true, None),
                       AddNote(store, orderId, CancellationSent), Some(call.request))
        else
          UpdateResult(UpdateReply(true, RefundSentMessage, reason, true, None),
                       AddNote(store, orderId, RefundSent), Some(call.request))
      else UpdateResult(UpdateReply(false, UnknownActionMessage, reason, false, None), store, None)
  }

  /** `update_status` as written. */
  function UpdateStatus(applicationId: string, wfAction: string, reason: Option<string>,
                        cfg: Config, store: Store, fetch: Fetch, transport: Transport): UpdateResult
  {
    UpdateStatusWith(false, applicationId, wfAction, reason, cfg, store, fetch, transport)
  }

  /** `update_status` with the amount sent in the minor units it already has. */
  function UpdateStatusCorrected(applicationId: string, wfAction: string, reason: Option<string>,
                                 cfg: Config, store: Store, fetch: Fetch, transport: Transport): UpdateResult
  {
    UpdateStatusWith(true, applicationId, wfAction, reason, cfg, store, fetch, transport)
  }

  /** The guards of `update_status`: when the fetch fails, the order is not
      paid with this gateway or does not exist, or the action is unknown,
      nothing is sent, nothing is stored and the reply is not a success. */
  lemma UpdateStatusGuards(corrected: bool, applicationId: string, wfAction: string, reason: Option<string>,
                           cfg: Config, store: Store, fetch: Fetch, transport: Transport)
    ensures var r := UpdateStatusWith(corrected, applicationId, wfAction, reason, cfg, store, fetch, transport);
      && r.reply.reason == reason
      && (fetch(applicationId).Failure? ==> r.store == store && r.sent.None? && !r.reply.success)
      && (fetch(applicationId).Success? ==>
            var app := fetch(applicationId).value;
            var owned := PaymentMethodOf(store, app.merchantReference) == GatewayId && app.merchantReference in store.orders;
            && (!owned ==> r.store == store && r.sent.None? && !r.reply.success)
            && (PaymentMethodOf(store, app.merchantReference) != GatewayId ==> r.reply.message == NotFinancedMessage)
            && (owned && wfAction != CancelAction && wfAction != RefundAction ==>
                  r == UpdateResult(UpdateReply(false, UnknownActionMessage, reason, false, None), store, None)))
  {
  }

  /** For an owned order and a cancel or refund action, `update_status` posts
      a cancellation or a refund with one line of quantity 1 and the optional
      reason; it succeeds exactly when that call returns, and only then is
      the matching note added. */
  lemma UpdateStatusSends(corrected: bool, applicationId: string, wfAction: string, reason: Option<string>,
                          cfg: Config, store: Store, fetch: Fetch, transport: Transport)
    requires fetch(applicationId).Success?
    requires var app := fetch(applicationId).value;
      PaymentMethodOf(store, app.merchantReference) == GatewayId && app.merchantReference in store.orders
    requires wfAction == CancelAction || wfAction == RefundAction
    ensures var r := UpdateStatusWith(corrected, applicationId, wfAction, reason, cfg, store, fetch, transport);
      var app := fetch(applicationId).value;
      var amount := if wfAction == CancelAction then app.cancelableAmount else app.refundableAmount;
      && r.sent.Some?
      && r.sent.value.verb == "POST"
      && (wfAction == CancelAction ==> r.sent.value.payload.CancellationBody?)
      && (wfAction == RefundAction ==> r.sent.value.payload.RefundBody?)
      && (wfAction == CancelAction ==> r.sent.value.path == "/applications/" + app.id + "/cancellations")
      && (wfAction == RefundAction ==> r.sent.value.path == "/application/" + app.id + "/refunds")
      && r.sent.value.payload.items ==
           [OrderLine(Money.NatText(app.merchantReference), if corrected then amount else 100 * amount)]
      && r.sent.value.payload.reason == reason
      && (r.reply.success <==>
            && transport(r.sent.value).Success?
            && !SignalsError(transport(r.sent.value).value.body)
            && transport(r.sent.value).value.code == 201)
      && (r.reply.success ==> r.store == AddNote(store, app.merchantReference,
                                                   if wfAction == CancelAction then CancellationSent else RefundSent))
      && (!r.reply.success ==> r.store == store)
  {
  }

  /** As written, the lender is sent 100 times the amount the confirmation
      showed: a cancelable amount of 1500 minor units goes out priced 150000. */
  lemma CancellationPriceInflated(applicationId: string, reason: Option<string>, cfg: Config, store: Store,
                                  fetch: Fetch, transport: Transport)
    requires fetch(applicationId).Success?
    requires var app := fetch(applicationId).value;
      PaymentMethodOf(store, app.merchantReference) == GatewayId && app.merchantReference in store.orders
    ensures var r := UpdateStatus(applicationId, CancelAction, reason, cfg, store, fetch, transport);
      r.sent.Some? && r.sent.value.payload.items[0].price == 100 * fetch(applicationId).value.cancelableAmount
  {
  }

  /** The shown amount of a minor-unit value is its grouped two-decimal text,
      which determines the value: without its separators it reads back as
      exactly `minor`. */
  lemma ShownAmountIsCents(minor: int, currency: string)
    ensures ShownAmount(minor, currency) == Money.GroupedCentsText(minor) + " " + currency
    ensures Money.ParseFixed2(Seqs.Remove(Money.GroupedCentsText(minor), ',')) == Some(minor)
  {
    Money.Fixed2GroupedOfCents(minor);
    Money.GroupedCentsRoundTrip(minor);
  }

  /** 1500 pounds (150000 minor units) are shown as "1,500.00 GBP". */
  lemma ShownAmountExample()
    ensures ShownAmount(150000, "GBP") == "1,500.00 GBP"
  {
    Money.GroupedExample();
    assert 150000 as real / 100.0 == 1500.0;
  }

  /** Corrected, the price sent is the amount the confirmation showed: when
      `check_status` warned about a cancellation (or a refund) for the same
      application, the warning carries the shown text of exactly the price
      that `update_status` then sends. */
  lemma CorrectedPriceMatchesConfirmation(newStatus: string, applicationId: string, wfAction: string,
                                          reason: Option<string>, cfg: Config, store: Store,
                                          fetch: Fetch, transport: Transport)
    requires fetch(applicationId).Success?
    requires var app := fetch(applicationId).value;
      PaymentMethodOf(store, app.merchantReference) == GatewayId && app.merchantReference in store.orders
    requires wfAction == CancelAction || wfAction == RefundAction
    ensures var app := fetch(applicationId).value;
      var r := UpdateStatusCorrected(applicationId, wfAction, reason, cfg, store, fetch, transport);
      var shown := CheckStatus(newStatus, applicationId, cfg, store, fetch);
      && r.sent.Some?
      && r.sent.value.payload.items[0].price ==
           (if wfAction == CancelAction then app.cancelableAmount else app.refundableAmount)
      && (wfAction == CancelAction && CancelRequested(newStatus, cfg) ==>
            shown.Replied? && shown.reply.message.Lines?
            && shown.reply.message.lines[0] == CancelWarning(ShownAmount(r.sent.value.payload.items[0].price, app.currency)))
      && (wfAction == RefundAction && RefundRequested(newStatus, cfg) ==>
            shown.Replied? && shown.reply.message.Lines?
            && shown.reply.message.lines[0] == RefundWarning(ShownAmount(r.sent.value.payload.items[0].price, app.currency)))
  {
    UpdateStatusSends(true, applicationId, wfAction, reason, cfg, store, fetch, transport);
    CheckStatusDecision(newStatus, applicationId, cfg, store, fetch);
  }

  /** `set_fulfilled`: an activation with one line priced `toPence($order_total)`
      and no delivery method or tracking number. */
  function SetFulfilled(p: Proxy, applicationId: string, orderTotal: real, orderId: string,
                        transport: Transport): (r: CallResult)
    ensures r.request.path == "/applications/" + applicationId + "/activations"
    ensures r.request.payload == ActivationBody([OrderLine(orderId, Money.ToPence(orderTotal))], None, None)
  {
    PathsSubstituteId(applicationId);
    PostActivationCall(p, applicationId, [OrderLine(orderId, Money.ToPence(orderTotal))], None, None, transport)
  }

  datatype FulfilmentOutcome = NotSent | Sent | Crashed

  datatype FulfilmentResult = FulfilmentResult(outcome: FulfilmentOutcome, store: Store, sent: Option<HttpRequest>)

  /** The payment-method literal `send_finance_fulfillment_request` compares with. */
  const FinanceLiteral := "finance"

  /** `send_finance_fulfillment_request`, comparing `_payment_method` with
      `methodName`. A missing order fails before the comparison; a failing
      activation call propagates and no note is added. */
  function FulfillmentRequestFor(methodName: string, orderId: OrderId, cfg: Config, store: Store,
                                 transport: Transport): FulfilmentResult
  {
    if orderId !in store.orders then FulfilmentResult(Crashed, store, None)
    else if PaymentMethodOf(store, orderId) != methodName || cfg.autoFulfillment == No then
      FulfilmentResult(NotSent, store, None)
    else
      var order := store.orders[orderId];
      var call := SetFulfilled(NewProxy(cfg.url, cfg.apiKey), SingleText(MetaOf(store, orderId).reference),
                               order.Total(), Money.NatText(orderId), transport);
      if call.result.Failure? then FulfilmentResult(Crashed, store, Some(call.request))
      else FulfilmentResult(Sent, AddNote(store, orderId, FulfillmentSent), Some(call.request))
  }

  /** As written: the literal `'finance'`. */
  function SendFinanceFulfillmentRequest(orderId: OrderId, cfg: Config, store: Store, transport: Transport): FulfilmentResult
  {
    FulfillmentRequestFor(FinanceLiteral, orderId, cfg, store, transport)
  }

  /** Corrected: the gateway's own id. */
  function SendFulfillmentRequestCorrected(orderId: OrderId, cfg: Config, store: Store, transport: Transport): FulfilmentResult
  {
    FulfillmentRequestFor(GatewayId, orderId, cfg, store, transport)
  }

  /** As written, an order paid with this gateway (`_payment_method` is the
      gateway id) never gets an activation, whatever the settings. */
  lemma GatewayOrdersNeverActivated(orderId: OrderId, cfg: Config, store: Store, transport: Transport)
    requires orderId in store.orders && PaymentMethodOf(store, orderId) == GatewayId
    ensures SendFinanceFulfillmentRequest(orderId, cfg, store, transport) == FulfilmentResult(NotSent, store, None)
  {
  }

  /** Corrected, an existing order of this gateway with auto-fulfilment not
      "no" sends one activation for the order total on its stored reference,
      and the note is added exactly when that call succeeds. Other payment
      methods send nothing. */
  lemma CorrectedFulfilment(orderId: OrderId, cfg: Config, store: Store, transport: Transport)
    requires orderId in store.orders
    ensures var r := SendFulfillmentRequestCorrected(orderId, cfg, store, transport);
      var ref := SingleText(MetaOf(store, orderId).reference);
      && (PaymentMethodOf(store, orderId) != GatewayId || cfg.autoFulfillment == No <==> r.sent.None?)
      && (r.sent.Some? ==>
            && r.sent.value.path == "/applications/" + ref + "/activations"
            && r.sent.value.payload.items == [OrderLine(Money.NatText(orderId), store.orders[orderId].totalCents)]
            && (r.outcome == Sent <==> r.store == AddNote(store, orderId, FulfillmentSent))
            && (r.outcome != Sent ==> r.store == store))
  {
    var o := store.orders[orderId];
    Money.ToPenceWholeCents(o.totalCents);
    var r := SendFulfillmentRequestCorrected(orderId, cfg, store, transport);
    if r.outcome != Sent && r.sent.Some? {
      assert |r.store.orders[orderId].notes| == |o.notes|;
      assert |AddNote(store, orderId, FulfillmentSent).orders[orderId].notes| == |o.notes| + 1;
    }
  }
}

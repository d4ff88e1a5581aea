# WooCommerce finance gateway — a Dafny model

This project models the decision logic of the Divido WooCommerce finance gateway (plugin version 2.8.2). That gateway lets a shopper pay for a WooCommerce order with a point-of-sale loan. The model covers five pieces.

**1. The lender's webhook (`callback`)** — module `Webhook`.
- It checks the shared-secret signature.
- It then compares the application id with the order's `_finance_reference` meta.
- It then compares the financed amount with the order total.
- Finally it maps the lender's status (DECLINED, SIGNED, READY, REFERRED, ACCEPTED) onto the WooCommerce order.
- Sending the JSON acknowledgement ends the request.

**2. Merchant-initiated cancel and refund, in two phases** — module `ConfirmAct`.
- `check_status` decides whether to ask the merchant to confirm, and which reasons the lender needs.
- `update_status` posts the cancellation or refund.
- The same module holds automatic fulfilment: `send_finance_fulfillment_request` and `set_fulfilled`.

**3. Application submission (`process_payment`)** — modules `ApplicationBuilder` and `Submission`.
- The itemised line list has reserved SKUs: `SHPNG`, `TAX`, `FEES`, `FEE_TAX`, `DSCNT` and the balancing `OTHER`.
- It builds the applicant.
- It signs the application.
- It creates the application (POST) or updates it (PATCH, when a reference is already stored).
- It mirrors the lender's answer in the order's post meta.

**4. The plan catalog and checkout availability** — modules `ShortPlans`, `PlanCatalog` and `Availability`.
- The keyed plan list and its active, refine-list and per-product filters.
- The cart bounds taken from the plans and the merchant's limits.
- `showOptionAtCheckout`.

**5. The Merchant API Pub proxy** — module `MerchantApi`.
- The path and expected-status tables and the request headers.
- `validateResponse` and `getHealth`.
- The shape of each request.

## Supporting modules and conventions

Supporting modules:
- `Money`: `toPence`, PHP's `(int)` and `number_format`.
- `OrderStore`: orders plus the post-meta table.
- `Settings`: the gateway id, the configuration and the `REASONS` table.
- `Seqs`: filtering, joining and splitting.
- `Wrappers`: Option and Result.
- `Scenarios`: end-to-end properties across flows.

Conventions:
- Every operation is a pure function. It returns the new order store together with the reply, the request sent, or the error raised.
- Order totals are whole minor units (`Order.totalCents`). Amounts in the cart are `real`.
- These are parameters of the functions that use them:
  - the HMAC-SHA256/Base64 signature (`sign`);
  - JSON encoding of an application (`encode`);
  - the HTTP client (`transport`, which returns the status, raw body and decoded body);
  - the fetch of a remote application (`fetch`).
- `validateResponse` sees bodies that are already decoded.
- Translated texts are modelled as constructors: `Note`, `Title`, `CheckLine`, `ItemName`.
- Where the code does something other than what was evidently intended, the model follows the code as written, and the `## Findings` table gives the corrected version next to it.

## Model

| member | source | states |
|---|---|---|
| `Webhook.Callback` | includes/class-wc-gateway-finance.php:510-603 | The callback never changes post meta or order totals, never adds or removes an order, and leaves every order other than the notified one untouched |
| `Webhook.SignatureMismatchChangesNoStatus` | includes/class-wc-gateway-finance.php:519-535 | With a secret set and a header that is not the signature of the raw body, no order status changes. The shared-secret note and the `error`/"Invalid Hash error" ack happen exactly when the payload names an existing order; otherwise the store is unchanged |
| `Webhook.EmptySecretSkipsCheck` | includes/class-wc-gateway-finance.php:519-522 | With an empty secret, the result does not depend on the signature header or on the signing function |
| `Webhook.ForeignReferenceIgnored` | includes/class-wc-gateway-finance.php:537-541 | When the order's `_finance_reference` is missing or differs from the notified application, the store is unchanged and there is no reply |
| `Webhook.AmountMismatchHolds` | includes/class-wc-gateway-finance.php:543-559 | When the reference matches but `_finance_amount` is not the order total's text, the order goes `on-hold` and gets WooCommerce's status-change note (when it was not already on hold), then the amount-error note, and an `ok` ack. No mapped status and no payment completion are applied |
| `Webhook.StatusMapping` | includes/class-wc-gateway-finance.php:563-590 | DECLINED→failed and SIGNED→processing; the gateway adds no note of its own. REFERRED→on-hold and ACCEPTED→`pending-payment`, each after the "Finance status" note; `pending-payment` is not a registered status, so the order is stored as `pending`. Every status change also gets WooCommerce's "Order status changed from X to Y" note, after the "Finance status" note where there is one, and no such note when the status stays the same. READY adds the "Finance status" note and completes the payment: an order that is on hold, pending, failed or cancelled becomes processing, or completed when it needs no processing, and any other order keeps its status. Each of these acks `ok` and none changes whether the order needs processing. Any other status only adds the "order status" note and sends no ack |
| `Webhook.RedeliveryIsStable` | includes/class-wc-gateway-finance.php:540-590 | Delivering the same notification twice reaches the same statuses and reply as delivering it once |
| `ConfirmAct.CheckStatusDecision` | includes/class-wc-gateway-finance.php:625-667 | `bypass` is set exactly when the order's payment method is not the gateway id, and then nothing else is set. Otherwise: `notify` is true exactly for cancel with auto-cancel or refund with auto-refund; the action is cancel, refund or proceed accordingly; the first message line is the matching amount warning; reasons are present exactly for a lender in `REASONS`, with that lender's codes |
| `ConfirmAct.CheckStatusBadResponse` | includes/class-wc-gateway-finance.php:617-623 | A bad response from the application fetch yields the default reply carrying only the API-key message |
| `ConfirmAct.ShownAmountIsCents` | includes/class-wc-gateway-finance.php:633-635 | The amount shown for confirmation is two-argument `number_format` of the minor units: the two-decimal text with ',' between groups of thousands, then a space and the currency. With the commas removed, that text reads back as the same minor units |
| `ConfirmAct.ShownAmountExample` | includes/class-wc-gateway-finance.php:633-635 | A cancelable amount of 150000 minor units in GBP is shown as "1,500.00 GBP" |
| `Money.GroupedCentsRoundTrip` | includes/class-wc-gateway-finance.php:633 | Removing the thousands commas from the grouped text of a minor-unit amount gives its ungrouped two-decimal text, which reads back as that amount |
| `Money.GroupedExample` | includes/class-wc-gateway-finance.php:633 | 1500.0 is "1,500.00" with the grouping form and "1500.00" with the `'.', ''` form used for `_finance_amount` |
| `ConfirmAct.SetCancelled` | includes/class-wc-gateway-finance.php:1927-1947 | Posts to `/applications/{id}/cancellations` one line of quantity 1 priced `toPence` of the passed total (100 × a minor-unit total), with the optional reason |
| `ConfirmAct.SetRefund` | includes/class-wc-gateway-finance.php:1949-1970 | Posts to `/application/{id}/refunds` (singular) one line of quantity 1 priced 100 × the passed total, with the optional reason |
| `ConfirmAct.SetFulfilled` | includes/class-wc-gateway-finance.php:1972-1990 | Posts to `/applications/{id}/activations` one line priced `toPence(total)`, with no delivery method and no tracking number |
| `ConfirmAct.UpdateStatusGuards` | includes/class-wc-gateway-finance.php:670-691 | Nothing is sent, nothing is stored and the reply is not a success in each of these cases: the fetch failed; the order is not paid with this gateway (message "This order doesn't appear to be financed"); the order is missing. An unknown action gives "Could not find action" with nothing sent. The reply always echoes the reason |
| `ConfirmAct.UpdateStatusSends` | includes/class-wc-gateway-finance.php:692-725 | For an owned order, cancel posts to `/applications/{id}/cancellations` and refund to `/application/{id}/refunds`, for the fetched application's id. Each carries one line of quantity 1, named by the order number and priced 100 × the cancelable (or refundable) amount as written, or that amount itself when corrected, and the reason. Success holds exactly when the remote call returns, and only then is the matching note added; on failure the store is unchanged |
| `ConfirmAct.CancellationPriceInflated` | includes/class-wc-gateway-finance.php:693-699 | As written, the cancellation line is priced 100 × the cancelable amount, which is already in minor units |
| `ConfirmAct.ActionCall` | includes/class-wc-gateway-finance.php:692-707 | The remote call for cancel or refund: POST, the action's path for the application id, one line for the merchant reference, the reason; it succeeds exactly when transport succeeds, the body signals no error and the status is 201 |
| `ConfirmAct.CorrectedPriceMatchesConfirmation` | includes/class-wc-gateway-finance.php:633-657 | With the amount passed through unchanged, the price sent equals the cancelable or refundable minor units, and the amount `check_status` put in its warning line for that order (cancel or refund confirmation) is exactly the text of that price |
| `ConfirmAct.GatewayOrdersNeverActivated` | includes/class-wc-gateway-finance.php:1893-1913 | As written, an order whose `_payment_method` is the gateway id never gets an activation and never gets a note |
| `ConfirmAct.CorrectedFulfilment` | includes/class-wc-gateway-finance.php:1893-1913 | Comparing with the gateway id: an activation is sent exactly when the order is this gateway's and auto-fulfilment is not "no". It targets the stored reference, for the order total. The note is added exactly when the call succeeds |
| `MerchantApi.ExpectedCode` | includes/proxies/MerchantApiPubProxy.php:35-50 | Every POST expects 201; every GET and the PATCH expect 200 |
| `MerchantApi.SprintfSubstitutes` | includes/proxies/MerchantApiPubProxy.php:161-164 | `sprintf` on a template with one `%s` and no other directive puts the argument in place of `%s` |
| `MerchantApi.PathsSubstituteId` | includes/proxies/MerchantApiPubProxy.php:24-32 | The activation, cancellation, refund and patch paths are their templates with the application id substituted. Refund and patch use the singular `/application/` |
| `MerchantApi.FixedPathsIgnoreId` | includes/proxies/MerchantApiPubProxy.php:19-25 | The health, plans, environment and application-creation paths are the literal table entries |
| `MerchantApi.NewProxy` | includes/proxies/MerchantApiPubProxy.php:59-64 | A new proxy carries exactly three headers: Accept and Content-Type set to JSON, and `X-DIVIDO-API-KEY` set to the key |
| `MerchantApi.AddSecretHeader` | includes/proxies/MerchantApiPubProxy.php:72-74 | Adds `X-Divido-Hmac-Sha256` set to the secret and leaves every other header unchanged |
| `MerchantApi.ValidateResponse` | includes/proxies/MerchantApiPubProxy.php:257-275 | Success holds exactly when the body does not signal an error and the status is the expected one. A success returns the body unchanged. An error body (`error === true` with a `code`) raises BadResponse with its message as PHP's `??` gives it: a string as it is, a boolean or whole number as its PHP text, "An error occured" only when the message is missing or null and the {method, action} context. Otherwise a wrong status raises the unexpected-response error |
| `MerchantApi.ErrorMessageCoalesces` | includes/proxies/MerchantApiPubProxy.php:261 | An empty or `false` message gives "", the number −12 gives "-12", and only a null or missing message gives "An error occured" |
| `MerchantApi.BadResponseIgnoresStatus` | tests/unit/proxies/MerchantApiPubProxyTest.php:330-353 | An error body raises the same BadResponse whatever status comes with it |
| `MerchantApi.UnexpectedFieldsSwapped` | includes/exceptions/ResponseException.php:10-14 | The unexpected-response error is built as (message, status, action, method), so its method field holds the action and its action field holds the method |
| `MerchantApi.Call` | includes/proxies/MerchantApiPubProxy.php:134-145 | A call sends the endpoint's verb to base URI + path, with the proxy's headers and the payload. It succeeds exactly when transport succeeds and the response validates, and it then returns the decoded body unchanged |
| `MerchantApi.Health` | includes/proxies/MerchantApiPubProxy.php:81-91 | GET `/health` is true exactly when the raw body is `OK` and the status is 200. There is no validation, so an error body just means "not healthy" |
| `ShortPlans.FromRecord` | includes/class-wc-gateway-finance.php:1679-1687 | The getters of a built plan return the record's id, description and active flag, and the `(int)`-cast credit bounds. A whole-number bound is kept exactly |
| `ShortPlans.BuildPlansKeyed` | includes/class-wc-gateway-finance.php:1673-1687 | The plan array keyed by id has unique ids, and every plan comes from some record. For each id, the last record carrying it is the one kept |
| `PlanCatalog.AllFinances` | includes/class-wc-gateway-finance.php:343-372 | The fetched plans are returned as they are; a failed fetch yields no plans |
| `PlanCatalog.ActiveFilterExact` | includes/class-wc-gateway-finance.php:2115-2123 | Keeps exactly the active plans, as an order-preserving subsequence, and applying it twice changes nothing |
| `PlanCatalog.RefineFilterExact` | includes/class-wc-gateway-finance.php:2131-2145 | An empty refine list is the identity. Otherwise the filter keeps exactly the plans whose id is listed, in order, and is idempotent |
| `PlanCatalog.GetProductFinancePlans` | includes/class-wc-gateway-finance.php:807-821 | The list is non-empty exactly when the product's tab (the parent's, for a variation) is an array with `active` = `selected` and a non-empty `finances` list, and then it is that list |
| `PlanCatalog.EarlyExitAgrees` | includes/class-wc-gateway-finance.php:2081-2089 | Stopping at the first empty result gives the same plans as filtering by every product |
| `PlanCatalog.FilterPlansByProductsExact` | includes/class-wc-gateway-finance.php:2081-2107 | A plan survives the cart exactly when it was offered and every product in the cart lists its id |
| `PlanCatalog.ShortPlansExact` | includes/class-wc-gateway-finance.php:1671-1705 | With both filters on, the plans are exactly the kept plans that are active and, in selection mode with a non-empty list, selected. Ids stay unique |
| `PlanCatalog.PlanIds` | includes/class-wc-gateway-finance.php:836-838 | The ids list has one entry per plan, in plan order |
| `PlanCatalog.CommaSeparatedIdsRoundTrip` | includes/class-wc-gateway-finance.php:831-841 | No plans give "". When no id contains a comma, splitting the string on commas gives back the ids in order |
| `Availability.LowestMinimum` | includes/class-wc-gateway-finance.php:2208-2214 | The threshold loop yields none exactly for no plans, and otherwise the smallest credit minimum among them |
| `Availability.MaximumAsWritten` | includes/class-wc-gateway-finance.php:2234-2241 | The as-written loop yields none exactly for no plans, and otherwise the credit maximum of one of them |
| `Availability.MaximumAsWrittenRule` | includes/class-wc-gateway-finance.php:2236-2240 | The as-written result is the credit maximum of the plan that last replaced the running value: that plan's credit MINIMUM exceeded the value before it (or it was the first plan), and no later plan's minimum exceeded the value it stored |
| `Availability.HighestMaximum` | includes/class-wc-gateway-finance.php:2234-2241 | The loop comparing maximums yields the largest credit maximum |
| `Availability.MaximumAsWrittenMissesLargerPlan` | includes/class-wc-gateway-finance.php:2238 | For plans 0–1000 then 0–5000, the as-written loop settles on 1000, while the largest maximum is 5000 |
| `Availability.TrueCartThreshold` | includes/class-wc-gateway-finance.php:2207-2225 | The threshold is none exactly for no plans. It is never below the lowest plan minimum (in minor units). With plans and a merchant threshold whose `toPence` exceeds some plan's minimum, it is the merchant's threshold; without a merchant threshold, or when no minimum is below it, it is the lowest minimum ÷ 100 |
| `Availability.TrueCartMaxFrom` | includes/class-wc-gateway-finance.php:2243-2251 | The limit is none exactly when there is no folded maximum. It is never above that maximum (in minor units). It is the merchant's maximum exactly when that is set and its `toPence` is below the folded maximum; otherwise it is the folded maximum ÷ 100 |
| `Availability.TrueCartMaxChoice` | includes/class-wc-gateway-finance.php:2243-2251 | With the corrected fold: when some plan's maximum exceeds the merchant's maximum (in minor units), the merchant's maximum is the limit; when none does, the highest plan maximum ÷ 100 is |
| `Availability.ProductsMeetPriceThreshold` | includes/class-wc-gateway-finance.php:2030-2058 | True exactly when every product's price including tax is at least the threshold |
| `Availability.ShowOptionAtCheckoutWith` | includes/class-wc-gateway-finance.php:2153-2199 | The filter never adds a gateway and never removes any gateway other than this one |
| `Availability.CheckoutFilterOnlyRemovesGateway` | includes/class-wc-gateway-finance.php:2153-2199 | This gateway stays exactly when it was offered and no hiding condition holds. Hiding conditions: not available, no cart, total below the threshold, total above the limit, the price rule failing, no plan left under the "selected" rule. An unavailable gateway is always removed |
| `Availability.CorrectedCheckoutWithinPlanBounds` | includes/class-wc-gateway-finance.php:2172-2196 | With the corrected limit, an option that stays means all of these hold: the gateway is available; there is a cart; the total lies between the lowest plan minimum and the highest plan maximum of the offered plans; the price rule holds; and a plan survives the "selected" rule |
| `Availability.CheckoutRefusesCoveredCart` | includes/class-wc-gateway-finance.php:2233-2252 | As written, a 30.00 cart is refused although an active plan covers up to 50.00. The corrected filter offers it |
| `Money.ToPence` | includes/class-wc-gateway-finance.php:777-780 | `toPence` truncates amount × 100 toward zero (within one minor unit, on the side of zero), and it is 0 exactly for amounts strictly between −0.01 and 0.01 |
| `Money.ToPenceTruncates` | includes/class-wc-gateway-finance.php:779 | 0.999 becomes 99 and −0.999 becomes −99: truncated, not rounded |
| `Money.ToPenceOdd` | includes/class-wc-gateway-finance.php:779 | Truncation is symmetric: `toPence(−x) = −toPence(x)` |
| `Money.ToPenceWholeCents` | includes/class-wc-gateway-finance.php:777-780 | A whole number of minor units divided by 100 converts back exactly |
| `Money.ToPenceOfMinorUnits` | includes/class-wc-gateway-finance.php:777-780 | An integer amount comes out multiplied by 100 |
| `Money.CentsTextRoundTrip` | includes/class-wc-gateway-finance.php:1622 | The two-decimal `number_format` text of a minor-unit amount reads back as that amount |
| `Money.Fixed2SameText` | includes/class-wc-gateway-finance.php:545 | Two totals print the same `_finance_amount` text exactly when they round to the same minor unit |
| `ApplicationBuilder.ProductLines` | includes/class-wc-gateway-finance.php:1472-1486 | One line per cart row, in cart order. Each line has the row's title and quantity, unit price `toPence(subtotal / quantity)`, and the product's SKU as `get_sku()` gives it ("" when it has none, so the product id is never sent) |
| `ApplicationBuilder.TaxLines` | includes/class-wc-gateway-finance.php:1500-1509 | One line per cart tax, in order: the taxes label, quantity 1, price `toPence` of that tax, SKU `TAX` |
| `ApplicationBuilder.RowTotal` | includes/class-wc-gateway-finance.php:1477-1479 | For a whole-cent unit price, unit price × quantity is the row's line subtotal in minor units |
| `ApplicationBuilder.FeeLineTotal` | includes/class-wc-gateway-finance.php:1510-1528 | A fee's lines add up to its amount plus its tax when it is taxable, the same amount the running total receives |
| `ApplicationBuilder.ItemsReconcile` | includes/class-wc-gateway-finance.php:1470-1548 | When every amount is a whole number of minor units, price × quantity over all lines sent (products, shipping, taxes, fees, discount, balancing line) equals the order total |
| `ApplicationBuilder.BuildItemsLayout` | includes/class-wc-gateway-finance.php:1540-1548 | Product lines come first and every later line has quantity 1. The balancing `OTHER` line is last exactly when `toPence(total − accounted) ≠ 0`, and no charge line is a balancing line |
| `ApplicationBuilder.ChargeLinesShape` | includes/class-wc-gateway-finance.php:1488-1539 | Shipping, tax, fee and discount lines all have quantity 1 and never the `OTHER` SKU |
| `ApplicationBuilder.BalancingLineExample` | includes/class-wc-gateway-finance.php:1540-1548 | Rows of 10.00 and 5.00 need no balancing line for a total of 15.00, and need a 1-minor-unit line for 15.01 |
| `ApplicationBuilder.ApplicantShape` | includes/class-wc-gateway-finance.php:1555-1584 | The phone has its spaces removed and nothing else. No address field is empty ("" and "0" are dropped). Each shipping field falls back to billing only when empty, so an order without a shipping address ships to the billing address |
| `Submission.RefusedExactly` | includes/class-wc-gateway-finance.php:1451-1468 | Nothing is sent or stored exactly when the order is missing, a posted nonce is invalid, or no plan was posted. Otherwise the order's application is submitted |
| `Submission.SubmitCall` | includes/class-wc-gateway-finance.php:1608-1615 | POST `/applications` with the application when the stored reference is empty (PHP `empty`); otherwise PATCH `/application/{ref}` with the application carrying the reference as id |
| `Submission.SubmissionHeaders` | includes/class-wc-gateway-finance.php:1603-1606 | The API key is always a header. The signature header is present exactly when a secret is configured, and is then the signature of the encoded application |
| `Submission.SubmissionRequest` | includes/class-wc-gateway-finance.php:1603-1615 | The request sent is the create-or-patch above. The signature covers the application without its id, even when the patch body carries the id |
| `Submission.Mirrored` | includes/class-wc-gateway-finance.php:1617-1627 | After success: the redirect is the lender's application URL; `_finance_reference` is the returned id as PHP stores it (a string as it is, a number as its digits, "" when missing or null); `_finance_amount` is the order total's two-decimal text; `_finance_description` is the lender's plan description (its PHP text), or the posted plan when that is missing or null; the payment method, the orders and every other order's meta are unchanged |
| `Submission.SubmitSuccessMirrors` | includes/class-wc-gateway-finance.php:1608-1627 | A redirect happens only after a successful transport, and the store is the mirrored one |
| `Submission.SubmitFailureEffects` | includes/class-wc-gateway-finance.php:1628-1659 | A bad response is rethrown with nothing stored. Any other failure adds exactly one payment-rejection note to the order and changes nothing else |
| `Scenarios.SuccessStoresReference` | includes/class-wc-gateway-finance.php:1617-1622 | A successful submission keeps the orders and stores the returned id and the total's text |
| `Scenarios.ResubmissionPatches` | includes/class-wc-gateway-finance.php:1609-1614 | After a successful submission returning a non-empty id, submitting again PATCHes that application instead of creating one |
| `Submission.MirroredIdText` | includes/class-wc-gateway-finance.php:1617-1620 | A numeric application id 123 is stored as "123"; a null id is stored as "" |
| `Scenarios.SignedAfterSubmission` | includes/class-wc-gateway-finance.php:519-570 | After a successful submission, the lender's SIGNED notification for the returned id, with a valid signature for the configured secret (or no secret configured), moves the order to processing with an `ok` ack |
| `Scenarios.AcceptedThenReadyPays` | includes/class-wc-gateway-finance.php:563-585 | For notifications the signature check accepts, an ACCEPTED notification leaves the order pending; a following READY notification for the same application moves it to processing, or completed when it needs no processing, with an `ok` ack |
| `Scenarios.TotalDriftHolds` | includes/class-wc-gateway-finance.php:543-559 | If the order total changes after submission, the lender's next validly signed notification puts the order on hold, adding the status-change note (when it was not on hold already) and then the amount-error note, instead of applying its status |

## Left out

- HMAC-SHA256 and Base64 in `create_signature`: modelled as the `sign` parameter. Only strict equality of signature strings is modelled.
- HTTP transport, timeouts and `WP_Error`: modelled as the `transport` parameter. `includes/wrappers/HttpApiWrapper.php` is not part of this model. Its `patch` passes two arguments to a three-directive `sprintf`, which PHP 8 rejects; the model assumes the PATCH is sent.
- JSON decoding (`json_decode` with `JSON_THROW_ON_ERROR`): bodies arrive decoded, and `MerchantApi.ValidateResponse` has no malformed-body case. JSON encoding of an application is the `encode` parameter.
- `get_application` calls `getApplication` on the proxy, which `MerchantApiPubProxy` does not define. The remote fetch is the `fetch` parameter, returning the same value both times it is called within one request.
- Plan caching and transients in `get_all_finances`: `PLAN_CACHING` is `false`, so the fetch path alone is modelled. Logging is left out.
- Money.ToPence: uses exact reals, not IEEE doubles. In PHP, 0.29 × 100 and 19.99 × 100 fall just below 29 and 1999, so `toPence` gives 28 and 1998; here it gives 29 and 1999. `filter_var` numeric sanitising is also not modelled.
- Money.ToPenceWholeCents: holds for exact reals only. For PHP floats it is false: `toPence(0.29)` is 28.
- ApplicationBuilder.ItemsReconcile: holds only for exact reals, and only when every cart amount and unit price is a whole number of minor units. With fractional unit prices, the truncation in `toPence` makes the items fall short of the total. Under PHP floats it can fail even for whole minor units. A single 19.99 item with a 19.99 total sends 1998 against 1999. No `OTHER` line is added, because `toPence(19.99 − 19.99)` is 0.
- WooCommerce's `get_total()` is taken to be the total's two-decimal text. The webhook's strict `!==` against `_finance_amount` is then string inequality. WooCommerce internals that could return another representation are not modelled.
- Configuration parsing (`filter_var` on `cartThreshold`, `maxLoanAmount`, `priceSelection`): the model takes the parsed values, with `None` for an empty setting.
- PHP loose comparison in `in_array` (plan ids versus listed ids) is modelled as string equality.
- `send_json`'s `platform` and `plugin_version` fields: it reads the plugin header of a file that has none. The ack is modelled as (status, message).
- Application URLs, the metadata block and `withFinalisationRequired`: they carry no decision. `finance_plan.description` is stored as PHP would convert it (string, boolean, whole number). A fractional number, array or object there is modelled as absent, so the posted plan is stored instead.
- Cart quantities are positive (`ApplicationBuilder.Quantity`), because the unit price divides by the quantity. The `round()` of an already integral unit price is the identity and is not written out.
- `WC_Order` is not part of this model. Its `set_status` and `payment_complete` are modelled from their documented behaviour (`OrderStore.NormaliseStatus`, `OrderStore.PaymentComplete`): the `wc-` prefix is stripped; an unregistered status becomes `pending`; a paid order that was on hold, pending, failed or cancelled becomes processing or completed; every actual status change adds the "Order status changed from X to Y" note (`OrderStore.StatusChanged`, with the status slugs in place of their display names). Not modelled: statuses registered by other plugins, hooks that fire on status changes, the paid date, and the transaction id.
- Submission.Mirrored: a fractional-number, array or object `data.id` is stored as "" here, whereas PHP would store the float's text or serialise the value. Strings, booleans, whole numbers and null follow PHP.
- ValidateResponse: an error body whose `message` is a fractional number, an array or an object is modelled with the default text. PHP would pass the float's text, or raise a TypeError for an array or object. Strings, booleans, whole numbers, null and a missing message follow `??` exactly (`MerchantApi.ErrorMessage`).
- Rendering and UI: widgets, calculators, admin pages, scripts, settings forms and block registration.
- `includes/models/ShortPlan.php` as shown declares only id, name and active. The gateway constructs plans with five arguments and reads `getCreditMinimum`/`getCreditMaximum`, so the model uses that five-field form.
- The older root copy `class-wc-gateway-finance.php` is not loaded by the plugin bootstrap and is not part of this model.

## Findings

| source | as written | input that shows it | evidently intended | confidence | as-written member | corrected member |
|---|---|---|---|---|---|---|
| includes/class-wc-gateway-finance.php:693-707 | `update_status` passes `cancelable_amount`/`refundable_amount`, already in minor units, to `set_cancelled`/`set_refund`, which price the line `toPence` of it, i.e. ×100 again | once the fetch works, a cancelable amount of 1500 (shown to the merchant as "15.00 GBP") is sent priced 150000 | send the minor-unit amount as it is, matching the amount the confirmation showed | not executed; latent: as written, `get_application` at line 681 calls `getApplication`, which the proxy does not define. The resulting Error is not caught by `catch (\Exception)` at line 723, so nothing is sent until that call is fixed (the model's `fetch` parameter stands for the fixed call) | `ConfirmAct.CancellationPriceInflated` | `ConfirmAct.CorrectedPriceMatchesConfirmation` |
| includes/class-wc-gateway-finance.php:1899 | `send_finance_fulfillment_request` fires only when `_payment_method` is the literal `'finance'`, but the gateway registers as `'divido-finance'` (line 139) | any order paid with this gateway, auto-fulfilment on: no activation is sent | compare with the gateway's own id | not executed | `ConfirmAct.GatewayOrdersNeverActivated` | `ConfirmAct.CorrectedFulfilment` |
| includes/class-wc-gateway-finance.php:2238 | `getTrueCartMax` replaces its running maximum when a plan's credit MINIMUM exceeds it | active plans 0–1000 then 0–5000 minor units, cart 30.00: the limit is 10.00 and the option is hidden | compare credit maximums, so the limit is the largest plan maximum | not executed | `Availability.CheckoutRefusesCoveredCart` | `Availability.CorrectedCheckoutWithinPlanBounds` |

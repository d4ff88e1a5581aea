/** The Merchant API Pub proxy: endpoint paths and expected status codes,
    request headers, response validation and the per-call request shape.
    HTTP transport is a parameter; bodies arrive already decoded. */
module MerchantApi {
  import opened Wrappers
  import Money

  /** A decoded JSON value. */
  datatype Json =
    | JNull
    | JBool(b: bool)
    | JNum(n: real)
    | JStr(s: string)
    | JArr(items: seq<Json>)
    | JObj(fields: map<string, Json>)

  /** PHP `isset($obj->key)`: the key is present and not null. */
  predicate IsSet(j: Json, key: string)
  {
    j.JObj? && key in j.fields && j.fields[key] != JNull
  }

  /** `$obj->a->b->...`, absent as soon as a step is missing. */
  function Lookup(j: Json, path: seq<string>): Option<Json>
  {
    if |path| == 0 then Some(j)
    else if j.JObj? && path[0] in j.fields then Lookup(j.fields[path[0]], path[1..])
    else None
  }

  /** A field as the gateway stores it in post meta: its PHP text (a number
      as its digits), and the empty string when it is missing or null. */
  function TextAt(j: Json, path: seq<string>): (r: string)
    ensures Lookup(j, path).None? || Lookup(j, path) == Some(JNull) ==> r == ""
    ensures Lookup(j, path).Some? && PhpText(Lookup(j, path).value).Some? ==> r == PhpText(Lookup(j, path).value).value
  {
    match Lookup(j, path)
    case Some(v) => PhpText(v).GetOr("")
    case None => ""
  }

  /** The (method, action) pairs the proxy calls. */
  datatype Endpoint =
    | GetHealth | GetPlans | GetEnvironment
    | PostApplication | PostActivation | PostRefund | PostCancellation
    | PatchApplication

  function MethodName(ep: Endpoint): string
  {
    match ep
    case GetHealth | GetPlans | GetEnvironment => "GET"
    case PostApplication | PostActivation | PostRefund | PostCancellation => "POST"
    case PatchApplication => "PATCH"
  }

  function ActionName(ep: Endpoint): string
  {
    match ep
    case GetHealth => "HEALTH"
    case GetPlans => "PLANS"
    case GetEnvironment => "ENVIRONMENT"
    case PostApplication | PatchApplication => "APPLICATION"
    case PostActivation => "ACTIVATION"
    case PostRefund => "REFUND"
    case PostCancellation => "CANCELLATION"
  }

  /** `EXPECTED_RESPONSE_CODES[method][action]`. */
  function ExpectedCode(ep: Endpoint): (code: int)
    ensures MethodName(ep) == "POST" ==> code == 201
    ensures MethodName(ep) != "POST" ==> code == 200
  {
    match ep
    case GetHealth => 200
    case GetPlans => 200
    case GetEnvironment => 200
    case PostApplication => 201
    case PostActivation => 201
    case PostRefund => 201
    case PostCancellation => 201
    case PatchApplication => 200
  }

  /** `PATHS[method][action]`; templated paths hold one `%s`. */
  function PathTemplate(ep: Endpoint): string
  {
    match ep
    case GetHealth => "/health"
    case GetPlans => "/finance-plans"
    case GetEnvironment => "/environment"
    case PostApplication => "/applications"
    case PostActivation => "/applications/%s/activations"
    case PostRefund => "/application/%s/refunds"
    case PostCancellation => "/applications/%s/cancellations"
    case PatchApplication => "/application/%s"
  }

  /** PHP `sprintf($format, $arg)` for formats whose only directive is `%s`. */
  function Sprintf1(format: string, arg: string): string
  {
    if |format| < 2 then format
    else if format[0] == '%' && format[1] == 's' then arg + format[2..]
    else [format[0]] + Sprintf1(format[1..], arg)
  }

  lemma {:induction false} SprintfSubstitutes(pre: string, post: string, arg: string)
    requires '%' !in pre
    ensures Sprintf1(pre + "%s" + post, arg) == pre + arg + post
    decreases |pre|
  {
    var f := pre + "%s" + post;
    if |pre| > 0 {
      assert f[0] == pre[0] && pre[0] in pre;
      assert f[1..] == pre[1..] + "%s" + post;
      SprintfSubstitutes(pre[1..], post, arg);
      calc {
        Sprintf1(f, arg);
        [f[0]] + Sprintf1(f[1..], arg);
        [pre[0]] + (pre[1..] + arg + post);
        { assert [pre[0]] + pre[1..] == pre; }
        pre + arg + post;
      }
    } else {
      assert f == "%s" + post;
      assert f[0] == '%' && f[1] == 's';
      assert f[2..] == post;
    }
  }

  lemma {:induction false} SprintfNoDirective(format: string, arg: string)
    requires '%' !in format
    ensures Sprintf1(format, arg) == format
    decreases |format|
  {
    if |format| >= 2 {
      assert format[0] in format;
      SprintfNoDirective(format[1..], arg);
      assert [format[0]] + format[1..] == format;
    }
  }

  /** The request path of a call on `applicationId`. */
  function PathFor(ep: Endpoint, applicationId: string): string
  {
    Sprintf1(PathTemplate(ep), applicationId)
  }

  lemma TemplatedPath(ep: Endpoint, pre: string, post: string, id: string)
    requires PathTemplate(ep) == pre + "%s" + post && '%' !in pre
    ensures PathFor(ep, id) == pre + id + post
  {
    SprintfSubstitutes(pre, post, id);
  }

  lemma FixedPath(ep: Endpoint, id: string)
    requires '%' !in PathTemplate(ep)
    ensures PathFor(ep, id) == PathTemplate(ep)
  {
    SprintfNoDirective(PathTemplate(ep), id);
  }

  /** Activation, cancellation, refund and patch paths are their templates with
      the application id substituted; refund and patch use the singular
      `/application/`. */
  lemma PathsSubstituteId(id: string)
    ensures PathFor(PostActivation, id) == "/applications/" + id + "/activations"
    ensures PathFor(PostCancellation, id) == "/applications/" + id + "/cancellations"
    ensures PathFor(PostRefund, id) == "/application/" + id + "/refunds"
    ensures PathFor(PatchApplication, id) == "/application/" + id
  {
    TemplateSplit("/applications/", "/activations");
    TemplatedPath(PostActivation, "/applications/", "/activations", id);
    TemplateSplit("/applications/", "/cancellations");
    TemplatedPath(PostCancellation, "/applications/", "/cancellations", id);
    TemplateSplit("/application/", "/refunds");
    TemplatedPath(PostRefund, "/application/", "/refunds", id);
    TemplateSplit("/application/", "");
    TemplatedPath(PatchApplication, "/application/", "", id);
  }

  /** The literal templates are a prefix free of directives, `%s` and a suffix. */
  lemma TemplateSplit(pre: string, post: string)
    requires pre in {"/applications/", "/application/"}
    requires post in {"/activations", "/cancellations", "/refunds", ""}
    ensures '%' !in pre
    ensures pre == "/applications/" && post == "/activations" ==> PathTemplate(PostActivation) == pre + "%s" + post
    ensures pre == "/applications/" && post == "/cancellations" ==> PathTemplate(PostCancellation) == pre + "%s" + post
    ensures pre == "/application/" && post == "/refunds" ==> PathTemplate(PostRefund) == pre + "%s" + post
    ensures pre == "/application/" && post == "" ==> PathTemplate(PatchApplication) == pre + "%s" + post
  {
  }

  /** The health, plans, environment and application-creation paths carry no id. */
  lemma FixedPathsIgnoreId(id: string)
    ensures PathFor(GetHealth, id) == "/health"
    ensures PathFor(GetPlans, id) == "/finance-plans"
    ensures PathFor(GetEnvironment, id) == "/environment"
    ensures PathFor(PostApplication, id) == "/applications"
  {
    FixedPath(GetHealth, id);
    FixedPath(GetPlans, id);
    FixedPath(GetEnvironment, id);
    FixedPath(PostApplication, id);
  }

  const ApiKeyHeader := "X-DIVIDO-API-KEY"
  const SharedSecretHeader := "X-Divido-Hmac-Sha256"
  const JsonMediaType := "application/json"

  /** A proxy: the base URI and the headers every request carries. */
  datatype Proxy = Proxy(baseUri: string, headers: map<string, string>)

  /** The constructor: JSON Accept and Content-Type headers and the API key. */
  function NewProxy(baseUri: string, apiKey: string): (p: Proxy)
    ensures p.baseUri == baseUri
    ensures p.headers.Keys == {"Accept", "Content-Type", ApiKeyHeader}
    ensures p.headers["Accept"] == JsonMediaType && p.headers["Content-Type"] == JsonMediaType
    ensures p.headers[ApiKeyHeader] == apiKey
  {
    Proxy(baseUri, map["Accept" := JsonMediaType][ "Content-Type" := JsonMediaType][ApiKeyHeader := apiKey])
  }

  /** `addSecretHeader`: sets the signature header and nothing else. */
  function AddSecretHeader(p: Proxy, secret: string): (q: Proxy)
    ensures q.baseUri == p.baseUri
    ensures q.headers.Keys == p.headers.Keys + {SharedSecretHeader}
    ensures q.headers[SharedSecretHeader] == secret
    ensures forall k :: k in p.headers && k != SharedSecretHeader ==> q.headers[k] == p.headers[k]
  {
    p.(headers := p.headers[SharedSecretHeader := secret])
  }

  /** One order line of an application, activation, cancellation or refund. */
  datatype ItemName =
    | ProductTitle(title: string)
    | ShippingLabel | TaxesLabel | FeesLabel | FeeTaxLabel | DiscountLabel | OtherLabel
    | OrderIdLabel(orderId: string)

  datatype LineItem = LineItem(name: ItemName, quantity: int, price: int, sku: Option<string>)

  /** The applicant of an application. Address maps hold only non-empty fields. */
  datatype Applicant = Applicant(
    firstName: string,
    lastName: string,
    phoneNumber: string,
    email: string,
    address: map<string, string>,
    shippingAddress: map<string, string>)

  /** An application as submitted (merchant reference is the order id as text). */
  datatype Application = Application(
    id: Option<string>,
    countryId: string,
    financePlanId: string,
    applicant: Applicant,
    orderItems: seq<LineItem>,
    depositAmount: int,
    merchantReference: string)

  /** The request bodies the proxy sends. */
  datatype Payload =
    | NoBody
    | ApplicationBody(application: Application)
    | ActivationBody(items: seq<LineItem>, deliveryMethod: Option<string>, trackingNumber: Option<string>)
    | CancellationBody(items: seq<LineItem>, reason: Option<string>)
    | RefundBody(items: seq<LineItem>, reason: Option<string>)

  datatype HttpRequest = HttpRequest(verb: string, url: string, path: string, headers: map<string, string>, payload: Payload)

  /** A response: status code, raw body text and the body decoded as JSON. */
  datatype HttpResponse = HttpResponse(code: int, rawBody: string, body: Json)

  /** The `{method, action}` context of a bad-response error. */
  datatype Context = Context(httpMethod: string, action: string)

  /** The errors a call raises. `Unexpected` is constructed with its method
      and action fields swapped, as the source passes them. */
  datatype ApiError =
    | BadResponse(message: string, code: Json, context: Context)
    | Unexpected(message: string, status: int, reportedMethod: string, reportedAction: string)
    | TransportFailure(message: string)
  {
    function GetMessage(): string { message }
  }

  const UnexpectedMessage := "An unexpected error occurred when contacting the Merchant API Pub"
  const DefaultErrorMessage := "An error occured"

  /** The body explicitly signals an error: `error === true` and a `code`. */
  predicate SignalsError(body: Json)
  {
    IsSet(body, "error") && body.fields["error"] == JBool(true) && IsSet(body, "code")
  }

  /** PHP's conversion of a decoded JSON scalar passed where a string is
      expected: a string as it is, `true` as "1", `false` as "", a whole number
      as its decimal digits. `None` for a fractional number, an array or an
      object, which this model does not convert. */
  function PhpText(j: Json): (r: Option<string>)
    ensures j.JStr? ==> r == Some(j.s)
    ensures r.Some? ==> j.JStr? || j.JBool? || j.JNum?
  {
    match j
    case JStr(s) => Some(s)
    case JBool(b) => Some(if b then "1" else "")
    case JNum(n) =>
      if n.Floor as real == n then
        Some(if n < 0.0 then "-" + Money.NatText(-n.Floor) else Money.NatText(n.Floor))
      else None
    case _ => None
  }

  /** `$body->message ?? "An error occured"`: the default only when the
      message is missing or null (or of a kind `PhpText` does not convert). */
  function ErrorMessage(body: Json): (r: string)
    ensures !IsSet(body, "message") ==> r == DefaultErrorMessage
    ensures IsSet(body, "message") && PhpText(body.fields["message"]).Some? ==>
      r == PhpText(body.fields["message"]).value
  {
    if !IsSet(body, "message") then DefaultErrorMessage
    else PhpText(body.fields["message"]).GetOr(DefaultErrorMessage)
  }

  /** `??` falls back only on a missing or null message: an empty or false
      message is kept as "", a whole number as its digits. */
  lemma ErrorMessageCoalesces(code: Json)
    ensures ErrorMessage(JObj(map["message" := JStr(""), "code" := code])) == ""
    ensures ErrorMessage(JObj(map["message" := JBool(false), "code" := code])) == ""
    ensures ErrorMessage(JObj(map["message" := JNum(-12.0), "code" := code])) == "-12"
    ensures ErrorMessage(JObj(map["message" := JNull, "code" := code])) == DefaultErrorMessage
    ensures ErrorMessage(JObj(map["code" := code])) == DefaultErrorMessage
  {
    assert (-12.0).Floor == -12;
    assert Money.NatText(12) == "12";
  }

  /** `validateResponse`: a body that signals an error raises BadResponse whatever
      the status; otherwise a status other than the expected one raises the
      unexpected-response error; otherwise the decoded body is returned. */
  function ValidateResponse(ep: Endpoint, status: int, body: Json): (r: Result<Json, ApiError>)
    ensures r.Success? <==> !SignalsError(body) && status == ExpectedCode(ep)
    ensures r.Success? ==> r.value == body
    ensures SignalsError(body) ==>
      r == Failure(BadResponse(ErrorMessage(body), body.fields["code"], Context(MethodName(ep), ActionName(ep))))
    ensures !SignalsError(body) && status != ExpectedCode(ep) ==>
      r == Failure(Unexpected(UnexpectedMessage, status, ActionName(ep), MethodName(ep)))
  {
    if SignalsError(body) then
      Failure(BadResponse(ErrorMessage(body), body.fields["code"], Context(MethodName(ep), ActionName(ep))))
    else if status != ExpectedCode(ep) then
      Failure(Unexpected(UnexpectedMessage, status, ActionName(ep), MethodName(ep)))
    else
      Success(body)
  }

  /** A bad-response body raises the same error whatever status accompanies it. */
  lemma BadResponseIgnoresStatus(ep: Endpoint, s1: int, s2: int, body: Json)
    requires SignalsError(body)
    ensures ValidateResponse(ep, s1, body) == ValidateResponse(ep, s2, body)
    ensures ValidateResponse(ep, s1, body).Failure? && ValidateResponse(ep, s1, body).error.BadResponse?
  {
  }

  /** The unexpected-response error reports the action where its method belongs:
      `getMethod()` yields the action and `getAction()` the method. */
  lemma UnexpectedFieldsSwapped(ep: Endpoint, status: int, body: Json)
    requires !SignalsError(body) && status != ExpectedCode(ep)
    ensures var r := ValidateResponse(ep, status, body);
      r.Failure? && r.error.Unexpected? && r.error.reportedMethod == ActionName(ep) && r.error.reportedAction == MethodName(ep)
  {
  }

  /** The result of one proxy call: the request sent and what the call returns. */
  datatype CallResult = CallResult(request: HttpRequest, result: Result<Json, ApiError>)

  function Request(p: Proxy, ep: Endpoint, applicationId: string, payload: Payload): HttpRequest
  {
    var path := PathFor(ep, applicationId);
    HttpRequest(MethodName(ep), p.baseUri + path, path, p.headers, payload)
  }

  /** One validated call: build the request, send it, validate the response. */
  function Call(p: Proxy, ep: Endpoint, applicationId: string, payload: Payload,
                transport: HttpRequest -> Result<HttpResponse, string>): (r: CallResult)
    ensures r.request.verb == MethodName(ep)
    ensures r.request.path == PathFor(ep, applicationId)
    ensures r.request.url == p.baseUri + r.request.path
    ensures r.request.headers == p.headers && r.request.payload == payload
    ensures r.result.Success? <==>
      transport(r.request).Success?
      && !SignalsError(transport(r.request).value.body)
      && transport(r.request).value.code == ExpectedCode(ep)
    ensures r.result.Success? ==> r.result.value == transport(r.request).value.body
  {
    var req := Request(p, ep, applicationId, payload);
    match transport(req)
    case Failure(msg) => CallResult(req, Failure(TransportFailure(msg)))
    case Success(resp) => CallResult(req, ValidateResponse(ep, resp.code, resp.body))
  }

  /** `getHealth`: true exactly for status 200 with body `OK`; the response is
      not validated, so an error body is simply "not healthy". */
  function Health(p: Proxy, transport: HttpRequest -> Result<HttpResponse, string>): (r: Result<bool, ApiError>)
    ensures var req := Request(p, GetHealth, "", NoBody);
      && req.path == "/health"
      && (transport(req).Success? ==> r == Success(transport(req).value.rawBody == "OK" && transport(req).value.code == 200))
      && (transport(req).Failure? ==> r.Failure?)
  {
    FixedPathsIgnoreId("");
    var req := Request(p, GetHealth, "", NoBody);
    match transport(req)
    case Failure(msg) => Failure(TransportFailure(msg))
    case Success(resp) => Success(resp.rawBody == "OK" && resp.code == 200)
  }

  function GetEnvironmentCall(p: Proxy, transport: HttpRequest -> Result<HttpResponse, string>): CallResult
  {
    Call(p, GetEnvironment, "", NoBody, transport)
  }

  function GetFinancePlansCall(p: Proxy, transport: HttpRequest -> Result<HttpResponse, string>): CallResult
  {
    Call(p, GetPlans, "", NoBody, transport)
  }

  function PostApplicationCall(p: Proxy, app: Application, transport: HttpRequest -> Result<HttpResponse, string>): CallResult
  {
    Call(p, PostApplication, "", ApplicationBody(app), transport)
  }

  /** `updateApplication`: PATCH on the application's own id (`null` prints as ""). */
  function UpdateApplicationCall(p: Proxy, app: Application, transport: HttpRequest -> Result<HttpResponse, string>): CallResult
  {
    Call(p, PatchApplication, app.id.GetOr(""), ApplicationBody(app), transport)
  }

  function PostActivationCall(p: Proxy, applicationId: string, items: seq<LineItem>, deliveryMethod: Option<string>,
                              trackingNumber: Option<string>, transport: HttpRequest -> Result<HttpResponse, string>): CallResult
  {
    Call(p, PostActivation, applicationId, ActivationBody(items, deliveryMethod, trackingNumber), transport)
  }

  function PostCancellationCall(p: Proxy, applicationId: string, items: seq<LineItem>, reason: Option<string>,
                                transport: HttpRequest -> Result<HttpResponse, string>): CallResult
  {
    Call(p, PostCancellation, applicationId, CancellationBody(items, reason), transport)
  }

  function PostRefundCall(p: Proxy, applicationId: string, items: seq<LineItem>, reason: Option<string>,
                          transport: HttpRequest -> Result<HttpResponse, string>): CallResult
  {
    Call(p, PostRefund, applicationId, RefundBody(items, reason), transport)
  }
}

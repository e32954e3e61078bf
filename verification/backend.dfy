/**
 * The Shopify-side backend client: the canonical event built from a webhook
 * delivery, the configuration helpers, and how a backend response is read.
 * Source: packages/shopify-app/src/services/backend.ts.
 */
module Backend {
  import opened JsValues

  datatype Platform = Shopify | WooCommerce
  datatype FinancialStatus = Pending | Paid | Failed
  datatype EventType = CheckoutStarted | OrderCreated | OrderFailed

  function PlatformName(p: Platform): string {
    match p
    case Shopify => "shopify"
    case WooCommerce => "woocommerce"
  }

  function FinancialStatusName(f: FinancialStatus): string {
    match f
    case Pending => "pending"
    case Paid => "paid"
    case Failed => "failed"
  }

  function EventTypeName(e: EventType): string {
    match e
    case CheckoutStarted => "checkout_started"
    case OrderCreated => "order_created"
    case OrderFailed => "order_failed"
  }

  /** What the webhook route hands to `forwardWebhook`. */
  datatype WebhookForwardPayload = WebhookForwardPayload(shopDomain: string, topic: string, body: Value)

  /** The canonical event forwarded to the backend's `/events` endpoint. */
  datatype CharmsEvent = CharmsEvent(
    shopId: string,
    sourcePlatform: Platform,
    eventType: EventType,
    financialStatus: FinancialStatus,
    orderTotal: real,
    timestamp: string,
    rawPayload: Value)

  /** Topics whose financial status is fixed whatever the body says. */
  const CheckoutsCreate := "checkouts/create"
  const OrdersPaid := "orders/paid"
  const OrdersCancelled := "orders/cancelled"

  predicate IsPriorityTopic(lowerTopic: string) {
    lowerTopic == CheckoutsCreate || lowerTopic == OrdersPaid || lowerTopic == OrdersCancelled
  }

  /** Payment states a body may declare that count as a failed payment. */
  const FailedStatuses: set<string> := {"voided", "refunded", "partially_refunded", "cancelled"}

  /**
   * `toRecord`: a truthy non-array object is read as a record, anything else
   * as no record. A Buffer is such an object; none of the field names the
   * normaliser reads is a property of it, so it reads as an empty record.
   */
  function ToRecord(v: Value): (r: Option<map<string, Value>>)
    ensures r.Some? <==> v.Obj? || v.Buf?
    ensures v.Obj? ==> r == Some(v.fields)
  {
    match v
    case Obj(f) => Some(f)
    case Buf(_) => Some(map[])
    case _ => None
  }

  /** `normalizeFinancialStatus`: the topic decides first, then the body's own status. */
  function NormalizeFinancialStatus(topic: string, status: Value): (r: FinancialStatus)
    ensures r == Paid <==>
      Lower(topic) == OrdersPaid
      || (!IsPriorityTopic(Lower(topic)) && status.Str? && Lower(status.s) == "paid")
    ensures r == Failed <==>
      Lower(topic) == OrdersCancelled
      || (!IsPriorityTopic(Lower(topic)) && status.Str? && Lower(status.s) in FailedStatuses)
  {
    var t := Lower(topic);
    if t == CheckoutsCreate then Pending
    else if t == OrdersPaid then Paid
    else if t == OrdersCancelled then Failed
    else if !status.Str? then Pending
    else
      var lower := Lower(status.s);
      if lower == "paid" then Paid
      else if lower in FailedStatuses then Failed
      else Pending
  }

  /** `resolveEventType` */
  function ResolveEventType(topic: string): (r: EventType)
    ensures r == CheckoutStarted <==> Lower(topic) == CheckoutsCreate
    ensures r == OrderFailed <==> Lower(topic) == OrdersCancelled
    ensures r == OrderCreated <==> Lower(topic) != CheckoutsCreate && Lower(topic) != OrdersCancelled
  {
    var t := Lower(topic);
    if t == CheckoutsCreate then CheckoutStarted
    else if t == OrdersCancelled then OrderFailed
    else OrderCreated
  }

  /**
   * `parseAmount`: a finite number, or a string that `Number.parseFloat`
   * (given as `parseFloat`) turns into a finite number; otherwise nothing.
   */
  function ParseAmount(v: Value, parseFloat: string -> Number): (r: Option<real>)
    ensures r.Some? ==>
      (v.Num? && v.n == Finite(r.value)) || (v.Str? && parseFloat(v.s) == Finite(r.value))
    ensures r.None? <==> !(v.Num? && v.n.Finite?) && !(v.Str? && parseFloat(v.s).Finite?)
  {
    match v
    case Num(Finite(x)) => Some(x)
    case Str(s) => if parseFloat(s).Finite? then Some(parseFloat(s).r) else None
    case _ => None
  }

  /** The candidates for the order total, in the order the `??` chain tries them. */
  const AmountFields: seq<string> := ["total_price", "subtotal_price", "current_total_price", "total_line_items_price"]

  /**
   * The `??` chain over the given field names: the first non-nullish field,
   * or the last field when every earlier one is nullish.
   */
  function CoalesceFields(body: Option<map<string, Value>>, keys: seq<string>): (r: Value)
    requires |keys| >= 1
    ensures exists i :: (0 <= i < |keys| && r == FieldOf(body, keys[i])
      && (forall j :: 0 <= j < i ==> Nullish(FieldOf(body, keys[j])))
      && (i < |keys| - 1 ==> !Nullish(r)))
  {
    if |keys| == 1 then FieldOf(body, keys[0])
    else
      var rest := CoalesceFields(body, keys[1..]);
      var r := Coalesce(FieldOf(body, keys[0]), rest);
      if !Nullish(FieldOf(body, keys[0])) then
        assert r == FieldOf(body, keys[0]);
        r
      else
        var i :| 0 <= i < |keys| - 1 && rest == FieldOf(body, keys[1..][i])
          && (forall j :: 0 <= j < i ==> Nullish(FieldOf(body, keys[1..][j])))
          && (i < |keys| - 2 ==> !Nullish(rest));
        assert forall j :: 0 <= j < i + 1 ==> Nullish(FieldOf(body, keys[j])) by {
          forall j | 0 <= j < i + 1 ensures Nullish(FieldOf(body, keys[j])) {
            if j > 0 { assert keys[j] == keys[1..][j - 1]; }
          }
        }
        assert r == FieldOf(body, keys[i + 1]);
        r
  }

  /** The first non-nullish amount candidate of the body. */
  function AmountCandidate(body: Option<map<string, Value>>): Value {
    CoalesceFields(body, AmountFields)
  }

  /** `order_total`: the parsed candidate, or 0 when it does not parse. */
  function OrderTotal(body: Option<map<string, Value>>, parseFloat: string -> Number): (total: real)
    ensures (forall j :: 0 <= j < |AmountFields| ==> Nullish(FieldOf(body, AmountFields[j]))) ==> total == 0.0
    ensures total == 0.0 || exists k :: k in AmountFields && ParseAmount(FieldOf(body, k), parseFloat) == Some(total)
  {
    var r := AmountCandidate(body);
    var k :| 0 <= k < |AmountFields| && r == FieldOf(body, AmountFields[k]);
    ParseAmount(r, parseFloat).GetOr(0.0)
  }

  /**
   * `extractTimestamp`: the `||` chain over three fields, kept only when it
   * yields a string; otherwise `now`, the current time in ISO-8601.
   */
  function ExtractTimestamp(body: Option<map<string, Value>>, now: string): (r: string)
    ensures body.None? ==> r == now
    ensures r == now || exists k :: k in {"processed_at", "created_at", "updated_at"} && FieldOf(body, k) == Str(r)
    ensures var p := FieldOf(body, "processed_at");
      Truthy(p) ==> r == (if p.Str? then p.s else now)
    ensures var p, c := FieldOf(body, "processed_at"), FieldOf(body, "created_at");
      !Truthy(p) && Truthy(c) ==> r == (if c.Str? then c.s else now)
    ensures var p, c, u := FieldOf(body, "processed_at"), FieldOf(body, "created_at"), FieldOf(body, "updated_at");
      !Truthy(p) && !Truthy(c) ==> r == (if u.Str? then u.s else now)
  {
    var candidate := OrElse(FieldOf(body, "processed_at"),
      OrElse(FieldOf(body, "created_at"), FieldOf(body, "updated_at")));
    if candidate.Str? then candidate.s else now
  }

  /** `buildCharmsEvent`: total over every body; malformed input degrades to defaults. */
  function BuildCharmsEvent(payload: WebhookForwardPayload, parseFloat: string -> Number, now: string): (e: CharmsEvent)
    ensures e.shopId == payload.shopDomain
    ensures e.sourcePlatform == Shopify
    ensures e.rawPayload == payload.body
    ensures e.eventType == ResolveEventType(payload.topic)
    ensures e.financialStatus == NormalizeFinancialStatus(payload.topic, FieldOf(ToRecord(payload.body), "financial_status"))
    ensures e.orderTotal == OrderTotal(ToRecord(payload.body), parseFloat)
    ensures e.timestamp == ExtractTimestamp(ToRecord(payload.body), now)
  {
    var body := ToRecord(payload.body);
    var topic := Lower(payload.topic);
    LowerIdempotent(payload.topic);
    CharmsEvent(
      payload.shopDomain,
      Shopify,
      ResolveEventType(topic),
      NormalizeFinancialStatus(topic, FieldOf(body, "financial_status")),
      OrderTotal(body, parseFloat),
      ExtractTimestamp(body, now),
      payload.body)
  }

  /** The topic alone fixes the financial status of checkout, paid and cancelled deliveries. */
  lemma PriorityTopicIgnoresBody(topic: string, s1: Value, s2: Value)
    requires IsPriorityTopic(Lower(topic))
    ensures NormalizeFinancialStatus(topic, s1) == NormalizeFinancialStatus(topic, s2)
    ensures Lower(topic) == CheckoutsCreate ==> NormalizeFinancialStatus(topic, s1) == Pending
  {
  }

  /** Unknown topics and unknown or ill-typed statuses resolve to the conservative defaults. */
  lemma UnknownResolvesToDefaults(topic: string, status: Value)
    requires !IsPriorityTopic(Lower(topic))
    requires !status.Str? || (Lower(status.s) != "paid" && Lower(status.s) !in FailedStatuses)
    ensures NormalizeFinancialStatus(topic, status) == Pending
    ensures ResolveEventType(topic) == OrderCreated
  {
  }

  /** Event type and status depend on the topic only through its lower-cased form. */
  lemma {:induction false} TopicCaseInsensitive(t1: string, t2: string, status: Value, p: WebhookForwardPayload, parseFloat: string -> Number, now: string)
    requires Lower(t1) == Lower(t2)
    ensures ResolveEventType(t1) == ResolveEventType(t2)
    ensures NormalizeFinancialStatus(t1, status) == NormalizeFinancialStatus(t2, status)
    ensures BuildCharmsEvent(p.(topic := t1), parseFloat, now) == BuildCharmsEvent(p.(topic := t2), parseFloat, now)
  {
    LowerIdempotent(t1);
    LowerIdempotent(t2);
  }

  /**
   * The `??` chain stops at the first non-nullish candidate, so an
   * unparseable `total_price` gives 0 even when `subtotal_price` parses.
   */
  lemma UnparseableFirstCandidateGivesZero(fields: map<string, Value>, parseFloat: string -> Number)
    requires "total_price" in fields && fields["total_price"].Str?
    requires !parseFloat(fields["total_price"].s).Finite?
    ensures OrderTotal(Some(fields), parseFloat) == 0.0
  {
  }

  /** The order total is the first non-nullish candidate when it parses, and 0 otherwise. */
  lemma OrderTotalFromFirstCandidate(body: Option<map<string, Value>>, parseFloat: string -> Number, i: nat)
    requires i < |AmountFields|
    requires forall j :: 0 <= j < i ==> Nullish(FieldOf(body, AmountFields[j]))
    requires !Nullish(FieldOf(body, AmountFields[i]))
    ensures OrderTotal(body, parseFloat) == ParseAmount(FieldOf(body, AmountFields[i]), parseFloat).GetOr(0.0)
  {
    var r := AmountCandidate(body);
    var k :| 0 <= k < |AmountFields| && r == FieldOf(body, AmountFields[k])
      && (forall j :: 0 <= j < k ==> Nullish(FieldOf(body, AmountFields[j])))
      && (k < |AmountFields| - 1 ==> !Nullish(r));
    assert k == i;
  }

  /** A body with no record shape yields every default. */
  lemma NonObjectBodyYieldsDefaults(p: WebhookForwardPayload, parseFloat: string -> Number, now: string)
    requires !p.body.Obj? && !p.body.Buf?
    ensures var e := BuildCharmsEvent(p, parseFloat, now);
      e.orderTotal == 0.0 && e.timestamp == now
      && e.financialStatus == (if Lower(p.topic) == OrdersPaid then Paid else if Lower(p.topic) == OrdersCancelled then Failed else Pending)
  {
    var k :| 0 <= k < |AmountFields| && AmountCandidate(None) == FieldOf(None, AmountFields[k]);
  }

  /**
   * The `||` chain does not fall through a truthy non-string: a numeric
   * `processed_at` gives the current time even if `created_at` is a string.
   */
  lemma TruthyNonStringTimestampGivesNow(fields: map<string, Value>, now: string)
    requires "processed_at" in fields && Truthy(fields["processed_at"]) && !fields["processed_at"].Str?
    ensures ExtractTimestamp(Some(fields), now) == now
  {
  }

  /** The first truthy string among the three timestamp fields is the timestamp. */
  lemma FirstTruthyStringIsTimestamp(fields: map<string, Value>, now: string)
    requires "processed_at" !in fields || !Truthy(fields["processed_at"])
    requires "created_at" in fields && fields["created_at"].Str? && fields["created_at"].s != ""
    ensures ExtractTimestamp(Some(fields), now) == fields["created_at"].s
  {
  }

  /**
   * When the first two fields are falsy, `||` yields `updated_at` even when it
   * is falsy; an empty-string `updated_at` is a string, so it becomes the timestamp.
   */
  lemma EmptyUpdatedAtIsKept(now: string)
    requires now != ""
    ensures ExtractTimestamp(Some(map["updated_at" := Str("")]), now) == ""
  {
  }

  /** The recorded example: an `orders/paid` delivery with a parseable total. */
  lemma OrdersPaidExample(parseFloat: string -> Number, now: string)
    requires parseFloat("99.99") == Finite(99.99)
    ensures var body := Obj(map["total_price" := Str("99.99"), "financial_status" := Str("paid"), "created_at" := Str("2025-12-04T00:00:00Z")]);
      BuildCharmsEvent(WebhookForwardPayload("shop.myshopify.com", "orders/paid", body), parseFloat, now)
      == CharmsEvent("shop.myshopify.com", Shopify, OrderCreated, Paid, 99.99, "2025-12-04T00:00:00Z", body)
  {
    var fields := map["total_price" := Str("99.99"), "financial_status" := Str("paid"), "created_at" := Str("2025-12-04T00:00:00Z")];
    LowerKeepsLowercase("orders/paid");
    LowerKeepsLowercase("paid");
    assert ExtractTimestamp(Some(fields), now) == "2025-12-04T00:00:00Z";
    OrderTotalFromFirstCandidate(Some(fields), parseFloat, 0);
  }

  /** The recorded example: a cancelled order is a failed event, whatever its body. */
  lemma OrdersCancelledExample(parseFloat: string -> Number, now: string)
    ensures var e := BuildCharmsEvent(WebhookForwardPayload("shop.myshopify.com", "orders/cancelled",
                                        Obj(map["total_price" := Str("10.00")])), parseFloat, now);
      e.eventType == OrderFailed && e.financialStatus == Failed
  {
    LowerKeepsLowercase(OrdersCancelled);
    assert ResolveEventType(OrdersCancelled) == OrderFailed;
    assert NormalizeFinancialStatus(OrdersCancelled, Str("10.00")) == Failed;
  }

  // ---------------------------------------------------------------------
  // Configuration and headers

  /** `ensureBaseUrl`: a missing or empty base URL is a configuration error. */
  function EnsureBaseUrl(baseUrl: Option<string>): (r: Result<string, string>)
    ensures r.Err? <==> baseUrl.None? || baseUrl.value == ""
    ensures r.Err? ==> r.error == "BACKEND_URL must be configured"
    ensures r.Ok? && EndsWithSlash(baseUrl.value) ==> r.value + "/" == baseUrl.value
    ensures r.Ok? && !EndsWithSlash(baseUrl.value) ==> r.value == baseUrl.value
  {
    if baseUrl.None? || baseUrl.value == "" then Err("BACKEND_URL must be configured")
    else Ok(StripTrailingSlash(baseUrl.value))
  }

  /** Only one slash is removed: a base URL ending in `//` keeps one. */
  lemma OnlyOneSlashRemoved(base: string)
    requires |base| >= 2 && base[|base| - 1] == '/' && base[|base| - 2] == '/'
    ensures EnsureBaseUrl(Some(base)).Ok? && EndsWithSlash(EnsureBaseUrl(Some(base)).value)
  {
  }

  datatype Header = Header(name: string, value: string)

  /** `buildHeaders`: JSON content type, plus a bearer token when the key is non-empty. */
  function BuildHeaders(apiKey: Option<string>): (r: seq<Header>)
    ensures |r| == (if apiKey.Some? && apiKey.value != "" then 2 else 1)
    ensures r[0] == Header("Content-Type", "application/json")
    ensures (exists h :: h in r && h.name == "Authorization") <==> apiKey.Some? && apiKey.value != ""
    ensures apiKey.Some? && apiKey.value != "" ==> Header("Authorization", "Bearer " + apiKey.value) in r
  {
    var base := [Header("Content-Type", "application/json")];
    if apiKey.Some? && apiKey.value != "" then base + [Header("Authorization", "Bearer " + apiKey.value)]
    else base
  }

  // ---------------------------------------------------------------------
  // Backend responses

  /** The parts of a `fetch` response the client reads. */
  datatype HttpResponse = HttpResponse(ok: bool, status: int, text: string)

  /** A response as `fetch` builds it: `ok` holds exactly for 2xx statuses. */
  predicate WellFormed(resp: HttpResponse) {
    resp.ok <==> 200 <= resp.status <= 299
  }

  datatype BackendError =
    | RequestFailed(status: int, text: string)   // "Backend request failed: <status> <text>"
    | InvalidJson                                // `response.json()` rejected the body

  /**
   * `requestBackend` after the fetch: a 404 among non-ok responses is `null`,
   * any other non-ok one an error with status and text; an ok response with
   * an empty or unparseable body is `undefined`.
   */
  function InterpretBackendResponse(resp: HttpResponse, parseJson: string -> Option<Value>): (r: Result<Value, BackendError>)
    ensures !resp.ok ==> (r == Ok(Null) <==> resp.status == 404)
    ensures !resp.ok && resp.status != 404 ==> r == Err(RequestFailed(resp.status, resp.text))
    ensures resp.ok ==> r.Ok?
    ensures resp.ok && (resp.text == "" || parseJson(resp.text).None?) ==> r == Ok(Undefined)
    ensures resp.ok && resp.text != "" && parseJson(resp.text).Some? ==> r == Ok(parseJson(resp.text).value)
  {
    if !resp.ok then
      if resp.status == 404 then Ok(Null) else Err(RequestFailed(resp.status, resp.text))
    else if resp.text == "" then Ok(Undefined)
    else match parseJson(resp.text)
      case Some(v) => Ok(v)
      case None => Ok(Undefined)
  }

  /**
   * `getMerchantSettings` after the fetch: 404 is checked before `ok`, and an
   * ok body that is not JSON makes `response.json()` reject.
   */
  function InterpretSettingsResponse(resp: HttpResponse, parseJson: string -> Option<Value>): (r: Result<Value, BackendError>)
    ensures resp.status == 404 ==> r == Ok(Null)
    ensures resp.status != 404 && !resp.ok ==> r == Err(RequestFailed(resp.status, resp.text))
    ensures resp.status != 404 && resp.ok ==>
      r == (match parseJson(resp.text) case Some(v) => Ok(v) case None => Err(InvalidJson))
  {
    if resp.status == 404 then Ok(Null)
    else if !resp.ok then Err(RequestFailed(resp.status, resp.text))
    else match parseJson(resp.text)
      case Some(v) => Ok(v)
      case None => Err(InvalidJson)
  }

  /** On responses `fetch` can produce, both readings treat 404 and other failures alike. */
  lemma ErrorPathsAgree(resp: HttpResponse, parseJson: string -> Option<Value>)
    requires WellFormed(resp) && !resp.ok
    ensures InterpretBackendResponse(resp, parseJson) == InterpretSettingsResponse(resp, parseJson)
  {
  }

  /** Checking 404 first matters only for a response claiming both `ok` and 404. */
  lemma SettingsChecks404First(text: string, parseJson: string -> Option<Value>)
    requires parseJson(text) == Some(Str("x"))
    requires text != ""
    ensures InterpretSettingsResponse(HttpResponse(true, 404, text), parseJson) == Ok(Null)
    ensures InterpretBackendResponse(HttpResponse(true, 404, text), parseJson) == Ok(Str("x"))
  {
  }

  /**
   * One call of `requestBackend`: the configured `BACKEND_URL`, and what
   * `fetch` yields for the request (a response, or a rejection).
   */
  datatype BackendCall = BackendCall(baseUrl: Option<string>, fetched: Result<HttpResponse, string>)

  datatype RequestError =
    | NotConfigured(message: string)   // `ensureBaseUrl` threw
    | FetchRejected(message: string)   // `fetch` itself rejected
    | ResponseError(error: BackendError)

  /**
   * `requestBackend`: the base URL is checked on every call, then the
   * response is interpreted; only a configured URL and a response that is
   * ok or a 404 resolve.
   */
  function RequestBackend(call: BackendCall, parseJson: string -> Option<Value>): (r: Result<Value, RequestError>)
    ensures r.Ok? <==>
      EnsureBaseUrl(call.baseUrl).Ok? && call.fetched.Ok? && (call.fetched.value.ok || call.fetched.value.status == 404)
    ensures EnsureBaseUrl(call.baseUrl).Err? ==> r == Err(NotConfigured(EnsureBaseUrl(call.baseUrl).error))
    ensures EnsureBaseUrl(call.baseUrl).Ok? && call.fetched.Err? ==> r == Err(FetchRejected(call.fetched.error))
    ensures EnsureBaseUrl(call.baseUrl).Ok? && call.fetched.Ok? ==>
      r == (match InterpretBackendResponse(call.fetched.value, parseJson)
            case Ok(v) => Ok(v)
            case Err(e) => Err(ResponseError(e)))
  {
    match EnsureBaseUrl(call.baseUrl)
    case Err(message) => Err(NotConfigured(message))
    case Ok(_) =>
      match call.fetched
      case Err(message) => Err(FetchRejected(message))
      case Ok(resp) =>
        match InterpretBackendResponse(resp, parseJson)
        case Ok(v) => Ok(v)
        case Err(e) => Err(ResponseError(e))
  }

  /** The POST `forwardWebhook` makes: the built event, sent to the `/events` path of the backend. */
  datatype EventPost = EventPost(url: string, event: CharmsEvent)

  /** The request `forwardWebhook` sends; none when the base URL is not configured. */
  function ForwardRequests(payload: WebhookForwardPayload, baseUrl: Option<string>, parseFloat: string -> Number, now: string): (posts: seq<EventPost>)
    ensures |posts| == (if EnsureBaseUrl(baseUrl).Ok? then 1 else 0)
    ensures |posts| == 1 ==>
      posts[0].url == EnsureBaseUrl(baseUrl).value + "/events" && posts[0].event == BuildCharmsEvent(payload, parseFloat, now)
  {
    match EnsureBaseUrl(baseUrl)
    case Err(_) => []
    case Ok(base) => [EventPost(base + "/events", BuildCharmsEvent(payload, parseFloat, now))]
  }

  /** A backend without an `/events` route (a 404) still counts as a delivered webhook. */
  lemma NotFoundCountsAsDelivered(base: string, text: string, parseJson: string -> Option<Value>)
    requires base != ""
    ensures RequestBackend(BackendCall(Some(base), Ok(HttpResponse(false, 404, text))), parseJson) == Ok(Null)
    ensures RequestBackend(BackendCall(Some(base), Ok(HttpResponse(false, 500, text))), parseJson)
      == Err(ResponseError(RequestFailed(500, text)))
  {
  }

  /** The merchant registration the backend client sends. */
  datatype MerchantRegistration = MerchantRegistration(shopId: string, platform: Platform, email: Option<string>, webhookUrl: Option<string>)

  /** `BackendService`: its readonly platform defaults to Shopify. */
  datatype BackendService = BackendService(platform: Platform)

  const DefaultBackendService := BackendService(Shopify)

  /** `BackendService.registerMerchant`: the payload's platform, or the service's own. */
  function ServiceRegistration(service: BackendService, shopId: string, platform: Option<Platform>,
                               email: Option<string>, webhookUrl: Option<string>): (r: MerchantRegistration)
    ensures r.shopId == shopId && r.email == email && r.webhookUrl == webhookUrl
    ensures platform.Some? ==> r.platform == platform.value
    ensures platform.None? ==> r.platform == service.platform
  {
    MerchantRegistration(shopId, platform.GetOr(service.platform), email, webhookUrl)
  }
}

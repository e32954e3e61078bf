/**
 * The WooCommerce plugin's backend client: registration state held in the
 * `api_key` field (mirrored in the `serenai_api_key` option), and the three
 * outbound calls gated on it.
 * Source: packages/woocommerce-plugin/includes/class-serenai-api.php.
 */
module WooApi {
  import opened JsValues

  const ApiKeyOption := "serenai_api_key"

  /**
   * PHP `empty()`: an unset value, `null`, `false`, `0`, `0.0`, `''`, `'0'`
   * and an empty array. A Buffer never reaches PHP; an empty one counts as `''`.
   */
  predicate PhpEmpty(v: Value) {
    match v
    case Undefined => true
    case Null => true
    case Bool(b) => !b
    case Num(n) => n == Finite(0.0)
    case Str(s) => s == "" || s == "0"
    case Arr(items) => items == []
    case Obj(fields) => fields == map[]
    case Buf(bytes) => bytes == []
  }

  /** `$data[$key] ?? null`: a missing key and a null value both give `null`. */
  function ValueOrNull(data: map<string, Value>, key: string): (r: Value)
    ensures r == Null <==> key !in data || data[key].Null? || data[key].Undefined?
    ensures r != Null ==> r == data[key]
  {
    if key in data && !data[key].Null? && !data[key].Undefined? then data[key] else Null
  }

  /** `$body['api_key']` as `empty()` sees it: unset unless the body is an array holding that key. */
  function ApiKeyOf(body: Value): (r: Value)
    ensures !body.Obj? ==> PhpEmpty(r)
    ensures body.Obj? && "api_key" in body.fields ==> r == body.fields["api_key"]
    ensures body.Obj? && "api_key" !in body.fields ==> PhpEmpty(r)
  {
    if body.Obj? && "api_key" in body.fields then body.fields["api_key"] else Undefined
  }

  /** The WordPress options table (`get_option` / `update_option`). */
  class OptionStore {
    var values: map<string, Value>

    constructor(initial: map<string, Value>)
      ensures values == initial
    {
      values := initial;
    }

    function Get(name: string, default: Value): Value
      reads this
    {
      if name in values then values[name] else default
    }

    method Update(name: string, v: Value)
      modifies this
      ensures values == old(values)[name := v]
    {
      values := values[name := v];
    }
  }

  /**
   * What `wp_remote_post` / `wp_remote_request` yields: a `WP_Error`, or a
   * response whose body `json_decode($body, true)` turned into `decoded`
   * (`null` when the body is not JSON).
   */
  datatype Transport = TransportError(code: string, message: string) | Delivered(decoded: Value)

  /** A client method's return value: a `WP_Error` or a decoded array (or `null`). */
  datatype WpResult = WpError(code: string, message: string) | Returned(value: Value)

  /** A transport error is passed through; otherwise the decoded body is returned. */
  function ResponseResult(t: Transport): (r: WpResult)
    ensures r.WpError? <==> t.TransportError?
    ensures t.TransportError? ==> r == WpError(t.code, t.message)
    ensures t.Delivered? ==> r == Returned(t.decoded)
  {
    match t
    case TransportError(code, message) => WpError(code, message)
    case Delivered(decoded) => Returned(decoded)
  }

  /** A response that makes `register_merchant` store a key: delivered, with a non-empty `api_key`. */
  predicate StoresKey(t: Transport) {
    t.Delivered? && !PhpEmpty(ApiKeyOf(t.decoded))
  }

  /** An outbound HTTP call. `bearer` is the key sent as `Authorization: Bearer …`, if any. */
  datatype WooRequest = WooRequest(verb: string, url: string, bearer: Option<Value>, body: Value, timeout: int)

  const NotRegisteredReply := Obj(map["status" := Str("not_registered")])
  const NoApiKeyError := WpError("no_api_key", "Not registered with SerenAI")

  /** The JSON object `send_event` posts. */
  function EventPayload(shopId: string, eventType: string, data: map<string, Value>, now: string): (p: map<string, Value>)
    ensures p.Keys == {"shop_id", "platform", "event_type", "financial_status", "order_total", "timestamp", "raw_payload"}
    ensures p["shop_id"] == Str(shopId) && p["platform"] == Str("woocommerce") && p["event_type"] == Str(eventType)
    ensures p["raw_payload"] == Obj(data) && p["timestamp"] == Str(now)
    ensures p["financial_status"] == ValueOrNull(data, "financial_status")
    ensures p["order_total"] == ValueOrNull(data, "order_total")
  {
    map[
      "shop_id" := Str(shopId),
      "platform" := Str("woocommerce"),
      "event_type" := Str(eventType),
      "financial_status" := ValueOrNull(data, "financial_status"),
      "order_total" := ValueOrNull(data, "order_total"),
      "timestamp" := Str(now),
      "raw_payload" := Obj(data)]
  }

  /** The backend client of one WordPress request. */
  class SerenAIApi {
    const backendUrl: string
    /** `md5(get_site_url())`, computed outside the model. */
    const siteUrlHash: string
    const options: OptionStore
    var apiKey: Value
    var requests: seq<WooRequest>

    /** The field mirrors the stored option: it is read from it and only ever written together with it. */
    ghost predicate Valid()
      reads this, options
    {
      apiKey == options.Get(ApiKeyOption, Str(""))
    }

    /** `__construct`: the key is `get_option('serenai_api_key', '')`. */
    constructor(backendUrl: string, siteUrlHash: string, options: OptionStore)
      ensures this.backendUrl == backendUrl && this.siteUrlHash == siteUrlHash && this.options == options
      ensures apiKey == options.Get(ApiKeyOption, Str("")) && requests == []
      ensures ApiKeyOption !in options.values ==> !IsRegistered()
      ensures Valid()
    {
      this.backendUrl := backendUrl;
      this.siteUrlHash := siteUrlHash;
      this.options := options;
      apiKey := options.Get(ApiKeyOption, Str(""));
      requests := [];
    }

    /** `get_shop_id`: the site hash behind a fixed `woo_` prefix. */
    function ShopId(): (id: string)
      ensures StartsWith(id, "woo_")
      ensures |id| == 4 + |siteUrlHash| && id[4..] == siteUrlHash
    {
      "woo_" + siteUrlHash
    }

    /** `is_registered` */
    predicate IsRegistered()
      reads this
    {
      !PhpEmpty(apiKey)
    }

    function RegisterRequest(email: string, webhookUrl: string, alertsEnabled: bool): WooRequest {
      WooRequest("POST", backendUrl + "/api/merchants/register", None,
        Obj(map["shop_id" := Str(ShopId()), "platform" := Str("woocommerce"), "email" := Str(email),
                "webhook_url" := Str(webhookUrl), "alerts_enabled" := Bool(alertsEnabled)]), 30)
    }

    function SettingsRequest(email: string, webhookUrl: string, alertsEnabled: bool): WooRequest
      reads this
    {
      WooRequest("PATCH", backendUrl + "/api/merchants/settings", Some(apiKey),
        Obj(map["shop_id" := Str(ShopId()), "email" := Str(email),
                "webhook_url" := Str(webhookUrl), "alerts_enabled" := Bool(alertsEnabled)]), 30)
    }

    /** The request `send_event` issues: none at all when the client is not registered. */
    function EventRequests(eventType: string, data: map<string, Value>, now: string): (rs: seq<WooRequest>)
      reads this
      ensures |rs| == (if IsRegistered() then 1 else 0)
      ensures IsRegistered() ==> (rs[0].url == backendUrl + "/events" && rs[0].bearer == Some(apiKey)
        && rs[0].body == Obj(EventPayload(ShopId(), eventType, data, now)) && rs[0].timeout == 10)
    {
      if IsRegistered() then [WooRequest("POST", backendUrl + "/events", Some(apiKey), Obj(EventPayload(ShopId(), eventType, data, now)), 10)]
      else []
    }

    /**
     * `register_merchant`: one registration request; the key is stored, in
     * the option and the field, only when the response carries a non-empty one.
     */
    method RegisterMerchant(email: string, webhookUrl: string, alertsEnabled: bool, transport: Transport) returns (r: WpResult)
      requires Valid()
      modifies this, options
      ensures Valid()
      ensures requests == old(requests) + [RegisterRequest(email, webhookUrl, alertsEnabled)]
      ensures r == ResponseResult(transport)
      ensures StoresKey(transport) ==>
        apiKey == ApiKeyOf(transport.decoded) && IsRegistered()
        && options.values == old(options.values)[ApiKeyOption := apiKey]
      ensures !StoresKey(transport) ==> apiKey == old(apiKey) && options.values == old(options.values)
    {
      requests := requests + [RegisterRequest(email, webhookUrl, alertsEnabled)];
      if transport.TransportError? {
        return WpError(transport.code, transport.message);
      }
      var body := transport.decoded;
      if !PhpEmpty(ApiKeyOf(body)) {
        options.Update(ApiKeyOption, ApiKeyOf(body));
        apiKey := ApiKeyOf(body);
      }
      r := Returned(body);
    }

    /** `update_settings`: without a key, the `no_api_key` error and no request. */
    method UpdateSettings(email: string, webhookUrl: string, alertsEnabled: bool, transport: Transport) returns (r: WpResult)
      modifies this
      ensures apiKey == old(apiKey)
      ensures !IsRegistered() ==> r == NoApiKeyError && requests == old(requests)
      ensures IsRegistered() ==>
        r == ResponseResult(transport) && requests == old(requests) + [SettingsRequest(email, webhookUrl, alertsEnabled)]
    {
      if PhpEmpty(apiKey) {
        return NoApiKeyError;
      }
      requests := requests + [SettingsRequest(email, webhookUrl, alertsEnabled)];
      r := ResponseResult(transport);
    }

    /** `send_event`: without a key, `{status: not_registered}` and no request. */
    method SendEvent(eventType: string, data: map<string, Value>, now: string, transport: Transport) returns (r: WpResult)
      modifies this
      ensures apiKey == old(apiKey)
      ensures requests == old(requests) + EventRequests(eventType, data, now)
      ensures !IsRegistered() ==> r == Returned(NotRegisteredReply)
      ensures IsRegistered() ==> r == ResponseResult(transport)
    {
      if PhpEmpty(apiKey) {
        return Returned(NotRegisteredReply);
      }
      requests := requests + [WooRequest("POST", backendUrl + "/events", Some(apiKey), Obj(EventPayload(ShopId(), eventType, data, now)), 10)];
      r := ResponseResult(transport);
    }
  }

  /** Different sites get different shop ids. */
  lemma ShopIdsDistinct(a: SerenAIApi, b: SerenAIApi)
    requires a.siteUrlHash != b.siteUrlHash
    ensures a.ShopId() != b.ShopId()
  {
    assert a.ShopId()[4..] != b.ShopId()[4..];
  }

  /** A stored key of `'0'` or `0` does not count as registered: `empty()` treats it as missing. */
  lemma ZeroKeyIsNotRegistered(t: Transport)
    requires t == Delivered(Obj(map["api_key" := Str("0")])) || t == Delivered(Obj(map["api_key" := Num(Finite(0.0))]))
    ensures !StoresKey(t)
  {
  }
}

/**
 * The webhook ingestion route: signature check, tolerant body parsing,
 * header defaulting, and one forward to the backend per delivery.
 * Source: packages/shopify-app/src/routes/webhooks.ts.
 */
module WebhookRoutes {
  import opened JsValues
  import Backend
  import Verify

  /**
   * An inbound request as Express presents it. Header lookup (`req.get`)
   * ignores case, so header names are stored lower-cased.
   */
  datatype Request = Request(body: Value, headers: map<string, string>)

  function GetHeader(req: Request, name: string): (r: Option<string>)
    ensures r.Some? <==> Lower(name) in req.headers
  {
    if Lower(name) in req.headers then Some(req.headers[Lower(name)]) else None
  }

  /** `req.get(name) ?? 'unknown'`: only a missing header is replaced; an empty one is kept. */
  function HeaderOrUnknown(h: Option<string>): (r: string)
    ensures h.None? ==> r == "unknown"
    ensures h.Some? ==> r == h.value
  {
    h.GetOr("unknown")
  }

  /**
   * `parseRequestBody`: a falsy body or an empty buffer is `{}`; a buffer
   * or string holding JSON is the parsed value, and one that does not parse
   * is the raw text; anything else is returned as it is.
   */
  function ParseRequestBody(body: Value, rt: Runtime): (r: Value)
    ensures !Truthy(body) ==> r == Obj(map[])
    ensures body.Buf? && rt.utf8Decode(body.bytes) == "" ==> r == Obj(map[])
    ensures body.Buf? && rt.utf8Decode(body.bytes) != "" ==>
      r == (match rt.parseJson(rt.utf8Decode(body.bytes)) case Some(v) => v case None => Str(rt.utf8Decode(body.bytes)))
    ensures body.Str? && body.s != "" ==>
      r == (match rt.parseJson(body.s) case Some(v) => v case None => body)
    ensures Truthy(body) && !body.Buf? && !body.Str? ==> r == body
  {
    if !Truthy(body) then Obj(map[])
    else match body
      case Buf(bytes) =>
        var raw := rt.utf8Decode(bytes);
        if raw == "" then Obj(map[])
        else (match rt.parseJson(raw) case Some(v) => v case None => Str(raw))
      case Str(s) =>
        (match rt.parseJson(s) case Some(v) => v case None => body)
      case _ => body
  }

  /** Text that is not JSON reaches the backend as the raw string, never as a failure. */
  lemma InvalidJsonKeptAsRawString(text: string, rt: Runtime)
    requires text != "" && rt.parseJson(text).None?
    ensures ParseRequestBody(Str(text), rt) == Str(text)
    ensures forall bytes :: rt.utf8Decode(bytes) == text ==> ParseRequestBody(Buf(bytes), rt) == Str(text)
  {
  }

  /** The payload handed to the backend for one verified request. */
  function DeliveryPayload(req: Request, rt: Runtime): (p: Backend.WebhookForwardPayload)
    ensures p.topic == HeaderOrUnknown(GetHeader(req, "X-Shopify-Topic"))
    ensures p.shopDomain == HeaderOrUnknown(GetHeader(req, "X-Shopify-Shop-Domain"))
    ensures p.body == ParseRequestBody(req.body, rt)
  {
    Backend.WebhookForwardPayload(
      HeaderOrUnknown(GetHeader(req, "X-Shopify-Shop-Domain")),
      HeaderOrUnknown(GetHeader(req, "X-Shopify-Topic")),
      ParseRequestBody(req.body, rt))
  }

  /** Without the topic and shop headers both fields are `'unknown'`. */
  lemma MissingHeadersDefault(req: Request, rt: Runtime)
    requires "x-shopify-topic" !in req.headers && "x-shopify-shop-domain" !in req.headers
    ensures DeliveryPayload(req, rt).topic == "unknown" && DeliveryPayload(req, rt).shopDomain == "unknown"
  {
    LowerKeepsLowercase("x-shopify-topic");
    LowerKeepsLowercase("x-shopify-shop-domain");
    assert Lower("X-Shopify-Topic") == "x-shopify-topic";
    assert Lower("X-Shopify-Shop-Domain") == "x-shopify-shop-domain";
  }

  /** The reply the route sends, or the hand-off to Express's error handler. */
  datatype RouteReply = JsonReply(status: int, body: Value) | ToErrorHandler

  function ErrorBody(message: string): Value {
    Obj(map["error" := Str(message)])
  }

  const OkBody := Obj(map["ok" := Bool(true)])

  /** What the signature middleware in front of the route decides for this request. */
  function VerdictFor(req: Request, secret: Option<string>, c: Verify.Crypto, rt: Runtime): Verify.Verdict {
    Verify.SignatureVerdict(secret, GetHeader(req, "X-Shopify-Hmac-Sha256"), req.body, c, rt.utf8Decode, rt.stringify)
  }

  /**
   * Whether `forwardWebhook` resolves for one delivery: the event is posted
   * through `requestBackend`, so a missing base URL, a rejected fetch or a
   * non-ok response other than 404 makes it reject.
   */
  predicate ForwardSucceeds(call: Backend.BackendCall, rt: Runtime) {
    Backend.RequestBackend(call, rt.parseJson).Ok?
  }

  /**
   * The webhook router, observed through the payloads it hands to
   * `forwardWebhook` and the event posts that reach the backend.
   */
  class WebhookRouter {
    var forwarded: seq<Backend.WebhookForwardPayload>
    var posts: seq<Backend.EventPost>

    constructor()
      ensures forwarded == [] && posts == []
    {
      forwarded := [];
      posts := [];
    }

    /**
     * `handleWebhookDelivery`: forwards the payload unchanged, once; the
     * backend call is `call`, and `now` is the clock the event builder reads.
     */
    method HandleWebhookDelivery(payload: Backend.WebhookForwardPayload, call: Backend.BackendCall, rt: Runtime, now: string)
      returns (ok: bool)
      modifies this
      ensures forwarded == old(forwarded) + [payload]
      ensures posts == old(posts) + Backend.ForwardRequests(payload, call.baseUrl, rt.parseFloat, now)
      ensures ok == ForwardSucceeds(call, rt)
    {
      forwarded := forwarded + [payload];
      posts := posts + Backend.ForwardRequests(payload, call.baseUrl, rt.parseFloat, now);
      var result := Backend.RequestBackend(call, rt.parseJson);
      ok := result.Ok?;
    }

    /**
     * `POST /`: the signature middleware runs first; only a request it lets
     * through is parsed and forwarded, and a failed forward goes to the error
     * handler instead of the 200 reply.
     */
    method Post(req: Request, secret: Option<string>, c: Verify.Crypto, rt: Runtime, call: Backend.BackendCall, now: string)
      returns (reply: RouteReply)
      modifies this
      ensures VerdictFor(req, secret, c, rt) == Verify.SecretMissing500 ==>
        reply == JsonReply(500, ErrorBody("WEBHOOK_SECRET is not configured"))
        && forwarded == old(forwarded) && posts == old(posts)
      ensures VerdictFor(req, secret, c, rt) == Verify.Unauthorized401 ==>
        reply == JsonReply(401, ErrorBody("Invalid webhook signature"))
        && forwarded == old(forwarded) && posts == old(posts)
      ensures VerdictFor(req, secret, c, rt) == Verify.Continue ==>
        forwarded == old(forwarded) + [DeliveryPayload(req, rt)]
        && posts == old(posts) + Backend.ForwardRequests(DeliveryPayload(req, rt), call.baseUrl, rt.parseFloat, now)
        && reply == (if ForwardSucceeds(call, rt) then JsonReply(200, OkBody) else ToErrorHandler)
      ensures reply == JsonReply(200, OkBody) ==> |forwarded| == |old(forwarded)| + 1 && |posts| == |old(posts)| + 1
    {
      var verdict := VerdictFor(req, secret, c, rt);
      match verdict {
        case SecretMissing500 =>
          reply := JsonReply(500, ErrorBody("WEBHOOK_SECRET is not configured"));
        case Unauthorized401 =>
          reply := JsonReply(401, ErrorBody("Invalid webhook signature"));
        case Continue =>
          var topic := HeaderOrUnknown(GetHeader(req, "X-Shopify-Topic"));
          var shopDomain := HeaderOrUnknown(GetHeader(req, "X-Shopify-Shop-Domain"));
          var ok := HandleWebhookDelivery(Backend.WebhookForwardPayload(shopDomain, topic, ParseRequestBody(req.body, rt)), call, rt, now);
          if ok {
            reply := JsonReply(200, OkBody);
          } else {
            reply := ToErrorHandler;
          }
      }
    }
  }

  /** A verified delivery to a backend that answers 404 is still acknowledged with 200. */
  lemma NotFoundBackendStillAcknowledged(base: string, text: string, rt: Runtime)
    requires base != ""
    ensures ForwardSucceeds(Backend.BackendCall(Some(base), Ok(Backend.HttpResponse(false, 404, text))), rt)
  {
    Backend.NotFoundCountsAsDelivered(base, text, rt.parseJson);
  }
}

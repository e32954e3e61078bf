/**
 * Webhook provisioning with Shopify: the fixed topic list, the callback
 * address, and the fan-out that registers every topic at that address.
 * Source: packages/shopify-app/src/services/webhooks.ts.
 */
module WebhookProvisioning {
  import opened JsValues
  import Backend

  const WebhookPath := "/events"

  /** `REQUIRED_WEBHOOKS`, in declaration order. */
  const RequiredWebhooks: seq<string> := ["checkouts/create", "orders/create", "orders/paid", "orders/cancelled"]

  const AddressError := "CHARMS_SERVICE_URL, BACKEND_URL, or HOST must be configured to register webhooks"

  /** The three environment variables the address may come from. */
  datatype Env = Env(charmsServiceUrl: Option<string>, backendUrl: Option<string>, host: Option<string>)

  /** `CHARMS_SERVICE_URL ?? BACKEND_URL ?? HOST`: the first variable that is set, even if empty. */
  function WebhookBaseUrl(env: Env): (r: Option<string>)
    ensures env.charmsServiceUrl.Some? ==> r == env.charmsServiceUrl
    ensures env.charmsServiceUrl.None? && env.backendUrl.Some? ==> r == env.backendUrl
    ensures env.charmsServiceUrl.None? && env.backendUrl.None? ==> r == env.host
  {
    if env.charmsServiceUrl.Some? then env.charmsServiceUrl
    else if env.backendUrl.Some? then env.backendUrl
    else env.host
  }

  /** `buildWebhookAddress`: the chosen base URL without one trailing slash, followed by the path. */
  function BuildWebhookAddress(env: Env, path: string): (r: Result<string, string>)
    ensures r.Err? <==> WebhookBaseUrl(env).None? || WebhookBaseUrl(env).value == ""
    ensures r.Err? ==> r.error == AddressError
    ensures r.Ok? ==> r.value == StripTrailingSlash(WebhookBaseUrl(env).value) + path
    ensures r.Ok? && !EndsWithSlash(WebhookBaseUrl(env).value) ==> r.value == WebhookBaseUrl(env).value + path
  {
    var base := WebhookBaseUrl(env);
    if base.None? || base.value == "" then Err(AddressError)
    else
      Ok(StripTrailingSlash(base.value) + path)
  }

  /** An empty first variable is chosen by `??` and is an error: later variables are not consulted. */
  lemma EmptyServiceUrlDoesNotFallThrough(backendUrl: Option<string>, host: Option<string>)
    ensures BuildWebhookAddress(Env(Some(""), backendUrl, host), WebhookPath).Err?
  {
  }

  /** The recorded example, with and without a trailing slash on the configured URL. */
  lemma AddressExample()
    ensures BuildWebhookAddress(Env(Some("https://charms.serenai.com"), None, None), WebhookPath)
      == Ok("https://charms.serenai.com/events")
    ensures BuildWebhookAddress(Env(Some("https://charms.serenai.com/"), None, None), WebhookPath)
      == Ok("https://charms.serenai.com/events")
  {
    var base := "https://charms.serenai.com";
    assert !EndsWithSlash(base);
    assert base + WebhookPath == "https://charms.serenai.com/events";
    var s := "https://charms.serenai.com/";
    assert EndsWithSlash(s);
    assert s[..|s| - 1] == base;
  }

  /** The Shopify session fields the provisioning code reads. */
  datatype Session = Session(shop: string, accessToken: Option<string>)

  /** One invocation of the register function. */
  datatype RegisterCall = RegisterCall(session: Session, topic: string, address: string)

  /** The calls `registerWebhooks` issues: one per required topic, same session and address. */
  function RegistrationsFor(session: Session, address: string): (calls: seq<RegisterCall>)
    ensures |calls| == |RequiredWebhooks|
    ensures forall i :: 0 <= i < |calls| ==> calls[i] == RegisterCall(session, RequiredWebhooks[i], address)
  {
    seq(|RequiredWebhooks|, i requires 0 <= i < |RequiredWebhooks| => RegisterCall(session, RequiredWebhooks[i], address))
  }

  function CountTopic(calls: seq<RegisterCall>, topic: string): nat {
    if calls == [] then 0 else (if calls[0].topic == topic then 1 else 0) + CountTopic(calls[1..], topic)
  }

  /** Every required topic is registered exactly once, and no other topic is. */
  lemma {:induction false} EachRequiredTopicOnce(session: Session, address: string, topic: string)
    ensures CountTopic(RegistrationsFor(session, address), topic) == (if topic in RequiredWebhooks then 1 else 0)
  {
    var c := RegistrationsFor(session, address);
    var c1, c2, c3 := c[1..], c[2..], c[3..];
    assert c1[1..] == c2 && c2[1..] == c3 && c3[1..] == [];
    assert CountTopic(c3, topic) == (if topic == RequiredWebhooks[3] then 1 else 0);
    assert CountTopic(c2, topic) == (if topic == RequiredWebhooks[2] then 1 else 0) + CountTopic(c3, topic);
    assert CountTopic(c1, topic) == (if topic == RequiredWebhooks[1] then 1 else 0) + CountTopic(c2, topic);
    assert CountTopic(c, topic) == (if topic == RequiredWebhooks[0] then 1 else 0) + CountTopic(c1, topic);
  }

  /**
   * Records every invocation of the register function. The required topics
   * are registered concurrently (`Promise.all`); the order in which calls are
   * logged here is not part of the contract.
   */
  class WebhookRegistrar {
    var calls: seq<RegisterCall>

    constructor()
      ensures calls == []
    {
      calls := [];
    }

    /**
     * `registerWebhooks`: the address is built first (an error there issues
     * no call); then every required topic is registered, and the step fails
     * when the register function rejects any of them. `failures` maps a
     * topic to the error the register function rejects it with.
     */
    method RegisterWebhooks(session: Session, env: Env, failures: map<string, string>) returns (r: Result<string, string>)
      modifies this
      ensures BuildWebhookAddress(env, WebhookPath).Err? ==>
        calls == old(calls) && r == Err(AddressError)
      ensures BuildWebhookAddress(env, WebhookPath).Ok? ==>
        calls == old(calls) + RegistrationsFor(session, BuildWebhookAddress(env, WebhookPath).value)
      ensures BuildWebhookAddress(env, WebhookPath).Ok? ==>
        (r.Ok? <==> forall t :: t in RequiredWebhooks ==> t !in failures)
      ensures r.Ok? ==> r == BuildWebhookAddress(env, WebhookPath)
      ensures BuildWebhookAddress(env, WebhookPath).Ok? && r.Err? ==>
        exists t :: t in RequiredWebhooks && t in failures && r.error == failures[t]
    {
      var built := BuildWebhookAddress(env, WebhookPath);
      if built.Err? {
        return Err(built.error);
      }
      var address := built.value;
      ghost var expected := RegistrationsFor(session, address);
      var firstError: Option<string> := None;
      var i := 0;
      while i < |RequiredWebhooks|
        invariant 0 <= i <= |RequiredWebhooks|
        invariant calls == old(calls) + expected[..i]
        invariant firstError.None? <==> forall j :: 0 <= j < i ==> RequiredWebhooks[j] !in failures
        invariant firstError.Some? ==>
          exists j :: 0 <= j < i && RequiredWebhooks[j] in failures && firstError.value == failures[RequiredWebhooks[j]]
      {
        var topic := RequiredWebhooks[i];
        calls := calls + [RegisterCall(session, topic, address)];
        if topic in failures && firstError.None? {
          firstError := Some(failures[topic]);
        }
        assert expected[..i + 1] == expected[..i] + [expected[i]];
        i := i + 1;
      }
      assert expected[..i] == expected;
      if firstError.Some? {
        r := Err(firstError.value);
      } else {
        r := Ok(address);
      }
    }
  }

  const MissingTokenError := "Shopify session missing access token"

  /** The subscription request `registerShopifyWebhook` posts to the shop. */
  datatype SubscriptionRequest = SubscriptionRequest(url: string, accessToken: string, topic: string, address: string, format: string)

  /**
   * `registerShopifyWebhook` before the fetch: a session without an access
   * token is an error and no request is sent.
   */
  function SubscriptionRequestFor(session: Session, topic: string, address: string, apiVersion: string): (r: Result<SubscriptionRequest, string>)
    ensures r.Err? <==> session.accessToken.None? || session.accessToken.value == ""
    ensures r.Err? ==> r.error == MissingTokenError
    ensures r.Ok? ==> (r.value.accessToken == session.accessToken.value
      && r.value.topic == topic && r.value.address == address && r.value.format == "json"
      && StartsWith(r.value.url, "https://" + session.shop + "/admin/api/"))
  {
    if session.accessToken.None? || session.accessToken.value == "" then Err(MissingTokenError)
    else
      var url := "https://" + session.shop + "/admin/api/" + apiVersion + "/webhooks.json";
      assert url[..|"https://" + session.shop + "/admin/api/"|] == "https://" + session.shop + "/admin/api/";
      Ok(SubscriptionRequest(url, session.accessToken.value, topic, address, "json"))
  }

  /** `registerShopifyWebhook` after the fetch: a non-ok response is an error naming the topic. */
  function SubscriptionResult(topic: string, resp: Backend.HttpResponse): (r: Result<(), string>)
    ensures r.Ok? <==> resp.ok
    ensures r.Err? ==> StartsWith(r.error, "Failed to register webhook for " + topic)
  {
    if resp.ok then Ok(())
    else
      var msg := "Failed to register webhook for " + topic + ": " + resp.text;
      assert msg[..|"Failed to register webhook for " + topic|] == "Failed to register webhook for " + topic;
      Err(msg)
  }

  /** The whole of `registerShopifyWebhook`: it succeeds only with a token and an ok response. */
  function RegisterShopifyWebhook(session: Session, topic: string, address: string, apiVersion: string,
                                  resp: Backend.HttpResponse): (r: Result<(), string>)
    ensures r.Ok? <==> session.accessToken.Some? && session.accessToken.value != "" && resp.ok
    ensures session.accessToken.None? ==> r == Err(MissingTokenError)
  {
    match SubscriptionRequestFor(session, topic, address, apiVersion)
    case Err(e) => Err(e)
    case Ok(_) => SubscriptionResult(topic, resp)
  }
}

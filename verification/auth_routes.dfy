/**
 * The OAuth completion sequence: callback, webhook registration, email
 * resolution, merchant registration, each step only after the previous one
 * succeeded; and the two auth routes around it.
 * Source: packages/shopify-app/src/routes/auth.ts.
 */
module AuthRoutes {
  import opened JsValues
  import Backend
  import WebhookProvisioning

  type Session = WebhookProvisioning.Session

  datatype AuthCallbackPayload = AuthCallbackPayload(shop: string, email: Option<string>, webhookUrl: Option<string>)

  /** What each collaborator yields when it is called during one callback. */
  datatype Collaborators = Collaborators(
    callback: Result<Session, string>,   // `shopify.auth.callback`
    webhooks: Result<(), string>,        // `registerWebhooks(session)`
    shopEmail: Result<string, string>,   // `fetchShopDetails(session)`: an email or a failure
    register: Result<Value, string>)     // `backend.registerMerchant`

  /** The shop lookup never yields an empty email: it fails instead. */
  predicate ShopLookupNonEmpty(co: Collaborators) {
    co.shopEmail.Ok? ==> co.shopEmail.value != ""
  }

  /** A call made to a collaborator, in the order made. */
  datatype Call =
    | CompleteAuth
    | RegisterWebhooks(session: Session)
    | FetchShopDetails(session: Session)
    | RegisterMerchant(registration: Backend.MerchantRegistration)

  /** The onboarding states of one merchant, in the order a callback reaches them. */
  datatype Stage = NotAuthenticated | Authenticated | WebhooksRegistered | MerchantRegistered

  /** `payload.email ?? (await fetchShopDetails(session)).email`: a supplied email, even an empty one, wins. */
  function ResolveEmail(payload: AuthCallbackPayload, co: Collaborators): (r: Result<string, string>)
    ensures payload.email.Some? ==> r == Ok(payload.email.value)
    ensures payload.email.None? ==> r == co.shopEmail
  {
    if payload.email.Some? then Ok(payload.email.value) else co.shopEmail
  }

  /** The registration sent for the session's shop. */
  function RegistrationFor(payload: AuthCallbackPayload, session: Session, email: string): (reg: Backend.MerchantRegistration)
    ensures reg.shopId == session.shop && reg.platform == Backend.Shopify
    ensures reg.email == Some(email) && reg.webhookUrl == payload.webhookUrl
  {
    Backend.ServiceRegistration(Backend.DefaultBackendService, session.shop, Some(Backend.Shopify), Some(email), payload.webhookUrl)
  }

  /** The calls `handleAuthCallback` makes, stopping at the first failure. */
  function CallbackTrace(payload: AuthCallbackPayload, co: Collaborators): (t: seq<Call>)
    ensures 1 <= |t| <= 4 && t[0] == CompleteAuth
    ensures co.callback.Err? ==> t == [CompleteAuth]
    ensures co.callback.Ok? ==> |t| >= 2 && t[1] == RegisterWebhooks(co.callback.value)
    ensures co.callback.Ok? && co.webhooks.Err? ==> |t| == 2
    ensures (exists s :: FetchShopDetails(s) in t) <==>
      co.callback.Ok? && co.webhooks.Ok? && payload.email.None?
    ensures (exists reg :: RegisterMerchant(reg) in t) <==>
      co.callback.Ok? && co.webhooks.Ok? && ResolveEmail(payload, co).Ok?
    ensures co.callback.Ok? && co.webhooks.Ok? && ResolveEmail(payload, co).Ok? ==>
      t[|t| - 1] == RegisterMerchant(RegistrationFor(payload, co.callback.value, ResolveEmail(payload, co).value))
    ensures forall reg :: RegisterMerchant(reg) in t ==> t[|t| - 1] == RegisterMerchant(reg)
  {
    if co.callback.Err? then [CompleteAuth]
    else
      var session := co.callback.value;
      if co.webhooks.Err? then [CompleteAuth, RegisterWebhooks(session)]
      else
        var lookup := if payload.email.None? then [FetchShopDetails(session)] else [];
        var email := ResolveEmail(payload, co);
        if email.Err? then [CompleteAuth, RegisterWebhooks(session)] + lookup
        else [CompleteAuth, RegisterWebhooks(session)] + lookup + [RegisterMerchant(RegistrationFor(payload, session, email.value))]
  }

  /** What `handleAuthCallback` resolves or rejects with. */
  function CallbackOutcome(payload: AuthCallbackPayload, co: Collaborators): (r: Result<Session, string>)
    ensures r.Ok? <==>
      co.callback.Ok? && co.webhooks.Ok? && ResolveEmail(payload, co).Ok? && co.register.Ok?
    ensures r.Ok? ==> r.value == co.callback.value
    ensures co.callback.Err? ==> r == Err(co.callback.error)
    ensures co.callback.Ok? && co.webhooks.Err? ==> r == Err(co.webhooks.error)
    ensures co.callback.Ok? && co.webhooks.Ok? && ResolveEmail(payload, co).Err? ==>
      r == Err(ResolveEmail(payload, co).error)
    ensures co.callback.Ok? && co.webhooks.Ok? && ResolveEmail(payload, co).Ok? && co.register.Err? ==>
      r == Err(co.register.error)
  {
    if co.callback.Err? then Err(co.callback.error)
    else if co.webhooks.Err? then Err(co.webhooks.error)
    else if ResolveEmail(payload, co).Err? then Err(ResolveEmail(payload, co).error)
    else if co.register.Err? then Err(co.register.error)
    else Ok(co.callback.value)
  }

  /** The furthest onboarding state one callback reaches. */
  function StageReached(payload: AuthCallbackPayload, co: Collaborators): (s: Stage)
    ensures s == MerchantRegistered <==> CallbackOutcome(payload, co).Ok?
    ensures s == NotAuthenticated <==> co.callback.Err?
    ensures s == Authenticated <==> co.callback.Ok? && co.webhooks.Err?
    ensures s == WebhooksRegistered <==> co.callback.Ok? && co.webhooks.Ok? && CallbackOutcome(payload, co).Err?
  {
    if co.callback.Err? then NotAuthenticated
    else if co.webhooks.Err? then Authenticated
    else if CallbackOutcome(payload, co).Err? then WebhooksRegistered
    else MerchantRegistered
  }

  /** A supplied email is used as is and the shop details are never fetched. */
  lemma SuppliedEmailSkipsLookup(payload: AuthCallbackPayload, co: Collaborators, session: Session)
    requires payload.email.Some? && co.callback == Ok(session) && co.webhooks.Ok?
    ensures CallbackTrace(payload, co) ==
      [CompleteAuth, RegisterWebhooks(session), RegisterMerchant(RegistrationFor(payload, session, payload.email.value))]
  {
  }

  /** Without an email, the shop lookup's email is registered, and it is never empty. */
  lemma LookedUpEmailRegistered(payload: AuthCallbackPayload, co: Collaborators, session: Session)
    requires ShopLookupNonEmpty(co)
    requires payload.email.None? && co.callback == Ok(session) && co.webhooks.Ok? && co.shopEmail.Ok?
    ensures CallbackTrace(payload, co) ==
      [CompleteAuth, RegisterWebhooks(session), FetchShopDetails(session),
       RegisterMerchant(RegistrationFor(payload, session, co.shopEmail.value))]
    ensures RegistrationFor(payload, session, co.shopEmail.value).email.value != ""
  {
  }

  /** One callback's onboarding, observed through its state and the calls it makes. */
  class OnboardingFlow {
    var stage: Stage
    var calls: seq<Call>

    constructor()
      ensures stage == NotAuthenticated && calls == []
    {
      stage := NotAuthenticated;
      calls := [];
    }

    /** `handleAuthCallback`: each awaited step runs only once the previous one succeeded. */
    method HandleAuthCallback(payload: AuthCallbackPayload, co: Collaborators) returns (r: Result<Session, string>)
      modifies this
      ensures calls == old(calls) + CallbackTrace(payload, co)
      ensures r == CallbackOutcome(payload, co)
      ensures stage == StageReached(payload, co)
    {
      stage := NotAuthenticated;
      calls := calls + [CompleteAuth];
      if co.callback.Err? {
        return Err(co.callback.error);
      }
      var session := co.callback.value;
      stage := Authenticated;

      calls := calls + [RegisterWebhooks(session)];
      if co.webhooks.Err? {
        return Err(co.webhooks.error);
      }
      stage := WebhooksRegistered;

      var email: string;
      if payload.email.Some? {
        email := payload.email.value;
      } else {
        calls := calls + [FetchShopDetails(session)];
        if co.shopEmail.Err? {
          return Err(co.shopEmail.error);
        }
        email := co.shopEmail.value;
      }

      calls := calls + [RegisterMerchant(RegistrationFor(payload, session, email))];
      if co.register.Err? {
        return Err(co.register.error);
      }
      stage := MerchantRegistered;
      r := Ok(session);
    }

    /**
     * `GET /callback`: query values that are not strings are dropped (the
     * shop becomes `''`); success redirects to the query's shop admin.
     */
    method CallbackRoute(query: map<string, Value>, co: Collaborators) returns (reply: CallbackReply)
      modifies this
      ensures calls == old(calls) + CallbackTrace(CallbackPayloadFrom(query), co)
      ensures reply == CallbackRouteReply(query, CallbackOutcome(CallbackPayloadFrom(query), co))
    {
      var r := HandleAuthCallback(CallbackPayloadFrom(query), co);
      reply := CallbackRouteReply(query, r);
    }
  }

  /** A query parameter kept only when it is a string. */
  function QueryString(query: map<string, Value>, key: string): (r: Option<string>)
    ensures r.Some? <==> key in query && query[key].Str?
  {
    if key in query && query[key].Str? then Some(query[key].s) else None
  }

  function CallbackPayloadFrom(query: map<string, Value>): (p: AuthCallbackPayload)
    ensures p.shop == QueryString(query, "shop").GetOr("")
    ensures p.email == QueryString(query, "email") && p.webhookUrl == QueryString(query, "webhookUrl")
  {
    AuthCallbackPayload(QueryString(query, "shop").GetOr(""), QueryString(query, "email"), QueryString(query, "webhookUrl"))
  }

  datatype CallbackReply = Redirect(url: string) | CallbackToErrorHandler

  function CallbackRouteReply(query: map<string, Value>, outcome: Result<Session, string>): (reply: CallbackReply)
    ensures reply.Redirect? <==> outcome.Ok?
    ensures reply.Redirect? ==> reply.url == "https://" + CallbackPayloadFrom(query).shop + "/admin/apps"
  {
    if outcome.Ok? then Redirect("https://" + CallbackPayloadFrom(query).shop + "/admin/apps")
    else CallbackToErrorHandler
  }

  /** The redirect names the shop from the query, not the shop of the session. */
  lemma RedirectUsesQueryShop(shop: string, session: Session)
    requires session.shop != shop
    ensures CallbackRouteReply(map["shop" := Str(shop)], Ok(session)) == Redirect("https://" + shop + "/admin/apps")
  {
  }

  datatype BeginReply = BadRequest400 | BeginAuth(shop: string, callbackPath: string, isOnline: bool)

  /** `GET /`: without a non-empty string `shop` the reply is 400 and auth never begins. */
  function BeginRoute(query: map<string, Value>): (reply: BeginReply)
    ensures reply == BadRequest400 <==> QueryString(query, "shop").None? || QueryString(query, "shop").value == ""
    ensures reply.BeginAuth? ==> reply == BeginAuth(query["shop"].s, "/auth/callback", false)
  {
    var shop := QueryString(query, "shop");
    if shop.None? || shop.value == "" then BadRequest400
    else BeginAuth(shop.value, "/auth/callback", false)
  }
}

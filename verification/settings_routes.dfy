/**
 * The settings routes: input guards, then delegation to the backend client.
 * Source: packages/shopify-app/src/routes/settings.ts.
 */
module SettingsRoutes {
  import opened JsValues

  /**
   * A settings update as posted. The body is cast, not checked, so either
   * field may be missing.
   */
  datatype SettingsPayload = SettingsPayload(shopId: Option<string>, email: Option<string>, webhookUrl: Option<string>)

  predicate Present(s: Option<string>) {
    s.Some? && s.value != ""
  }

  const ShopIdRequired := "shopId is required"
  const EmailRequired := "email is required"

  /**
   * `handleSettingsUpdate`: the payload handed to `saveSettings`, or the
   * error thrown before the backend is touched. The shop id is checked first.
   */
  function HandleSettingsUpdate(payload: SettingsPayload): (r: Result<SettingsPayload, string>)
    ensures r.Ok? <==> Present(payload.shopId) && Present(payload.email)
    ensures r.Ok? ==> r.value == payload
    ensures !Present(payload.shopId) ==> r == Err(ShopIdRequired)
    ensures Present(payload.shopId) && !Present(payload.email) ==> r == Err(EmailRequired)
  {
    if !Present(payload.shopId) then Err(ShopIdRequired)
    else if !Present(payload.email) then Err(EmailRequired)
    else Ok(payload)
  }

  /** The shop-id guard wins even when both fields are missing. */
  lemma ShopIdCheckedFirst(webhookUrl: Option<string>)
    ensures HandleSettingsUpdate(SettingsPayload(Some(""), Some(""), webhookUrl)) == Err(ShopIdRequired)
    ensures HandleSettingsUpdate(SettingsPayload(Some("demo"), Some(""), webhookUrl)) == Err(EmailRequired)
  {
  }

  /**
   * `handleSettingsFetch`: the shop id passed to `getSettings`, whose result
   * is returned as it is; a missing or empty id is rejected.
   */
  function HandleSettingsFetch(shopId: Option<string>): (r: Result<string, string>)
    ensures r.Ok? <==> Present(shopId)
    ensures r.Ok? ==> r.value == shopId.value
    ensures r.Err? ==> r.error == ShopIdRequired
  {
    if !Present(shopId) then Err(ShopIdRequired) else Ok(shopId.value)
  }

  /** A query `shopId` that is not a string counts as missing. */
  function QueryShopId(query: map<string, Value>): (r: Option<string>)
    ensures r.Some? <==> "shopId" in query && query["shopId"].Str?
  {
    if "shopId" in query && query["shopId"].Str? then Some(query["shopId"].s) else None
  }

  datatype SettingsReply = JsonReply(status: int, body: Value) | ToErrorHandler

  /**
   * `GET /`: the backend's settings (`settings`, as `getSettings` resolved
   * for the shop id) with a null or undefined result sent as `{}`; a
   * rejected fetch goes to the error handler.
   */
  function SettingsGetReply(query: map<string, Value>, settings: Result<Value, string>): (reply: SettingsReply)
    ensures !Present(QueryShopId(query)) ==> reply == ToErrorHandler
    ensures Present(QueryShopId(query)) && settings.Ok? && Nullish(settings.value) ==> reply == JsonReply(200, Obj(map[]))
    ensures Present(QueryShopId(query)) && settings.Ok? && !Nullish(settings.value) ==> reply == JsonReply(200, settings.value)
    ensures settings.Err? ==> reply == ToErrorHandler
  {
    match HandleSettingsFetch(QueryShopId(query))
    case Err(_) => ToErrorHandler
    case Ok(_) =>
      match settings
      case Err(_) => ToErrorHandler
      case Ok(v) => JsonReply(200, Coalesce(v, Obj(map[])))
  }

  /** `POST /`: 200 `{ ok: true }` once the save succeeded, the error handler otherwise. */
  function SettingsPostReply(payload: SettingsPayload, saved: Result<Value, string>): (reply: SettingsReply)
    ensures reply == JsonReply(200, Obj(map["ok" := Bool(true)])) <==> HandleSettingsUpdate(payload).Ok? && saved.Ok?
    ensures HandleSettingsUpdate(payload).Err? || saved.Err? ==> reply == ToErrorHandler
  {
    if HandleSettingsUpdate(payload).Ok? && saved.Ok? then JsonReply(200, Obj(map["ok" := Bool(true)]))
    else ToErrorHandler
  }
}

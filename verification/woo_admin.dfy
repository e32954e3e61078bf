/**
 * The form-submission branch of the WooCommerce settings page: nonce and
 * email gates, the three option updates, then exactly one of register or
 * update, and the notice that reports the result.
 * Source: packages/woocommerce-plugin/includes/class-serenai-admin.php.
 */
module WooAdmin {
  import opened JsValues
  import WooApi

  const EmailOption := "serenai_email"
  const WebhookUrlOption := "serenai_webhook_url"
  const AlertsOption := "serenai_alerts_enabled"

  /** A settings notice (`add_settings_error`): its code, message and type. */
  datatype Notice = Notice(code: string, message: string, kind: string)

  const InvalidEmailNotice := Notice("invalid_email", "Please enter a valid email address.", "error")

  /** The WordPress sanitisers, left uninterpreted: `sanitize_email`, `esc_url_raw`, `is_email`. */
  datatype Sanitizers = Sanitizers(sanitizeEmail: string -> string, escUrlRaw: string -> string, isEmail: string -> bool)

  /** How the submission branch ended. `NonceRejected` is `check_admin_referer` ending the request. */
  datatype Submission = NotSubmitted | NonceRejected | InvalidEmail | Synced(result: WooApi.WpResult)

  /** `$_POST[$key] ?? ''` */
  function PostField(post: map<string, string>, key: string): string {
    if key in post then post[key] else ""
  }

  function SubmittedEmail(post: map<string, string>, san: Sanitizers): string {
    san.sanitizeEmail(PostField(post, "serenai_email"))
  }

  function SubmittedWebhookUrl(post: map<string, string>, san: Sanitizers): string {
    san.escUrlRaw(PostField(post, "serenai_webhook_url"))
  }

  /** The checkbox is on exactly when its field is posted, whatever its value. */
  function SubmittedAlerts(post: map<string, string>): (on: bool)
    ensures on <==> "serenai_alerts_enabled" in post
  {
    "serenai_alerts_enabled" in post
  }

  /** The three options after a valid submission. */
  function SavedOptions(values: map<string, Value>, email: string, webhookUrl: string, alerts: bool): (r: map<string, Value>)
    ensures r.Keys == values.Keys + {EmailOption, WebhookUrlOption, AlertsOption}
    ensures r[EmailOption] == Str(email) && r[WebhookUrlOption] == Str(webhookUrl) && r[AlertsOption] == Bool(alerts)
    ensures forall k :: k in values && k != EmailOption && k != WebhookUrlOption && k != AlertsOption ==> r[k] == values[k]
  {
    values[EmailOption := Str(email)][WebhookUrlOption := Str(webhookUrl)][AlertsOption := Bool(alerts)]
  }

  /** The notice reporting a sync: a `WP_Error` is an `api_error`; anything else is `settings_saved`. */
  function ResultNotice(r: WooApi.WpResult): (n: Notice)
    ensures n.code == "api_error" <==> r.WpError?
    ensures n.code == "settings_saved" <==> r.Returned?
    ensures r.WpError? ==> n == Notice("api_error", "Failed to sync with SerenAI: " + r.message, "error")
    ensures r.Returned? ==> n.kind == "success"
  {
    match r
    case WpError(_, message) => Notice("api_error", "Failed to sync with SerenAI: " + message, "error")
    case Returned(_) => Notice("settings_saved", "Settings saved successfully!", "success")
  }

  /** A backend reply that is not a transport error is reported as saved, even when it carries no key. */
  lemma BackendReplyReportedAsSaved(reply: Value)
    ensures ResultNotice(WooApi.ResponseResult(WooApi.Delivered(reply))).code == "settings_saved"
    ensures !WooApi.StoresKey(WooApi.Delivered(Obj(map["error" := Str("rejected")])))
  {
    assert "api_key" !in map["error" := Str("rejected")];
  }

  /** The settings page of one WordPress request, observed through the notices it queues. */
  class SerenAIAdmin {
    const api: WooApi.SerenAIApi
    var notices: seq<Notice>

    constructor(api: WooApi.SerenAIApi)
      ensures this.api == api && notices == []
    {
      this.api := api;
      notices := [];
    }

    /**
     * The submission branch of `render_settings_page`. `nonceValid` is what
     * `check_admin_referer` decides; `transport` is what the one backend call
     * made yields.
     */
    method HandleSettingsSubmission(post: map<string, string>, nonceValid: bool, san: Sanitizers, transport: WooApi.Transport)
      returns (outcome: Submission)
      requires api.Valid()
      modifies this, api, api.options
      ensures api.Valid()
      ensures outcome == NotSubmitted <==> "serenai_save_settings" !in post
      ensures outcome == NonceRejected <==> "serenai_save_settings" in post && !nonceValid
      ensures outcome == InvalidEmail <==>
        "serenai_save_settings" in post && nonceValid && !san.isEmail(SubmittedEmail(post, san))
      ensures !outcome.Synced? ==>
        api.options.values == old(api.options.values) && api.apiKey == old(api.apiKey) && api.requests == old(api.requests)
      ensures outcome == InvalidEmail ==> notices == old(notices) + [InvalidEmailNotice]
      ensures outcome == NotSubmitted || outcome == NonceRejected ==> notices == old(notices)
      ensures outcome.Synced? ==> (
        outcome.result == WooApi.ResponseResult(transport)
        && notices == old(notices) + [ResultNotice(outcome.result)])
      // registered: the settings are updated, and the key stays as it was
      ensures outcome.Synced? && old(api.IsRegistered()) ==> (
        api.apiKey == old(api.apiKey)
        && api.options.values == SavedOptions(old(api.options.values), SubmittedEmail(post, san), SubmittedWebhookUrl(post, san), SubmittedAlerts(post))
        && api.requests == old(api.requests)
             + [api.SettingsRequest(SubmittedEmail(post, san), SubmittedWebhookUrl(post, san), SubmittedAlerts(post))])
      // not registered: the store registers, and keeps a key only if one came back
      ensures outcome.Synced? && !old(api.IsRegistered()) ==> (
        api.requests == old(api.requests)
             + [api.RegisterRequest(SubmittedEmail(post, san), SubmittedWebhookUrl(post, san), SubmittedAlerts(post))]
        && (WooApi.StoresKey(transport) ==>
              api.apiKey == WooApi.ApiKeyOf(transport.decoded) && api.IsRegistered()
              && api.options.values == SavedOptions(old(api.options.values), SubmittedEmail(post, san), SubmittedWebhookUrl(post, san), SubmittedAlerts(post))[WooApi.ApiKeyOption := api.apiKey])
        && (!WooApi.StoresKey(transport) ==>
              api.apiKey == old(api.apiKey) && !api.IsRegistered()
              && api.options.values == SavedOptions(old(api.options.values), SubmittedEmail(post, san), SubmittedWebhookUrl(post, san), SubmittedAlerts(post))))
    {
      if "serenai_save_settings" !in post {
        return NotSubmitted;
      }
      if !nonceValid {
        return NonceRejected;
      }
      var email := san.sanitizeEmail(PostField(post, "serenai_email"));
      var webhookUrl := san.escUrlRaw(PostField(post, "serenai_webhook_url"));
      var alertsEnabled := "serenai_alerts_enabled" in post;

      if !san.isEmail(email) {
        notices := notices + [InvalidEmailNotice];
        return InvalidEmail;
      }
      api.options.Update(EmailOption, Str(email));
      api.options.Update(WebhookUrlOption, Str(webhookUrl));
      api.options.Update(AlertsOption, Bool(alertsEnabled));

      var result;
      if api.IsRegistered() {
        result := api.UpdateSettings(email, webhookUrl, alertsEnabled, transport);
      } else {
        result := api.RegisterMerchant(email, webhookUrl, alertsEnabled, transport);
      }
      notices := notices + [ResultNotice(result)];
      outcome := Synced(result);
    }
  }
}

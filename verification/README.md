# SerenAI anomaly feeds: a Dafny model of the two storefront adapters

SerenAI watches an e-commerce store's checkout and order activity and reports
anomalies to the merchant. Two storefront adapters feed it:

- **Shopify app** (TypeScript).
  - OAuth onboarding runs the callback, subscribes the four required webhook
    topics, resolves the merchant's email and registers the merchant with the
    backend.
  - Each signed webhook delivery is verified with HMAC-SHA256 and normalised
    into a canonical "charms" event (`event_type`, `financial_status`,
    `order_total`, `timestamp`). It is then posted to the backend.
  - A small settings API forwards merchant settings.
- **WooCommerce plugin** (PHP).
  - A backend client keeps an API key in the WordPress options table.
  - Event hooks, attached only when the store is registered, send one event
    per checkout or order action.
  - The settings form validates the submission and either registers the
    store or updates its settings.

The model has one module per source file:

| module | file | source |
|---|---|---|
| `JsValues` | js_values.dfy | a loose JavaScript/PHP value type, truthiness, `??`, `\|\|`, ASCII lower-casing |
| `Backend` | backend.dfy | `packages/shopify-app/src/services/backend.ts` |
| `Verify` | verify.dfy | `packages/shopify-app/src/middleware/verify.ts` |
| `WebhookRoutes` | webhook_routes.dfy | `packages/shopify-app/src/routes/webhooks.ts` |
| `WebhookProvisioning` | webhook_service.dfy | `packages/shopify-app/src/services/webhooks.ts` |
| `AuthRoutes` | auth_routes.dfy | `packages/shopify-app/src/routes/auth.ts` |
| `SettingsRoutes` | settings_routes.dfy | `packages/shopify-app/src/routes/settings.ts` |
| `ShopifyConfig` | shopify_config.dfy | `packages/shopify-app/src/shopify.ts` |
| `WooApi` | woo_api.dfy | `packages/woocommerce-plugin/includes/class-serenai-api.php` |
| `WooHooks` | woo_hooks.dfy | `packages/woocommerce-plugin/includes/class-serenai-hooks.php` |
| `WooAdmin` | woo_admin.dfy | the form-submission branch of `packages/woocommerce-plugin/includes/class-serenai-admin.php` |

**Pure code becomes functions.** Normalisation, signature checking, header
and URL handling, and response interpretation are functions with named results.

**Stateful code becomes classes.** Code that calls collaborators in sequence
or updates state is modelled as a class whose methods record what they do:

- `WebhookRouter.forwarded` holds the deliveries handed to the backend, and
  `WebhookRouter.posts` the `/events` requests they lead to;
- `WebhookRegistrar.calls` holds the webhook subscriptions issued;
- `OnboardingFlow.calls` and `OnboardingFlow.stage` hold the OAuth callback's
  calls and the furthest onboarding stage reached;
- `SerenAIApi.apiKey` and `SerenAIApi.requests` hold the key and the HTTP
  requests issued, and `OptionStore.values` holds the WordPress options;
- `SerenAIHooks.sent` and `SerenAIAdmin.notices` hold the events sent and the
  notices queued.

Each method is proved against a specification function (`CallbackTrace`,
`RegistrationsFor`, `EventsFor`, `EventRequests`, `SavedOptions`), and the
lemmas state the properties of those functions.

**Primitives the code calls but does not define are parameters.** These are
HMAC-SHA256, base64, `JSON.parse`/`JSON.stringify`, UTF-8 decoding,
`Number.parseFloat`, `md5`, `sanitize_email`, `esc_url_raw` and `is_email`.
They are passed as function-typed values (`Verify.Crypto`, `JsValues.Runtime`,
`WooAdmin.Sanitizers`), so every property holds for every implementation of
them. Where a property needs something of a primitive, the lemma says so. For
example, `Verify.AcceptedIffDecodesToDigest` requires that base64 decoding
inverts encoding.

## Where the model follows the code

At a few points the code behaves differently from what a first reading of
the field names suggests. The model follows the code each time, and a lemma
pins the difference down:

- **Order total.** The amount is not "the first candidate that parses". The
  code takes the first *non-nullish* candidate with `??` and only then parses
  it. An unparseable `total_price` therefore gives 0 even when
  `subtotal_price` parses (`Backend.UnparseableFirstCandidateGivesZero`).
- **Timestamp.** The timestamp is not "the first non-empty string". The code
  takes the first *truthy* field with `||` and then requires a string:
  - a numeric `processed_at` gives the current time
    (`Backend.TruthyNonStringTimestampGivesNow`);
  - an empty `updated_at`, reached after two falsy fields, is kept as the
    timestamp (`Backend.EmptyUpdatedAtIsKept`).
- **Backend base URL.** It is not validated once at startup. `ensureBaseUrl`
  runs on every request, so a missing `BACKEND_URL` fails each call, not the
  boot (`Backend.EnsureBaseUrl`).
- **Webhook address.** The fallback chain uses `??`, so an empty
  `CHARMS_SERVICE_URL` does not fall through to `BACKEND_URL` or `HOST`. It
  becomes a configuration error instead
  (`WebhookProvisioning.EmptyServiceUrlDoesNotFallThrough`).
- **Merchant email.** The OAuth email also uses `??`, so an empty email in the
  query is registered as it is, and the shop details are not fetched
  (`AuthRoutes.SuppliedEmailSkipsLookup`).
- **WooCommerce `processing`.** The status table maps `processing` to
  `pending`, but a change *into* `processing` is reported as `paid`
  (`WooHooks.ProcessingReportedTwoWays`).

## Model

| member | source | states |
|---|---|---|
| JsValues.Coalesce | packages/shopify-app/src/services/backend.ts:159 | `a ?? b` is `a` unless `a` is null or undefined, in which case it is `b` |
| JsValues.OrElse | packages/shopify-app/src/services/backend.ts:196 | `a \|\| b` is `a` when truthy and otherwise `b`, even when `b` is falsy |
| JsValues.Lower | packages/shopify-app/src/services/backend.ts:156 | lower-casing keeps the length and maps each character through the ASCII case table |
| JsValues.LowerIdempotent | packages/shopify-app/src/services/backend.ts:205 | the second `toLowerCase` in `normalizeFinancialStatus` on an already lower-cased topic changes nothing |
| JsValues.StripTrailingSlash | packages/shopify-app/src/services/backend.ts:45 | `replace(/\/$/, '')` removes exactly one trailing slash when there is one, and otherwise leaves the string unchanged |
| Backend.ToRecord | packages/shopify-app/src/services/backend.ts:173-178 | only a non-array object is a record; every other body reads as absent |
| Backend.NormalizeFinancialStatus | packages/shopify-app/src/services/backend.ts:204-233 | checkout, paid and cancelled topics fix the status; otherwise a string status lower-cased to `paid` is paid, one of voided/refunded/partially_refunded/cancelled is failed, and anything else (including a non-string) is pending; both directions of each case |
| Backend.ResolveEventType | packages/shopify-app/src/services/backend.ts:235-245 | `checkouts/create` gives checkout_started, `orders/cancelled` gives order_failed, and every other topic gives order_created, compared case-insensitively |
| Backend.ParseAmount | packages/shopify-app/src/services/backend.ts:180-193 | a finite number is kept, a string is kept when `parseFloat` gives a finite value, and everything else is absent |
| Backend.CoalesceFields | packages/shopify-app/src/services/backend.ts:159 | the `??` chain yields the first non-nullish field, or the last field when all are nullish |
| Backend.ExtractTimestamp | packages/shopify-app/src/services/backend.ts:195-202 | the first truthy field of `processed_at`, `created_at`, `updated_at` decides: it is the timestamp when it is a string and gives `now` otherwise; when the first two are falsy, `updated_at` is used when it is any string (even empty); with no record the result is `now` |
| Backend.BuildCharmsEvent | packages/shopify-app/src/services/backend.ts:154-171 | shop id, platform and raw payload are copied; event type and status come from the lower-cased topic and the record's status; the total is `OrderTotal` of the record and the timestamp is `ExtractTimestamp` of the record |
| Backend.OrderTotal | packages/shopify-app/src/services/backend.ts:159-167 | 0 when all four amount fields are nullish; otherwise 0 or the parsed value of one of the amount fields |
| Backend.PriorityTopicIgnoresBody | packages/shopify-app/src/services/backend.ts:204-216 | for checkout, paid and cancelled topics, the status ignores the body's declared status |
| Backend.UnknownResolvesToDefaults | packages/shopify-app/src/services/backend.ts:218-245 | an unknown topic with an unknown or ill-typed status gives pending and order_created |
| Backend.TopicCaseInsensitive | packages/shopify-app/src/services/backend.ts:154-158 | two topics equal up to case give the same event type, status and whole event |
| Backend.UnparseableFirstCandidateGivesZero | packages/shopify-app/src/services/backend.ts:159-167 | a present but unparseable `total_price` gives total 0, whatever the later candidates hold |
| Backend.OrderTotalFromFirstCandidate | packages/shopify-app/src/services/backend.ts:159-167 | the total is the parse of the first non-nullish amount candidate, or 0 when it does not parse |
| Backend.NonObjectBodyYieldsDefaults | packages/shopify-app/src/services/backend.ts:173-178 | a body that is not a record gives total 0, the current time and the topic-only status |
| Backend.TruthyNonStringTimestampGivesNow | packages/shopify-app/src/services/backend.ts:195-201 | a truthy non-string `processed_at` gives the current time |
| Backend.FirstTruthyStringIsTimestamp | packages/shopify-app/src/services/backend.ts:195-199 | a non-empty string `created_at` after a falsy `processed_at` is the timestamp |
| Backend.EmptyUpdatedAtIsKept | packages/shopify-app/src/services/backend.ts:196-198 | an empty `updated_at` reached after two missing fields is returned as the timestamp |
| Backend.OrdersPaidExample | packages/shopify-app/tests/backend.test.ts:115-146 | an `orders/paid` delivery with total "99.99" becomes order_created, paid, 99.99, with its `created_at` |
| Backend.OrdersCancelledExample | packages/shopify-app/tests/backend.test.ts:148-167 | an `orders/cancelled` delivery becomes order_failed with status failed |
| Backend.EnsureBaseUrl | packages/shopify-app/src/services/backend.ts:40-46 | a missing or empty base URL is the configuration error; otherwise one trailing slash is dropped |
| Backend.OnlyOneSlashRemoved | packages/shopify-app/src/services/backend.ts:45 | a base URL ending in `//` keeps one trailing slash |
| Backend.BuildHeaders | packages/shopify-app/src/services/backend.ts:48-53 | the JSON content type comes first and always; an Authorization header, carrying `Bearer <key>`, follows exactly when the key is non-empty, and nothing else is sent |
| Backend.InterpretBackendResponse | packages/shopify-app/src/services/backend.ts:78-90 | a non-ok 404 is null and any other non-ok response an error with status and text; an ok response is its parsed JSON, or undefined when the body is empty or not JSON |
| Backend.InterpretSettingsResponse | packages/shopify-app/src/services/backend.ts:133-142 | 404 is null before `ok` is consulted; non-ok is an error; an ok body that is not JSON is an error |
| Backend.ErrorPathsAgree | packages/shopify-app/src/services/backend.ts:133-140 | on responses whose `ok` matches a 2xx status, the two readings agree on every failure |
| Backend.SettingsChecks404First | packages/shopify-app/src/services/backend.ts:133-137 | a response claiming both ok and 404 is null for settings but parsed by the generic client |
| Backend.RequestBackend | packages/shopify-app/src/services/backend.ts:64-91 | succeeds exactly when the base URL is configured, the fetch resolves and the response is ok or 404; a missing base URL is the configuration error, a rejected fetch its rejection, and a resolved response is read by `InterpretBackendResponse` |
| Backend.ForwardRequests | packages/shopify-app/src/services/backend.ts:145-152 | exactly one POST, to `<base>/events` carrying `BuildCharmsEvent` of the payload, when the base URL is configured, and none otherwise |
| Backend.NotFoundCountsAsDelivered | packages/shopify-app/src/services/backend.ts:78-84 | a 404 from the backend resolves the request with null, while a 500 is an error carrying its status and text |
| Backend.ServiceRegistration | packages/shopify-app/src/services/backend.ts:253-255 | the registration keeps the payload's fields, with the service's platform unless the payload names one |
| Verify.TimingSafeEqualIsEquality | packages/shopify-app/src/middleware/verify.ts:18 | the accumulate-the-difference comparison holds exactly when the two equal-length buffers are equal |
| Verify.VerifyShopifyHmac | packages/shopify-app/src/middleware/verify.ts:4-19 | accepted exactly when payload, header and secret are non-empty and the decoded header equals the decoded HMAC-SHA256 digest |
| Verify.GenuineSignatureAccepted | packages/shopify-app/src/middleware/verify.ts:9-18 | the header the sender computes with the shared secret is always accepted |
| Verify.AcceptedIffDecodesToDigest | packages/shopify-app/src/middleware/verify.ts:9-18 | when base64 round-trips, a header is accepted exactly when it decodes to the raw digest |
| Verify.LengthMismatchRejected | packages/shopify-app/src/middleware/verify.ts:11-16 | a header whose decoded length differs from the digest's is rejected |
| Verify.ExtractRawBody | packages/shopify-app/src/middleware/verify.ts:21-35 | a falsy body is empty, a buffer is decoded as UTF-8, a string is kept, and anything else is JSON-stringified |
| Verify.SignatureVerdict | packages/shopify-app/src/middleware/verify.ts:37-51 | 500 exactly when the secret is missing or empty; the request continues exactly when the signature verifies; otherwise 401 |
| Verify.FalsyBodyUnauthorized | packages/shopify-app/src/middleware/verify.ts:37-48 | with a secret configured, a falsy body is always rejected with 401 |
| WebhookRoutes.GetHeader | packages/shopify-app/src/routes/webhooks.ts:53-54 | a header is found exactly when its lower-cased name is present |
| WebhookRoutes.HeaderOrUnknown | packages/shopify-app/src/routes/webhooks.ts:53-54 | a missing header reads as `unknown`; a present one is kept |
| WebhookRoutes.ParseRequestBody | packages/shopify-app/src/routes/webhooks.ts:18-45 | a falsy body or an empty buffer gives `{}`; buffer or string text is parsed as JSON and kept raw when that fails; anything else passes through |
| WebhookRoutes.InvalidJsonKeptAsRawString | packages/shopify-app/src/routes/webhooks.ts:29-41 | text that is not JSON is forwarded as the raw string, whether it came as a string or a buffer |
| WebhookRoutes.DeliveryPayload | packages/shopify-app/src/routes/webhooks.ts:53-60 | the forwarded payload carries the topic and shop headers (defaulted) and the parsed body |
| WebhookRoutes.MissingHeadersDefault | packages/shopify-app/src/routes/webhooks.ts:53-54 | without topic and shop headers, both are `unknown` |
| WebhookRoutes.WebhookRouter.HandleWebhookDelivery | packages/shopify-app/src/routes/webhooks.ts:11-16 | the payload is handed to the backend once, the backend receives exactly the requests `ForwardRequests` describes, and the delivery succeeds exactly when `requestBackend` resolves |
| WebhookRoutes.WebhookRouter.Post | packages/shopify-app/src/routes/webhooks.ts:51-66 | 500 or 401 from the middleware forward nothing and post nothing; an accepted request forwards its payload once, posts what `ForwardRequests` describes, and replies 200 `{ok: true}` exactly when the backend request resolves, otherwise the error handler's reply |
| WebhookRoutes.NotFoundBackendStillAcknowledged | packages/shopify-app/src/routes/webhooks.ts:56-62 | a delivery whose backend answers 404 is still acknowledged, because `requestBackend` resolves 404 with null (backend.ts:78-81) |
| WebhookProvisioning.WebhookBaseUrl | packages/shopify-app/src/services/webhooks.ts:38 | the service URL, else the backend URL, else the host, each taken when merely present |
| WebhookProvisioning.BuildWebhookAddress | packages/shopify-app/src/services/webhooks.ts:37-44 | an error exactly when the chosen base is missing or empty; otherwise the base without one trailing slash, followed by the path |
| WebhookProvisioning.EmptyServiceUrlDoesNotFallThrough | packages/shopify-app/src/services/webhooks.ts:38-41 | an empty service URL is an error even when the backend URL or host is set |
| WebhookProvisioning.AddressExample | packages/shopify-app/src/services/webhooks.ts:37-44 | `https://charms.serenai.com`, with or without a trailing slash, gives `https://charms.serenai.com/events` |
| WebhookProvisioning.RegistrationsFor | packages/shopify-app/src/services/webhooks.ts:26-34 | one subscription per required topic, in order, all with the same session and address |
| WebhookProvisioning.EachRequiredTopicOnce | packages/shopify-app/src/services/webhooks.ts:5-10 | each required topic is subscribed exactly once and no other topic at all |
| WebhookProvisioning.WebhookRegistrar.RegisterWebhooks | packages/shopify-app/src/services/webhooks.ts:20-35 | without an address nothing is subscribed; otherwise all four subscriptions are issued, and the step succeeds exactly when none is rejected, failing with one of the rejections |
| WebhookProvisioning.SubscriptionRequestFor | packages/shopify-app/src/services/webhooks.ts:46-67 | a session without an access token is an error; otherwise the request posts topic, address and JSON format to the shop's webhooks endpoint with the token |
| WebhookProvisioning.SubscriptionResult | packages/shopify-app/src/services/webhooks.ts:69-72 | success exactly when the response is ok; the error names the topic |
| WebhookProvisioning.RegisterShopifyWebhook | packages/shopify-app/src/services/webhooks.ts:46-73 | success exactly when the session has a token and the shop accepts; a missing token is reported before any request |
| AuthRoutes.ResolveEmail | packages/shopify-app/src/routes/auth.ts:27 | a supplied email, even an empty one, is used; otherwise the shop lookup's result is |
| AuthRoutes.RegistrationFor | packages/shopify-app/src/routes/auth.ts:29-34 | the registration names the session's shop, the Shopify platform, the resolved email and the payload's webhook URL |
| AuthRoutes.CallbackTrace | packages/shopify-app/src/routes/auth.ts:15-37 | the callback runs first; webhooks only after it succeeds; the shop lookup exactly when webhooks succeeded and no email was given; registration exactly when an email was resolved, as the last call |
| AuthRoutes.CallbackOutcome | packages/shopify-app/src/routes/auth.ts:15-37 | the callback resolves with its session exactly when all four steps succeed; otherwise it rejects with the error of the first failing step, whether the OAuth callback, webhook registration, email resolution or merchant registration |
| AuthRoutes.StageReached | packages/shopify-app/src/routes/auth.ts:20-34 | each of the four stages is characterised exactly: unauthenticated when the OAuth callback fails, authenticated when only webhook registration fails, webhooks registered when a later step fails, and merchant registered when the whole callback succeeds |
| AuthRoutes.SuppliedEmailSkipsLookup | packages/shopify-app/src/routes/auth.ts:27 | with an email supplied, the calls are callback, webhooks and registration, with no shop lookup |
| AuthRoutes.LookedUpEmailRegistered | packages/shopify-app/src/routes/auth.ts:27-34 | without an email, the looked-up email is registered after the lookup, and it is non-empty |
| AuthRoutes.OnboardingFlow.HandleAuthCallback | packages/shopify-app/src/routes/auth.ts:15-37 | the calls made, the result and the stage reached are those of the trace, outcome and stage functions |
| AuthRoutes.OnboardingFlow.CallbackRoute | packages/shopify-app/src/routes/auth.ts:62-79 | the callback runs on the query's string values and replies with the redirect or the error handler |
| AuthRoutes.QueryString | packages/shopify-app/src/routes/auth.ts:64-70 | a query value is kept exactly when it is a string |
| AuthRoutes.CallbackPayloadFrom | packages/shopify-app/src/routes/auth.ts:64-70 | a non-string shop becomes `''`; a non-string email or webhook URL is dropped |
| AuthRoutes.CallbackRouteReply | packages/shopify-app/src/routes/auth.ts:75-78 | the reply redirects exactly when the callback succeeded, to `https://<shop>/admin/apps` |
| AuthRoutes.RedirectUsesQueryShop | packages/shopify-app/src/routes/auth.ts:75 | the redirect names the query's shop even when the session's shop differs |
| AuthRoutes.BeginRoute | packages/shopify-app/src/routes/auth.ts:43-56 | 400 exactly when the shop is missing, not a string or empty; otherwise offline auth begins with callback `/auth/callback` |
| SettingsRoutes.HandleSettingsUpdate | packages/shopify-app/src/routes/settings.ts:10-23 | saved exactly when shop id and email are both non-empty; the shop id error wins over the email error |
| SettingsRoutes.ShopIdCheckedFirst | packages/shopify-app/src/routes/settings.ts:14-20 | with both fields empty the error is about the shop id; with only the email empty it is about the email |
| SettingsRoutes.HandleSettingsFetch | packages/shopify-app/src/routes/settings.ts:25-31 | the fetch goes ahead exactly when the shop id is non-empty |
| SettingsRoutes.QueryShopId | packages/shopify-app/src/routes/settings.ts:39 | the query's shop id counts only when it is a string |
| SettingsRoutes.SettingsGetReply | packages/shopify-app/src/routes/settings.ts:37-45 | a missing id or failed fetch goes to the error handler; null or undefined settings are sent as `{}` and other settings as they are |
| SettingsRoutes.SettingsPostReply | packages/shopify-app/src/routes/settings.ts:47-54 | 200 `{ok: true}` exactly when validation and the save both succeed |
| ShopifyConfig.SanitizeHost | packages/shopify-app/src/shopify.ts:17-22 | a missing or empty host is `localhost`; one leading `https://` or `http://`, in any case, is removed |
| ShopifyConfig.SchemeRemovedOnce | packages/shopify-app/src/shopify.ts:21 | only the first scheme is removed, and a scheme later in the string is kept |
| ShopifyConfig.Split | packages/shopify-app/src/shopify.ts:40 | splitting gives at least one part, no part contains the separator, and joining the parts gives the input back |
| ShopifyConfig.SplitJoinRoundTrip | packages/shopify-app/src/shopify.ts:40 | splitting the join of separator-free parts gives those parts back |
| ShopifyConfig.Trim | packages/shopify-app/src/shopify.ts:40 | a trimmed scope is no longer than the input and neither starts nor ends with whitespace |
| ShopifyConfig.TrimStrips | packages/shopify-app/src/shopify.ts:40 | the trimmed scope is a slice of the input, and everything removed before and after it is whitespace |
| ShopifyConfig.TrimKeepsUnpadded | packages/shopify-app/src/shopify.ts:40 | a string without surrounding whitespace is its own trim |
| ShopifyConfig.TrimAll | packages/shopify-app/src/shopify.ts:40 | each element is trimmed, and the list keeps its length |
| ShopifyConfig.ParseScopes | packages/shopify-app/src/shopify.ts:28-40 | one scope per comma-separated part of `SCOPES` (or of the default), in order, each the trim of its part and so without surrounding whitespace |
| ShopifyConfig.ParseScopesOfJoin | packages/shopify-app/src/shopify.ts:40 | scopes written without commas or padding are parsed back exactly |
| ShopifyConfig.DefaultScopesParsed | packages/shopify-app/src/shopify.ts:28 | without `SCOPES`, the scopes are exactly `read_orders` and `read_checkouts` |
| ShopifyConfig.ConfigureShopify | packages/shopify-app/src/shopify.ts:24-52 | credentials error exactly when the key or secret is missing or empty; otherwise key, secret, sanitised host, parsed scopes, and the paths `/auth`, `/auth/callback` and `/api/webhooks/shopify` |
| WooApi.ValueOrNull | packages/woocommerce-plugin/includes/class-serenai-api.php:130-131 | `$data[$key] ?? null` is null exactly when the key is missing or null, and is the value otherwise |
| WooApi.ApiKeyOf | packages/woocommerce-plugin/includes/class-serenai-api.php:71 | a body that is not an array has an empty key; an array with an `api_key` gives that value, and one without gives an empty key |
| WooApi.ResponseResult | packages/woocommerce-plugin/includes/class-serenai-api.php:64-68 | a transport error is returned as it is; otherwise the decoded body is returned |
| WooApi.EventPayload | packages/woocommerce-plugin/includes/class-serenai-api.php:126-134 | the event has exactly the seven keys; financial status and total are the data's values, whatever their type, or null when missing |
| WooApi.OptionStore.Update | packages/woocommerce-plugin/includes/class-serenai-api.php:72 | `update_option` sets one option and leaves the others unchanged |
| WooApi.SerenAIApi.constructor | packages/woocommerce-plugin/includes/class-serenai-api.php:15-18 | the key is the stored option, or `''`, so a store with no key is not registered |
| WooApi.SerenAIApi.ShopId | packages/woocommerce-plugin/includes/class-serenai-api.php:26-28 | the shop id is `woo_` followed by the site hash |
| WooApi.SerenAIApi.EventRequests | packages/woocommerce-plugin/includes/class-serenai-api.php:120-143 | no request when unregistered; otherwise one POST to `/events` with the bearer key, the event payload and a 10-second timeout |
| WooApi.SerenAIApi.RegisterMerchant | packages/woocommerce-plugin/includes/class-serenai-api.php:47-77 | one registration request; the key is stored in both the option and the field exactly when a delivered body carries a non-empty one; the field and the option stay equal |
| WooApi.SerenAIApi.UpdateSettings | packages/woocommerce-plugin/includes/class-serenai-api.php:86-111 | unregistered gives `no_api_key` with no request; otherwise one PATCH with the bearer key, and its result |
| WooApi.SerenAIApi.SendEvent | packages/woocommerce-plugin/includes/class-serenai-api.php:120-152 | unregistered gives `not_registered` with no request; otherwise the event request and its result; the key never changes |
| WooApi.ShopIdsDistinct | packages/woocommerce-plugin/includes/class-serenai-api.php:26-28 | sites with different hashes get different shop ids |
| WooApi.ZeroKeyIsNotRegistered | packages/woocommerce-plugin/includes/class-serenai-api.php:35-37 | a returned key of `'0'` or `0` is not stored, because `empty()` treats it as missing |
| WooHooks.MapOrderStatusToFinancial | packages/woocommerce-plugin/includes/class-serenai-hooks.php:118-130 | paid exactly for completed; failed exactly for failed, cancelled and refunded; pending for every other status, listed or not |
| WooHooks.CheckoutData | packages/woocommerce-plugin/includes/class-serenai-hooks.php:43-48 | cart total and item count, both 0 without a cart |
| WooHooks.OrderCreatedData | packages/woocommerce-plugin/includes/class-serenai-hooks.php:57-67 | the five order fields, with the status mapped through the table |
| WooHooks.EventsFor | packages/woocommerce-plugin/includes/class-serenai-hooks.php:43-110 | at most one event per action; a status change is reported exactly for completed or processing, as paid with its transition; a failed order is reported exactly when an order is found, the given object first |
| WooHooks.ProcessingReportedTwoWays | packages/woocommerce-plugin/includes/class-serenai-hooks.php:77-87 | `processing` maps to pending in the table, yet a change into it is reported as paid |
| WooHooks.FailedOrderPrefersGivenObject | packages/woocommerce-plugin/includes/class-serenai-hooks.php:95-98 | a failed order passed in is used instead of a lookup |
| WooHooks.SerenAIHooks.constructor | packages/woocommerce-plugin/includes/class-serenai-hooks.php:14-21 | the handlers are attached exactly when the client is registered |
| WooHooks.SerenAIHooks.OnCheckoutStarted | packages/woocommerce-plugin/includes/class-serenai-hooks.php:43-48 | sends the checkout event and issues its event request |
| WooHooks.SerenAIHooks.OnOrderCreated | packages/woocommerce-plugin/includes/class-serenai-hooks.php:57-67 | sends the order-created event and issues its event request |
| WooHooks.SerenAIHooks.OnOrderStatusChanged | packages/woocommerce-plugin/includes/class-serenai-hooks.php:77-87 | sends and requests only for a change into completed or processing |
| WooHooks.SerenAIHooks.OnOrderFailed | packages/woocommerce-plugin/includes/class-serenai-hooks.php:95-110 | sends the failed event for the given or looked-up order, and nothing when neither exists |
| WooHooks.SerenAIHooks.Dispatch | packages/woocommerce-plugin/includes/class-serenai-hooks.php:26-38 | unattached hooks send nothing; attached hooks send exactly the action's events and issue their requests |
| WooAdmin.SubmittedAlerts | packages/woocommerce-plugin/includes/class-serenai-admin.php:96 | alerts are on exactly when the checkbox field is posted |
| WooAdmin.SavedOptions | packages/woocommerce-plugin/includes/class-serenai-admin.php:101-103 | the three options take the sanitised values, and every other option is unchanged |
| WooAdmin.ResultNotice | packages/woocommerce-plugin/includes/class-serenai-admin.php:112-118 | an error result is an `api_error` notice carrying its message; any other result is `settings_saved` |
| WooAdmin.BackendReplyReportedAsSaved | packages/woocommerce-plugin/includes/class-serenai-admin.php:112-118 | a delivered reply is reported as saved even when it carries no key |
| WooAdmin.SerenAIAdmin.HandleSettingsSubmission | packages/woocommerce-plugin/includes/class-serenai-admin.php:93-120 | nothing happens without the submit field or with a bad nonce; an invalid email queues one notice and changes nothing; otherwise the options are saved, exactly one of update (registered) or register (unregistered) is sent, and its result is reported |

## Left out

- Cryptography, base64, JSON, UTF-8, `md5(get_site_url())`, `parseFloat` and the WordPress sanitisers are uninterpreted parameters. Their own correctness is not part of this model.
- Floating point: the WooCommerce `(int)($order->get_total() * 100)` is taken as a given integer of cents. The Shopify `order_total` is a real number.
- `toLowerCase` and the case-insensitive scheme match cover ASCII letters only.
- `String.prototype.trim` removes a fixed set of common whitespace characters. It does not cover the whole Unicode space-separator class.
- The network, the clock and Express/Shopify SDK wiring are out of scope:
  - the current time is a parameter;
  - each collaborator's outcome is a parameter;
  - `shopifyApp`, `Router` and `next(error)` appear only as the replies they lead to.
- `WebhookProvisioning.WebhookRegistrar.RegisterWebhooks`: the four subscriptions are issued one after another in the model. `Promise.all` starts them concurrently, and reports whichever rejection settles first. The model says only that the error is one of the rejections.
- The request bodies and URLs of `registerMerchant`, `updateMerchantSettings` and `getMerchantSettings` (including `encodeURIComponent`) are out of scope. `forwardWebhook` is modelled by the URL and event of its POST and by `requestBackend`'s outcome; the headers are `BuildHeaders`, not tied to the request. `resolveFetch` is taken to find a fetch implementation, and the fetch outcome (a response or a rejection) is a parameter. The error text is modelled as status plus text, not as the formatted message.
- `fetchShopDetails` (`packages/shopify-app/src/services/shop.ts`) is a collaborator whose result is a parameter. Its GraphQL request is not part of this model.
- `LATEST_API_VERSION` is a parameter of `SubscriptionRequestFor`.
- `SettingsRoutes.HandleSettingsUpdate`: the cast request body is modelled with string-or-absent fields. A non-string `shopId` or `email` that is truthy is out of scope.
- WooCommerce rendering, menus and `register_settings`, plugin bootstrap, activation, uninstall, translations and `error_log` are out of scope. Nonce checking is a boolean input; a rejected nonce ends the request.
- WordPress action registration is modelled by the `attached` flag and `Dispatch`. Priorities and argument counts are not modelled.

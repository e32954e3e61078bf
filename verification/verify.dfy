/**
 * Webhook authenticity: the HMAC check and the middleware that guards the
 * webhook route. HMAC-SHA256 and base64 are given as functions.
 * Source: packages/shopify-app/src/middleware/verify.ts.
 */
module Verify {
  import opened JsValues

  /** The primitives the check relies on, left uninterpreted. */
  datatype Crypto = Crypto(
    hmacSha256: (string, string) -> seq<byte>,   // (secret, UTF-8 payload) to digest bytes
    base64Encode: seq<byte> -> string,
    base64Decode: string -> seq<byte>)           // `Buffer.from(s, 'base64')`

  /** What the round trip between the two base64 functions is known to satisfy. */
  ghost predicate Base64RoundTrips(c: Crypto) {
    forall bytes :: c.base64Decode(c.base64Encode(bytes)) == bytes
  }

  /** The bitwise OR of the XOR of each byte pair, as a constant-time comparison accumulates it. */
  function DiffBits(a: seq<byte>, b: seq<byte>): byte
    requires |a| == |b|
  {
    if a == [] then 0 else (a[0] ^ b[0]) | DiffBits(a[1..], b[1..])
  }

  /**
   * `crypto.timingSafeEqual`: defined only on buffers of equal length (it
   * throws otherwise), true when no bit differs.
   */
  function TimingSafeEqual(a: seq<byte>, b: seq<byte>): bool
    requires |a| == |b|
  {
    DiffBits(a, b) == 0
  }

  /** The constant-time comparison is byte-sequence equality. */
  lemma {:induction false} TimingSafeEqualIsEquality(a: seq<byte>, b: seq<byte>)
    requires |a| == |b|
    ensures TimingSafeEqual(a, b) <==> a == b
  {
    if a != [] {
      TimingSafeEqualIsEquality(a[1..], b[1..]);
      var x, y := a[0] ^ b[0], DiffBits(a[1..], b[1..]);
      assert x | y == 0 <==> x == 0 && y == 0;
      assert x == 0 <==> a[0] == b[0];
      assert a == b <==> a[0] == b[0] && a[1..] == b[1..] by {
        if a[0] == b[0] && a[1..] == b[1..] { assert a == [a[0]] + a[1..]; assert b == [b[0]] + b[1..]; }
      }
    }
  }

  /** The digest of the payload under the secret, base64-encoded as Shopify sends it. */
  function ExpectedSignature(payload: string, secret: string, c: Crypto): string {
    c.base64Encode(c.hmacSha256(secret, payload))
  }

  /**
   * `verifyShopifyHmac`: false on an empty payload, header or secret;
   * false when the decoded lengths differ; otherwise the constant-time
   * comparison of the decoded bytes.
   */
  function VerifyShopifyHmac(payload: string, hmacHeader: Option<string>, secret: string, c: Crypto): (ok: bool)
    ensures ok <==>
      payload != "" && hmacHeader.Some? && hmacHeader.value != "" && secret != ""
      && c.base64Decode(hmacHeader.value) == c.base64Decode(ExpectedSignature(payload, secret, c))
  {
    if payload == "" || hmacHeader.None? || hmacHeader.value == "" || secret == "" then false
    else
      var received := c.base64Decode(hmacHeader.value);
      var computed := c.base64Decode(ExpectedSignature(payload, secret, c));
      if |received| != |computed| then false
      else
        TimingSafeEqualIsEquality(received, computed);
        TimingSafeEqual(received, computed)
  }

  /** A header carrying the genuine signature of a non-empty payload is accepted. */
  lemma GenuineSignatureAccepted(payload: string, secret: string, c: Crypto)
    requires payload != "" && secret != ""
    requires ExpectedSignature(payload, secret, c) != ""
    ensures VerifyShopifyHmac(payload, Some(ExpectedSignature(payload, secret, c)), secret, c)
  {
  }

  /**
   * With a base64 decoder that inverts the encoder, a header is accepted
   * exactly when it decodes to the digest itself.
   */
  lemma AcceptedIffDecodesToDigest(payload: string, header: string, secret: string, c: Crypto)
    requires Base64RoundTrips(c)
    requires payload != "" && header != "" && secret != ""
    ensures VerifyShopifyHmac(payload, Some(header), secret, c) <==> c.base64Decode(header) == c.hmacSha256(secret, payload)
  {
    assert c.base64Decode(ExpectedSignature(payload, secret, c)) == c.hmacSha256(secret, payload);
  }

  /** A header whose decoded length differs from the digest's (such as `invalid`) is rejected. */
  lemma LengthMismatchRejected(payload: string, header: string, secret: string, c: Crypto)
    requires Base64RoundTrips(c)
    requires |c.base64Decode(header)| != |c.hmacSha256(secret, payload)|
    ensures !VerifyShopifyHmac(payload, Some(header), secret, c)
  {
    assert c.base64Decode(ExpectedSignature(payload, secret, c)) == c.hmacSha256(secret, payload);
  }

  /** `extractRawBody`: the text the signature is checked against. */
  function ExtractRawBody(body: Value, utf8Decode: seq<byte> -> string, stringify: Value -> string): (r: string)
    ensures !Truthy(body) ==> r == ""
    ensures body.Buf? ==> r == utf8Decode(body.bytes)
    ensures body.Str? ==> r == body.s
    ensures Truthy(body) && !body.Buf? && !body.Str? ==> r == stringify(body)
  {
    if !Truthy(body) then ""
    else match body
      case Buf(bytes) => utf8Decode(bytes)
      case Str(s) => s
      case _ => stringify(body)
  }

  /** What the middleware does with a request. */
  datatype Verdict =
    | SecretMissing500   // `{ error: 'WEBHOOK_SECRET is not configured' }`, `next` not called
    | Unauthorized401    // `{ error: 'Invalid webhook signature' }`, `next` not called
    | Continue           // `next()` called once

  /**
   * `verifyWebhookSignature(secret)` applied to one request: the secret
   * defaults to `''` when the environment has none.
   */
  function SignatureVerdict(secret: Option<string>, hmacHeader: Option<string>, body: Value,
                            c: Crypto, utf8Decode: seq<byte> -> string, stringify: Value -> string): (v: Verdict)
    ensures v == SecretMissing500 <==> secret.None? || secret.value == ""
    ensures v == Continue <==>
      secret.Some? && secret.value != ""
      && VerifyShopifyHmac(ExtractRawBody(body, utf8Decode, stringify), hmacHeader, secret.value, c)
  {
    var s := secret.GetOr("");
    if s == "" then SecretMissing500
    else if !VerifyShopifyHmac(ExtractRawBody(body, utf8Decode, stringify), hmacHeader, s, c) then Unauthorized401
    else Continue
  }

  /** A falsy request body is never authentic: its raw text is empty. */
  lemma FalsyBodyUnauthorized(secret: string, hmacHeader: Option<string>, body: Value,
                              c: Crypto, utf8Decode: seq<byte> -> string, stringify: Value -> string)
    requires secret != "" && !Truthy(body)
    ensures SignatureVerdict(Some(secret), hmacHeader, body, c, utf8Decode, stringify) == Unauthorized401
  {
  }
}

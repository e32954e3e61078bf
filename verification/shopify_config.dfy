/**
 * The pure parts of the Shopify adapter's configuration: host sanitising,
 * scope parsing and the credential check.
 * Source: packages/shopify-app/src/shopify.ts.
 */
module ShopifyConfig {
  import opened JsValues

  /** `s` begins with `prefix`, ignoring ASCII case (`prefix` is lower-case). */
  predicate StartsWithIgnoringCase(s: string, prefix: string) {
    |prefix| <= |s| && Lower(s[..|prefix|]) == prefix
  }

  /**
   * `sanitizeHost`: `'localhost'` for a missing or empty host; otherwise one
   * leading `http://` or `https://` (any case) is removed.
   */
  function SanitizeHost(host: Option<string>): (r: string)
    ensures host.None? || host.value == "" ==> r == "localhost"
    ensures host.Some? && host.value != "" ==>
      (StartsWithIgnoringCase(host.value, "https://") ==> r == host.value[8..])
      && (StartsWithIgnoringCase(host.value, "http://") ==> r == host.value[7..])
      && (!StartsWithIgnoringCase(host.value, "https://") && !StartsWithIgnoringCase(host.value, "http://") ==> r == host.value)
  {
    if host.None? || host.value == "" then "localhost"
    else
      var h := host.value;
      if StartsWithIgnoringCase(h, "https://") then
        assert !StartsWithIgnoringCase(h, "http://") by {
          assert Lower(h[..7])[4] == Lower(h[..8])[4];
        }
        h[8..]
      else if StartsWithIgnoringCase(h, "http://") then h[7..]
      else h
  }

  /** Only the first scheme is removed, and only at the start. */
  lemma SchemeRemovedOnce()
    ensures SanitizeHost(Some("HTTP://http://shop.test")) == "http://shop.test"
    ensures SanitizeHost(Some("shop.test/https://x")) == "shop.test/https://x"
  {
    var a := "HTTP://http://shop.test";
    assert Lower(a[..7]) == "http://";
    assert Lower(a[..8]) != "https://" by { assert Lower(a[..8])[4] == ':'; }
    assert a[7..] == "http://shop.test";
    var b := "shop.test/https://x";
    assert Lower(b[..8])[0] == 's';
    assert Lower(b[..7])[0] == 's';
  }

  // ---------------------------------------------------------------------
  // Scopes

  /** Joins parts with a separator: the inverse of `Split`. */
  function Join(parts: seq<string>, sep: char): string
    requires |parts| >= 1
  {
    if |parts| == 1 then parts[0] else parts[0] + [sep] + Join(parts[1..], sep)
  }

  /** `String.prototype.split` on a one-character separator: `''` gives `['']`. */
  function Split(s: string, sep: char): (parts: seq<string>)
    ensures |parts| >= 1
    ensures forall i :: 0 <= i < |parts| ==> sep !in parts[i]
    ensures Join(parts, sep) == s
    decreases |s|
  {
    if |s| == 0 then [""]
    else
      var rest := Split(s[1..], sep);
      var parts := if s[0] == sep then [""] + rest else [[s[0]] + rest[0]] + rest[1..];
      assert parts[1..] == (if s[0] == sep then rest else rest[1..]);
      assert s == [s[0]] + s[1..];
      parts
  }

  /** A part without the separator is split into itself. */
  lemma {:induction false} SplitWithoutSeparator(p: string, sep: char)
    requires sep !in p
    ensures Split(p, sep) == [p]
    decreases |p|
  {
    if |p| > 0 {
      SplitWithoutSeparator(p[1..], sep);
      assert [p[0]] + p[1..] == p;
    }
  }

  /** Splitting at the first separator: the prefix becomes the first part. */
  lemma {:induction false} SplitAtFirstSeparator(p: string, sep: char, t: string)
    requires sep !in p
    ensures Split(p + [sep] + t, sep) == [p] + Split(t, sep)
    decreases |p|
  {
    var s := p + [sep] + t;
    if |p| == 0 {
      assert s[1..] == t;
    } else {
      assert s[1..] == p[1..] + [sep] + t;
      SplitAtFirstSeparator(p[1..], sep, t);
      assert [p[0]] + p[1..] == p;
    }
  }

  /** Splitting a join of separator-free parts gives the parts back. */
  lemma {:induction false} SplitJoinRoundTrip(parts: seq<string>, sep: char)
    requires |parts| >= 1
    requires forall i :: 0 <= i < |parts| ==> sep !in parts[i]
    ensures Split(Join(parts, sep), sep) == parts
    decreases |parts|
  {
    if |parts| == 1 {
      SplitWithoutSeparator(parts[0], sep);
    } else {
      SplitJoinRoundTrip(parts[1..], sep);
      SplitAtFirstSeparator(parts[0], sep, Join(parts[1..], sep));
      assert [parts[0]] + parts[1..] == parts;
    }
  }

  /** The whitespace `String.prototype.trim` removes, restricted to the common code points. */
  predicate IsSpace(c: char) {
    c == ' ' || c == '\t' || c == '\n' || c == '\r' || c == '\U{000B}' || c == '\U{000C}'
    || c == '\U{00A0}' || c == '\U{2028}' || c == '\U{2029}' || c == '\U{FEFF}'
  }

  function TrimStart(s: string): (r: string)
    ensures |r| <= |s| && r == s[|s| - |r|..]
    ensures forall i :: 0 <= i < |s| - |r| ==> IsSpace(s[i])
    ensures r == "" || !IsSpace(r[0])
  {
    if s != "" && IsSpace(s[0]) then TrimStart(s[1..]) else s
  }

  function TrimEnd(s: string): (r: string)
    ensures |r| <= |s| && r == s[..|r|]
    ensures forall i :: |r| <= i < |s| ==> IsSpace(s[i])
    ensures r == "" || !IsSpace(r[|r| - 1])
  {
    if s != "" && IsSpace(s[|s| - 1]) then TrimEnd(s[..|s| - 1]) else s
  }

  /** `r` is `s` with some whitespace removed from each end, and nothing else. */
  predicate StrippedFrom(s: string, r: string) {
    exists i :: (0 <= i <= |s| - |r| && s[i..][..|r|] == r
      && (forall k :: 0 <= k < i ==> IsSpace(s[k]))
      && (forall k :: i + |r| <= k < |s| ==> IsSpace(s[k])))
  }

  /** `String.prototype.trim`: the longest middle part that neither starts nor ends with whitespace. */
  function Trim(s: string): (r: string)
    ensures |r| <= |s|
    ensures Unpadded(r)
  {
    var start := TrimStart(s);
    var r := TrimEnd(start);
    TrimmedEnds(s, start, r);
    r
  }

  /** What `Trim` removes is whitespace at the two ends, and nothing else. */
  lemma TrimStrips(s: string)
    ensures StrippedFrom(s, Trim(s))
  {
    TrimmedEnds(s, TrimStart(s), Trim(s));
  }

  /** Trimming the start and then the end strips `s` and leaves it unpadded. */
  lemma TrimmedEnds(s: string, start: string, r: string)
    requires start == TrimStart(s) && r == TrimEnd(start)
    ensures StrippedFrom(s, r) && Unpadded(r)
  {
    var i := |s| - |start|;
    assert s[i..][..|r|] == r;
    forall k | i + |r| <= k < |s|
      ensures IsSpace(s[k])
    {
      assert s[k] == start[k - i];
    }
    if r != "" {
      assert r[0] == start[0];
    }
  }

  /** Neither starts nor ends with whitespace. */
  predicate Unpadded(s: string) {
    s == "" || (!IsSpace(s[0]) && !IsSpace(s[|s| - 1]))
  }

  /** A string that neither starts nor ends with whitespace is its own trim. */
  lemma TrimKeepsUnpadded(s: string)
    requires Unpadded(s)
    ensures Trim(s) == s
  {
  }

  /** `.map((scope) => scope.trim())` */
  function TrimAll(parts: seq<string>): (r: seq<string>)
    ensures |r| == |parts|
    ensures forall i :: 0 <= i < |r| ==> r[i] == Trim(parts[i]) && Unpadded(r[i])
  {
    if parts == [] then [] else [Trim(parts[0])] + TrimAll(parts[1..])
  }

  /** Trimming leaves a list of unpadded strings as it is. */
  lemma {:induction false} TrimAllKeepsUnpadded(parts: seq<string>)
    requires forall i :: 0 <= i < |parts| ==> Unpadded(parts[i])
    ensures TrimAll(parts) == parts
  {
    if parts != [] {
      TrimKeepsUnpadded(parts[0]);
      TrimAllKeepsUnpadded(parts[1..]);
      assert [parts[0]] + parts[1..] == parts;
    }
  }

  const DefaultScopes := "read_orders,read_checkouts"

  /** `(SCOPES ?? 'read_orders,read_checkouts').split(',').map(trim)` */
  function ParseScopes(scopes: Option<string>): (r: seq<string>)
    ensures |r| == |Split(scopes.GetOr(DefaultScopes), ',')|
    ensures forall i :: 0 <= i < |r| ==> Unpadded(r[i])
    ensures forall i :: 0 <= i < |r| ==> r[i] == Trim(Split(scopes.GetOr(DefaultScopes), ',')[i])
  {
    TrimAll(Split(scopes.GetOr(DefaultScopes), ','))
  }

  /** Scopes written without stray commas or padding come back exactly as listed. */
  lemma ParseScopesOfJoin(scopes: seq<string>)
    requires |scopes| >= 1
    requires forall i :: 0 <= i < |scopes| ==> ',' !in scopes[i]
    requires forall i :: 0 <= i < |scopes| ==> Unpadded(scopes[i])
    ensures ParseScopes(Some(Join(scopes, ','))) == scopes
  {
    SplitJoinRoundTrip(scopes, ',');
    TrimAllKeepsUnpadded(scopes);
  }

  /** Without `SCOPES`, the app asks for exactly the two read scopes. */
  lemma DefaultScopesParsed()
    ensures ParseScopes(None) == ["read_orders", "read_checkouts"]
  {
    var parts := ["read_orders", "read_checkouts"];
    assert parts[1..] == ["read_checkouts"];
    assert Join(parts, ',') == DefaultScopes;
    ParseScopesOfJoin(parts);
  }

  /** The process environment `configureShopify` reads. */
  datatype ShopifyEnv = ShopifyEnv(apiKey: Option<string>, apiSecret: Option<string>, host: Option<string>, scopes: Option<string>)

  /** The settings handed to the Shopify SDK. */
  datatype ApiConfig = ApiConfig(
    apiKey: string, apiSecretKey: string, hostName: string, scopes: seq<string>,
    authPath: string, callbackPath: string, webhooksPath: string)

  const MissingCredentials := "Missing Shopify API credentials"

  /** `configureShopify` up to the SDK call: a missing key or secret is an error. */
  function ConfigureShopify(env: ShopifyEnv): (r: Result<ApiConfig, string>)
    ensures r.Err? <==> env.apiKey.None? || env.apiKey.value == "" || env.apiSecret.None? || env.apiSecret.value == ""
    ensures r.Err? ==> r.error == MissingCredentials
    ensures r.Ok? ==> (r.value.apiKey == env.apiKey.value && r.value.apiSecretKey == env.apiSecret.value
      && r.value.hostName == SanitizeHost(env.host) && r.value.scopes == ParseScopes(env.scopes))
    ensures r.Ok? ==>
      r.value.authPath == "/auth" && r.value.callbackPath == "/auth/callback" && r.value.webhooksPath == "/api/webhooks/shopify"
  {
    if env.apiKey.None? || env.apiKey.value == "" || env.apiSecret.None? || env.apiSecret.value == "" then Err(MissingCredentials)
    else Ok(ApiConfig(env.apiKey.value, env.apiSecret.value, SanitizeHost(env.host), ParseScopes(env.scopes),
                      "/auth", "/auth/callback", "/api/webhooks/shopify"))
  }
}

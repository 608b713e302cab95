/**
 * The options handed to the rate limiter: the per-environment window and
 * limit, the fixed denial body and the denial handler, the normalisation of
 * the client address and the trusted-address skip rule.
 */
module RateLimit {
  import opened Wrappers
  import opened Strings

  /** The IPv4-in-IPv6 marker that normalisation deletes. */
  const MappedMarker: string := "::ffff:"

  /** Addresses that bypass rate limiting altogether. */
  const TrustedIPs: seq<string> := ["127.0.0.1", "::1", "::ffff:127.0.0.1", "localhost"]

  const TooManyRequestsText: string :=
    "You have exceeded the allowed number of requests. Please try again later."

  /** The window and limit chosen for a deployment environment. */
  datatype RateLimitOptions = RateLimitOptions(
    windowMs: nat,
    limit: nat,
    standardHeaders: string,
    legacyHeaders: bool)

  /** The JSON body sent when a client is denied. */
  datatype DenialBody = DenialBody(statusCode: int, error: string, message: string)

  const TooManyRequestsBody: DenialBody :=
    DenialBody(429, "Too Many Requests", TooManyRequestsText)

  /**
   * Everything the limiter is configured with. `statusCode` is the limiter's
   * own setting, not chosen here, so it stays a parameter.
   */
  datatype LimiterOptions = LimiterOptions(
    windowMs: nat,
    limit: nat,
    standardHeaders: string,
    legacyHeaders: bool,
    statusCode: int,
    message: DenialBody)

  datatype HttpResponse = HttpResponse(status: int, body: DenialBody)

  /** Five-minute window everywhere; 100 requests in production, 500 elsewhere. */
  function GetRateLimitOptions(env: string): (o: RateLimitOptions)
    ensures o.windowMs == 300000
    ensures env == "production" ==> o.limit == 100
    ensures env != "production" ==> o.limit == 500
    ensures o.standardHeaders == "draft-7" && !o.legacyHeaders
  {
    var isProd := env == "production";
    RateLimitOptions(
      if isProd then 5 * 60 * 1000 else 5 * 60 * 1000,
      if isProd then 100 else 500,
      "draft-7",
      false)
  }

  /** The options object built by `applyRateLimit`. */
  function ApplyRateLimit(env: string, statusCode: int): (o: LimiterOptions)
    ensures o.windowMs == GetRateLimitOptions(env).windowMs
    ensures o.limit == GetRateLimitOptions(env).limit
    ensures o.standardHeaders == "draft-7" && !o.legacyHeaders
    ensures o.statusCode == statusCode && o.message == TooManyRequestsBody
  {
    var options := GetRateLimitOptions(env);
    LimiterOptions(options.windowMs, options.limit, options.standardHeaders,
                   options.legacyHeaders, statusCode, TooManyRequestsBody)
  }

  /** The denial handler: the configured status with the configured body. */
  function Handler(options: LimiterOptions): (r: HttpResponse)
    ensures r.status == options.statusCode && r.body == options.message
  {
    HttpResponse(options.statusCode, options.message)
  }

  /** Production admits strictly fewer requests per window than any other environment. */
  lemma ProductionIsStricter(env: string)
    requires env != "production"
    ensures GetRateLimitOptions("production").windowMs == GetRateLimitOptions(env).windowMs
    ensures GetRateLimitOptions("production").limit < GetRateLimitOptions(env).limit
  {
  }

  /** A denied client always receives the fixed 429 body, whatever the environment. */
  lemma DenialIsFixed(env: string, statusCode: int)
    ensures Handler(ApplyRateLimit(env, statusCode)) == HttpResponse(statusCode, TooManyRequestsBody)
    ensures Handler(ApplyRateLimit(env, statusCode)).body.statusCode == 429
    ensures Handler(ApplyRateLimit(env, statusCode)).body.error == "Too Many Requests"
  {
  }

  /** `req.ip ?? ''`: a missing address becomes the empty string. */
  function RawIP(ip: Option<string>): (raw: string)
    ensures ip.Some? ==> raw == ip.value
    ensures ip.None? ==> raw == ""
  {
    ip.GetOr("")
  }

  /** `rawIP.replace('::ffff:', '')`: deletes the first marker, wherever it stands. */
  function NormalizeIP(raw: string): (r: string)
    ensures Absent(raw, MappedMarker) <==> r == raw
    ensures !Absent(raw, MappedMarker) ==> |r| == |raw| - |MappedMarker|
  {
    ReplaceFirst(raw, MappedMarker, "")
  }

  /**
   * The key under which a request is counted: `''` for a missing address, and
   * the address itself exactly when it holds no marker.
   */
  function KeyOf(ip: Option<string>): (r: string)
    ensures ip.None? ==> r == ""
    ensures ip.Some? ==> (r == ip.value <==> Absent(ip.value, MappedMarker))
  {
    NormalizeIP(RawIP(ip))
  }

  /**
   * The skip rule: the normalised or the raw address is trusted. The raw test
   * adds nothing: a request is skipped exactly when its key is trusted, so a
   * request without an address is never skipped.
   */
  function Skip(ip: Option<string>): (r: bool)
    ensures r <==> KeyOf(ip) in TrustedIPs
    ensures ip.None? ==> !r
  {
    var raw := RawIP(ip);
    TrustedClosedUnderNormalize(raw);
    NormalizeIP(raw) in TrustedIPs || raw in TrustedIPs
  }

  /**
   * Given the first occurrence `i` of the marker, normalisation deletes exactly
   * those seven characters and keeps what stands before and after.
   */
  lemma NormalizeAtFirst(raw: string, i: nat)
    requires OccursAt(raw, MappedMarker, i)
    requires forall j: nat :: j < i ==> !OccursAt(raw, MappedMarker, j)
    ensures NormalizeIP(raw) == raw[..i] + raw[i + |MappedMarker|..]
    ensures |NormalizeIP(raw)| == |raw| - |MappedMarker|
  {
  }

  /** The mapped form of an address and the address itself share one key. */
  lemma MappedFormCollapses(v: string)
    requires Absent(v, MappedMarker)
    ensures NormalizeIP(MappedMarker + v) == v
    ensures NormalizeIP(v) == v
  {
  }

  /** Dotted-decimal IPv4 text: digits and dots only. */
  predicate IPv4Text(v: string)
  {
    forall k :: 0 <= k < |v| ==> v[k] in "0123456789."
  }

  /**
   * An IPv4 address and its IPv4-mapped IPv6 form (`::ffff:203.0.113.5` and
   * `203.0.113.5`, say) are counted under the same key, the IPv4 text.
   */
  lemma MappedKeysAgree(v: string)
    requires IPv4Text(v)
    ensures KeyOf(Some(MappedMarker + v)) == v
    ensures KeyOf(Some(v)) == v
  {
    assert ':' !in v;
    AbsentWithoutChar(v, MappedMarker, ':');
    MappedFormCollapses(v);
  }

  /** The marker is deleted even when it is not a prefix: `v + "::ffff:"` normalises to `v`. */
  lemma MarkerDeletedAnywhere(v: string)
    requires IPv4Text(v)
    ensures NormalizeIP(v + MappedMarker) == v
  {
    var s := v + MappedMarker;
    forall j: nat | j < |v|
      ensures !OccursAt(s, MappedMarker, j)
    {
      assert s[j] == v[j] && v[j] in "0123456789.";
      FirstCharMismatch(s, MappedMarker, j);
    }
    assert s[|v|..|v| + |MappedMarker|] == MappedMarker;
    NormalizeAtFirst(s, |v|);
    assert s[..|v|] == v;
  }

  /** The mapped loopback form normalises to the IPv4 loopback. */
  lemma MappedLoopbackNormalizes()
    ensures NormalizeIP("::ffff:127.0.0.1") == "127.0.0.1"
  {
  }

  /** Every trusted address normalises to a trusted address. */
  lemma TrustedClosedUnderNormalize(raw: string)
    ensures raw in TrustedIPs ==> NormalizeIP(raw) in TrustedIPs
  {
    if raw == "::ffff:127.0.0.1" {
      MappedLoopbackNormalizes();
    } else if raw == "127.0.0.1" || raw == "localhost" {
      AbsentWithoutChar(raw, MappedMarker, ':');
    }
  }

  /** A request without an address is never skipped. */
  lemma MissingIPNotSkipped()
    ensures !Skip(None)
    ensures KeyOf(None) == ""
  {
  }

  /**
   * For an address holding no colon, the skip rule is exactly membership in
   * {127.0.0.1, localhost}.
   */
  lemma SkipPlainAddress(raw: string)
    requires ':' !in raw
    ensures Skip(Some(raw)) <==> raw == "127.0.0.1" || raw == "localhost"
  {
    AbsentWithoutChar(raw, MappedMarker, ':');
  }

  /** The IPv4 loopback and `localhost` are skipped in plain and in mapped form. */
  lemma MappedLoopbackSkipped(v: string)
    requires v == "127.0.0.1" || v == "localhost"
    ensures Skip(Some(v)) && Skip(Some(MappedMarker + v))
  {
    AbsentWithoutChar(v, MappedMarker, ':');
    MappedFormCollapses(v);
  }

  /** The IPv6 loopback is skipped. */
  lemma Ipv6LoopbackSkipped()
    ensures Skip(Some("::1"))
  {
  }
}

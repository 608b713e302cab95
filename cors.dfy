/**
 * The CORS origin decision and the options factory, with the two
 * configurations the service exports (general API and auth endpoints).
 */
module Cors {
  import opened Wrappers

  /** The one callback invocation of a decision: `callback(err, allow)`. */
  datatype CorsCallback = CorsCallback(err: Option<string>, allow: Option<bool>)

  /** The values an options object can hold. */
  datatype OptionValue =
    | Delegate(allowedOrigins: seq<string>, errorMessage: string)
    | Flag(b: bool)
    | Number(n: int)
    | Text(s: string)
    | Texts(items: seq<string>)

  type CorsOptions = map<string, OptionValue>

  const GeneralErrorMessage: string := "Not allowed by CORS"
  const AuthErrorMessage: string := "Not allowed by CORS for auth endpoints"
  const GeneralMethods: seq<string> := ["GET", "POST", "PUT", "PATCH", "DELETE", "OPTIONS"]
  const AuthMethods: seq<string> := ["POST", "GET"]

  /**
   * The origin delegate: in development every origin is allowed; elsewhere a
   * missing or empty origin, or one equal to an allow-list entry, is allowed,
   * and any other origin is refused with `errorMessage` and no allow flag.
   */
  function OriginDecision(env: string, allowedOrigins: seq<string>, errorMessage: string,
                          requestOrigin: Option<string>): (c: CorsCallback)
    ensures c.err.None? <==> c.allow == Some(true)
    ensures c.err.Some? ==> c.err == Some(errorMessage) && c.allow.None?
  {
    if env == "development" then CorsCallback(None, Some(true))
    else if requestOrigin.None? || requestOrigin.value == "" || requestOrigin.value in allowedOrigins then
      CorsCallback(None, Some(true))
    else
      CorsCallback(Some(errorMessage), None)
  }

  /** An origin is allowed exactly when some rule admits it; the comparison is exact. */
  lemma OriginAllowedIff(env: string, allowedOrigins: seq<string>, errorMessage: string, origin: Option<string>)
    ensures OriginDecision(env, allowedOrigins, errorMessage, origin).allow == Some(true)
            <==> env == "development" || origin.None? || origin.value == ""
                 || exists i :: 0 <= i < |allowedOrigins| && allowedOrigins[i] == origin.value
  {
  }

  /** Development admits every origin, listed or not. */
  lemma DevelopmentAllowsAll(allowedOrigins: seq<string>, errorMessage: string, origin: Option<string>)
    ensures OriginDecision("development", allowedOrigins, errorMessage, origin) == CorsCallback(None, Some(true))
  {
  }

  /** Outside development, an unlisted origin is refused with the configured message. */
  lemma UnlistedOriginRefused(env: string, allowedOrigins: seq<string>, errorMessage: string, origin: string)
    requires env != "development" && origin != "" && origin !in allowedOrigins
    ensures OriginDecision(env, allowedOrigins, errorMessage, Some(origin)) == CorsCallback(Some(errorMessage), None)
  {
  }

  /** No normalisation: a trailing slash makes a listed origin unlisted. */
  lemma NoOriginNormalization()
    ensures OriginDecision("production", ["https://app.example.com"], GeneralErrorMessage,
                           Some("https://app.example.com/")).err == Some(GeneralErrorMessage)
  {
  }

  /**
   * `createCorsOptions`: `origins` and `errorMessage` become the delegate,
   * `credentials` is true, and the remaining options are spread after both,
   * so they override either.
   */
  function CreateCorsOptions(options: CorsOptions): (r: CorsOptions)
    requires "origins" in options && options["origins"].Texts?
    requires "errorMessage" in options && options["errorMessage"].Text?
    ensures r.Keys == options.Keys - {"origins", "errorMessage"} + {"origin", "credentials"}
    ensures forall k :: k in options && k !in {"origins", "errorMessage"} ==> r[k] == options[k]
    ensures "credentials" !in options ==> r["credentials"] == Flag(true)
    ensures "origin" !in options
            ==> r["origin"] == Delegate(options["origins"].items, options["errorMessage"].s)
    ensures "origins" !in r && "errorMessage" !in r
  {
    var origins := options["origins"].items;
    var errorMessage := options["errorMessage"].s;
    var restOptions := options - {"origins", "errorMessage"};
    map["origin" := Delegate(origins, errorMessage), "credentials" := Flag(true)] + restOptions
  }

  /** The general API configuration. */
  function GeneralCorsOptions(whitelist: seq<string>): (r: CorsOptions)
    ensures r.Keys == {"origin", "credentials", "methods", "allowedHeaders", "maxAge"}
    ensures r["origin"] == Delegate(whitelist, GeneralErrorMessage)
    ensures r["credentials"] == Flag(true)
    ensures r["methods"] == Texts(GeneralMethods)
    ensures r["maxAge"] == Number(86400)
  {
    CreateCorsOptions(map[
      "origins" := Texts(whitelist),
      "errorMessage" := Text(GeneralErrorMessage),
      "methods" := Texts(GeneralMethods),
      "allowedHeaders" := Texts(["Content-Type", "Authorization", "X-Requested-With"]),
      "maxAge" := Number(86400)])
  }

  /** The configuration for authentication endpoints. */
  function AuthCorsOptions(whitelist: seq<string>): (r: CorsOptions)
    ensures r.Keys == {"origin", "credentials", "methods", "allowedHeaders", "maxAge"}
    ensures r["origin"] == Delegate(whitelist, AuthErrorMessage)
    ensures r["credentials"] == Flag(true)
    ensures r["methods"] == Texts(AuthMethods)
    ensures r["maxAge"] == Number(300)
  {
    CreateCorsOptions(map[
      "origins" := Texts(whitelist),
      "errorMessage" := Text(AuthErrorMessage),
      "methods" := Texts(AuthMethods),
      "allowedHeaders" := Texts(["Content-Type", "Authorization"]),
      "maxAge" := Number(300)])
  }

  /**
   * Both configurations decide origins by the same allow-list; they differ
   * only in the message attached to a refusal.
   */
  lemma ConfigurationsAgreeOnOrigins(env: string, whitelist: seq<string>, origin: Option<string>)
    ensures var g := GeneralCorsOptions(whitelist)["origin"];
            var a := AuthCorsOptions(whitelist)["origin"];
            && OriginDecision(env, g.allowedOrigins, g.errorMessage, origin).allow
               == OriginDecision(env, a.allowedOrigins, a.errorMessage, origin).allow
  {
  }
}

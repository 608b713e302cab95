/**
 * The security-header policy: the content-security-policy directives and the
 * other helmet settings, as a function of the deployment mode and the
 * frontend origins.
 */
module Helmet {
  import opened Wrappers

  datatype Directives = Directives(
    defaultSrc: seq<string>,
    baseUri: seq<string>,
    scriptSrc: seq<string>,
    styleSrc: seq<string>,
    fontSrc: seq<string>,
    connectSrc: seq<string>,
    imgSrc: seq<string>,
    objectSrc: seq<string>,
    mediaSrc: seq<string>,
    frameSrc: seq<string>,
    workerSrc: seq<string>,
    childSrc: seq<string>,
    formAction: seq<string>,
    upgradeInsecureRequests: Option<seq<string>>)  // `None` is `null`

  datatype Hsts = Hsts(maxAge: nat, includeSubDomains: bool, preload: bool)

  datatype HelmetConfig = HelmetConfig(
    directives: Directives,
    crossOriginEmbedderPolicy: bool,
    crossOriginOpenerPolicy: string,
    crossOriginResourcePolicy: string,
    dnsPrefetchAllow: bool,
    frameguardAction: string,
    hsts: Hsts,
    hidePoweredBy: bool,
    ieNoOpen: bool,
    noSniff: bool,
    permittedCrossDomainPolicies: string,
    referrerPolicy: string,
    xssFilter: bool)

  const Self: string := "'self'"
  const UnsafeInline: string := "'unsafe-inline'"
  const UnsafeEval: string := "'unsafe-eval'"
  const GoogleFonts: string := "https://fonts.googleapis.com"
  const GoogleFontFiles: string := "https://fonts.gstatic.com"

  /** One year, in seconds. */
  const OneYear: nat := 365 * 24 * 3600

  /** The mode test: `NODE_ENV` exactly `production`; unset is not production. */
  function IsProduction(nodeEnv: Option<string>): (r: bool)
    ensures r <==> nodeEnv.Some? && nodeEnv.value == "production"
  {
    nodeEnv == Some("production")
  }

  /** The style sources, identical in both modes. */
  function StyleSources(frontendUrls: seq<string>): (r: seq<string>)
    ensures |r| == 4 + |frontendUrls|
    ensures r[..4] == [Self, UnsafeInline, GoogleFonts, GoogleFontFiles] && r[4..] == frontendUrls
  {
    [Self, UnsafeInline, GoogleFonts, GoogleFontFiles] + frontendUrls
  }

  function HelmetConfigFor(isProduction: bool, frontendUrls: seq<string>): (c: HelmetConfig)
    ensures c.directives.scriptSrc
            == (if isProduction then [Self] else [Self, UnsafeInline, UnsafeEval]) + frontendUrls
    ensures c.directives.connectSrc == [Self] + frontendUrls
    ensures c.directives.imgSrc == [Self] + frontendUrls + ["data:", "blob:"]
    ensures c.directives.upgradeInsecureRequests == (if isProduction then Some([]) else None)
    ensures c.crossOriginEmbedderPolicy == isProduction
    ensures c.hsts == Hsts(OneYear, true, true)
    ensures c.directives.objectSrc == ["'none'"]
    ensures c.frameguardAction == "deny"
    ensures c.referrerPolicy == "strict-origin-when-cross-origin"
  {
    var directives := Directives(
      [Self],
      [Self],
      if isProduction then [Self] + frontendUrls else [Self, UnsafeInline, UnsafeEval] + frontendUrls,
      if isProduction then StyleSources(frontendUrls) else StyleSources(frontendUrls),
      [Self, GoogleFontFiles, "data:"],
      [Self] + frontendUrls,
      [Self] + frontendUrls + ["data:", "blob:"],
      ["'none'"],
      [Self],
      [Self],
      [Self, "blob:"],
      [Self, "blob:"],
      [Self],
      if isProduction then Some([]) else None);
    HelmetConfig(
      directives,
      isProduction,
      "same-origin",
      "same-origin",
      false,
      "deny",
      Hsts(31536000, true, true),
      true,
      true,
      true,
      "none",
      "strict-origin-when-cross-origin",
      true)
  }

  /** The configuration the service starts with. */
  function HelmetConfigFromEnv(nodeEnv: Option<string>, frontendUrls: seq<string>): (c: HelmetConfig)
    ensures c.crossOriginEmbedderPolicy <==> nodeEnv == Some("production")
    ensures nodeEnv != Some("production") ==> UnsafeEval in c.directives.scriptSrc
  {
    HelmetConfigFor(IsProduction(nodeEnv), frontendUrls)
  }

  /** An unset mode, `test` and a differently cased `Production` are not production. */
  lemma ProductionOnlyByName()
    ensures !IsProduction(None) && !IsProduction(Some("test")) && !IsProduction(Some("Production"))
  {
  }

  /** Style sources do not depend on the mode. */
  lemma StyleSrcModeIndependent(frontendUrls: seq<string>)
    ensures HelmetConfigFor(true, frontendUrls).directives.styleSrc
            == HelmetConfigFor(false, frontendUrls).directives.styleSrc
  {
  }

  /** Production script sources are a subset of development's, and name `'unsafe-*'` only via the URLs. */
  lemma ProductionScriptsStricter(frontendUrls: seq<string>)
    ensures forall s :: s in HelmetConfigFor(true, frontendUrls).directives.scriptSrc
                       ==> s in HelmetConfigFor(false, frontendUrls).directives.scriptSrc
    ensures UnsafeEval in HelmetConfigFor(true, frontendUrls).directives.scriptSrc <==> UnsafeEval in frontendUrls
    ensures UnsafeInline in HelmetConfigFor(true, frontendUrls).directives.scriptSrc <==> UnsafeInline in frontendUrls
    ensures UnsafeEval in HelmetConfigFor(false, frontendUrls).directives.scriptSrc
  {
  }

  /** Every frontend origin is admitted for scripts, styles, connections and images in both modes. */
  lemma FrontendUrlsAdmitted(isProduction: bool, frontendUrls: seq<string>, url: string)
    requires url in frontendUrls
    ensures var d := HelmetConfigFor(isProduction, frontendUrls).directives;
            url in d.scriptSrc && url in d.styleSrc && url in d.connectSrc && url in d.imgSrc
  {
  }

  /** The strict-transport-security max-age is one year. */
  lemma HstsIsOneYear(isProduction: bool, frontendUrls: seq<string>)
    ensures HelmetConfigFor(isProduction, frontendUrls).hsts.maxAge == 31536000
  {
  }
}

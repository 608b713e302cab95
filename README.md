# Request admission layer of an Express service skeleton

This project models, in Dafny, the layer every request of the service passes
through before business logic:

- **rate limiting** (`src/config/rateLimit.config.ts`): the per-environment
  window and limit, the trusted-address skip rule, the normalisation of the
  client address (`replace` with a string pattern deletes the first
  `::ffff:` wherever it stands: `203.0.113.5::ffff:` becomes
  `203.0.113.5`), the fixed 429
  denial body and handler, and the module-level `hitCounts` dictionary that
  the key generator updates in place on every counted request;
- **the authentication/authorisation guard**
  (`src/app/middlewares/authorization.ts`): token extraction (cookie first,
  then the second space-separated field of the `Authorization` header),
  verification through an abstract verifier, attaching the payload to the
  request, the role gate, and the single `next` call of every outcome;
- **CORS** (`src/config/cors.config.ts`): the origin delegate, the
  options factory (object spread as map union) and the two exported
  configurations;
- **security headers** (`src/config/helmet.config.ts`): the directive
  table as a function of the production flag and the frontend origins.

Layout: `wrappers.dfy` (Option), `strings.dfy` (JavaScript `replace` with a
string pattern and `split` on one character, with their specifications),
`rate_limit.dfy`, `hit_tracker.dfy` (class `HitTracker` over
`hitCounts: map<string, HitCountData>`, the specification function
`AfterHit`, and lemmas over arbitrary request sequences),
`authorization.dfy`, `cors.dfy`, `helmet.dfy`.

The conservation invariant of the hit statistics (a record's `count` is at
least one and equals the sum of its per-path counts) is `TrackerValid`,
kept by every `HitTracker` method and by `Replay` over any request sequence.

## Model

| member | source | states |
|---|---|---|
| `RateLimit.GetRateLimitOptions` | src/config/rateLimit.config.ts:19-28 | window is 300000 ms everywhere; limit 100 exactly when env is `production`, else 500; draft-7 headers, no legacy headers |
| `RateLimit.ProductionIsStricter` | src/config/rateLimit.config.ts:23-24 | production has the same window and a strictly smaller limit than any other environment |
| `RateLimit.ApplyRateLimit` | src/config/rateLimit.config.ts:30-42 | the limiter receives the environment's window and limit and the fixed 429 `Too Many Requests` body |
| `RateLimit.Handler` | src/config/rateLimit.config.ts:90-99 | the denial response carries the configured status code and the configured message body |
| `RateLimit.DenialIsFixed` | src/config/rateLimit.config.ts:38-42 | in every environment a denied client gets body statusCode 429, error `Too Many Requests` and the fixed text |
| `RateLimit.RawIP` | src/config/rateLimit.config.ts:51 | a missing address becomes the empty string, a present one is kept |
| `RateLimit.NormalizeIP` | src/config/rateLimit.config.ts:45 | an address is unchanged exactly when it holds no `::ffff:` marker; otherwise it loses exactly the marker's seven characters |
| `RateLimit.KeyOf` | src/config/rateLimit.config.ts:51-52 | a missing address has key `''`; a present address is its own key exactly when it holds no marker |
| `RateLimit.Skip` | src/config/rateLimit.config.ts:43-49 | a request is skipped exactly when its normalised key is trusted (the raw-address test adds nothing), so a missing address is never skipped |
| `Strings.IndexOf` | src/config/rateLimit.config.ts:45 | the result is the first index where the pattern occurs, and absent exactly when it occurs nowhere |
| `Strings.ReplaceFirst` | src/config/rateLimit.config.ts:45 | without an occurrence the string is unchanged; otherwise the first occurrence, wherever it stands, is replaced and the rest kept |
| `RateLimit.NormalizeAtFirst` | src/config/rateLimit.config.ts:45 | given the first marker occurrence, normalisation deletes exactly those seven characters and keeps the rest |
| `RateLimit.MappedFormCollapses` | src/config/rateLimit.config.ts:52 | `::ffff:` + v and v normalise to the same v when v holds no marker |
| `RateLimit.MappedKeysAgree` | src/config/rateLimit.config.ts:50-52 | for every dotted-decimal IPv4 text v (such as `203.0.113.5`), `::ffff:` + v and v both have key v |
| `RateLimit.MarkerDeletedAnywhere` | src/config/rateLimit.config.ts:45 | a marker that is not a prefix is deleted too: v + `::ffff:` normalises to v for IPv4 text v |
| `RateLimit.MappedLoopbackNormalizes` | src/config/rateLimit.config.ts:16 | the trusted mapped loopback normalises to the trusted IPv4 loopback |
| `RateLimit.TrustedClosedUnderNormalize` | src/config/rateLimit.config.ts:16 | every trusted address normalises to a trusted address |
| `RateLimit.MissingIPNotSkipped` | src/config/rateLimit.config.ts:44-48 | a request without an address is never skipped and has key `''` |
| `RateLimit.SkipPlainAddress` | src/config/rateLimit.config.ts:16 | for a colon-free address, skipped iff it is `127.0.0.1` or `localhost` |
| `RateLimit.MappedLoopbackSkipped` | src/config/rateLimit.config.ts:43-49 | `127.0.0.1` and `localhost` are skipped both plain and with the `::ffff:` marker in front |
| `RateLimit.Ipv6LoopbackSkipped` | src/config/rateLimit.config.ts:16 | `::1` is skipped |
| `HitTracking.PathCount` | src/config/rateLimit.config.ts:66 | an absent path counts as zero, a present one as its stored count |
| `HitTracking.PathTotalRemove` | src/config/rateLimit.config.ts:10 | the sum of per-path counts can be taken by removing any path first |
| `HitTracking.PathTotalIncrement` | src/config/rateLimit.config.ts:66 | one more hit on a path (from 0 if absent) adds exactly one to the sum of per-path counts |
| `HitTracking.AfterHit` | src/config/rateLimit.config.ts:56-67 | first hit creates a record with count 1, firstHit = lastHit = now, path count 1; a later hit adds 1 to count and to the path's count, sets lastHit, keeps firstHit, other paths and other keys |
| `HitTracking.AfterHitValid` | src/config/rateLimit.config.ts:56-67 | a hit keeps every record's count at least 1 and equal to the sum of its per-path counts |
| `HitTracking.Step` | src/config/rateLimit.config.ts:43-67 | a skipped request leaves the statistics unchanged; any other is a hit under its normalised key |
| `HitTracking.ReplayValid` | src/config/rateLimit.config.ts:13 | over any request sequence every record keeps the conservation invariant |
| `HitTracking.ReplayGrows` | src/config/rateLimit.config.ts:63-67 | over any request sequence no record is removed, no count decreases and firstHit never changes |
| `HitTracking.ReplayCounts` | src/config/rateLimit.config.ts:56-67 | a key's total (and each path's count) grows by exactly the number of requests counted under it |
| `HitTracking.TrustedNeverCounted` | src/config/rateLimit.config.ts:43-49 | no request is ever counted under a trusted key |
| `HitTracking.ReplayFromEmpty` | src/config/rateLimit.config.ts:13 | from an empty dictionary a key has a record iff some request was counted under it, its count is that number, and trusted keys never get one |
| `HitTracking.MappedHitsShareRecord` | src/config/rateLimit.config.ts:50-52 | for IPv4 text v, a request from `::ffff:` + v updates the statistics exactly as one from v |
| `HitTracking.HitTracker.constructor` | src/config/rateLimit.config.ts:13 | the dictionary starts empty and valid |
| `HitTracking.HitTracker.RecordHit` | src/config/rateLimit.config.ts:56-67 | the in-place update leaves the dictionary equal to `AfterHit` of the old one and keeps the invariant |
| `HitTracking.HitTracker.KeyGenerator` | src/config/rateLimit.config.ts:50-87 | returns the normalised address and records the hit under it |
| `HitTracking.HitTracker.Observe` | src/config/rateLimit.config.ts:43-87 | a skipped request changes nothing; any other goes through the key generator |
| `Strings.Split` | src/app/middlewares/authorization.ts:50 | `split(' ')` yields at least one field, no field holds a space, and joining the fields with spaces gives back the header |
| `Strings.SplitManyIffSep` | src/app/middlewares/authorization.ts:50 | `split(' ')` gives more than one field exactly when the header holds a space |
| `Strings.SplitNoSep` | src/app/middlewares/authorization.ts:50 | a header without a space splits into itself alone |
| `Strings.SplitAtFirst` | src/app/middlewares/authorization.ts:50 | splitting `scheme + ' ' + rest` gives the scheme then the fields of rest |
| `Authorization.MockVerifyToken` | src/app/middlewares/authorization.ts:25-37 | the placeholder verifier returns the fixed payload (`123`, `user`) for every token |
| `Authorization.HeaderToken` | src/app/middlewares/authorization.ts:49-50 | no header gives no token, the empty header gives the empty token, a non-empty header gives a token exactly when it holds a space, and a token never holds a space |
| `Authorization.ExtractToken` | src/app/middlewares/authorization.ts:45-53 | a truthy cookie is the token; otherwise no header gives no token, and a header token never holds a space |
| `Authorization.Authenticate` | src/app/middlewares/authorization.ts:39-76 | only `user` of the request can change; proceeding implies a user is attached; an UnAuthorized outcome leaves the request untouched |
| `Authorization.CookiePreferred` | src/app/middlewares/authorization.ts:45-53 | a truthy cookie is the token and the header cannot change it |
| `Authorization.HeaderWithoutSpace` | src/app/middlewares/authorization.ts:48-51 | without a cookie, a non-empty header holding no space gives no token |
| `Authorization.HeaderSecondField` | src/app/middlewares/authorization.ts:48-51 | without a cookie, the token is the second space-separated field of the header |
| `Authorization.BearerExample` | src/app/middlewares/authorization.ts:50 | `Bearer abc` gives token `abc` |
| `Authorization.NoTokenIsUnauthorized` | src/app/middlewares/authorization.ts:55-57 | no truthy token: `next` gets UnAuthorized `Unauthorized access!`, request untouched, never Forbidden |
| `Authorization.VerifierFailureIsInvalidToken` | src/app/middlewares/authorization.ts:60-64 | a thrown or falsy verification gives UnAuthorized `Invalid token!` with the request untouched |
| `Authorization.Decision` | src/app/middlewares/authorization.ts:55-71 | proceeds iff token truthy, verified and role passes (empty role list passes all); `Forbidden!` iff verified and the role fails a non-empty list; UnAuthorized always carries `Unauthorized access!` or `Invalid token!` |
| `Authorization.UserSetBeforeRoleGate` | src/app/middlewares/authorization.ts:65-70 | a verified payload is attached on both the Forbidden and the proceed outcomes |
| `Authorization.RejectedCookieNoFallback` | src/app/middlewares/authorization.ts:45-64 | a rejected cookie token is `Invalid token!` whatever the header holds |
| `Authorization.MockGuard` | src/app/middlewares/authorization.ts:31-71 | with the placeholder verifier a truthy token attaches the fixed user and proceeds iff the role list is empty or contains `user` |
| `Cors.OriginDecision` | src/config/cors.config.ts:18-30 | one callback per decision: no error iff allowed; an error carries the configured message and no allow flag |
| `Cors.OriginAllowedIff` | src/config/cors.config.ts:20-29 | allowed iff development, no or empty origin, or exactly equal to some list entry |
| `Cors.DevelopmentAllowsAll` | src/config/cors.config.ts:20-23 | development allows every origin |
| `Cors.UnlistedOriginRefused` | src/config/cors.config.ts:25-29 | outside development an unlisted non-empty origin gets the configured error |
| `Cors.NoOriginNormalization` | src/config/cors.config.ts:25 | a listed origin with a trailing slash is refused |
| `Cors.CreateCorsOptions` | src/config/cors.config.ts:34-47 | output drops `origins` and `errorMessage`, adds the delegate and `credentials: true`, and copies the other options after them so they override |
| `Cors.GeneralCorsOptions` | src/config/cors.config.ts:50-58 | general API: whitelist delegate, credentials true, six methods, maxAge 86400 |
| `Cors.AuthCorsOptions` | src/config/cors.config.ts:60-68 | auth endpoints: whitelist delegate, credentials true, POST/GET, maxAge 300 |
| `Cors.ConfigurationsAgreeOnOrigins` | src/config/cors.config.ts:50-68 | both configurations allow exactly the same origins |
| `Helmet.HelmetConfigFor` | src/config/helmet.config.ts:7-44 | scriptSrc adds unsafe-inline/unsafe-eval only outside production; connectSrc and imgSrc lists; upgradeInsecureRequests `[]` only in production; COEP iff production; HSTS one year with subdomains and preload; objectSrc none; frameguard deny; strict-origin-when-cross-origin |
| `Helmet.IsProduction` | src/config/helmet.config.ts:4 | production iff `NODE_ENV` is set and exactly `production` |
| `Helmet.StyleSources` | src/config/helmet.config.ts:13-15 | `'self'`, `'unsafe-inline'` and the two Google font origins, followed by the frontend URLs |
| `Helmet.HelmetConfigFromEnv` | src/config/helmet.config.ts:4 | the embedder policy is on iff `NODE_ENV` is exactly `production` |
| `Helmet.ProductionOnlyByName` | src/config/helmet.config.ts:4 | unset, `test` and `Production` are not production |
| `Helmet.StyleSrcModeIndependent` | src/config/helmet.config.ts:13-15 | styleSrc is the same list in both modes |
| `Helmet.ProductionScriptsStricter` | src/config/helmet.config.ts:12 | production script sources are a subset of development's and contain an unsafe keyword only if a frontend URL is one |
| `Helmet.FrontendUrlsAdmitted` | src/config/helmet.config.ts:12-18 | every frontend URL appears in scriptSrc, styleSrc, connectSrc and imgSrc |
| `Helmet.HstsIsOneYear` | src/config/helmet.config.ts:33-37 | HSTS max-age is 31536000 seconds |

## Left out

- The windowed counting, the comparison against `limit`, the draft-7 rate-limit headers and the default 429 status code belong to the rate-limiting library, which is not part of this model; `statusCode` is a parameter of `ApplyRateLimit`.
- That the library calls `skip` before `keyGenerator` is the library's behaviour; `HitTracker.Observe` assumes it.
- All logging (the development-only statistics line of the key generator, the warning in the denial handler, the CORS start-up messages and the logger configuration), because it is output only.
- Date formatting; `firstHit`, `lastHit` and `now` are integer timestamps, and the clock is a parameter.
- Counts are unbounded naturals; JavaScript's double-precision numbers are not modelled.
- Prototype properties of plain JavaScript objects (an address or path named `constructor`, say) are not modelled: keys are plain map keys.
- The body of the token verifier and all cryptography; the verifier is a parameter, and `MockVerifyToken` models the placeholder. The secret comes from configuration and is a parameter.
- Cookie parsing beyond a string-valued `accessToken`, and the asynchronous nature of the middleware.
- The `cors` and `helmet` libraries that turn these options into headers; `allowedHeaders` is carried but not stated.
- `adminOrigins` is read but only logged, so it does not appear in the model.
- Configuration loading and validation (`src/config/index.ts` is not part of this model): the mode is a string parameter for rate limiting and CORS, while the security headers read `NODE_ENV` directly as an optional string.
- Concurrency: the code runs on one event loop and updates `hitCounts` synchronously.
- The error classes' mapping to HTTP status codes and the error pipeline are not part of this model; the guard's result names the error class and message.

/**
 * The authentication and authorisation guard: it takes the access token from
 * the cookie or else from the `Authorization` header, verifies it, attaches
 * the payload to the request and applies the role gate. Every outcome is one
 * call of `next`, with or without an error.
 */
module Authorization {
  import opened Wrappers
  import opened Strings

  /** The verified token's claims. */
  datatype UserPayload = UserPayload(userId: string, role: string, iat: int, exp: int)

  /** What the guard reads and writes on the request. */
  datatype Request = Request(
    accessTokenCookie: Option<string>,
    authorization: Option<string>,
    user: Option<UserPayload>)

  /** The result of verifying a token: a payload, a falsy value, or a thrown error. */
  datatype Verification = Verified(payload: UserPayload) | Falsy | Rejected

  datatype ErrorKind = UnAuthorized | Forbidden

  /** The single call of `next`: plain, or carrying an error. */
  datatype NextCall = Next | NextWithError(kind: ErrorKind, message: string)

  /** The request as the guard leaves it, and how it called `next`. */
  datatype GuardResult = GuardResult(request: Request, next: NextCall)

  const UnauthorizedAccess: string := "Unauthorized access!"
  const InvalidToken: string := "Invalid token!"
  const ForbiddenMessage: string := "Forbidden!"

  /** The fixed payload returned by the placeholder verifier. */
  const MockPayload: UserPayload := UserPayload("123", "user", 1234567890, 9876543210)

  /** The placeholder verifier: every token verifies to the same payload. */
  function MockVerifyToken(token: string, secret: string): (v: Verification)
    ensures v == Verified(MockPayload)
  {
    Verified(MockPayload)
  }

  /** JavaScript truthiness of an optional string: present and non-empty. */
  predicate Truthy(s: Option<string>)
  {
    s.Some? && s.value != ""
  }

  /**
   * `authHeader && authHeader.split(' ')[1]`: the empty header stays empty,
   * otherwise the second space-separated field, absent when there is none.
   */
  function HeaderToken(authHeader: Option<string>): (r: Option<string>)
    ensures authHeader.None? ==> r.None?
    ensures authHeader == Some("") ==> r == Some("")
    ensures authHeader.Some? && authHeader.value != "" ==> (r.Some? <==> ' ' in authHeader.value)
    ensures r.Some? ==> ' ' !in r.value
  {
    match authHeader
    case None => None
    case Some(h) =>
      if h == "" then Some(h)
      else
        var fields := Split(h, ' ');
        SplitManyIffSep(h, ' ');
        if |fields| > 1 then Some(fields[1]) else None
  }

  /**
   * The cookie token when it is truthy; otherwise the header token, which is
   * absent without a header and never holds a space.
   */
  function ExtractToken(req: Request): (r: Option<string>)
    ensures Truthy(req.accessTokenCookie) ==> r == req.accessTokenCookie
    ensures !Truthy(req.accessTokenCookie) && req.authorization.None? ==> r.None?
    ensures !Truthy(req.accessTokenCookie) && r.Some? ==> ' ' !in r.value
  {
    if Truthy(req.accessTokenCookie) then req.accessTokenCookie
    else HeaderToken(req.authorization)
  }

  /**
   * The middleware built from `requiredRoles`, run on `req` with the given
   * verifier and secret.
   */
  function Authenticate(
    requiredRoles: seq<string>,
    verify: (string, string) -> Verification,
    secret: string,
    req: Request): (r: GuardResult)
    ensures r.next == Next ==> r.request.user.Some?
    ensures r.request == req.(user := r.request.user)
    ensures r.next.NextWithError? && r.next.kind == UnAuthorized ==> r.request == req
  {
    var token := ExtractToken(req);
    if !Truthy(token) then
      GuardResult(req, NextWithError(UnAuthorized, UnauthorizedAccess))
    else
      match verify(token.value, secret)
      case Rejected => GuardResult(req, NextWithError(UnAuthorized, InvalidToken))
      case Falsy => GuardResult(req, NextWithError(UnAuthorized, InvalidToken))
      case Verified(payload) =>
        var withUser := req.(user := Some(payload));
        if |requiredRoles| > 0 && payload.role !in requiredRoles then
          GuardResult(withUser, NextWithError(Forbidden, ForbiddenMessage))
        else
          GuardResult(withUser, Next)
  }

  /** A truthy cookie is the token, and the header is never consulted. */
  lemma CookiePreferred(req: Request, header: Option<string>)
    requires Truthy(req.accessTokenCookie)
    ensures ExtractToken(req) == req.accessTokenCookie
    ensures ExtractToken(req.(authorization := header)) == ExtractToken(req)
  {
  }

  /** Without a truthy cookie, a header holding no space gives no token. */
  lemma HeaderWithoutSpace(req: Request)
    requires !Truthy(req.accessTokenCookie)
    requires req.authorization.Some? && req.authorization.value != ""
    requires ' ' !in req.authorization.value
    ensures ExtractToken(req) == None
  {
  }

  /**
   * Without a truthy cookie, a header `scheme + " " + rest` whose scheme holds
   * no space yields the part of `rest` before its next space.
   */
  lemma HeaderSecondField(req: Request, scheme: string, rest: string)
    requires !Truthy(req.accessTokenCookie)
    requires req.authorization == Some(scheme + [' '] + rest)
    requires ' ' !in scheme
    ensures ExtractToken(req) == Some(Split(rest, ' ')[0])
    ensures ' ' !in rest ==> ExtractToken(req) == Some(rest)
  {
    SplitAtFirst(scheme, rest, ' ');
    if ' ' !in rest {
      SplitNoSep(rest, ' ');
    }
  }

  /** `Bearer abc` gives the token `abc`. */
  lemma BearerExample(req: Request)
    requires !Truthy(req.accessTokenCookie)
    requires req.authorization == Some("Bearer abc")
    ensures ExtractToken(req) == Some("abc")
  {
  }

  /** No token: unauthorised with the access message, the request untouched, never forbidden. */
  lemma NoTokenIsUnauthorized(
    requiredRoles: seq<string>, verify: (string, string) -> Verification, secret: string, req: Request)
    requires !Truthy(ExtractToken(req))
    ensures Authenticate(requiredRoles, verify, secret, req)
            == GuardResult(req, NextWithError(UnAuthorized, UnauthorizedAccess))
  {
  }

  /** A token the verifier rejects, or verifies to nothing, is an invalid token. */
  lemma VerifierFailureIsInvalidToken(
    requiredRoles: seq<string>, verify: (string, string) -> Verification, secret: string, req: Request)
    requires Truthy(ExtractToken(req))
    requires !verify(ExtractToken(req).value, secret).Verified?
    ensures Authenticate(requiredRoles, verify, secret, req)
            == GuardResult(req, NextWithError(UnAuthorized, InvalidToken))
  {
  }

  /**
   * The guard's decision: the request proceeds exactly when the token is
   * truthy, verifies, and the role passes the gate (an empty role list passes
   * every role); it is forbidden, with the message `Forbidden!`, exactly when
   * the token verifies and the role fails the gate; every other outcome is
   * unauthorised.
   */
  lemma Decision(
    requiredRoles: seq<string>, verify: (string, string) -> Verification, secret: string, req: Request)
    ensures var r := Authenticate(requiredRoles, verify, secret, req);
            var token := ExtractToken(req);
            && (r.next == Next <==>
                  Truthy(token) && verify(token.value, secret).Verified?
                  && (requiredRoles == [] || verify(token.value, secret).payload.role in requiredRoles))
            && (r.next == NextWithError(Forbidden, ForbiddenMessage) <==>
                  Truthy(token) && verify(token.value, secret).Verified?
                  && requiredRoles != [] && verify(token.value, secret).payload.role !in requiredRoles)
            && (r.next.NextWithError? && r.next.kind == Forbidden ==> r.next.message == ForbiddenMessage)
            && (r.next.NextWithError? && r.next.kind == UnAuthorized ==>
                  r.next.message == UnauthorizedAccess || r.next.message == InvalidToken)
  {
  }

  /** A verified payload is attached to the request whether or not the role gate passes. */
  lemma UserSetBeforeRoleGate(
    requiredRoles: seq<string>, verify: (string, string) -> Verification, secret: string, req: Request)
    requires Truthy(ExtractToken(req))
    requires verify(ExtractToken(req).value, secret).Verified?
    ensures Authenticate(requiredRoles, verify, secret, req).request
            == req.(user := Some(verify(ExtractToken(req).value, secret).payload))
  {
  }

  /**
   * A cookie the verifier rejects (an expired one, say) is an invalid token
   * whatever header accompanies it: there is no fallback to the header.
   */
  lemma RejectedCookieNoFallback(
    requiredRoles: seq<string>, verify: (string, string) -> Verification, secret: string,
    req: Request, header: Option<string>)
    requires Truthy(req.accessTokenCookie)
    requires verify(req.accessTokenCookie.value, secret) == Rejected
    ensures Authenticate(requiredRoles, verify, secret, req.(authorization := header)).next
            == NextWithError(UnAuthorized, InvalidToken)
  {
  }

  /** With the placeholder verifier, any truthy token is the fixed user with role `user`. */
  lemma MockGuard(requiredRoles: seq<string>, secret: string, req: Request)
    requires Truthy(ExtractToken(req))
    ensures Authenticate(requiredRoles, MockVerifyToken, secret, req).request.user == Some(MockPayload)
    ensures Authenticate(requiredRoles, MockVerifyToken, secret, req).next
            == if requiredRoles == [] || "user" in requiredRoles then Next
               else NextWithError(Forbidden, ForbiddenMessage)
  {
  }
}

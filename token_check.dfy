/**
 * The `verifyToken` and `verifyAdmin` middleware: bearer-header parsing and
 * the mapping from the outcome of JWT verification to a response. The
 * verification itself is a parameter `verify` from the token text to an
 * outcome.
 */
module TokenCheck {
  import opened Js
  import Text

  const BEARER := "Bearer "

  /** The decoded claims that the model looks at. */
  datatype Claims = Claims(role: Option<string>)

  /** What `jwt.verify` does with a token: decodes it, or throws an error with the given `name`. */
  datatype VerifyOutcome = Verified(claims: Claims) | Failed(errorName: string)

  datatype TokenResponse =
    | Authenticated(user: Claims)  // req.user is set and next() runs
    | NoToken                      // 401
    | Expired                      // 401
    | Invalid                      // 401
    | VerifyError                  // 500

  function Status(r: TokenResponse): int {
    match r
    case Authenticated(_) => 200
    case VerifyError => 500
    case _ => 401
  }

  /** The token carried by an `Authorization` header, if it is a bearer header. */
  function BearerToken(header: Option<string>): (t: Option<string>)
    ensures t.Some? <==> header.Some? && Text.StartsWith(header.value, BEARER)
    ensures t.Some? ==> header.value == BEARER + t.value
  {
    if header.Some? && Text.StartsWith(header.value, BEARER) then Some(header.value[|BEARER|..]) else None
  }

  /** `verifyToken`: a missing or non-bearer header is refused before the token is looked at. */
  function VerifyToken(header: Option<string>, verify: string -> VerifyOutcome): (r: TokenResponse)
    ensures BearerToken(header).None? ==> r == NoToken
    ensures BearerToken(header).Some? ==>
      var o := verify(BearerToken(header).value);
      (r.Authenticated? <==> o.Verified?)
      && (r.Authenticated? ==> r.user == o.claims)
      && (r == Expired <==> o == Failed("TokenExpiredError"))
      && (r == Invalid <==> o == Failed("JsonWebTokenError"))
      && (r == VerifyError <==> o.Failed? && o.errorName != "TokenExpiredError" && o.errorName != "JsonWebTokenError")
    ensures Status(r) == 200 || Status(r) == 401 || Status(r) == 500
  {
    match BearerToken(header)
    case None => NoToken
    case Some(token) =>
      match verify(token)
      case Verified(claims) => Authenticated(claims)
      case Failed(name) =>
        if name == "TokenExpiredError" then Expired
        else if name == "JsonWebTokenError" then Invalid
        else VerifyError
  }

  /** The verifier only ever sees the text after the `Bearer ` prefix. */
  lemma TokenIsSuffix(token: string, verify: string -> VerifyOutcome)
    ensures VerifyToken(Some(BEARER + token), verify) == match verify(token) {
      case Verified(c) => Authenticated(c)
      case Failed(n) => if n == "TokenExpiredError" then Expired else if n == "JsonWebTokenError" then Invalid else VerifyError
    }
  {
    assert (BEARER + token)[|BEARER|..] == token;
  }

  /** `verifyAdmin`: lets the request through iff there is a user whose role is exactly 'admin'. */
  function VerifyAdmin(user: Option<Claims>): (allowed: bool)
    ensures allowed <==> user.Some? && user.value.role == Some("admin")
  {
    user.Some? && user.value.role.Some? && user.value.role.value == "admin"
  }
}

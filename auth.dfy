/**
 * The authorization gate (api.go): claims taken from a validated token into
 * the request's (role, authorizedAccountNumber), the per-endpoint scope and
 * account-number check, and the claims a login token carries.
 */
module Auth {
  import opened Wrappers
  import opened Types
  import opened Http

  /** A claim value as JSON decoding yields it: numbers arrive as float64. */
  datatype ClaimValue = JsonString(s: string) | JsonNumber(x: real) | JsonBool(b: bool) | JsonNull

  /** jwt.MapClaims. */
  type Claims = map<string, ClaimValue>

  /** The values jwtAuthMiddleware puts on the request context. */
  datatype AuthContext = AuthContext(role: string, authorizedAccountNumber: Int64)

  /** Truncation toward zero, as Go converts a float to an integer. */
  function TruncateToInt(x: real): (t: int)
    ensures 0.0 <= x ==> 0 <= t && t as real <= x < (t + 1) as real
    ensures x < 0.0 ==> t <= 0 && (t - 1) as real < x <= t as real
  {
    if 0.0 <= x then x.Floor else -((-x).Floor)
  }

  /**
   * `int64(f)`: truncation toward zero; a value outside the int64 range
   * gives the minimum int64, as amd64 does.
   */
  function Float64ToInt64(x: real): (n: Int64)
    ensures MinInt64 <= TruncateToInt(x) <= MaxInt64 ==> n == TruncateToInt(x)
    ensures !(MinInt64 <= TruncateToInt(x) <= MaxInt64) ==> n == MinInt64
  {
    var t := TruncateToInt(x);
    if MinInt64 <= t <= MaxInt64 then t else MinInt64
  }

  /** An account number written as a JSON number is read back unchanged. */
  lemma Float64ToInt64OfInteger(n: Int64)
    ensures Float64ToInt64(n as real) == n
  {
  }

  /** The role claim: any claim that is not a string, or none, counts as "user". */
  function RoleClaim(claims: Claims): (role: string)
    ensures "role" in claims && claims["role"].JsonString? ==> role == claims["role"].s
    ensures !("role" in claims && claims["role"].JsonString?) ==> role == "user"
  {
    if "role" in claims && claims["role"].JsonString? then claims["role"].s else "user"
  }

  /** The accountNumber claim, when it is a JSON number, converted to int64. */
  function AccountNumberClaim(claims: Claims): (n: Option<Int64>)
    ensures n.Some? <==> "accountNumber" in claims && claims["accountNumber"].JsonNumber?
    ensures n.Some? ==> n.value == Float64ToInt64(claims["accountNumber"].x)
  {
    if "accountNumber" in claims && claims["accountNumber"].JsonNumber?
    then Some(Float64ToInt64(claims["accountNumber"].x))
    else None
  }

  /**
   * getClaimsMap: `validate` stands for validateJwt (signature and HMAC
   * method check with the configured secret), giving the claims of a valid
   * token and None for any failure.
   */
  function GetClaimsMap(w: ResponseWriter, token: string, secret: string,
                        validate: (string, string) -> Option<Claims>): (r: (ResponseWriter, Option<Claims>))
    ensures r.1.Some? <==> token != "" && validate(token, secret).Some?
    ensures r.1.Some? ==> r.0 == w && r.1 == validate(token, secret)
    ensures r.1.None? ==> |r.0.bodies| == |w.bodies| + 1 && r.0.bodies[..|w.bodies|] == w.bodies
                          && r.0.bodies[|w.bodies|].ErrorJson?
    ensures w.header.None? && token == "" ==> r.0.Status() == StatusUnauthorized
    ensures w.header.None? && token != "" && r.1.None? ==> r.0.Status() == StatusForbidden
  {
    if token == "" then
      (w.WriteJson(StatusUnauthorized, ErrorJson("authentication required")), None)
    else match validate(token, secret)
      case None => (w.WriteJson(StatusForbidden, ErrorJson("permission denied")), None)
      case Some(claims) => (w, Some(claims))
  }

  /** The middleware's verdict: a response already written, or the context the handler runs with. */
  datatype GateResult = Rejected(w: ResponseWriter) | Admitted(ctx: AuthContext)

  /**
   * jwtAuthMiddleware on a request with header `x-jwt-token: token`: a missing
   * token gives 401 and an invalid one 403 (the middleware's own extra 401
   * comes second and is ignored); a non-numeric accountNumber claim gives 403;
   * otherwise the handler runs with the role (defaulted) and the number.
   */
  function JwtAuthMiddleware(token: string, secret: string,
                             validate: (string, string) -> Option<Claims>): (g: GateResult)
    ensures g.Rejected? <==>
      token == "" || validate(token, secret).None? || AccountNumberClaim(validate(token, secret).value).None?
    ensures g.Rejected? && token == "" ==> g.w.Status() == StatusUnauthorized
    ensures g.Rejected? && token != "" ==> g.w.Status() == StatusForbidden
    ensures g.Admitted? ==>
      g.ctx == AuthContext(RoleClaim(validate(token, secret).value),
                           AccountNumberClaim(validate(token, secret).value).value)
  {
    var (w, claims) := GetClaimsMap(NewWriter, token, secret, validate);
    if claims.None? then
      Rejected(w.WriteJson(StatusUnauthorized, ErrorJson("permission denied")))
    else
      var role := RoleClaim(claims.value);
      match AccountNumberClaim(claims.value)
      case None => Rejected(w.WriteJson(StatusForbidden, ErrorJson("permission denied")))
      case Some(n) => Admitted(AuthContext(role, n))
  }

  /** Why decodeAndValidateRequest refused a request. */
  datatype RequestError = InsufficientPermissions | MalformedBody | AccountMismatch

  function RequestErrorMessage(e: RequestError): string {
    match e
    case InsufficientPermissions => "Insufficient permissions: admin role required"
    case MalformedBody => "malformed request body"
    case AccountMismatch => "access denied: account numbers do not match"
  }

  /**
   * decodeAndValidateRequest: `body` is the decoded payload (None when the
   * JSON does not decode). The admin scope is checked before the body is
   * read; then, in every scope, the payload's account number must equal the
   * caller's, with no exception for admins.
   */
  function DecodeAndValidateRequest(ctx: AuthContext, requestType: string, body: Option<HttpRequest>)
    : (r: Result<HttpRequest, RequestError>)
    ensures r.Ok? <==>
      && (requestType == "admin" ==> ctx.role == "admin")
      && body.Some?
      && body.value.GetAccountNumber() == ctx.authorizedAccountNumber
    ensures r.Ok? ==> r.value == body.value
    ensures requestType == "admin" && ctx.role != "admin" ==> r == Err(InsufficientPermissions)
  {
    if requestType == "admin" && ctx.role != "admin" then Err(InsufficientPermissions)
    else if body.None? then Err(MalformedBody)
    else if body.value.GetAccountNumber() != ctx.authorizedAccountNumber then Err(AccountMismatch)
    else Ok(body.value)
  }

  /** Admins get no bypass: an admin acting on another account number is refused in either scope. */
  lemma NoAdminBypass(ctx: AuthContext, requestType: string, req: HttpRequest)
    requires ctx.role == "admin"
    requires req.GetAccountNumber() != ctx.authorizedAccountNumber
    ensures DecodeAndValidateRequest(ctx, requestType, Some(req)) == Err(AccountMismatch)
  {
  }

  /** Only the transfer's source is checked: any destination and amount pass with the caller's own source. */
  lemma TransferGateChecksSourceOnly(ctx: AuthContext, t: TransferRequest)
    ensures DecodeAndValidateRequest(ctx, "user", Some(Transfer(t))).Ok?
            <==> t.fromNumber == ctx.authorizedAccountNumber
  {
  }

  /** Deleting needs the admin role and the caller's own number as admin_account; nothing else in the payload counts. */
  lemma DeleteGateChecksAdminAccount(ctx: AuthContext, d: DeleteAccountRequest)
    ensures DecodeAndValidateRequest(ctx, "admin", Some(DeleteAccount(d))).Ok?
            <==> ctx.role == "admin" && d.adminAccount == ctx.authorizedAccountNumber
  {
  }

  /** Creating needs the admin role and the caller's own number as admin_account, whatever account is requested. */
  lemma CreateGateChecksAdminAccount(ctx: AuthContext, c: CreateAccountRequest)
    ensures DecodeAndValidateRequest(ctx, "admin", Some(CreateAccount(c))).Ok?
            <==> ctx.role == "admin" && c.adminAccount == ctx.authorizedAccountNumber
  {
  }

  /** Reading an account is allowed for the caller's own number only, in either scope. */
  lemma GetGateChecksNumber(ctx: AuthContext, g: GetAccountRequest, requestType: string)
    ensures DecodeAndValidateRequest(ctx, requestType, Some(GetAccount(g))).Ok?
            <==> (requestType == "admin" ==> ctx.role == "admin") && g.number == ctx.authorizedAccountNumber
  {
  }

  /** The seconds a login token is said to be valid for (24 hours); nothing checks it. */
  const TokenLifetime: int := 24 * 60 * 60

  /** The claims createJwt signs for an account; the expiry goes under the custom key "expiresAt". */
  function IssuedClaims(acc: Account, now: Time): (c: Claims)
    ensures c.Keys == {"role", "expiresAt", "accountNumber"}
    ensures c["role"] == JsonString(acc.role) && c["accountNumber"] == JsonNumber(acc.number as real)
    ensures "exp" !in c
  {
    map["role" := JsonString(acc.role),
        "expiresAt" := JsonNumber((now + TokenLifetime) as real),
        "accountNumber" := JsonNumber(acc.number as real)]
  }

  datatype JwtError = SecretNotSet

  /** createJwt: `sign` stands for HS256 signing with the secret; an empty JWT_SECRET is an error. */
  function CreateJwt(acc: Account, now: Time, secret: string, sign: (Claims, string) -> string)
    : (r: Result<string, JwtError>)
    ensures r.Err? <==> secret == ""
    ensures r.Ok? ==> r.value == sign(IssuedClaims(acc, now), secret)
  {
    if secret == "" then Err(SecretNotSet) else Ok(sign(IssuedClaims(acc, now), secret))
  }

  /**
   * A token issued for an account, when validation returns what was signed,
   * admits its bearer with exactly that account's role and number.
   */
  lemma IssuedTokenAdmits(acc: Account, now: Time, secret: string,
                          sign: (Claims, string) -> string, validate: (string, string) -> Option<Claims>)
    requires CreateJwt(acc, now, secret, sign).Ok?
    requires var token := CreateJwt(acc, now, secret, sign).value;
             token != "" && validate(token, secret) == Some(IssuedClaims(acc, now))
    ensures JwtAuthMiddleware(CreateJwt(acc, now, secret, sign).value, secret, validate)
            == Admitted(AuthContext(acc.role, acc.number))
  {
    Float64ToInt64OfInteger(acc.number);
  }

  /** A token whose claims omit the role, or give a non-string one, acts as "user". */
  lemma MissingRoleDefaultsToUser(token: string, secret: string, validate: (string, string) -> Option<Claims>)
    requires token != "" && validate(token, secret).Some?
    requires var c := validate(token, secret).value;
             AccountNumberClaim(c).Some? && !("role" in c && c["role"].JsonString?)
    ensures JwtAuthMiddleware(token, secret, validate).Admitted?
    ensures JwtAuthMiddleware(token, secret, validate).ctx.role == "user"
  {
  }

  /**
   * Whatever its role, a token for account n is refused, in either scope, for
   * any payload naming another account.
   */
  lemma TokenBoundToOwnAccount(token: string, secret: string, validate: (string, string) -> Option<Claims>,
                                   requestType: string, req: HttpRequest)
    requires JwtAuthMiddleware(token, secret, validate).Admitted?
    requires req.GetAccountNumber() != JwtAuthMiddleware(token, secret, validate).ctx.authorizedAccountNumber
    ensures DecodeAndValidateRequest(JwtAuthMiddleware(token, secret, validate).ctx, requestType, Some(req)).Err?
  {
  }
}

/** Token minting and checking (server/src/services/jwt.ts). Signing and
    verification (JSON Web Tokens, RFC 7519) are outside the model and are
    passed in as functions; a verification reports the claims, an expired
    token (the `exp` claim of section 4.1.4 of RFC 7519) or any other
    failure. */
module Jwt {
  import opened Js
  import opened Store

  /** The payloads the server signs. An access token names the user's
      address; a refresh token does not. */
  datatype Claims =
    | AccessClaims(id: string, email: string, sessionId: string)
    | RefreshClaims(id: string, sessionId: string)

  /** The outcome of `jwt.verify(token, secret)`. */
  datatype Verdict = Verified(claims: Claims) | Expired | Invalid

  /** The module's settings, read once from the environment. */
  datatype JwtConfig = JwtConfig(secret: string, accessExpiry: string, refreshExpiry: string)

  /** `process.env[name]`. */
  function EnvVar(env: map<string, string>, name: string): (v: Option<string>)
    ensures v.Some? <==> name in env
    ensures v.Some? ==> v.value == env[name]
  {
    if name in env then Some(env[name]) else None
  }

  /** Loading the module: it refuses to load without a (non-empty) secret;
      expiries fall back to 15 minutes and 7 days. */
  function LoadJwtConfig(env: map<string, string>): (r: Result<JwtConfig, string>)
    ensures r.Failure? <==> !Truthy(EnvVar(env, "JWT_SECRET"))
    ensures r.Failure? ==> r.error == "JWT_SECRET is missing"
    ensures r.Success? ==> r.value.secret == env["JWT_SECRET"] && r.value.secret != ""
    ensures r.Success? ==> r.value.accessExpiry == Or(EnvVar(env, "JWT_ACCESS_EXPIRY"), "15m")
    ensures r.Success? ==> r.value.refreshExpiry == Or(EnvVar(env, "JWT_REFRESH_EXPIRY"), "7d")
  {
    var secret := EnvVar(env, "JWT_SECRET");
    if !Truthy(secret) then Failure("JWT_SECRET is missing")
    else Success(JwtConfig(
      secret.value,
      Or(EnvVar(env, "JWT_ACCESS_EXPIRY"), "15m"),
      Or(EnvVar(env, "JWT_REFRESH_EXPIRY"), "7d")))
  }

  /** Without the expiry variables the defaults are 15 minutes and 7 days. */
  lemma DefaultExpiries(env: map<string, string>)
    requires Truthy(EnvVar(env, "JWT_SECRET"))
    requires "JWT_ACCESS_EXPIRY" !in env && "JWT_REFRESH_EXPIRY" !in env
    ensures LoadJwtConfig(env).Success?
    ensures LoadJwtConfig(env).value.accessExpiry == "15m"
    ensures LoadJwtConfig(env).value.refreshExpiry == "7d"
  {
  }

  datatype Tokens = Tokens(accessToken: string, refreshToken: string)

  /** `generateAccessAndRefreshToken(userId, sessionId)`: looks the user up
      and signs both tokens with the one secret. `sign(claims, secret,
      expiresIn)` is `jwt.sign`. */
  function GenerateTokens(users: seq<User>, userId: string, sessionId: string, config: JwtConfig,
                          sign: (Claims, string, string) -> string): (r: Result<Tokens, string>)
    ensures r.Failure? <==> UserById(users, userId).None?
    ensures r.Failure? ==> r.error == "User not found"
    ensures r.Success? ==>
      && r.value.accessToken == sign(AccessClaims(userId, UserById(users, userId).value.email, sessionId), config.secret, config.accessExpiry)
      && r.value.refreshToken == sign(RefreshClaims(userId, sessionId), config.secret, config.refreshExpiry)
  {
    var user := UserById(users, userId);
    if user.None? then Failure("User not found")
    else
      Success(Tokens(
        sign(AccessClaims(user.value.id, user.value.email, sessionId), config.secret, config.accessExpiry),
        sign(RefreshClaims(userId, sessionId), config.secret, config.refreshExpiry)))
  }

  /** `verifyToken(token)`: checks with the same secret that signs. */
  function VerifyToken(token: string, config: JwtConfig, verify: (string, string) -> Verdict): Verdict {
    verify(token, config.secret)
  }

  /** A signature scheme: whatever is signed with `secret` verifies with
      `secret` to the signed claims, unless it has expired. */
  ghost predicate Sound(sign: (Claims, string, string) -> string, verify: (string, string) -> Verdict, secret: string) {
    forall c: Claims, exp: string {:trigger sign(c, secret, exp)} ::
      verify(sign(c, secret, exp), secret) == Verified(c) || verify(sign(c, secret, exp), secret) == Expired
  }

  /** Both minted tokens verify under `verifyToken`, to claims naming the user
      and the session they were minted for; only the access token carries the
      address. */
  lemma MintedTokensVerify(users: seq<User>, userId: string, sessionId: string, config: JwtConfig,
                           sign: (Claims, string, string) -> string, verify: (string, string) -> Verdict)
    requires Sound(sign, verify, config.secret)
    requires UserById(users, userId).Some?
    ensures var t := GenerateTokens(users, userId, sessionId, config, sign).value;
      && (VerifyToken(t.accessToken, config, verify).Verified? ==>
            VerifyToken(t.accessToken, config, verify).claims == AccessClaims(userId, UserById(users, userId).value.email, sessionId))
      && (VerifyToken(t.refreshToken, config, verify).Verified? ==>
            VerifyToken(t.refreshToken, config, verify).claims == RefreshClaims(userId, sessionId))
      && !VerifyToken(t.accessToken, config, verify).Invalid?
      && !VerifyToken(t.refreshToken, config, verify).Invalid?
  {
    var email := UserById(users, userId).value.email;
    assert verify(sign(AccessClaims(userId, email, sessionId), config.secret, config.accessExpiry), config.secret)
      in {Verified(AccessClaims(userId, email, sessionId)), Expired};
    assert verify(sign(RefreshClaims(userId, sessionId), config.secret, config.refreshExpiry), config.secret)
      in {Verified(RefreshClaims(userId, sessionId)), Expired};
  }
}

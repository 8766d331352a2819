/** The access-token gate in front of every protected route
    (server/src/middleware/auth.middleware.ts). Its one effect besides the
    decision, clearing the two token cookies, is returned with the decision. */
module AuthMiddleware {
  import opened Js
  import opened Store
  import opened Jwt
  import opened ApiErrors
  import opened LoginSuccess

  /** What the gate attaches to the request: `req.user`. */
  datatype RequestUser = RequestUser(id: string, email: string, sessionId: string)

  /** The gate's decision and the cookies it clears on the way. */
  datatype Gate = Gate(outcome: Result<RequestUser, ApiError>, cookies: seq<CookieOp>)

  /** `req.cookies?.accessToken || req.header("Authorization")?.replace("Bearer ", "")`:
      the cookie wins when it is non-empty; otherwise the header with its first
      "Bearer " removed (a bearer token in the sense of section 2.1 of
      RFC 6750). */
  function RequestToken(cookie: Option<string>, authorization: Option<string>): (t: Option<string>)
    ensures Truthy(cookie) ==> t == cookie
    ensures !Truthy(cookie) && authorization.None? ==> t.None?
    ensures !Truthy(cookie) && authorization.Some? ==> t == Some(RemoveFirst(authorization.value, "Bearer "))
  {
    if Truthy(cookie) then cookie
    else if authorization.Some? then Some(RemoveFirst(authorization.value, "Bearer "))
    else None
  }

  /** The error every failure inside the guarded block turns into, except an
      expired token. */
  const Generic: ApiError := Fail(401, "Invalid or expired token")

  /** The error of an expired token: the only one carrying a code. */
  const TokenExpired: ApiError := NewApiError(401, Some("Token expired"), Some([]), Some("TOKEN_EXPIRED"))

  /** The session named by the claims exists and belongs to the user. */
  predicate LiveSession(sessions: map<string, Session>, sessionId: string, user: User) {
    sessionId in sessions && sessions[sessionId].userId == user.id
  }

  /** `authMiddleware(req, res, next)` over the current tables. */
  function Authenticate(cookie: Option<string>, authorization: Option<string>, config: JwtConfig,
                        verify: (string, string) -> Verdict, users: seq<User>, sessions: map<string, Session>,
                        nodeEnv: Option<string>): (g: Gate)
    // no token at all: rejected before anything else, with nothing cleared
    ensures !Truthy(RequestToken(cookie, authorization)) ==>
      g == Gate(Failure(Fail(401, "Unauthorized request")), [])
    // every rejection is a 401
    ensures g.outcome.Failure? ==> g.outcome.error.statusCode == 401 && !g.outcome.error.success
    // only an expired token carries a code
    ensures (g.outcome.Failure? && g.outcome.error.code.Some?) <==>
      Truthy(RequestToken(cookie, authorization)) && VerifyToken(RequestToken(cookie, authorization).value, config, verify).Expired?
    ensures g.outcome.Failure? && g.outcome.error.code.Some? ==> g.outcome.error == TokenExpired
    // a token that is present but not expired is refused only with the generic error
    ensures g.outcome.Failure? && Truthy(RequestToken(cookie, authorization)) ==>
      VerifyToken(RequestToken(cookie, authorization).value, config, verify).Expired? || g.outcome.error == Generic
    // admission
    ensures g.outcome.Success? <==>
      && Truthy(RequestToken(cookie, authorization))
      && var v := VerifyToken(RequestToken(cookie, authorization).value, config, verify);
         v.Verified? && UserById(users, v.claims.id).Some?
         && LiveSession(sessions, v.claims.sessionId, UserById(users, v.claims.id).value)
    ensures g.outcome.Success? ==>
      var v := VerifyToken(RequestToken(cookie, authorization).value, config, verify);
      var u := UserById(users, v.claims.id).value;
      g.outcome.value == RequestUser(u.id, u.email, sessions[v.claims.sessionId].id) && g.cookies == []
    // cookies are cleared exactly when a known user's session is gone or not theirs
    ensures g.cookies != [] <==>
      && Truthy(RequestToken(cookie, authorization))
      && var v := VerifyToken(RequestToken(cookie, authorization).value, config, verify);
         v.Verified? && UserById(users, v.claims.id).Some?
         && !LiveSession(sessions, v.claims.sessionId, UserById(users, v.claims.id).value)
    ensures g.cookies != [] ==>
      && g.cookies == [ClearCookie("accessToken", ClearOptions(nodeEnv)), ClearCookie("refreshToken", ClearOptions(nodeEnv))]
      && g.outcome == Failure(Generic)
  {
    var token := RequestToken(cookie, authorization);
    if !Truthy(token) then Gate(Failure(Fail(401, "Unauthorized request")), [])
    else
      match VerifyToken(token.value, config, verify)
      case Expired => Gate(Failure(TokenExpired), [])
      case Invalid => Gate(Failure(Generic), [])
      case Verified(claims) =>
        var user := UserById(users, claims.id);
        if user.None? then Gate(Failure(Generic), [])
        else if !LiveSession(sessions, claims.sessionId, user.value) then
          Gate(Failure(Generic), [ClearCookie("accessToken", ClearOptions(nodeEnv)), ClearCookie("refreshToken", ClearOptions(nodeEnv))])
        else
          var session := sessions[claims.sessionId];
          Gate(Success(RequestUser(user.value.id, user.value.email, session.id)), [])
  }

  /** Because one secret signs both kinds of token and the gate reads only
      `id` and `sessionId`, a refresh token that has not expired is admitted
      as an access token for as long as its session lives. */
  lemma RefreshTokenAdmitted(users: seq<User>, sessions: map<string, Session>, userId: string, sessionId: string,
                             config: JwtConfig, sign: (Claims, string, string) -> string,
                             verify: (string, string) -> Verdict, nodeEnv: Option<string>)
    requires Sound(sign, verify, config.secret)
    requires forall id :: id in sessions ==> sessions[id].id == id
    requires UserById(users, userId).Some?
    requires sessionId in sessions && sessions[sessionId].userId == userId
    ensures var refresh := GenerateTokens(users, userId, sessionId, config, sign).value.refreshToken;
      var g := Authenticate(None, Some("Bearer " + refresh), config, verify, users, sessions, nodeEnv);
      refresh != "" && !VerifyToken(refresh, config, verify).Expired? ==>
        g.outcome == Success(RequestUser(userId, UserById(users, userId).value.email, sessionId))
  {
    var refresh := GenerateTokens(users, userId, sessionId, config, sign).value.refreshToken;
    assert OccursAt("Bearer ", "Bearer " + refresh, 0);
    assert ("Bearer " + refresh)[|"Bearer "|..] == refresh;
    MintedTokensVerify(users, userId, sessionId, config, sign, verify);
  }
}

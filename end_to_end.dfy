/** The gate and the client's refresh queue together: which refusals of the
    access-token gate make the client refresh its token. */
module EndToEnd {
  import opened Js
  import opened Jwt
  import opened Store
  import opened ApiErrors
  import opened AuthMiddleware
  import opened RefreshQueue

  /** The failed call the client sees for a refused request, assuming the
      error handler sends the error's status and its `code` in the body. A
      request reaching the interceptor for the first time is not marked. */
  function RefusedCall(id: nat, error: ApiError, authorization: Option<string>): (req: Request)
    ensures req.id == id && !req.retried && req.authorization == authorization
    ensures req.status == Some(error.statusCode) && req.code == error.code
  {
    Request(id, Some(error.statusCode), error.code, false, authorization)
  }

  /** The client starts (or waits for) a refresh exactly when the gate refused
      the request because its token had expired; a bad signature, an unknown
      user or an ended session are passed on to the caller. */
  lemma RefreshExactlyOnExpiry(id: nat, cookie: Option<string>, authorization: Option<string>, config: JwtConfig,
                               verify: (string, string) -> Verdict, users: seq<User>, sessions: map<string, Session>,
                               nodeEnv: Option<string>)
    requires Authenticate(cookie, authorization, config, verify, users, sessions, nodeEnv).outcome.Failure?
    ensures var g := Authenticate(cookie, authorization, config, verify, users, sessions, nodeEnv);
      Qualifies(RefusedCall(id, g.outcome.error, authorization)) <==>
        Truthy(RequestToken(cookie, authorization)) && VerifyToken(RequestToken(cookie, authorization).value, config, verify).Expired?
  {
    var g := Authenticate(cookie, authorization, config, verify, users, sessions, nodeEnv);
    assert g.outcome.error.code.Some? ==> g.outcome.error == TokenExpired;
    assert TokenExpired.code == Some("TOKEN_EXPIRED") && TokenExpired.statusCode == 401;
  }

  /** A refusal for an ended session is never retried by the client: the
      caller sees it at once, with both token cookies cleared. */
  lemma EndedSessionNotRetried(id: nat, cookie: Option<string>, authorization: Option<string>, config: JwtConfig,
                               verify: (string, string) -> Verdict, users: seq<User>, sessions: map<string, Session>,
                               nodeEnv: Option<string>, s: State)
    requires Authenticate(cookie, authorization, config, verify, users, sessions, nodeEnv).cookies != []
    ensures var g := Authenticate(cookie, authorization, config, verify, users, sessions, nodeEnv);
      var req := RefusedCall(id, g.outcome.error, authorization);
      OnError(s, req) == (s, [Reject(req, Unchanged)])
  {
    var g := Authenticate(cookie, authorization, config, verify, users, sessions, nodeEnv);
    assert g.outcome == Failure(Generic);
    assert Generic.code.None? by {
      assert Generic == Fail(401, "Invalid or expired token");
    }
  }
}

/** The account and session handlers (server/src/controllers/user.controller.ts):
    registration, sign-in, the three kinds of sign-out, the session list, and
    the two halves of a password reset. Each handler checks and then changes
    the tables; an `ApiError` it throws becomes the response, and any other
    exception (a failed database call) is an internal error. Hashing,
    SHA-256 digests and random reset tokens are passed in as functions and
    values. */
module UserController {
  import opened Js
  import opened Zod
  import opened ApiErrors
  import opened RequestValidation
  import opened ServerValidation
  import opened Store
  import opened Jwt
  import opened DeviceInfo
  import opened AuthService
  import opened LoginSuccess
  import opened AuthMiddleware

  /** Why a handler did not answer normally: an `ApiError` it threw, or an
      exception from elsewhere. */
  datatype HandlerError = Api(error: ApiError) | Internal(reason: string)

  /** The JSON body `new ApiResponse(statusCode, data, message)`; its
      `statusCode` is a field of the body, not the HTTP status. */
  datatype Reply<T> = Reply(statusCode: int, data: T, message: string)

  // ---------------------------------------------------------------------------
  // registration

  /** The columns registration selects for its answer. */
  datatype NewUser = NewUser(id: string, email: string, firstName: string, lastName: string, createdAt: int)

  function RegisterSchema(isEmail: string -> bool): Json -> Parsed<RegisterData> {
    body => ParseRegister(body, isEmail)
  }

  /** `registerUser`. `newId` and `now` are the id and time the database
      assigns, `hash` is the password hash. */
  method RegisterUser(db: Database, body: Json, isEmail: string -> bool, hash: string -> string, newId: string, now: int)
    returns (r: Result<Reply<NewUser>, HandlerError>)
    requires db.Valid()
    requires UserById(db.users, newId).None?
    modifies db
    ensures db.Valid()
    ensures db.sessions == old(db.sessions) && db.resetTokens == old(db.resetTokens)
    ensures var v := ValidateRequest(RegisterSchema(isEmail), body);
      && (v.Failure? ==> r == Failure(Api(v.error)) && db.users == old(db.users))
      && (v.Success? && UserByEmail(old(db.users), v.value.email).Some? ==>
            r == Failure(Api(Fail(409, "User with Email Already exist."))) && db.users == old(db.users))
      && (v.Success? && UserByEmail(old(db.users), v.value.email).None? ==>
            && db.users == old(db.users) + [User(newId, v.value.email, hash(v.value.password), v.value.firstName, v.value.lastName, "email", now)]
            && r == Success(Reply(201, NewUser(newId, v.value.email, v.value.firstName, v.value.lastName, now), "User registered successfully")))
  {
    var v := ValidateRequest(RegisterSchema(isEmail), body);
    if v.Failure? {
      return Failure(Api(v.error));
    }
    var data := v.value;
    if UserByEmail(db.users, data.email).Some? {
      return Failure(Api(Fail(409, "User with Email Already exist.")));
    }
    var user := User(newId, data.email, hash(data.password), data.firstName, data.lastName, "email", now);
    db.CreateUser(user);
    r := Success(Reply(201, NewUser(user.id, user.email, user.firstName, user.lastName, user.createdAt), "User registered successfully"));
  }

  /** Registration never lets two accounts share an address: the users a
      successful registration leaves behind map the address to the account
      just created, so by `RegisterUser`'s contract signing up again with the
      same body fails with 409. */
  lemma RegisterTwiceConflicts(users: seq<User>, body: Json, isEmail: string -> bool, hash: string -> string, newId: string, now: int)
    requires ValidateRequest(RegisterSchema(isEmail), body).Success?
    requires UserByEmail(users, ValidateRequest(RegisterSchema(isEmail), body).value.email).None?
    ensures var d := ValidateRequest(RegisterSchema(isEmail), body).value;
      var u := User(newId, d.email, hash(d.password), d.firstName, d.lastName, "email", now);
      UserByEmail(users + [u], d.email) == Some(u)
  {
    var d := ValidateRequest(RegisterSchema(isEmail), body).value;
    var u := User(newId, d.email, hash(d.password), d.firstName, d.lastName, "email", now);
    UserByEmailAppend(users, u, d.email);
  }

  // ---------------------------------------------------------------------------
  // sign-in

  function LoginSchema(isEmail: string -> bool): Json -> Parsed<LoginData> {
    body => ParseLogin(body, isEmail)
  }

  /** The checks of `loginUser` in their order: the address must be known, the
      account must be a password account, and the password must match
      (`compare(plain, hashed)` is the hash comparison). */
  function LoginCheck(users: seq<User>, data: LoginData, compare: (string, string) -> bool): (r: Result<User, ApiError>)
    ensures r.Success? <==>
      UserByEmail(users, data.email).Some? && UserByEmail(users, data.email).value.provider == "email"
      && compare(data.password, UserByEmail(users, data.email).value.password)
    ensures r.Success? ==> r.value in users && r.value.email == data.email && r.value.provider == "email"
    ensures UserByEmail(users, data.email).None? ==> r == Failure(Fail(404, "User does not exist."))
    ensures UserByEmail(users, data.email).Some? && UserByEmail(users, data.email).value.provider != "email" ==>
      r == Failure(Fail(403, "Please log in using " + UserByEmail(users, data.email).value.provider + "."))
    ensures r.Failure? ==> r.error.statusCode in {401, 403, 404} && r.error.code.None?
  {
    var user := UserByEmail(users, data.email);
    if user.None? then Failure(Fail(404, "User does not exist."))
    else if user.value.provider != "email" then Failure(Fail(403, "Please log in using " + user.value.provider + "."))
    else if !compare(data.password, user.value.password) then Failure(Fail(401, "Incorrect password."))
    else Success(user.value)
  }

  /** An account made through Google or GitHub can never sign in with a
      password, whatever password is offered. */
  lemma OAuthAccountsCannotUsePasswords(users: seq<User>, data: LoginData, compare: (string, string) -> bool)
    requires UserByEmail(users, data.email).Some? && UserByEmail(users, data.email).value.provider != "email"
    ensures LoginCheck(users, data, compare).Failure?
    ensures LoginCheck(users, data, compare).error.statusCode == 403
  {
  }

  /** `loginUser`: validates the body, runs the checks, and on success does
      what `handleLoginSuccess` does. Failed checks leave the tables alone. */
  method LoginUser(db: Database, body: Json, isEmail: string -> bool, compare: (string, string) -> bool,
                   client: Client, nodeEnv: Option<string>, newId: string, now: int,
                   config: JwtConfig, sign: (Claims, string, string) -> string,
                   parse: string -> UserAgent, lookup: string -> Option<Geo>)
    returns (r: Result<LoginReply, HandlerError>)
    requires db.Valid()
    requires newId !in db.sessions
    modifies db
    ensures db.Valid()
    ensures db.users == old(db.users) && db.resetTokens == old(db.resetTokens)
    ensures ValidateRequest(LoginSchema(isEmail), body).Failure? ==>
      r == Failure(Api(ValidateRequest(LoginSchema(isEmail), body).error)) && db.sessions == old(db.sessions)
    ensures ValidateRequest(LoginSchema(isEmail), body).Success? &&
            LoginCheck(old(db.users), ValidateRequest(LoginSchema(isEmail), body).value, compare).Failure? ==>
      && r == Failure(Api(LoginCheck(old(db.users), ValidateRequest(LoginSchema(isEmail), body).value, compare).error))
      && db.sessions == old(db.sessions)
    ensures ValidateRequest(LoginSchema(isEmail), body).Success? &&
            LoginCheck(old(db.users), ValidateRequest(LoginSchema(isEmail), body).value, compare).Success? ==>
      var data := ValidateRequest(LoginSchema(isEmail), body).value;
      var user := LoginCheck(old(db.users), data, compare).value;
      var t := GenerateTokens(old(db.users), user.id, newId, config, sign);
      && t.Success?
      && db.sessions.Keys == old(db.sessions).Keys + {newId}
      && (forall id :: id in old(db.sessions) ==> db.sessions[id] == old(db.sessions)[id])
      && db.sessions[newId].userId == user.id
      && db.sessions[newId].refreshToken == t.value.refreshToken
      && db.sessions == old(db.sessions)[newId := SessionRow(newId, user.id, Or(client.userAgent, ""),
           ParseDeviceInfo(Or(client.userAgent, ""), ClientIp(client.forwardedFor, client.ip), parse, lookup), now,
           t.value.refreshToken)]
      && r == Success(LoginReply(200, WithoutPassword(user), "User LoggedIn Successfully",
           TokenCookies(t.value.accessToken, t.value.refreshToken, CookieOptionsFor(data.rememberMe == Some(true), nodeEnv))))
  {
    var v := ValidateRequest(LoginSchema(isEmail), body);
    if v.Failure? {
      return Failure(Api(v.error));
    }
    var check := LoginCheck(db.users, v.value, compare);
    if check.Failure? {
      return Failure(Api(check.error));
    }
    assert UserById(db.users, check.value.id).Some?;
    var reply := HandleLoginSuccess(db, check.value, v.value.rememberMe == Some(true), client, nodeEnv,
                                    newId, now, config, sign, parse, lookup);
    r := Success(reply.value);
  }

  // ---------------------------------------------------------------------------
  // sign-out

  /** The body fields `logoutUser` reads; the flag is taken for its
      truthiness. */
  datatype LogoutBody = LogoutBody(sessionId: Option<string>, terminateAllOtherSession: bool)

  datatype LogoutReply = LogoutReply(statusCode: int, message: string, cookies: seq<CookieOp>)

  /** What `logoutUser` does to the sessions, given who is asking. */
  datatype LogoutPlan =
    | Refuse(error: ApiError)
    | DeleteOne(id: string, reply: LogoutReply)
    | DeleteOthers(userId: Option<string>, keep: Option<string>, reply: LogoutReply)

  /** The decision of `logoutUser`: a named session first, then the
      "everything else" flag, then the caller's own session. */
  function LogoutDecision(sessions: map<string, Session>, caller: Option<RequestUser>, body: LogoutBody, nodeEnv: Option<string>): (p: LogoutPlan)
    // a named session: only its owner may end it, and no cookie is touched
    ensures Truthy(body.sessionId) ==>
      if body.sessionId.value in sessions && caller.Some? && sessions[body.sessionId.value].userId == caller.value.id
      then p == DeleteOne(body.sessionId.value, LogoutReply(200, "Session logged out successfully", []))
      else p == Refuse(Fail(404, "Session not found or unauthorized"))
    // every other session of the caller
    ensures !Truthy(body.sessionId) && body.terminateAllOtherSession ==>
      p == DeleteOthers(if caller.Some? then Some(caller.value.id) else None,
                        if caller.Some? then Some(caller.value.sessionId) else None,
                        LogoutReply(200, "All other session terminated successfully", []))
    // the caller's own session, and both cookies
    ensures !Truthy(body.sessionId) && !body.terminateAllOtherSession ==>
      if caller.None? || caller.value.sessionId == "" then p == Refuse(Fail(400, "Current session not found in request"))
      else p == DeleteOne(caller.value.sessionId, LogoutReply(200, "Logged out successfully",
        [ClearCookie("refreshToken", ClearOptions(nodeEnv)), ClearCookie("accessToken", ClearOptions(nodeEnv))]))
    ensures p.DeleteOne? && p.reply.cookies != [] ==> caller.Some? && p.id == caller.value.sessionId
  {
    if Truthy(body.sessionId) then
      var id := body.sessionId.value;
      if id in sessions && caller.Some? && sessions[id].userId == caller.value.id
      then DeleteOne(id, LogoutReply(200, "Session logged out successfully", []))
      else Refuse(Fail(404, "Session not found or unauthorized"))
    else if body.terminateAllOtherSession then
      DeleteOthers(if caller.Some? then Some(caller.value.id) else None,
                   if caller.Some? then Some(caller.value.sessionId) else None,
                   LogoutReply(200, "All other session terminated successfully", []))
    else if caller.None? || caller.value.sessionId == "" then Refuse(Fail(400, "Current session not found in request"))
    else DeleteOne(caller.value.sessionId, LogoutReply(200, "Logged out successfully",
      [ClearCookie("refreshToken", ClearOptions(nodeEnv)), ClearCookie("accessToken", ClearOptions(nodeEnv))]))
  }

  /** `logoutUser`. Deleting a session that is no longer there is a failed
      database call. */
  method LogoutUser(db: Database, caller: Option<RequestUser>, body: LogoutBody, nodeEnv: Option<string>)
    returns (r: Result<LogoutReply, HandlerError>)
    requires db.Valid()
    modifies db
    ensures db.Valid()
    ensures db.users == old(db.users) && db.resetTokens == old(db.resetTokens)
    ensures match LogoutDecision(old(db.sessions), caller, body, nodeEnv)
      case Refuse(e) => r == Failure(Api(e)) && db.sessions == old(db.sessions)
      case DeleteOne(id, reply) =>
        if id in old(db.sessions) then r == Success(reply) && db.sessions == old(db.sessions) - {id}
        else r.Failure? && r.error.Internal? && db.sessions == old(db.sessions)
      case DeleteOthers(userId, keep, reply) =>
        r == Success(reply) && db.sessions == Surviving(old(db.sessions), userId, keep)
  {
    var plan := LogoutDecision(db.sessions, caller, body, nodeEnv);
    match plan
    case Refuse(e) =>
      r := Failure(Api(e));
    case DeleteOne(id, reply) =>
      if id !in db.sessions {
        return Failure(Internal("Record to delete does not exist."));
      }
      db.DeleteSession(id);
      r := Success(reply);
    case DeleteOthers(userId, keep, reply) =>
      db.DeleteSessionsWhere(userId, keep);
      r := Success(reply);
  }

  /** A named session outranks the flag: naming a session ends at most that
      session, whatever the flag says. */
  lemma NamedSessionOutranksFlag(sessions: map<string, Session>, caller: Option<RequestUser>, id: string, nodeEnv: Option<string>)
    requires id != ""
    ensures LogoutDecision(sessions, caller, LogoutBody(Some(id), true), nodeEnv)
         == LogoutDecision(sessions, caller, LogoutBody(Some(id), false), nodeEnv)
    ensures !LogoutDecision(sessions, caller, LogoutBody(Some(id), true), nodeEnv).DeleteOthers?
  {
  }

  /** Ending all other sessions keeps the caller's current session and every
      session of other users, and removes the rest of the caller's. */
  lemma OthersEnded(sessions: map<string, Session>, caller: RequestUser)
    requires forall id :: id in sessions ==> sessions[id].id == id
    ensures var left := Surviving(sessions, Some(caller.id), Some(caller.sessionId));
      && (caller.sessionId in sessions ==> caller.sessionId in left)
      && (forall id :: id in sessions && sessions[id].userId != caller.id ==> id in left && left[id] == sessions[id])
      && (forall id :: id in left && left[id].userId == caller.id ==> left[id].id == caller.sessionId)
  {
  }

  /** Once the caller's session is deleted, the access token issued for it
      no longer passes the gate: the answer is the generic 401, without the
      expiry code, and both cookies are cleared. */
  lemma SignedOutTokenRejected(cookie: Option<string>, authorization: Option<string>, config: JwtConfig,
                               verify: (string, string) -> Verdict, users: seq<User>, sessions: map<string, Session>,
                               nodeEnv: Option<string>, sessionId: string)
    requires Truthy(RequestToken(cookie, authorization))
    requires VerifyToken(RequestToken(cookie, authorization).value, config, verify).Verified?
    requires VerifyToken(RequestToken(cookie, authorization).value, config, verify).claims.sessionId == sessionId
    requires UserById(users, VerifyToken(RequestToken(cookie, authorization).value, config, verify).claims.id).Some?
    ensures Authenticate(cookie, authorization, config, verify, users, sessions - {sessionId}, nodeEnv)
      == Gate(Failure(Generic), [ClearCookie("accessToken", ClearOptions(nodeEnv)), ClearCookie("refreshToken", ClearOptions(nodeEnv))])
  {
  }

  // ---------------------------------------------------------------------------
  // the session list

  /** One entry of the session list. */
  datatype SessionView = SessionView(
    id: string,
    createdAt: int,
    lastActive: int,
    os: string,
    browser: string,
    deviceType: string,
    location: string,
    ipAddress: string,
    isCurrent: bool)

  /** The entry shown for a session; `lastActive` is the creation time. */
  function View(s: Session, current: Option<string>): (v: SessionView)
    ensures v.id == s.id && v.createdAt == s.createdAt && v.lastActive == s.createdAt
    ensures v.os == s.os && v.browser == s.browser && v.deviceType == s.deviceType
    ensures v.location == s.location && v.ipAddress == s.ip
    ensures v.isCurrent <==> current == Some(s.id)
  {
    SessionView(s.id, s.createdAt, s.createdAt, s.os, s.browser, s.deviceType, s.location, s.ip, current.Some? && s.id == current.value)
  }

  /** Newest first. */
  predicate NewestFirstOrder(list: seq<Session>) {
    forall j, k :: 0 <= j < k < |list| ==> list[j].createdAt >= list[k].createdAt
  }

  predicate DistinctIds(list: seq<Session>) {
    forall j, k :: 0 <= j < k < |list| ==> list[j].id != list[k].id
  }

  /** Where `s` goes: after every entry at least as new. */
  function InsertPos(list: seq<Session>, s: Session): (i: nat)
    ensures i <= |list|
    ensures forall k :: 0 <= k < i ==> list[k].createdAt >= s.createdAt
    ensures i < |list| ==> list[i].createdAt < s.createdAt
  {
    if list == [] then 0
    else if list[0].createdAt < s.createdAt then 0
    else 1 + InsertPos(list[1..], s)
  }

  /** `list` with `s` put in its place. */
  function Insert(list: seq<Session>, s: Session): (r: seq<Session>)
    ensures |r| == |list| + 1
    ensures forall x :: x in r <==> x in list || x == s
  {
    var i := InsertPos(list, s);
    assert list == list[..i] + list[i..];
    list[..i] + [s] + list[i..]
  }

  /** Inserting keeps the list newest first. */
  lemma InsertKeepsOrder(list: seq<Session>, s: Session)
    requires NewestFirstOrder(list)
    ensures NewestFirstOrder(Insert(list, s))
  {
    var i := InsertPos(list, s);
    var r := Insert(list, s);
    forall j, k | 0 <= j < k < |r|
      ensures r[j].createdAt >= r[k].createdAt
    {
      if k < i {
        assert r[j] == list[j] && r[k] == list[k];
      } else if k == i {
        assert r[j] == list[j];
      } else if j < i {
        assert r[j] == list[j] && r[k] == list[k - 1];
      } else if j == i {
        assert r[k] == list[k - 1];
        assert list[i].createdAt >= list[k - 1].createdAt;
      } else {
        assert r[j] == list[j - 1] && r[k] == list[k - 1];
      }
    }
  }

  /** Inserting a session whose id is new keeps the ids distinct. */
  lemma InsertKeepsIdsDistinct(list: seq<Session>, s: Session)
    requires DistinctIds(list)
    requires forall x :: x in list ==> x.id != s.id
    ensures DistinctIds(Insert(list, s))
  {
    var i := InsertPos(list, s);
    var r := Insert(list, s);
    forall j, k | 0 <= j < k < |r|
      ensures r[j].id != r[k].id
    {
      var j' := if j < i then j else j - 1;
      var k' := if k < i then k else k - 1;
      if j == i {
        assert r[k] == list[k'];
      } else if k == i {
        assert r[j] == list[j'];
      } else {
        assert r[j] == list[j'] && r[k] == list[k'];
      }
    }
  }

  /** `session.findMany({ where: { userId }, orderBy: { createdAt: "desc" } })`:
      the sessions of `userId`, newest first, each once. Sessions created at
      the same moment may come in either order. */
  method SessionsOf(sessions: map<string, Session>, userId: string) returns (list: seq<Session>)
    requires forall id :: id in sessions ==> sessions[id].id == id
    ensures NewestFirstOrder(list)
    ensures DistinctIds(list)
    ensures forall s :: s in list <==> s.id in sessions && sessions[s.id] == s && s.userId == userId
  {
    var todo := sessions.Keys;
    list := [];
    while todo != {}
      invariant todo <= sessions.Keys
      invariant NewestFirstOrder(list)
      invariant DistinctIds(list)
      invariant forall s :: s in list <==> s.id in sessions && s.id !in todo && sessions[s.id] == s && s.userId == userId
      decreases |todo|
    {
      var id :| id in todo;
      var s := sessions[id];
      if s.userId == userId {
        assert forall x :: x in list ==> x.id != id;
        InsertKeepsOrder(list, s);
        InsertKeepsIdsDistinct(list, s);
        list := Insert(list, s);
      }
      todo := todo - {id};
    }
  }

  /** `getAllSessions`: the caller's sessions, newest first, marking the one
      the request came from. */
  method GetAllSessions(db: Database, caller: Option<RequestUser>) returns (r: Result<seq<SessionView>, ApiError>)
    requires db.Valid()
    ensures caller.None? || caller.value.id == "" <==> r.Failure?
    ensures r.Failure? ==> r.error == Fail(401, "Unauthorized request")
    ensures r.Success? ==>
      && (forall k :: 0 <= k < |r.value| ==>
            r.value[k].id in db.sessions && db.sessions[r.value[k].id].userId == caller.value.id
            && r.value[k] == View(db.sessions[r.value[k].id], Some(caller.value.sessionId)))
      && (forall id :: id in db.sessions && db.sessions[id].userId == caller.value.id ==>
            exists k :: 0 <= k < |r.value| && r.value[k].id == id)
      && (forall j, k :: 0 <= j < k < |r.value| ==> r.value[j].id != r.value[k].id)
      && (forall j, k :: 0 <= j < k < |r.value| ==> r.value[j].createdAt >= r.value[k].createdAt)
      && (forall j, k :: 0 <= j < k < |r.value| ==> !(r.value[j].isCurrent && r.value[k].isCurrent))
  {
    if caller.None? || caller.value.id == "" {
      return Failure(Fail(401, "Unauthorized request"));
    }
    var list := SessionsOf(db.sessions, caller.value.id);
    var views := seq(|list|, k requires 0 <= k < |list| => View(list[k], Some(caller.value.sessionId)));
    forall id | id in db.sessions && db.sessions[id].userId == caller.value.id
      ensures exists k :: 0 <= k < |views| && views[k].id == id
    {
      assert db.sessions[id] in list;
      var k :| 0 <= k < |list| && list[k] == db.sessions[id];
      assert views[k].id == id;
    }
    forall k | 0 <= k < |views|
      ensures views[k].id in db.sessions && db.sessions[views[k].id].userId == caller.value.id
      ensures views[k] == View(db.sessions[views[k].id], Some(caller.value.sessionId))
    {
      assert list[k] in list;
    }
    r := Success(views);
  }

  // ---------------------------------------------------------------------------
  // password reset

  /** How long a reset link stays valid: fifteen minutes, in milliseconds. */
  const ResetWindow: int := 1000 * 60 * 15

  /** The mail a reset request sends. */
  datatype ResetMail = ResetMail(to: string, name: string, resetLink: string)

  datatype ResetReply = ResetReply(statusCode: int, message: string, mail: Option<ResetMail>)

  /** `${FRONTEND_REDIRECT_URL}/reset-password?token=${raw}&email=${email}`;
      an unset address prints as "undefined". */
  function ResetLink(frontend: Option<string>, rawToken: string, email: string): string {
    Interpolate(frontend) + "/reset-password?token=" + rawToken + "&email=" + email
  }

  /** `requestPasswordReset`. `email` is the body field (absent when
      missing), `rawToken` the random token, `sha256` the digest function. */
  method RequestPasswordReset(db: Database, email: Option<string>, rawToken: string, sha256: string -> string,
                              now: int, frontend: Option<string>)
    returns (r: Result<ResetReply, HandlerError>)
    requires db.Valid()
    modifies db
    ensures db.Valid()
    ensures db.users == old(db.users) && db.sessions == old(db.sessions)
    ensures email.None? ==> r.Failure? && r.error.Internal? && db.resetTokens == old(db.resetTokens)
    ensures email.Some? ==>
      var user := UserByEmail(old(db.users), email.value);
      && (user.Some? && user.value.provider != "email" ==>
            && r == Failure(Api(Fail(403, "Please login using " + user.value.provider + ", password reset not allowed.")))
            && db.resetTokens == old(db.resetTokens))
      && (user.None? ==>
            r == Success(ResetReply(200, "Email sent if account exist", None)) && db.resetTokens == old(db.resetTokens))
      && (user.Some? && user.value.provider == "email" ==>
            && db.resetTokens == old(db.resetTokens) + [ResetRow(email.value, sha256(rawToken), now + ResetWindow)]
            && r == Success(ResetReply(200, "Reset link sent to email if account exists",
                 Some(ResetMail(email.value, user.value.firstName + " " + user.value.lastName,
                                ResetLink(frontend, rawToken, email.value))))))
  {
    if email.None? {
      return Failure(Internal("Argument `email` is missing."));
    }
    var user := UserByEmail(db.users, email.value);
    if user.Some? && user.value.provider != "email" {
      return Failure(Api(Fail(403, "Please login using " + user.value.provider + ", password reset not allowed.")));
    }
    if user.None? {
      return Success(ResetReply(200, "Email sent if account exist", None));
    }
    var hashed := sha256(rawToken);
    var expiresAt := now + ResetWindow;
    db.CreateResetRow(ResetRow(email.value, hashed, expiresAt));
    var link := ResetLink(frontend, rawToken, email.value);
    var mail := ResetMail(email.value, user.value.firstName + " " + user.value.lastName, link);
    r := Success(ResetReply(200, "Reset link sent to email if account exists", Some(mail)));
  }

  /** `resetPassword`. `email`, `token` and `password` are the body fields
      (absent when missing). The token is hashed first, so without one the
      handler throws before any lookup. The row must match the address, the
      digest of the token and be unexpired; only then is the password hashed,
      which throws when it is missing. Then the password changes and every
      reset row of the address goes. Sessions are not touched. */
  method ResetPassword(db: Database, email: Option<string>, token: Option<string>, password: Option<string>, now: int,
                       sha256: string -> string, hash: string -> string)
    returns (r: Result<Reply<()>, HandlerError>)
    requires db.Valid()
    modifies db
    ensures db.Valid()
    ensures db.sessions == old(db.sessions)
    ensures r.Failure? ==> db.users == old(db.users) && db.resetTokens == old(db.resetTokens)
    ensures token.None? ==> r.Failure? && r.error.Internal?
    ensures token.Some? ==>
      var found := FindResetRow(old(db.resetTokens), email, sha256(token.value), now);
      && (found.None? ==> r == Failure(Api(Fail(400, "Token invalid or expired"))))
      && (found.Some? && (password.None? || email.None?) ==> r.Failure? && r.error.Internal?)
      && (found.Some? && password.Some? && email.Some? ==>
            && r == Success(Reply(200, (), "Password reset successfull"))
            && db.users == SetPassword(old(db.users), email.value, hash(password.value))
            && db.resetTokens == RowsNotFor(old(db.resetTokens), email.value))
  {
    if token.None? {
      return Failure(Internal("The \"data\" argument must be of type string."));
    }
    var hashed := sha256(token.value);
    var entry := FindResetRow(db.resetTokens, email, hashed, now);
    if entry.None? {
      return Failure(Api(Fail(400, "Token invalid or expired")));
    }
    if password.None? {
      return Failure(Internal("data and salt arguments required"));
    }
    var hashedPassword := hash(password.value);
    if email.None? {
      return Failure(Internal("Argument `where` of type UserWhereUniqueInput needs at least one argument."));
    }
    ghost var k :| 0 <= k < |db.resetTokens| && db.resetTokens[k] == entry.value;
    assert UserByEmail(db.users, db.resetTokens[k].email).Some?;
    assert db.resetTokens[k].email == email.value;
    db.UpdatePassword(email.value, hashedPassword);
    db.DeleteResetRows(email.value);
    r := Success(Reply(200, (), "Password reset successfull"));
  }

  /** A reset token works once: after a successful reset no row of that
      address is left, so any token for it fails. */
  lemma ResetTokenSingleUse(rows: seq<ResetRow>, email: string, token: string, now: int)
    ensures FindResetRow(RowsNotFor(rows, email), Some(email), token, now).None?
  {
    var left := RowsNotFor(rows, email);
    forall k | 0 <= k < |left| ensures left[k].email != email {
      assert left[k] in left;
    }
  }

  /** The row a reset request stores opens the reset for the mailed token
      until fifteen minutes have passed. */
  lemma FreshResetRowWorks(rows: seq<ResetRow>, email: string, rawToken: string, sha256: string -> string, now: int, later: int)
    requires later <= now + ResetWindow
    ensures FindResetRow(rows + [ResetRow(email, sha256(rawToken), now + ResetWindow)], Some(email), sha256(rawToken), later).Some?
  {
    var all := rows + [ResetRow(email, sha256(rawToken), now + ResetWindow)];
    assert all[|rows|] == ResetRow(email, sha256(rawToken), now + ResetWindow);
  }

  /** Reset rows of other addresses survive a reset untouched. */
  lemma OtherAddressesKeepTheirRows(rows: seq<ResetRow>, email: string, row: ResetRow)
    requires row in rows && row.email != email
    ensures row in RowsNotFor(rows, email)
  {
  }
}

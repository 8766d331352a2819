/** What every successful sign-in does (server/src/utils/handleLoginSuccess.ts):
    work out the client's address, open a session, set the two token cookies
    and answer with the user minus its password. */
module LoginSuccess {
  import opened Js
  import opened Store
  import opened Jwt
  import opened DeviceInfo
  import opened AuthService

  /** The first entry of an `X-Forwarded-For` header, trimmed. */
  function FirstForwarded(header: string): (ip: string)
    ensures ',' !in ip
  {
    SplitFirstPiece(header, ',');
    TrimAddsNothing(Split(header, ',')[0], ',');
    Js.Trim(Split(header, ',')[0])
  }

  /** `x-forwarded-for?.split(",")[0]?.trim() || req.ip || ""`. */
  function ClientIp(forwardedFor: Option<string>, reqIp: Option<string>): (ip: string)
    ensures forwardedFor.Some? && FirstForwarded(forwardedFor.value) != "" ==> ip == FirstForwarded(forwardedFor.value)
    ensures (forwardedFor.None? || FirstForwarded(forwardedFor.value) == "") ==> ip == Or(reqIp, "")
  {
    if forwardedFor.Some? && FirstForwarded(forwardedFor.value) != "" then FirstForwarded(forwardedFor.value)
    else Or(reqIp, "")
  }

  /** The address taken from the header is the trimmed text before its first
      comma; no later entry (a proxy the request passed through) ever shows. */
  lemma ForwardedIsFirstEntry(header: string, reqIp: Option<string>)
    requires FirstForwarded(header) != ""
    ensures ClientIp(Some(header), reqIp) == Js.Trim(header[..IndexOf(header, ',')])
    ensures ',' !in ClientIp(Some(header), reqIp)
  {
  }

  /** Thirty days in milliseconds. */
  const ThirtyDays: int := 30 * 24 * 60 * 60 * 1000

  datatype CookieOptions = CookieOptions(httpOnly: bool, secure: bool, sameSite: string, maxAge: Option<int>)

  /** The token cookies: HTTP-only, same-site "lax", secure in production,
      and persistent for thirty days only when the user asked to be
      remembered. */
  function CookieOptionsFor(rememberMe: bool, nodeEnv: Option<string>): (o: CookieOptions)
    ensures o.httpOnly && o.sameSite == "lax"
    ensures o.secure <==> nodeEnv == Some("production")
    ensures o.maxAge.Some? <==> rememberMe
    ensures o.maxAge.Some? ==> o.maxAge.value == 2592000000
  {
    CookieOptions(true, nodeEnv == Some("production"), "lax", if rememberMe then Some(ThirtyDays) else None)
  }

  /** The options `res.clearCookie` is given. */
  function ClearOptions(nodeEnv: Option<string>): (o: CookieOptions)
    ensures o.httpOnly && o.sameSite == "lax" && o.maxAge.None?
    ensures o.secure <==> nodeEnv == Some("production")
  {
    CookieOptionsFor(false, nodeEnv)
  }

  /** A cookie the response sets or clears. */
  datatype CookieOp = SetCookie(name: string, value: string, options: CookieOptions) | ClearCookie(name: string, options: CookieOptions)

  /** The refresh-token cookie, then the access-token cookie, with the same
      options. */
  function TokenCookies(accessToken: string, refreshToken: string, options: CookieOptions): (cs: seq<CookieOp>)
    ensures |cs| == 2
    ensures cs[0] == SetCookie("refreshToken", refreshToken, options)
    ensures cs[1] == SetCookie("accessToken", accessToken, options)
    ensures cs[0].options == cs[1].options
  {
    [SetCookie("refreshToken", refreshToken, options), SetCookie("accessToken", accessToken, options)]
  }

  /** A JSON success response `{ statusCode, data, message }` with the cookies
      set on it. */
  datatype LoginReply = LoginReply(status: int, user: PublicUser, message: string, cookies: seq<CookieOp>)

  /** The request facts sign-in reads. */
  datatype Client = Client(userAgent: Option<string>, forwardedFor: Option<string>, ip: Option<string>)

  /** `handleLoginSuccess({ user, rememberMe, req, res })`. Fails, with the
      error of token generation, only when `user` is not in the table. */
  method HandleLoginSuccess(db: Database, user: User, rememberMe: bool, client: Client, nodeEnv: Option<string>,
                            newId: string, now: int, config: JwtConfig, sign: (Claims, string, string) -> string,
                            parse: string -> UserAgent, lookup: string -> Option<Geo>)
    returns (r: Result<LoginReply, string>)
    requires db.Valid()
    requires newId !in db.sessions
    modifies db
    ensures db.Valid()
    ensures db.users == old(db.users) && db.resetTokens == old(db.resetTokens)
    ensures db.sessions.Keys == old(db.sessions).Keys + {newId}
    ensures forall id :: id in old(db.sessions) ==> db.sessions[id] == old(db.sessions)[id]
    ensures db.sessions[newId].userId == user.id && db.sessions[newId].ip == ClientIp(client.forwardedFor, client.ip)
    ensures GenerateTokens(old(db.users), user.id, newId, config, sign).Failure? ==>
      && r.Failure?
      && db.sessions == old(db.sessions)[newId := InsertedRow(newId, user.id, Or(client.userAgent, ""),
           ParseDeviceInfo(Or(client.userAgent, ""), ClientIp(client.forwardedFor, client.ip), parse, lookup), now)]
    ensures GenerateTokens(old(db.users), user.id, newId, config, sign).Success? ==>
      db.sessions == old(db.sessions)[newId := SessionRow(newId, user.id, Or(client.userAgent, ""),
        ParseDeviceInfo(Or(client.userAgent, ""), ClientIp(client.forwardedFor, client.ip), parse, lookup), now,
        GenerateTokens(old(db.users), user.id, newId, config, sign).value.refreshToken)]
    ensures GenerateTokens(old(db.users), user.id, newId, config, sign).Success? ==>
      var t := GenerateTokens(old(db.users), user.id, newId, config, sign).value;
      && db.sessions[newId].refreshToken == t.refreshToken
      && r == Success(LoginReply(200, WithoutPassword(user), "User LoggedIn Successfully",
                                 TokenCookies(t.accessToken, t.refreshToken, CookieOptionsFor(rememberMe, nodeEnv))))
  {
    var userAgent := Or(client.userAgent, "");
    var ip := ClientIp(client.forwardedFor, client.ip);
    ghost var before := db.sessions;
    ghost var tokens := GenerateTokens(db.users, user.id, newId, config, sign);
    ghost var device := ParseDeviceInfo(userAgent, ip, parse, lookup);
    var grant := CreateUserSession(db, user.id, userAgent, ip, newId, now, config, sign, parse, lookup);
    if grant.Failure? {
      AddedOne(before, db.sessions, InsertedRow(newId, user.id, userAgent, device, now));
      return Failure(grant.error);
    }
    AddedOne(before, db.sessions, SessionRow(newId, user.id, userAgent, device, now, tokens.value.refreshToken));
    var options := CookieOptionsFor(rememberMe, nodeEnv);
    r := Success(LoginReply(200, WithoutPassword(user), "User LoggedIn Successfully",
                            TokenCookies(grant.value.accessToken, grant.value.refreshToken, options)));
  }
}

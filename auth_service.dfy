/** `createUserSession` (server/src/utils/authService.ts): a session is
    created in two steps, first inserted with an empty refresh token, then
    given the refresh token minted for its id. */
module AuthService {
  import opened Js
  import opened Store
  import opened Jwt
  import opened DeviceInfo

  /** What `createUserSession` returns: the row as it was inserted and the two
      tokens. */
  datatype SessionGrant = SessionGrant(session: Session, accessToken: string, refreshToken: string)

  /** A session row of `userId` holding the device facts from the parsed
      agent and address. */
  function SessionRow(id: string, userId: string, userAgent: string, device: Device, now: int, refreshToken: string): Session {
    Session(id, userId, userAgent, device.ipAddress, device.browser, device.deviceType, device.location, device.os, refreshToken, now)
  }

  /** The row inserted first, with no refresh token yet. */
  function InsertedRow(id: string, userId: string, userAgent: string, device: Device, now: int): Session {
    SessionRow(id, userId, userAgent, device, now, "")
  }

  /** `createUserSession(userId, userAgent, ip)`. `newId` and `now` are the id
      and creation time the database assigns. When no user has `userId` the
      token step fails after the row was inserted, and the row stays with an
      empty refresh token. */
  method CreateUserSession(db: Database, userId: string, userAgent: string, ip: string, newId: string, now: int,
                           config: JwtConfig, sign: (Claims, string, string) -> string,
                           parse: string -> UserAgent, lookup: string -> Option<Geo>)
    returns (r: Result<SessionGrant, string>)
    requires db.Valid()
    requires newId !in db.sessions
    modifies db
    ensures db.Valid()
    ensures db.users == old(db.users) && db.resetTokens == old(db.resetTokens)
    ensures GenerateTokens(old(db.users), userId, newId, config, sign).Failure? ==>
      && r == Failure("User not found")
      && db.sessions == old(db.sessions)[newId := InsertedRow(newId, userId, userAgent, ParseDeviceInfo(userAgent, ip, parse, lookup), now)]
    ensures GenerateTokens(old(db.users), userId, newId, config, sign).Success? ==>
      var tokens := GenerateTokens(old(db.users), userId, newId, config, sign).value;
      r == Success(SessionGrant(InsertedRow(newId, userId, userAgent, ParseDeviceInfo(userAgent, ip, parse, lookup), now),
                                tokens.accessToken, tokens.refreshToken))
    ensures GenerateTokens(old(db.users), userId, newId, config, sign).Success? ==>
      var tokens := GenerateTokens(old(db.users), userId, newId, config, sign).value;
      db.sessions == old(db.sessions)[newId := SessionRow(newId, userId, userAgent, ParseDeviceInfo(userAgent, ip, parse, lookup), now, tokens.refreshToken)]
  {
    ghost var sessions0 := db.sessions;
    var device := ParseDeviceInfo(userAgent, ip, parse, lookup);
    var session := InsertedRow(newId, userId, userAgent, device, now);
    db.CreateSession(session);
    assert db.sessions == sessions0[newId := session];
    var tokens := GenerateTokens(db.users, userId, session.id, config, sign);
    if tokens.Failure? {
      r := Failure(tokens.error);
      return;
    }
    db.UpdateRefreshToken(session.id, tokens.value.refreshToken);
    ghost var row := SessionRow(newId, userId, userAgent, device, now, tokens.value.refreshToken);
    assert session.(refreshToken := tokens.value.refreshToken) == row;
    Overwritten(sessions0, newId, session, row);
    r := Success(SessionGrant(session, tokens.value.accessToken, tokens.value.refreshToken));
  }

  /** Writing a key twice leaves only the second value. */
  lemma Overwritten(m: map<string, Session>, k: string, a: Session, b: Session)
    ensures m[k := a][k := b] == m[k := b]
  {
  }

  /** Storing one row under a fresh id adds exactly that row and leaves every
      other row as it was. */
  lemma AddedOne(before: map<string, Session>, after: map<string, Session>, row: Session)
    requires row.id !in before
    requires after == before[row.id := row]
    ensures after.Keys == before.Keys + {row.id}
    ensures |after| == |before| + 1
    ensures after[row.id] == row
    ensures forall id :: id in before ==> after[id] == before[id]
  {
    assert after.Keys == before.Keys + {row.id};
  }
}

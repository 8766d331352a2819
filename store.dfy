/** The three tables the authentication server keeps in its database (users,
    sessions and password-reset tokens) and the database operations the
    handlers perform on them. The database generates row ids and creation
    times; here the caller passes them in, and an id is fresh when no row holds
    it yet. */
module Store {
  import opened Js

  /** A user row. `provider` is "email" for accounts with a password and
      "google" or "github" for accounts created through OAuth, whose password is
      the empty string. */
  datatype User = User(
    id: string,
    email: string,
    password: string,
    firstName: string,
    lastName: string,
    provider: string,
    createdAt: int)

  /** A user without its password, the shape login responses carry. */
  datatype PublicUser = PublicUser(
    id: string,
    email: string,
    firstName: string,
    lastName: string,
    provider: string,
    createdAt: int)

  /** `const { password: _, ...rest } = user`. */
  function WithoutPassword(u: User): (p: PublicUser)
    ensures p.id == u.id && p.email == u.email && p.provider == u.provider
    ensures p.firstName == u.firstName && p.lastName == u.lastName && p.createdAt == u.createdAt
  {
    PublicUser(u.id, u.email, u.firstName, u.lastName, u.provider, u.createdAt)
  }

  /** Puts a password back on a public user. */
  function WithPassword(p: PublicUser, password: string): (u: User)
    ensures WithoutPassword(u) == p && u.password == password
  {
    User(p.id, p.email, password, p.firstName, p.lastName, p.provider, p.createdAt)
  }

  /** Stripping the password loses exactly the password and nothing else. */
  lemma StripOnlyPassword(u: User)
    ensures WithPassword(WithoutPassword(u), u.password) == u
  {
  }

  /** A session row: one signed-in device. */
  datatype Session = Session(
    id: string,
    userId: string,
    userAgent: string,
    ip: string,
    browser: string,
    deviceType: string,
    location: string,
    os: string,
    refreshToken: string,
    createdAt: int)

  /** A password-reset row: the SHA-256 digest of the token mailed to `email`,
      valid until `expiresAt` (milliseconds). */
  datatype ResetRow = ResetRow(email: string, token: string, expiresAt: int)

  // ---------------------------------------------------------------------------
  // queries

  /** `user.findUnique({ where: { email } })`. */
  function UserByEmail(users: seq<User>, email: string): (r: Option<User>)
    ensures r.Some? ==> r.value in users && r.value.email == email
    ensures r.None? ==> forall k :: 0 <= k < |users| ==> users[k].email != email
  {
    if users == [] then None
    else if users[0].email == email then Some(users[0])
    else UserByEmail(users[1..], email)
  }

  /** Appending a user whose address was free makes the lookup find that
      user, and leaves every other address's lookup as it was. */
  lemma {:induction false} UserByEmailAppend(users: seq<User>, u: User, email: string)
    requires UserByEmail(users, u.email).None?
    ensures UserByEmail(users + [u], email) == if u.email == email then Some(u) else UserByEmail(users, email)
    decreases |users|
  {
    if users == [] {
      assert users + [u] == [u];
    } else {
      assert (users + [u])[1..] == users[1..] + [u];
      if users[0].email != email {
        UserByEmailAppend(users[1..], u, email);
      }
    }
  }

  /** `user.findUnique({ where: { id } })`. */
  function UserById(users: seq<User>, id: string): (r: Option<User>)
    ensures r.Some? ==> r.value in users && r.value.id == id
    ensures r.None? ==> forall k :: 0 <= k < |users| ==> users[k].id != id
  {
    if users == [] then None
    else if users[0].id == id then Some(users[0])
    else UserById(users[1..], id)
  }

  /** No two users share an e-mail address or an id. */
  ghost predicate UniqueUsers(users: seq<User>) {
    forall j, k :: 0 <= j < k < |users| ==> users[j].email != users[k].email && users[j].id != users[k].id
  }

  /** In a table with unique addresses the lookup finds the one user with
      that address. */
  lemma {:induction false} UserByEmailFinds(users: seq<User>, k: int)
    requires UniqueUsers(users) && 0 <= k < |users|
    ensures UserByEmail(users, users[k].email) == Some(users[k])
  {
    if k > 0 {
      assert users[0].email != users[k].email;
      assert users[1..][k - 1] == users[k];
      UserByEmailFinds(users[1..], k - 1);
    }
  }

  /** `session.deleteMany` filter `{ userId, id: { not: keep } }`. A filter
      value that is undefined constrains nothing. */
  predicate Doomed(s: Session, userId: Option<string>, keep: Option<string>) {
    (userId.None? || s.userId == userId.value) && (keep.None? || s.id != keep.value)
  }

  /** The sessions a `deleteMany` with that filter leaves. */
  function Surviving(sessions: map<string, Session>, userId: Option<string>, keep: Option<string>): (r: map<string, Session>)
    ensures forall id :: id in r <==> id in sessions && !Doomed(sessions[id], userId, keep)
    ensures forall id :: id in r ==> r[id] == sessions[id]
  {
    map id | id in sessions && !Doomed(sessions[id], userId, keep) :: sessions[id]
  }

  /** `passwordResetToken.findFirst({ where: { email, token, expiresAt: { gte: now } } })`,
      the first matching row in table order. An undefined e-mail constrains
      nothing. */
  function FindResetRow(rows: seq<ResetRow>, email: Option<string>, token: string, now: int): (r: Option<ResetRow>)
    ensures r.Some? ==> r.value in rows && r.value.token == token && r.value.expiresAt >= now
    ensures r.Some? && email.Some? ==> r.value.email == email.value
    ensures r.None? ==> forall k :: 0 <= k < |rows| ==>
      !((email.None? || rows[k].email == email.value) && rows[k].token == token && rows[k].expiresAt >= now)
  {
    if rows == [] then None
    else if (email.None? || rows[0].email == email.value) && rows[0].token == token && rows[0].expiresAt >= now then Some(rows[0])
    else FindResetRow(rows[1..], email, token, now)
  }

  /** The rows a `passwordResetToken.deleteMany({ where: { email } })` leaves,
      in table order. */
  function RowsNotFor(rows: seq<ResetRow>, email: string): (r: seq<ResetRow>)
    ensures forall row :: row in r <==> row in rows && row.email != email
    ensures |r| <= |rows|
  {
    if rows == [] then []
    else (if rows[0].email == email then [] else [rows[0]]) + RowsNotFor(rows[1..], email)
  }

  /** The users after `user.update({ where: { email }, data: { password } })`. */
  function SetPassword(users: seq<User>, email: string, password: string): (r: seq<User>)
    ensures |r| == |users|
    ensures forall k :: 0 <= k < |r| ==>
      r[k] == if users[k].email == email then users[k].(password := password) else users[k]
  {
    seq(|users|, k requires 0 <= k < |users| => if users[k].email == email then users[k].(password := password) else users[k])
  }

  // ---------------------------------------------------------------------------
  // the database

  class Database {
    var users: seq<User>
    var sessions: map<string, Session>
    var resetTokens: seq<ResetRow>

    /** Unique addresses and ids, sessions stored under their own id, and every
        reset row addressed to an existing user. */
    ghost predicate Valid()
      reads this
    {
      && UniqueUsers(users)
      && (forall id :: id in sessions ==> sessions[id].id == id)
      && (forall k :: 0 <= k < |resetTokens| ==> UserByEmail(users, resetTokens[k].email).Some?)
    }

    constructor ()
      ensures Valid()
      ensures users == [] && sessions == map[] && resetTokens == []
    {
      users := [];
      sessions := map[];
      resetTokens := [];
    }

    /** `user.create`: the address and the id must be free. */
    method CreateUser(u: User)
      requires Valid()
      requires UserByEmail(users, u.email).None? && UserById(users, u.id).None?
      modifies this
      ensures Valid()
      ensures users == old(users) + [u]
      ensures sessions == old(sessions) && resetTokens == old(resetTokens)
    {
      ghost var before := users;
      users := users + [u];
      forall k | 0 <= k < |resetTokens|
        ensures UserByEmail(users, resetTokens[k].email).Some?
      {
        var e := resetTokens[k].email;
        var found := UserByEmail(before, e).value;
        var j :| 0 <= j < |before| && before[j] == found;
        assert users[j] == found;
      }
    }

    /** `user.update({ where: { email }, data: { password } })` on an existing
        address. */
    method UpdatePassword(email: string, password: string)
      requires Valid()
      requires UserByEmail(users, email).Some?
      modifies this
      ensures Valid()
      ensures users == SetPassword(old(users), email, password)
      ensures sessions == old(sessions) && resetTokens == old(resetTokens)
    {
      ghost var before := users;
      users := SetPassword(users, email, password);
      forall k | 0 <= k < |resetTokens|
        ensures UserByEmail(users, resetTokens[k].email).Some?
      {
        var e := resetTokens[k].email;
        var found := UserByEmail(before, e).value;
        var j :| 0 <= j < |before| && before[j] == found;
        assert users[j].email == e;
      }
    }

    /** `session.create` with a fresh id. */
    method CreateSession(s: Session)
      requires Valid()
      requires s.id !in sessions
      modifies this
      ensures Valid()
      ensures sessions == old(sessions)[s.id := s]
      ensures users == old(users) && resetTokens == old(resetTokens)
    {
      sessions := sessions[s.id := s];
    }

    /** `session.update({ where: { id }, data: { refreshToken } })`. */
    method UpdateRefreshToken(id: string, token: string)
      requires Valid()
      requires id in sessions
      modifies this
      ensures Valid()
      ensures sessions == old(sessions)[id := old(sessions)[id].(refreshToken := token)]
      ensures users == old(users) && resetTokens == old(resetTokens)
    {
      sessions := sessions[id := sessions[id].(refreshToken := token)];
    }

    /** `session.delete({ where: { id } })` on an existing session. */
    method DeleteSession(id: string)
      requires Valid()
      requires id in sessions
      modifies this
      ensures Valid()
      ensures sessions == old(sessions) - {id}
      ensures users == old(users) && resetTokens == old(resetTokens)
    {
      sessions := sessions - {id};
    }

    /** `session.deleteMany({ where: { userId, id: { not: keep } } })`. */
    method DeleteSessionsWhere(userId: Option<string>, keep: Option<string>)
      requires Valid()
      modifies this
      ensures Valid()
      ensures sessions == Surviving(old(sessions), userId, keep)
      ensures users == old(users) && resetTokens == old(resetTokens)
    {
      sessions := Surviving(sessions, userId, keep);
    }

    /** `passwordResetToken.create` for an address that has an account. */
    method CreateResetRow(row: ResetRow)
      requires Valid()
      requires UserByEmail(users, row.email).Some?
      modifies this
      ensures Valid()
      ensures resetTokens == old(resetTokens) + [row]
      ensures users == old(users) && sessions == old(sessions)
    {
      resetTokens := resetTokens + [row];
    }

    /** `passwordResetToken.deleteMany({ where: { email } })`. */
    method DeleteResetRows(email: string)
      requires Valid()
      modifies this
      ensures Valid()
      ensures resetTokens == RowsNotFor(old(resetTokens), email)
      ensures users == old(users) && sessions == old(sessions)
    {
      ghost var before := resetTokens;
      resetTokens := RowsNotFor(resetTokens, email);
      forall k | 0 <= k < |resetTokens|
        ensures UserByEmail(users, resetTokens[k].email).Some?
      {
        assert resetTokens[k] in before;
      }
    }
  }
}

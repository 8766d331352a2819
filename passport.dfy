/** The OAuth sign-in callbacks (server/src/config/passport.ts): find the
    account for the address the provider reports, refuse it when it belongs
    to another provider, and create it otherwise. One address, one account,
    one provider. The OAuth handshake itself is outside the model; the
    callbacks receive the profile it produced. */
module Passport {
  import opened Js
  import opened Store

  /** What a callback hands to `done`: a user, a refusal with a message
      (`done(null, false, { message })`), or an error (`done(err)`). */
  datatype Done = Authenticated(user: User) | Refused(message: string) | Errored(reason: string)

  /** The parts of a Google profile the callback reads. */
  datatype GoogleProfile = GoogleProfile(emails: Option<seq<string>>, givenName: Option<string>, familyName: Option<string>)

  /** The parts of a GitHub profile the callback reads. */
  datatype GitHubProfile = GitHubProfile(emails: Option<seq<string>>, displayName: Option<string>, username: Option<string>)

  /** The Google verify callback. A profile without addresses makes the lookup
      fail, which ends in `done(err)`. The address is used as given. */
  method GoogleVerify(db: Database, profile: GoogleProfile, newId: string, now: int) returns (d: Done)
    requires db.Valid()
    requires UserById(db.users, newId).None?
    modifies db
    ensures db.Valid()
    ensures db.sessions == old(db.sessions) && db.resetTokens == old(db.resetTokens)
    ensures profile.emails.None? || profile.emails.value == [] ==> d.Errored? && db.users == old(db.users)
    ensures d.Authenticated? ==> d.user.provider == "google" && d.user.email == profile.emails.value[0] && d.user in db.users
    ensures profile.emails.Some? && profile.emails.value != [] ==>
      var email := profile.emails.value[0];
      var found := UserByEmail(old(db.users), email);
      && (found.Some? && found.value.provider != "google" ==>
            d == Refused("Please login using " + found.value.provider) && db.users == old(db.users))
      && (found.Some? && found.value.provider == "google" ==>
            d == Authenticated(found.value) && db.users == old(db.users))
      && (found.None? ==>
            var created := User(newId, email, "", Or(profile.givenName, ""), Or(profile.familyName, ""), "google", now);
            d == Authenticated(created) && db.users == old(db.users) + [created])
  {
    if profile.emails.None? {
      return Errored("Argument `where` of type UserWhereUniqueInput needs at least one argument.");
    }
    if profile.emails.value == [] {
      return Errored("Cannot read properties of undefined (reading 'value')");
    }
    var email := profile.emails.value[0];
    var user := UserByEmail(db.users, email);
    if user.Some? && user.value.provider != "google" {
      return Refused("Please login using " + user.value.provider);
    }
    if user.None? {
      var created := User(newId, email, "", Or(profile.givenName, ""), Or(profile.familyName, ""), "google", now);
      db.CreateUser(created);
      return Authenticated(created);
    }
    d := Authenticated(user.value);
  }

  /** `const [firstName, ...rest] = fullName.split(" "); lastName = rest.join(" ")`. */
  function SplitDisplayName(fullName: string): (names: (string, string))
    ensures ' ' !in names.0
    ensures names.0 == fullName[..IndexOf(fullName, ' ')]
  {
    SplitPiecesFree(fullName, ' ');
    var parts := Split(fullName, ' ');
    (parts[0], Join(parts[1..], ' '))
  }

  /** The split loses nothing: with a space in the name, first name, a space
      and last name give the full name back; without one, the last name is
      empty and the first name is the whole name. */
  lemma SplitDisplayNameRoundTrip(fullName: string)
    ensures ' ' in fullName ==> SplitDisplayName(fullName).0 + " " + SplitDisplayName(fullName).1 == fullName
    ensures ' ' !in fullName ==> SplitDisplayName(fullName) == (fullName, "")
  {
    var i := IndexOf(fullName, ' ');
    IndexOfFinds(fullName, ' ');
    if i < |fullName| {
      JoinRest(fullName, ' ');
      assert fullName == fullName[..i] + " " + fullName[i + 1..];
    } else {
      assert Split(fullName, ' ') == [fullName];
    }
  }

  /** The GitHub verify callback. Lookup and creation both use the lowered
      address; the display name, else the user name, else "", is split into
      first and last name. */
  method GitHubVerify(db: Database, profile: GitHubProfile, newId: string, now: int) returns (d: Done)
    requires db.Valid()
    requires UserById(db.users, newId).None?
    modifies db
    ensures db.Valid()
    ensures db.sessions == old(db.sessions) && db.resetTokens == old(db.resetTokens)
    ensures profile.emails.None? || profile.emails.value == [] || profile.emails.value[0] == "" ==>
      d == Refused("Email not found") && db.users == old(db.users)
    ensures d.Authenticated? ==> d.user.provider == "github" && d.user.email == ToLower(profile.emails.value[0]) && d.user in db.users
    ensures profile.emails.Some? && profile.emails.value != [] && profile.emails.value[0] != "" ==>
      var email := ToLower(profile.emails.value[0]);
      var found := UserByEmail(old(db.users), email);
      && (found.Some? && found.value.provider != "github" ==>
            d == Refused("Please login with " + found.value.provider) && db.users == old(db.users))
      && (found.Some? && found.value.provider == "github" ==>
            d == Authenticated(found.value) && db.users == old(db.users))
      && (found.None? ==>
            var names := SplitDisplayName(Or(profile.displayName, Or(profile.username, "")));
            var created := User(newId, email, "", names.0, names.1, "github", now);
            d == Authenticated(created) && db.users == old(db.users) + [created])
  {
    if profile.emails.None? || profile.emails.value == [] || profile.emails.value[0] == "" {
      return Refused("Email not found");
    }
    var email := profile.emails.value[0];
    var user := UserByEmail(db.users, ToLower(email));
    if user.Some? && user.value.provider != "github" {
      return Refused("Please login with " + user.value.provider);
    }
    if user.None? {
      var fullName := Or(profile.displayName, Or(profile.username, ""));
      var names := SplitDisplayName(fullName);
      var created := User(newId, ToLower(email), "", names.0, names.1, "github", now);
      db.CreateUser(created);
      return Authenticated(created);
    }
    d := Authenticated(user.value);
  }

  /** An account created through GitHub is found again, as that GitHub
      account, when GitHub later reports the address in another letter case;
      so the next sign-in returns it and creates nothing. */
  lemma GitHubAddressCaseInsensitive(users: seq<User>, created: User, reported: string)
    requires UserByEmail(users, created.email).None?
    requires created.provider == "github"
    requires ToLower(reported) == created.email
    ensures UserByEmail(users + [created], ToLower(reported)) == Some(created)
    ensures UserByEmail(users + [created], ToLower(reported)).value.provider == "github"
  {
    UserByEmailAppend(users, created, ToLower(reported));
  }
}

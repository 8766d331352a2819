/** The request schemas of the server (server/src/utils/validation.ts):
    registration, login and change of password. Each string field runs its
    checks and transforms in chain order, so a length check sees the value as
    it was before a later `.trim()`. */
module ServerValidation {
  import opened Js
  import opened Zod

  /** `.trim()` alone. */
  const TrimOnly: seq<StringCheck> := [StringCheck.Trim]

  /** `.nonempty(message).trim()`. */
  function NonEmptyTrim(message: string): seq<StringCheck> {
    [Min(1, message)] + TrimOnly
  }

  /** `.nonempty(required).min(8, short).trim()`. */
  function AtLeastEightTrim(required: string, short: string): seq<StringCheck> {
    [Min(1, required)] + ([Min(8, short)] + TrimOnly)
  }

  /** `.nonempty(required).email(invalid).trim().toLowerCase()`. */
  function EmailChecks(required: string, invalid: string): seq<StringCheck> {
    [Min(1, required)] + ([Email(invalid)] + ([StringCheck.Trim] + [ToLowerCase]))
  }

  datatype RegisterData = RegisterData(firstName: string, lastName: string, email: string, password: string)
  datatype LoginData = LoginData(email: string, password: string, rememberMe: Option<bool>)
  datatype ChangePasswordData = ChangePasswordData(password: string, newPassword: string)

  lemma TrimOnlyChain(s: string, isEmail: string -> bool)
    ensures RunChecks(s, TrimOnly, isEmail) == Checked(Js.Trim(s), [])
  {
    RunTrim(s, [], isEmail);
    assert [StringCheck.Trim] + [] == TrimOnly;
  }

  lemma NonEmptyChain(s: string, message: string, isEmail: string -> bool)
    ensures RunChecks(s, NonEmptyTrim(message), isEmail) == Checked(Js.Trim(s), if |s| < 1 then [message] else [])
  {
    TrimOnlyChain(s, isEmail);
    RunMin(s, 1, message, TrimOnly, isEmail);
  }

  lemma EightTailChain(s: string, short: string, isEmail: string -> bool)
    ensures RunChecks(s, [Min(8, short)] + TrimOnly, isEmail) == Checked(Js.Trim(s), if |s| < 8 then [short] else [])
  {
    TrimOnlyChain(s, isEmail);
    RunMin(s, 8, short, TrimOnly, isEmail);
  }

  lemma AtLeastEightChain(s: string, required: string, short: string, isEmail: string -> bool)
    ensures RunChecks(s, AtLeastEightTrim(required, short), isEmail) ==
      Checked(Js.Trim(s), (if |s| < 1 then [required] else []) + (if |s| < 8 then [short] else []))
  {
    EightTailChain(s, short, isEmail);
    RunMin(s, 1, required, [Min(8, short)] + TrimOnly, isEmail);
  }

  lemma TrimLowerChain(s: string, isEmail: string -> bool)
    ensures RunChecks(s, [StringCheck.Trim] + [ToLowerCase], isEmail) == Checked(ToLower(Js.Trim(s)), [])
  {
    RunToLowerCase(Js.Trim(s), [], isEmail);
    assert [ToLowerCase] + [] == [ToLowerCase];
    RunTrim(s, [ToLowerCase], isEmail);
  }

  lemma EmailTailChain(s: string, invalid: string, isEmail: string -> bool)
    ensures RunChecks(s, [Email(invalid)] + ([StringCheck.Trim] + [ToLowerCase]), isEmail) ==
      Checked(ToLower(Js.Trim(s)), if isEmail(s) then [] else [invalid])
  {
    TrimLowerChain(s, isEmail);
    RunEmail(s, invalid, [StringCheck.Trim] + [ToLowerCase], isEmail);
  }

  lemma EmailChain(s: string, required: string, invalid: string, isEmail: string -> bool)
    ensures RunChecks(s, EmailChecks(required, invalid), isEmail) == Checked(
      ToLower(Js.Trim(s)),
      (if |s| < 1 then [required] else []) + (if isEmail(s) then [] else [invalid]))
  {
    EmailTailChain(s, invalid, isEmail);
    RunMin(s, 1, required, [Email(invalid)] + ([StringCheck.Trim] + [ToLowerCase]), isEmail);
  }

  /** A string field that must be non-empty and is then trimmed. */
  function NonEmptyField(j: Json, requiredError: Option<string>, message: string, isEmail: string -> bool): (f: Field<string>)
    ensures f.issues == [] <==> j.JString? && |j.s| >= 1
    ensures f.issues == [] ==> f.value == Some(Js.Trim(j.s))
    ensures j.JString? && j.s == "" ==> f.issues == [message]
  {
    if j.JString? then NonEmptyChain(j.s, message, isEmail); StringField(j, requiredError, NonEmptyTrim(message), isEmail)
    else StringField(j, requiredError, NonEmptyTrim(message), isEmail)
  }

  /** A string field that must hold at least eight characters before it is
      trimmed. */
  function LongField(j: Json, requiredError: Option<string>, required: string, short: string, isEmail: string -> bool): (f: Field<string>)
    ensures f.issues == [] <==> j.JString? && |j.s| >= 8
    ensures f.issues == [] ==> f.value == Some(Js.Trim(j.s))
  {
    if j.JString? then
      AtLeastEightChain(j.s, required, short, isEmail);
      StringField(j, requiredError, AtLeastEightTrim(required, short), isEmail)
    else
      StringField(j, requiredError, AtLeastEightTrim(required, short), isEmail)
  }

  /** The e-mail field: the address is checked as given, then trimmed and
      lowered. */
  function EmailField(j: Json, isEmail: string -> bool): (f: Field<string>)
    ensures f.issues == [] <==> j.JString? && |j.s| >= 1 && isEmail(j.s)
    ensures f.issues == [] ==> f.value == Some(ToLower(Js.Trim(j.s)))
  {
    var checks := EmailChecks("Email is required", "Invalid email format");
    if j.JString? then
      EmailChain(j.s, "Email is required", "Invalid email format", isEmail);
      StringField(j, Some("Email is required"), checks, isEmail)
    else StringField(j, Some("Email is required"), checks, isEmail)
  }

  /** The field `key` of an object holds a string exactly when `HasString`
      says so. */
  lemma GetString(body: Json, key: string)
    requires body.JObject?
    ensures Get(body, key).JString? <==> HasString(body, key)
    ensures HasString(body, key) ==> Get(body, key).s == StringAt(body, key)
  {
  }

  /** `registerSchema.safeParse(body)`. */
  function ParseRegister(body: Json, isEmail: string -> bool): (r: Parsed<RegisterData>)
    ensures r.Parsed? <==>
      && HasString(body, "firstName") && HasString(body, "lastName")
      && HasString(body, "email") && HasString(body, "password")
      && |StringAt(body, "firstName")| >= 1 && |StringAt(body, "lastName")| >= 1
      && |StringAt(body, "email")| >= 1 && isEmail(StringAt(body, "email"))
      && |StringAt(body, "password")| >= 8
    ensures r.Parsed? ==>
      && r.value.firstName == Js.Trim(StringAt(body, "firstName"))
      && r.value.lastName == Js.Trim(StringAt(body, "lastName"))
      && r.value.email == ToLower(Js.Trim(StringAt(body, "email")))
      && r.value.password == Js.Trim(StringAt(body, "password"))
    ensures r.Issues? ==> r.messages != []
  {
    if !body.JObject? then NotAnObject(body)
    else
      var first := NonEmptyField(Get(body, "firstName"), None, "firstName is required", isEmail);
      var last := NonEmptyField(Get(body, "lastName"), None, "lastName is required", isEmail);
      var email := EmailField(Get(body, "email"), isEmail);
      var password := LongField(Get(body, "password"), Some("Password is required"),
        "Password is required", "Password must be at least 8 characters", isEmail);
      GetString(body, "firstName");
      GetString(body, "lastName");
      GetString(body, "email");
      GetString(body, "password");
      var issues := first.issues + last.issues + email.issues + password.issues;
      if issues == [] then
        Parsed(RegisterData(first.value.value, last.value.value, email.value.value, password.value.value))
      else
        Issues(issues)
  }

  /** `loginSchema.safeParse(body)`: the password needs only to be non-empty. */
  function ParseLogin(body: Json, isEmail: string -> bool): (r: Parsed<LoginData>)
    ensures r.Parsed? <==>
      && HasString(body, "email") && HasString(body, "password")
      && |StringAt(body, "email")| >= 1 && isEmail(StringAt(body, "email"))
      && |StringAt(body, "password")| >= 1
      && (Get(body, "rememberMe").JUndefined? || Get(body, "rememberMe").JBool?)
    ensures r.Parsed? ==>
      && r.value.email == ToLower(Js.Trim(StringAt(body, "email")))
      && r.value.password == Js.Trim(StringAt(body, "password"))
      && r.value.rememberMe == (if Get(body, "rememberMe").JBool? then Some(Get(body, "rememberMe").b) else None)
    ensures r.Issues? ==> r.messages != []
  {
    if !body.JObject? then NotAnObject(body)
    else
      var email := EmailField(Get(body, "email"), isEmail);
      var password := NonEmptyField(Get(body, "password"), Some("Password is required"), "Password is required", isEmail);
      var remember := OptionalBoolean(Get(body, "rememberMe"));
      GetString(body, "email");
      GetString(body, "password");
      var issues := email.issues + password.issues + remember.issues;
      if issues == [] then
        Parsed(LoginData(email.value.value, password.value.value, remember.value.value))
      else
        Issues(issues)
  }

  /** `changePasswordSchema.safeParse(body)`. */
  function ParseChangePassword(body: Json, isEmail: string -> bool): (r: Parsed<ChangePasswordData>)
    ensures r.Parsed? <==>
      && HasString(body, "password") && HasString(body, "newPassword")
      && |StringAt(body, "password")| >= 1 && |StringAt(body, "newPassword")| >= 8
    ensures r.Parsed? ==>
      && r.value.password == Js.Trim(StringAt(body, "password"))
      && r.value.newPassword == Js.Trim(StringAt(body, "newPassword"))
    ensures r.Issues? ==> r.messages != []
  {
    if !body.JObject? then NotAnObject(body)
    else
      var current := NonEmptyField(Get(body, "password"), Some("Current Password is required"),
        "Current Password is required", isEmail);
      var next := LongField(Get(body, "newPassword"), Some("New Password is required"),
        "New Password is required", "New Password must be at least 8 characters", isEmail);
      GetString(body, "password");
      GetString(body, "newPassword");
      var issues := current.issues + next.issues;
      if issues == [] then Parsed(ChangePasswordData(current.value.value, next.value.value)) else Issues(issues)
  }

  /** Issues are reported in the order the schema declares its fields: an
      empty first name is the first issue whatever else is wrong. */
  lemma EmptyFirstNameReportedFirst(body: Json, isEmail: string -> bool)
    requires body.JObject? && "firstName" in body.fields && body.fields["firstName"] == JString("")
    ensures ParseRegister(body, isEmail).Issues?
    ensures ParseRegister(body, isEmail).messages[0] == "firstName is required"
  {
    assert Get(body, "firstName") == JString("");
  }

  /** Because the length check runs before the trim, eight spaces pass as a
      password and are stored as the empty string. */
  lemma BlankPasswordAccepted(body: Json, isEmail: string -> bool)
    requires HasString(body, "firstName") && |StringAt(body, "firstName")| >= 1
    requires HasString(body, "lastName") && |StringAt(body, "lastName")| >= 1
    requires HasString(body, "email") && |StringAt(body, "email")| >= 1 && isEmail(StringAt(body, "email"))
    requires HasString(body, "password") && StringAt(body, "password") == "        "
    ensures ParseRegister(body, isEmail).Parsed?
    ensures ParseRegister(body, isEmail).value.password == ""
  {
    var blank := StringAt(body, "password");
    assert AllWhitespace(blank);
    TrimAppendWhitespace("", blank);
    assert "" + blank == blank;
  }
}

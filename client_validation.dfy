/** The form schemas of the web client (client/src/utils/validationSchemas.ts):
    login, registration, the password-reset request and the password reset.
    The forms always hand the schemas values of the declared types, so every
    check of every field runs and every refinement runs; the issues come out
    in the order the schema declares its fields, refinements last. The e-mail
    pattern is not modelled: the schemas receive it as `isEmail`. */
module ClientValidation {
  import opened Js

  /** A validation issue: the field it is reported on and its message. */
  datatype Issue = Issue(path: string, message: string)

  datatype LoginForm = LoginForm(email: string, password: string, rememberMe: Option<bool>)

  datatype RegisterForm = RegisterForm(
    firstName: string,
    lastName: string,
    email: string,
    password: string,
    confirmPassword: string,
    acceptTerms: bool)

  datatype ResetRequestForm = ResetRequestForm(email: string)

  datatype ResetForm = ResetForm(password: string, confirmPassword: string)

  // ---------------------------------------------------------------------------
  // the password rule

  predicate IsUpper(c: char) { 'A' <= c <= 'Z' }
  predicate IsLower(c: char) { 'a' <= c <= 'z' }
  predicate IsDigit(c: char) { '0' <= c <= '9' }
  /** `[^A-Za-z0-9]`: anything that is not an ASCII letter or digit. */
  predicate IsSpecial(c: char) { !IsUpper(c) && !IsLower(c) && !IsDigit(c) }

  predicate HasUpper(s: string) { exists k :: 0 <= k < |s| && IsUpper(s[k]) }
  predicate HasLower(s: string) { exists k :: 0 <= k < |s| && IsLower(s[k]) }
  predicate HasDigit(s: string) { exists k :: 0 <= k < |s| && IsDigit(s[k]) }
  predicate HasSpecial(s: string) { exists k :: 0 <= k < |s| && IsSpecial(s[k]) }

  /** The password rule the registration and reset forms share. */
  predicate StrongPassword(p: string) {
    |p| >= 8 && HasUpper(p) && HasLower(p) && HasDigit(p) && HasSpecial(p)
  }

  /** The messages of the password chain, in chain order. */
  function PasswordMessages(p: string): (ms: seq<string>)
    ensures ms == [] <==> StrongPassword(p)
    ensures |ms| <= 5
  {
    (if |p| < 8 then ["Password must be at least 8 characters"] else [])
    + (if HasUpper(p) then [] else ["Password must contain at least one uppercase letter"])
    + (if HasLower(p) then [] else ["Password must contain at least one lowercase letter"])
    + (if HasDigit(p) then [] else ["Password must contain at least one number"])
    + (if HasSpecial(p) then [] else ["Password must contain at least one special character"])
  }

  /** A password without a special character never passes, whatever its
      length: one made only of letters and digits is always refused. */
  lemma LettersAndDigitsNeverPass(p: string)
    requires forall k :: 0 <= k < |p| ==> !IsSpecial(p[k])
    ensures !StrongPassword(p)
  {
  }

  /** The issues of one field. */
  function At(path: string, messages: seq<string>): (issues: seq<Issue>)
    ensures |issues| == |messages|
    ensures forall k :: 0 <= k < |issues| ==> issues[k] == Issue(path, messages[k])
  {
    seq(|messages|, k requires 0 <= k < |messages| => Issue(path, messages[k]))
  }

  /** The messages reported on `path`, in order. */
  function MessagesOn(issues: seq<Issue>, path: string): (ms: seq<string>)
    ensures |ms| <= |issues|
  {
    if issues == [] then []
    else (if issues[0].path == path then [issues[0].message] else []) + MessagesOn(issues[1..], path)
  }

  lemma {:induction false} MessagesOnAppend(a: seq<Issue>, b: seq<Issue>, path: string)
    ensures MessagesOn(a + b, path) == MessagesOn(a, path) + MessagesOn(b, path)
    decreases |a|
  {
    if a == [] {
      assert a + b == b;
    } else {
      var ab := a + b;
      assert ab[0] == a[0];
      assert ab[1..] == a[1..] + b;
      MessagesOnAppend(a[1..], b, path);
      assert MessagesOn(ab, path) == (if a[0].path == path then [a[0].message] else []) + MessagesOn(a[1..] + b, path);
    }
  }

  lemma {:induction false} MessagesOnAt(path: string, messages: seq<string>, wanted: string)
    ensures MessagesOn(At(path, messages), wanted) == if path == wanted then messages else []
    decreases |messages|
  {
    if messages != [] {
      var issues := At(path, messages);
      assert issues[1..] == At(path, messages[1..]);
      MessagesOnAt(path, messages[1..], wanted);
    }
  }

  // ---------------------------------------------------------------------------
  // the schemas

  /** `emailSchema`: required, then a valid address. */
  function EmailMessages(email: string, isEmail: string -> bool): (ms: seq<string>)
    ensures ms == [] <==> |email| >= 1 && isEmail(email)
  {
    (if |email| < 1 then ["Email is required"] else [])
    + (if isEmail(email) then [] else ["Please enter a valid email address"])
  }

  function Required(value: string, message: string): (ms: seq<string>)
    ensures ms == [] <==> value != ""
  {
    if |value| < 1 then [message] else []
  }

  const Mismatch := Issue("confirmPassword", "Passwords don't match")

  /** `loginSchema`. */
  function LoginIssues(form: LoginForm, isEmail: string -> bool): (issues: seq<Issue>)
    ensures issues == [] <==> |form.email| >= 1 && isEmail(form.email) && form.password != ""
  {
    At("email", EmailMessages(form.email, isEmail)) + At("password", Required(form.password, "Password is required"))
  }

  /** The registration fields checked before the password. */
  function RegisterHead(form: RegisterForm, isEmail: string -> bool): (issues: seq<Issue>)
    ensures issues == [] <==>
      form.firstName != "" && form.lastName != "" && |form.email| >= 1 && isEmail(form.email)
  {
    At("firstName", Required(form.firstName, "First name is required"))
    + At("lastName", Required(form.lastName, "Last name is required"))
    + At("email", EmailMessages(form.email, isEmail))
  }

  /** The registration checks after the password: its confirmation, the
      terms, and the agreement of the two passwords. */
  function RegisterTail(form: RegisterForm): (issues: seq<Issue>)
    ensures issues == [] <==> form.confirmPassword != "" && form.acceptTerms && form.password == form.confirmPassword
    ensures (issues != [] && issues[|issues| - 1] == Mismatch) <==> form.password != form.confirmPassword
  {
    At("confirmPassword", Required(form.confirmPassword, "Confirm your password"))
    + At("acceptTerms", if form.acceptTerms then [] else ["You must accept the terms and conditions"])
    + (if form.password == form.confirmPassword then [] else [Mismatch])
  }

  /** `registerSchemaWithConfirmation`: the field checks, then the check that
      both passwords agree. */
  function RegisterIssues(form: RegisterForm, isEmail: string -> bool): (issues: seq<Issue>)
    ensures issues == [] <==>
      && form.firstName != "" && form.lastName != ""
      && |form.email| >= 1 && isEmail(form.email)
      && StrongPassword(form.password)
      && form.confirmPassword != ""
      && form.acceptTerms
      && form.password == form.confirmPassword
    ensures (issues != [] && issues[|issues| - 1] == Mismatch) <==> form.password != form.confirmPassword
  {
    RegisterHead(form, isEmail) + At("password", PasswordMessages(form.password)) + RegisterTail(form)
  }

  /** `requestPasswordResetSchema`. */
  function ResetRequestIssues(form: ResetRequestForm, isEmail: string -> bool): (issues: seq<Issue>)
    ensures issues == [] <==> |form.email| >= 1 && isEmail(form.email)
  {
    At("email", EmailMessages(form.email, isEmail))
  }

  /** The reset checks after the password: its confirmation and the
      agreement of the two passwords. */
  function ResetTail(form: ResetForm): (issues: seq<Issue>)
    ensures issues == [] <==> form.confirmPassword != "" && form.password == form.confirmPassword
    ensures (issues != [] && issues[|issues| - 1] == Mismatch) <==> form.password != form.confirmPassword
  {
    At("confirmPassword", Required(form.confirmPassword, "Confirm your password"))
    + (if form.password == form.confirmPassword then [] else [Mismatch])
  }

  /** `passwordResetSchema`. */
  function ResetIssues(form: ResetForm): (issues: seq<Issue>)
    ensures issues == [] <==>
      StrongPassword(form.password) && form.confirmPassword != "" && form.password == form.confirmPassword
    ensures (issues != [] && issues[|issues| - 1] == Mismatch) <==> form.password != form.confirmPassword
  {
    At("password", PasswordMessages(form.password)) + ResetTail(form)
  }

  lemma {:induction false} NoneOnPassword(a: seq<Issue>, b: seq<Issue>)
    requires MessagesOn(a, "password") == [] && MessagesOn(b, "password") == []
    ensures MessagesOn(a + b, "password") == []
  {
    MessagesOnAppend(a, b, "password");
  }

  lemma RefineNotOnPassword(refine: seq<Issue>)
    requires refine == [] || refine == [Mismatch]
    ensures MessagesOn(refine, "password") == []
  {
    if refine != [] {
      assert refine[1..] == [];
    }
  }

  /** The registration issues before the password field report nothing on it. */
  lemma RegisterBeforePassword(r: RegisterForm, isEmail: string -> bool)
    ensures MessagesOn(RegisterHead(r, isEmail), "password") == []
  {
    MessagesOnAt("firstName", Required(r.firstName, "First name is required"), "password");
    MessagesOnAt("lastName", Required(r.lastName, "Last name is required"), "password");
    MessagesOnAt("email", EmailMessages(r.email, isEmail), "password");
    NoneOnPassword(At("firstName", Required(r.firstName, "First name is required")),
      At("lastName", Required(r.lastName, "Last name is required")));
    NoneOnPassword(At("firstName", Required(r.firstName, "First name is required"))
      + At("lastName", Required(r.lastName, "Last name is required")),
      At("email", EmailMessages(r.email, isEmail)));
  }

  /** Neither do the issues after it. */
  lemma RegisterAfterPassword(r: RegisterForm)
    ensures MessagesOn(RegisterTail(r), "password") == []
  {
    var confirm := At("confirmPassword", Required(r.confirmPassword, "Confirm your password"));
    var terms := At("acceptTerms", if r.acceptTerms then [] else ["You must accept the terms and conditions"]);
    MessagesOnAt("confirmPassword", Required(r.confirmPassword, "Confirm your password"), "password");
    MessagesOnAt("acceptTerms", if r.acceptTerms then [] else ["You must accept the terms and conditions"], "password");
    RefineNotOnPassword(if r.password == r.confirmPassword then [] else [Mismatch]);
    NoneOnPassword(confirm, terms);
    NoneOnPassword(confirm + terms, if r.password == r.confirmPassword then [] else [Mismatch]);
  }

  /** Registration reports on the password field exactly the messages of the
      password rule. */
  lemma RegisterPasswordMessages(r: RegisterForm, isEmail: string -> bool)
    ensures MessagesOn(RegisterIssues(r, isEmail), "password") == PasswordMessages(r.password)
  {
    var head := RegisterHead(r, isEmail);
    var pw := At("password", PasswordMessages(r.password));
    var tail := RegisterTail(r);
    RegisterBeforePassword(r, isEmail);
    RegisterAfterPassword(r);
    MessagesOnAt("password", PasswordMessages(r.password), "password");
    MessagesOnAppend(head, pw, "password");
    MessagesOnAppend(head + pw, tail, "password");
  }

  /** So does the reset form. */
  lemma ResetPasswordMessages(s: ResetForm)
    ensures MessagesOn(ResetIssues(s), "password") == PasswordMessages(s.password)
  {
    var pw := At("password", PasswordMessages(s.password));
    var confirm := At("confirmPassword", Required(s.confirmPassword, "Confirm your password"));
    var refine: seq<Issue> := if s.password == s.confirmPassword then [] else [Mismatch];
    MessagesOnAt("password", PasswordMessages(s.password), "password");
    MessagesOnAt("confirmPassword", Required(s.confirmPassword, "Confirm your password"), "password");
    RefineNotOnPassword(refine);
    NoneOnPassword(confirm, refine);
    assert ResetTail(s) == confirm + refine;
    MessagesOnAppend(pw, ResetTail(s), "password");
  }

  /** Registration and reset report the very same messages on the password
      field for the same password. */
  lemma SamePasswordRule(r: RegisterForm, s: ResetForm, isEmail: string -> bool)
    requires r.password == s.password
    ensures MessagesOn(RegisterIssues(r, isEmail), "password") == MessagesOn(ResetIssues(s), "password")
  {
    RegisterPasswordMessages(r, isEmail);
    ResetPasswordMessages(s);
  }
}

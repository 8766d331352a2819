/** The part of the zod schema library the request schemas use: JSON request
    bodies, string fields whose checks and transforms run in chain order,
    optional booleans and object schemas that collect the issues of their
    fields in declaration order. The e-mail pattern of `.email()` is not
    modelled: schemas receive it as the predicate `isEmail`. */
module Zod {
  import opened Js

  /** A parsed JSON request body; `JUndefined` is an absent value. */
  datatype Json =
    | JUndefined
    | JNull
    | JBool(b: bool)
    | JNumber(n: int)
    | JString(s: string)
    | JArray(items: seq<Json>)
    | JObject(fields: map<string, Json>)

  /** zod's name for the type of a value, as it appears in its messages. */
  function TypeName(j: Json): string {
    match j
    case JUndefined => "undefined"
    case JNull => "null"
    case JBool(_) => "boolean"
    case JNumber(_) => "number"
    case JString(_) => "string"
    case JArray(_) => "array"
    case JObject(_) => "object"
  }

  /** The property `key` of an object; a missing property reads as undefined. */
  function Get(j: Json, key: string): (v: Json)
    requires j.JObject?
    ensures key !in j.fields ==> v.JUndefined?
  {
    if key in j.fields then j.fields[key] else JUndefined
  }

  /** The message of an `invalid_type` issue: a missing value is "Required"
      unless the schema names a `required_error`. */
  function InvalidTypeMessage(expected: string, j: Json, requiredError: Option<string>): (m: string)
    ensures !j.JUndefined? ==> m == "Expected " + expected + ", received " + TypeName(j)
  {
    if j.JUndefined? then (if requiredError.Some? then requiredError.value else "Required")
    else "Expected " + expected + ", received " + TypeName(j)
  }

  /** One link of a `z.string()` chain: `.min(n, message)` (`.nonempty` is
      `.min(1)`), `.email(message)`, `.trim()` and `.toLowerCase()`. */
  datatype StringCheck =
    | Min(length: nat, message: string)
    | Email(message: string)
    | Trim
    | ToLowerCase

  datatype Checked = Checked(value: string, issues: seq<string>)

  /** Runs the chain in order on the current value: a failed check adds its
      message and parsing continues, a transform replaces the value that later
      links see. */
  function RunChecks(s: string, checks: seq<StringCheck>, isEmail: string -> bool): (c: Checked)
    decreases |checks|
  {
    if checks == [] then Checked(s, [])
    else
      match checks[0]
      case Min(n, m) =>
        var rest := RunChecks(s, checks[1..], isEmail);
        Checked(rest.value, (if |s| < n then [m] else []) + rest.issues)
      case Email(m) =>
        var rest := RunChecks(s, checks[1..], isEmail);
        Checked(rest.value, (if isEmail(s) then [] else [m]) + rest.issues)
      case Trim => RunChecks(Js.Trim(s), checks[1..], isEmail)
      case ToLowerCase => RunChecks(ToLower(s), checks[1..], isEmail)
  }

  /** One step of `RunChecks` for each kind of link. */
  lemma RunMin(s: string, n: nat, m: string, rest: seq<StringCheck>, isEmail: string -> bool)
    ensures RunChecks(s, [Min(n, m)] + rest, isEmail) ==
      Checked(RunChecks(s, rest, isEmail).value, (if |s| < n then [m] else []) + RunChecks(s, rest, isEmail).issues)
  {
    assert ([Min(n, m)] + rest)[1..] == rest;
  }

  lemma RunEmail(s: string, m: string, rest: seq<StringCheck>, isEmail: string -> bool)
    ensures RunChecks(s, [Email(m)] + rest, isEmail) ==
      Checked(RunChecks(s, rest, isEmail).value, (if isEmail(s) then [] else [m]) + RunChecks(s, rest, isEmail).issues)
  {
    assert ([Email(m)] + rest)[1..] == rest;
  }

  lemma RunTrim(s: string, rest: seq<StringCheck>, isEmail: string -> bool)
    ensures RunChecks(s, [Trim] + rest, isEmail) == RunChecks(Js.Trim(s), rest, isEmail)
  {
    assert ([Trim] + rest)[1..] == rest;
  }

  lemma RunToLowerCase(s: string, rest: seq<StringCheck>, isEmail: string -> bool)
    ensures RunChecks(s, [ToLowerCase] + rest, isEmail) == RunChecks(ToLower(s), rest, isEmail)
  {
    assert ([ToLowerCase] + rest)[1..] == rest;
  }

  /** The value a chain produces when only its transforms are applied, in
      order, and its checks are skipped. */
  function Transformed(s: string, checks: seq<StringCheck>): string
    decreases |checks|
  {
    if checks == [] then s
    else
      match checks[0]
      case Trim => Transformed(Js.Trim(s), checks[1..])
      case ToLowerCase => Transformed(ToLower(s), checks[1..])
      case _ => Transformed(s, checks[1..])
  }

  /** Checks never change the value: the value a chain produces is its input
      with the transforms applied in order, whatever the checks find. A chain
      without transforms keeps its input. */
  lemma {:induction false} ChainValue(s: string, checks: seq<StringCheck>, isEmail: string -> bool)
    ensures RunChecks(s, checks, isEmail).value == Transformed(s, checks)
    ensures (forall k :: 0 <= k < |checks| ==> checks[k].Min? || checks[k].Email?) ==>
      RunChecks(s, checks, isEmail).value == s
    decreases |checks|
  {
    if checks != [] {
      match checks[0]
      case Trim => ChainValue(Js.Trim(s), checks[1..], isEmail);
      case ToLowerCase => ChainValue(ToLower(s), checks[1..], isEmail);
      case _ => ChainValue(s, checks[1..], isEmail);
    }
  }

  /** A field of an object schema: its value when it has the right type, and
      its issues. */
  datatype Field<T> = Field(value: Option<T>, issues: seq<string>)

  /** `z.string({ required_error })` followed by `checks`. */
  function StringField(j: Json, requiredError: Option<string>, checks: seq<StringCheck>, isEmail: string -> bool): (f: Field<string>)
    ensures f.value.Some? <==> j.JString?
    ensures f.value.None? ==> f.issues == [InvalidTypeMessage("string", j, requiredError)]
    ensures j.JString? ==> f == Field(Some(RunChecks(j.s, checks, isEmail).value), RunChecks(j.s, checks, isEmail).issues)
  {
    if j.JString? then
      var c := RunChecks(j.s, checks, isEmail);
      Field(Some(c.value), c.issues)
    else
      Field(None, [InvalidTypeMessage("string", j, requiredError)])
  }

  /** `z.boolean().optional()`: undefined passes as `None`. */
  function OptionalBoolean(j: Json): (f: Field<Option<bool>>)
    ensures f.issues == [] <==> (j.JUndefined? || j.JBool?)
    ensures f.issues == [] ==> f.value == Some(if j.JBool? then Some(j.b) else None)
  {
    match j
    case JUndefined => Field(Some(None), [])
    case JBool(b) => Field(Some(Some(b)), [])
    case _ => Field(None, [InvalidTypeMessage("boolean", j, None)])
  }

  /** The outcome of `schema.safeParse(data)`. */
  datatype Parsed<T> = Parsed(value: T) | Issues(messages: seq<string>)

  /** The single issue of an object schema given something that is not an
      object. */
  function NotAnObject<T>(j: Json): (r: Parsed<T>)
    requires !j.JObject?
    ensures r.Issues? && |r.messages| == 1
  {
    Issues([InvalidTypeMessage("object", j, None)])
  }

  /** The body holds a string under `key`. */
  predicate HasString(body: Json, key: string) {
    body.JObject? && key in body.fields && body.fields[key].JString?
  }

  /** That string. */
  function StringAt(body: Json, key: string): string
    requires HasString(body, key)
  {
    body.fields[key].s
  }
}

/** The JavaScript values and string built-ins the authentication code relies on:
    optional values and `a || b` fallbacks, `String.prototype.trim`,
    `toLowerCase`, `split`/`join` on a one-character separator and `replace`
    with a string pattern. Every other module builds on these. */
module Js {

  datatype Option<+T> = None | Some(value: T)

  datatype Result<+T, +E> = Success(value: T) | Failure(error: E)

  /** An optional string is truthy exactly when it is present and non-empty. */
  predicate Truthy(v: Option<string>) {
    v.Some? && v.value != ""
  }

  /** `v || fallback` for an optional string. */
  function Or(v: Option<string>, fallback: string): (r: string)
    ensures Truthy(v) ==> r == v.value
    ensures !Truthy(v) ==> r == fallback
  {
    if Truthy(v) then v.value else fallback
  }

  /** `${v}` for an optional string: an absent value prints as "undefined". */
  function Interpolate(v: Option<string>): (r: string)
    ensures v.Some? ==> r == v.value
  {
    if v.Some? then v.value else "undefined"
  }

  // ---------------------------------------------------------------------------
  // trim

  /** The characters `String.prototype.trim` removes: the white space and line
      terminators of ECMAScript (section 12.2 and 12.3 of ECMA-262). */
  predicate IsWhitespace(c: char) {
    || c == ' ' || c == '\t' || c == '\n' || c == '\r'
    || c == '\U{000B}' || c == '\U{000C}' || c == '\U{00A0}' || c == '\U{1680}'
    || ('\U{2000}' <= c <= '\U{200A}')
    || c == '\U{2028}' || c == '\U{2029}' || c == '\U{202F}' || c == '\U{205F}'
    || c == '\U{3000}' || c == '\U{FEFF}'
  }

  predicate AllWhitespace(s: string) {
    forall k :: 0 <= k < |s| ==> IsWhitespace(s[k])
  }

  /** Neither the first nor the last character is white space. */
  predicate Clean(s: string) {
    s == [] || (!IsWhitespace(s[0]) && !IsWhitespace(s[|s| - 1]))
  }

  /** Drops the leading white space: the result is the suffix of `s` that
      starts at its first non-white-space character. */
  function TrimStart(s: string): (r: string)
    ensures |r| <= |s| && r == s[|s| - |r|..]
    ensures AllWhitespace(s[..|s| - |r|])
    ensures r == [] || !IsWhitespace(r[0])
    decreases |s|
  {
    if |s| > 0 && IsWhitespace(s[0]) then
      var r := TrimStart(s[1..]);
      assert s[1..][|s| - 1 - |r|..] == s[|s| - |r|..];
      assert s[..|s| - |r|] == [s[0]] + s[1..][..|s| - 1 - |r|];
      r
    else s
  }

  /** Drops the trailing white space: the result is the prefix of `s` that
      ends at its last non-white-space character. */
  function TrimEnd(s: string): (r: string)
    ensures |r| <= |s| && r == s[..|r|]
    ensures AllWhitespace(s[|r|..])
    ensures r == [] || !IsWhitespace(r[|r| - 1])
    decreases |s|
  {
    if |s| > 0 && IsWhitespace(s[|s| - 1]) then
      var r := TrimEnd(s[..|s| - 1]);
      assert s[..|s| - 1][..|r|] == s[..|r|];
      assert s[|r|..] == s[..|s| - 1][|r|..] + [s[|s| - 1]];
      r
    else s
  }

  /** `s.trim()`: the slice of `s` between its leading and its trailing white
      space, which itself neither starts nor ends with white space. */
  function Trim(s: string): (r: string)
    ensures Clean(r)
    ensures |r| <= |s|
  {
    TrimEnd(TrimStart(s))
  }

  /** Trimming a string that is already clean leaves it as it is; in
      particular trimming is idempotent. */
  lemma TrimClean(s: string)
    requires Clean(s)
    ensures Trim(s) == s
  {
    assert TrimStart(s) == s;
  }

  lemma TrimIdempotent(s: string)
    ensures Trim(Trim(s)) == Trim(s)
  {
    TrimClean(Trim(s));
  }

  /** A slice holds nothing its string does not. */
  lemma SliceAvoids(s: string, c: char, i: nat, j: nat)
    requires c !in s && i <= j <= |s|
    ensures c !in s[i..j]
  {
    forall k | 0 <= k < j - i
      ensures s[i..j][k] != c
    {
      assert s[i..j][k] == s[i + k];
    }
  }

  /** Trimming adds no character: whatever is absent from `s` is absent from
      `s.trim()`. */
  lemma TrimAddsNothing(s: string, c: char)
    requires c !in s
    ensures c !in Trim(s)
  {
    var t := TrimStart(s);
    SliceAvoids(s, c, |s| - |t|, |s|);
    SliceAvoids(t, c, 0, |TrimEnd(t)|);
  }

  /** White space appended to a string is lost by `TrimEnd`. */
  lemma {:induction false} TrimEndAppend(t: string, w: string)
    requires AllWhitespace(w)
    ensures TrimEnd(t + w) == TrimEnd(t)
    decreases |w|
  {
    if w != [] {
      var w' := w[..|w| - 1];
      assert (t + w)[..|t + w| - 1] == t + w';
      assert IsWhitespace((t + w)[|t + w| - 1]);
      assert TrimEnd(t + w) == TrimEnd(t + w');
      TrimEndAppend(t, w');
    } else {
      assert t + w == t;
    }
  }

  /** White space appended to a string that is not all white space is kept by
      `TrimStart`. */
  lemma {:induction false} TrimStartAppend(t: string, w: string)
    requires AllWhitespace(w)
    requires TrimStart(t) != []
    ensures TrimStart(t + w) == TrimStart(t) + w
    decreases |t|
  {
    assert t != [];
    if IsWhitespace(t[0]) {
      assert (t + w)[1..] == t[1..] + w;
      TrimStartAppend(t[1..], w);
    }
  }

  /** Trailing white space never survives a trim: `(t + w).trim() == t.trim()`. */
  lemma TrimAppendWhitespace(t: string, w: string)
    requires AllWhitespace(w)
    ensures Trim(t + w) == Trim(t)
  {
    if TrimStart(t) == [] {
      assert t[..|t|] == t;
      assert AllWhitespace(t + w);
    } else {
      TrimStartAppend(t, w);
      TrimEndAppend(TrimStart(t), w);
    }
  }

  // ---------------------------------------------------------------------------
  // toLowerCase

  function ToLowerChar(c: char): char {
    if 'A' <= c <= 'Z' then (c as int + 32) as char else c
  }

  predicate IsUpperAscii(c: char) {
    'A' <= c <= 'Z'
  }

  /** `s.toLowerCase()` on the ASCII letters: every upper-case ASCII letter is
      replaced by its lower-case partner and nothing else changes. */
  function ToLower(s: string): (r: string)
    ensures |r| == |s|
    ensures forall k :: 0 <= k < |s| ==> r[k] == ToLowerChar(s[k])
  {
    seq(|s|, k requires 0 <= k < |s| => ToLowerChar(s[k]))
  }

  /** Lowering leaves no upper-case ASCII letter behind, and lowering twice is
      lowering once. */
  lemma ToLowerNormal(s: string)
    ensures forall k :: 0 <= k < |s| ==> !IsUpperAscii(ToLower(s)[k])
    ensures ToLower(ToLower(s)) == ToLower(s)
  {
  }

  // ---------------------------------------------------------------------------
  // split and join on a one-character separator

  /** Index of the first `c` in `s`, or `|s|` when there is none. */
  function IndexOf(s: string, c: char): (i: nat)
    ensures i <= |s|
    ensures i < |s| ==> s[i] == c
    ensures forall k :: 0 <= k < i ==> s[k] != c
    decreases |s|
  {
    if s == [] then 0 else if s[0] == c then 0 else 1 + IndexOf(s[1..], c)
  }

  /** `s.split(c)`: the maximal pieces of `s` that do not contain `c`, in
      order; the empty string splits into one empty piece. */
  function Split(s: string, c: char): (parts: seq<string>)
    ensures |parts| >= 1
    ensures parts[0] == s[..IndexOf(s, c)]
    decreases |s|
  {
    var i := IndexOf(s, c);
    if i == |s| then [s] else [s[..i]] + Split(s[i + 1..], c)
  }

  /** `parts.join(c)`. */
  function Join(parts: seq<string>, c: char): (s: string)
  {
    if parts == [] then "" else if |parts| == 1 then parts[0] else parts[0] + [c] + Join(parts[1..], c)
  }

  /** No piece of a split holds the separator. */
  lemma {:induction false} SplitPiecesFree(s: string, c: char)
    ensures forall p :: p in Split(s, c) ==> c !in p
    decreases |s|
  {
    var i := IndexOf(s, c);
    if i < |s| {
      SplitPiecesFree(s[i + 1..], c);
    }
  }

  /** Joining the pieces of a split with the same separator gives the string
      back. */
  lemma {:induction false} JoinSplit(s: string, c: char)
    ensures Join(Split(s, c), c) == s
    decreases |s|
  {
    var i := IndexOf(s, c);
    if i < |s| {
      var rest := Split(s[i + 1..], c);
      JoinSplit(s[i + 1..], c);
      assert Split(s, c) == [s[..i]] + rest;
      assert Split(s, c)[1..] == rest;
      assert s == s[..i] + [c] + s[i + 1..];
    }
  }

  /** The separator occurs exactly when `IndexOf` finds it. */
  lemma IndexOfFinds(s: string, c: char)
    ensures IndexOf(s, c) < |s| <==> c in s
  {
    if c in s {
      var k :| 0 <= k < |s| && s[k] == c;
      assert IndexOf(s, c) <= k;
    }
  }

  /** Joining all pieces but the first gives back the text after the first
      separator. */
  lemma JoinRest(s: string, c: char)
    requires IndexOf(s, c) < |s|
    ensures Join(Split(s, c)[1..], c) == s[IndexOf(s, c) + 1..]
  {
    var i := IndexOf(s, c);
    assert Split(s, c)[1..] == Split(s[i + 1..], c);
    JoinSplit(s[i + 1..], c);
  }

  /** The first piece of a split is the longest prefix without the separator:
      it is followed by the separator or by the end of the string. */
  lemma SplitFirstPiece(s: string, c: char)
    ensures var p := Split(s, c)[0];
      && p == s[..|p|] && c !in p
      && (|p| < |s| ==> s[|p|] == c)
  {
  }

  // ---------------------------------------------------------------------------
  // replace with a string pattern

  predicate OccursAt(p: string, s: string, i: nat) {
    i + |p| <= |s| && s[i..i + |p|] == p
  }

  /** An occurrence after the first character is an occurrence in the rest. */
  lemma OccursShift(p: string, s: string, i: nat)
    requires |s| > 0
    ensures OccursAt(p, s, i + 1) <==> OccursAt(p, s[1..], i)
  {
    if i + 1 + |p| <= |s| {
      assert s[1..][i..i + |p|] == s[i + 1..i + 1 + |p|];
    }
  }

  /** `p` occurs at `i` and nowhere before. */
  predicate FirstAt(p: string, s: string, i: nat) {
    OccursAt(p, s, i) && forall j: nat :: j < i ==> !OccursAt(p, s, j)
  }

  /** Past a first character where `p` does not start, the first occurrence
      in `s` is the first occurrence in the rest, one place earlier. */
  lemma FirstAtShift(p: string, s: string, i: nat)
    requires |s| > 0 && !OccursAt(p, s, 0) && FirstAt(p, s, i)
    ensures i > 0 && FirstAt(p, s[1..], i - 1)
  {
    OccursShift(p, s, i - 1);
    forall j: nat | j < i - 1 ensures !OccursAt(p, s[1..], j) {
      OccursShift(p, s, j);
    }
  }

  /** Without an occurrence in `s` there is none in its rest. */
  lemma NoneShift(p: string, s: string)
    requires |s| > 0 && forall i: nat :: !OccursAt(p, s, i)
    ensures forall i: nat :: !OccursAt(p, s[1..], i)
  {
    forall i: nat ensures !OccursAt(p, s[1..], i) {
      OccursShift(p, s, i);
    }
  }

  /** How removing from the rest of `s` removes from `s` when `p` does not
      start at its first character. */
  lemma RemoveFirstCons(p: string, s: string, rest: string)
    requires |s| > 0 && !OccursAt(p, s, 0)
    requires forall i: nat :: FirstAt(p, s[1..], i) ==> rest == s[1..][..i] + s[1..][i + |p|..]
    requires (forall i: nat :: !OccursAt(p, s[1..], i)) ==> rest == s[1..]
    ensures forall i: nat :: FirstAt(p, s, i) ==> [s[0]] + rest == s[..i] + s[i + |p|..]
    ensures (forall i: nat :: !OccursAt(p, s, i)) ==> [s[0]] + rest == s
  {
    forall i: nat | FirstAt(p, s, i) ensures [s[0]] + rest == s[..i] + s[i + |p|..] {
      FirstAtShift(p, s, i);
      assert s[..i] == [s[0]] + s[1..][..i - 1];
      assert s[i + |p|..] == s[1..][i - 1 + |p|..];
    }
    if forall i: nat :: !OccursAt(p, s, i) {
      NoneShift(p, s);
    }
  }

  /** `s.replace(p, "")` for a non-empty string pattern: the first occurrence
      of `p`, wherever it is, is removed; without one the string is kept. */
  function RemoveFirst(s: string, p: string): (r: string)
    requires p != []
    ensures OccursAt(p, s, 0) ==> r == s[|p|..]
    ensures forall i: nat :: FirstAt(p, s, i) ==> r == s[..i] + s[i + |p|..]
    ensures (forall i: nat :: !OccursAt(p, s, i)) ==> r == s
    decreases |s|
  {
    if |s| < |p| then s
    else if s[..|p|] == p then assert OccursAt(p, s, 0); s[|p|..]
    else
      var rest := RemoveFirst(s[1..], p);
      RemoveFirstCons(p, s, rest);
      [s[0]] + rest
  }
}

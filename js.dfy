/** The few pieces of JavaScript semantics the application relies on:
    optional values, thrown values, truthiness, and the string operations
    `trim`, `toLowerCase`, `includes`, `startsWith` and `length`. */
module Js {

  datatype Option<+T> = None | Some(value: T)

  datatype Result<+T, +E> = Ok(value: T) | Err(error: E)

  /** A value caught by a `catch` block: an `Error` object, which carries a
      message and, for database errors, a code; or any other thrown value. */
  datatype Thrown = ErrorObject(message: string, code: Option<string>) | NonError

  /** The code of a caught value, as `error.code` reads it. */
  function CodeOf(e: Thrown): Option<string>
  {
    match e
    case ErrorObject(_, code) => code
    case NonError => None
  }

  /** A decoded JSON scalar (or a missing property). Numbers are kept as
      reals; the application never computes with them. */
  datatype JsonValue = Undefined | Null | Bool(b: bool) | Num(x: real) | Str(s: string)

  /** JavaScript truthiness: `undefined`, `null`, `false`, `0` and `""` are falsy. */
  predicate Truthy(v: JsonValue)
  {
    match v
    case Undefined => false
    case Null => false
    case Bool(b) => b
    case Num(x) => x != 0.0
    case Str(s) => s != ""
  }

  /** Template-literal rendering `${v}`; how a number prints is left to `numberText`. */
  function ToText(v: JsonValue, numberText: real -> string): string
  {
    match v
    case Undefined => "undefined"
    case Null => "null"
    case Bool(b) => if b then "true" else "false"
    case Num(x) => numberText(x)
    case Str(s) => s
  }

  /** The characters `String.prototype.trim` removes: the WhiteSpace and
      LineTerminator code points of ECMA-262. */
  predicate IsWhitespace(c: char)
  {
    c == '\t' || c == '\n' || c == '\U{B}' || c == '\U{C}' || c == '\r' || c == ' '
    || c == '\U{A0}' || c == '\U{1680}' || ('\U{2000}' <= c <= '\U{200A}')
    || c == '\U{2028}' || c == '\U{2029}' || c == '\U{202F}' || c == '\U{205F}'
    || c == '\U{3000}' || c == '\U{FEFF}'
  }

  function TrimStart(s: string): (r: string)
    ensures |r| <= |s| && r == s[|s| - |r|..]
    ensures forall i :: 0 <= i < |s| - |r| ==> IsWhitespace(s[i])
    ensures r != [] ==> !IsWhitespace(r[0])
  {
    if s != [] && IsWhitespace(s[0]) then TrimStart(s[1..]) else s
  }

  function TrimEnd(s: string): (r: string)
    ensures |r| <= |s| && r == s[..|r|]
    ensures forall i :: |r| <= i < |s| ==> IsWhitespace(s[i])
    ensures r != [] ==> !IsWhitespace(r[|r| - 1])
  {
    if s != [] && IsWhitespace(s[|s| - 1]) then TrimEnd(s[..|s| - 1]) else s
  }

  /** `r` is the infix of `s` that starts at `i`, and everything around it is whitespace. */
  predicate TrimmedAt(s: string, r: string, i: int)
  {
    0 <= i <= |s| - |r| && r == s[i..i + |r|]
    && (forall k :: 0 <= k < i ==> IsWhitespace(s[k]))
    && (forall k :: i + |r| <= k < |s| ==> IsWhitespace(s[k]))
  }

  /** `s` neither starts nor ends with whitespace. */
  predicate Bare(s: string)
  {
    s != [] ==> !IsWhitespace(s[0]) && !IsWhitespace(s[|s| - 1])
  }

  /** `s.trim()`: the infix of `s` that neither starts nor ends with
      whitespace and whose surroundings are all whitespace. */
  function Trim(s: string): (r: string)
    ensures exists i :: TrimmedAt(s, r, i)
    ensures Bare(r)
  {
    var t := TrimStart(s);
    ComposeTrims(s, t, TrimEnd(t));
    TrimEnd(t)
  }

  /** A suffix `t` of `s` after whitespace, cut to a prefix `r` before
      whitespace, is an infix of `s` with whitespace around it. */
  lemma ComposeTrims(s: string, t: string, r: string)
    requires |t| <= |s| && t == s[|s| - |t|..]
    requires forall i :: 0 <= i < |s| - |t| ==> IsWhitespace(s[i])
    requires |r| <= |t| && r == t[..|r|]
    requires forall i :: |r| <= i < |t| ==> IsWhitespace(t[i])
    ensures TrimmedAt(s, r, |s| - |t|)
  {
    var i := |s| - |t|;
    assert r == s[i..i + |r|] by {
      forall k | 0 <= k < |r|
        ensures r[k] == s[i + k]
      {
        assert r[k] == t[k];
      }
    }
    forall k | i + |r| <= k < |s|
      ensures IsWhitespace(s[k])
    {
      assert s[k] == t[k - i];
    }
  }

  /** A string with no surrounding whitespace is its own trim. */
  lemma TrimUntrimmed(s: string)
    requires Bare(s)
    ensures Trim(s) == s
  {
  }

  /** A single non-whitespace character with only whitespace around it
      trims to that character. */
  lemma TrimSurrounded(pre: string, c: char, post: string)
    requires forall k :: 0 <= k < |pre| ==> IsWhitespace(pre[k])
    requires forall k :: 0 <= k < |post| ==> IsWhitespace(post[k])
    requires !IsWhitespace(c)
    ensures Trim(pre + [c] + post) == [c]
  {
    var s := pre + [c] + post;
    var r := Trim(s);
    var i :| TrimmedAt(s, r, i);
    assert s[|pre|] == c;
    assert i <= |pre| < i + |r|;
    assert r[0] == s[i] && r[|r| - 1] == s[i + |r| - 1];
    assert i == |pre| && |r| == 1;
  }

  lemma TrimIdempotent(s: string)
    ensures Trim(Trim(s)) == Trim(s)
  {
    TrimUntrimmed(Trim(s));
  }

  /** A notification raised with `toast.success` or `toast.error`. */
  datatype Toast = SuccessToast(text: string) | ErrorToast(text: string)

  /** `response.ok` of a fetch response with the given status. */
  predicate IsOk(status: int)
  {
    200 <= status <= 299
  }

  /** `s.startsWith(prefix)`. */
  predicate StartsWith(s: string, prefix: string)
  {
    |prefix| <= |s| && s[..|prefix|] == prefix
  }

  /** `s.includes(t)`: `t` occurs in `s` at some position. */
  predicate Contains(s: string, t: string)
    decreases |s|
  {
    StartsWith(s, t) || (s != [] && Contains(s[1..], t))
  }

  /** `t` occurs in `s` at position `i`. */
  predicate OccursAt(s: string, t: string, i: int)
  {
    0 <= i <= |s| - |t| && s[i..i + |t|] == t
  }

  /** `Contains` holds exactly when `t` is an infix of `s`. */
  lemma {:induction false} ContainsIff(s: string, t: string)
    ensures Contains(s, t) <==> exists i :: OccursAt(s, t, i)
    decreases |s|
  {
    if StartsWith(s, t) {
      assert OccursAt(s, t, 0);
    }
    if s != [] {
      ContainsIff(s[1..], t);
      if Contains(s[1..], t) {
        var i :| OccursAt(s[1..], t, i);
        assert OccursAt(s, t, i + 1);
      }
      if i :| OccursAt(s, t, i) && i >= 1 {
        assert OccursAt(s[1..], t, i - 1);
      }
    }
  }

  function LowerChar(c: char): char
  {
    if 'A' <= c <= 'Z' then (c as int + 32) as char else c
  }

  /** `s.toLowerCase()` on the ASCII letters. */
  function ToLower(s: string): (r: string)
    ensures |r| == |s|
    ensures forall i :: 0 <= i < |s| ==> r[i] == LowerChar(s[i])
  {
    seq(|s|, i requires 0 <= i < |s| => LowerChar(s[i]))
  }

  lemma ToLowerIdempotent(s: string)
    ensures ToLower(ToLower(s)) == ToLower(s)
  {
  }

  /** `s.length`: the number of UTF-16 code units, so a character outside
      the Basic Multilingual Plane counts twice. */
  function JsLength(s: string): (n: nat)
    ensures |s| <= n <= 2 * |s|
    ensures (forall i :: 0 <= i < |s| ==> (s[i] as int) < 0x1_0000) ==> n == |s|
  {
    if s == [] then 0 else (if (s[0] as int) < 0x1_0000 then 1 else 2) + JsLength(s[1..])
  }
}

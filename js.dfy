/**
 * The small part of JavaScript's value semantics the handlers depend on:
 * parsed JSON values, property access, truthiness, the whitespace class used
 * by `\s` and `String.prototype.trim`, and template-literal rendering of an
 * integer.
 */
module Js {
  import opened Wrappers

  /** A parsed JSON value. Numbers are integers in this model. */
  datatype Json =
    | JNull
    | JBool(b: bool)
    | JNumber(n: int)
    | JString(s: string)
    | JArray(items: seq<Json>)
    | JObject(fields: map<string, Json>)

  /** `v.key` for a value that is not null: `None` stands for `undefined`. */
  function Property(v: Json, key: string): Option<Json>
  {
    if v.JObject? && key in v.fields then Some(v.fields[key]) else None
  }

  /** JavaScript truthiness of a possibly undefined value. */
  predicate Truthy(v: Option<Json>)
    ensures Truthy(v) ==> v.Some? && !v.value.JNull?
    ensures v.Some? && (v.value.JArray? || v.value.JObject?) ==> Truthy(v)
    ensures v.Some? && v.value.JNumber? ==> (Truthy(v) <==> v.value.n != 0)
    ensures v.Some? && v.value.JString? ==> (Truthy(v) <==> v.value.s != "")
  {
    match v
    case None => false
    case Some(JNull) => false
    case Some(JBool(b)) => b
    case Some(JNumber(n)) => n != 0
    case Some(JString(s)) => s != ""
    case Some(JArray(_)) => true
    case Some(JObject(_)) => true
  }

  predicate IsNumber(v: Option<Json>) { v.Some? && v.value.JNumber? }

  predicate IsString(v: Option<Json>) { v.Some? && v.value.JString? }

  /** The ECMAScript WhiteSpace and LineTerminator code points (`\s`, `trim`). */
  predicate IsWhitespace(c: char)
  {
    || c == '\U{9}' || c == '\U{A}' || c == '\U{B}' || c == '\U{C}' || c == '\U{D}'
    || c == '\U{20}' || c == '\U{A0}' || c == '\U{1680}'
    || ('\U{2000}' <= c <= '\U{200A}')
    || c == '\U{2028}' || c == '\U{2029}' || c == '\U{202F}' || c == '\U{205F}'
    || c == '\U{3000}' || c == '\U{FEFF}'
  }

  predicate AllWhitespace(s: string)
  {
    forall i :: 0 <= i < |s| ==> IsWhitespace(s[i])
  }

  function TrimStart(s: string): (r: string)
    ensures |r| <= |s| && r == s[|s| - |r|..]
    ensures r == [] <==> AllWhitespace(s)
    ensures r != [] ==> !IsWhitespace(r[0])
    ensures AllWhitespace(s[..|s| - |r|])
  {
    if |s| > 0 && IsWhitespace(s[0]) then
      var r := TrimStart(s[1..]);
      assert s[..|s| - |r|] == [s[0]] + s[1..][..|s| - 1 - |r|];
      r
    else s
  }

  function TrimEnd(s: string): (r: string)
    ensures |r| <= |s| && r == s[..|r|]
    ensures r == [] <==> AllWhitespace(s)
    ensures r != [] ==> !IsWhitespace(r[|r| - 1])
    ensures AllWhitespace(s[|r|..])
  {
    if |s| > 0 && IsWhitespace(s[|s| - 1]) then
      var r := TrimEnd(s[..|s| - 1]);
      assert s[|r|..] == s[..|s| - 1][|r|..] + [s[|s| - 1]];
      r
    else s
  }

  /** `s.trim()`: the trimmed text is empty exactly when `s` is all whitespace. */
  function Trim(s: string): (r: string)
    ensures |r| == 0 <==> AllWhitespace(s)
  {
    TrimEnd(TrimStart(s))
  }

  function DigitChar(d: nat): char
    requires d < 10
  {
    "0123456789"[d]
  }

  function NatToString(n: nat): (r: string)
    ensures |r| > 0
  {
    if n < 10 then [DigitChar(n)] else NatToString(n / 10) + [DigitChar(n % 10)]
  }

  /** `${n}` for an integer `n`. */
  function IntToString(n: int): string
  {
    if n < 0 then "-" + NatToString(-n) else NatToString(n)
  }
}

/**
 The slice of JavaScript semantics the server's handlers depend on: optional
 request-body fields, truthiness of strings, the `||` default idiom, and
 `String.prototype.trim`.
 */
module Js {

  /** A request-body field that may be absent (`undefined`). */
  datatype Option<+T> = None | Some(value: T)

  /** JavaScript truthiness of a string-valued field: `undefined` and `""`
      are falsy, every other string is truthy. */
  predicate Truthy(v: Option<string>) {
    v.Some? && v.value != ""
  }

  /** The `v || fallback` idiom on a string-valued field. */
  function Or(v: Option<string>, fallback: string): string {
    if Truthy(v) then v.value else fallback
  }

  /** The characters `String.prototype.trim` removes: the WhiteSpace and
      LineTerminator code points of ECMAScript (sections 12.2 and 12.3 of
      ECMA-262), including every Unicode space separator. */
  predicate IsWhitespace(c: char) {
    var n := c as int;
    || n == 0x09 || n == 0x0A || n == 0x0B || n == 0x0C || n == 0x0D
    || n == 0x20 || n == 0xA0 || n == 0x1680
    || (0x2000 <= n <= 0x200A)
    || n == 0x2028 || n == 0x2029 || n == 0x202F || n == 0x205F
    || n == 0x3000 || n == 0xFEFF
  }

  predicate AllWhitespace(s: string) {
    forall i :: 0 <= i < |s| ==> IsWhitespace(s[i])
  }

  /** Drops the longest whitespace prefix. */
  function TrimStart(s: string): (r: string)
    ensures |r| <= |s| && r == s[|s| - |r|..]
    ensures AllWhitespace(s[..|s| - |r|])
    ensures r == [] || !IsWhitespace(r[0])
    decreases |s|
  {
    if |s| > 0 && IsWhitespace(s[0]) then TrimStart(s[1..]) else s
  }

  /** Drops the longest whitespace suffix. */
  function TrimEnd(s: string): (r: string)
    ensures |r| <= |s| && r == s[..|r|]
    ensures AllWhitespace(s[|r|..])
    ensures r == [] || !IsWhitespace(r[|r| - 1])
    decreases |s|
  {
    if |s| > 0 && IsWhitespace(s[|s| - 1]) then TrimEnd(s[..|s| - 1]) else s
  }

  /** `s.trim()`. */
  function Trim(s: string): (r: string)
    ensures |r| <= |s|
    ensures r == [] <==> AllWhitespace(s)
    ensures r != [] ==> !IsWhitespace(r[0]) && !IsWhitespace(r[|r| - 1])
  {
    var t := TrimStart(s);
    assert t != [] ==> s[|s| - |t|] == t[0];
    TrimEnd(t)
  }

  lemma {:induction false} TrimStartSkips(a: string, t: string)
    requires AllWhitespace(a)
    requires t == [] || !IsWhitespace(t[0])
    ensures TrimStart(a + t) == t
    decreases |a|
  {
    if a == [] {
      assert a + t == t;
    } else {
      assert (a + t)[1..] == a[1..] + t;
      TrimStartSkips(a[1..], t);
    }
  }

  lemma {:induction false} TrimEndSkips(t: string, c: string)
    requires AllWhitespace(c)
    requires t == [] || !IsWhitespace(t[|t| - 1])
    ensures TrimEnd(t + c) == t
    decreases |c|
  {
    if c == [] {
      assert t + c == t;
    } else {
      assert (t + c)[..|t + c| - 1] == t + c[..|c| - 1];
      TrimEndSkips(t, c[..|c| - 1]);
    }
  }

  /** Trim is determined by its result: whatever surrounds a string with
      non-whitespace ends, as long as it is whitespace, is removed and
      nothing else is. */
  lemma TrimMargins(a: string, b: string, c: string)
    requires AllWhitespace(a) && AllWhitespace(c)
    requires b == [] || (!IsWhitespace(b[0]) && !IsWhitespace(b[|b| - 1]))
    ensures Trim(a + b + c) == b
  {
    if b == [] {
      assert a + b + c == a + c;
      assert AllWhitespace(a + c);
    } else {
      assert a + b + c == a + (b + c);
      TrimStartSkips(a, b + c);
      TrimEndSkips(b, c);
    }
  }

  /** A string with non-whitespace ends is its own trim. */
  lemma TrimKeepsTrimmed(t: string)
    requires t == [] || (!IsWhitespace(t[0]) && !IsWhitespace(t[|t| - 1]))
    ensures Trim(t) == t
  {
    var none: string := [];
    assert none + t == t && t + none == t;
    TrimStartSkips(none, t);
    TrimEndSkips(t, none);
  }

  lemma TrimIdempotent(s: string)
    ensures Trim(Trim(s)) == Trim(s)
  {
    TrimKeepsTrimmed(Trim(s));
  }
}

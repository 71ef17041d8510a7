/**
 * JavaScript values as they reach the handlers in a parsed JSON request body,
 * with the few JavaScript operations the handlers apply to them: truthiness,
 * `String.prototype.trim`, `startsWith`, `includes`, `.length` and property reads.
 */
module JsValues {
  import opened Wrappers

  /** A JSON value. Numbers are integral (fractions, NaN and infinities are not modelled). */
  datatype Json =
    | Undefined
    | Null
    | Bool(b: bool)
    | Num(n: int)
    | Str(s: string)
    | Arr(items: seq<Json>)
    | Obj(fields: map<string, Json>)

  /** JavaScript truthiness, `!!v`. */
  predicate Truthy(v: Json) {
    match v
    case Undefined => false
    case Null => false
    case Bool(b) => b
    case Num(n) => n != 0
    case Str(s) => s != ""
    case Arr(_) => true
    case Obj(_) => true
  }

  /** `v == null` in JavaScript: undefined or null. */
  predicate IsNullish(v: Json) {
    v.Undefined? || v.Null?
  }

  /**
   * The characters `String.prototype.trim` removes: the ECMAScript WhiteSpace
   * (tab, vertical tab, form feed, space, no-break space, byte-order mark and
   * every space separator) and LineTerminator code points.
   */
  predicate IsWhitespace(c: char) {
    || c == '\t' || c == '\n' || c == '\U{000B}' || c == '\U{000C}' || c == '\r' || c == ' '
    || c == '\U{00A0}' || c == '\U{1680}' || ('\U{2000}' <= c <= '\U{200A}')
    || c == '\U{2028}' || c == '\U{2029}' || c == '\U{202F}' || c == '\U{205F}'
    || c == '\U{3000}' || c == '\U{FEFF}'
  }

  predicate AllWhitespace(s: string) {
    forall i :: 0 <= i < |s| ==> IsWhitespace(s[i])
  }

  /** Drops leading whitespace. */
  function TrimStart(s: string): (r: string)
    ensures |r| <= |s| && r == s[|s| - |r|..]
    ensures r == "" || !IsWhitespace(r[0])
    ensures AllWhitespace(s[..|s| - |r|])
  {
    if s == [] || !IsWhitespace(s[0]) then s
    else
      var r := TrimStart(s[1..]);
      assert s[1..][..|s[1..]| - |r|] == s[1..|s| - |r|];
      r
  }

  /** Drops trailing whitespace. */
  function TrimEnd(s: string): (r: string)
    ensures |r| <= |s| && r == s[..|r|]
    ensures r == "" || !IsWhitespace(r[|r| - 1])
    ensures AllWhitespace(s[|r|..])
  {
    if s == [] || !IsWhitespace(s[|s| - 1]) then s
    else
      var r := TrimEnd(s[..|s| - 1]);
      assert s[..|s| - 1][|r|..] == s[|r|..|s| - 1];
      r
  }

  /** `s.trim()`. */
  function Trim(s: string): string {
    TrimEnd(TrimStart(s))
  }

  /** A trimmed string is a contiguous piece of its input with no whitespace at either end. */
  lemma TrimShape(s: string)
    ensures exists i, j :: 0 <= i <= j <= |s| && Trim(s) == s[i..j]
    ensures Trim(s) == "" || (!IsWhitespace(Trim(s)[0]) && !IsWhitespace(Trim(s)[|Trim(s)| - 1]))
  {
    var a := TrimStart(s);
    var i := |s| - |a|;
    var b := TrimEnd(a);
    TrimPiece(a, b, s);
  }

  /** The end trim of a start trim is a piece of the input; its ends come from the two trims. */
  lemma TrimPiece(a: string, b: string, s: string)
    requires |a| <= |s| && a == s[|s| - |a|..] && (a == "" || !IsWhitespace(a[0]))
    requires |b| <= |a| && b == a[..|b|] && (b == "" || !IsWhitespace(b[|b| - 1]))
    ensures 0 <= |s| - |a| <= |s| - |a| + |b| <= |s| && b == s[|s| - |a|..|s| - |a| + |b|]
    ensures b == "" || (!IsWhitespace(b[0]) && !IsWhitespace(b[|b| - 1]))
  {
    assert b != "" ==> b[0] == a[0];
  }

  /** `s.trim()` is empty exactly when every character of `s` is whitespace. */
  lemma TrimEmptyIffBlank(s: string)
    ensures Trim(s) == "" <==> AllWhitespace(s)
  {
    var a := TrimStart(s);
    var k := |s| - |a|;
    if Trim(s) == "" {
      assert a == "";
      forall i | 0 <= i < |s| ensures IsWhitespace(s[i]) {
        assert s[i] == s[..k][i];
      }
    } else {
      assert a != "";
      assert !IsWhitespace(s[k]);
    }
  }

  /** Trimming twice is trimming once. */
  lemma TrimIdempotent(s: string)
    ensures Trim(Trim(s)) == Trim(s)
  {
    var t := Trim(s);
    TrimShape(s);
    if t != "" {
      assert TrimStart(t) == t;
      assert TrimEnd(t) == t;
    }
  }

  /** Number of UTF-16 code units of a character (JavaScript counts string length in these). */
  function Utf16Units(c: char): nat {
    if c as int > 0xFFFF then 2 else 1
  }

  /** JavaScript's `s.length`. */
  function JsLength(s: string): (n: nat)
    ensures |s| <= n <= 2 * |s|
  {
    if s == [] then 0 else Utf16Units(s[0]) + JsLength(s[1..])
  }

  /** `s.startsWith(prefix)`. */
  predicate StartsWith(s: string, prefix: string) {
    |prefix| <= |s| && s[..|prefix|] == prefix
  }

  /** `s.includes(sub)`. */
  predicate Includes(s: string, sub: string)
    decreases |s|
  {
    StartsWith(s, sub) || (s != [] && Includes(s[1..], sub))
  }

  /** A text can start inside a prefix only at one of the prefix's characters. */
  lemma {:induction false} SkipPrefix(prefix: string, s: string, t: string)
    requires t != [] && t[0] !in prefix
    ensures Includes(prefix + s, t) <==> Includes(s, t)
    decreases |prefix|
  {
    if prefix != [] {
      assert (prefix + s)[0] == prefix[0];
      assert (prefix + s)[1..] == prefix[1..] + s;
      SkipPrefix(prefix[1..], s, t);
    } else {
      assert prefix + s == s;
    }
  }

  /** A text that lacks the first character of `r` cannot run from `s` into `r`. */
  lemma {:induction false} StopAt(s: string, r: string, t: string)
    requires r != [] && r[0] !in t
    ensures Includes(s + r, t) <==> Includes(s, t) || Includes(r, t)
    decreases |s|
  {
    if s == [] {
      assert s + r == r;
    } else {
      assert (s + r)[1..] == s[1..] + r;
      StopAt(s[1..], r, t);
      if |t| <= |s| {
        assert (s + r)[..|t|] == s[..|t|];
      } else if |t| <= |s| + |r| {
        assert (s + r)[..|t|][|s|] == r[0];
        assert t[|s|] in t;
      }
    }
  }

  /**
   * Reading property `name` of a value that is not null or undefined: own
   * fields of an object, `length` of arrays and strings, `undefined` otherwise.
   * (Reading a property of null or undefined throws; callers rule that out first.)
   */
  function Prop(v: Json, name: string): Json {
    match v
    case Obj(m) => if name in m then m[name] else Undefined
    case Arr(a) => if name == "length" then Num(|a|) else Undefined
    case Str(s) => if name == "length" then Num(JsLength(s)) else Undefined
    case _ => Undefined
  }

  /** `typeof v === "string"`. */
  predicate IsString(v: Json) {
    v.Str?
  }
}

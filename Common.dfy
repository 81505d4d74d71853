/** Shared value types and text helpers used by every module of the model:
    the failure-compatible wrappers, the JSON value the browser pages store,
    and the handful of string operations (prefix and substring tests, ASCII
    lower-casing, whitespace trimming, splitting and joining) that the Python
    and JavaScript sources call on their standard library. */
module Common {

  datatype Option<+T> = None | Some(value: T)

  datatype Result<+T, +E> = Ok(value: T) | Err(error: E)

  /** A JSON value as the browser stores it (JSON numbers are modelled as integers). */
  datatype Json =
    | JNull
    | JBool(b: bool)
    | JNum(n: int)
    | JStr(s: string)
    | JArr(items: seq<Json>)
    | JObj(fields: map<string, Json>)

  /** JavaScript truthiness of a JSON value: null, false, 0 and "" are falsy. */
  predicate Truthy(j: Json) {
    match j
    case JNull => false
    case JBool(b) => b
    case JNum(n) => n != 0
    case JStr(s) => s != ""
    case _ => true
  }

  /** `obj[key]` on a plain object, with `undefined` as None. */
  function Get(m: map<string, Json>, key: string): Option<Json> {
    if key in m then Some(m[key]) else None
  }

  /** JavaScript truthiness of a property that may be undefined. */
  predicate TruthyAt(m: map<string, Json>, key: string) {
    key in m && Truthy(m[key])
  }

  /** The text of a property the pages treat as a string (absent or non-string reads as ""). */
  function TextAt(m: map<string, Json>, key: string): string {
    if key in m && m[key].JStr? then m[key].s else ""
  }

  /** `m[a] || m[b] || ""` for string-valued properties. */
  function TextOr(m: map<string, Json>, a: string, b: string): string {
    if TextAt(m, a) != "" then TextAt(m, a) else TextAt(m, b)
  }

  /** `m[key] || fallback` for a string-valued property. */
  function TextOrDefault(m: map<string, Json>, key: string, fallback: string): string {
    if TextAt(m, key) != "" then TextAt(m, key) else fallback
  }

  /** How `Array.prototype.join` writes one element: a string as itself,
      null as nothing. */
  function ItemText(j: Json): string {
    match j
    case JStr(s) => s
    case _ => ""
  }

  /** The texts `outline.join("\n")` joins. */
  function ItemTexts(j: Json): (r: seq<string>)
    ensures j.JArr? ==> |r| == |j.items|
    ensures j.JArr? ==> forall i :: 0 <= i < |r| ==> r[i] == ItemText(j.items[i])
  {
    if j.JArr? then seq(|j.items|, i requires 0 <= i < |j.items| => ItemText(j.items[i])) else []
  }

  // ---------------------------------------------------------------- strings

  predicate StartsWith(s: string, prefix: string) {
    |prefix| <= |s| && s[..|prefix|] == prefix
  }

  predicate EndsWith(s: string, suffix: string) {
    |suffix| <= |s| && s[|s| - |suffix|..] == suffix
  }

  /** Substring test (`sub in s` in Python, `s.includes(sub)` in JavaScript). */
  predicate Contains(s: string, sub: string)
    decreases |s|
  {
    StartsWith(s, sub) || (|s| > 0 && Contains(s[1..], sub))
  }

  lemma {:induction false} ContainsAt(s: string, sub: string, i: nat)
    requires i + |sub| <= |s| && s[i..i + |sub|] == sub
    ensures Contains(s, sub)
    decreases i
  {
    if i > 0 {
      assert s[1..][i - 1..i - 1 + |sub|] == s[i..i + |sub|];
      ContainsAt(s[1..], sub, i - 1);
    }
  }

  lemma {:induction false} ContainsPrefix(s: string, t: string, sub: string)
    requires Contains(s, sub)
    ensures Contains(s + t, sub)
    decreases |s|
  {
    if StartsWith(s, sub) {
      assert (s + t)[..|sub|] == s[..|sub|];
    } else {
      assert (s + t)[1..] == s[1..] + t;
      ContainsPrefix(s[1..], t, sub);
    }
  }

  function LowerChar(c: char): char {
    if 'A' <= c <= 'Z' then (c as int + 32) as char else c
  }

  /** ASCII lower-casing (`str.lower()`, `String.toLowerCase()` on ASCII text). */
  function Lower(s: string): (r: string)
    ensures |r| == |s|
    ensures forall i :: 0 <= i < |s| ==> r[i] == LowerChar(s[i])
  {
    if s == [] then [] else [LowerChar(s[0])] + Lower(s[1..])
  }

  /** Lower-casing text that has no capitals changes nothing. */
  lemma {:induction false} LowerOfLowercase(s: string)
    requires forall i :: 0 <= i < |s| ==> !('A' <= s[i] <= 'Z')
    ensures Lower(s) == s
  {
    if s != [] {
      LowerOfLowercase(s[1..]);
    }
  }

  /** Lower-casing twice is lower-casing once. */
  lemma LowerIdempotent(s: string)
    ensures Lower(Lower(s)) == Lower(s)
  {
    forall i | 0 <= i < |s|
      ensures Lower(Lower(s))[i] == Lower(s)[i]
    {
    }
  }

  /** Characters Python's `str.strip()` removes. */
  predicate IsPyWhitespace(c: char) {
    c == ' ' || ('\t' <= c <= '\r') || ('\U{1C}' <= c <= '\U{1F}') || c == '\U{85}'
    || c == '\U{A0}' || c == '\U{1680}' || ('\U{2000}' <= c <= '\U{200A}')
    || c == '\U{2028}' || c == '\U{2029}' || c == '\U{202F}' || c == '\U{205F}' || c == '\U{3000}'
  }

  /** Characters JavaScript's `trim()` and the regular-expression class `\s` match. */
  predicate IsJsWhitespace(c: char) {
    c == ' ' || ('\t' <= c <= '\r') || c == '\U{A0}' || c == '\U{1680}'
    || ('\U{2000}' <= c <= '\U{200A}') || c == '\U{2028}' || c == '\U{2029}' || c == '\U{202F}'
    || c == '\U{205F}' || c == '\U{3000}' || c == '\U{FEFF}'
  }

  function TrimStartBy(s: string, ws: char -> bool): (r: string)
    ensures |r| <= |s| && r == s[|s| - |r|..]
    ensures r == [] || !ws(r[0])
    ensures forall i :: 0 <= i < |s| - |r| ==> ws(s[i])
  {
    if s != [] && ws(s[0]) then TrimStartBy(s[1..], ws) else s
  }

  function TrimEndBy(s: string, ws: char -> bool): (r: string)
    ensures |r| <= |s| && r == s[..|r|]
    ensures r == [] || !ws(r[|r| - 1])
    ensures forall i :: |r| <= i < |s| ==> ws(s[i])
  {
    if s != [] && ws(s[|s| - 1]) then TrimEndBy(s[..|s| - 1], ws) else s
  }

  lemma TrimStartByNoop(s: string, ws: char -> bool)
    requires s == [] || !ws(s[0])
    ensures TrimStartBy(s, ws) == s
  {
  }

  lemma TrimEndByNoop(s: string, ws: char -> bool)
    requires s == [] || !ws(s[|s| - 1])
    ensures TrimEndBy(s, ws) == s
  {
  }

  lemma TrimStartBySkips(c: char, s: string, ws: char -> bool)
    requires ws(c)
    ensures TrimStartBy([c] + s, ws) == TrimStartBy(s, ws)
  {
    assert ([c] + s)[1..] == s;
  }

  /** Trimming the front keeps no character the string did not have. */
  lemma TrimStartByKeeps(s: string, ws: char -> bool, c: char)
    ensures c in TrimStartBy(s, ws) ==> c in s
  {
    var t := TrimStartBy(s, ws);
    if c in t {
      var k :| 0 <= k < |t| && t[k] == c;
      assert s[|s| - |t| + k] == c;
    }
  }

  /** Trimming the end keeps no character the string did not have. */
  lemma TrimEndByKeeps(s: string, ws: char -> bool, c: char)
    ensures c in TrimEndBy(s, ws) ==> c in s
  {
    var t := TrimEndBy(s, ws);
    if c in t {
      var k :| 0 <= k < |t| && t[k] == c;
      assert s[k] == c;
    }
  }

  predicate IsSlash(c: char) {
    c == '/'
  }

  /** JavaScript `s.trim()`. */
  function JsTrim(s: string): string {
    TrimEndBy(TrimStartBy(s, IsJsWhitespace), IsJsWhitespace)
  }

  /** Python `s.strip()`. */
  function PyStrip(s: string): string {
    TrimEndBy(TrimStartBy(s, IsPyWhitespace), IsPyWhitespace)
  }

  /** Whether `s` is blank in the JavaScript sense (`s.trim() === ""`). */
  predicate JsBlank(s: string) {
    JsTrim(s) == ""
  }

  /** The pieces of `s` between occurrences of `sep` (Python `s.split(sep)`,
      JavaScript `s.split(sep)` with a one-character separator). */
  function Split(s: string, sep: char): (r: seq<string>)
    ensures |r| >= 1
    ensures forall i :: 0 <= i < |r| ==> sep !in r[i]
  {
    if sep !in s then [s]
    else
      var i := FirstIndexOf(s, sep);
      [s[..i]] + Split(s[i + 1..], sep)
  }

  /** `s.split(/\r?\n/)`. */
  function SplitLines(s: string): seq<string> {
    var parts := Split(s, '\n');
    seq(|parts|, i requires 0 <= i < |parts| => if i < |parts| - 1 then DropCarriageReturn(parts[i]) else parts[i])
  }

  function DropCarriageReturn(p: string): string {
    if |p| > 0 && p[|p| - 1] == '\r' then p[..|p| - 1] else p
  }

  function FirstIndexOf(s: string, c: char): (i: nat)
    requires c in s
    ensures i < |s| && s[i] == c && c !in s[..i]
  {
    if s[0] == c then 0 else 1 + FirstIndexOf(s[1..], c)
  }

  /** Splitting a join of separator-free pieces gives the pieces back. */
  lemma {:induction false} SplitJoin(items: seq<string>, sep: char)
    requires items != []
    requires forall i :: 0 <= i < |items| ==> sep !in items[i]
    ensures Split(Join(items, [sep]), sep) == items
  {
    if |items| > 1 {
      var rest := Join(items[1..], [sep]);
      var s := items[0] + [sep] + rest;
      assert s[..|items[0]|] == items[0];
      FirstSeparator(items[0], rest, sep);
      assert s[|items[0]| + 1..] == rest;
      SplitJoin(items[1..], sep);
    }
  }

  lemma FirstSeparator(a: string, b: string, sep: char)
    requires sep !in a
    ensures sep in a + [sep] + b && FirstIndexOf(a + [sep] + b, sep) == |a|
  {
    var s := a + [sep] + b;
    assert s[|a|] == sep;
    forall j | 0 <= j < |a|
      ensures s[j] != sep
    {
      assert s[j] == a[j];
    }
    FirstIndexOfBound(s, sep, |a|);
  }

  /** The first occurrence is no later than any occurrence. */
  lemma {:induction false} FirstIndexOfBound(s: string, c: char, k: nat)
    requires k < |s| && s[k] == c
    ensures FirstIndexOf(s, c) <= k
  {
    if s[0] != c {
      FirstIndexOfBound(s[1..], c, k - 1);
    }
  }

  /** `xs.indexOf(x)` / `xs.findIndex(y => y == x)`: the first position holding `x`, or -1. */
  function IndexOf<T(==)>(xs: seq<T>, x: T): (r: int)
    ensures -1 <= r < |xs|
    ensures r == -1 <==> x !in xs
    ensures r >= 0 ==> xs[r] == x && x !in xs[..r]
  {
    if xs == [] then -1
    else if xs[0] == x then 0
    else
      var i := IndexOf(xs[1..], x);
      assert xs[1..][..if i >= 0 then i else 0] == xs[1..if i >= 0 then i + 1 else 1];
      if i < 0 then -1 else i + 1
  }

  /** `parts.join(sep)`. */
  function Join(parts: seq<string>, sep: string): string {
    if parts == [] then ""
    else if |parts| == 1 then parts[0]
    else parts[0] + sep + Join(parts[1..], sep)
  }

  /** Integer to decimal text (`str(n)` / template interpolation of a non-negative count). */
  function NatToString(n: nat): (r: string)
    ensures r != []
    ensures forall i :: 0 <= i < |r| ==> '0' <= r[i] <= '9'
  {
    if n < 10 then [DigitChar(n)] else NatToString(n / 10) + [DigitChar(n % 10)]
  }

  /** The value of a run of decimal digits. */
  function DecimalValue(s: string): nat
    requires forall i :: 0 <= i < |s| ==> '0' <= s[i] <= '9'
  {
    if s == [] then 0 else DecimalValue(s[..|s| - 1]) * 10 + (s[|s| - 1] as int - '0' as int)
  }

  /** Decimal text reads back as the number it was written from. */
  lemma {:induction false} DecimalRoundTrip(n: nat)
    ensures DecimalValue(NatToString(n)) == n
  {
    if n >= 10 {
      DecimalRoundTrip(n / 10);
      var s := NatToString(n);
      assert s[..|s| - 1] == NatToString(n / 10);
    }
  }

  function DigitChar(d: nat): (c: char)
    requires d < 10
    ensures '0' <= c <= '9'
  {
    ('0' as int + d) as char
  }

  /** `err?.message || fallback`: a caught error's message, or the page's
      own text when the message is empty. */
  function MessageOr(message: string, fallback: string): (r: string)
    requires fallback != ""
    ensures r != "" && (r == message || r == fallback)
    ensures r == message <==> message != ""
  {
    if message != "" then message else fallback
  }

  function Min(a: int, b: int): int { if a <= b then a else b }

  function Max(a: int, b: int): int { if a >= b then a else b }
}

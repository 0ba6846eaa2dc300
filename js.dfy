/** JavaScript runtime behaviour that the storefront code depends on:
    optional values, NaN-carrying numbers, parsed JSON values with truthiness and
    `===`, the subset of String.prototype.toLowerCase
    the catalogue needs, and parseInt with radix 10. */
module Js {

  /** A value that may be `undefined` / `null`. */
  datatype Option<+T> = None | Some(value: T)

  /** A JavaScript number, reduced to what matters here: NaN, or an exact finite value.
      IEEE rounding and the infinities are not modelled. */
  datatype Float = NaN | Finite(value: real)

  /** `a + b` on numbers: NaN absorbs. */
  function Add(a: Float, b: Float): (r: Float)
    ensures r.NaN? <==> a.NaN? || b.NaN?
  {
    if a.NaN? || b.NaN? then NaN else Finite(a.value + b.value)
  }

  /** `a * q` for an integer quantity `q`: NaN absorbs. */
  function Scale(a: Float, q: int): (r: Float)
    ensures r.NaN? <==> a.NaN?
  {
    if a.NaN? then NaN else Finite(a.value * q as real)
  }

  /** A value `JSON.parse` can produce. */
  datatype Json =
    | JNull
    | JBool(b: bool)
    | JNumber(n: real)
    | JString(s: string)
    | JArray(elems: seq<Json>)
    | JObject(fields: map<string, Json>)

  /** `v.key` on a parsed value other than `null`: an object's own field, and
      `undefined` (None) otherwise. Only the keys `id`, `name` and `price` are read
      this way, and no array, string, number or boolean has a property of those
      names. */
  function Field(v: Json, key: string): (r: Option<Json>)
    ensures r.Some? <==> v.JObject? && key in v.fields
    ensures r.Some? ==> r.value == v.fields[key]
  {
    if v.JObject? && key in v.fields then Some(v.fields[key]) else None
  }

  /** JavaScript truthiness of a possibly undefined value: `undefined`, `null`,
      `false`, `0` and `""` are falsy, every array and object is truthy. */
  predicate Truthy(v: Option<Json>)
  {
    match v
    case None => false
    case Some(JNull) => false
    case Some(JBool(b)) => b
    case Some(JNumber(n)) => n != 0.0
    case Some(JString(s)) => s != ""
    case Some(_) => true
  }

  /** `a === b` between values from separate parses: `undefined` equals only
      `undefined`; `null`, booleans, numbers and strings compare by value; two
      arrays or objects are different references, so never equal. */
  predicate StrictEquals(a: Option<Json>, b: Option<Json>)
  {
    a == b && (a.None? || !(a.value.JArray? || a.value.JObject?))
  }

  predicate IsDigit(c: char) { '0' <= c <= '9' }

  predicate IsAsciiUpper(c: char) { 'A' <= c <= 'Z' }

  predicate IsAsciiLower(c: char) { 'a' <= c <= 'z' }

  /** toLowerCase on one code point, for ASCII and the upper-case Turkish letters
      Ç Ğ Ö Ş Ü. Every other code point is left as it is. */
  function LowerChar(c: char): (r: char)
    ensures IsAsciiUpper(c) ==> IsAsciiLower(r) && r as int == c as int + 32
    ensures !IsAsciiUpper(c) && c !in TurkishUpper ==> r == c
    ensures IsDigit(r) <==> IsDigit(c)
    ensures IsAsciiLower(r) <==> IsAsciiLower(c) || IsAsciiUpper(c)
  {
    if IsAsciiUpper(c) then (c as int + 32) as char
    else if c == '\U{00C7}' then '\U{00E7}'   // Ç -> ç
    else if c == '\U{011E}' then '\U{011F}'   // Ğ -> ğ
    else if c == '\U{00D6}' then '\U{00F6}'   // Ö -> ö
    else if c == '\U{015E}' then '\U{015F}'   // Ş -> ş
    else if c == '\U{00DC}' then '\U{00FC}'   // Ü -> ü
    else c
  }

  const TurkishUpper: set<char> := {'\U{00C7}', '\U{011E}', '\U{00D6}', '\U{015E}', '\U{00DC}'}

  /** `s.toLowerCase()`, code point by code point. */
  function ToLower(s: string): (r: string)
    ensures |r| == |s|
    ensures forall i :: 0 <= i < |s| ==> r[i] == LowerChar(s[i])
  {
    seq(|s|, i requires 0 <= i < |s| => LowerChar(s[i]))
  }

  /** The white space parseInt skips before the number: the ECMAScript
      WhiteSpace code points (TAB, VT, FF, the byte-order mark and every Zs space
      separator) and the four LineTerminator code points. */
  predicate IsJsWhiteSpace(c: char)
  {
    c == '\t' || c == '\U{000B}' || c == '\U{000C}' || c == '\U{FEFF}'
    || c == '\n' || c == '\r' || c == '\U{2028}' || c == '\U{2029}'
    || IsSpaceSeparator(c)
  }

  /** The Unicode general category Zs. */
  predicate IsSpaceSeparator(c: char)
  {
    c == ' ' || c == '\U{00A0}' || c == '\U{1680}' || '\U{2000}' <= c <= '\U{200A}'
    || c == '\U{202F}' || c == '\U{205F}' || c == '\U{3000}'
  }

  function SkipWhiteSpace(s: string): (r: string)
    ensures |r| <= |s| && r == s[|s| - |r|..]
    ensures r == [] || !IsJsWhiteSpace(r[0])
  {
    if s != [] && IsJsWhiteSpace(s[0]) then SkipWhiteSpace(s[1..]) else s
  }

  /** The longest prefix of `s` made of decimal digits. */
  function DigitPrefix(s: string): (r: string)
    ensures |r| <= |s| && r == s[..|r|]
    ensures forall i :: 0 <= i < |r| ==> IsDigit(r[i])
    ensures |r| < |s| ==> !IsDigit(s[|r|])
  {
    if s != [] && IsDigit(s[0]) then [s[0]] + DigitPrefix(s[1..]) else []
  }

  /** The value of a string of decimal digits. */
  function DigitsValue(d: string): (n: nat)
    requires forall i :: 0 <= i < |d| ==> IsDigit(d[i])
  {
    if d == [] then 0
    else
      assert IsDigit(d[|d| - 1]);
      10 * DigitsValue(d[..|d| - 1]) + (d[|d| - 1] as int - '0' as int)
  }

  /** `parseInt(s, 10)`: skip white space, read an optional sign, then the longest
      run of digits; None stands for NaN (no digit at all). */
  function ParseInt(s: string): (r: Option<int>)
    ensures r.None? <==> DigitPrefix(Unsigned(SkipWhiteSpace(s))) == []
    ensures r.Some? ==>
      var t := SkipWhiteSpace(s);
      var d := DigitPrefix(Unsigned(t));
      r.value == if t[0] == '-' then -(DigitsValue(d) as int) else DigitsValue(d)
    ensures r.Some? && (SkipWhiteSpace(s) == [] || SkipWhiteSpace(s)[0] != '-') ==> r.value >= 0
  {
    ParseSigned(SkipWhiteSpace(s))
  }

  /** The number at the start of text that begins with no white space: an
      optional sign and the longest run of digits after it. */
  function ParseSigned(t: string): (r: Option<int>)
    ensures r.None? <==> DigitPrefix(Unsigned(t)) == []
    ensures r.Some? ==>
      var d := DigitPrefix(Unsigned(t));
      r.value == if t[0] == '-' then -(DigitsValue(d) as int) else DigitsValue(d)
  {
    var d := DigitPrefix(Unsigned(t));
    var v: int := if d == [] then 0 else DigitsValue(d);
    if d == [] then None
    else if t[0] == '-' then Some(-v)
    else Some(v)
  }

  /** The string after one leading sign character, if there is one. */
  function Unsigned(t: string): (r: string)
    ensures r == t || (t != [] && (t[0] == '-' || t[0] == '+') && r == t[1..])
  {
    if t != [] && (t[0] == '-' || t[0] == '+') then t[1..] else t
  }

  /** The decimal text of a natural number, as `String(n)` gives it. */
  function NatToString(n: nat): (r: string)
    ensures r != []
    ensures forall i :: 0 <= i < |r| ==> IsDigit(r[i])
    ensures DigitsValue(r) == n
    ensures |r| > 1 ==> r[0] != '0'
  {
    if n < 10 then [('0' as int + n) as char]
    else
      var r := NatToString(n / 10) + [('0' as int + n % 10) as char];
      assert r[..|r| - 1] == NatToString(n / 10);
      r
  }

  /** `String(n)` for an integer. */
  function IntToString(n: int): (r: string)
    ensures r != []
    ensures n >= 0 ==> r == NatToString(n)
    ensures n < 0 ==> r == ['-'] + NatToString(-n)
  {
    if n >= 0 then NatToString(n) else ['-'] + NatToString(-n)
  }

  /** A leading white-space character is skipped: it changes nothing. */
  lemma ParseIntSkipsWhiteSpace(c: char, t: string)
    requires IsJsWhiteSpace(c)
    ensures ParseInt([c] + t) == ParseInt(t)
  {
    assert ([c] + t)[1..] == t;
    assert SkipWhiteSpace([c] + t) == SkipWhiteSpace(t);
    assert ParseInt([c] + t) == ParseSigned(SkipWhiteSpace(t));
  }

  /** The ideographic space U+3000 is JS white space, so `parseInt("\u30005", 10)`
      reads as `parseInt("5", 10)`. */
  lemma ParseIntSkipsIdeographicSpace(t: string)
    ensures ParseInt(['\U{3000}'] + t) == ParseInt(t)
  {
    ParseIntSkipsWhiteSpace('\U{3000}', t);
  }

  /** Different integers print differently. */
  lemma IntToStringInjective(a: int, b: int)
    requires IntToString(a) == IntToString(b)
    ensures a == b
  {
    var sa := IntToString(a);
    if a >= 0 && b >= 0 {
      assert DigitsValue(NatToString(a)) == DigitsValue(NatToString(b));
    } else if a < 0 && b < 0 {
      assert NatToString(-a) == sa[1..] == NatToString(-b);
      assert DigitsValue(NatToString(-a)) == DigitsValue(NatToString(-b));
    } else {
      assert false;
    }
  }
}

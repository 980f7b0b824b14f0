/**
 * The pieces of PHP's runtime semantics that the storage client relies on:
 * decoded JSON values, the null-coalescing key lookup, the integer and
 * boolean casts, truthiness of strings, string conversion of scalars, and
 * trimming slashes and testing prefixes of strings.
 */
module Php {
  import opened Wrappers

  /** A value produced by decoding a JSON document (floats are not modelled). */
  datatype Json =
    | JNull
    | JBool(b: bool)
    | JInt(i: int)
    | JStr(s: string)
    | JArr(items: seq<Json>)
    | JObj(fields: map<string, Json>)

  /** A PHP TypeError raised by a typed parameter or property under strict_types. */
  datatype TypeError = TypeError(site: string)

  /** The null-coalescing read of a key: an absent key and a null value both fall back to the default. */
  function Lookup(data: map<string, Json>, key: string): (r: Option<Json>)
    ensures r.Some? <==> key in data && data[key] != JNull
    ensures r.Some? ==> r.value == data[key]
  {
    if key in data && data[key] != JNull then Some(data[key]) else None
  }

  /** PHP truthiness of a string: only "" and "0" are falsy. */
  predicate Truthy(s: string) {
    s != "" && s != "0"
  }

  /** The boolean cast of a decoded JSON value. */
  function ToBool(v: Json): (b: bool)
    ensures !b <==> v in {JNull, JBool(false), JInt(0), JStr(""), JStr("0"), JArr([]), JObj(map[])}
  {
    match v
    case JNull => false
    case JBool(b) => b
    case JInt(i) => i != 0
    case JStr(s) => Truthy(s)
    case JArr(items) => |items| != 0
    case JObj(fields) => |fields| != 0
  }

  /** The integer cast of a decoded JSON value (no 64-bit saturation: integers are unbounded here). */
  function ToInt(v: Json): (n: int)
    ensures v.JInt? ==> n == v.i
    ensures !v.JInt? && !v.JStr? ==> n == if ToBool(v) then 1 else 0
    ensures v.JStr? && !ToBool(v) ==> n == 0
  {
    match v
    case JNull => 0
    case JBool(b) => if b then 1 else 0
    case JInt(i) => i
    case JStr(s) => StrToInt(s)
    case JArr(items) => if |items| == 0 then 0 else 1
    case JObj(fields) => if |fields| == 0 then 0 else 1
  }

  predicate IsDigit(c: char) {
    '0' <= c <= '9'
  }

  predicate IsSpace(c: char) {
    c == ' ' || c == '\t' || c == '\n' || c == '\r' || c == 11 as char || c == 12 as char
  }

  function DigitValue(c: char): nat
    requires IsDigit(c)
  {
    (c as int) - ('0' as int)
  }

  function DigitChar(d: nat): (c: char)
    requires d < 10
    ensures IsDigit(c) && DigitValue(c) == d
  {
    (('0' as int) + d) as char
  }

  /** The longest prefix of `s` made of decimal digits. */
  function LeadingDigits(s: string): (r: string)
    ensures |r| <= |s| && r == s[..|r|]
    ensures forall k :: 0 <= k < |r| ==> IsDigit(r[k])
    ensures |r| < |s| ==> !IsDigit(s[|r|])
  {
    if |s| > 0 && IsDigit(s[0]) then [s[0]] + LeadingDigits(s[1..]) else []
  }

  /** The value of a string of decimal digits, most significant first. */
  function DigitsValue(d: string): nat
    requires forall k :: 0 <= k < |d| ==> IsDigit(d[k])
  {
    if d == [] then 0 else DigitsValue(d[..|d| - 1]) * 10 + DigitValue(d[|d| - 1])
  }

  function SkipSpaces(s: string): (r: string)
    ensures |r| <= |s| && r == s[|s| - |r|..]
    ensures |r| > 0 ==> !IsSpace(r[0])
  {
    if |s| > 0 && IsSpace(s[0]) then SkipSpaces(s[1..]) else s
  }

  /**
   * The integer cast of a string: leading whitespace, an optional sign, then the
   * longest run of digits; a string with no leading digits gives 0.
   */
  function StrToInt(s: string): int {
    var t := SkipSpaces(s);
    if |t| > 0 && t[0] == '-' then 0 - DigitsValue(LeadingDigits(t[1..]))
    else if |t| > 0 && t[0] == '+' then DigitsValue(LeadingDigits(t[1..]))
    else DigitsValue(LeadingDigits(t))
  }

  function NatToString(n: nat): (r: string)
    ensures |r| > 0
    ensures forall k :: 0 <= k < |r| ==> IsDigit(r[k])
  {
    if n < 10 then [DigitChar(n)] else NatToString(n / 10) + [DigitChar(n % 10)]
  }

  /** The string cast of an integer: decimal, with a leading '-' when negative. */
  function IntToString(n: int): (r: string) {
    if n < 0 then "-" + NatToString(-n) else NatToString(n)
  }

  lemma {:induction false} DigitsValueOfNatToString(n: nat)
    ensures DigitsValue(NatToString(n)) == n
  {
    var r := NatToString(n);
    if n >= 10 {
      DigitsValueOfNatToString(n / 10);
      assert r[..|r| - 1] == NatToString(n / 10);
    }
  }

  lemma LeadingDigitsOfDigits(s: string)
    requires forall k :: 0 <= k < |s| ==> IsDigit(s[k])
    ensures LeadingDigits(s) == s
  {
  }

  lemma StrToIntOfDigits(d: string)
    requires |d| > 0 && forall k :: 0 <= k < |d| ==> IsDigit(d[k])
    ensures StrToInt(d) == DigitsValue(d)
  {
    LeadingDigitsOfDigits(d);
    assert !IsSpace(d[0]) && d[0] != '-' && d[0] != '+';
    assert SkipSpaces(d) == d;
  }

  lemma StrToIntOfNegatedDigits(d: string)
    requires |d| > 0 && forall k :: 0 <= k < |d| ==> IsDigit(d[k])
    ensures StrToInt("-" + d) == 0 - DigitsValue(d)
  {
    LeadingDigitsOfDigits(d);
    var m := "-" + d;
    assert m[0] == '-' && !IsSpace(m[0]);
    assert SkipSpaces(m) == m;
    assert m[1..] == d;
  }

  /** Casting the decimal rendering of an integer back to int gives the integer. */
  lemma StrToIntOfIntToString(n: int)
    ensures StrToInt(IntToString(n)) == n
  {
    var m: nat := if n < 0 then -n else n;
    DigitsValueOfNatToString(m);
    if n < 0 {
      StrToIntOfNegatedDigits(NatToString(m));
    } else {
      StrToIntOfDigits(NatToString(m));
    }
  }

  /** A decoded JSON value interpolated into a string (arrays print as "Array"). */
  function Interpolate(v: Json): (r: string)
    ensures v.JStr? ==> r == v.s
    ensures v.JInt? ==> StrToInt(r) == v.i
  {
    match v
    case JNull => ""
    case JBool(b) => if b then "1" else ""
    case JInt(i) => StrToIntOfIntToString(i); IntToString(i)
    case JStr(s) => s
    case JArr(_) => "Array"
    case JObj(_) => "Array"
  }

  predicate EndsWithSlash(s: string) {
    |s| > 0 && s[|s| - 1] == '/'
  }

  predicate StartsWithSlash(s: string) {
    |s| > 0 && s[0] == '/'
  }

  predicate AllSlashes(s: string) {
    forall k :: 0 <= k < |s| ==> s[k] == '/'
  }

  /** Right-trimming '/': drop every trailing slash. */
  function RTrimSlashes(s: string): (r: string)
    ensures |r| <= |s| && r == s[..|r|]
    ensures !EndsWithSlash(r)
    ensures AllSlashes(s[|r|..])
  {
    if EndsWithSlash(s) then
      var r := RTrimSlashes(s[..|s| - 1]);
      assert s[..|s| - 1][..|r|] == s[..|r|];
      assert s[|r|..] == s[..|s| - 1][|r|..] + ['/'];
      r
    else s
  }

  /** Left-trimming '/': drop every leading slash. */
  function LTrimSlashes(s: string): (r: string)
    ensures |r| <= |s| && r == s[|s| - |r|..]
    ensures !StartsWithSlash(r)
    ensures forall k :: 0 <= k < |s| - |r| ==> s[k] == '/'
  {
    if StartsWithSlash(s) then
      var r := LTrimSlashes(s[1..]);
      assert forall k :: 1 <= k < |s| - |r| ==> s[k] == s[1..][k - 1];
      r
    else s
  }

  /**
   * Cutting the slashes off the end of `s` (giving `t`) and then off the start
   * of `t` (giving `r`) leaves a middle slice of `s` with no slash at either
   * end, and leaves `s` alone when it has no slash at either end.
   */
  lemma TrimmedSlice(s: string, t: string, r: string)
    requires |t| <= |s| && t == s[..|t|] && AllSlashes(s[|t|..]) && !EndsWithSlash(t)
    requires |r| <= |t| && r == t[|t| - |r|..] && !StartsWithSlash(r)
    requires forall k :: 0 <= k < |t| - |r| ==> t[k] == '/'
    ensures !StartsWithSlash(r) && !EndsWithSlash(r)
    ensures !StartsWithSlash(s) && !EndsWithSlash(s) ==> r == s
    ensures exists a :: 0 <= a <= |s| - |r| && s[a..a + |r|] == r
                        && AllSlashes(s[..a]) && AllSlashes(s[a + |r|..])
  {
    if |r| > 0 {
      assert r[|r| - 1] == t[|t| - 1];
    }
    if !StartsWithSlash(s) && !EndsWithSlash(s) {
      assert |t| == |s| by {
        if |t| < |s| {
          assert false;
        }
      }
      assert |r| == |t| by {
        if |r| < |t| {
          assert false;
        }
      }
    }
    var a := |t| - |r|;
    assert s[a..a + |r|] == r;
    assert AllSlashes(s[..a]) by {
      forall k | 0 <= k < a
        ensures s[..a][k] == '/'
      {
        assert s[..a][k] == t[k];
      }
    }
  }

  /** Trimming '/' from both ends; the result is the middle of `s` with only slashes cut off. */
  function TrimSlashes(s: string): (r: string)
    ensures !StartsWithSlash(r) && !EndsWithSlash(r)
    ensures !StartsWithSlash(s) && !EndsWithSlash(s) ==> r == s
    ensures exists a :: 0 <= a <= |s| - |r| && s[a..a + |r|] == r
                        && AllSlashes(s[..a]) && AllSlashes(s[a + |r|..])
  {
    var t := RTrimSlashes(s);
    var r := LTrimSlashes(t);
    TrimmedSlice(s, t, r);
    r
  }

  /** The part of `s` after its last slash (all of `s` when it has none). */
  function AfterLastSlash(s: string): (r: string)
    ensures |r| <= |s| && r == s[|s| - |r|..]
    ensures '/' !in r
    ensures |r| < |s| ==> s[|s| - |r| - 1] == '/'
  {
    if s == [] || s[|s| - 1] == '/' then []
    else
      var r := AfterLastSlash(s[..|s| - 1]);
      assert s[..|s| - 1][|s| - 1 - |r|..] + [s[|s| - 1]] == s[|s| - 1 - |r|..];
      r + [s[|s| - 1]]
  }

  /** The last component of a path, trailing slashes ignored, as the basename function gives it. */
  function BaseName(path: string): (r: string)
    ensures '/' !in r
    ensures var t := RTrimSlashes(path);
      |r| <= |t| && r == t[|t| - |r|..] && (|r| < |t| ==> t[|t| - |r| - 1] == '/')
  {
    AfterLastSlash(RTrimSlashes(path))
  }

  /** Whether `s` begins with `prefix`. */
  predicate StartsWith(s: string, prefix: string) {
    |prefix| <= |s| && s[..|prefix|] == prefix
  }

  /** Trimming a trimmed string changes nothing. */
  lemma RTrimSlashesIdempotent(s: string)
    ensures RTrimSlashes(RTrimSlashes(s)) == RTrimSlashes(s)
  {
  }

  /** A string of slashes alone trims to the empty string, and only such a string does. */
  lemma TrimSlashesEmpty(s: string)
    ensures TrimSlashes(s) == "" <==> AllSlashes(s)
  {
    var t := RTrimSlashes(s);
    if TrimSlashes(s) == "" {
      assert t == "";
      forall k | 0 <= k < |s|
        ensures s[k] == '/'
      {
        assert s[|t|..][k - |t|] == s[k];
      }
    }
  }
}

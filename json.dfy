/**
 * The JSON values the agents' replies decode to (the output of `json.loads`, taken as
 * given), with the few Python built-ins the core applies to them: truthiness (`x or y`),
 * `isinstance(x, (int, float))`, `int(x)` and `str(x)`.
 */
module Json {
  import opened Text
  import opened Wrappers

  datatype Json =
    | JNull
    | JBool(b: bool)
    | JInt(i: int)
    | JReal(x: real)
    | JString(s: string)
    | JArray(items: seq<Json>)
    | JObject(fields: map<string, Json>)

  /** Python truthiness: `None`, `False`, zero, and empty strings, lists and dicts are false. */
  predicate Truthy(v: Json) {
    match v
    case JNull => false
    case JBool(b) => b
    case JInt(i) => i != 0
    case JReal(x) => x != 0.0
    case JString(s) => s != ""
    case JArray(items) => |items| > 0
    case JObject(fields) => |fields| > 0
  }

  /** `d.get(key)` on a decoded object. */
  function Get(d: map<string, Json>, key: string): (r: Option<Json>)
    ensures r.Some? <==> key in d
  {
    if key in d then Some(d[key]) else None
  }

  /** `d.get(key) or fallback`, for a value rendered with `str`. */
  function GetStrOr(d: map<string, Json>, key: string, fallback: string): string {
    if key in d && Truthy(d[key]) then PyStr(d[key]) else fallback
  }

  /** A `str` value stored under `key`, if there is one. */
  function GetString(d: map<string, Json>, key: string): (r: Option<string>)
    ensures r.Some? <==> key in d && d[key].JString?
  {
    if key in d && d[key].JString? then Some(d[key].s) else None
  }

  /** `isinstance(v, (int, float))`; a Python `bool` is an `int`. */
  predicate IsNumber(v: Json) {
    v.JBool? || v.JInt? || v.JReal?
  }

  /** `int(x)` on a float: truncation toward zero. */
  function Trunc(x: real): (r: int)
    ensures x >= 0.0 ==> r as real <= x < r as real + 1.0
    ensures x < 0.0 ==> r as real - 1.0 < x <= r as real
  {
    if x >= 0.0 then x.Floor else -((-x).Floor)
  }

  /** `int(v)` on a number. */
  function NumberValue(v: Json): int
    requires IsNumber(v)
  {
    match v
    case JBool(b) => if b then 1 else 0
    case JInt(i) => i
    case JReal(x) => Trunc(x)
  }

  /** `int(s)` on a string: optional surrounding whitespace, an optional sign and ASCII
      digits, which single underscores may group ("1_000"); anything else raises
      `ValueError` (`None`). */
  function ParseIntText(s: string): (r: Option<int>)
  {
    ParseStripped(Strip(s))
  }

  /** `int(t)` for a text without surrounding whitespace. */
  function ParseStripped(t: string): (r: Option<int>)
  {
    if |t| > 0 && (t[0] == '-' || t[0] == '+') then
      var d := t[1..];
      if GroupedDigits(d) then Some(if t[0] == '-' then 0 - GroupedValue(d) as int else GroupedValue(d) as int) else None
    else if GroupedDigits(t) then Some(GroupedValue(t))
    else None
  }

  predicate AllDigits(s: string) {
    forall i :: 0 <= i < |s| ==> '0' <= s[i] <= '9'
  }

  /** The digit part `int()` accepts: digits, with single underscores only between two digits. */
  predicate GroupedDigits(d: string) {
    |d| > 0 && d[0] != '_' && d[|d| - 1] != '_'
    && (forall i :: 0 <= i < |d| ==> '0' <= d[i] <= '9' || d[i] == '_')
    && (forall i :: 0 <= i < |d| - 1 ==> d[i] == '_' ==> d[i + 1] != '_')
  }

  /** The value of digits grouped by underscores: the underscores are ignored. */
  function GroupedValue(d: string): nat
    requires forall i :: 0 <= i < |d| ==> '0' <= d[i] <= '9' || d[i] == '_'
  {
    if |d| == 0 then 0
    else if d[|d| - 1] == '_' then GroupedValue(d[..|d| - 1])
    else 10 * GroupedValue(d[..|d| - 1]) + (d[|d| - 1] as int - '0' as int)
  }

  /** Without underscores the grouped value is the plain decimal value. */
  lemma {:induction false} GroupedValuePlain(d: string)
    requires AllDigits(d)
    ensures GroupedValue(d) == DigitsValue(d)
  {
    if |d| > 0 {
      GroupedValuePlain(d[..|d| - 1]);
    }
  }

  /** `int("1_000") == 1000`, and a doubled or trailing underscore raises. */
  lemma GroupedExamples()
    ensures ParseStripped("1_000") == Some(1000)
    ensures ParseStripped("1__0") == None && ParseStripped("10_") == None && ParseStripped("_1") == None
  {
    var t := "1_000";
    assert GroupedDigits(t);
    assert t[..4] == "1_00" && t[..4][..3] == "1_0" && t[..4][..3][..2] == "1_" && t[..4][..3][..2][..1] == "1";
    assert GroupedValue("1") == 1;
    assert GroupedValue("1_") == 1;
    assert GroupedValue("1_0") == 10;
    assert GroupedValue("1_00") == 100;
    assert GroupedValue(t) == 1000;
    assert !GroupedDigits("1__0") by { assert "1__0"[1] == '_' && "1__0"[2] == '_'; }
  }

  /** `int(v)`, or `None` where Python raises `TypeError` or `ValueError`. */
  function PyInt(v: Json): Option<int> {
    match v
    case JNull => None
    case JString(s) => ParseIntText(s)
    case JArray(_) => None
    case JObject(_) => None
    case _ => Some(NumberValue(v))
  }

  /** `str(v)` for `None`, booleans, integers and strings (other values render as ""). */
  function PyStr(v: Json): string {
    match v
    case JNull => "None"
    case JBool(b) => if b then "True" else "False"
    case JInt(i) => IntToString(i)
    case JString(s) => s
    case _ => ""
  }

  /** A digit is not whitespace. */
  lemma DigitNotSpace(c: char)
    requires '0' <= c <= '9'
    ensures !IsSpace(c)
  {
  }

  /** A string that neither starts nor ends with whitespace is its own `strip()`. */
  lemma StripFixed(t: string)
    requires |t| > 0 && !IsSpace(t[0]) && !IsSpace(t[|t| - 1])
    ensures Strip(t) == t
  {
  }

  /** The digits of a natural number parse back to it. */
  lemma ParseNatRoundTrip(n: nat)
    ensures ParseIntText(NatToString(n)) == Some(n)
  {
    var digits := NatToString(n);
    NatToStringRoundTrip(n);
    DigitNotSpace(digits[0]);
    DigitNotSpace(digits[|digits| - 1]);
    StripFixed(digits);
    ParseUnsigned(digits);
  }

  /** Digits parse to their value. */
  lemma ParseUnsigned(t: string)
    requires |t| > 0 && AllDigits(t)
    ensures ParseStripped(t) == Some(DigitsValue(t) as int)
  {
    assert t[0] != '-' && t[0] != '+';
    GroupedValuePlain(t);
  }

  /** A minus sign followed by the digits of `n` parses back to `-n`. */
  lemma ParseNegRoundTrip(n: nat)
    ensures ParseIntText("-" + NatToString(n)) == Some(0 - n as int)
  {
    var digits := NatToString(n);
    assert |digits| > 0 && AllDigits(digits);
    NatToStringRoundTrip(n);
    ParseNegDigits(digits);
  }

  /** A minus sign followed by digits is read as the negated value of the digits. */
  lemma ParseNegDigits(digits: string)
    requires |digits| > 0 && AllDigits(digits)
    ensures ParseIntText("-" + digits) == Some(0 - DigitsValue(digits) as int)
  {
    var t := "-" + digits;
    DigitNotSpace(digits[|digits| - 1]);
    assert t[|t| - 1] == digits[|digits| - 1];
    StripFixed(t);
    assert t[1..] == digits;
    ParseSigned(t);
  }

  /** A minus sign followed by digits parses to the negated value of the digits. */
  lemma ParseSigned(t: string)
    requires |t| > 1 && t[0] == '-' && AllDigits(t[1..])
    ensures ParseStripped(t) == Some(0 - DigitsValue(t[1..]) as int)
  {
    GroupedValuePlain(t[1..]);
  }

  /** `int(str(i)) == i`: the text `str` gives for an int parses back to it. */
  lemma ParseIntRoundTrip(i: int)
    ensures ParseIntText(IntToString(i)) == Some(i)
  {
    if i < 0 {
      var n: nat := -i;
      assert IntToString(i) == "-" + NatToString(n);
      ParseNegRoundTrip(n);
    } else {
      var n: nat := i;
      assert IntToString(i) == NatToString(n);
      ParseNatRoundTrip(n);
    }
  }

  // ---------------------------------------------------------------------------------
  // str(float(s)) for a decimal literal `\d+(\.\d+)?`

  /** How many '0' characters `s` starts with. */
  function LeadingZeros(s: string): (n: nat)
    ensures n <= |s|
    ensures n < |s| ==> s[n] != '0'
    ensures forall i :: 0 <= i < n ==> s[i] == '0'
  {
    if |s| > 0 && s[0] == '0' then 1 + LeadingZeros(s[1..]) else 0
  }

  /** How many '0' characters `s` ends with. */
  function TrailingZeros(s: string): (n: nat)
    ensures n <= |s|
    ensures n < |s| ==> s[|s| - 1 - n] != '0'
  {
    if |s| > 0 && s[|s| - 1] == '0' then 1 + TrailingZeros(s[..|s| - 1]) else 0
  }

  function Zeros(n: nat): (r: string)
    ensures |r| == n
    ensures forall i :: 0 <= i < n ==> r[i] == '0'
  {
    if n == 0 then "" else Zeros(n - 1) + "0"
  }

  /** A literal of the form `\d+(\.\d+)?` in ASCII digits. */
  predicate DecimalLiteral(s: string) {
    var p := LeadingDigits(s);
    p > 0 && (p == |s| || (s[p] == '.' && p + 1 < |s| && AllDigits(s[p + 1..])))
  }

  /** The digits of a literal with its point removed. */
  function LiteralDigits(s: string): string {
    WithoutAt(s, LeadingDigits(s))
  }

  /** `s` without its character at `p`, if it has one. */
  function WithoutAt(s: string, p: nat): string
    requires p <= |s|
  {
    s[..p] + (if p < |s| then s[p + 1..] else "")
  }

  /** `repr(float(s))` of a decimal literal: its significant digits without leading or
      trailing zeros, in positional notation while the decimal exponent e lies in
      -4 <= e < 16 ("1500" gives "1500.0", "1.50" gives "1.5") and in scientific notation
      otherwise ("0.00001" gives "1e-05"); zero is "0.0". */
  function FloatRepr(s: string): string {
    DigitsRepr(LiteralDigits(s), LeadingDigits(s))
  }

  /** The text of the number 0.d × 10^p. */
  function DigitsRepr(d: string, p: int): string {
    SignificantRepr(Significant(d), p - LeadingZeros(d))
  }

  /** The text of the number 0.sig × 10^point. */
  function SignificantRepr(sig: string, point: int): string {
    if sig == "" then "0.0"
    else if -4 <= point - 1 < 16 then PositionalRepr(sig, point)
    else ScientificRepr(sig, point - 1)
  }

  /** The digits without their leading and trailing zeros. */
  function Significant(d: string): string {
    var rest := d[LeadingZeros(d)..];
    rest[..|rest| - TrailingZeros(rest)]
  }

  /** Significant digits with the point after the first `point` of them. */
  function PositionalRepr(sig: string, point: int): string {
    if point <= 0 then "0." + Zeros(-point) + sig
    else if point >= |sig| then sig + Zeros(point - |sig|) + ".0"
    else sig[..point] + "." + sig[point..]
  }

  /** `d.ddde+XX`: one digit before the point, an exponent of at least two digits. */
  function ScientificRepr(sig: string, e: int): string
    requires |sig| > 0
  {
    var a: nat := if e < 0 then -e else e;
    sig[..1] + (if |sig| > 1 then "." + sig[1..] else "") + "e" + (if e < 0 then "-" else "+")
    + (if a < 10 then "0" else "") + NatToString(a)
  }

  lemma {:induction false} LeadingDigitsAll(s: string)
    requires AllDigits(s)
    ensures LeadingDigits(s) == |s|
  {
    if |s| > 0 {
      LeadingDigitsAll(s[1..]);
    }
  }

  lemma {:induction false} LeadingDigitsAppend(a: string, b: string)
    requires LeadingDigits(a) < |a|
    ensures LeadingDigits(a + b) == LeadingDigits(a)
  {
    if '0' <= a[0] <= '9' {
      assert (a + b)[1..] == a[1..] + b;
      LeadingDigitsAppend(a[1..], b);
    }
  }

  lemma {:induction false} LeadingZerosAppend(a: string, b: string)
    requires LeadingZeros(a) < |a|
    ensures LeadingZeros(a + b) == LeadingZeros(a)
  {
    if a[0] == '0' {
      assert (a + b)[1..] == a[1..] + b;
      LeadingZerosAppend(a[1..], b);
    }
  }

  lemma {:induction false} LeadingZerosAllZero(a: string)
    requires LeadingZeros(a) == |a|
    ensures LeadingZeros(a + "0") == |a| + 1
  {
    if |a| > 0 {
      assert (a + "0")[1..] == a[1..] + "0";
      LeadingZerosAllZero(a[1..]);
    }
  }

  /** Stripping the trailing zeros and putting them back gives the text again. */
  lemma {:induction false} TrailingZerosSplit(s: string)
    ensures s[..|s| - TrailingZeros(s)] + Zeros(TrailingZeros(s)) == s
  {
    if |s| > 0 && s[|s| - 1] == '0' {
      var init := s[..|s| - 1];
      TrailingZerosSplit(init);
      assert init[..|init| - TrailingZeros(init)] == s[..|s| - TrailingZeros(s)];
      assert s == init + "0";
    } else {
      assert s[..|s|] == s;
    }
  }

  lemma SignificantPlain(d: string)
    requires |d| > 0 && d[0] != '0' && d[|d| - 1] != '0'
    ensures LeadingZeros(d) == 0 && Significant(d) == d
  {
    assert d[0..] == d;
    assert d[..|d|] == d;
  }

  /** An integer literal without leading zeros, of at most 16 digits, is written with ".0"
      appended. */
  lemma FloatReprInteger(s: string)
    requires |s| > 0 && AllDigits(s) && s[0] != '0' && |s| <= 16
    ensures FloatRepr(s) == s + ".0"
  {
    LeadingDigitsAll(s);
    assert LiteralDigits(s) == s;
    assert LeadingZeros(s) == 0;
    assert s[0..] == s;
    TrailingZerosSplit(s);
  }

  /** A literal with a point, no leading zero and no trailing zero, whose integer part has
      at most 16 digits, is written as it is. */
  lemma FloatReprCanonical(i: string, f: string)
    requires |i| > 0 && AllDigits(i) && i[0] != '0' && |i| <= 16
    requires |f| > 0 && AllDigits(f) && f[|f| - 1] != '0'
    ensures FloatRepr(i + "." + f) == i + "." + f
  {
    var s := i + "." + f;
    assert s == i + ("." + f);
    LeadingDigitsStops(i, "." + f);
    assert s[..|i|] == i && s[|i| + 1..] == f;
    var d := i + f;
    assert LiteralDigits(s) == d;
    SignificantPlain(d);
    PositionalSplit(d, |i|);
    assert d[..|i|] == i && d[|i|..] == f;
  }

  /** Digits with the point strictly inside them are written with the point there. */
  lemma PositionalSplit(d: string, p: nat)
    requires 0 < p < |d| && p <= 16 && LeadingZeros(d) == 0 && Significant(d) == d
    ensures DigitsRepr(d, p) == d[..p] + "." + d[p..]
  {
    assert DigitsRepr(d, p) == SignificantRepr(d, p);
    assert SignificantRepr(d, p) == PositionalRepr(d, p);
  }

  lemma {:induction false} LeadingDigitsStops(a: string, b: string)
    requires AllDigits(a) && |b| > 0 && !('0' <= b[0] <= '9')
    ensures LeadingDigits(a + b) == |a|
  {
    if |a| == 0 {
      assert a + b == b;
    } else {
      assert (a + b)[1..] == a[1..] + b;
      LeadingDigitsStops(a[1..], b);
    }
  }

  /** A leading zero moves the point and nothing else. */
  lemma DigitsReprLeadingZero(d: string, p: int)
    ensures DigitsRepr("0" + d, p) == DigitsRepr(d, p - 1)
  {
    var z := "0" + d;
    assert z[1..] == d;
    assert LeadingZeros(z) == LeadingZeros(d) + 1;
    assert z[LeadingZeros(z)..] == d[LeadingZeros(d)..];
    assert Significant(z) == Significant(d);
    assert p - LeadingZeros(z) == p - 1 - LeadingZeros(d);
  }

  /** A trailing zero changes nothing. */
  lemma DigitsReprTrailingZero(d: string, p: int)
    ensures DigitsRepr(d + "0", p) == DigitsRepr(d, p)
  {
    var z := LeadingZeros(d);
    if z == |d| {
      LeadingZerosAllZero(d);
      assert (d + "0")[z + 1..] == [];
      assert Significant(d + "0") == "" == Significant(d);
    } else {
      LeadingZerosAppend(d, "0");
      var rest := d[z..];
      assert (d + "0")[z..] == rest + "0";
      assert (rest + "0")[..|rest|] == rest;
      assert TrailingZeros(rest + "0") == TrailingZeros(rest) + 1;
      assert (rest + "0")[..|rest| + 1 - (TrailingZeros(rest) + 1)] == rest[..|rest| - TrailingZeros(rest)];
      assert Significant(d + "0") == Significant(d);
    }
  }

  /** A leading zero does not change the value, nor its text. */
  lemma FloatReprLeadingZero(s: string)
    requires DecimalLiteral(s)
    ensures FloatRepr("0" + s) == FloatRepr(s)
  {
    var z := "0" + s;
    assert z[1..] == s;
    var p := LeadingDigits(s);
    assert LeadingDigits(z) == p + 1;
    assert z[..p + 1] == "0" + s[..p];
    if p < |s| {
      assert z[p + 2..] == s[p + 1..];
    }
    assert LiteralDigits(z) == "0" + LiteralDigits(s);
    DigitsReprLeadingZero(LiteralDigits(s), p + 1);
  }

  /** A trailing zero after the point does not change the value, nor its text. */
  lemma FloatReprTrailingZero(s: string)
    requires DecimalLiteral(s) && LeadingDigits(s) < |s|
    ensures FloatRepr(s + "0") == FloatRepr(s)
  {
    var p := LeadingDigits(s);
    var t := s + "0";
    LeadingDigitsAppend(s, "0");
    LiteralDigitsAppend(s, p);
    DigitsReprTrailingZero(LiteralDigits(s), p);
  }

  lemma LiteralDigitsAppend(s: string, p: nat)
    requires p == LeadingDigits(s) == LeadingDigits(s + "0") && p < |s|
    ensures LiteralDigits(s + "0") == LiteralDigits(s) + "0"
  {
    WithoutAtAppend(s, p);
  }

  lemma WithoutAtAppend(s: string, p: nat)
    requires p < |s|
    ensures WithoutAt(s + "0", p) == WithoutAt(s, p) + "0"
  {
    var t := s + "0";
    var a, b := s[..p], s[p + 1..];
    assert t[..p] == a;
    assert t[p + 1..] == b + "0";
  }

}

/** The pieces of JavaScript semantics the SQL helpers rely on: the values a
    request body can carry, truthiness, the text a template literal produces
    for an integer, and `Array.prototype.join`. */
module JsText {
  import opened Wrappers

  /** A JSON-like value as it arrives in an update payload. Numbers are
      integers here; floating point is not modelled. */
  datatype JsValue = JsNull | JsBool(b: bool) | JsNumber(n: int) | JsString(s: string)

  /** Truthiness of an optional string field: `undefined`, `null` and `""` are falsy. */
  predicate TruthyString(v: Option<string>) {
    v.Some? && v.value != ""
  }

  /** Truthiness of an optional number field: `undefined`, `null` and `0` are falsy. */
  predicate TruthyNumber(v: Option<int>) {
    v.Some? && v.value != 0
  }

  /** Truthiness of an optional boolean field: `undefined`, `null` and `false` are falsy. */
  predicate TruthyBool(v: Option<bool>) {
    v.Some? && v.value
  }

  predicate IsDigit(c: char) {
    '0' <= c <= '9'
  }

  predicate AllDigits(s: string) {
    forall i :: 0 <= i < |s| ==> IsDigit(s[i])
  }

  function DigitValue(c: char): (d: nat)
    requires IsDigit(c)
    ensures d < 10
  {
    c as int - '0' as int
  }

  function DigitChar(d: nat): (c: char)
    requires d < 10
    ensures IsDigit(c) && DigitValue(c) == d
  {
    ('0' as int + d) as char
  }

  /** Decimal text of a natural number, as `${n}` renders it: at least one
      digit, only digits, and no leading zero unless the number is zero. */
  function NatToString(n: nat): (s: string)
    ensures |s| > 0 && AllDigits(s)
    ensures s[0] == '0' ==> n == 0
    decreases n
  {
    if n < 10 then [DigitChar(n)] else NatToString(n / 10) + [DigitChar(n % 10)]
  }

  /** Value of a string of decimal digits; the inverse of NatToString. */
  function ParseNat(s: string): nat
    requires AllDigits(s)
    decreases |s|
  {
    if s == [] then 0 else 10 * ParseNat(s[..|s| - 1]) + DigitValue(s[|s| - 1])
  }

  lemma {:induction false} ParseNatOfNatToString(n: nat)
    ensures ParseNat(NatToString(n)) == n
    decreases n
  {
    if n >= 10 {
      var s := NatToString(n);
      assert s[..|s| - 1] == NatToString(n / 10);
      ParseNatOfNatToString(n / 10);
    }
  }

  /** Canonical decimal text, with no leading zero unless it is `0` itself,
      is the rendering of its own value. */
  lemma {:induction false} NatToStringOfParseNat(t: string)
    requires |t| > 0 && AllDigits(t) && (|t| > 1 ==> t[0] != '0')
    ensures NatToString(ParseNat(t)) == t
    decreases |t|
  {
    var d := DigitValue(t[|t| - 1]);
    if |t| == 1 {
      assert ParseNat(t) == d;
      assert t == [t[0]];
    } else {
      var front := t[..|t| - 1];
      assert forall i :: 0 <= i < |front| ==> front[i] == t[i];
      NatToStringOfParseNat(front);
      var m := ParseNat(front);
      var n := 10 * m + d;
      assert n / 10 == m && n % 10 == d;
      assert NatToString(n) == front + [DigitChar(d)];
      assert t == front + [t[|t| - 1]];
    }
  }

  /** Decimal text of an integer, as `${i}` renders it: a minus sign before
      the digits of a negative number. */
  function IntToString(i: int): (s: string)
    ensures |s| > 0 && IsDigit(s[|s| - 1])
  {
    if i < 0 then "-" + NatToString(-i) else NatToString(i)
  }

  /** Value of the text of an optionally negated run of digits; the inverse of IntToString. */
  function ParseInt(s: string): int
    requires |s| > 0
    requires s[0] == '-' ==> AllDigits(s[1..])
    requires s[0] != '-' ==> AllDigits(s)
  {
    if s[0] == '-' then -(ParseNat(s[1..]) as int) else ParseNat(s)
  }

  lemma ParseIntOfIntToString(i: int)
    ensures var s := IntToString(i);
      (s[0] == '-' ==> AllDigits(s[1..])) && (s[0] != '-' ==> AllDigits(s)) && ParseInt(s) == i
  {
    var s := IntToString(i);
    if i < 0 {
      assert s[1..] == NatToString(-i);
      ParseNatOfNatToString(-i);
    } else {
      assert IsDigit(s[0]);
      ParseNatOfNatToString(i);
    }
  }

  /** `parts.join(sep)`: the parts in order with `sep` between neighbours. */
  function Join(parts: seq<string>, sep: string): string
    decreases |parts|
  {
    if |parts| == 0 then ""
    else if |parts| == 1 then parts[0]
    else parts[0] + sep + Join(parts[1..], sep)
  }

  lemma JoinCons(parts: seq<string>, sep: string)
    requires |parts| > 1
    ensures Join(parts, sep) == parts[0] + (sep + Join(parts[1..], sep))
  {
  }

  /** The joined text starts with the first part and ends with the last. */
  lemma {:induction false} JoinEnds(parts: seq<string>, sep: string)
    requires |parts| > 0
    ensures var r := Join(parts, sep);
      |r| >= |parts[0]| && r[..|parts[0]|] == parts[0] && EndsWith(r, parts[|parts| - 1])
    decreases |parts|
  {
    if |parts| > 1 {
      JoinEnds(parts[1..], sep);
      var r, rest := Join(parts, sep), Join(parts[1..], sep);
      assert r == parts[0] + (sep + rest);
      EndsWithTransitive(r, rest, parts[|parts| - 1]);
    }
  }

  predicate EndsWith(s: string, suffix: string) {
    |suffix| <= |s| && s[|s| - |suffix|..] == suffix
  }

  /** Two strings that end with the same non-empty suffix end with the same character. */
  lemma EndsWithLastChar(s: string, suffix: string)
    requires |suffix| > 0 && EndsWith(s, suffix)
    ensures s[|s| - 1] == suffix[|suffix| - 1]
  {
    assert s[|s| - |suffix|..][|suffix| - 1] == s[|s| - 1];
  }

  lemma EndsWithTransitive(s: string, t: string, suffix: string)
    requires EndsWith(s, t) && EndsWith(t, suffix)
    ensures EndsWith(s, suffix)
  {
    assert s[|s| - |suffix|..] == s[|s| - |t|..][|t| - |suffix|..];
  }

  lemma EndsWithAppend(s: string, t: string)
    ensures EndsWith(s + t, t)
  {
    assert (s + t)[|s|..] == t;
  }
}

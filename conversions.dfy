/** When the numeric conversions of the OKX parsers succeed: `Decimal(x)` and
    `int(x)` on a decoded JSON value. Both strip surrounding whitespace from
    text; `Decimal` then drops every `_` and reads the syntax of the General
    Decimal Arithmetic specification, while `int` reads base-10 digits in
    which single `_` may separate digits. */
module Conversions {
  import opened Types

  predicate IsDigit(c: char)
  {
    '0' <= c <= '9'
  }

  /** ASCII whitespace, as `str.strip()` removes it. */
  predicate IsSpace(c: char)
  {
    c == ' ' || c == '\t' || c == '\n' || c == '\r' || c as int == 11 || c as int == 12
  }

  function StripLeft(s: string): (r: string)
    ensures |r| <= |s| && r == s[|s| - |r|..]
    ensures |r| > 0 ==> !IsSpace(r[0])
    ensures forall i :: 0 <= i < |s| - |r| ==> IsSpace(s[i])
  {
    if |s| > 0 && IsSpace(s[0]) then StripLeft(s[1..]) else s
  }

  function StripRight(s: string): (r: string)
    ensures |r| <= |s| && r == s[..|r|]
    ensures |r| > 0 ==> !IsSpace(r[|r| - 1])
    ensures forall i :: |r| <= i < |s| ==> IsSpace(s[i])
  {
    if |s| > 0 && IsSpace(s[|s| - 1]) then StripRight(s[..|s| - 1]) else s
  }

  /** `s.strip()`. */
  function Strip(s: string): string
  {
    StripRight(StripLeft(s))
  }

  /** `s.replace("_", "")`. */
  function WithoutUnderscores(s: string): (r: string)
    ensures forall i :: 0 <= i < |r| ==> r[i] != '_'
    ensures |r| <= |s|
  {
    if |s| == 0 then ""
    else if s[0] == '_' then WithoutUnderscores(s[1..])
    else [s[0]] + WithoutUnderscores(s[1..])
  }

  /** The text after an optional leading sign. */
  function Unsigned(t: string): (r: string)
    ensures r == t || (|t| > 0 && (t[0] == '+' || t[0] == '-') && r == t[1..])
  {
    if |t| > 0 && (t[0] == '+' || t[0] == '-') then t[1..] else t
  }

  /** An ASCII letter in lower case, any other character kept. */
  function LowerChar(c: char): char
  {
    if 'A' <= c <= 'Z' then (c as int + 32) as char else c
  }

  /** ASCII letters in lower case, everything else kept. */
  function Lower(s: string): (r: string)
    ensures |r| == |s|
  {
    if |s| == 0 then ""
    else [LowerChar(s[0])] + Lower(s[1..])
  }

  /** `Lower` works character by character. */
  lemma {:induction false} LowerAt(s: string)
    ensures forall i :: 0 <= i < |s| ==> Lower(s)[i] == LowerChar(s[i])
  {
    if |s| > 0 {
      LowerAt(s[1..]);
      forall i | 1 <= i < |s|
        ensures Lower(s)[i] == LowerChar(s[i])
      {
        assert Lower(s)[i] == Lower(s[1..])[i - 1];
      }
    }
  }

  predicate AllDigits(s: string)
  {
    forall i :: 0 <= i < |s| ==> IsDigit(s[i])
  }

  /** Digits, at least one, where a single `_` may stand between two digits. */
  predicate IntDigits(u: string)
  {
    && |u| > 0 && IsDigit(u[0]) && IsDigit(u[|u| - 1])
    && (forall i :: 0 <= i < |u| ==> IsDigit(u[i]) || u[i] == '_')
    && (forall i, j :: 0 <= i < |u| && 0 <= j < |u| && j == i + 1 ==> IsDigit(u[i]) || IsDigit(u[j]))
  }

  /** The text `int(s)` accepts. */
  predicate IntText(s: string)
  {
    IntDigits(Unsigned(Strip(s)))
  }

  /** Digits with at most one point, and at least one digit. */
  predicate Mantissa(m: string)
  {
    && (forall i :: 0 <= i < |m| ==> IsDigit(m[i]) || m[i] == '.')
    && (forall i, j :: 0 <= i < j < |m| && m[i] == '.' ==> m[j] != '.')
    && exists i :: 0 <= i < |m| && IsDigit(m[i])
  }

  /** Where the exponent indicator is, or the length when there is none. */
  function ExponentAt(u: string): (k: nat)
    ensures k <= |u| && (k < |u| ==> u[k] == 'e' || u[k] == 'E')
    ensures forall i :: 0 <= i < k ==> u[i] != 'e' && u[i] != 'E'
  {
    if |u| == 0 || u[0] == 'e' || u[0] == 'E' then 0 else 1 + ExponentAt(u[1..])
  }

  /** A finite number: a mantissa, then optionally `e` or `E`, a sign and
      digits. */
  predicate Finite(u: string)
  {
    var k := ExponentAt(u);
    Mantissa(u[..k]) && (k == |u| || (|Unsigned(u[k + 1..])| > 0 && AllDigits(Unsigned(u[k + 1..]))))
  }

  /** Infinity, or a quiet or signalling NaN with optional payload digits, in
      any case. */
  predicate Special(u: string)
  {
    var l := Lower(u);
    || l == "inf" || l == "infinity"
    || (|l| >= 3 && l[..3] == "nan" && AllDigits(l[3..]))
    || (|l| >= 4 && l[..4] == "snan" && AllDigits(l[4..]))
  }

  /** The text `Decimal(s)` accepts. */
  predicate DecimalText(s: string)
  {
    var u := Unsigned(WithoutUnderscores(Strip(s)));
    Finite(u) || Special(u)
  }

  /** The 64-bit C `long` (and `Py_ssize_t`) range, in which
      `PyLong_AsLong` reads a Python int; a wider int raises OverflowError. */
  predicate FitsLong(n: int)
  {
    -0x8000_0000_0000_0000 <= n < 0x8000_0000_0000_0000
  }

  /** A coefficient item `Decimal` takes: an int from 0 to 9 (a boolean is
      an int). */
  predicate DigitItem(d: Json)
  {
    d.JBool? || (d.JNum? && 0 <= d.n <= 9)
  }

  /** The `(sign, digits, exponent)` form `Decimal` converts from a list:
      three items, a sign of 0 or 1, a list of digits, and an int exponent
      that fits a C `long` or one of the special markers "F" (Infinity), "n"
      (NaN) and "N" (sNaN). The digits are checked even for Infinity, which
      then ignores them. */
  predicate DecimalTuple(items: seq<Json>)
  {
    && |items| == 3
    && (items[0].JBool? || items[0] == JNum(0) || items[0] == JNum(1))
    && items[1].JArr? && (forall i :: 0 <= i < |items[1].items| ==> DigitItem(items[1].items[i]))
    && (|| items[2].JBool? || (items[2].JNum? && FitsLong(items[2].n))
        || items[2] == JStr("F") || items[2] == JStr("n") || items[2] == JStr("N"))
  }

  /** The sign check: ValueError for anything but an int, OverflowError for
      an int beyond a C `long`, ValueError for an int other than 0 or 1. */
  function SignFault(sign: Json): Option<Exc>
  {
    match sign
    case JBool(_) => None
    case JNum(n) => if !FitsLong(n) then Some(OverflowError) else if n == 0 || n == 1 then None else Some(ValueError)
    case _ => Some(ValueError)
  }

  /** The exponent check: one of the markers, or an int that fits a C
      `long`; any other text or value is a ValueError. */
  function ExponentFault(e: Json): Option<Exc>
  {
    match e
    case JStr(s) => if s == "F" || s == "n" || s == "N" then None else Some(ValueError)
    case JBool(_) => None
    case JNum(n) => if FitsLong(n) then None else Some(OverflowError)
    case _ => Some(ValueError)
  }

  /** The digit loop: the first item that is not an int from 0 to 9 raises,
      OverflowError when it is an int beyond a C `long`. */
  function DigitsFault(ds: seq<Json>): (r: Option<Exc>)
    ensures r.None? <==> forall i :: 0 <= i < |ds| ==> DigitItem(ds[i])
    ensures r.Some? ==> r.value == ValueError || r.value == OverflowError
  {
    if |ds| == 0 then None
    else if ds[0].JNum? && !FitsLong(ds[0].n) then Some(OverflowError)
    else if !DigitItem(ds[0]) then Some(ValueError)
    else DigitsFault(ds[1..])
  }

  /** What `Decimal` raises on a list, if anything: a length other than 3,
      then the sign, then the exponent, then the coefficient (which must
      itself be a list), in the order the C implementation checks them. */
  function TupleFault(items: seq<Json>): (r: Option<Exc>)
    ensures r.None? <==> DecimalTuple(items)
    ensures r.Some? ==> r.value == ValueError || r.value == OverflowError
  {
    if |items| != 3 then Some(ValueError)
    else if SignFault(items[0]).Some? then SignFault(items[0])
    else if ExponentFault(items[2]).Some? then ExponentFault(items[2])
    else if !items[1].JArr? then Some(ValueError)
    else DigitsFault(items[1].items)
  }

  /** `Decimal(x)`: numbers and booleans convert; text converts when it is
      numeric and raises InvalidOperation otherwise; a list converts when it
      has the `(sign, digits, exponent)` form and raises what `TupleFault`
      names otherwise; None and dicts raise TypeError. */
  function ToDecimal(j: Json): (r: Result<Decimal>)
    ensures r.Ok? <==> j.JNum? || j.JBool? || (j.JStr? && DecimalText(j.s)) || (j.JArr? && DecimalTuple(j.items))
    ensures r.Ok? ==> r.value.source == j
    ensures r.Err? && j.JArr? ==> TupleFault(j.items) == Some(r.exc)
    ensures r.Err? && !j.JArr? ==> r.exc == (if j.JStr? then InvalidOperation else TypeError)
  {
    match j
    case JNum(_) => Ok(Decimal(j))
    case JBool(_) => Ok(Decimal(j))
    case JStr(s) => if DecimalText(s) then Ok(Decimal(j)) else Err(InvalidOperation)
    case JArr(items) =>
      (match TupleFault(items)
       case None => Ok(Decimal(j))
       case Some(e) => Err(e))
    case _ => Err(TypeError)
  }

  /** `datetime.fromtimestamp(int(x) / 1000)`: `int` takes numbers and
      booleans, takes text when it is a decimal integer and raises ValueError
      otherwise, and raises TypeError on None, lists and dicts. */
  function ToTimestamp(j: Json): (r: Result<Timestamp>)
    ensures r.Ok? <==> j.JNum? || j.JBool? || (j.JStr? && IntText(j.s))
    ensures r.Ok? ==> r.value.source == j
    ensures r.Err? ==> r.exc == (if j.JStr? then ValueError else TypeError)
  {
    match j
    case JNum(_) => Ok(Timestamp(j))
    case JBool(_) => Ok(Timestamp(j))
    case JStr(s) => if IntText(s) then Ok(Timestamp(j)) else Err(ValueError)
    case _ => Err(TypeError)
  }

  /** Dropping underscores distributes over concatenation. */
  lemma WithoutUnderscoresConcat(a: string, b: string)
    ensures WithoutUnderscores(a + b) == WithoutUnderscores(a) + WithoutUnderscores(b)
  {
    if |a| > 0 {
      assert (a + b)[1..] == a[1..] + b;
      WithoutUnderscoresConcat(a[1..], b);
    } else {
      assert a + b == b;
    }
  }

  /** Digits with separating underscores lose exactly the underscores: what
      is left is digits, and starts with the first one. */
  lemma {:induction false} DigitsWithoutUnderscores(u: string)
    requires forall i :: 0 <= i < |u| ==> IsDigit(u[i]) || u[i] == '_'
    ensures AllDigits(WithoutUnderscores(u))
    ensures |u| > 0 && IsDigit(u[0]) ==> |WithoutUnderscores(u)| > 0 && WithoutUnderscores(u)[0] == u[0]
  {
    if |u| > 0 {
      DigitsWithoutUnderscores(u[1..]);
    }
  }

  /** Every text `int` accepts, `Decimal` accepts too. */
  lemma IntTextIsDecimalText(s: string)
    requires IntText(s)
    ensures DecimalText(s)
  {
    var t := Strip(s);
    var u := Unsigned(t);
    assert IntDigits(u);
    DigitsWithoutUnderscores(u);
    var w := WithoutUnderscores(u);
    if u != t {
      assert t == [t[0]] + u;
      WithoutUnderscoresConcat([t[0]], u);
      assert WithoutUnderscores([t[0]]) == [t[0]];
      assert WithoutUnderscores(t) == [t[0]] + w;
      assert Unsigned(WithoutUnderscores(t)) == w;
    } else {
      assert Unsigned(WithoutUnderscores(t)) == w;
    }
    assert ExponentAt(w) == |w| by {
      AllDigitsNoExponent(w);
    }
    assert w[..|w|] == w;
    assert IsDigit(w[0]);
    assert Mantissa(w);
  }

  lemma {:induction false} AllDigitsNoExponent(w: string)
    requires AllDigits(w)
    ensures ExponentAt(w) == |w|
  {
    if |w| > 0 {
      AllDigitsNoExponent(w[1..]);
    }
  }

  /** Text without surrounding whitespace is its own `strip()`. */
  lemma StripTrimmed(s: string)
    requires |s| > 0 && !IsSpace(s[0]) && !IsSpace(s[|s| - 1])
    ensures Strip(s) == s
  {
  }

  lemma {:induction false} NoUnderscores(s: string)
    requires forall i :: 0 <= i < |s| ==> s[i] != '_'
    ensures WithoutUnderscores(s) == s
  {
    if |s| > 0 {
      NoUnderscores(s[1..]);
    }
  }

  lemma {:induction false} NoExponent(s: string)
    requires forall i :: 0 <= i < |s| ==> s[i] != 'e' && s[i] != 'E'
    ensures ExponentAt(s) == |s|
  {
    if |s| > 0 {
      NoExponent(s[1..]);
    }
  }

  lemma {:induction false} LowerOfLower(s: string)
    requires forall i :: 0 <= i < |s| ==> !('A' <= s[i] <= 'Z')
    ensures Lower(s) == s
  {
    if |s| > 0 {
      LowerOfLower(s[1..]);
    }
  }

  lemma AllDigitsConcat(a: string, b: string)
    requires AllDigits(a) && AllDigits(b)
    ensures AllDigits(a + b)
  {
  }

  /** Plain digits are the simplest text `int` accepts. */
  lemma DigitsAreIntDigits(u: string)
    requires |u| > 0 && AllDigits(u)
    ensures IntDigits(u)
  {
  }

  /** Digits, a point and digits, with at least one digit: a finite number
      with no underscore, no sign and nothing to strip. */
  lemma FractionFinite(a: string, b: string)
    requires AllDigits(a) && AllDigits(b) && |a| + |b| > 0
    ensures var s := a + "." + b;
            && Finite(s) && Unsigned(s) == s
            && (forall i :: 0 <= i < |s| ==> s[i] != '_')
            && !IsSpace(s[0]) && !IsSpace(s[|s| - 1])
  {
    var s := a + "." + b;
    assert forall i :: 0 <= i < |s| ==>
             && (i < |a| ==> s[i] == a[i])
             && (i == |a| ==> s[i] == '.')
             && (i > |a| ==> s[i] == b[i - |a| - 1]);
    NoExponent(s);
    assert s[..|s|] == s;
    if |a| > 0 {
      assert IsDigit(s[0]);
    } else {
      assert IsDigit(s[|a| + 1]);
    }
  }

  /** Every `a.b` of decimal digits with at least one digit, such as the
      OKX price 42.1, is text `Decimal` accepts. */
  lemma FractionIsDecimalText(a: string, b: string)
    requires AllDigits(a) && AllDigits(b) && |a| + |b| > 0
    ensures DecimalText(a + "." + b)
  {
    var s := a + "." + b;
    FractionFinite(a, b);
    StripTrimmed(s);
    NoUnderscores(s);
  }

  /** The same with a leading sign, such as -0.5. */
  lemma SignedFractionIsDecimalText(sign: char, a: string, b: string)
    requires sign == '+' || sign == '-'
    requires AllDigits(a) && AllDigits(b) && |a| + |b| > 0
    ensures DecimalText([sign] + a + "." + b)
  {
    var s := a + "." + b;
    var t := [sign] + a + "." + b;
    assert t == [sign] + s;
    FractionFinite(a, b);
    assert !IsSpace(t[0]) && t[|t| - 1] == s[|s| - 1];
    StripTrimmed(t);
    assert forall i :: 1 <= i < |t| ==> t[i] == s[i - 1];
    NoUnderscores(t);
    assert t[1..] == s;
  }

  /** Plain digits, such as the OKX millisecond timestamp 1597026383085, are
      text `int` accepts. */
  lemma DigitsAreIntText(s: string)
    requires |s| > 0 && AllDigits(s)
    ensures IntText(s)
  {
    assert IsDigit(s[0]) && IsDigit(s[|s| - 1]);
    StripTrimmed(s);
    assert Unsigned(s) == s;
    DigitsAreIntDigits(s);
  }

  /** OKX sends prices and sizes as digits with a point and millisecond
      timestamps as digits, such as 42.1 and 1597026383085: `Decimal`
      accepts every such price and `int` every such timestamp. */
  lemma OkxTextConverts(whole: string, fraction: string, ts: string)
    requires AllDigits(whole) && AllDigits(fraction) && |whole| + |fraction| > 0
    requires |ts| > 0 && AllDigits(ts)
    ensures var price := whole + "." + fraction;
            ToDecimal(JStr(price)) == Ok(Decimal(JStr(price)))
    ensures ToTimestamp(JStr(ts)) == Ok(Timestamp(JStr(ts)))
  {
    FractionIsDecimalText(whole, fraction);
    DigitsAreIntText(ts);
  }

  /** The digits of a coefficient, as JSON ints. */
  function DigitItems(digits: seq<nat>): (r: seq<Json>)
    ensures |r| == |digits| && forall i :: 0 <= i < |digits| ==> r[i] == JNum(digits[i])
  {
    seq(|digits|, i requires 0 <= i < |digits| => JNum(digits[i]))
  }

  /** Every `[sign, [digits...], exponent]` list of the shape
      `Decimal.as_tuple()` gives converts, such as `[0, [4, 2], -1]` for 4.2. */
  lemma AsTupleConverts(sign: nat, digits: seq<nat>, exponent: int)
    requires sign <= 1 && FitsLong(exponent)
    requires forall i :: 0 <= i < |digits| ==> digits[i] <= 9
    ensures var j := JArr([JNum(sign), JArr(DigitItems(digits)), JNum(exponent)]);
            ToDecimal(j) == Ok(Decimal(j))
  {
    var items := [JNum(sign), JArr(DigitItems(digits)), JNum(exponent)];
    assert forall i :: 0 <= i < |items[1].items| ==> DigitItem(items[1].items[i]);
    assert DecimalTuple(items);
  }

  /** A list of another length, such as `[]`, raises ValueError; a sign
      other than 0 or 1 raises ValueError, or OverflowError when it is too
      wide for a C `long`; the sign is checked before anything after it. */
  lemma MalformedTupleRaises(items: seq<Json>)
    ensures |items| != 3 ==> ToDecimal(JArr(items)) == Err(ValueError)
    ensures |items| == 3 && items[0].JNum? && !FitsLong(items[0].n) ==> ToDecimal(JArr(items)) == Err(OverflowError)
    ensures |items| == 3 && items[0].JNum? && FitsLong(items[0].n) && items[0].n != 0 && items[0].n != 1 ==>
              ToDecimal(JArr(items)) == Err(ValueError)
  {
  }

  /** The first coefficient item that is not a digit decides the error:
      OverflowError when it is an int too wide for a C `long`, ValueError
      otherwise; the items after it are never looked at. */
  lemma {:induction false} DigitsFaultAt(ds: seq<Json>, k: nat)
    requires k < |ds| && !DigitItem(ds[k])
    requires forall i :: 0 <= i < k ==> DigitItem(ds[i])
    ensures DigitsFault(ds) == Some(if ds[k].JNum? && !FitsLong(ds[k].n) then OverflowError else ValueError)
  {
    if k > 0 {
      DigitsFaultAt(ds[1..], k - 1);
    }
  }

  /** Empty text has no digit. */
  lemma EmptyRejected(e: string)
    requires e == ""
    ensures !DecimalText(e) && ToDecimal(JStr(e)) == Err(InvalidOperation)
  {
    assert Strip(e) == e && WithoutUnderscores(e) == e && Unsigned(e) == e;
    assert ExponentAt(e) == 0 && Lower(e) == e;
  }

  /** A character that can occur in text `Decimal` accepts: a digit, a
      point, a sign, an underscore, whitespace, or a letter of `e`,
      `infinity`, `nan` or `snan` in either case. */
  predicate DecimalChar(c: char)
  {
    IsDigit(c) || c == '.' || c == '+' || c == '-' || c == '_' || IsSpace(c)
    || LowerChar(c) in "aefinsty"
  }

  /** A character that can occur in text `int` accepts. */
  predicate IntChar(c: char)
  {
    IsDigit(c) || c == '+' || c == '-' || c == '_' || IsSpace(c)
  }

  /** Every character `lstrip()` removes is whitespace. */
  lemma {:induction false} StripLeftKeeps(s: string)
    ensures forall i :: 0 <= i < |s| ==> IsSpace(s[i]) || s[i] in StripLeft(s)
  {
    if |s| > 0 && IsSpace(s[0]) {
      StripLeftKeeps(s[1..]);
      forall i | 1 <= i < |s|
        ensures IsSpace(s[i]) || s[i] in StripLeft(s)
      {
        assert s[i] == s[1..][i - 1];
      }
    }
  }

  /** Every character `rstrip()` removes is whitespace. */
  lemma {:induction false} StripRightKeeps(s: string)
    ensures forall i :: 0 <= i < |s| ==> IsSpace(s[i]) || s[i] in StripRight(s)
  {
    if |s| > 0 && IsSpace(s[|s| - 1]) {
      var p := s[..|s| - 1];
      StripRightKeeps(p);
      forall i | 0 <= i < |s| - 1
        ensures IsSpace(s[i]) || s[i] in StripRight(s)
      {
        assert s[i] == p[i];
      }
    }
  }

  /** Every character `strip()` removes is whitespace. */
  lemma StripKeeps(s: string)
    ensures forall i :: 0 <= i < |s| ==> IsSpace(s[i]) || s[i] in Strip(s)
  {
    StripLeftKeeps(s);
    StripRightKeeps(StripLeft(s));
  }

  /** Every character `replace("_", "")` removes is an underscore. */
  lemma {:induction false} UnderscoresKeep(s: string)
    ensures forall i :: 0 <= i < |s| ==> s[i] == '_' || s[i] in WithoutUnderscores(s)
  {
    if |s| > 0 {
      UnderscoresKeep(s[1..]);
      forall i | 1 <= i < |s|
        ensures s[i] == '_' || s[i] in WithoutUnderscores(s)
      {
        assert s[i] == s[1..][i - 1];
      }
    }
  }

  /** Dropping the sign drops a sign only. */
  lemma UnsignedKeeps(s: string)
    ensures forall i :: 0 <= i < |s| ==> s[i] == '+' || s[i] == '-' || s[i] in Unsigned(s)
  {
    if Unsigned(s) != s {
      forall i | 1 <= i < |s|
        ensures s[i] in Unsigned(s)
      {
        assert s[i] == Unsigned(s)[i - 1];
      }
    }
  }

  /** A finite number is digits, points, an exponent letter and signs. */
  lemma FiniteChars(u: string)
    requires Finite(u)
    ensures forall i :: 0 <= i < |u| ==> IsDigit(u[i]) || u[i] in ".eE+-"
  {
    var k := ExponentAt(u);
    var m := u[..k];
    forall i | 0 <= i < |u|
      ensures IsDigit(u[i]) || u[i] in ".eE+-"
    {
      if i < k {
        assert u[i] == m[i];
      } else if i > k {
        var x := u[k + 1..];
        UnsignedKeeps(x);
        assert u[i] == x[i - k - 1];
      }
    }
  }

  /** A special value is digits and the letters of `infinity`, `nan` and
      `snan`. */
  lemma SpecialChars(u: string)
    requires Special(u)
    ensures forall i :: 0 <= i < |u| ==> IsDigit(u[i]) || LowerChar(u[i]) in "aefinsty"
  {
    var l := Lower(u);
    LowerAt(u);
    forall i | 0 <= i < |u|
      ensures IsDigit(u[i]) || LowerChar(u[i]) in "aefinsty"
    {
      assert l[i] == LowerChar(u[i]);
      if l == "inf" || l == "infinity" {
      } else if |l| >= 3 && l[..3] == "nan" && AllDigits(l[3..]) {
        if i >= 3 {
          assert l[i] == l[3..][i - 3];
        } else {
          assert l[i] == l[..3][i];
        }
      } else {
        if i >= 4 {
          assert l[i] == l[4..][i - 4];
        } else {
          assert l[i] == l[..4][i];
        }
      }
    }
  }

  /** Every character of `s` is in `Decimal`'s alphabet. */
  predicate DecimalChars(s: string)
  {
    forall i :: 0 <= i < |s| ==> DecimalChar(s[i])
  }

  /** The number after the sign is in the alphabet. */
  lemma NumberChars(u: string)
    requires Finite(u) || Special(u)
    ensures DecimalChars(u)
  {
    if Finite(u) {
      FiniteChars(u);
    } else {
      SpecialChars(u);
    }
  }

  /** A sign keeps the text in the alphabet. */
  lemma SignedChars(w: string)
    requires DecimalChars(Unsigned(w))
    ensures DecimalChars(w)
  {
    UnsignedKeeps(w);
    forall i | 0 <= i < |w| && w[i] != '+' && w[i] != '-'
      ensures DecimalChar(w[i])
    {
      var d :| 0 <= d < |Unsigned(w)| && Unsigned(w)[d] == w[i];
    }
  }

  /** Underscores keep the text in the alphabet. */
  lemma UnderscoredChars(t: string)
    requires DecimalChars(WithoutUnderscores(t))
    ensures DecimalChars(t)
  {
    UnderscoresKeep(t);
    forall i | 0 <= i < |t| && t[i] != '_'
      ensures DecimalChar(t[i])
    {
      var d :| 0 <= d < |WithoutUnderscores(t)| && WithoutUnderscores(t)[d] == t[i];
    }
  }

  /** Surrounding whitespace keeps the text in the alphabet. */
  lemma PaddedChars(s: string)
    requires DecimalChars(Strip(s))
    ensures DecimalChars(s)
  {
    StripKeeps(s);
    forall i | 0 <= i < |s| && !IsSpace(s[i])
      ensures DecimalChar(s[i])
    {
      var d :| 0 <= d < |Strip(s)| && Strip(s)[d] == s[i];
    }
  }

  /** Text `Decimal` accepts holds only characters of that alphabet. */
  lemma DecimalTextChars(s: string)
    requires DecimalText(s)
    ensures DecimalChars(s)
  {
    var t := Strip(s);
    var w := WithoutUnderscores(t);
    NumberChars(Unsigned(w));
    SignedChars(w);
    UnderscoredChars(t);
    PaddedChars(s);
  }

  /** Any text with a character outside that alphabet, such as `abc`, makes
      `Decimal` raise InvalidOperation. */
  lemma DecimalRejectsStrayChar(s: string, i: int)
    requires 0 <= i < |s| && !DecimalChar(s[i])
    ensures ToDecimal(JStr(s)) == Err(InvalidOperation)
  {
    if DecimalText(s) {
      DecimalTextChars(s);
    }
  }

  /** Text `int` accepts holds only digits, signs, underscores and
      whitespace. */
  lemma IntTextChars(s: string)
    requires IntText(s)
    ensures forall i :: 0 <= i < |s| ==> IntChar(s[i])
  {
    var t := Strip(s);
    var u := Unsigned(t);
    StripKeeps(s);
    UnsignedKeeps(t);
    forall i | 0 <= i < |s|
      ensures IntChar(s[i])
    {
      var c := s[i];
      if !IsSpace(c) && c != '+' && c != '-' {
        var a :| 0 <= a < |t| && t[a] == c;
        var d :| 0 <= d < |u| && u[d] == c;
      }
    }
  }

  /** Any text with another character, such as the point of `1.5`, makes
      `int` raise ValueError. */
  lemma TimestampRejectsStrayChar(s: string, i: int)
    requires 0 <= i < |s| && !IntChar(s[i])
    ensures ToTimestamp(JStr(s)) == Err(ValueError)
  {
    if IntText(s) {
      IntTextChars(s);
    }
  }

  /** The `b` of `abc` is outside `Decimal`'s alphabet. */
  lemma WordRaises(word: string)
    requires word == "abc"
    ensures ToDecimal(JStr(word)) == Err(InvalidOperation)
  {
    assert !DecimalChar(word[1]) by {
      assert LowerChar(word[1]) == 'b';
    }
    DecimalRejectsStrayChar(word, 1);
  }

  /** The point of `1.5` is outside `int`'s alphabet. */
  lemma FractionRaises(fraction: string)
    requires fraction == "1.5"
    ensures ToTimestamp(JStr(fraction)) == Err(ValueError)
  {
    assert !IntChar(fraction[1]);
    TimestampRejectsStrayChar(fraction, 1);
  }

  /** Text that is not a number raises: InvalidOperation from `Decimal`,
      ValueError from `int`, which also refuses a decimal point; None is a
      TypeError for both. */
  lemma MalformedTextRaises(word: string, fraction: string)
    requires word == "abc" && fraction == "1.5"
    ensures ToDecimal(JStr(word)) == Err(InvalidOperation)
    ensures ToDecimal(JStr("")) == Err(InvalidOperation)
    ensures ToTimestamp(JStr(fraction)) == Err(ValueError)
    ensures ToDecimal(JNull) == Err(TypeError) && ToTimestamp(JNull) == Err(TypeError)
  {
    WordRaises(word);
    EmptyRejected("");
    FractionRaises(fraction);
  }
}

/** The JavaScript string-to-number conversions the core uses, over exact
    decimals: `Number.parseFloat`, the `Number(...)` coercion that `value * 1000`
    applies, and `parseInt` in base 10. NaN is `None`. */
module JsNumbers {
  import opened Wrappers
  import opened Strings

  predicate IsDigit(c: char) { '0' <= c <= '9' }

  predicate AllDigits(s: string) { forall i :: 0 <= i < |s| ==> IsDigit(s[i]) }

  function DigitValue(c: char): (d: nat)
    requires IsDigit(c)
    ensures d < 10
  {
    c as int - '0' as int
  }

  function DigitChar(d: nat): (c: char)
    requires d < 10
    ensures IsDigit(c) && DigitValue(c) == d
  {
    ('0' as int + d) as char
  }

  /** Length of the longest prefix of `s` made of decimal digits. */
  function DigitRun(s: string): (n: nat)
    ensures n <= |s| && AllDigits(s[..n])
    ensures n < |s| ==> !IsDigit(s[n])
  {
    if |s| > 0 && IsDigit(s[0]) then
      var n := 1 + DigitRun(s[1..]);
      assert s[..n] == [s[0]] + s[1..][..n - 1];
      n
    else 0
  }

  /** The value of a string of decimal digits, most significant first. */
  function DigitsValue(ds: string): nat
    requires AllDigits(ds)
  {
    if |ds| == 0 then 0 else DigitsValue(ds[..|ds| - 1]) * 10 + DigitValue(ds[|ds| - 1])
  }

  /** `x` times ten to the power `e`, one decimal shift at a time. */
  function Scale(x: real, e: int): real
    decreases if e >= 0 then e else -e
  {
    if e == 0 then x else if e > 0 then Scale(x * 10.0, e - 1) else Scale(x / 10.0, e + 1)
  }

  /** The value of the digits after a decimal point: `0.d1d2...` */
  function FractionValue(f: string): (r: real)
    requires AllDigits(f)
    ensures 0.0 <= r < 1.0
  {
    if |f| == 0 then 0.0 else (DigitValue(f[0]) as real + FractionValue(f[1..])) / 10.0
  }

  /** A numeral found at the start of a string: its value and how many characters it spans. */
  datatype Numeral = Numeral(value: real, length: nat)

  /** An exponent part `[eE][+-]?digits` at the start of `s`: its value and length. */
  function ScanExponent(s: string): (r: Option<(int, nat)>)
    ensures r.Some? ==> 2 <= r.value.1 <= |s|
  {
    if |s| == 0 || (s[0] != 'e' && s[0] != 'E') then None
    else
      var signLen := if |s| > 1 && (s[1] == '+' || s[1] == '-') then 1 else 0;
      var digits := s[1 + signLen..];
      var n := DigitRun(digits);
      if n == 0 then None
      else
        var e: int := DigitsValue(digits[..n]);
        Some((if signLen == 1 && s[1] == '-' then -e else e, 1 + signLen + n))
  }

  /** The digits after a decimal point at the start of `s`, if `s` starts with one. */
  function FractionDigits(s: string): (f: string)
    ensures AllDigits(f) && (|f| > 0 ==> 1 + |f| <= |s|)
  {
    if |s| > 0 && s[0] == '.' then s[1..][..DigitRun(s[1..])] else ""
  }

  /** The unsigned mantissa `digits [. digits?] | . digits` at the start of `s`:
      its value and length. */
  function ScanMantissa(s: string): (r: Option<(real, nat)>)
    ensures r.Some? ==> 0 < r.value.1 <= |s|
  {
    var intLen := DigitRun(s);
    var rest := s[intLen..];
    var frac := FractionDigits(rest);
    var hasDot := |rest| > 0 && rest[0] == '.';
    if intLen == 0 && |frac| == 0 then None
    else
      Some((DigitsValue(s[..intLen]) as real + FractionValue(frac),
            if hasDot then intLen + 1 + |frac| else intLen))
  }

  /** An unsigned decimal literal (mantissa and optional exponent) at the start of `s`. */
  function ScanUnsigned(s: string): (r: Option<Numeral>)
    ensures r.Some? ==> 0 < r.value.length <= |s|
  {
    var m := ScanMantissa(s);
    if m.None? then None
    else
      var exponent := ScanExponent(s[m.value.1..]);
      if exponent.Some? then Some(Numeral(Scale(m.value.0, exponent.value.0), m.value.1 + exponent.value.1))
      else Some(Numeral(m.value.0, m.value.1))
  }

  /** The longest prefix of `s` that is a decimal literal `[+-]? unsigned`. */
  function ScanDecimal(s: string): (r: Option<Numeral>)
    ensures r.Some? ==> 0 < r.value.length <= |s|
  {
    if |s| > 0 && (s[0] == '+' || s[0] == '-') then
      var u := ScanUnsigned(s[1..]);
      if u.None? then None
      else Some(Numeral(if s[0] == '-' then -u.value.value else u.value.value, 1 + u.value.length))
    else ScanUnsigned(s)
  }

  /** `Number.parseFloat(s)`: leading whitespace is skipped and the longest
      decimal prefix is read; anything after it is ignored. */
  function ParseFloat(s: string): Option<real>
  {
    var n := ScanDecimal(TrimStart(s));
    if n.Some? then Some(n.value.value) else None
  }

  /** `Number(s)`, the coercion behind `s * 1000`: surrounding whitespace is
      ignored, the empty string is 0, and otherwise the whole string must be a
      decimal literal. */
  function ToNumber(s: string): Option<real>
  {
    var t := Trim(s);
    if |t| == 0 then Some(0.0)
    else
      var n := ScanDecimal(t);
      if n.Some? && n.value.length == |t| then Some(n.value.value) else None
  }

  /** An unsigned digit prefix at the start of `s`, as `parseInt` reads it. */
  function ScanInteger(s: string): Option<nat>
  {
    var n := DigitRun(s);
    if n == 0 then None else Some(DigitsValue(s[..n]))
  }

  /** `parseInt(s, 10)`: leading whitespace is skipped, an optional sign and
      the longest digit prefix are read. */
  function ParseInt(s: string): Option<int>
  {
    var t := TrimStart(s);
    if |t| > 0 && (t[0] == '+' || t[0] == '-') then
      var v := ScanInteger(t[1..]);
      if v.None? then None else Some(if t[0] == '-' then 0 - v.value else v.value)
    else
      var v := ScanInteger(t);
      if v.None? then None else Some(v.value)
  }

  /** The decimal representation of a natural number, without leading zeros. */
  function NatToString(n: nat): (s: string)
    ensures |s| > 0 && AllDigits(s)
  {
    if n < 10 then [DigitChar(n)] else NatToString(n / 10) + [DigitChar(n % 10)]
  }

  /** Reading back the digits of `NatToString(n)` gives `n`. */
  lemma {:induction false} DigitsValueNatToString(n: nat)
    ensures DigitsValue(NatToString(n)) == n
  {
    if n >= 10 {
      var s := NatToString(n);
      assert s[..|s| - 1] == NatToString(n / 10);
      DigitsValueNatToString(n / 10);
    }
  }

  /** A digit run stops exactly where the digits end. */
  lemma {:induction false} DigitRunAppend(ds: string, t: string)
    requires AllDigits(ds)
    requires |t| == 0 || !IsDigit(t[0])
    ensures DigitRun(ds + t) == |ds|
  {
    if |ds| > 0 {
      assert (ds + t)[1..] == ds[1..] + t;
      DigitRunAppend(ds[1..], t);
    } else {
      assert ds + t == t;
    }
  }

  /** The mantissa scanner reads a whole digit string that is followed by
      something that cannot extend it. */
  lemma {:induction false} ScanMantissaDigits(ds: string, rest: string)
    requires AllDigits(ds) && |ds| > 0
    requires |rest| == 0 || !(IsDigit(rest[0]) || rest[0] == '.')
    ensures ScanMantissa(ds + rest) == Some((DigitsValue(ds) as real, |ds|))
  {
    var s := ds + rest;
    DigitRunAppend(ds, rest);
    assert s[..|ds|] == ds && s[|ds|..] == rest;
    assert FractionDigits(rest) == "";
    var m := ScanMantissa(s);
    assert m.value.1 == |ds|;
    assert m.value.0 == DigitsValue(ds) as real + FractionValue("");
  }

  /** The mantissa scanner reads `digits.digits` followed by something that cannot extend it. */
  lemma {:induction false} ScanMantissaFraction(ds: string, frac: string, rest: string)
    requires AllDigits(ds) && |ds| > 0 && AllDigits(frac)
    requires |rest| == 0 || !IsDigit(rest[0])
    ensures ScanMantissa(ds + "." + frac + rest)
         == Some((DigitsValue(ds) as real + FractionValue(frac), |ds| + 1 + |frac|))
  {
    var tail := "." + frac + rest;
    var s := ds + tail;
    assert s == ds + "." + frac + rest;
    DigitRunAppend(ds, tail);
    assert s[..|ds|] == ds && s[|ds|..] == tail;
    assert tail[1..] == frac + rest;
    DigitRunAppend(frac, rest);
    assert (frac + rest)[..|frac|] == frac;
    assert FractionDigits(tail) == frac;
  }

  /** A string that starts with a digit has no leading whitespace to trim. */
  lemma {:induction false} TrimStartDigits(s: string)
    requires |s| > 0 && IsDigit(s[0])
    ensures TrimStart(s) == s
  {
  }

  /** The integer scanner reads a whole digit string. */
  lemma {:induction false} ScanIntegerDigits(s: string)
    requires |s| > 0 && AllDigits(s)
    ensures ScanInteger(s) == Some(DigitsValue(s))
  {
    DigitRunAppend(s, "");
    assert s + "" == s && s[..|s|] == s;
  }

  /** `parseInt` of a whole digit string is its value. */
  lemma {:induction false} ParseIntDigits(s: string)
    requires |s| > 0 && AllDigits(s)
    ensures ParseInt(s) == Some(DigitsValue(s))
  {
    TrimStartDigits(s);
    ScanIntegerDigits(s);
  }

  /** `parseInt` reads back what `NatToString` writes. */
  lemma {:induction false} ParseIntNatToString(n: nat)
    ensures ParseInt(NatToString(n)) == Some(n)
  {
    ParseIntDigits(NatToString(n));
    DigitsValueNatToString(n);
  }

  /** A mantissa not followed by an exponent marker is the whole unsigned literal,
      and a literal starting with a digit has no sign. */
  lemma ScanDecimalMantissa(s: string, value: real, length: nat)
    requires |s| > 0 && IsDigit(s[0])
    requires ScanMantissa(s) == Some((value, length))
    requires length == |s| || !(s[length] == 'e' || s[length] == 'E')
    ensures ScanDecimal(s) == Some(Numeral(value, length))
  {
    assert ScanExponent(s[length..]) == None;
  }

  /** `parseFloat` of a string that starts with a mantissa not followed by an
      exponent marker is the mantissa's value. */
  lemma ParseFloatMantissa(s: string, value: real, length: nat)
    requires |s| > 0 && IsDigit(s[0])
    requires ScanMantissa(s) == Some((value, length))
    requires length == |s| || !(s[length] == 'e' || s[length] == 'E')
    ensures ParseFloat(s) == Some(value)
  {
    TrimStartDigits(s);
    ScanDecimalMantissa(s, value, length);
  }

  /** A string that starts and ends with a digit is left alone by `trim`. */
  lemma TrimDigits(s: string)
    requires |s| > 0 && IsDigit(s[0]) && IsDigit(s[|s| - 1])
    ensures Trim(s) == s
  {
    TrimStartDigits(s);
    assert TrimEnd(s) == s;
  }

  /** `parseFloat` of a whole number followed by something that cannot extend it. */
  lemma {:induction false} ParseFloatNat(n: nat, rest: string)
    requires |rest| == 0 || !(IsDigit(rest[0]) || rest[0] == '.' || rest[0] == 'e' || rest[0] == 'E')
    ensures ParseFloat(NatToString(n) + rest) == Some(n as real)
  {
    var ds := NatToString(n);
    var s := ds + rest;
    assert s[0] == ds[0];
    ScanMantissaDigits(ds, rest);
    assert s[|ds|..] == rest;
    DigitsValueNatToString(n);
    ParseFloatMantissa(s, n as real, |ds|);
  }

  /** `Number(...)` accepts a whole digit string. */
  lemma {:induction false} ToNumberDigits(s: string)
    requires |s| > 0 && AllDigits(s)
    ensures ToNumber(s) == Some(DigitsValue(s) as real)
  {
    TrimDigits(s);
    ScanMantissaDigits(s, "");
    assert s + "" == s;
    ScanDecimalMantissa(s, DigitsValue(s) as real, |s|);
  }

  /** `Number(...)` accepts the decimal representation of a natural number. */
  lemma {:induction false} ToNumberNatToString(n: nat)
    ensures ToNumber(NatToString(n)) == Some(n as real)
  {
    ToNumberDigits(NatToString(n));
    DigitsValueNatToString(n);
  }
}

/** `parse_sum` of budged/parser.py: the amount cell read as a number,
    through a model of Python's `float()`. */
module Amount {
  import opened Wrappers
  import opened Text

  /** The characters `parse_sum` keeps: digits, `.` and `-`. */
  predicate IsSumChar(c: char) { IsDigit(c) || c == '.' || c == '-' }

  predicate AllSumChars(s: string) { forall i :: 0 <= i < |s| ==> IsSumChar(s[i]) }

  /** What the filter keeps of one character. */
  function KeepSumChar(c: char): string { if IsSumChar(c) then [c] else [] }

  /** `re.sub(r"[^\d\.\-]", "", s)`: drop every other character. */
  function KeepSumChars(s: string): (r: string)
    ensures |r| <= |s| && AllSumChars(r)
  {
    if s == [] then []
    else KeepSumChar(s[0]) + KeepSumChars(s[1..])
  }

  /** Text made of kept characters only passes unchanged. */
  lemma {:induction false} KeepSumCharsKeeps(s: string)
    requires AllSumChars(s)
    ensures KeepSumChars(s) == s
  {
    if s != [] {
      assert IsSumChar(s[0]);
      KeepSumCharsKeeps(s[1..]);
    }
  }

  /** The filter works piece by piece. */
  lemma {:induction false} KeepSumCharsConcat(a: string, b: string)
    ensures KeepSumChars(a + b) == KeepSumChars(a) + KeepSumChars(b)
  {
    if a == [] {
      assert a + b == b;
    } else {
      var head := KeepSumChar(a[0]);
      assert (a + b)[0] == a[0] && (a + b)[1..] == a[1..] + b;
      assert KeepSumChars(a + b) == head + KeepSumChars(a[1..] + b);
      KeepSumCharsConcat(a[1..], b);
      assert head + (KeepSumChars(a[1..]) + KeepSumChars(b))
          == (head + KeepSumChars(a[1..])) + KeepSumChars(b);
    }
  }

  /** The filter adds no digit. */
  lemma {:induction false} KeepSumCharsNoDigit(s: string)
    requires forall i :: 0 <= i < |s| ==> !IsDigit(s[i])
    ensures forall i :: 0 <= i < |KeepSumChars(s)| ==> !IsDigit(KeepSumChars(s)[i])
  {
    if s != [] {
      KeepSumCharsNoDigit(s[1..]);
      assert KeepSumChars(s) == KeepSumChar(s[0]) + KeepSumChars(s[1..]);
    }
  }

  function DigitValue(c: char): nat
    requires IsDigit(c)
  {
    c as int - '0' as int
  }

  /** The number a string of decimal digits denotes ("" denotes 0). */
  function DigitsValue(ds: string): nat
    requires AllDigits(ds)
  {
    if ds == [] then 0 else DigitValue(ds[0]) * Pow10(|ds| - 1) + DigitsValue(ds[1..])
  }

  function Pow10(n: nat): (r: nat)
    ensures r >= 1
  {
    if n == 0 then 1 else 10 * Pow10(n - 1)
  }

  /** The value of the decimal literal with sign `neg`, integer digits `ip`
      and fraction digits `fp`. */
  function LiteralValue(neg: bool, ip: string, fp: string): real
    requires AllDigits(ip) && AllDigits(fp)
  {
    var magnitude := DigitsValue(ip) as real + DigitsValue(fp) as real / Pow10(|fp|) as real;
    if neg then -magnitude else magnitude
  }

  /** The parts of a decimal literal: sign, integer digits, whether a point
      is present, fraction digits. */
  datatype FloatParts = FloatParts(neg: bool, ip: string, dot: bool, fp: string)

  /** The parts form a literal that Python's `float()` accepts, for text made
      of digits, `.` and `-` only: digits on both sides of an optional point,
      and at least one digit in all. */
  predicate ValidParts(p: FloatParts) {
    AllDigits(p.ip) && AllDigits(p.fp) && (p.dot || p.fp == []) && |p.ip| + |p.fp| > 0
  }

  /** The unsigned text of a literal. */
  function Body(p: FloatParts): string {
    p.ip + (if p.dot then "." else "") + p.fp
  }

  function Sign(neg: bool): string { if neg then "-" else "" }

  /** The text of a literal. */
  function LiteralText(p: FloatParts): string {
    Sign(p.neg) + Body(p)
  }

  /** The text with its leading minus, if any, taken off. */
  function Unsigned(t: string): (u: string)
    ensures t == Sign(t != [] && t[0] == '-') + u
  {
    if t != [] && t[0] == '-' then
      assert t == [t[0]] + t[1..];
      t[1..]
    else t
  }

  /** The scanner behind `float()`: splits `t` into the parts of a literal,
      or None when `t` is not one. */
  function ScanFloat(t: string): Option<FloatParts> {
    ScanBody(t != [] && t[0] == '-', Unsigned(t))
  }

  /** Splits unsigned text into integer digits, point and fraction digits. */
  function ScanBody(neg: bool, u: string): Option<FloatParts> {
    var n := Run(u, IsDigit);
    if n == |u| then
      (if n > 0 then Some(FloatParts(neg, u, false, "")) else None)
    else if u[n] != '.' then None
    else
      var fp := u[n + 1..];
      if Run(fp, IsDigit) == |fp| && n + |fp| > 0 then Some(FloatParts(neg, u[..n], true, fp))
      else None
  }

  /** What the scanner returns is a literal's parts. */
  lemma ScanFloatValid(t: string)
    ensures ScanFloat(t).Some? ==> ValidParts(ScanFloat(t).value)
  {
  }

  /** The body scanner keeps the sign it is given and loses nothing. */
  lemma ScanBodyText(neg: bool, u: string)
    requires ScanBody(neg, u).Some?
    ensures ScanBody(neg, u).value.neg == neg && Body(ScanBody(neg, u).value) == u
  {
    var n := Run(u, IsDigit);
    if n < |u| {
      assert u == u[..n] + [u[n]] + u[n + 1..];
    } else {
      assert u + "" + "" == u;
    }
  }

  /** The scanner loses nothing: the parts spell the text they came from. */
  lemma ScanFloatText(t: string)
    requires ScanFloat(t).Some?
    ensures LiteralText(ScanFloat(t).value) == t
  {
    ScanBodyText(t != [] && t[0] == '-', Unsigned(t));
  }

  /** The sign of a literal is read off its first character. */
  lemma UnsignedLiteral(p: FloatParts)
    requires ValidParts(p)
    ensures (LiteralText(p) != [] && LiteralText(p)[0] == '-') == p.neg
    ensures Unsigned(LiteralText(p)) == Body(p)
  {
    var t := LiteralText(p);
    if p.neg {
      assert t[0] == '-' && t[1..] == Body(p);
    } else {
      assert t == Body(p);
      if p.ip != [] { assert t[0] == p.ip[0]; } else { assert t[0] == '.'; }
    }
  }

  /** A literal without a point is scanned into its digits. */
  lemma ScanBodyWhole(p: FloatParts)
    requires ValidParts(p) && !p.dot
    ensures ScanBody(p.neg, Body(p)) == Some(p)
  {
    assert Body(p) == p.ip;
    RunUnique(p.ip, IsDigit, |p.ip|);
  }

  /** A literal with a point is scanned into the digits on either side. */
  lemma ScanBodyPoint(p: FloatParts)
    requires ValidParts(p) && p.dot
    ensures ScanBody(p.neg, Body(p)) == Some(p)
  {
    var u := Body(p);
    var n := |p.ip|;
    assert u[n] == '.' && u[..n] == p.ip && u[n + 1..] == p.fp;
    assert Run(u, IsDigit) == n by { RunUnique(u, IsDigit, n); }
    assert Run(p.fp, IsDigit) == |p.fp| by { RunUnique(p.fp, IsDigit, |p.fp|); }
  }

  /** Every literal is scanned into exactly its parts. */
  lemma ScanFloatComplete(p: FloatParts)
    requires ValidParts(p)
    ensures ScanFloat(LiteralText(p)) == Some(p)
  {
    UnsignedLiteral(p);
    if p.dot { ScanBodyPoint(p); } else { ScanBodyWhole(p); }
  }

  /** `float(t)` on text made of digits, `.` and `-`; None where Python
      raises ValueError. */
  function ParseFloat(t: string): Option<real> {
    ScanFloatValid(t);
    match ScanFloat(t)
    case Some(p) => Some(LiteralValue(p.neg, p.ip, p.fp))
    case None => None
  }

  /** `float()` reads every literal with its value. */
  lemma ParseFloatLiteral(p: FloatParts)
    requires ValidParts(p)
    ensures ParseFloat(LiteralText(p)) == Some(LiteralValue(p.neg, p.ip, p.fp))
  {
    ScanFloatComplete(p);
  }

  /** Whatever `ParseFloat` accepts holds a digit. */
  lemma ParseFloatHasDigit(t: string)
    ensures ParseFloat(t).Some? ==> exists i :: 0 <= i < |t| && IsDigit(t[i])
  {
    var r := ScanFloat(t);
    if r.Some? {
      ScanFloatValid(t);
      ScanFloatText(t);
      var p := r.value;
      var k := if p.neg then 1 else 0;
      if p.ip != [] {
        assert t[k] == p.ip[0];
      } else {
        assert t[k + 1] == p.fp[0];
      }
    }
  }

  /** `parse_sum`: keep digits, `.` and `-`, then read the number, or 0 when
      what is left is not a number. */
  function ParseSum(s: string): real {
    ParseFloat(KeepSumChars(s)).GetOr(0.0)
  }

  /** A literal is made of kept characters only. */
  lemma LiteralSumChars(p: FloatParts)
    requires ValidParts(p)
    ensures AllSumChars(LiteralText(p))
  {
    var lit := LiteralText(p);
    forall i | 0 <= i < |lit| ensures IsSumChar(lit[i]) {
      var k := |Sign(p.neg)|;
      if i < k { assert lit[i] == '-'; }
      else if i < k + |p.ip| { assert lit[i] == p.ip[i - k]; }
      else if p.dot && i == k + |p.ip| { assert lit[i] == '.'; }
      else { assert lit[i] == p.fp[i - k - |p.ip| - (if p.dot then 1 else 0)]; }
    }
  }

  /** The currency suffix of an amount cell holds no kept character. */
  lemma KeepSumCharsSuffix()
    ensures KeepSumChars(" KZT") == ""
  {
    var tail := " KZT";
    assert tail[1..] == "KZT" && tail[1..][1..] == "ZT";
    assert tail[1..][1..][1..] == "T" && tail[1..][1..][1..][1..] == "";
  }

  /** A literal followed by the currency suffix parses to the literal's value. */
  lemma ParseSumLiteralCell(p: FloatParts)
    requires ValidParts(p)
    ensures ParseSum(LiteralText(p) + " KZT") == LiteralValue(p.neg, p.ip, p.fp)
  {
    var lit := LiteralText(p);
    assert KeepSumChars(lit + " KZT") == lit by {
      KeepSumCharsConcat(lit, " KZT");
      KeepSumCharsSuffix();
      LiteralSumChars(p);
      KeepSumCharsKeeps(lit);
      assert lit + "" == lit;
    }
    ParseFloatLiteral(p);
  }

  /** An amount cell `[-]digits.digits KZT` parses to the amount it shows. */
  lemma ParseSumAmountCell(neg: bool, ip: string, fp: string)
    requires AllDigits(ip) && AllDigits(fp) && ip != []
    ensures ParseSum(Sign(neg) + ip + "." + fp + " KZT") == LiteralValue(neg, ip, fp)
  {
    var p := FloatParts(neg, ip, true, fp);
    assert Sign(neg) + ip + "." + fp == LiteralText(p);
    ParseSumLiteralCell(p);
  }

  /** Text with no digit at all parses to 0. */
  lemma ParseSumNoDigits(s: string)
    requires forall i :: 0 <= i < |s| ==> !IsDigit(s[i])
    ensures ParseSum(s) == 0.0
  {
    KeepSumCharsNoDigit(s);
    ParseFloatHasDigit(KeepSumChars(s));
  }

  /** A literal whose fraction digits are all zero denotes a whole number. */
  lemma LiteralValueWhole(neg: bool, ip: string, fp: string)
    requires AllDigits(ip) && AllDigits(fp) && DigitsValue(fp) == 0
    ensures LiteralValue(neg, ip, fp) == if neg then -(DigitsValue(ip) as real) else DigitsValue(ip) as real
  {
    var d := Pow10(|fp|) as real;
    assert 0.0 / d == 0.0;
  }

  /** The value of the literal `-30000.00`. */
  lemma ExampleValue()
    ensures LiteralValue(true, "30000", "00") == -30000.0
  {
    assert DigitsValue("30000") == 30000 && DigitsValue("00") == 0;
    LiteralValueWhole(true, "30000", "00");
  }

  /** The amount quoted in the docstring of `parse_sum`. */
  lemma ParseSumExample()
    ensures ParseSum("-30000.00 KZT") == -30000.0
  {
    assert Sign(true) + "30000" + "." + "00" + " KZT" == "-30000.00 KZT";
    ParseSumAmountCell(true, "30000", "00");
    ExampleValue();
  }

  /** Text that holds no number falls back to 0. */
  lemma ParseSumGarbage()
    ensures ParseSum("garbage") == 0.0
  {
    ParseSumNoDigits("garbage");
  }
}

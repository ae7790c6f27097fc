/** Turning typed text into numbers the way the estimator's inputs do:
    the `/[^\d.]/g` sanitiser, `Number(...)` applied to the sanitised
    text, `parseFloat` and `String.prototype.trim`. */
module NumberText {
  import opened JsNumber

  predicate IsDigit(c: char) {
    '0' <= c <= '9'
  }

  /** The characters the sanitiser keeps: `\d` (ASCII digits only, no `u`
      flag) and `.`. */
  predicate IsNumericChar(c: char) {
    IsDigit(c) || c == '.'
  }

  predicate AllDigits(s: string) {
    forall i :: 0 <= i < |s| ==> IsDigit(s[i])
  }

  predicate AllNumericChars(s: string) {
    forall i :: 0 <= i < |s| ==> IsNumericChar(s[i])
  }

  /** JavaScript's WhiteSpace and LineTerminator code points, which `trim`
      and `parseFloat` skip. */
  predicate IsJsWhitespace(c: char) {
    var n := c as int;
    n == 0x09 || n == 0x0A || n == 0x0B || n == 0x0C || n == 0x0D || n == 0x20
    || n == 0xA0 || n == 0x1680 || (0x2000 <= n <= 0x200A) || n == 0x2028
    || n == 0x2029 || n == 0x202F || n == 0x205F || n == 0x3000 || n == 0xFEFF
  }

  // ---------------------------------------------------------------------
  // The sanitiser `String(raw).replace(/[^\d.]/g, '')`

  function Clean(s: string): (r: string)
    ensures AllNumericChars(r)
    ensures |r| <= |s|
  {
    if s == [] then [] else (if IsNumericChar(s[0]) then [s[0]] else []) + Clean(s[1..])
  }

  /** Text made only of digits and dots passes the sanitiser unchanged. */
  lemma {:induction false} CleanKeepsNumericText(s: string)
    requires AllNumericChars(s)
    ensures Clean(s) == s
  {
    if s != [] {
      CleanKeepsNumericText(s[1..]);
    }
  }

  /** The sanitiser works character by character and keeps the order. */
  lemma {:induction false} CleanConcat(a: string, b: string)
    ensures Clean(a + b) == Clean(a) + Clean(b)
  {
    if a == [] {
      assert a + b == b;
    } else {
      var h := if IsNumericChar(a[0]) then [a[0]] else [];
      assert (a + b)[0] == a[0];
      assert (a + b)[1..] == a[1..] + b;
      assert Clean(a + b) == h + Clean(a[1..] + b);
      CleanConcat(a[1..], b);
      assert Clean(a) == h + Clean(a[1..]);
    }
  }

  /** The sanitiser leaves nothing exactly when the text holds no digit and
      no dot: every other character is removed. */
  lemma {:induction false} CleanEmpty(s: string)
    ensures Clean(s) == [] <==> forall i :: 0 <= i < |s| ==> !IsNumericChar(s[i])
  {
    if s != [] {
      CleanEmpty(s[1..]);
      assert forall i :: 1 <= i < |s| ==> s[i] == s[1..][i - 1];
    }
  }

  lemma CleanIdempotent(s: string)
    ensures Clean(Clean(s)) == Clean(s)
  {
    CleanKeepsNumericText(Clean(s));
  }

  // ---------------------------------------------------------------------
  // Decimal digit strings

  function DigitValue(c: char): (d: nat)
    requires IsDigit(c)
    ensures d < 10
  {
    (c as int - '0' as int)
  }

  function DigitChar(d: nat): (c: char)
    requires d < 10
    ensures IsDigit(c) && DigitValue(c) == d
  {
    (('0' as int) + d) as char
  }

  /** The value of a string of decimal digits, read left to right. */
  function DigitsValue(s: string): (v: nat)
    requires AllDigits(s)
  {
    if s == [] then 0 else 10 * DigitsValue(s[..|s| - 1]) + DigitValue(s[|s| - 1])
  }

  /** `m · 10^e`, by repeated multiplication or division by ten. */
  function Shift10(m: real, e: int): (r: real)
    ensures m >= 0.0 ==> r >= 0.0
    decreases if e >= 0 then e else -e
  {
    if e == 0 then m else if e > 0 then 10.0 * Shift10(m, e - 1) else Shift10(m, e + 1) / 10.0
  }

  /** Shifting left and then right by the same amount gives back the value. */
  lemma {:induction false} Shift10Cancel(m: real, e: nat)
    ensures Shift10(Shift10(m, e), -(e as int)) == m
  {
    if e > 0 {
      Shift10Cancel(m, e - 1);
      Shift10Outer(Shift10(m, e - 1), -(e as int));
    }
  }

  /** `10^n` as a natural number. */
  function Pow10(n: nat): (r: nat)
    ensures r >= 1
  {
    if n == 0 then 1 else 10 * Pow10(n - 1)
  }

  /** A shift left by `e` places multiplies by `10^e`. */
  lemma {:induction false} Shift10Left(m: real, e: nat)
    ensures Shift10(m, e) == m * Pow10(e) as real
  {
    if e > 0 {
      Shift10Left(m, e - 1);
      var p := Pow10(e - 1) as real;
      assert Shift10(m, e) == 10.0 * Shift10(m, e - 1);
      assert Pow10(e) as real == 10.0 * p;
      MulTen(m, p);
    }
  }

  /** A shift right by `k` places is undone by multiplying by `10^k`. */
  lemma {:induction false} Shift10Right(m: real, k: nat)
    ensures Shift10(m, -(k as int)) * Pow10(k) as real == m
  {
    if k > 0 {
      Shift10Right(m, k - 1);
      var x := Shift10(m, -((k - 1) as int));
      var p := Pow10(k - 1) as real;
      assert Shift10(m, -(k as int)) == x / 10.0;
      assert Pow10(k) as real == 10.0 * p;
      DivTen(x, p);
    }
  }

  lemma MulTen(x: real, p: real)
    ensures 10.0 * (x * p) == x * (10.0 * p)
  {
  }

  lemma DivTen(x: real, p: real)
    ensures (x / 10.0) * (10.0 * p) == x * p
  {
  }

  lemma MulTenNat(x: nat, p: nat)
    ensures 10 * (x * p) == x * (10 * p)
  {
  }

  /** Shifting one place further out peels off a factor of ten. */
  lemma {:induction false} Shift10Outer(x: real, e: int)
    requires e < 0
    ensures Shift10(10.0 * x, e) == Shift10(x, e + 1)
    decreases -e
  {
    if e + 1 < 0 {
      Shift10Outer(x, e + 1);
    }
  }

  /** The decimal representation of a natural number, without leading zeros. */
  function NatToDigits(n: nat): (s: string)
    ensures |s| >= 1 && AllDigits(s)
  {
    if n < 10 then [DigitChar(n)] else NatToDigits(n / 10) + [DigitChar(n % 10)]
  }

  lemma {:induction false} DigitsValueOfNat(n: nat)
    ensures DigitsValue(NatToDigits(n)) == n
  {
    var s := NatToDigits(n);
    if n >= 10 {
      DigitsValueOfNat(n / 10);
      assert s[..|s| - 1] == NatToDigits(n / 10);
    }
  }

  // ---------------------------------------------------------------------
  // `Number(text)` for text that holds only digits and dots

  function DotCount(s: string): (n: nat)
    ensures n <= |s|
  {
    if s == [] then 0 else (if s[0] == '.' then 1 else 0) + DotCount(s[1..])
  }

  /** Dots are counted character by character. */
  lemma {:induction false} DotCountConcat(a: string, b: string)
    ensures DotCount(a + b) == DotCount(a) + DotCount(b)
  {
    if a == [] {
      assert a + b == b;
    } else {
      assert (a + b)[0] == a[0];
      assert (a + b)[1..] == a[1..] + b;
      DotCountConcat(a[1..], b);
    }
  }

  /** The position of the only dot of `s`. */
  function DotIndex(s: string): (k: nat)
    requires DotCount(s) == 1
    ensures k < |s| && s[k] == '.'
    ensures forall i :: 0 <= i < |s| && i != k ==> s[i] != '.'
  {
    if s[0] == '.' then
      NoDots(s[1..]);
      0
    else
      1 + DotIndex(s[1..])
  }

  lemma {:induction false} NoDots(s: string)
    requires DotCount(s) == 0
    ensures forall i :: 0 <= i < |s| ==> s[i] != '.'
  {
    if s != [] {
      NoDots(s[1..]);
    }
  }

  lemma {:induction false} DigitsHaveNoDots(s: string)
    requires AllDigits(s)
    ensures DotCount(s) == 0
  {
    if s != [] {
      DigitsHaveNoDots(s[1..]);
    }
  }

  /** JavaScript's `Number(s)` when `s` holds only digits and dots: the empty
      string is 0, a single optional dot separates the integer digits from
      the fraction digits (either side may be empty, not both), and anything
      else is NaN. */
  function DecimalNumber(s: string): (r: Number)
    requires AllNumericChars(s)
    ensures r.NaN? <==> DotCount(s) > 1 || s == "."
    ensures !r.NaN? ==> r.Finite? && r.value >= 0.0
  {
    if s == [] then Finite(0.0)
    else if DotCount(s) > 1 || s == "." then NaN
    else if DotCount(s) == 0 then
      NoDots(s);
      Finite(DigitsValue(s) as real)
    else
      var k := DotIndex(s);
      Finite(Mantissa(s[..k], s[k + 1..]))
  }

  /** The value of digits, one dot and digits (not both runs empty) is the
      mantissa of the two runs. */
  lemma DecimalNumberDotted(a: string, b: string)
    requires AllDigits(a) && AllDigits(b) && |a| + |b| >= 1
    ensures AllNumericChars(a + "." + b)
    ensures DecimalNumber(a + "." + b) == Finite(Mantissa(a, b))
  {
    var s := a + "." + b;
    assert s == a + ("." + b);
    DigitsHaveNoDots(a);
    DigitsHaveNoDots(b);
    DotCountConcat(".", b);
    DotCountConcat(a, "." + b);
    assert s[|a|] == '.';
    var k := DotIndex(s);
    assert k == |a|;
    assert s[..k] == a && s[k + 1..] == b;
  }

  /** `Number("12.5")` is 12.5. */
  lemma DecimalNumberSample()
    ensures DecimalNumber("12.5") == Finite(12.5)
  {
    DecimalNumberDotted("12", "5");
    assert "12" + "." + "5" == "12.5";
    MantissaValue("12", "5");
    assert "12"[..1] == "1";
    assert DigitsValue("12") == 12 && DigitsValue("5") == 5;
    assert Pow10(1) == 10;
  }

  /** `Number(String(raw).replace(/[^\d.]/g, ''))`: what both size inputs
      compute from the typed text. */
  function NumberOfCleaned(raw: string): (r: Number)
    ensures r.NaN? <==> DotCount(Clean(raw)) > 1 || Clean(raw) == "."
    ensures !r.NaN? ==> r.Finite? && r.value >= 0.0
  {
    DecimalNumber(Clean(raw))
  }

  /** Text whose digits and dots are exactly a run of digits reads as the
      value of those digits. */
  lemma NumberOfCleanedDigits(raw: string, d: string)
    requires Clean(raw) == d && AllDigits(d)
    ensures NumberOfCleaned(raw) == Finite(DigitsValue(d) as real)
  {
    DigitsHaveNoDots(d);
    if d == [] {
      assert DigitsValue(d) == 0;
    }
  }

  /** Typing the decimal form of a natural number gives back that number. */
  lemma NumberOfCleanedNat(n: nat)
    ensures NumberOfCleaned(NatToDigits(n)) == Finite(n as real)
  {
    var s := NatToDigits(n);
    CleanKeepsNumericText(s);
    DigitsHaveNoDots(s);
    DigitsValueOfNat(n);
  }

  // ---------------------------------------------------------------------
  // `String.prototype.trim`

  function TrimStart(s: string): (r: string)
    ensures |r| <= |s| && r == s[|s| - |r|..]
    ensures forall i :: 0 <= i < |s| - |r| ==> IsJsWhitespace(s[i])
    ensures r == [] || !IsJsWhitespace(r[0])
  {
    if s != [] && IsJsWhitespace(s[0]) then TrimStart(s[1..]) else s
  }

  function TrimEnd(s: string): (r: string)
    ensures |r| <= |s| && r == s[..|r|]
    ensures forall i :: |r| <= i < |s| ==> IsJsWhitespace(s[i])
    ensures r == [] || !IsJsWhitespace(r[|r| - 1])
  {
    if s != [] && IsJsWhitespace(s[|s| - 1]) then TrimEnd(s[..|s| - 1]) else s
  }

  /** `s.trim()`: `s` without its leading and trailing white space. */
  function Trim(s: string): (r: string)
    ensures r == [] || (!IsJsWhitespace(r[0]) && !IsJsWhitespace(r[|r| - 1]))
  {
    var t := TrimStart(s);
    var r := TrimEnd(t);
    assert r != [] ==> r[0] == t[0];
    r
  }

  /** `trim()` is blank exactly when the text is all white space. */
  lemma TrimBlank(s: string)
    ensures Trim(s) == [] <==> forall i :: 0 <= i < |s| ==> IsJsWhitespace(s[i])
  {
  }

  // ---------------------------------------------------------------------
  // `parseFloat`

  /** The length of the run of digits that starts `s`. */
  function DigitRun(s: string): (n: nat)
    ensures n <= |s| && AllDigits(s[..n])
    ensures n < |s| ==> !IsDigit(s[n])
  {
    if s != [] && IsDigit(s[0]) then
      var n := 1 + DigitRun(s[1..]);
      assert forall i :: 1 <= i < n ==> s[..n][i] == s[1..][..n - 1][i - 1];
      n
    else 0
  }

  lemma {:induction false} DigitRunOfDigits(d: string, rest: string)
    requires AllDigits(d)
    requires rest == [] || !IsDigit(rest[0])
    ensures DigitRun(d + rest) == |d|
  {
    if d != [] {
      assert (d + rest)[1..] == d[1..] + rest;
      DigitRunOfDigits(d[1..], rest);
    } else {
      assert d + rest == rest;
    }
  }

  function StartsWith(s: string, prefix: string): bool {
    |prefix| <= |s| && s[..|prefix|] == prefix
  }

  /** The exponent part `e[+-]digits` at the head of `s`, or 0 when there is
      none. */
  function ExponentValue(s: string): (r: int)
    ensures r != 0 ==> |s| >= 2 && (s[0] == 'e' || s[0] == 'E') && (r < 0 ==> s[1] == '-')
  {
    if |s| >= 2 && (s[0] == 'e' || s[0] == 'E') then
      var t := s[1..];
      var neg := t[0] == '-';
      var u := if t[0] == '-' || t[0] == '+' then t[1..] else t;
      var k := DigitRun(u);
      if k == 0 then 0
      else if neg then -(DigitsValue(u[..k]) as int)
      else DigitsValue(u[..k]) as int
    else 0
  }

  /** The unsigned decimal literal at the head of `u`: at least one digit
      in all, split by an optional dot, then an optional exponent; NaN when
      `u` does not start with one. */
  function DecimalLiteral(u: string): (r: Number)
    ensures r.Finite? || r.NaN?
    ensures r.Finite? ==> r.value >= 0.0
    ensures u == [] || !(IsDigit(u[0]) || u[0] == '.') ==> r == NaN
  {
    var i := DigitRun(u);
    var afterInt := u[i..];
    var hasDot := afterInt != [] && afterInt[0] == '.';
    var afterDot := if hasDot then afterInt[1..] else afterInt;
    var f := if hasDot then DigitRun(afterDot) else 0;
    if i == 0 && f == 0 then NaN
    else Finite(Shift10(Mantissa(u[..i], afterDot[..f]), ExponentValue(afterDot[f..])))
  }

  /** `int.frac` scaled by `10^|frac|` is the integer `int frac` (which
      `DigitsValueConcat` splits into its two runs). */
  lemma MantissaValue(i: string, f: string)
    requires AllDigits(i) && AllDigits(f)
    ensures AllDigits(i + f) && Mantissa(i, f) * Pow10(|f|) as real == DigitsValue(i + f) as real
  {
    var m := DigitsValue(i + f) as real;
    assert Mantissa(i, f) == Shift10(m, -(|f| as int));
    Shift10Right(m, |f|);
  }

  /** `n` digits are worth less than `10^n`. */
  lemma {:induction false} DigitsValueBound(s: string)
    requires AllDigits(s)
    ensures DigitsValue(s) < Pow10(|s|)
  {
    if s != [] {
      DigitsValueBound(s[..|s| - 1]);
    }
  }

  /** Appending digits shifts the value left by their number. */
  lemma {:induction false} DigitsValueConcat(a: string, b: string)
    requires AllDigits(a) && AllDigits(b)
    ensures AllDigits(a + b) && DigitsValue(a + b) == DigitsValue(a) * Pow10(|b|) + DigitsValue(b)
  {
    if b == [] {
      assert a + b == a;
    } else {
      var b' := b[..|b| - 1];
      var d := DigitValue(b[|b| - 1]);
      assert (a + b)[..|a + b| - 1] == a + b';
      assert (a + b)[|a + b| - 1] == b[|b| - 1];
      DigitsValueConcat(a, b');
      var x, p, y := DigitsValue(a), Pow10(|b'|), DigitsValue(b');
      assert DigitsValue(a + b) == 10 * DigitsValue(a + b') + d;
      assert DigitsValue(a + b') == x * p + y;
      assert DigitsValue(b) == 10 * y + d;
      assert Pow10(|b|) == 10 * p;
      MulTenNat(x, p);
    }
  }

  /** The value of `intDigits.fracDigits`. */
  function Mantissa(intDigits: string, fracDigits: string): (m: real)
    requires AllDigits(intDigits) && AllDigits(fracDigits)
    ensures m >= 0.0
  {
    Shift10(DigitsValue(intDigits + fracDigits) as real, -|fracDigits|)
  }

  /** `parseFloat(s)`: skip leading white space, read an optional sign, then
      either `Infinity` or the longest decimal literal; trailing characters
      are ignored, and text with no literal at its head is NaN. */
  function ParseFloat(s: string): (r: Number)
    ensures var t := TrimStart(s);
      t == [] || !(IsDigit(t[0]) || t[0] == '.' || t[0] == '-' || t[0] == '+' || t[0] == 'I') ==> r == NaN
    ensures (r.NegInf? || (r.Finite? && r.value < 0.0)) ==> TrimStart(s) != [] && TrimStart(s)[0] == '-'
  {
    var t := TrimStart(s);
    var neg := |t| > 0 && t[0] == '-';
    var u := if |t| > 0 && (t[0] == '-' || t[0] == '+') then t[1..] else t;
    if StartsWith(u, "Infinity") then (if neg then NegInf else PosInf)
    else match DecimalLiteral(u)
      case Finite(x) => Finite(if neg then -x else x)
      case other => other
  }

  lemma DecimalLiteralOfDigits(d: string, junk: string)
    requires |d| >= 1 && AllDigits(d)
    requires junk == [] || !(IsDigit(junk[0]) || junk[0] == '.' || junk[0] == 'e' || junk[0] == 'E')
    ensures DecimalLiteral(d + junk) == Finite(DigitsValue(d) as real)
  {
    var u := d + junk;
    DigitRunOfDigits(d, junk);
    assert u[..|d|] == d;
    assert u[|d|..] == junk;
    assert junk[..0] == "" && junk[0..] == junk;
    MantissaWhole(d);
    assert DecimalLiteral(u) == Finite(Shift10(Mantissa(d, ""), ExponentValue(junk)));
  }

  /** With no fraction digits the mantissa is the integer digits' value. */
  lemma MantissaWhole(d: string)
    requires AllDigits(d)
    ensures Mantissa(d, "") == DigitsValue(d) as real
  {
    assert d + "" == d;
  }

  /** `parseFloat` reads the number at the head of the text and ignores what
      follows it. */
  lemma ParseFloatNatPrefix(n: nat, junk: string)
    requires junk == [] || !(IsDigit(junk[0]) || junk[0] == '.' || junk[0] == 'e' || junk[0] == 'E')
    ensures ParseFloat(NatToDigits(n) + junk) == Finite(n as real)
  {
    var d := NatToDigits(n);
    var s := d + junk;
    assert s[0] == d[0] && IsDigit(s[0]);
    assert !IsJsWhitespace(s[0]);
    assert TrimStart(s) == s;
    assert s[0] != '-' && s[0] != '+';
    assert !StartsWith(s, "Infinity") by {
      assert "Infinity"[0] == 'I';
    }
    DecimalLiteralOfDigits(d, junk);
    DigitsValueOfNat(n);
  }

  /** On non-empty digit text `parseFloat` and `Number` agree; on the empty
      string they do not: `Number("")` is 0 and `parseFloat("")` is NaN. */
  lemma ParseFloatVersusNumber(n: nat)
    ensures ParseFloat(NatToDigits(n)) == NumberOfCleaned(NatToDigits(n)) == Finite(n as real)
    ensures ParseFloat("") == NaN && NumberOfCleaned("") == Finite(0.0)
  {
    var d := NatToDigits(n);
    assert d + "" == d;
    ParseFloatNatPrefix(n, "");
    NumberOfCleanedNat(n);
    ParseFloatEmpty();
  }

  /** `parseFloat("")` is NaN, while `Number("")` is 0. */
  lemma ParseFloatEmpty()
    ensures ParseFloat("") == NaN && NumberOfCleaned("") == Finite(0.0)
  {
    assert TrimStart("") == "";
    assert !StartsWith("", "Infinity");
    assert DigitRun("") == 0;
    assert DecimalLiteral("") == NaN;
    assert Clean("") == "";
  }
}

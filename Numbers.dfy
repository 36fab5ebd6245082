/**
 * Numbers as the adapter reads and writes them: Python's `float(...)` and
 * `int(...)` on a token, and the fixed-point `{:w.pf}` / `{:d}` formats used in
 * the input deck.
 *
 * A Python float is modelled by its exact value: a finite real, a signed
 * infinity, or NaN. Rounding to binary64, overflow to infinity and the sign
 * of zero are not part of this model.
 */
module Numbers {
  import opened Wrappers
  import opened Text

  datatype Float = Finite(value: real) | Infinite(negative: bool) | NaN

  /** `np.isnan(x)`. */
  predicate IsNaN(x: Float)
  {
    x.NaN?
  }

  /** `-x`. */
  function Negate(x: Float): (r: Float)
    ensures r.Finite? <==> x.Finite?
    ensures x.Finite? ==> r.value == -x.value
    ensures IsNaN(r) <==> IsNaN(x)
  {
    match x
    case Finite(v) => Finite(-v)
    case Infinite(neg) => Infinite(!neg)
    case NaN => NaN
  }

  /** `x * f`, for a positive finite constant `f`. */
  function ScaleBy(x: Float, f: real): (r: Float)
    requires f > 0.0
    ensures r.Finite? <==> x.Finite?
    ensures x.Finite? ==> r.value == x.value * f
    ensures IsNaN(r) <==> IsNaN(x)
  {
    match x
    case Finite(v) => Finite(v * f)
    case _ => x
  }

  /** `x / n` for a positive integer count `n` (a zero count is the caller's error path). */
  function DivideByCount(x: Float, n: nat): (r: Float)
    requires n > 0
    ensures r.Finite? <==> x.Finite?
    ensures x.Finite? ==> r.value * (n as real) == x.value
    ensures IsNaN(r) <==> IsNaN(x)
  {
    match x
    case Finite(v) => Finite(v / (n as real))
    case _ => x
  }

  // ---------------------------------------------------------------------------
  // Decimal digits

  predicate IsDigit(c: char)
  {
    '0' <= c <= '9'
  }

  predicate AllDigits(s: string)
  {
    forall k :: 0 <= k < |s| ==> IsDigit(s[k])
  }

  function Pow10(n: nat): (r: nat)
    ensures r > 0
  {
    if n == 0 then 1 else 10 * Pow10(n - 1)
  }

  /** The value of a string of decimal digits, most significant first. */
  function DigitsValue(s: string): nat
    requires AllDigits(s)
    decreases |s|
  {
    if s == [] then 0 else 10 * DigitsValue(s[..|s| - 1]) + (s[|s| - 1] as int - '0' as int)
  }

  function DigitChar(d: nat): (c: char)
    requires d < 10
    ensures IsDigit(c)
  {
    ('0' as int + d) as char
  }

  /** The shortest decimal text of `n`. */
  function NatDigits(n: nat): (s: string)
    ensures s != [] && AllDigits(s)
    decreases n
  {
    if n < 10 then [DigitChar(n)] else NatDigits(n / 10) + [DigitChar(n % 10)]
  }

  lemma {:induction false} NatDigitsValue(n: nat)
    ensures DigitsValue(NatDigits(n)) == n
    decreases n
  {
    if n >= 10 {
      NatDigitsValue(n / 10);
      var s := NatDigits(n);
      assert s[..|s| - 1] == NatDigits(n / 10);
    }
  }

  lemma AllDigitsAppend(a: string, b: string)
    requires AllDigits(a) && AllDigits(b)
    ensures AllDigits(a + b)
  {
    forall k | 0 <= k < |a + b| ensures IsDigit((a + b)[k]) {
      if k < |a| { assert (a + b)[k] == a[k]; } else { assert (a + b)[k] == b[k - |a|]; }
    }
  }

  /** One more digit on the right: the step of `DigitsValueAppend`. */
  lemma ShiftDigit(x: int, p: int, y: int, d: int)
    ensures 10 * (x * p + y) + d == x * (10 * p) + (10 * y + d)
  {
  }

  lemma {:induction false} DigitsValueAppend(a: string, b: string)
    requires AllDigits(a) && AllDigits(b)
    ensures AllDigits(a + b)
    ensures DigitsValue(a + b) == DigitsValue(a) * Pow10(|b|) + DigitsValue(b)
    decreases |b|
  {
    AllDigitsAppend(a, b);
    if b == [] {
      assert a + b == a;
    } else {
      var b' := b[..|b| - 1];
      var d := b[|b| - 1] as int - '0' as int;
      assert (a + b)[..|a + b| - 1] == a + b';
      assert (a + b)[|a + b| - 1] == b[|b| - 1];
      DigitsValueAppend(a, b');
      assert DigitsValue(a + b) == 10 * DigitsValue(a + b') + d;
      assert DigitsValue(b) == 10 * DigitsValue(b') + d;
      ShiftDigit(DigitsValue(a), Pow10(|b'|), DigitsValue(b'), d);
    }
  }

  lemma {:induction false} ZerosValue(n: nat)
    ensures AllDigits(seq(n, _ => '0')) && DigitsValue(seq(n, _ => '0')) == 0
    decreases n
  {
    if n > 0 {
      assert seq(n, _ => '0')[..n - 1] == seq(n - 1, _ => '0');
      ZerosValue(n - 1);
    }
  }

  /** The digits of `n`, filled with `0` on the left up to `width` columns. */
  function ZeroPadded(n: nat, width: nat): (s: string)
    ensures |s| >= width && s != [] && AllDigits(s) && DigitsValue(s) == n
  {
    var d := NatDigits(n);
    NatDigitsValue(n);
    if |d| < width then
      var z := seq(width - |d|, _ => '0');
      ZerosValue(width - |d|);
      DigitsValueAppend(z, d);
      z + d
    else
      d
  }

  // ---------------------------------------------------------------------------
  // Formatting

  /** Round to the nearest integer, ties to even: Python's rounding of the exact value. */
  function RoundHalfEven(x: real): (n: int)
    ensures x - 0.5 <= n as real <= x + 0.5
    ensures (n as real - x == 0.5 || x - n as real == 0.5) ==> n % 2 == 0
  {
    var f := x.Floor;
    var d := x - f as real;
    if d < 0.5 then f else if d > 0.5 then f + 1 else if f % 2 == 0 then f else f + 1
  }

  /** The digits of `mag / 10^prec` with exactly `prec` decimals. */
  function FixedText(mag: nat, prec: nat): string
  {
    if prec == 0 then NatDigits(mag)
    else
      var d := ZeroPadded(mag, prec + 1);
      d[..|d| - prec] + "." + d[|d| - prec..]
  }

  /** `v * 10^prec`. */
  function Scaled(v: real, prec: nat): real
  {
    v * (Pow10(prec) as real)
  }

  function Magnitude(n: int): nat
  {
    if n < 0 then -n else n
  }

  /** The sign printed in front of a number (Python prints it for every negative value,
      even one that rounds to zero). */
  function SignText(neg: bool): string
  {
    if neg then "-" else ""
  }

  function Signed(neg: bool, m: real): real
  {
    if neg then -m else m
  }

  /** `mag / 10^prec`. */
  function Fraction(mag: nat, prec: nat): real
  {
    (mag as real) / (Pow10(prec) as real)
  }

  /** The value `x` takes once printed with `prec` decimals. */
  function Rounded(x: Float, prec: nat): Float
  {
    match x
    case Finite(v) => Finite(RoundHalfEven(Scaled(v, prec)) as real / (Pow10(prec) as real))
    case _ => x
  }

  /** The text `{:.prec f}` prints for `x`, before any padding. */
  function FixedBody(x: Float, prec: nat): string
  {
    match x
    case NaN => "nan"
    case Infinite(neg) => if neg then "-inf" else "inf"
    case Finite(v) => SignText(v < 0.0) + FixedText(Magnitude(RoundHalfEven(Scaled(v, prec))), prec)
  }

  /** `format(x, "{width}.{prec}f")`: the text right-aligned in `width` columns, each
      column past the text's own length adding one blank in front. */
  function FormatFixed(x: Float, width: nat, prec: nat): string
    decreases width
  {
    if width == 0 then FixedBody(x, prec)
    else
      var t := FormatFixed(x, width - 1, prec);
      if |t| >= width then t else " " + t
  }

  /** The formatted text is the printed number padded on the left. */
  lemma {:induction false} FormatFixedIsPadded(x: Float, width: nat, prec: nat)
    ensures FormatFixed(x, width, prec) == PadLeft(FixedBody(x, prec), width)
    decreases width
  {
    if width > 0 {
      FormatFixedIsPadded(x, width - 1, prec);
      PadLeftStep(FixedBody(x, prec), width);
    } else {
      PadLeftZero(FixedBody(x, prec));
    }
  }

  lemma PadLeftZero(b: string)
    ensures PadLeft(b, 0) == b
  {
    assert Spaces(0) + b == b;
  }

  lemma PadLeftStep(b: string, width: nat)
    requires width > 0
    ensures var t := PadLeft(b, width - 1); PadLeft(b, width) == if |t| >= width then t else " " + t
  {
    if |b| < width {
      assert " " + Spaces(width - 1 - |b|) == Spaces(width - |b|);
    }
  }

  /** `f"{n:d}"`. */
  function IntText(n: int): string
  {
    if n < 0 then "-" + NatDigits(-n) else NatDigits(n)
  }

  // ---------------------------------------------------------------------------
  // Parsing

  /** The first index holding `c1` or `c2`, or `|s|`. */
  function FirstIndex(s: string, c1: char, c2: char): (k: nat)
    ensures k <= |s|
    ensures forall j :: 0 <= j < k ==> s[j] != c1 && s[j] != c2
    ensures k < |s| ==> s[k] == c1 || s[k] == c2
  {
    if s == [] || s[0] == c1 || s[0] == c2 then 0 else 1 + FirstIndex(s[1..], c1, c2)
  }

  /** An optional sign followed by at least one decimal digit, nothing else. */
  function ParseSignedDigits(s: string): Option<int>
  {
    var signed := |s| > 0 && (s[0] == '-' || s[0] == '+');
    var ds := if signed then s[1..] else s;
    if ds != [] && AllDigits(ds) then
      var v: int := DigitsValue(ds);
      Some(if signed && s[0] == '-' then -v else v)
    else None
  }

  function Scale10(m: nat, e: int): real
  {
    if e >= 0 then (m * Pow10(e)) as real else (m as real) / (Pow10(-e) as real)
  }

  /** Unsigned decimal literal: `digits [. [digits]] [e [sign] digits]` or `. digits [...]`. */
  function ParseDecimal(s: string): Option<real>
  {
    var e := FirstIndex(s, 'e', 'E');
    var mant := s[..e];
    var expo := if e == |s| then Some(0) else ParseSignedDigits(s[e + 1..]);
    var d := FirstIndex(mant, '.', '.');
    var ip := mant[..d];
    var fp := if d < |mant| then mant[d + 1..] else [];
    if AllDigits(ip + fp) && |ip| + |fp| > 0 && expo.Some? then
      Some(Scale10(DigitsValue(ip + fp), expo.value - |fp|))
    else None
  }

  /** Python's `float(s)`; `None` where Python raises `ValueError`. */
  function ParseFloat(s: string): Option<Float>
  {
    ParseFloatFrom(s, 0)
  }

  /** `float()` as a scan: the leading blanks (phase 0), then the trailing
      blanks (phase 1) are dropped one at a time, then the text is read.
      The result is `ParseFloatText(s.strip())`, as `ParseFloatIsStrip` proves. */
  function ParseFloatFrom(s: string, phase: nat): Option<Float>
    decreases |s|, 2 - phase
  {
    if phase == 0 then
      if s != [] && IsSpace(s[0]) then ParseFloatFrom(s[1..], 0) else ParseFloatFrom(s, 1)
    else if phase == 1 then
      if s != [] && IsSpace(s[|s| - 1]) then ParseFloatFrom(s[..|s| - 1], 1) else ParseFloatFrom(s, 2)
    else ParseFloatText(s)
  }

  /** `float(t)` for a text without surrounding whitespace. */
  function ParseFloatText(t: string): Option<Float>
  {
    var signed := |t| > 0 && (t[0] == '-' || t[0] == '+');
    var neg := signed && t[0] == '-';
    var body := if signed then t[1..] else t;
    var word := Lower(body);
    if word == "inf" || word == "infinity" then Some(Infinite(neg))
    else if word == "nan" then Some(NaN)
    else
      match ParseDecimal(body)
      case Some(v) => Some(Finite(Signed(neg, v)))
      case None => None
  }

  /** Python's `int(s)`; `None` where Python raises `ValueError`. */
  function ParseInt(s: string): Option<int>
  {
    ParseIntFrom(s, 0)
  }

  /** `int()` as the same scan as `ParseFloatFrom`. */
  function ParseIntFrom(s: string, phase: nat): Option<int>
    decreases |s|, 2 - phase
  {
    if phase == 0 then
      if s != [] && IsSpace(s[0]) then ParseIntFrom(s[1..], 0) else ParseIntFrom(s, 1)
    else if phase == 1 then
      if s != [] && IsSpace(s[|s| - 1]) then ParseIntFrom(s[..|s| - 1], 1) else ParseIntFrom(s, 2)
    else ParseSignedDigits(s)
  }

  lemma {:induction false} ParseFloatRight(s: string)
    ensures ParseFloatFrom(s, 1) == ParseFloatText(StripRight(s))
    decreases |s|
  {
    if s != [] && IsSpace(s[|s| - 1]) { ParseFloatRight(s[..|s| - 1]); }
  }

  lemma {:induction false} ParseFloatLeft(s: string)
    ensures ParseFloatFrom(s, 0) == ParseFloatText(Strip(s))
    decreases |s|
  {
    if s != [] && IsSpace(s[0]) { ParseFloatLeft(s[1..]); } else { ParseFloatRight(s); }
  }

  /** `float(s)` reads `s.strip()`. */
  lemma ParseFloatIsStrip(s: string)
    ensures ParseFloat(s) == ParseFloatText(Strip(s))
  {
    ParseFloatLeft(s);
  }

  lemma {:induction false} ParseIntRight(s: string)
    ensures ParseIntFrom(s, 1) == ParseSignedDigits(StripRight(s))
    decreases |s|
  {
    if s != [] && IsSpace(s[|s| - 1]) { ParseIntRight(s[..|s| - 1]); }
  }

  lemma {:induction false} ParseIntLeft(s: string)
    ensures ParseIntFrom(s, 0) == ParseSignedDigits(Strip(s))
    decreases |s|
  {
    if s != [] && IsSpace(s[0]) { ParseIntLeft(s[1..]); } else { ParseIntRight(s); }
  }

  /** `int(s)` reads `s.strip()`. */
  lemma ParseIntIsStrip(s: string)
    ensures ParseInt(s) == ParseSignedDigits(Strip(s))
  {
    ParseIntLeft(s);
  }

  // ---------------------------------------------------------------------------
  // Round trips

  lemma NoSpaceDigit(c: char)
    requires IsDigit(c) || c == '-'
    ensures !IsSpace(c)
  {
  }

  lemma SignedDigitsOfIntText(n: int)
    ensures ParseSignedDigits(IntText(n)) == Some(n)
  {
    var t := IntText(n);
    if n < 0 {
      NatDigitsValue(-n);
      assert t[1..] == NatDigits(-n);
    } else {
      NatDigitsValue(n);
    }
  }

  /** `int(f"{n:d}")` padded to any width gives `n` back. */
  lemma IntRoundTrip(n: int, width: nat)
    ensures ParseInt(PadLeft(IntText(n), width)) == Some(n)
  {
    var t := IntText(n);
    NoSpaceDigit(t[0]);
    NoSpaceDigit(t[|t| - 1]);
    StripPadLeft(t, width);
    ParseIntIsStrip(PadLeft(t, width));
    SignedDigitsOfIntText(n);
  }

  lemma FixedTextShape(mag: nat, prec: nat)
    ensures var s := FixedText(mag, prec);
      s != [] && IsDigit(s[0]) && IsDigit(s[|s| - 1])
      && (forall j :: 0 <= j < |s| ==> s[j] != 'e' && s[j] != 'E')
  {
    var s := FixedText(mag, prec);
    if prec > 0 {
      var d := ZeroPadded(mag, prec + 1);
      var a, b := d[..|d| - prec], d[|d| - prec..];
      assert s == a + "." + b;
      forall j | 0 <= j < |s| ensures s[j] != 'e' && s[j] != 'E' {
        if j < |a| { assert s[j] == d[j]; }
        else if j == |a| { assert s[j] == '.'; }
        else { assert s[j] == d[j - 1]; }
      }
      assert s[0] == d[0];
      assert s[|s| - 1] == d[|d| - 1];
    }
  }

  lemma NoExponentMark(s: string)
    requires forall j :: 0 <= j < |s| ==> IsDigit(s[j]) || s[j] == '.'
    ensures FirstIndex(s, 'e', 'E') == |s|
  {
  }

  lemma ParseDecimalDigits(a: string)
    requires AllDigits(a) && a != []
    ensures ParseDecimal(a) == Some(DigitsValue(a) as real)
  {
    NoExponentMark(a);
    assert a[..|a|] == a;
    assert FirstIndex(a, '.', '.') == |a|;
    assert a + [] == a;
  }

  lemma ParseDecimalPoint(a: string, b: string)
    requires AllDigits(a) && AllDigits(b) && a != []
    ensures ParseDecimal(a + "." + b) == Some(Scale10(DigitsValue(a + b), -|b|))
  {
    var s := a + "." + b;
    forall j | 0 <= j < |s| ensures IsDigit(s[j]) || s[j] == '.' {
      if j < |a| { assert s[j] == a[j]; }
      else if j > |a| { assert s[j] == b[j - |a| - 1]; }
    }
    NoExponentMark(s);
    assert s[..|s|] == s;
    var d := FirstIndex(s, '.', '.');
    assert s[|a|] == '.';
    assert d == |a|;
    assert s[..d] == a;
    assert s[d + 1..] == b;
    AllDigitsAppend(a, b);
  }

  lemma FixedTextValue(mag: nat, prec: nat)
    ensures ParseDecimal(FixedText(mag, prec)) == Some(Fraction(mag, prec))
  {
    if prec == 0 {
      NatDigitsValue(mag);
      ParseDecimalDigits(NatDigits(mag));
      assert Pow10(0) == 1;
    } else {
      FixedPointValue(mag, prec);
    }
  }

  /** The text with a decimal point reads back as the fraction. */
  lemma FixedPointValue(mag: nat, prec: nat)
    requires prec > 0
    ensures ParseDecimal(FixedText(mag, prec)) == Some(Fraction(mag, prec))
  {
    var dg := ZeroPadded(mag, prec + 1);
    var a, b := dg[..|dg| - prec], dg[|dg| - prec..];
    assert a + b == dg;
    assert AllDigits(a) && AllDigits(b) && a != [] by {
      assert forall j :: 0 <= j < |a| ==> a[j] == dg[j];
      assert forall j :: 0 <= j < |b| ==> b[j] == dg[|dg| - prec + j];
    }
    ParseDecimalPoint(a, b);
    assert Scale10(DigitsValue(a + b), -|b|) == Fraction(mag, prec);
  }

  lemma LowerKeepsDigit(body: string)
    requires body != [] && IsDigit(body[0])
    ensures var word := Lower(body); word != "inf" && word != "infinity" && word != "nan"
  {
    var word := Lower(body);
    assert word[0] == body[0];
    assert "inf"[0] == 'i' && "infinity"[0] == 'i' && "nan"[0] == 'n';
  }

  lemma ParseFloatStripped(t: string, neg: bool, body: string, v: real)
    requires t == SignText(neg) + body
    requires body != [] && IsDigit(body[0])
    requires ParseDecimal(body) == Some(v)
    ensures ParseFloatText(t) == Some(Finite(Signed(neg, v)))
  {
    assert (t[0] == '-' || t[0] == '+') <==> neg;
    assert (if neg then t[1..] else t) == body;
    LowerKeepsDigit(body);
  }

  /** `float()` of a padded, optionally negated decimal text. */
  lemma ParseSignedText(neg: bool, body: string, width: nat, v: real)
    requires body != [] && IsDigit(body[0]) && IsDigit(body[|body| - 1])
    requires ParseDecimal(body) == Some(v)
    ensures ParseFloat(PadLeft(SignText(neg) + body, width)) == Some(Finite(Signed(neg, v)))
  {
    var t := SignText(neg) + body;
    NoSpaceDigit(t[0]);
    assert t[|t| - 1] == body[|body| - 1];
    NoSpaceDigit(t[|t| - 1]);
    StripPadLeft(t, width);
    ParseFloatIsStrip(PadLeft(t, width));
    ParseFloatStripped(t, neg, body, v);
  }

  lemma ParseSpecialWord(x: Float, width: nat)
    requires !x.Finite?
    ensures ParseFloat(PadLeft(FixedBody(x, 0), width)) == Some(x)
  {
    var t := FixedBody(x, 0);
    StripPadLeft(t, width);
    ParseFloatIsStrip(PadLeft(t, width));
    if x.NaN? {
      ParseNan();
    } else {
      ParseInf(x.negative);
    }
  }

  lemma ParseNan()
    ensures ParseFloatText("nan") == Some(NaN)
  {
    assert Lower("nan") == "nan";
  }

  lemma ParseInf(neg: bool)
    ensures ParseFloatText(if neg then "-inf" else "inf") == Some(Infinite(neg))
  {
    var t := if neg then "-inf" else "inf";
    assert (if neg then t[1..] else t) == "inf";
    assert Lower("inf") == "inf";
  }

  lemma RoundSign(v: real, prec: nat)
    ensures v < 0.0 ==> RoundHalfEven(Scaled(v, prec)) <= 0
    ensures v >= 0.0 ==> RoundHalfEven(Scaled(v, prec)) >= 0
  {
  }

  lemma NegDiv(a: real, p: real)
    requires p > 0.0
    ensures -(a / p) == (-a) / p
  {
  }

  lemma RoundedValue(v: real, prec: nat)
    ensures Rounded(Finite(v), prec)
      == Finite(Signed(v < 0.0, Fraction(Magnitude(RoundHalfEven(Scaled(v, prec))), prec)))
  {
    var p := Pow10(prec) as real;
    var n := RoundHalfEven(Scaled(v, prec));
    RoundSign(v, prec);
    if v < 0.0 {
      assert Magnitude(n) == -n;
      NegDiv(Magnitude(n) as real, p);
      assert (-(Magnitude(n) as real)) == n as real;
    } else {
      assert Magnitude(n) == n;
    }
  }

  lemma ParseFixedNumber(neg: bool, mag: nat, width: nat, prec: nat)
    ensures ParseFloat(PadLeft(SignText(neg) + FixedText(mag, prec), width))
      == Some(Finite(Signed(neg, Fraction(mag, prec))))
  {
    FixedTextShape(mag, prec);
    FixedTextValue(mag, prec);
    ParseSignedText(neg, FixedText(mag, prec), width, Fraction(mag, prec));
  }

  lemma ParseFixedFinite(v: real, width: nat, prec: nat)
    ensures ParseFloat(PadLeft(FixedBody(Finite(v), prec), width)) == Some(Rounded(Finite(v), prec))
  {
    RoundedValue(v, prec);
    ParseFixedNumber(v < 0.0, Magnitude(RoundHalfEven(Scaled(v, prec))), width, prec);
  }

  /** What `{:w.pf}` prints, `float()` reads back as the value rounded to `p` decimals. */
  lemma FormatParseRoundTrip(x: Float, width: nat, prec: nat)
    ensures ParseFloat(FormatFixed(x, width, prec)) == Some(Rounded(x, prec))
  {
    FormatFixedIsPadded(x, width, prec);
    if x.Finite? {
      ParseFixedFinite(x.value, width, prec);
    } else {
      assert FixedBody(x, prec) == FixedBody(x, 0);
      ParseSpecialWord(x, width);
    }
  }

  /** The printed text of a number is one blank-free field. */
  lemma FixedBodyToken(x: Float, prec: nat)
    ensures FixedBody(x, prec) != [] && NoSpace(FixedBody(x, prec))
  {
    if x.Finite? {
      var mag := Magnitude(RoundHalfEven(Scaled(x.value, prec)));
      FixedTextChars(mag, prec);
      SignedTextToken(x.value < 0.0, FixedText(mag, prec));
    }
  }

  /** A sign in front of digits and points leaves a token without blanks. */
  lemma SignedTextToken(neg: bool, body: string)
    requires body != []
    requires forall j :: 0 <= j < |body| ==> IsDigit(body[j]) || body[j] == '.'
    ensures SignText(neg) + body != [] && NoSpace(SignText(neg) + body)
  {
    var t := SignText(neg) + body;
    forall k | 0 <= k < |t| ensures !IsSpace(t[k]) {
      if neg && k == 0 {
        assert t[k] == '-';
      } else {
        assert t[k] == body[k - |SignText(neg)|];
      }
    }
  }

  lemma FixedTextChars(mag: nat, prec: nat)
    ensures FixedText(mag, prec) != []
    ensures forall j :: 0 <= j < |FixedText(mag, prec)| ==> IsDigit(FixedText(mag, prec)[j]) || FixedText(mag, prec)[j] == '.'
  {
    var s := FixedText(mag, prec);
    if prec > 0 {
      var d := ZeroPadded(mag, prec + 1);
      var a, b := d[..|d| - prec], d[|d| - prec..];
      assert s == a + "." + b;
      forall j | 0 <= j < |s| ensures IsDigit(s[j]) || s[j] == '.' {
        if j < |a| { assert s[j] == d[j]; }
        else if j > |a| { assert s[j] == d[j - 1]; }
      }
    }
  }

  /** The printed text, read back without its padding, is the rounded value. */
  lemma FixedBodyRoundTrip(x: Float, prec: nat)
    ensures ParseFloat(FixedBody(x, prec)) == Some(Rounded(x, prec))
  {
    FormatParseRoundTrip(x, 0, prec);
    assert PadLeft(FixedBody(x, prec), 0) == FixedBody(x, prec);
  }
}

/** Decimal texts and decimal numbers: exact values, rounding to the context's 28 digits,
    trailing zeros, and the text a number prints as. */
module Decimals {
  import opened Common

  const DIGITS: string := "0123456789"
  const PRECISION: nat := 28

  // ---------------------------------------------------------------- digit strings

  function Decimal(n: nat): (s: string)
    ensures s != ""
  {
    if n < 10 then [DIGITS[n]] else Decimal(n / 10) + [DIGITS[n % 10]]
  }

  predicate IsDigit(c: char) { '0' <= c <= '9' }

  predicate AllDigits(s: string) { forall c | c in s :: IsDigit(c) }

  function DigitOf(c: char): nat { if IsDigit(c) then (c - '0') as nat else 0 }

  function ValueOf(s: string): nat {
    if s == "" then 0 else 10 * ValueOf(s[..|s| - 1]) + DigitOf(s[|s| - 1])
  }

  lemma DigitRoundTrip(n: nat)
    requires n < 10
    ensures DigitOf(DIGITS[n]) == n && IsDigit(DIGITS[n])
  {}

  lemma {:induction false} DecimalRoundTrip(n: nat)
    ensures ValueOf(Decimal(n)) == n && AllDigits(Decimal(n))
  {
    DigitRoundTrip(n % 10);
    if n < 10 {
      assert Decimal(n)[..0] == "";
    } else {
      DecimalRoundTrip(n / 10);
      assert Decimal(n)[..|Decimal(n)| - 1] == Decimal(n / 10);
    }
  }

  function Zeros(n: nat): (s: string)
    ensures |s| == n
  {
    if n == 0 then "" else "0" + Zeros(n - 1)
  }

  lemma {:induction false} ZeroAhead(s: string)
    ensures ValueOf("0" + s) == ValueOf(s)
    decreases |s|
  {
    var t := "0" + s;
    if s == "" {
      assert t[..0] == "";
    } else {
      ZeroAhead(s[..|s| - 1]);
      assert t[..|t| - 1] == "0" + s[..|s| - 1];
    }
  }

  lemma {:induction false} ZerosAhead(n: nat, s: string)
    ensures ValueOf(Zeros(n) + s) == ValueOf(s)
  {
    if n == 0 {
      assert Zeros(0) + s == s;
    } else {
      var rest := Zeros(n - 1);
      ZerosAhead(n - 1, s);
      ZeroAhead(rest + s);
      assert ("0" + rest) + s == "0" + (rest + s);
    }
  }

  lemma {:induction false} ZerosAreDigits(n: nat)
    ensures AllDigits(Zeros(n))
  {
    if n > 0 { ZerosAreDigits(n - 1); }
  }

  // ---------------------------------------------------------------- numbers

  /** Plus or minus `coeff` times ten to the `exp`. */
  datatype Number = Number(neg: bool, coeff: nat, exp: int)

  function Pow10(n: nat): (p: nat)
    ensures p >= 1
  {
    if n == 0 then 1 else 10 * Pow10(n - 1)
  }

  /** The number in units of ten to the `base`. */
  function AtScale(n: Number, base: int): int
    requires base <= n.exp
  {
    n.coeff * Pow10(n.exp - base)
  }

  predicate SameMagnitude(a: Number, b: Number) {
    var base := if a.exp <= b.exp then a.exp else b.exp;
    AtScale(a, base) == AtScale(b, base)
  }

  predicate SameValue(a: Number, b: Number) {
    SameMagnitude(a, b) && (a.neg == b.neg || a.coeff == 0)
  }

  function SignificantDigits(n: Number): nat { if n.coeff == 0 then 0 else |Decimal(n.coeff)| }

  /** `c` in units of `unit`, to the nearest, ties to even. */
  function HalfEven(c: nat, unit: nat): nat
    requires unit >= 1
  {
    var kept, rest := c / unit, c % unit;
    QuotientIsNat(c, unit);
    if 2 * rest > unit || (2 * rest == unit && kept % 2 == 1) then kept + 1 else kept
  }

  lemma QuotientIsNat(c: nat, unit: nat)
    requires unit >= 1
    ensures c / unit >= 0
  {}

  /** Rounds half to even to the context's precision. */
  function Rounded(n: Number): Number {
    var size := |Decimal(n.coeff)|;
    if size <= PRECISION then n
    else
      Number(n.neg, HalfEven(n.coeff, Pow10(size - PRECISION)), n.exp + size - PRECISION)
  }

  function Distance(a: int, b: int): nat { if a <= b then b - a else a - b }

  lemma NearestIs(c: nat, unit: nat)
    requires unit >= 1
    ensures var r := HalfEven(c, unit);
      2 * Distance(r * unit, c) <= unit && (2 * Distance(r * unit, c) == unit ==> r % 2 == 0)
  {
    var kept, rest := c / unit, c % unit;
    QuotientIsNat(c, unit);
    Divides(c, unit);
    assert kept * unit + rest == c && (kept + 1) * unit == kept * unit + unit;
  }

  lemma Divides(c: nat, unit: nat)
    requires unit >= 1
    ensures (c / unit) * unit + c % unit == c && 0 <= c % unit < unit
  {}

  /** A number of more than 28 digits becomes the nearest one that has its first 28 digits' scale,
      the even one of two nearest; any other number stays as it is. */
  lemma RoundsToNearest(n: Number)
    ensures |Decimal(n.coeff)| <= 28 ==> Rounded(n) == n
    ensures |Decimal(n.coeff)| > 28 ==>
      var dropped := |Decimal(n.coeff)| - 28;
      var r := Rounded(n);
      && r.neg == n.neg && r.exp == n.exp + dropped
      && 2 * Distance(r.coeff * Pow10(dropped), n.coeff) <= Pow10(dropped)
      && (2 * Distance(r.coeff * Pow10(dropped), n.coeff) == Pow10(dropped) ==> r.coeff % 2 == 0)
  {
    if |Decimal(n.coeff)| > 28 { NearestIs(n.coeff, Pow10(|Decimal(n.coeff)| - 28)); }
  }

  /** Drops trailing zeros; every zero becomes a plain 0 that keeps its sign. */
  function Strip(n: Number): Number
    decreases n.coeff
  {
    if n.coeff == 0 then Number(n.neg, 0, 0)
    else if n.coeff % 10 == 0 then Strip(Number(n.neg, n.coeff / 10, n.exp + 1))
    else n
  }

  function Normalize(n: Number): Number { Strip(Rounded(n)) }

  predicate Stripped(n: Number) { if n.coeff == 0 then n.exp == 0 else n.coeff % 10 != 0 }

  lemma {:induction false} Pow10Adds(a: nat, b: nat)
    ensures Pow10(a + b) == Pow10(a) * Pow10(b)
  {
    if a > 0 {
      Pow10Adds(a - 1, b);
      Regroup(10, Pow10(a - 1), Pow10(b));
    }
  }

  lemma Regroup(a: int, b: int, c: int)
    ensures a * (b * c) == (a * b) * c
  {}

  /** What stripping takes off the coefficient it adds to the exponent. */
  lemma {:induction false} StripForm(n: Number) returns (k: nat)
    requires n.coeff != 0
    ensures Stripped(Strip(n)) && Strip(n).coeff != 0 && Strip(n).neg == n.neg
    ensures n.coeff == Strip(n).coeff * Pow10(k) && Strip(n).exp == n.exp + k
    decreases n.coeff
  {
    if n.coeff % 10 == 0 {
      var j := StripForm(Number(n.neg, n.coeff / 10, n.exp + 1));
      k := j + 1;
      Regroup10(Strip(n).coeff, Pow10(j));
    } else {
      k := 0;
      assert Pow10(0) == 1;
    }
  }

  lemma Regroup10(c: int, p: int)
    ensures 10 * (c * p) == c * (10 * p)
  {}

  lemma StrippedAtScale(n: Number, base: int)
    requires n.coeff != 0 && base <= n.exp
    ensures Strip(n).exp >= base && AtScale(n, base) == AtScale(Strip(n), base)
  {
    var k := StripForm(n);
    Pow10Adds(k, n.exp - base);
    Regroup(Strip(n).coeff, Pow10(k), Pow10(n.exp - base));
  }

  lemma Divisible(a: int, p: int, b: int)
    requires a * (10 * p) == b
    ensures b % 10 == 0
  {
    assert b == 10 * (a * p);
  }

  lemma CancelTens(a: int, b: int, p: int)
    requires p >= 1 && a * p == b * p
    ensures a == b
  {}

  lemma LargerExponent(a: Number, b: Number, base: int, k: nat)
    requires Stripped(a) && Stripped(b) && b.coeff != 0 && base <= b.exp && a.exp == b.exp + k
    requires AtScale(a, base) == AtScale(b, base)
    ensures k == 0 && a.coeff == b.coeff
  {
    var p := Pow10(b.exp - base);
    Pow10Adds(k, b.exp - base);
    Regroup(a.coeff, Pow10(k), p);
    CancelTens(a.coeff * Pow10(k), b.coeff, p);
    if k > 0 { Divisible(a.coeff, Pow10(k - 1), b.coeff); }
  }

  /** A magnitude has one form without trailing zeros. */
  lemma StrippedIsUnique(a: Number, b: Number, base: int)
    requires Stripped(a) && Stripped(b) && a.coeff != 0 && b.coeff != 0 && base <= a.exp && base <= b.exp
    requires AtScale(a, base) == AtScale(b, base)
    ensures a.coeff == b.coeff && a.exp == b.exp
  {
    if a.exp >= b.exp { LargerExponent(a, b, base, a.exp - b.exp); } else { LargerExponent(b, a, base, b.exp - a.exp); }
  }

  lemma ZeroAtScale(n: Number, base: int)
    requires base <= n.exp
    ensures AtScale(n, base) == 0 <==> n.coeff == 0
  {}

  /** Numbers strip to the same form exactly when signs and magnitudes agree. */
  lemma StripIff(a: Number, b: Number)
    ensures Strip(a) == Strip(b) <==> a.neg == b.neg && SameMagnitude(a, b)
  {
    var base := if a.exp <= b.exp then a.exp else b.exp;
    ZeroAtScale(a, base);
    ZeroAtScale(b, base);
    if a.coeff != 0 { var k := StripForm(a); StrippedAtScale(a, base); }
    if b.coeff != 0 { var k := StripForm(b); StrippedAtScale(b, base); }
    if a.coeff != 0 && b.coeff != 0 && SameMagnitude(a, b) { StrippedIsUnique(Strip(a), Strip(b), base); }
  }

  // ---------------------------------------------------------------- printing

  function Signed(k: int): string { if k >= 0 then ['+'] + Decimal(k) else ['-'] + Decimal(-k) }

  /** The parts of a printed number: digits before and after the point, and the exponent. */
  datatype Shape = Shape(whole: string, fraction: string, mark: Option<int>)

  function Mantissa(whole: string, fraction: string): string {
    if fraction == "" then whole else whole + ['.'] + fraction
  }

  /** The exponent mark is written in lower case, as case folding leaves it. */
  function Text(s: Shape): string {
    if s.mark.None? then Mantissa(s.whole, s.fraction) else Mantissa(s.whole, s.fraction) + ['e'] + Signed(s.mark.value)
  }

  /** Digits with the point after `left` of them, with zeros put in front where it needs them. */
  function Pointed(d: string, left: int): Shape
    requires left <= |d|
  {
    if left <= 0 then
      var padded := Zeros(1 - left) + d;
      Shape(padded[..1], padded[1..], None)
    else Shape(d[..left], d[left..], None)
  }

  /** Plain notation up to five zeros after the point, else scientific. */
  function ShapeOf(coeff: nat, exp: int): Shape {
    var d := Decimal(coeff);
    if exp <= 0 && exp + |d| > -6 then Pointed(d, exp + |d|) else Shape(d[..1], d[1..], Some(exp + |d| - 1))
  }

  function Print(n: Number): string { (if n.neg then ['-'] else []) + Text(ShapeOf(n.coeff, n.exp)) }

  predicate WellShaped(s: Shape) { s.whole != "" && AllDigits(s.whole) && AllDigits(s.fraction) }

  lemma SplitIsUnique(a: string, b: string, c: char, x: string, y: string)
    requires c !in a && c !in b && a + [c] + x == b + [c] + y
    ensures a == b && x == y
  {
    var s := a + [c] + x;
    assert forall i | 0 <= i < |a| :: s[i] == a[i] && a[i] in a;
    assert forall i | 0 <= i < |b| :: s[i] == b[i] && b[i] in b;
    assert s[|a|] == c && s[|b|] == c;
    assert s[..|a|] == a && s[..|b|] == b && s[|a| + 1..] == x && s[|b| + 1..] == y;
  }

  lemma MantissaHasNoMark(whole: string, fraction: string)
    requires AllDigits(whole) && AllDigits(fraction)
    ensures 'e' !in Mantissa(whole, fraction)
    ensures '.' in Mantissa(whole, fraction) <==> fraction != ""
  {}

  lemma MantissaIsInjective(w: string, f: string, v: string, g: string)
    requires AllDigits(w) && AllDigits(f) && AllDigits(v) && AllDigits(g) && Mantissa(w, f) == Mantissa(v, g)
    ensures w == v && f == g
  {
    MantissaHasNoMark(w, f);
    MantissaHasNoMark(v, g);
    if f != "" { SplitIsUnique(w, v, '.', f, g); }
  }

  lemma SignedIsInjective(j: int, k: int)
    requires Signed(j) == Signed(k)
    ensures j == k
  {
    var a, b := if j >= 0 then j else -j, if k >= 0 then k else -k;
    assert Signed(j)[0] == Signed(k)[0] && Signed(j)[1..] == Decimal(a) && Signed(k)[1..] == Decimal(b);
    DecimalRoundTrip(a);
    DecimalRoundTrip(b);
  }

  /** A printed text has one reading. */
  lemma TextIsInjective(a: Shape, b: Shape)
    requires WellShaped(a) && WellShaped(b) && Text(a) == Text(b)
    ensures a == b
  {
    var m, n := Mantissa(a.whole, a.fraction), Mantissa(b.whole, b.fraction);
    MantissaHasNoMark(a.whole, a.fraction);
    MantissaHasNoMark(b.whole, b.fraction);
    assert 'e' in Text(a) <==> a.mark.Some?;
    assert 'e' in Text(b) <==> b.mark.Some?;
    if a.mark.Some? {
      SplitIsUnique(m, n, 'e', Signed(a.mark.value), Signed(b.mark.value));
      SignedIsInjective(a.mark.value, b.mark.value);
    }
    MantissaIsInjective(a.whole, a.fraction, b.whole, b.fraction);
  }

  /** What a shape says: its digits and where their point really is. */
  predicate Says(s: Shape, coeff: nat, exp: int) {
    WellShaped(s) && ValueOf(s.whole + s.fraction) == coeff
    && exp == (if s.mark.Some? then s.mark.value else 0) - |s.fraction|
  }

  lemma Halves(d: string, n: nat)
    requires AllDigits(d) && 1 <= n <= |d|
    ensures d[..n] != "" && AllDigits(d[..n]) && AllDigits(d[n..]) && d[..n] + d[n..] == d && |d[n..]| == |d| - n
  {}

  lemma SplitSays(d: string, left: nat)
    requires AllDigits(d) && 1 <= left <= |d|
    ensures Says(Shape(d[..left], d[left..], None), ValueOf(d), left - |d|)
  {
    Halves(d, left);
  }

  lemma PaddedSays(d: string, zeros: nat)
    requires AllDigits(d) && zeros >= 1
    ensures var padded := Zeros(zeros) + d;
      Says(Shape(padded[..1], padded[1..], None), ValueOf(d), 1 - zeros - |d|)
  {
    ZerosAreDigits(zeros);
    ZerosAhead(zeros, d);
    SplitSays(Zeros(zeros) + d, 1);
  }

  lemma PointedSays(d: string, left: int)
    requires AllDigits(d) && left <= |d|
    ensures Says(Pointed(d, left), ValueOf(d), left - |d|)
  {
    if left <= 0 { PaddedSays(d, 1 - left); } else { SplitSays(d, left); }
  }

  lemma ShapeSays(coeff: nat, exp: int)
    ensures Says(ShapeOf(coeff, exp), coeff, exp)
  {
    var d := Decimal(coeff);
    DecimalRoundTrip(coeff);
    if exp <= 0 && exp + |d| > -6 { PointedSays(d, exp + |d|); } else { Halves(d, 1); }
  }

  lemma TextStartsWithDigit(s: Shape)
    requires WellShaped(s)
    ensures Text(s) != "" && Text(s)[0] != '-'
  {
    assert Text(s)[0] == s.whole[0] && s.whole[0] in s.whole;
  }

  lemma SignApart(a: bool, s: string, b: bool, t: string)
    requires s != "" && s[0] != '-' && t != "" && t[0] != '-'
    requires (if a then ['-'] else []) + s == (if b then ['-'] else []) + t
    ensures a == b && s == t
  {
    var u := (if a then ['-'] else []) + s;
    assert a <==> u[0] == '-';
    assert b <==> u[0] == '-';
    assert u[if a then 1 else 0..] == s && u[if b then 1 else 0..] == t;
  }

  /** Two numbers print alike only if they are alike. */
  lemma PrintIsInjective(a: Number, b: Number)
    requires Print(a) == Print(b)
    ensures a == b
  {
    var s, t := ShapeOf(a.coeff, a.exp), ShapeOf(b.coeff, b.exp);
    ShapeSays(a.coeff, a.exp);
    ShapeSays(b.coeff, b.exp);
    TextStartsWithDigit(s);
    TextStartsWithDigit(t);
    SignApart(a.neg, Text(s), b.neg, Text(t));
    TextIsInjective(s, t);
  }

  // ---------------------------------------------------------------- canonical texts

  function Canonical(n: Number): string { Print(Normalize(n)) }

  /** Canonical texts agree exactly when the signs do and the magnitudes after rounding do. */
  lemma CanonicalIff(a: Number, b: Number)
    ensures Canonical(a) == Canonical(b) <==> a.neg == b.neg && SameMagnitude(Rounded(a), Rounded(b))
  {
    StripIff(Rounded(a), Rounded(b));
    if Canonical(a) == Canonical(b) { PrintIsInjective(Normalize(a), Normalize(b)); }
  }

  predicate Short(n: Number) { SignificantDigits(n) <= PRECISION }

  /** For numbers other than zero, of at most 28 significant digits, texts agree exactly when
      the values do. */
  lemma CanonicalIffValue(a: Number, b: Number)
    requires a.coeff != 0 && b.coeff != 0 && Short(a) && Short(b)
    ensures Canonical(a) == Canonical(b) <==> SameValue(a, b)
  {
    CanonicalIff(a, b);
  }

  /** Zero keeps its sign, so a negative zero is not a zero to the comparison. */
  lemma ZerosDiffer()
    ensures var a, b := Number(false, 0, 0), Number(true, 0, 0); SameValue(a, b) && Canonical(a) != Canonical(b)
  {
    CanonicalIff(Number(false, 0, 0), Number(true, 0, 0));
  }

  lemma DropsLastDigit(n: nat, kept: nat)
    requires |Decimal(n)| == PRECISION + 1 && n / 10 == kept && n % 10 < 5
    ensures Rounded(Number(false, n, 0)) == Number(false, kept, 1)
  {
    assert Pow10(1) == 10 * Pow10(0);
    assert HalfEven(n, 10) == kept;
  }

  lemma NextRoundsAlike(n: nat)
    requires |Decimal(n)| == PRECISION + 1 && n % 10 == 0
    ensures Rounded(Number(false, n, 0)) == Rounded(Number(false, n + 1, 0))
  {
    assert (n + 1) / 10 == n / 10 && |Decimal(n + 1)| == |Decimal(n)|;
    DropsLastDigit(n, n / 10);
    DropsLastDigit(n + 1, n / 10);
  }

  lemma NextDiffers(n: nat)
    ensures !SameValue(Number(false, n, 0), Number(false, n + 1, 0))
  {
    assert Pow10(0) == 1;
  }

  /** Beyond 28 digits rounding sets in: the two whole numbers that differ in a last digit of
      0 or 1 agree. */
  lemma LongNumbersAgree(n: nat)
    requires |Decimal(n)| == PRECISION + 1 && n % 10 == 0
    ensures var a, b := Number(false, n, 0), Number(false, n + 1, 0);
      !SameValue(a, b) && Canonical(a) == Canonical(b)
  {
    NextRoundsAlike(n);
    NextDiffers(n);
  }
}

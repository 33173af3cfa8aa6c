/** Non-negative integers seen as bit strings: powers of two, Python's `x >> k` and `x & y`
    on non-negative operands, `int(s, 2)` and the zero-padded binary format `'{0:0Wb}'`.
    The oscillator slices its accumulator with these and the LUT dump prints with them. */
module Binary {

  /** 2^k. */
  function Pow2(k: nat): (p: nat)
    ensures p >= 1
  {
    if k == 0 then 1 else 2 * Pow2(k - 1)
  }

  // ---------------------------------------------------------------------------
  // Division and remainder facts the solver does not find on its own.

  /** Quotient and remainder are unique. */
  lemma DivModUnique(x: int, d: int, q: int, r: int)
    requires d > 0 && 0 <= r < d && x == q * d + r
    ensures x / d == q && x % d == r
  {
    var q', r' := x / d, x % d;
    assert x == q' * d + r';
    MulSucc(q, d);
    MulSucc(q', d);
    if q > q' {
      MulMonotonic(q' + 1, q, d);
    } else if q < q' {
      MulMonotonic(q + 1, q', d);
    }
  }

  lemma MulSucc(a: int, d: int)
    ensures (a + 1) * d == a * d + d
  {
  }

  lemma MulMonotonic(a: int, b: int, d: int)
    requires a <= b && d >= 0
    ensures a * d <= b * d
  {
    assert b * d - a * d == (b - a) * d;
  }

  lemma DivDiv(x: nat, a: nat, b: nat)
    requires a > 0 && b > 0
    ensures a * b > 0 && x / a / b == x / (a * b)
  {
    var q1, r1 := x / a, x % a;
    var q2, r2 := q1 / b, q1 % b;
    Regroup(x, a, b, q1, r1, q2, r2);
    DivModUnique(x, a * b, q2, a * r2 + r1);
  }

  /** x = a * (b * q2 + r2) + r1 regrouped as a quotient and remainder modulo a * b. */
  lemma Regroup(x: int, a: int, b: int, q1: int, r1: int, q2: int, r2: int)
    requires a > 0 && b > 0 && 0 <= r1 < a && 0 <= r2 < b
    requires x == a * q1 + r1 && q1 == b * q2 + r2
    ensures a * b > 0 && x == q2 * (a * b) + (a * r2 + r1) && 0 <= a * r2 + r1 < a * b
  {
    assert a * q1 == a * (b * q2) + a * r2;
    assert a * (b * q2) == q2 * (a * b);
    MulMonotonic(r2, b - 1, a);
    assert (b - 1) * a == a * b - a;
    assert r2 * a == a * r2;
  }

  /** Dropping the bits at and above a*b and then the bits below a keeps (x / a) % b. */
  lemma ModDiv(x: nat, a: nat, b: nat)
    requires a > 0 && b > 0
    ensures a * b > 0 && (x % (a * b)) / a == (x / a) % b
  {
    var q1, r1 := x / a, x % a;
    var q2, r2 := q1 / b, q1 % b;
    Regroup(x, a, b, q1, r1, q2, r2);
    DivModUnique(x, a * b, q2, a * r2 + r1);
    DivModUnique(a * r2 + r1, a, r2, r1);
  }

  /** The remainder modulo 2m, rebuilt from the remainder of x / 2 modulo m and the low bit. */
  lemma ModDouble(x: nat, m: nat)
    requires m > 0
    ensures x % (2 * m) == 2 * ((x / 2) % m) + x % 2
  {
    var h, b := x / 2, x % 2;
    var q, r := h / m, h % m;
    assert x == q * (2 * m) + (2 * r + b) by {
      assert x == 2 * h + b;
      assert h == m * q + r;
    }
    DivModUnique(x, 2 * m, q, 2 * r + b);
  }

  /** Reducing the left operand first does not change a sum's remainder. */
  lemma ModAddLeft(a: int, b: int, m: int)
    requires m > 0
    ensures (a % m + b) % m == (a + b) % m
  {
    var q, r := a / m, a % m;
    var q2, r2 := (r + b) / m, (r + b) % m;
    assert a + b == (q + q2) * m + r2 by {
      assert a == q * m + r;
      assert r + b == q2 * m + r2;
    }
    DivModUnique(a + b, m, q + q2, r2);
  }

  /** Adding whole multiples of m does not change the remainder. */
  lemma ModAddMultiple(a: int, k: int, m: int)
    requires m > 0
    ensures (a + k * m) % m == a % m
  {
    var q, r := a / m, a % m;
    assert a + k * m == (q + k) * m + r by {
      assert a == q * m + r;
    }
    DivModUnique(a + k * m, m, q + k, r);
  }

  /** x / d falls below c exactly when x falls below c * d. */
  lemma DivBelow(x: nat, d: nat, c: nat)
    requires d > 0
    ensures x / d < c <==> x < c * d
  {
    var q, r := x / d, x % d;
    assert x == q * d + r;
    if q < c {
      MulMonotonic(q + 1, c, d);
      MulSucc(q, d);
    } else {
      MulMonotonic(c, q, d);
    }
  }

  // ---------------------------------------------------------------------------
  // Python's shift and bitwise and on non-negative integers.

  /** `x >> k`: k halvings, each dropping the least significant bit. */
  function ShiftRight(x: nat, k: nat): (r: nat)
    ensures r == x / Pow2(k)
  {
    if k == 0 then x
    else
      DivDiv(x, 2, Pow2(k - 1));
      ShiftRight(x / 2, k - 1)
  }

  /** `x & y`: bit i of the result is set exactly when bit i is set in both operands. */
  function BitAnd(x: nat, y: nat): (r: nat)
    ensures r <= x && r <= y
  {
    if x == 0 || y == 0 then 0
    else 2 * BitAnd(x / 2, y / 2) + (if x % 2 == 1 && y % 2 == 1 then 1 else 0)
  }

  lemma BitAndOddMask(x: nat, y: nat)
    requires y % 2 == 1 && x > 0
    ensures BitAnd(x, y) == 2 * BitAnd(x / 2, y / 2) + x % 2
  {
  }

  /** Masking with k one-bits keeps the remainder modulo 2^k. */
  lemma {:induction false} BitAndLowMask(x: nat, k: nat)
    ensures BitAnd(x, Pow2(k) - 1) == x % Pow2(k)
  {
    var p := Pow2(k);
    if k == 0 {
      assert p == 1;
    } else if x == 0 {
      assert BitAnd(x, p - 1) == 0;
    } else {
      var m := Pow2(k - 1);
      assert p == 2 * m;
      BitAndLowMask(x / 2, k - 1);
      BitAndMaskStep(x, m);
    }
  }

  lemma BitAndMaskStep(x: nat, m: nat)
    requires x > 0 && m > 0
    requires BitAnd(x / 2, m - 1) == (x / 2) % m
    ensures BitAnd(x, 2 * m - 1) == x % (2 * m)
  {
    var y := 2 * m - 1;
    DivModUnique(y, 2, m - 1, 1);
    BitAndOddMask(x, y);
    ModDouble(x, m);
  }

  // ---------------------------------------------------------------------------
  // Binary numerals, most significant digit first.

  function DigitChar(b: nat): (c: char)
    requires b < 2
    ensures IsBinaryDigit(c) && DigitValue(c) == b
  {
    if b == 0 then '0' else '1'
  }

  predicate IsBinaryDigit(c: char) {
    c == '0' || c == '1'
  }

  function DigitValue(c: char): nat {
    if c == '1' then 1 else 0
  }

  predicate IsBinary(s: string) {
    forall i :: 0 <= i < |s| ==> IsBinaryDigit(s[i])
  }

  /** `int(s, 2)` on a numeral of binary digits, read most significant digit first. */
  function ParseBinary(s: string): (v: nat)
    requires IsBinary(s)
    ensures v < Pow2(|s|)
  {
    if |s| == 0 then 0
    else 2 * ParseBinary(s[..|s| - 1]) + DigitValue(s[|s| - 1])
  }

  /** `'1' * k`. */
  function Ones(k: nat): (s: string) {
    seq(k, _ => '1')
  }

  /** `'0' * k`. */
  function Zeros(k: nat): (s: string) {
    seq(k, _ => '0')
  }

  /** `int('1' * k, 2)` is the mask of the k low bits. */
  lemma {:induction false} OnesValue(k: nat)
    ensures IsBinary(Ones(k)) && ParseBinary(Ones(k)) == Pow2(k) - 1
  {
    if k > 0 {
      assert Ones(k)[..k - 1] == Ones(k - 1);
      OnesValue(k - 1);
    }
  }

  /** Digit i of a numeral is bit |s|-1-i of its value: the first digit is the most significant. */
  lemma {:induction false} ParseBinaryDigitAt(s: string, i: nat)
    requires IsBinary(s) && i < |s|
    ensures (ParseBinary(s) / Pow2(|s| - 1 - i)) % 2 == DigitValue(s[i])
  {
    var init := s[..|s| - 1];
    var p := ParseBinary(init);
    var v := ParseBinary(s);
    if i < |s| - 1 {
      var j := |s| - 1 - i;
      assert init[i] == s[i];
      ParseBinaryDigitAt(init, i);
      DivDiv(v, 2, Pow2(j - 1));
      DivModUnique(v, 2, p, DigitValue(s[|s| - 1]));
    }
  }

  /** Python's `format(v, 'b')`: the shortest binary numeral of v, "0" for zero. */
  function BinaryDigits(v: nat): (s: string)
    ensures |s| >= 1 && IsBinary(s)
  {
    if v < 2 then [DigitChar(v)] else BinaryDigits(v / 2) + [DigitChar(v % 2)]
  }

  /** `'{0:0Wb}'.format(v)`: the binary numeral left-padded with '0' to at least `width` digits. */
  function FormatBinary(v: nat, width: nat): (s: string)
    ensures IsBinary(s)
  {
    var digits := BinaryDigits(v);
    if |digits| >= width then digits else Zeros(width - |digits|) + digits
  }

  lemma {:induction false} BinaryDigitsValue(v: nat)
    ensures ParseBinary(BinaryDigits(v)) == v
  {
    if v >= 2 {
      var s := BinaryDigits(v);
      assert s[..|s| - 1] == BinaryDigits(v / 2);
      BinaryDigitsValue(v / 2);
    }
  }

  lemma {:induction false} BinaryDigitsLength(v: nat, width: nat)
    requires 1 <= width && v < Pow2(width)
    ensures |BinaryDigits(v)| <= width
  {
    assert Pow2(1) == 2;
    if v >= 2 {
      BinaryDigitsLength(v / 2, width - 1);
    }
  }

  lemma {:induction false} ZerosValue(n: nat)
    ensures IsBinary(Zeros(n)) && ParseBinary(Zeros(n)) == 0
  {
    if n > 0 {
      assert Zeros(n)[..n - 1] == Zeros(n - 1);
      ZerosValue(n - 1);
    }
  }

  lemma {:induction false} LeadingZerosValue(n: nat, s: string)
    requires IsBinary(s)
    ensures IsBinary(Zeros(n) + s) && ParseBinary(Zeros(n) + s) == ParseBinary(s)
  {
    ZerosValue(n);
    if |s| > 0 {
      var t := Zeros(n) + s;
      var init := s[..|s| - 1];
      assert t[..|t| - 1] == Zeros(n) + init;
      assert t[|t| - 1] == s[|s| - 1];
      LeadingZerosValue(n, init);
      assert ParseBinary(t) == 2 * ParseBinary(Zeros(n) + init) + DigitValue(s[|s| - 1]);
    } else {
      assert Zeros(n) + s == Zeros(n);
    }
  }

  /** A value below 2^width is printed in exactly `width` digits, and reading them back gives the value. */
  lemma FormatBinaryRoundTrip(v: nat, width: nat)
    requires 1 <= width && v < Pow2(width)
    ensures |FormatBinary(v, width)| == width
    ensures ParseBinary(FormatBinary(v, width)) == v
  {
    BinaryDigitsLength(v, width);
    BinaryDigitsValue(v);
    var digits := BinaryDigits(v);
    if |digits| < width {
      LeadingZerosValue(width - |digits|, digits);
      assert FormatBinary(v, width) == Zeros(width - |digits|) + digits;
      assert |Zeros(width - |digits|) + digits| == width;
    } else {
      assert FormatBinary(v, width) == digits;
    }
  }

  /** Character i of the padded numeral is bit width-1-i of the value (most significant first). */
  lemma FormatBinaryDigitAt(v: nat, width: nat, i: nat)
    requires 1 <= width && v < Pow2(width) && i < width
    ensures FormatBinary(v, width)[i] == DigitChar((v / Pow2(width - 1 - i)) % 2)
  {
    FormatBinaryRoundTrip(v, width);
    ParseBinaryDigitAt(FormatBinary(v, width), i);
  }
}

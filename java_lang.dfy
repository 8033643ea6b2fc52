/**
 * The pieces of the Java platform the interpreter leans on: 32-bit `int`
 * arithmetic (wrap-around, truncating `/` and `%`, `(int) Math.pow`),
 * `Integer.toString`, `Integer.parseInt`, `String.repeat` and
 * `String.compareTo`.
 */
module JavaLang {
  import opened Wrappers

  const MIN_INT: int := -0x8000_0000
  const MAX_INT: int := 0x7fff_ffff
  const TWO_32: int := 0x1_0000_0000

  /** A Java `int`. */
  type int32 = x: int | MIN_INT <= x <= MAX_INT

  function Abs(x: int): nat {
    if x < 0 then -x else x
  }

  /** Keeps the low 32 bits of `x`, read as a two's-complement `int`. */
  function Wrap(x: int): (r: int32)
    ensures (x - r) % TWO_32 == 0
    ensures MIN_INT <= x <= MAX_INT ==> r == x
  {
    var m := (x - MIN_INT) % TWO_32;
    assert x - (m + MIN_INT) == TWO_32 * ((x - MIN_INT) / TWO_32);
    m + MIN_INT
  }

  /** Java's `/` on mathematical integers: the quotient rounded toward zero. */
  function Quot(a: int, b: int): (q: int)
    requires b != 0
    ensures Abs(q) * Abs(b) <= Abs(a) < Abs(q) * Abs(b) + Abs(b)
    ensures q == 0 || ((q < 0) <==> ((a < 0) != (b < 0)))
  {
    var m := Abs(a) / Abs(b);
    DivBounds(Abs(a), Abs(b));
    if (a < 0) == (b < 0) then m else -m
  }

  /** Java's `%`: the remainder that goes with `Quot`; it takes the sign of the dividend. */
  function Rem(a: int, b: int): (r: int)
    requires b != 0
    ensures a == Quot(a, b) * b + r
    ensures Abs(r) < Abs(b)
    ensures r == 0 || ((r < 0) <==> (a < 0))
  {
    QuotTimes(a, b);
    a - Quot(a, b) * b
  }

  lemma QuotTimes(a: int, b: int)
    requires b != 0
    ensures Abs(Quot(a, b) * b) == Abs(Quot(a, b)) * Abs(b)
    ensures Quot(a, b) * b == 0 || ((Quot(a, b) * b < 0) <==> (a < 0))
  {
    var q := Quot(a, b);
    if q < 0 && b < 0 {
      assert q * b == (-q) * (-b);
    } else if q < 0 {
      assert q * b == -((-q) * b);
    } else if b < 0 {
      assert q * b == -(q * (-b));
    }
  }

  /** a to the power n, exactly. */
  function Power(a: int, n: nat): int {
    if n == 0 then 1 else a * Power(a, n - 1)
  }

  /** The saturating `(int)` cast of a double that holds the integer `x`. */
  function Clamp(x: int): int32 {
    if x < MIN_INT then MIN_INT else if x > MAX_INT then MAX_INT else x
  }

  /**
   * `(int) Math.pow(a, b)` for two `int`s. `Math.pow` returns the exact
   * power whenever it is representable as a double, so for `b >= 0` the
   * result is the true power saturated to the `int` range. For `b < 0`
   * the power of 0 is +Infinity (cast to MAX_VALUE), that of 1 and -1 is
   * exact, and every other one lies strictly between -1 and 1 and
   * truncates to 0.
   */
  function JavaPow(a: int32, b: int32): int32 {
    if b >= 0 then Clamp(Power(a, b))
    else if a == 0 then MAX_INT
    else if a == 1 then 1
    else if a == -1 then (if b % 2 == 0 then 1 else -1)
    else 0
  }

  predicate IsDigit(c: char) {
    '0' <= c <= '9'
  }

  predicate AllDigits(s: string) {
    forall i :: 0 <= i < |s| ==> IsDigit(s[i])
  }

  function DigitChar(d: nat): (c: char)
    requires d < 10
    ensures IsDigit(c)
  {
    ('0' as int + d) as char
  }

  function DigitValue(c: char): nat
    requires IsDigit(c)
  {
    c as int - '0' as int
  }

  /** The decimal digits of `n`, most significant first, without leading zeros. */
  function Digits(n: nat): (s: string)
    ensures |s| > 0 && AllDigits(s)
  {
    if n < 10 then [DigitChar(n)] else Digits(n / 10) + [DigitChar(n % 10)]
  }

  /** `Integer.toString(n)`. */
  function DecimalText(n: int): string {
    if n < 0 then "-" + Digits(-n) else Digits(n)
  }

  /** The number a string of decimal digits denotes. */
  function DigitsValue(s: string): nat
    requires AllDigits(s)
  {
    if s == [] then 0 else DigitsValue(s[..|s| - 1]) * 10 + DigitValue(s[|s| - 1])
  }

  /** `s` without its leading sign, if it has one. */
  function Unsigned(s: string): string {
    if |s| > 0 && (s[0] == '-' || s[0] == '+') then s[1..] else s
  }

  /** -1 for a leading minus sign, 1 otherwise. */
  function Sign(s: string): int {
    if |s| > 0 && s[0] == '-' then -1 else 1
  }

  /**
   * `Integer.parseInt(s)`: an optional sign followed by at least one
   * decimal digit, denoting a value in the `int` range; anything else is a
   * `NumberFormatException` (`None`).
   */
  function ParseInt(s: string): (r: Option<int32>)
    ensures r.Some? <==> |Unsigned(s)| > 0 && AllDigits(Unsigned(s)) && MIN_INT <= Sign(s) * DigitsValue(Unsigned(s)) <= MAX_INT
    ensures r.Some? ==> r.value == Sign(s) * DigitsValue(Unsigned(s))
  {
    if |s| == 0 then None
    else
      var body := if s[0] == '-' || s[0] == '+' then s[1..] else s;
      if |body| == 0 || !AllDigits(body) then None
      else
        var v: int := if s[0] == '-' then -(DigitsValue(body) as int) else DigitsValue(body);
        if MIN_INT <= v <= MAX_INT then Some(v) else None
  }

  lemma {:induction false} DigitsValueOfDigits(n: nat)
    ensures DigitsValue(Digits(n)) == n
  {
    if n >= 10 {
      var s := Digits(n);
      assert s[..|s| - 1] == Digits(n / 10);
      DigitsValueOfDigits(n / 10);
    }
  }

  /** Reading back the text `Integer.toString` writes gives the same `int`. */
  lemma ParseIntOfDecimalText(n: int32)
    ensures ParseInt(DecimalText(n)) == Some(n)
  {
    var m := Abs(n);
    DigitsValueOfDigits(m);
    var d := Digits(m);
    assert !IsDigit('-');
    if n < 0 {
      assert DecimalText(n)[1..] == d;
    }
  }

  lemma DivBounds(x: nat, y: nat)
    requires y > 0
    ensures (x / y) * y <= x < (x / y) * y + y
  {
  }

  lemma MulAtLeast(d: int, k: int)
    requires d >= 1 && k > 0
    ensures d * k >= k && (-d) * k <= -k
  {
    assert d * k == (d - 1) * k + k;
  }

  /** Euclidean quotient and remainder are unique. */
  lemma DivUnique(x: int, k: int, q: int, r: int)
    requires k > 0 && x == q * k + r && 0 <= r < k
    ensures x / k == q && x % k == r
  {
    var d := q - x / k;
    assert d * k == x % k - r;
    if d >= 1 {
      MulAtLeast(d, k);
    } else if d <= -1 {
      MulAtLeast(-d, k);
    }
  }

  /** `s.repeat(n)`. */
  function Repeat(s: string, n: nat): string {
    if n == 0 then "" else s + Repeat(s, n - 1)
  }

  /** `s.repeat(n)` is `n` copies of `s` back to back. */
  lemma RepeatContents(s: string, n: nat)
    ensures |Repeat(s, n)| == |s| * n
    ensures forall i :: 0 <= i < |Repeat(s, n)| ==> Repeat(s, n)[i] == s[i % |s|]
  {
    RepeatLength(s, n);
    if |s| == 0 {
      assert |s| * n == 0;
    }
    forall i | 0 <= i < |Repeat(s, n)|
      ensures Repeat(s, n)[i] == s[i % |s|]
    {
      RepeatAt(s, n, i);
    }
  }

  lemma {:induction false} RepeatLength(s: string, n: nat)
    ensures |Repeat(s, n)| == |s| * n
  {
    if n > 0 {
      RepeatLength(s, n - 1);
      assert |s| * n == |s| + |s| * (n - 1);
    }
  }

  lemma {:induction false} RepeatAt(s: string, n: nat, i: int)
    requires |s| > 0 && 0 <= i < |Repeat(s, n)|
    ensures Repeat(s, n)[i] == s[i % |s|]
  {
    var t := Repeat(s, n);
    if i < |s| {
      DivUnique(i, |s|, 0, i);
    } else {
      RepeatAt(s, n - 1, i - |s|);
      assert t[i] == Repeat(s, n - 1)[i - |s|];
      var q, m := (i - |s|) / |s|, (i - |s|) % |s|;
      assert (q + 1) * |s| == q * |s| + |s|;
      DivUnique(i, |s|, q + 1, m);
    }
  }

  /**
   * `a.compareTo(b)`: the difference of the first two characters that
   * differ, or else the difference of the lengths.
   */
  function CompareTo(a: string, b: string): int {
    if a == [] || b == [] then |a| - |b|
    else if a[0] != b[0] then a[0] as int - b[0] as int
    else CompareTo(a[1..], b[1..])
  }

  /** Swapping the operands negates the comparison. */
  lemma {:induction false} CompareToAntisymmetric(a: string, b: string)
    ensures CompareTo(a, b) == -CompareTo(b, a)
  {
    if a != [] && b != [] && a[0] == b[0] {
      CompareToAntisymmetric(a[1..], b[1..]);
    }
  }

  /** The comparison is zero exactly for equal strings. */
  lemma {:induction false} CompareToZero(a: string, b: string)
    ensures CompareTo(a, b) == 0 <==> a == b
  {
    if a != [] && b != [] {
      if a[0] == b[0] {
        CompareToZero(a[1..], b[1..]);
        assert a == [a[0]] + a[1..];
        assert b == [b[0]] + b[1..];
      }
    }
  }

  /** Two integers that agree modulo 2^32 wrap to the same `int`. */
  lemma WrapUnique(x: int, y: int)
    requires (x - y) % TWO_32 == 0 && MIN_INT <= y <= MAX_INT
    ensures Wrap(x) == y
  {
    var r := Wrap(x);
    var k1 := (x - y) / TWO_32;
    var k2 := (x - r) / TWO_32;
    assert x - y == TWO_32 * k1;
    assert x - r == TWO_32 * k2;
    var d := k2 - k1;
    assert y - MIN_INT == d * TWO_32 + (r - MIN_INT);
    DivUnique(y - MIN_INT, TWO_32, d, r - MIN_INT);
    DivUnique(y - MIN_INT, TWO_32, 0, y - MIN_INT);
  }

  /** A multiple of 2^32 leaves no remainder. */
  lemma MultipleOfTwo32(k: int)
    ensures (TWO_32 * k) % TWO_32 == 0
  {
    DivUnique(TWO_32 * k, TWO_32, k, 0);
  }
}

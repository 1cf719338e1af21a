/** Decimal text: the parts of Go's strconv (Atoi, Itoa) and of fmt's %d and %0Nd verbs
    that the program relies on, over 64-bit ints. */
module Strconv {
  import opened Wrappers

  const MinInt64: int := -0x8000_0000_0000_0000
  const MaxInt64: int := 0x7FFF_FFFF_FFFF_FFFF

  predicate IsDigit(c: char) { '0' <= c <= '9' }

  predicate AllDigits(s: string) { forall i :: 0 <= i < |s| ==> IsDigit(s[i]) }

  function DigitValue(c: char): (d: nat)
    requires IsDigit(c)
    ensures d < 10
  {
    c as int - '0' as int
  }

  function DigitChar(d: nat): (c: char)
    requires d < 10
    ensures IsDigit(c) && DigitValue(c) == d
  {
    ('0' as int + d) as char
  }

  function Pow10(n: nat): (p: nat)
    ensures p >= 1
  {
    if n == 0 then 1 else 10 * Pow10(n - 1)
  }

  /** The value of a string of decimal digits, most significant digit first. */
  function DecimalValue(s: string): (v: nat)
    requires AllDigits(s)
    ensures v < Pow10(|s|)
  {
    if s == [] then 0 else DecimalValue(s[..|s| - 1]) * 10 + DigitValue(s[|s| - 1])
  }

  lemma AllDigitsAppend(a: string, b: string)
    requires AllDigits(a) && AllDigits(b)
    ensures AllDigits(a + b)
  {
    forall i | 0 <= i < |a + b| ensures IsDigit((a + b)[i]) {
      if i < |a| { assert (a + b)[i] == a[i]; } else { assert (a + b)[i] == b[i - |a|]; }
    }
  }

  lemma ShiftByOneDigit(x: int, p: int, y: int, d: int)
    ensures (x * p + y) * 10 + d == x * (10 * p) + (y * 10 + d)
  {
  }

  /** Reading a concatenation of digit strings: the left part is shifted by the length of the right. */
  lemma {:induction false} DecimalValueAppend(a: string, b: string)
    requires AllDigits(a) && AllDigits(b)
    ensures AllDigits(a + b)
    ensures DecimalValue(a + b) == DecimalValue(a) * Pow10(|b|) + DecimalValue(b)
    decreases |b|
  {
    AllDigitsAppend(a, b);
    if b == [] {
      assert a + b == a;
    } else {
      var b' := b[..|b| - 1];
      var d := DigitValue(b[|b| - 1]);
      assert (a + b)[..|a + b| - 1] == a + b';
      assert (a + b)[|a + b| - 1] == b[|b| - 1];
      DecimalValueAppend(a, b');
      assert DecimalValue(a + b) == DecimalValue(a + b') * 10 + d;
      assert DecimalValue(b) == DecimalValue(b') * 10 + d;
      assert Pow10(|b|) == 10 * Pow10(|b'|);
      ShiftByOneDigit(DecimalValue(a), Pow10(|b'|), DecimalValue(b'), d);
    }
  }

  /** The shortest decimal digits of n, as fmt's %d and strconv.Itoa write a non-negative number. */
  function Digits(n: nat): (s: string)
    ensures 1 <= |s| && AllDigits(s)
    ensures DecimalValue(s) == n
    ensures |s| > 1 ==> s[0] != '0'
  {
    if n < 10 then [DigitChar(n)]
    else
      var s := Digits(n / 10) + [DigitChar(n % 10)];
      assert s[..|s| - 1] == Digits(n / 10);
      s
  }

  /** fmt's %d (and strconv.Itoa): an optional minus sign and the digits of the magnitude. */
  function Itoa(n: int): (s: string)
    ensures |s| >= 1
    ensures (s[0] == '-') <==> n < 0
    ensures n < 0 ==> s[1..] == Digits(-n)
    ensures n >= 0 ==> s == Digits(n)
  {
    if n < 0 then "-" + Digits(-n) else Digits(n)
  }

  /** Left-pads a digit string with '0' to at least w characters, as the 0 flag of fmt does. */
  function PadZeros(s: string, w: nat): (r: string)
    requires AllDigits(s)
    ensures AllDigits(r)
    ensures |r| == if |s| >= w then |s| else w
    ensures DecimalValue(r) == DecimalValue(s)
    decreases w - |s|
  {
    if |s| >= w then s
    else
      var r := PadZeros("0" + s, w);
      DecimalValueAppend("0", s);
      r
  }

  /** fmt's %03d: width 3, zero padded, the sign counted in the width. */
  function ZeroPad3(n: int): (s: string)
    ensures |s| >= 3
    ensures (s[0] == '-') <==> n < 0
    ensures n >= 0 ==> AllDigits(s) && DecimalValue(s) == n
    ensures n < 0 ==> AllDigits(s[1..]) && DecimalValue(s[1..]) == -n
  {
    if n < 0 then "-" + PadZeros(Digits(-n), 2) else PadZeros(Digits(n), 3)
  }

  /** strconv.Atoi: an optional sign followed by at least one decimal digit, within the 64-bit range. */
  function Atoi(s: string): (r: Result<int, Error>)
    ensures r.Success? ==> MinInt64 <= r.value <= MaxInt64
    ensures r.Success? ==> 1 <= |s| && (AllDigits(s) || s[0] == '-' || s[0] == '+')
  {
    var signed := |s| > 0 && (s[0] == '-' || s[0] == '+');
    var body := if signed then s[1..] else s;
    if body == [] || !AllDigits(body) then Failure(ErrSyntax)
    else
      var magnitude: int := DecimalValue(body);
      var v := if signed && s[0] == '-' then -magnitude else magnitude;
      if v < MinInt64 || v > MaxInt64 then Failure(ErrRange)
      else Success(v)
  }

  lemma {:induction false} Pow10Monotone(m: nat, n: nat)
    requires m <= n
    ensures Pow10(m) <= Pow10(n)
    decreases n
  {
    if m < n { Pow10Monotone(m, n - 1); }
  }

  lemma Pow10Of18()
    ensures Pow10(18) == 1_000_000_000_000_000_000
  {
    assert Pow10(6) == 1_000_000;
    assert Pow10(12) == 1_000_000_000_000;
  }

  /** A plain run of up to 18 digits always converts, to its decimal value. */
  lemma AtoiDigits(s: string)
    requires 1 <= |s| <= 18 && AllDigits(s)
    ensures Atoi(s) == Success(DecimalValue(s))
  {
    assert IsDigit(s[0]);
    assert !(s[0] == '-' || s[0] == '+');
    var v := DecimalValue(s);
    assert v < Pow10(|s|);
    Pow10Monotone(|s|, 18);
    Pow10Of18();
    assert MinInt64 <= v <= MaxInt64;
  }

  /** Reading back what Itoa writes gives the number, for every 64-bit value. */
  lemma AtoiItoa(n: int)
    requires MinInt64 <= n <= MaxInt64
    ensures Atoi(Itoa(n)) == Success(n)
  {
    var s := Itoa(n);
    if n < 0 {
      assert s[0] == '-';
      assert s[1..] == Digits(-n);
    } else {
      assert s == Digits(n);
      assert IsDigit(s[0]);
    }
  }

  /** The zero padding %03d adds does not change the number Atoi reads back. */
  lemma AtoiZeroPad3(n: int)
    requires MinInt64 <= n <= MaxInt64
    ensures Atoi(ZeroPad3(n)) == Success(n)
  {
    var s := ZeroPad3(n);
    if n < 0 {
      assert s[0] == '-';
    } else {
      assert IsDigit(s[0]);
    }
  }

  /** The quotient and remainder of q*k + r by k, for 0 <= r < k. */
  lemma DivMod(q: nat, r: nat, k: nat)
    requires r < k
    ensures (q * k + r) / k == q && (q * k + r) % k == r
  {
    var x := q * k + r;
    var q', r' := x / k, x % k;
    assert x == q' * k + r';
    assert q' < q ==> q' * k + r' < (q' + 1) * k <= q * k;
    assert q' > q ==> q * k + r < (q + 1) * k <= q' * k;
  }
}

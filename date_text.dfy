/** The year, month and day groups shared by the two date patterns of the program,
    written as character checks, and what those groups read as numbers:
      year  2(?:0|1)[\d]{2}
      month 0[1-9]|1[0-2]
      day   0[1-9]|1[0-9]|2[0-9]|3[0-1]                                            */
module DateText {
  import opened Strconv

  predicate IsYearGroup(y: string)
  {
    |y| == 4 && y[0] == '2' && (y[1] == '0' || y[1] == '1') && IsDigit(y[2]) && IsDigit(y[3])
  }

  predicate IsMonthGroup(m: string)
  {
    |m| == 2 && ((m[0] == '0' && '1' <= m[1] <= '9') || (m[0] == '1' && '0' <= m[1] <= '2'))
  }

  predicate IsDayGroup(d: string)
  {
    |d| == 2 && ((d[0] == '0' && '1' <= d[1] <= '9') || ('1' <= d[0] <= '2' && IsDigit(d[1])) || (d[0] == '3' && '0' <= d[1] <= '1'))
  }

  /** A two-digit rendering of n below 100, leading zero kept. */
  function TwoDigits(n: nat): (s: string)
    requires n < 100
    ensures |s| == 2 && AllDigits(s)
  {
    [DigitChar(n / 10), DigitChar(n % 10)]
  }

  /** A four-digit rendering of n below 10000, leading zeros kept. */
  function FourDigits(n: nat): (s: string)
    requires n < 10000
    ensures |s| == 4 && AllDigits(s)
  {
    TwoDigits(n / 100) + TwoDigits(n % 100)
  }

  lemma DecimalValue2(s: string)
    requires |s| == 2 && AllDigits(s)
    ensures DecimalValue(s) == 10 * DigitValue(s[0]) + DigitValue(s[1])
  {
    assert s[..1][..0] == [];
    assert s[..1] == [s[0]];
  }

  /** Rendering then reading two digits gives the number back, and reading then
      rendering gives the text back. */
  lemma TwoDigitsRoundTrip(n: nat, s: string)
    requires n < 100
    requires |s| == 2 && AllDigits(s)
    ensures DecimalValue(TwoDigits(n)) == n
    ensures TwoDigits(DecimalValue(s)) == s
  {
    DecimalValue2(TwoDigits(n));
    DecimalValue2(s);
  }

  lemma FourDigitsRead(n: nat)
    requires n < 10000
    ensures DecimalValue(FourDigits(n)) == n
  {
    var q, r := n / 100, n % 100;
    var hi, lo := TwoDigits(q), TwoDigits(r);
    TwoDigitsRoundTrip(q, hi);
    TwoDigitsRoundTrip(r, lo);
    DecimalValueAppend(hi, lo);
    assert Pow10(2) == 100;
    assert DecimalValue(hi + lo) == q * 100 + r;
  }

  lemma FourDigitsRender(s: string)
    requires |s| == 4 && AllDigits(s)
    ensures FourDigits(DecimalValue(s)) == s
  {
    var hi, lo := s[..2], s[2..];
    assert s == hi + lo;
    TwoDigitsRoundTrip(0, hi);
    TwoDigitsRoundTrip(0, lo);
    DecimalValueAppend(hi, lo);
    assert Pow10(2) == 100;
    var q, r := DecimalValue(hi), DecimalValue(lo);
    assert DecimalValue(s) == q * 100 + r;
    DivMod(q, r, 100);
  }

  /** The same for four digits. */
  lemma FourDigitsRoundTrip(n: nat, s: string)
    requires n < 10000
    requires |s| == 4 && AllDigits(s)
    ensures DecimalValue(FourDigits(n)) == n
    ensures FourDigits(DecimalValue(s)) == s
  {
    FourDigitsRead(n);
    FourDigitsRender(s);
  }

  /** Year, month and day digits run together read as year*10000 + month*100 + day. */
  lemma DateDigitsValue(y: string, m: string, d: string)
    requires |y| == 4 && |m| == 2 && |d| == 2 && AllDigits(y) && AllDigits(m) && AllDigits(d)
    ensures AllDigits(y + m + d)
    ensures DecimalValue(y + m + d) == DecimalValue(y) * 10000 + DecimalValue(m) * 100 + DecimalValue(d)
  {
    assert Pow10(2) == 100;
    DecimalValueAppend(y, m);
    var ym := DecimalValue(y + m);
    assert ym == DecimalValue(y) * 100 + DecimalValue(m);
    DecimalValueAppend(y + m, d);
    assert DecimalValue(y + m + d) == ym * 100 + DecimalValue(d);
  }

  /** The year group accepts exactly the four-digit renderings of 2000 through 2199. */
  lemma YearGroupValues(y: string)
    requires |y| == 4 && AllDigits(y)
    ensures IsYearGroup(y) <==> 2000 <= DecimalValue(y) <= 2199
  {
    var hi, lo := y[..2], y[2..];
    assert y == hi + lo;
    DecimalValueAppend(hi, lo);
    assert Pow10(2) == 100;
    DecimalValue2(hi);
    DecimalValue2(lo);
    var a, b := DigitValue(y[0]), DigitValue(y[1]);
    assert DecimalValue(y) == 100 * (10 * a + b) + DecimalValue(lo);
    assert IsYearGroup(y) <==> a == 2 && b <= 1;
  }

  /** The month group accepts exactly the two-digit renderings of 1 through 12. */
  lemma MonthGroupValues(m: string)
    requires |m| == 2 && AllDigits(m)
    ensures IsMonthGroup(m) <==> 1 <= DecimalValue(m) <= 12
  {
    DecimalValue2(m);
  }

  /** The day group accepts exactly the two-digit renderings of 1 through 31. */
  lemma DayGroupValues(d: string)
    requires |d| == 2 && AllDigits(d)
    ensures IsDayGroup(d) <==> 1 <= DecimalValue(d) <= 31
  {
    DecimalValue2(d);
  }
}

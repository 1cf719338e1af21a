/** The query-month middleware: the month a request asks for with ?qm=YYYY-MM, or the
    current month when it asks for none or for one the pattern rejects. The clock's
    year and month are parameters; the request context is reduced to the one value
    the middleware stores in it. */
module QueryMonth {
  import opened Wrappers
  import opened Strconv
  import opened BCDate
  import opened DateText

  /** The compiled pattern ^(2(?:0|1)[\d]{2})-(0[1-9]|1[0-2])$, anchored at both ends. */
  predicate MatchesQueryMonth(s: string)
  {
    |s| == 7 && IsYearGroup(s[..4]) && s[4] == '-' && IsMonthGroup(s[5..])
  }

  /** The text of a month as the pattern expects it. */
  function FormatQueryMonth(year: nat, month: nat): string
    requires year < 10000 && month < 100
  {
    FourDigits(year) + "-" + TwoDigits(month)
  }

  /** The first value of the qm query parameter, when there is one. */
  function FirstQM(query: map<string, seq<string>>): (first: Option<string>)
    ensures first.Some? <==> "qm" in query && |query["qm"]| > 0
    ensures first.Some? ==> first.value == query["qm"][0]
  {
    if "qm" in query && |query["qm"]| > 0 then Some(query["qm"][0]) else None
  }

  /** The month chosen from the first qm value: the digits the two groups captured,
      followed by "00", read with Atoi; otherwise (no value, no match, or an Atoi
      error) the current month. */
  function ChooseMonth(first: Option<string>, year: nat, month: nat): (m: int)
    requires 1 <= month <= 12
    ensures first.Some? && MatchesQueryMonth(first.value) ==>
      var s := first.value;
      m == CurrentMonth(DecimalValue(s[..4]), DecimalValue(s[5..])) &&
      2000 <= YearOf(m) <= 2199 && 1 <= MonthOf(m) <= 12
    ensures !(first.Some? && MatchesQueryMonth(first.value)) ==> m == CurrentMonth(year, month)
    ensures m >= 0 && DayOf(m) == 0
  {
    var today := CurrentMonth(year, month);
    if first.Some? && MatchesQueryMonth(first.value) then
      var s := first.value;
      MatchedMonthValue(s);
      match Atoi(s[..4] + s[5..] + "00")
      case Success(v) => v
      case Failure(_) => today
    else today
  }

  /** The two captured groups and "00" form an eight-digit number that Atoi reads as
      the month's encoding. */
  lemma MatchedMonthValue(s: string)
    requires MatchesQueryMonth(s)
    ensures 2000 <= DecimalValue(s[..4]) <= 2199 && 1 <= DecimalValue(s[5..]) <= 12
    ensures Atoi(s[..4] + s[5..] + "00") ==
      Success(CurrentMonth(DecimalValue(s[..4]), DecimalValue(s[5..])) as int)
  {
    var y, mo := s[..4], s[5..];
    assert AllDigits(y) && AllDigits(mo);
    YearGroupValues(y);
    MonthGroupValues(mo);
    MonthDigits(y, mo);
  }

  /** A year group, a month group and "00" read as the month's encoding. */
  lemma MonthDigits(y: string, mo: string)
    requires |y| == 4 && |mo| == 2 && AllDigits(y) && AllDigits(mo)
    requires 1 <= DecimalValue(mo) <= 12
    ensures Atoi(y + mo + "00") == Success(CurrentMonth(DecimalValue(y), DecimalValue(mo)) as int)
  {
    assert AllDigits("00");
    DateDigitsValue(y, mo, "00");
    assert DecimalValue("00") == 0 by { DecimalValue2("00"); }
    AtoiDigits(y + mo + "00");
  }

  /** QueryMonth.ServeHTTP: the month it stores in the request context before calling
      the next handler. */
  function ServeHTTP(query: map<string, seq<string>>, year: nat, month: nat): (m: int)
    requires 1 <= month <= 12
  {
    ChooseMonth(FirstQM(query), year, month)
  }

  /** The request context after the middleware ran, reduced to its query-month entry. */
  datatype RequestContext = RequestContext(queryMonth: Option<int>)

  /** GetQM: the stored month. The program panics when the middleware did not run;
      here that is the precondition. */
  function GetQM(ctx: RequestContext): (m: int)
    requires ctx.queryMonth.Some?
    ensures ctx.queryMonth == Some(m)
  {
    ctx.queryMonth.value
  }

  /** A downstream handler always reads a month with zero day digits, whichever branch
      the middleware took. */
  lemma DownstreamMonthHasNoDay(query: map<string, seq<string>>, year: nat, month: nat)
    requires 1 <= month <= 12
    ensures var m := GetQM(RequestContext(Some(ServeHTTP(query, year, month))));
      m >= 0 && DayOf(m) == 0 && m % 100 == 0
  {
  }

  /** Every well-formed month text from 2000-01 to 2199-12 is accepted as the first qm
      value, whatever values follow it, and yields the same encoding CurrentMonth
      gives for that month. */
  lemma AcceptsEveryMonthInRange(y: nat, mo: nat, rest: seq<string>, query: map<string, seq<string>>, year: nat, month: nat)
    requires 2000 <= y <= 2199 && 1 <= mo <= 12 && 1 <= month <= 12
    ensures MatchesQueryMonth(FormatQueryMonth(y, mo))
    ensures ServeHTTP(query["qm" := [FormatQueryMonth(y, mo)] + rest], year, month) == CurrentMonth(y, mo)
  {
    var s := FormatQueryMonth(y, mo);
    assert s[..4] == FourDigits(y);
    assert s[5..] == TwoDigits(mo);
    FourDigitsRoundTrip(y, FourDigits(y));
    TwoDigitsRoundTrip(mo, TwoDigits(mo));
    YearGroupValues(FourDigits(y));
    MonthGroupValues(TwoDigits(mo));
  }

  /** The pattern accepts exactly the texts FormatQueryMonth writes for 2000-01 through 2199-12. */
  lemma MatchesOnlyFormattedMonths(s: string)
    ensures MatchesQueryMonth(s) <==>
      exists y: nat, mo: nat :: 2000 <= y <= 2199 && 1 <= mo <= 12 && s == FormatQueryMonth(y, mo)
  {
    if MatchesQueryMonth(s) {
      var y, mo := DecimalValue(s[..4]), DecimalValue(s[5..]);
      MatchedMonthValue(s);
      FourDigitsRoundTrip(0, s[..4]);
      TwoDigitsRoundTrip(0, s[5..]);
      assert s == s[..4] + "-" + s[5..];
      assert s == FormatQueryMonth(y, mo);
    }
    if exists y: nat, mo: nat :: 2000 <= y <= 2199 && 1 <= mo <= 12 && s == FormatQueryMonth(y, mo) {
      var y: nat, mo: nat :| 2000 <= y <= 2199 && 1 <= mo <= 12 && s == FormatQueryMonth(y, mo);
      AcceptsEveryMonthInRange(y, mo, [], map[], 2000, 1);
    }
  }

  /** Only the first qm value is looked at. */
  lemma OnlyFirstValueCounts(query: map<string, seq<string>>, v: string, rest: seq<string>, year: nat, month: nat)
    requires 1 <= month <= 12
    ensures ServeHTTP(query["qm" := [v] + rest], year, month) == ServeHTTP(query["qm" := [v]], year, month)
  {
  }

  /** No qm parameter, an empty list of values, or a first value the pattern rejects
      all give the current month. */
  lemma FallsBackToCurrentMonth(query: map<string, seq<string>>, year: nat, month: nat)
    requires 1 <= month <= 12
    requires "qm" !in query || query["qm"] == [] || !MatchesQueryMonth(query["qm"][0])
    ensures ServeHTTP(query, year, month) == CurrentMonth(year, month)
  {
  }

  /** The pattern is anchored at both ends: a full date or a leading blank is rejected. */
  lemma RejectsExtraCharacters(year: nat, month: nat)
    requires 1 <= month <= 12
    ensures !MatchesQueryMonth("2024-03-01") && !MatchesQueryMonth(" 2024-03")
    ensures MatchesQueryMonth("2024-03")
    ensures ServeHTTP(map["qm" := ["2024-03-01"]], year, month) == CurrentMonth(year, month)
    ensures ServeHTTP(map["qm" := ["2024-03"]], year, month) == 202403_00
  {
    AcceptsEveryMonthInRange(2024, 3, [], map[], year, month);
    assert FormatQueryMonth(2024, 3) == "2024-03";
    assert map[]["qm" := ["2024-03"]] == map["qm" := ["2024-03"]];
  }
}

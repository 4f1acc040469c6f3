/** Period parsing (parsePeriodToMonth, utils/excelParser.ts): a period cell
    of a sales file ("2026.004", "2026.04", "7월", ...) read as a month number
    through three layered fallbacks. */
module PeriodParser {
  import opened Types
  import opened Js

  const MonthMarker: char := '월'

  // ---------------------------------------------------------------- /\d{4}\.(\d{1,3})/

  /** The pattern /\d{4}\.\d/ starts at position i of s. */
  predicate YearDotAt(s: string, i: int)
  {
    0 <= i && i + 6 <= |s| && AllDigits(s[i..i + 4]) && s[i + 4] == '.' && IsDigit(s[i + 5])
  }

  /** The leftmost position at or after `from` where /\d{4}\.\d/ starts. */
  function FirstYearDot(s: string, from: nat): (r: Option<nat>)
    ensures r.Some? ==> from <= r.value && YearDotAt(s, r.value)
    ensures r.Some? ==> forall j :: from <= j < r.value ==> !YearDotAt(s, j)
    ensures r.None? ==> forall j :: from <= j ==> !YearDotAt(s, j)
    decreases |s| - from
  {
    if from + 6 > |s| then None
    else if YearDotAt(s, from) then Some(from)
    else FirstYearDot(s, from + 1)
  }

  /** The capture group of /\d{4}\.(\d{1,3})/ matched at i: up to three digits, greedily. */
  function YearDotGroup(s: string, i: int): (g: string)
    requires YearDotAt(s, i)
    ensures 1 <= |g| <= 3 && AllDigits(g)
  {
    var t := s[i + 5..];
    var k := DigitRun(t);
    t[..if k < 3 then k else 3]
  }

  /** The group of the first /\d{4}\.(\d{1,3})/ match of s, if any. */
  function YearDotMatch(s: string): (r: Option<string>)
    ensures r.Some? ==> 1 <= |r.value| <= 3 && AllDigits(r.value)
  {
    match FirstYearDot(s, 0)
    case None => None
    case Some(i) => Some(YearDotGroup(s, i))
  }

  /** A month number of up to three digits folded into 1..12 with 1-based wrap-around. */
  function WrapMonth(n: int): (m: int)
    requires 1 <= n
    ensures 1 <= m <= 12
    ensures 1 <= n <= 12 ==> m == n
    ensures (m - n) % 12 == 0
  {
    if n <= 12 then n else ((n - 1) % 12) + 1
  }

  // ---------------------------------------------------------------- /(\d{1,2})월/

  /** The number of digits of the /(\d{1,2})월/ match starting at i, or 0 when none starts there. */
  function MonthMarkerAt(s: string, i: int): (k: nat)
    requires 0 <= i
    ensures k <= 2
    ensures k > 0 ==> i + k < |s| && AllDigits(s[i..i + k]) && s[i + k] == MonthMarker
  {
    if i + 2 < |s| && IsDigit(s[i]) && IsDigit(s[i + 1]) && s[i + 2] == MonthMarker then 2
    else if i + 1 < |s| && IsDigit(s[i]) && s[i + 1] == MonthMarker then 1
    else 0
  }

  /** The leftmost position at or after `from` where /(\d{1,2})월/ matches. */
  function FirstMonthMarker(s: string, from: nat): (r: Option<nat>)
    ensures r.Some? ==> from <= r.value && MonthMarkerAt(s, r.value) > 0
    ensures r.Some? ==> forall j :: from <= j < r.value ==> MonthMarkerAt(s, j) == 0
    ensures r.None? ==> forall j :: from <= j ==> MonthMarkerAt(s, j) == 0
    decreases |s| - from
  {
    if from + 1 >= |s| then None
    else if MonthMarkerAt(s, from) > 0 then Some(from)
    else FirstMonthMarker(s, from + 1)
  }

  /** The group of the leftmost /(\d{1,2})월/ match at or after `from`: the one or
      two digits just before the marker, at the first position where a match starts. */
  function MonthMarkerMatch(s: string, from: nat): (r: Option<string>)
    ensures r.None? <==> forall j :: from <= j ==> MonthMarkerAt(s, j) == 0
    ensures r.Some? ==> FirstMonthMarker(s, from).Some?
                        && var j := FirstMonthMarker(s, from).value;
                           r.value == s[j..j + MonthMarkerAt(s, j)]
                           && 1 <= |r.value| <= 2 && AllDigits(r.value)
                           && s[j + |r.value|] == MonthMarker
                           && forall i :: from <= i < j ==> MonthMarkerAt(s, i) == 0
  {
    match FirstMonthMarker(s, from)
    case None => None
    case Some(j) => Some(s[j..j + MonthMarkerAt(s, j)])
  }

  // ---------------------------------------------------------------- the three branches

  /** Math.round((x - Math.floor(x)) * 1000): the fractional part read as thousandths. */
  function FractionMonth(x: real): int
  {
    Round((x - x.Floor as real) * 1000.0)
  }

  /** The decimal branch: a number with a point whose fraction, in thousandths, is 1..12. */
  function DecimalBranch(str: string): (r: Option<int>)
    ensures r.Some? ==> '.' in str && ParseFloat(str).Fin? && 1 <= r.value <= 12
  {
    match ParseFloat(str)
    case NaN => None
    case Fin(x) =>
      if '.' in str && 1 <= FractionMonth(x) <= 12 then Some(FractionMonth(x)) else None
  }

  /** The YYYY.NNN branch; a group of value 0 falls through to the next branch. */
  function YearDotBranch(str: string): (r: Option<int>)
    ensures r.Some? ==> 1 <= r.value <= 12
  {
    match YearDotMatch(str)
    case None => None
    case Some(g) => if DigitsValue(g) >= 1 then Some(WrapMonth(DigitsValue(g))) else None
  }

  /** The N월 branch: the number before the marker of the leftmost match, with no range check. */
  function MarkerBranch(str: string): (r: Option<int>)
    ensures r.Some? <==> exists j :: 0 <= j && MonthMarkerAt(str, j) > 0
    ensures r.Some? ==> var j := FirstMonthMarker(str, 0).value;
                        r.value == DigitsValue(str[j..j + MonthMarkerAt(str, j)])
                        && str[j + MonthMarkerAt(str, j)] == MonthMarker
                        && (forall i :: 0 <= i < j ==> MonthMarkerAt(str, i) == 0)
                        && 0 <= r.value <= 99
  {
    match MonthMarkerMatch(str, 0)
    case None => None
    case Some(g) =>
      assert DigitsValue(g) <= 99 by { DigitsValueBound(g); }
      Some(DigitsValue(g))
  }

  function OrElse(a: Option<int>, b: Option<int>): Option<int>
  {
    if a.Some? then a else b
  }

  /** parsePeriodToMonth as written: the decimal branch first, then YYYY.NNN, then N월. */
  function ParsePeriodToMonthAsWritten(period: string): (r: Option<int>)
    ensures r.None? <==> DecimalBranch(period).None? && YearDotBranch(period).None?
                         && forall j :: 0 <= j ==> MonthMarkerAt(period, j) == 0
    ensures DecimalBranch(period).Some? ==> r == DecimalBranch(period)
    ensures DecimalBranch(period).None? && YearDotBranch(period).Some? ==> r == YearDotBranch(period)
    ensures DecimalBranch(period).None? && YearDotBranch(period).None? ==> r == MarkerBranch(period)
    ensures r.Some? ==> 0 <= r.value <= 99
  {
    OrElse(DecimalBranch(period), OrElse(YearDotBranch(period), MarkerBranch(period)))
  }

  /** parsePeriodToMonth with the YYYY.NNN pattern tried before the decimal branch,
      so that "2026.01" reads as January: the evidently intended reading. */
  function ParsePeriodToMonth(period: string): (r: Option<int>)
    ensures r.None? <==> DecimalBranch(period).None? && YearDotBranch(period).None?
                         && forall j :: 0 <= j ==> MonthMarkerAt(period, j) == 0
    ensures YearDotBranch(period).Some? ==> r == YearDotBranch(period)
    ensures YearDotBranch(period).None? && DecimalBranch(period).Some? ==> r == DecimalBranch(period)
    ensures DecimalBranch(period).None? && YearDotBranch(period).None? ==> r == MarkerBranch(period)
    ensures r.Some? ==> 0 <= r.value <= 99
  {
    OrElse(YearDotBranch(period), OrElse(DecimalBranch(period), MarkerBranch(period)))
  }

  // ---------------------------------------------------------------- lemmas

  lemma {:induction false} DigitsValueBound(g: string)
    requires AllDigits(g)
    ensures DigitsValue(g) < Pow10(|g|)
  {
    if g != [] {
      DigitsValueBound(g[..|g| - 1]);
    }
  }

  /** A YYYY.NNN match with NNN >= 1 decides the month (NNN itself for 1..12, NNN
      wrapped into 1..12 above) whenever the decimal branch gives nothing; in the
      corrected parser, which tries the pattern first, it always decides. */
  lemma YearDotDecides(period: string)
    requires YearDotMatch(period).Some? && DigitsValue(YearDotMatch(period).value) >= 1
    ensures DecimalBranch(period).None? ==>
              ParsePeriodToMonthAsWritten(period) == Some(WrapMonth(DigitsValue(YearDotMatch(period).value)))
    ensures ParsePeriodToMonth(period) == Some(WrapMonth(DigitsValue(YearDotMatch(period).value)))
  {
  }

  /** The month written with two digits, "01" to "12". */
  function TwoDigits(m: nat): (s: string)
    requires m < 100
    ensures |s| == 2 && AllDigits(s) && DigitsValue(s) == m
  {
    var s := [DigitChar(m / 10), DigitChar(m % 10)];
    TwoDigitsValue(s[0], s[1]);
    s
  }

  lemma TwoDigitsValue(d1: char, d2: char)
    requires IsDigit(d1) && IsDigit(d2)
    ensures AllDigits([d1, d2]) && DigitsValue([d1, d2]) == 10 * DigitValue(d1) + DigitValue(d2)
    ensures AllDigits([d1]) && DigitsValue([d1]) == DigitValue(d1)
  {
    DigitsValueAppend([], d1);
    assert [] + [d1] == [d1];
    DigitsValueAppend([d1], d2);
    assert [d1] + [d2] == [d1, d2];
  }

  /** A four-digit year, a point and a two-digit month reads as that month. */
  lemma {:induction false} YearDotMonth(year: string, m: nat)
    requires |year| == 4 && AllDigits(year) && 1 <= m <= 12
    ensures ParsePeriodToMonth(year + "." + TwoDigits(m)) == Some(m)
  {
    var s := year + "." + TwoDigits(m);
    assert s[0..4] == year;
    assert YearDotAt(s, 0);
    var t := s[5..];
    assert t == TwoDigits(m);
    assert DigitRun(t) == 2 by { DigitRunAll(t); }
    assert YearDotGroup(s, 0) == TwoDigits(m) by { assert t[..2] == t; }
  }

  /** As written, a four-digit year, a point and a two-digit month from 02 up
      goes through the YYYY.NNN pattern: the decimal branch sees ten times the
      month in thousandths, which is past 12. Among two-digit months only
      "YYYY.01" is misread (JanuaryReadAsOctober). */
  lemma {:induction false} YearDotMonthAsWritten(year: string, m: nat)
    requires |year| == 4 && AllDigits(year) && 2 <= m <= 99
    ensures DecimalBranch(year + "." + TwoDigits(m)) == None
    ensures ParsePeriodToMonthAsWritten(year + "." + TwoDigits(m)) == Some(WrapMonth(m))
  {
    var s := year + "." + TwoDigits(m);
    DecimalSeesThousandths(year, m);
    YearDotMatchMonth(year, m);
    YearDotDecides(s);
  }

  /** The decimal branch reads YYYY.MM as 10 * MM thousandths, a month only for MM = 01. */
  lemma {:induction false} DecimalSeesThousandths(year: string, m: nat)
    requires |year| == 4 && AllDigits(year) && 2 <= m <= 99
    ensures DecimalBranch(year + "." + TwoDigits(m)) == None
  {
    YearDotValue(year, m);
    var y := DigitsValue(year);
    var f := m as real / 100.0;
    assert 0.0 <= f < 1.0;
    var x := y as real + f;
    assert x.Floor == y;
    assert x - x.Floor as real == f;
    assert f * 1000.0 == (10 * m) as real;
    assert FractionMonth(x) == 10 * m;
  }

  /** The YYYY.NNN pattern finds the two month digits of YYYY.MM. */
  lemma {:induction false} YearDotMatchMonth(year: string, m: nat)
    requires |year| == 4 && AllDigits(year) && m <= 99
    ensures YearDotMatch(year + "." + TwoDigits(m)) == Some(TwoDigits(m))
  {
    var s := year + "." + TwoDigits(m);
    assert s[0..4] == year;
    assert YearDotAt(s, 0);
    var t := s[5..];
    assert t == TwoDigits(m);
    assert DigitRun(t) == 2 by { DigitRunAll(t); }
    assert YearDotGroup(s, 0) == TwoDigits(m) by { assert t[..2] == t; }
  }

  /** parseFloat of YYYY.MM: the year plus the month in hundredths. */
  lemma {:induction false} YearDotValue(year: string, m: nat)
    requires |year| == 4 && AllDigits(year) && m <= 99
    ensures ParseFloat(year + "." + TwoDigits(m)) == Fin(DigitsValue(year) as real + m as real / 100.0)
  {
    var s := year + "." + TwoDigits(m);
    assert s[0] == year[0] && IsDigit(s[0]);
    assert TrimStart(s) == s;
    assert s[..4] == year;
    DigitRunExact(s, 4);
    var rest := s[4..];
    assert rest[1..] == TwoDigits(m);
    DigitRunAll(rest[1..]);
    assert rest[1..][..2] == TwoDigits(m);
    assert Pow10(2) == 100;
  }

  /** "2026.04" reads as April in both readings. */
  lemma AprilBothReadings()
    ensures ParsePeriodToMonthAsWritten("2026.04") == Some(4)
    ensures ParsePeriodToMonth("2026.04") == Some(4)
  {
    AprilAt("2026.04");
  }

  lemma AprilAt(s: string)
    requires s == "2026.04"
    ensures ParsePeriodToMonthAsWritten(s) == Some(4)
    ensures ParsePeriodToMonth(s) == Some(4)
  {
    Value2026();
    assert s == "2026" + "." + TwoDigits(4);
    YearDotMonthAsWritten("2026", 4);
    YearDotMonth("2026", 4);
  }

  /** Months past 12 wrap around: "2026.13" reads as January, in both readings. */
  lemma YearDotWraps()
    ensures ParsePeriodToMonth("2026.13") == Some(1)
    ensures ParsePeriodToMonthAsWritten("2026.13") == Some(1)
  {
    WrapsAt("2026.13");
    WrapsAsWrittenAt("2026.13");
  }

  lemma WrapsAt(s: string)
    requires s == "2026.13"
    ensures ParsePeriodToMonth(s) == Some(1)
  {
    assert s == "2026" + "." + TwoDigits(13);
    assert YearDotAt(s, 0) by { assert s[0..4] == "2026"; }
    var t := s[5..];
    assert DigitRun(t) == 2 by { DigitRunAll(t); }
    assert YearDotGroup(s, 0) == TwoDigits(13) by { assert t[..2] == t; }
  }

  lemma WrapsAsWrittenAt(s: string)
    requires s == "2026.13"
    ensures ParsePeriodToMonthAsWritten(s) == Some(1)
  {
    Value2026();
    assert s == "2026" + "." + TwoDigits(13);
    YearDotMonthAsWritten("2026", 13);
  }

  /** A digit before the month marker reads as that digit, with no range check (so "0월" is 0). */
  lemma MarkerDigit(d: char)
    requires IsDigit(d)
    ensures ParsePeriodToMonth([d, MonthMarker]) == Some(DigitValue(d))
    ensures ParsePeriodToMonthAsWritten([d, MonthMarker]) == Some(DigitValue(d))
  {
    var s := [d, MonthMarker];
    assert '.' !in s;
    assert DecimalBranch(s) == None;
    assert FirstYearDot(s, 0) == None;
    assert MonthMarkerAt(s, 0) == 1;
    assert s[0..1] == [d];
    TwoDigitsValue(d, d);
  }

  /** Two digits before the marker read as a two-digit number, so "13월" is 13. */
  lemma MarkerTwoDigits(d1: char, d2: char)
    requires IsDigit(d1) && IsDigit(d2)
    ensures ParsePeriodToMonth([d1, d2, MonthMarker]) == Some(10 * DigitValue(d1) + DigitValue(d2))
    ensures ParsePeriodToMonthAsWritten([d1, d2, MonthMarker]) == Some(10 * DigitValue(d1) + DigitValue(d2))
  {
    var s := [d1, d2, MonthMarker];
    assert '.' !in s;
    assert FirstYearDot(s, 0) == None;
    assert MonthMarkerAt(s, 0) == 2;
    assert DecimalBranch(s) == None;
    assert s[0..2] == [d1, d2];
    TwoDigitsValue(d1, d2);
  }

  /** Text without any digit is no period at all. */
  lemma NoDigitsNoMonth(period: string)
    requires forall i :: 0 <= i < |period| ==> !IsDigit(period[i])
    ensures ParsePeriodToMonth(period) == None
    ensures ParsePeriodToMonthAsWritten(period) == None
  {
    NoDigitsNaN(period);
    assert FirstYearDot(period, 0) == None;
    forall j | 0 <= j
      ensures MonthMarkerAt(period, j) == 0
    {
    }
  }

  lemma NoDigitsNaN(s: string)
    requires forall i :: 0 <= i < |s| ==> !IsDigit(s[i])
    ensures ParseFloat(s) == NaN
  {
    var t := TrimStart(s);
    assert forall i :: 0 <= i < |t| ==> t[i] == s[|s| - |t| + i];
    if |t| > 0 && (t[0] == '-' || t[0] == '+') {
      UnsignedNoDigitsNaN(t[1..]);
    } else {
      UnsignedNoDigitsNaN(t);
    }
  }

  lemma UnsignedNoDigitsNaN(u: string)
    requires forall i :: 0 <= i < |u| ==> !IsDigit(u[i])
    ensures ParseUnsignedDecimal(u) == NaN
  {
    assert DigitRun(u) == 0;
    if |u| > 0 && u[0] == '.' {
      assert DigitRun(u[1..]) == 0 by {
        if |u| > 1 {
          assert u[1..][0] == u[1];
        }
      }
    }
  }

  /** "garbage" has no period. */
  lemma GarbageIsNoPeriod()
    ensures ParsePeriodToMonth("garbage") == None
  {
    GarbageAt("garbage");
  }

  lemma GarbageAt(s: string)
    requires s == "garbage"
    ensures ParsePeriodToMonth(s) == None
  {
    assert forall i :: 0 <= i < |s| ==> !IsDigit(s[i]);
    NoDigitsNoMonth(s);
  }

  /** "2026.01", January with a two-digit month, reads as October when the decimal
      branch comes first (0.01 * 1000 = 10), and as January once YYYY.NNN is tried first. */
  lemma JanuaryReadAsOctober()
    ensures ParsePeriodToMonthAsWritten("2026.01") == Some(10)
    ensures ParsePeriodToMonth("2026.01") == Some(1)
  {
    JanuaryAt("2026.01");
  }

  lemma JanuaryAt(s: string)
    requires s == "2026.01"
    ensures ParsePeriodToMonthAsWritten(s) == Some(10)
    ensures ParsePeriodToMonth(s) == Some(1)
  {
    DecimalJanuary(s);
    DecimalFirst(s);
    YearDotJanuary(s);
  }

  /** When the decimal branch yields a month, the as-written parser returns it. */
  lemma DecimalFirst(s: string)
    requires DecimalBranch(s).Some?
    ensures ParsePeriodToMonthAsWritten(s) == DecimalBranch(s)
  {
  }

  lemma YearDotJanuary(s: string)
    requires s == "2026.01"
    ensures ParsePeriodToMonth(s) == Some(1)
  {
    assert s == "2026" + "." + TwoDigits(1) by {
      assert TwoDigits(1) == ['0', '1'];
    }
    YearDotMonth("2026", 1);
  }

  lemma DecimalJanuary(s: string)
    requires s == "2026.01"
    ensures DecimalBranch(s) == Some(10)
  {
    ParseJanuary(s);
    var x := 2026.0 + 1.0 / 100.0;
    assert x.Floor == 2026;
    assert FractionMonth(x) == 10;
    assert '.' in s by { assert s[4] == '.'; }
  }

  lemma ParseJanuary(s: string)
    requires s == "2026.01"
    ensures ParseFloat(s) == Fin(2026.0 + 1.0 / 100.0)
  {
    assert s[0] == '2';
    assert TrimStart(s) == s;
    UnsignedJanuary(s);
  }

  lemma UnsignedJanuary(s: string)
    requires s == "2026.01"
    ensures ParseUnsignedDecimal(s) == Fin(2026.0 + 1.0 / 100.0)
  {
    assert s[..4] == "2026";
    DigitRunExact(s, 4);
    Value2026();
    var rest := s[4..];
    assert rest == ".01";
    assert rest[1..] == "01";
    DigitRunExact(rest[1..], 2);
    assert rest[1..][..2] == "01";
    TwoDigitsValue('0', '1');
    assert Pow10(2) == 100;
  }

  lemma Value2026()
    ensures AllDigits("2026") && DigitsValue("2026") == 2026
  {
    TwoDigitsValue('2', '0');
    DigitsValueAppend("20", '2');
    assert "20" + ['2'] == "202";
    DigitsValueAppend("202", '6');
    assert "202" + ['6'] == "2026";
  }
}

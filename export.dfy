/** The CSV export of utils/exportData.ts: escapeCSV, the rows of the
    performance and customer exports and the sections of the full export,
    with a CSV field reader (section 2 of RFC 4180) as the inverse that
    says what the escaping achieves. How a number is printed is the
    engine's, so the exports take it as a parameter. */
module Export {
  import opened Types
  import opened Js

  /** The byte order mark every export starts with. */
  const Bom: string := "﻿"

  // ---------------------------------------------------------------- escapeCSV

  /** A value that must be quoted: it holds a comma, a double quote or a newline. */
  predicate NeedsQuotes(s: string)
  {
    ',' in s || '"' in s || '\n' in s
  }

  /** `str.replace(/"/g, '""')`. */
  function DoubleQuotes(s: string): string
  {
    if s == [] then []
    else (if s[0] == '"' then "\"\"" else [s[0]]) + DoubleQuotes(s[1..])
  }

  /** escapeCSV: null is the empty cell, a value that needs quotes is wrapped in
      double quotes with every inner double quote doubled, any other value is
      written as it is. A number reaches it as the text String() gives it. */
  function EscapeCsv(value: Option<string>): (r: string)
    ensures value.None? ==> r == ""
    ensures value.Some? && !NeedsQuotes(value.value) ==> r == value.value
    ensures value.Some? && NeedsQuotes(value.value) ==> |r| >= 2 && r[0] == '"' && r[|r| - 1] == '"'
  {
    match value
    case None => ""
    case Some(s) => if NeedsQuotes(s) then "\"" + DoubleQuotes(s) + "\"" else s
  }

  /** What a cell reads back as: null reads back as the empty field. */
  function TextOf(value: Option<string>): string
  {
    if value.Some? then value.value else ""
  }

  /** `cells.map(escapeCSV).join(sep)`. */
  function Join(sep: char, parts: seq<string>): string
  {
    if |parts| == 0 then ""
    else if |parts| == 1 then parts[0]
    else parts[0] + [sep] + Join(sep, parts[1..])
  }

  /** `cells.map(escapeCSV)`. */
  function Escaped(cells: seq<Option<string>>): (r: seq<string>)
    ensures |r| == |cells|
  {
    if cells == [] then [] else [EscapeCsv(cells[0])] + Escaped(cells[1..])
  }

  /** What the cells read back as, in order. */
  function Texts(cells: seq<Option<string>>): (r: seq<string>)
    ensures |r| == |cells|
  {
    if cells == [] then [] else [TextOf(cells[0])] + Texts(cells[1..])
  }

  /** One line of an export: the escaped cells joined by commas. */
  function Line(cells: seq<Option<string>>): string
  {
    Join(',', Escaped(cells))
  }

  // ---------------------------------------------------------------- reading a line back

  /** An unquoted field: everything up to the next comma. */
  function ReadPlain(t: string): (r: (string, string))
    ensures |r.1| <= |t|
  {
    if t == [] || t[0] == ',' then ("", t)
    else
      var (f, rest) := ReadPlain(t[1..]);
      ([t[0]] + f, rest)
  }

  /** The inside of a quoted field: a doubled quote is one quote, a lone quote
      ends the field. */
  function ReadQuoted(t: string): (r: (string, string))
    ensures |r.1| <= |t|
  {
    if t == [] then ("", "")
    else if t[0] == '"' then
      if |t| > 1 && t[1] == '"' then
        var (f, rest) := ReadQuoted(t[2..]);
        ("\"" + f, rest)
      else ("", t[1..])
    else
      var (f, rest) := ReadQuoted(t[1..]);
      ([t[0]] + f, rest)
  }

  /** One field at the start of t, and what follows it. */
  function ReadField(t: string): (r: (string, string))
    ensures |r.1| <= |t|
  {
    if t != [] && t[0] == '"' then ReadQuoted(t[1..]) else ReadPlain(t)
  }

  /** The fields of one line, each followed by a separator or the end. */
  function ReadFields(t: string): (r: seq<string>)
    ensures |r| >= 1
    decreases |t|
  {
    var (f, rest) := ReadField(t);
    if rest == [] then [f] else [f] + ReadFields(rest[1..])
  }

  /** A field that ends at a comma or at the end of the line. */
  predicate EndsField(rest: string)
  {
    rest == [] || rest[0] == ','
  }

  lemma {:induction false} ReadPlainOf(s: string, rest: string)
    requires ',' !in s && EndsField(rest)
    ensures ReadPlain(s + rest) == (s, rest)
  {
    if s != [] {
      assert (s + rest)[0] == s[0] && (s + rest)[1..] == s[1..] + rest;
      assert s[0] in s;
      assert ',' !in s[1..] by {
        forall i | 0 <= i < |s[1..]| ensures s[1..][i] != ',' {
          assert s[1..][i] == s[i + 1];
        }
      }
      ReadPlainOf(s[1..], rest);
      assert [s[0]] + s[1..] == s;
    } else {
      assert s + rest == rest;
    }
  }

  lemma {:induction false} ReadQuotedOf(s: string, rest: string)
    requires rest == [] || rest[0] != '"'
    ensures ReadQuoted(DoubleQuotes(s) + "\"" + rest) == (s, rest)
  {
    if s != [] {
      var t := DoubleQuotes(s) + "\"" + rest;
      assert t == (if s[0] == '"' then "\"\"" else [s[0]]) + (DoubleQuotes(s[1..]) + "\"" + rest);
      ReadQuotedOf(s[1..], rest);
      if s[0] == '"' {
        assert t[2..] == DoubleQuotes(s[1..]) + "\"" + rest;
      } else {
        assert t[1..] == DoubleQuotes(s[1..]) + "\"" + rest;
      }
      assert [s[0]] + s[1..] == s;
    }
  }

  /** An escaped cell followed by a comma or the end of the line reads back as
      its text, and the rest of the line is left where it was. */
  lemma ReadEscaped(value: Option<string>, rest: string)
    requires EndsField(rest)
    ensures ReadField(EscapeCsv(value) + rest) == (TextOf(value), rest)
  {
    match value
    case None =>
      ReadPlainOf("", rest);
      assert "" + rest == rest;
    case Some(s) =>
      if NeedsQuotes(s) {
        var t := EscapeCsv(value) + rest;
        assert t[1..] == DoubleQuotes(s) + "\"" + rest;
        ReadQuotedOf(s, rest);
      } else {
        ReadPlainOf(s, rest);
      }
  }

  /** Stripping the outer quotes and collapsing doubled quotes gives back the
      value: escapeCSV loses nothing but the difference between null and "". */
  lemma EscapeRoundTrip(value: Option<string>)
    ensures ReadField(EscapeCsv(value)) == (TextOf(value), "")
  {
    ReadEscaped(value, "");
    assert EscapeCsv(value) + "" == EscapeCsv(value);
  }

  /** A line of escaped cells reads back as the cells' texts, one field per
      cell: no comma, quote or newline inside a value shifts a column. */
  lemma {:induction false} LineRoundTrip(cells: seq<Option<string>>)
    requires |cells| >= 1
    ensures ReadFields(Line(cells)) == Texts(cells)
  {
    assert Escaped(cells)[1..] == Escaped(cells[1..]);
    if |cells| == 1 {
      EscapeRoundTrip(cells[0]);
      assert cells[1..] == [];
    } else {
      var rest := Line(cells[1..]);
      assert Line(cells) == EscapeCsv(cells[0]) + ([','] + rest);
      ReadEscaped(cells[0], [','] + rest);
      LineRoundTrip(cells[1..]);
      assert ([','] + rest)[1..] == rest;
    }
  }

  /** The i-th field read back is the i-th cell's text. */
  lemma {:induction false} TextsAt(cells: seq<Option<string>>)
    ensures forall i :: 0 <= i < |cells| ==> Texts(cells)[i] == TextOf(cells[i])
  {
    if cells != [] {
      TextsAt(cells[1..]);
      forall i | 1 <= i < |cells|
        ensures Texts(cells)[i] == TextOf(cells[i])
      {
        assert Texts(cells)[i] == Texts(cells[1..])[i - 1];
      }
    }
  }

  // ---------------------------------------------------------------- exportPerformanceCSV

  const PerformanceHeader: seq<string> := ["월", "25년 실적", "26년 목표", "26년 실적", "달성률(%)", "성장률(%)"]

  /** `${m.month}월`. */
  function MonthLabel(month: int): string
  {
    IntToString(month) + "월"
  }

  /** The achievement cell: actual over target in percent to one decimal, when
      there is an actual and a positive target; otherwise empty. */
  function Achievement(m: MonthlyPerformance): string
  {
    if m.thisYearActual.Some? && m.thisYearTarget > 0.0
    then Fixed1Text(m.thisYearActual.value / m.thisYearTarget * 100.0)
    else ""
  }

  /** The growth cell: the change over last year in percent to one decimal,
      when there is an actual and last year's actual is positive; otherwise empty. */
  function Growth(m: MonthlyPerformance): string
  {
    if m.thisYearActual.Some? && m.lastYearActual > 0.0
    then Fixed1Text((m.thisYearActual.value - m.lastYearActual) / m.lastYearActual * 100.0)
    else ""
  }

  /** `thisYearActual` as a cell: null when not reported. */
  function ActualCell(m: MonthlyPerformance, show: real -> string): Option<string>
  {
    if m.thisYearActual.Some? then Some(show(m.thisYearActual.value)) else None
  }

  /** The six cells of one month. */
  function PerformanceCells(m: MonthlyPerformance, show: real -> string): (r: seq<Option<string>>)
    ensures |r| == |PerformanceHeader|
  {
    [Some(MonthLabel(m.month)), Some(show(m.lastYearActual)), Some(show(m.thisYearTarget)),
     ActualCell(m, show), Some(Achievement(m)), Some(Growth(m))]
  }

  /** exportPerformanceCSV without the download: the BOM, the header and one line per month. */
  function PerformanceCsv(data: CategoryData, show: real -> string): (csv: string)
    ensures StartsWith(csv, Bom + Join(',', PerformanceHeader))
    ensures csv[|Bom|..] == Join('\n', [Join(',', PerformanceHeader)] + PerformanceLines(data.totalPerformance, show))
  {
    var lines := [Join(',', PerformanceHeader)] + PerformanceLines(data.totalPerformance, show);
    JoinStartsWithFirst('\n', lines);
    Bom + Join('\n', lines)
  }

  /** The month lines, one per month in order. */
  function PerformanceLines(ms: seq<MonthlyPerformance>, show: real -> string): (r: seq<string>)
    ensures |r| == |ms| && forall i :: 0 <= i < |ms| ==> r[i] == Line(PerformanceCells(ms[i], show))
  {
    seq(|ms|, i requires 0 <= i < |ms| => Line(PerformanceCells(ms[i], show)))
  }

  /** A joined list starts with its first part. */
  lemma JoinStartsWithFirst(sep: char, parts: seq<string>)
    requires parts != []
    ensures StartsWith(Join(sep, parts), parts[0])
  {
    if |parts| > 1 {
      assert Join(sep, parts)[..|parts[0]|] == parts[0];
    }
  }

  /** Each month reads back as six fields: its label, last year, target, the
      actual (empty when not reported), achievement and growth. */
  lemma PerformanceLineReads(m: MonthlyPerformance, show: real -> string)
    ensures var fields := ReadFields(Line(PerformanceCells(m, show)));
            |fields| == 6
            && fields[0] == MonthLabel(m.month)
            && fields[1] == show(m.lastYearActual)
            && fields[2] == show(m.thisYearTarget)
            && fields[3] == (if m.thisYearActual.Some? then show(m.thisYearActual.value) else "")
            && fields[4] == Achievement(m)
            && fields[5] == Growth(m)
  {
    LineRoundTrip(PerformanceCells(m, show));
    TextsAt(PerformanceCells(m, show));
  }

  /** toFixed(1) never gives the empty text. */
  lemma Fixed1NotEmpty(x: real)
    ensures Fixed1Text(x) != ""
  {
    assert |Fixed1Text(x)| >= 3;
  }

  /** The achievement cell is filled exactly when the actual is reported and the target is positive. */
  lemma AchievementFilled(m: MonthlyPerformance)
    ensures Achievement(m) != "" <==> m.thisYearActual.Some? && m.thisYearTarget > 0.0
  {
    if m.thisYearActual.Some? && m.thisYearTarget > 0.0 {
      Fixed1NotEmpty(m.thisYearActual.value / m.thisYearTarget * 100.0);
    }
  }

  /** The growth cell is filled exactly when the actual is reported and last year's actual is positive. */
  lemma GrowthFilled(m: MonthlyPerformance)
    ensures Growth(m) != "" <==> m.thisYearActual.Some? && m.lastYearActual > 0.0
  {
    if m.thisYearActual.Some? && m.lastYearActual > 0.0 {
      Fixed1NotEmpty((m.thisYearActual.value - m.lastYearActual) / m.lastYearActual * 100.0);
    }
  }

  // ---------------------------------------------------------------- exportCustomerCSV

  const CustomerHeader: seq<string> := ["순위", "고객사명", "25년 실적(억)", "26년 YTD(억)", "성장률(%)", "상태"]

  /** The status as the record holds it. */
  function StatusText(s: CustomerStatus): string
  {
    match s
    case Thriving => "Thriving"
    case Stable => "Stable"
    case Challenged => "Challenged"
  }

  /** The six cells of the customer of rank `rank`. */
  function CustomerCells(rank: nat, c: CustomerData, show: real -> string): (r: seq<Option<string>>)
    ensures |r| == |CustomerHeader|
  {
    [Some(NatToString(rank)), Some(c.name), Some(show(c.revenueLastYear)), Some(show(c.revenueYTD)),
     Some(show(c.growth)), Some(StatusText(c.status))]
  }

  /** The customer lines, the i-th ranked i + 1. */
  function CustomerLines(cs: seq<CustomerData>, show: real -> string): (r: seq<string>)
    ensures |r| == |cs|
  {
    seq(|cs|, i requires 0 <= i < |cs| => Line(CustomerCells(i + 1, cs[i], show)))
  }

  /** exportCustomerCSV without the download. */
  function CustomerCsv(data: CategoryData, show: real -> string): (csv: string)
    ensures StartsWith(csv, Bom + Join(',', CustomerHeader))
    ensures csv[|Bom|..] == Join('\n', [Join(',', CustomerHeader)] + CustomerLines(data.topCustomers, show))
  {
    var lines := [Join(',', CustomerHeader)] + CustomerLines(data.topCustomers, show);
    JoinStartsWithFirst('\n', lines);
    Bom + Join('\n', lines)
  }

  /** The customers are numbered 1..n in list order: the i-th line reads back
      as rank i + 1, the i-th customer's name and its figures and status. */
  lemma CustomersNumbered(cs: seq<CustomerData>, show: real -> string, i: nat)
    requires i < |cs|
    ensures var fields := ReadFields(CustomerLines(cs, show)[i]);
            |fields| == 6
            && fields[0] == NatToString(i + 1)
            && fields[1] == cs[i].name
            && fields[2] == show(cs[i].revenueLastYear)
            && fields[3] == show(cs[i].revenueYTD)
            && fields[4] == show(cs[i].growth)
            && fields[5] == StatusText(cs[i].status)
  {
    LineRoundTrip(CustomerCells(i + 1, cs[i], show));
    TextsAt(CustomerCells(i + 1, cs[i], show));
  }

  // ---------------------------------------------------------------- exportFullDataCSV

  /** The four cells of one month in the full export. */
  function MonthCells(m: MonthlyPerformance, show: real -> string): (r: seq<Option<string>>)
    ensures |r| == 4
  {
    [Some(MonthLabel(m.month)), Some(show(m.lastYearActual)), Some(show(m.thisYearTarget)), ActualCell(m, show)]
  }

  /** The five cells of one customer in the full export (no rank). */
  function CustomerRowCells(c: CustomerData, show: real -> string): (r: seq<Option<string>>)
    ensures |r| == 5
  {
    [Some(c.name), Some(show(c.revenueLastYear)), Some(show(c.revenueYTD)), Some(show(c.growth)), Some(StatusText(c.status))]
  }

  function FacilitatorCells(f: Facilitator): (r: seq<Option<string>>)
    ensures |r| == 2
  {
    [Some(f.role), Some(f.name)]
  }

  /** `[${category}] title`. */
  function Title(c: Category, title: string): string
  {
    "[" + CategoryName(c) + "] " + title
  }

  function MonthLines(ms: seq<MonthlyPerformance>, show: real -> string): (r: seq<string>)
    ensures |r| == |ms|
  {
    seq(|ms|, i requires 0 <= i < |ms| => Line(MonthCells(ms[i], show)))
  }

  function CustomerRowLines(cs: seq<CustomerData>, show: real -> string): (r: seq<string>)
    ensures |r| == |cs|
  {
    seq(|cs|, i requires 0 <= i < |cs| => Line(CustomerRowCells(cs[i], show)))
  }

  function FacilitatorLines(fs: seq<Facilitator>): (r: seq<string>)
    ensures |r| == |fs|
  {
    seq(|fs|, i requires 0 <= i < |fs| => Line(FacilitatorCells(fs[i])))
  }

  /** The monthly section: a title, a header and one line per month. */
  function PerformanceSection(data: CategoryData, show: real -> string): (r: seq<string>)
    ensures |r| == 2 + |data.totalPerformance|
  {
    [Title(data.category, "월별 실적"), Join(',', ["월", "25년 실적", "26년 목표", "26년 실적"])]
    + MonthLines(data.totalPerformance, show)
  }

  /** The customer section: an empty line, a title, a header and one line per customer. */
  function CustomerSection(data: CategoryData, show: real -> string): (r: seq<string>)
    ensures |r| == 3 + |data.topCustomers|
  {
    ["", Title(data.category, "고객사"), Join(',', ["고객사명", "25년 실적(억)", "26년 YTD(억)", "성장률(%)", "상태"])]
    + CustomerRowLines(data.topCustomers, show)
  }

  /** The facilitator section: an empty line, a title, a header and one line per facilitator. */
  function FacilitatorSection(data: CategoryData): (r: seq<string>)
    ensures |r| == 3 + |data.facilitators|
  {
    ["", Title(data.category, "담당자"), Join(',', ["역할", "이름"])] + FacilitatorLines(data.facilitators)
  }

  /** The lines of the full export, the three sections in order. */
  function FullSections(data: CategoryData, show: real -> string): (r: seq<string>)
    ensures |r| == 8 + |data.totalPerformance| + |data.topCustomers| + |data.facilitators|
  {
    PerformanceSection(data, show) + CustomerSection(data, show) + FacilitatorSection(data)
  }

  /** exportFullDataCSV without the download: the pushes onto `sections`, then
      the BOM and the sections joined by newlines. */
  method ExportFullDataCsv(data: CategoryData, show: real -> string) returns (csv: string)
    ensures csv == Bom + Join('\n', FullSections(data, show))
  {
    var sections: seq<string> := [];
    sections := sections + [Title(data.category, "월별 실적")];
    sections := sections + [Join(',', ["월", "25년 실적", "26년 목표", "26년 실적"])];
    sections := PushMonths(sections, data.totalPerformance, show);
    ghost var done := sections;
    sections := sections + [""];
    sections := sections + [Title(data.category, "고객사")];
    sections := sections + [Join(',', ["고객사명", "25년 실적(억)", "26년 YTD(억)", "성장률(%)", "상태"])];
    ghost var before := sections;
    sections := PushCustomers(sections, data.topCustomers, show);
    PushedAfter(done, "", Title(data.category, "고객사"), before[|before| - 1], CustomerRowLines(data.topCustomers, show));
    ghost var middle := sections;
    sections := sections + [""];
    sections := sections + [Title(data.category, "담당자")];
    sections := sections + [Join(',', ["역할", "이름"])];
    before := sections;
    sections := PushFacilitators(sections, data.facilitators);
    PushedAfter(middle, "", Title(data.category, "담당자"), before[|before| - 1], FacilitatorLines(data.facilitators));
    assert done == PerformanceSection(data, show);
    csv := Bom + Join('\n', sections);
  }

  /** Three pushes and then some more lines: the three lines and the rest, appended. */
  lemma PushedAfter(xs: seq<string>, a: string, b: string, c: string, ys: seq<string>)
    ensures xs + [a] + [b] + [c] + ys == xs + ([a, b, c] + ys)
  {
  }

  /** `totalPerformance.forEach(m => sections.push(...))`. */
  method PushMonths(sections: seq<string>, ms: seq<MonthlyPerformance>, show: real -> string) returns (r: seq<string>)
    ensures r == sections + MonthLines(ms, show)
  {
    r := sections;
    for i := 0 to |ms|
      invariant r == sections + MonthLines(ms[..i], show)
    {
      MonthLinesSnoc(ms, i, show);
      r := r + [Line(MonthCells(ms[i], show))];
    }
    assert ms[..|ms|] == ms;
  }

  /** One more month adds its line at the end. */
  lemma MonthLinesSnoc(ms: seq<MonthlyPerformance>, i: int, show: real -> string)
    requires 0 <= i < |ms|
    ensures MonthLines(ms[..i + 1], show) == MonthLines(ms[..i], show) + [Line(MonthCells(ms[i], show))]
  {
    var a := MonthLines(ms[..i + 1], show);
    var b := MonthLines(ms[..i], show) + [Line(MonthCells(ms[i], show))];
    forall j | 0 <= j < |a|
      ensures a[j] == b[j]
    {
      assert ms[..i + 1][j] == ms[j];
    }
  }

  /** `topCustomers.forEach(c => sections.push(...))`. */
  method PushCustomers(sections: seq<string>, cs: seq<CustomerData>, show: real -> string) returns (r: seq<string>)
    ensures r == sections + CustomerRowLines(cs, show)
  {
    r := sections;
    for i := 0 to |cs|
      invariant r == sections + CustomerRowLines(cs[..i], show)
    {
      assert CustomerRowLines(cs[..i + 1], show) == CustomerRowLines(cs[..i], show) + [Line(CustomerRowCells(cs[i], show))];
      r := r + [Line(CustomerRowCells(cs[i], show))];
    }
    assert cs[..|cs|] == cs;
  }

  /** `facilitators.forEach(f => sections.push(...))`. */
  method PushFacilitators(sections: seq<string>, fs: seq<Facilitator>) returns (r: seq<string>)
    ensures r == sections + FacilitatorLines(fs)
  {
    r := sections;
    for i := 0 to |fs|
      invariant r == sections + FacilitatorLines(fs[..i])
    {
      assert FacilitatorLines(fs[..i + 1]) == FacilitatorLines(fs[..i]) + [Line(FacilitatorCells(fs[i]))];
      r := r + [Line(FacilitatorCells(fs[i]))];
    }
    assert fs[..|fs|] == fs;
  }

  /** Where the sections start: the titles, and an empty line before the
      customer and the facilitator sections. */
  lemma FullSectionsLayout(data: CategoryData, show: real -> string)
    ensures var r := FullSections(data, show);
            var m := |data.totalPerformance|;
            var c := |data.topCustomers|;
            r[0] == Title(data.category, "월별 실적")
            && r[2 + m] == "" && r[3 + m] == Title(data.category, "고객사")
            && r[5 + m + c] == "" && r[6 + m + c] == Title(data.category, "담당자")
  {
    var r := FullSections(data, show);
    var m := |data.totalPerformance|;
    var c := |data.topCustomers|;
    assert r[2 + m] == CustomerSection(data, show)[0] && r[3 + m] == CustomerSection(data, show)[1];
    assert r[5 + m + c] == FacilitatorSection(data)[0] && r[6 + m + c] == FacilitatorSection(data)[1];
  }

  /** A month of the full export reads back as its label, last year, target
      and actual (empty when not reported). */
  lemma MonthLineReads(m: MonthlyPerformance, show: real -> string)
    ensures ReadFields(Line(MonthCells(m, show)))
              == [MonthLabel(m.month), show(m.lastYearActual), show(m.thisYearTarget), TextOf(ActualCell(m, show))]
  {
    LineRoundTrip(MonthCells(m, show));
    TextsAt(MonthCells(m, show));
  }

  /** The i-th month sits two lines into the full export. */
  lemma FullMonthRead(data: CategoryData, show: real -> string, i: nat)
    requires i < |data.totalPerformance|
    ensures var m := data.totalPerformance[i];
            ReadFields(FullSections(data, show)[2 + i])
              == [MonthLabel(m.month), show(m.lastYearActual), show(m.thisYearTarget), TextOf(ActualCell(m, show))]
  {
    var ms := data.totalPerformance;
    assert FullSections(data, show)[2 + i] == PerformanceSection(data, show)[2 + i] == MonthLines(ms, show)[i];
    MonthLineReads(ms[i], show);
  }

  /** A customer of the full export reads back as its name, figures and status. */
  lemma CustomerRowReads(c: CustomerData, show: real -> string)
    ensures ReadFields(Line(CustomerRowCells(c, show)))
              == [c.name, show(c.revenueLastYear), show(c.revenueYTD), show(c.growth), StatusText(c.status)]
  {
    LineRoundTrip(CustomerRowCells(c, show));
    TextsAt(CustomerRowCells(c, show));
  }

  /** The j-th customer sits after the monthly section, an empty line, a title and a header. */
  lemma FullCustomerRead(data: CategoryData, show: real -> string, j: nat)
    requires j < |data.topCustomers|
    ensures var c := data.topCustomers[j];
            ReadFields(FullSections(data, show)[5 + |data.totalPerformance| + j])
              == [c.name, show(c.revenueLastYear), show(c.revenueYTD), show(c.growth), StatusText(c.status)]
  {
    var cs := data.topCustomers;
    var k := 5 + |data.totalPerformance| + j;
    assert FullSections(data, show)[k] == CustomerSection(data, show)[3 + j] == CustomerRowLines(cs, show)[j];
    CustomerRowReads(cs[j], show);
  }

  /** The k-th facilitator sits at the end, after the customer section, an
      empty line, a title and a header, and reads back as its role and name. */
  lemma FullFacilitatorRead(data: CategoryData, show: real -> string, k: nat)
    requires k < |data.facilitators|
    ensures var f := data.facilitators[k];
            ReadFields(FullSections(data, show)[8 + |data.totalPerformance| + |data.topCustomers| + k]) == [f.role, f.name]
  {
    var fs := data.facilitators;
    var n := 8 + |data.totalPerformance| + |data.topCustomers| + k;
    assert FullSections(data, show)[n] == FacilitatorSection(data)[3 + k] == FacilitatorLines(fs)[k];
    LineRoundTrip(FacilitatorCells(fs[k]));
    TextsAt(FacilitatorCells(fs[k]));
  }
}

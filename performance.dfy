/** The monthly-performance workbook (parsePerformanceExcel,
    utils/excelParser.ts): one sheet per category, one row per month. */
module PerformanceSheet {
  import opened Types
  import opened Js
  import opened RowReader
  import opened CategoryResolver
  import opened Sorting
  import opened Filtering

  const MonthKeys: seq<string> := ["월", "month", "Month", "MONTH"]
  const LastYearKeys: seq<string> := ["전년실적", "전년 실적", "lastYearActual", "Last Year Actual"]
  const TargetKeys: seq<string> := ["금년목표", "금년 목표", "thisYearTarget", "This Year Target"]
  const ActualKeys: seq<string> := ["금년실적", "금년 실적", "thisYearActual", "This Year Actual"]

  /** The month cell read with parseInt, when it is truthy and names a month 1..12. */
  function RowMonth(row: Row): (r: Option<int>)
    ensures r.Some? ==> 1 <= r.value <= 12
  {
    var v := OrChain(Cells(row, MonthKeys));
    if !Truthy(v) then None
    else
      match ParseInt(ToText(v))
      case None => None
      case Some(m) => if 1 <= m <= 12 then Some(m) else None
  }

  /** The this-year actual: the `||` chain of its headers (the last header's cell
      when none is truthy), kept only when present and numeric. */
  function RowActual(row: Row): Option<real>
  {
    var raw := OrChain(Cells(row, ActualKeys));
    if NumericCell(raw) then Some(NumberOf(raw).v) else None
  }

  /** One row of a performance sheet, or None when it names no month 1..12. */
  function ParsePerformanceRow(row: Row): (r: Option<MonthlyPerformance>)
    ensures r.Some? <==> RowMonth(row).Some?
    ensures r.Some? ==> r.value.month == RowMonth(row).value && 1 <= r.value.month <= 12
    ensures r.Some? ==> r.value.lastYearActual == NaNToZero(OrNumber(row, LastYearKeys, Fin(0.0)))
                        && r.value.thisYearTarget == NaNToZero(OrNumber(row, TargetKeys, Fin(0.0)))
                        && r.value.thisYearActual == RowActual(row)
  {
    match RowMonth(row)
    case None => None
    case Some(m) =>
      Some(MonthlyPerformance(
        m,
        NaNToZero(OrNumber(row, LastYearKeys, Fin(0.0))),
        NaNToZero(OrNumber(row, TargetKeys, Fin(0.0))),
        RowActual(row)))
  }

  /** The callback of `jsonData.map`, which does not use the row's position. */
  function PerformanceRowAt(row: Row, idx: nat): Option<MonthlyPerformance>
  {
    ParsePerformanceRow(row)
  }

  /** The rows that name a month, in sheet order: exactly the parsed rows that
      the filter on null keeps. */
  function ParsedMonths(rows: seq<Row>): (ms: seq<MonthlyPerformance>)
    ensures KeptValues(rows, PerformanceRowAt, ms)
    ensures forall i :: 0 <= i < |ms| ==> 1 <= ms[i].month <= 12
  {
    if rows == [] then []
    else
      var front := ParsedMonths(rows[..|rows| - 1]);
      KeptValuesSnoc(rows, PerformanceRowAt, front);
      match ParsePerformanceRow(rows[|rows| - 1])
      case None => front
      case Some(m) => front + [m]
  }

  function MonthKey(m: MonthlyPerformance): real
  {
    m.month as real
  }

  /** The performance of one sheet: its month rows sorted by month, ties in sheet order. */
  function SheetPerformance(rows: seq<Row>): (ps: seq<MonthlyPerformance>)
    ensures multiset(ps) == multiset(ParsedMonths(rows))
    ensures forall i, j :: 0 <= i < j < |ps| ==> ps[i].month <= ps[j].month
    ensures forall i :: 0 <= i < |ps| ==> 1 <= ps[i].month <= 12
  {
    var ms := ParsedMonths(rows);
    var ps := SortBy(ms, MonthKey);
    assert forall i, j :: 0 <= i < j < |ps| ==> MonthKey(ps[i]) <= MonthKey(ps[j]);
    MonthsInRange(ps, ms);
    ps
  }

  lemma MonthsInRange(ps: seq<MonthlyPerformance>, ms: seq<MonthlyPerformance>)
    requires multiset(ps) == multiset(ms)
    requires forall i :: 0 <= i < |ms| ==> 1 <= ms[i].month <= 12
    ensures forall i :: 0 <= i < |ps| ==> 1 <= ps[i].month <= 12
  {
    forall i | 0 <= i < |ps|
      ensures 1 <= ps[i].month <= 12
    {
      assert ps[i] in multiset(ms);
      var j :| 0 <= j < |ms| && ms[j] == ps[i];
    }
  }

  /** One sheet of the workbook, its name and rows: kept, under the category its
      name normalises to, exactly when that name is a category and some row
      names a month 1..12; the value is that sheet's sorted performance. */
  function PerformanceSheetEntry(sheet: (string, seq<Row>)): (r: Option<(Category, seq<MonthlyPerformance>)>)
    ensures r.Some? <==> NormalizeCategory(sheet.0).Some?
                         && exists i :: 0 <= i < |sheet.1| && ParsePerformanceRow(sheet.1[i]).Some?
    ensures r.Some? ==> r.value == (NormalizeCategory(sheet.0).value, SheetPerformance(sheet.1))
  {
    var ps := SheetPerformance(sheet.1);
    assert |ps| == |ParsedMonths(sheet.1)| by {
      assert |multiset(ps)| == |multiset(ParsedMonths(sheet.1))|;
    }
    KeptNonEmpty(sheet.1, PerformanceRowAt);
    assert (exists i :: 0 <= i < |sheet.1| && PerformanceRowAt(sheet.1[i], i).Some?)
       <==> (exists i :: 0 <= i < |sheet.1| && ParsePerformanceRow(sheet.1[i]).Some?);
    match NormalizeCategory(sheet.0)
    case None => None
    case Some(cat) => if |ps| > 0 then Some((cat, ps)) else None
  }

  /** The sheets in workbook order: a category is present exactly when some sheet
      is kept under it, and holds what the last such sheet gave. */
  function PerformanceSheets(sheets: seq<(string, seq<Row>)>): (r: map<Category, seq<MonthlyPerformance>>)
    ensures LastWins(sheets, PerformanceSheetEntry, r)
    ensures forall c :: c in r ==> |r[c]| > 0
  {
    if sheets == [] then map[]
    else
      var front := PerformanceSheets(sheets[..|sheets| - 1]);
      var last := sheets[|sheets| - 1];
      LastWinsSnoc(sheets, PerformanceSheetEntry, front);
      match PerformanceSheetEntry(last)
      case None => front
      case Some(e) => front[e.0 := e.1]
  }

  /** parsePerformanceExcel over the decoded workbook, or the read failure. */
  function ParsePerformanceExcel(workbook: Result<seq<(string, seq<Row>)>>): (r: Result<map<Category, seq<MonthlyPerformance>>>)
    ensures workbook.Err? ==> r == Err(workbook.msg)
    ensures workbook.Ok? ==> r.Ok? && LastWins(workbook.value, PerformanceSheetEntry, r.value)
  {
    match workbook
    case Err(e) => Err(e)
    case Ok(sheets) => Ok(PerformanceSheets(sheets))
  }

  // ---------------------------------------------------------------- lemmas

  /** The sheet's rows of one month come out in sheet order. */
  lemma SameMonthInSheetOrder(rows: seq<Row>, m: int)
    ensures WithKey(SheetPerformance(rows), MonthKey, m as real) == WithKey(ParsedMonths(rows), MonthKey, m as real)
  {
    SortByStable(ParsedMonths(rows), MonthKey, m as real);
  }

  /** A sheet whose rows already run in month order keeps that order. */
  lemma OrderedSheetUnchanged(rows: seq<Row>)
    requires forall i, j :: 0 <= i < j < |ParsedMonths(rows)| ==> ParsedMonths(rows)[i].month <= ParsedMonths(rows)[j].month
    ensures SheetPerformance(rows) == ParsedMonths(rows)
  {
    var ms := ParsedMonths(rows);
    assert SortedBy(ms, MonthKey);
    SortBySorted(ms, MonthKey);
  }

  /** A later sheet of a category replaces what an earlier sheet gave it. */
  lemma LastSheetWins(sheets: seq<(string, seq<Row>)>, name: string, rows: seq<Row>)
    requires PerformanceSheetEntry((name, rows)).Some?
    ensures var e := PerformanceSheetEntry((name, rows)).value;
            PerformanceSheets(sheets + [(name, rows)]) == PerformanceSheets(sheets)[e.0 := e.1]
  {
    var all := sheets + [(name, rows)];
    assert all[..|all| - 1] == sheets;
  }

  /** A zero actual under the first actual header is read as "not reported",
      while a zero under the last header is read as zero: the `||` chain skips
      a falsy cell and stops at its last operand. */
  lemma ZeroActualDependsOnHeader(row: Row)
    requires forall k :: 0 <= k < |ActualKeys| ==> ActualKeys[k] !in row
    ensures RowActual(row[ActualKeys[0] := Num(0.0, "0")]) == None
    ensures RowActual(row[ActualKeys[3] := Num(0.0, "0")]) == Some(0.0)
  {
    var first := row[ActualKeys[0] := Num(0.0, "0")];
    var vs := Cells(first, ActualKeys);
    assert vs[0] == Num(0.0, "0");
    assert forall k :: 1 <= k < 4 ==> vs[k] == Undefined;
    OrChainAllFalsy(vs);
    var lastRow := row[ActualKeys[3] := Num(0.0, "0")];
    var ws := Cells(lastRow, ActualKeys);
    assert forall k :: 0 <= k < 3 ==> ws[k] == Undefined;
    assert ws[3] == Num(0.0, "0");
    OrChainAllFalsy(ws);
  }
}

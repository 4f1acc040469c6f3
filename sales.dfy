/** Sales files (utils/excelParser.ts): rows of period / customer / revenue
    summed per month and per customer, the file's type guessed from its name,
    and the twelve-month performance array built from the monthly totals. */
module SalesFile {
  import opened Types
  import opened Js
  import opened RowReader
  import opened CategoryResolver
  import opened PeriodParser
  import opened Filtering

  datatype SalesRow = SalesRow(period: string, customer: string, revenue: real)

  datatype FileType = LastYear | Plan | ThisYear

  /** What one sales file yields for its category; revenues in units of 100 million. */
  datatype SalesFileData = SalesFileData(
    performance: seq<MonthlyPerformance>,
    customerRevenue: map<string, real>,
    customerRevenueByMonth: map<string, map<int, real>>,
    fileType: FileType)

  const PeriodKeys: seq<string> := ["기간/연도", "기간", "연도", "연월", "period"]
  const CustomerKeys: seq<string> := ["고객명", "고객사", "고객사명", "customer"]
  const SalesRevenueKeys: seq<string> := ["매출", " 매출 ", "매출액", "revenue"]

  /** The customer of a row that names none: the file's total line. */
  const TotalCustomer: string := "_total_"

  // ---------------------------------------------------------------- parseSalesSheet

  /** One row: None when the period text is empty; otherwise the period text, the
      customer text (the total line's name when no customer cell is truthy) and
      the revenue read with parseFloat, NaN read as 0. */
  function ParseSalesRow(row: Row): (r: Option<SalesRow>)
    ensures r.None? <==> OrText(row, PeriodKeys, "") == ""
    ensures r.Some? ==> r.value.period == OrText(row, PeriodKeys, "")
                        && r.value.customer == OrText(row, CustomerKeys, TotalCustomer)
                        && r.value.revenue == NaNToZero(OrNumber(row, SalesRevenueKeys, Fin(0.0)))
  {
    var period := OrText(row, PeriodKeys, "");
    var customer := OrText(row, CustomerKeys, TotalCustomer);
    var revenue := NaNToZero(OrNumber(row, SalesRevenueKeys, Fin(0.0)));
    if period == "" then None else Some(SalesRow(period, customer, revenue))
  }

  /** The callback of `jsonData.map`, which does not use the row's position. */
  function SalesRowAt(row: Row, idx: nat): Option<SalesRow>
  {
    ParseSalesRow(row)
  }

  /** parseSalesSheet: exactly the parsed rows that have a period, in sheet order. */
  function ParseSalesSheet(rows: seq<Row>): (rs: seq<SalesRow>)
    ensures KeptValues(rows, SalesRowAt, rs)
    ensures forall i :: 0 <= i < |rs| ==> rs[i].period != ""
  {
    if rows == [] then []
    else
      var front := ParseSalesSheet(rows[..|rows| - 1]);
      KeptValuesSnoc(rows, SalesRowAt, front);
      match ParseSalesRow(rows[|rows| - 1])
      case None => front
      case Some(r) => front + [r]
  }

  // ---------------------------------------------------------------- the three totals, as folds

  /** The month a row counts towards, as the aggregation loops read it: the
      period's month by parsePeriodToMonth as written, unless there is none or it is 0. */
  function RowMonth(r: SalesRow): (m: Option<int>)
    ensures m.Some? <==> ParsePeriodToMonthAsWritten(r.period).Some? && ParsePeriodToMonthAsWritten(r.period).value != 0
    ensures m.Some? ==> m.value == ParsePeriodToMonthAsWritten(r.period).value && 1 <= m.value <= 99
  {
    match ParsePeriodToMonthAsWritten(r.period)
    case None => None
    case Some(m) => if m != 0 then Some(m) else None
  }

  /** The same reader over the corrected period parser, which tries YYYY.NNN first. */
  function CorrectedRowMonth(r: SalesRow): (m: Option<int>)
    ensures m.Some? <==> ParsePeriodToMonth(r.period).Some? && ParsePeriodToMonth(r.period).value != 0
    ensures m.Some? ==> m.value == ParsePeriodToMonth(r.period).value && 1 <= m.value <= 99
  {
    match ParsePeriodToMonth(r.period)
    case None => None
    case Some(m) => if m != 0 then Some(m) else None
  }

  function AddTo<K>(m: map<K, real>, k: K, x: real): map<K, real>
  {
    m[k := (if k in m then m[k] else 0.0) + x]
  }

  /** The type of a reader of the month a row counts towards; the loops below
      are stated for any reader and used with RowMonth. */
  type MonthReader = SalesRow -> Option<int>

  /** The monthly totals after the rows, in order. */
  function MonthlyTotals(rows: seq<SalesRow>, monthOf: MonthReader): (totals: map<int, real>)
    ensures forall k :: k in totals ==> exists i :: 0 <= i < |rows| && monthOf(rows[i]) == Some(k)
  {
    if rows == [] then map[]
    else
      var m := MonthlyTotals(rows[..|rows| - 1], monthOf);
      assert forall i :: 0 <= i < |rows| - 1 ==> rows[..|rows| - 1][i] == rows[i];
      var r := rows[|rows| - 1];
      match monthOf(r)
      case None => m
      case Some(k) => AddTo(m, k, r.revenue)
  }

  function CustomerTotals(rows: seq<SalesRow>): map<string, real>
  {
    if rows == [] then map[]
    else
      var r := rows[|rows| - 1];
      AddTo(CustomerTotals(rows[..|rows| - 1]), r.customer, r.revenue)
  }

  function CustomerMonthlyTotals(rows: seq<SalesRow>, monthOf: MonthReader): map<string, map<int, real>>
  {
    if rows == [] then map[]
    else
      var cm := CustomerMonthlyTotals(rows[..|rows| - 1], monthOf);
      var r := rows[|rows| - 1];
      match monthOf(r)
      case None => cm
      case Some(k) =>
        var mm := if r.customer in cm then cm[r.customer] else map[];
        cm[r.customer := AddTo(mm, k, r.revenue)]
  }

  // ---------------------------------------------------------------- reference sums

  /** The revenue of the rows that count towards month k. */
  function MonthSum(rows: seq<SalesRow>, monthOf: MonthReader, k: int): real
  {
    if rows == [] then 0.0
    else MonthSum(rows[..|rows| - 1], monthOf, k) + (if monthOf(rows[|rows| - 1]) == Some(k) then rows[|rows| - 1].revenue else 0.0)
  }

  /** The revenue of the rows of customer c. */
  function CustomerSum(rows: seq<SalesRow>, c: string): real
  {
    if rows == [] then 0.0
    else CustomerSum(rows[..|rows| - 1], c) + (if rows[|rows| - 1].customer == c then rows[|rows| - 1].revenue else 0.0)
  }

  /** The rows of customer c, in order. */
  function OfCustomer(rows: seq<SalesRow>, c: string): (rs: seq<SalesRow>)
    ensures forall i :: 0 <= i < |rs| ==> rs[i].customer == c
  {
    if rows == [] then []
    else OfCustomer(rows[..|rows| - 1], c) + (if rows[|rows| - 1].customer == c then [rows[|rows| - 1]] else [])
  }

  // ---------------------------------------------------------------- the loops

  /** aggregateMonthlyRevenue. */
  method AggregateMonthlyRevenue(rows: seq<SalesRow>, monthOf: MonthReader) returns (totals: map<int, real>)
    ensures totals == MonthlyTotals(rows, monthOf)
  {
    totals := map[];
    var i := 0;
    while i < |rows|
      invariant 0 <= i <= |rows|
      invariant totals == MonthlyTotals(rows[..i], monthOf)
    {
      assert rows[..i + 1] == rows[..i] + [rows[i]];
      MonthlyTotalsSnoc(rows[..i], rows[i], monthOf);
      var month := monthOf(rows[i]);
      if month.Some? {
        totals := totals[month.value := (if month.value in totals then totals[month.value] else 0.0) + rows[i].revenue];
      }
      i := i + 1;
    }
    assert rows[..|rows|] == rows;
  }

  /** aggregateCustomerRevenue. */
  method AggregateCustomerRevenue(rows: seq<SalesRow>) returns (totals: map<string, real>)
    ensures totals == CustomerTotals(rows)
  {
    totals := map[];
    var i := 0;
    while i < |rows|
      invariant 0 <= i <= |rows|
      invariant totals == CustomerTotals(rows[..i])
    {
      assert rows[..i + 1][..i] == rows[..i];
      var c := rows[i].customer;
      totals := totals[c := (if c in totals then totals[c] else 0.0) + rows[i].revenue];
      i := i + 1;
    }
    assert rows[..|rows|] == rows;
  }

  /** aggregateCustomerRevenueByMonth. */
  method AggregateCustomerRevenueByMonth(rows: seq<SalesRow>, monthOf: MonthReader)
    returns (totals: map<string, map<int, real>>)
    ensures totals == CustomerMonthlyTotals(rows, monthOf)
  {
    totals := map[];
    var i := 0;
    while i < |rows|
      invariant 0 <= i <= |rows|
      invariant totals == CustomerMonthlyTotals(rows[..i], monthOf)
    {
      assert rows[..i + 1][..i] == rows[..i];
      var month := monthOf(rows[i]);
      if month.Some? {
        var c := rows[i].customer;
        if c !in totals {
          totals := totals[c := map[]];
        }
        var monthMap := totals[c];
        monthMap := monthMap[month.value := (if month.value in monthMap then monthMap[month.value] else 0.0) + rows[i].revenue];
        totals := totals[c := monthMap];
      }
      i := i + 1;
    }
    assert rows[..|rows|] == rows;
  }

  // ---------------------------------------------------------------- detectFileType

  predicate HasPlanWord(lower: string)
  {
    Contains(lower, "계획") || Contains(lower, "목표") || Contains(lower, "plan") || Contains(lower, "target")
  }

  /** detectFileType: the file name first ("25", then "26" with or without a
      plan word), then the first row's period, else last year. */
  function DetectFileType(filename: string, rows: seq<SalesRow>): (t: FileType)
    ensures Contains(ToLower(filename), "25") ==> t == LastYear
    ensures t == Plan <==> (!Contains(ToLower(filename), "25") && Contains(ToLower(filename), "26")
                            && HasPlanWord(ToLower(filename)))
    ensures t == ThisYear <==> (!Contains(ToLower(filename), "25")
                                && ((Contains(ToLower(filename), "26") && !HasPlanWord(ToLower(filename)))
                                    || (!Contains(ToLower(filename), "26") && |rows| > 0
                                        && !StartsWith(rows[0].period, "2025") && StartsWith(rows[0].period, "2026"))))
  {
    var lower := ToLower(filename);
    var has25 := Contains(lower, "25");
    var has26 := Contains(lower, "26");
    var hasPlan := HasPlanWord(lower);
    var hasActual := Contains(lower, "실적") || Contains(lower, "actual");
    if has25 then LastYear
    else if has26 && hasPlan then Plan
    else if has26 && hasActual then ThisYear
    else if has26 then ThisYear
    else if |rows| > 0 && StartsWith(rows[0].period, "2025") then LastYear
    else if |rows| > 0 && StartsWith(rows[0].period, "2026") then ThisYear
    else LastYear
  }

  // ---------------------------------------------------------------- the performance array

  /** One month of the array: only the field of the file's type is filled, and only
      for a month that has a total (last-year and this-year totals in units of
      100 million, plan totals divided by 100). */
  function MonthEntry(monthly: map<int, real>, t: FileType, month: int): (e: MonthlyPerformance)
    ensures e.month == month
    ensures t != LastYear ==> e.lastYearActual == 0.0
    ensures t != Plan ==> e.thisYearTarget == 0.0
    ensures e.thisYearActual.Some? <==> t == ThisYear && month in monthly
    ensures month !in monthly ==> e == MonthlyPerformance(month, 0.0, 0.0, None)
  {
    var hasData := month in monthly;
    var value := if hasData then monthly[month] else 0.0;
    MonthlyPerformance(
      month,
      if t == LastYear && hasData then value / 100000000.0 else 0.0,
      if t == Plan && hasData then value / 100.0 else 0.0,
      if t == ThisYear && hasData then Some(value / 100000000.0) else None)
  }

  /** The loop over months 1 to 12 that pushes one entry each. */
  method BuildPerformance(monthly: map<int, real>, t: FileType) returns (performance: seq<MonthlyPerformance>)
    ensures |performance| == 12
    ensures forall i :: 0 <= i < 12 ==> performance[i] == MonthEntry(monthly, t, i + 1)
  {
    performance := [];
    var month := 1;
    while month <= 12
      invariant 1 <= month <= 13
      invariant |performance| == month - 1
      invariant forall i :: 0 <= i < month - 1 ==> performance[i] == MonthEntry(monthly, t, i + 1)
    {
      performance := performance + [MonthEntry(monthly, t, month)];
      month := month + 1;
    }
  }

  /** A revenue in units of 100 million, rounded to a whole number. */
  function HundredMillions(x: real): (n: int)
    ensures x / 100000000.0 - 0.5 < n as real <= x / 100000000.0 + 0.5
  {
    Round(x / 100000000.0)
  }

  function ConvertedTotals(m: map<string, real>): map<string, real>
  {
    map c | c in m :: HundredMillions(m[c]) as real
  }

  function ConvertedMonths(m: map<int, real>): map<int, real>
  {
    map k | k in m :: HundredMillions(m[k]) as real
  }

  function ConvertedByMonth(m: map<string, map<int, real>>): map<string, map<int, real>>
  {
    map c | c in m :: ConvertedMonths(m[c])
  }

  /** The loop that converts each customer's total. */
  method ConvertCustomerRevenue(revenue: map<string, real>) returns (converted: map<string, real>)
    ensures converted == ConvertedTotals(revenue)
  {
    converted := map[];
    var todo := revenue.Keys;
    while todo != {}
      invariant todo <= revenue.Keys
      invariant converted.Keys == revenue.Keys - todo
      invariant forall c :: c in converted ==> converted[c] == HundredMillions(revenue[c]) as real
      decreases |todo|
    {
      var c := Pick(todo);
      converted := converted[c := HundredMillions(revenue[c]) as real];
      todo := todo - {c};
    }
  }

  method ConvertMonthMap(monthMap: map<int, real>) returns (converted: map<int, real>)
    ensures converted == ConvertedMonths(monthMap)
  {
    converted := map[];
    var todo := monthMap.Keys;
    while todo != {}
      invariant todo <= monthMap.Keys
      invariant converted.Keys == monthMap.Keys - todo
      invariant forall k :: k in converted ==> converted[k] == HundredMillions(monthMap[k]) as real
      decreases |todo|
    {
      var month := Pick(todo);
      converted := converted[month := HundredMillions(monthMap[month]) as real];
      todo := todo - {month};
    }
    ghost var spec := ConvertedMonths(monthMap);
    assert converted.Keys == spec.Keys;
    assert forall k :: k in spec ==> converted[k] == spec[k];
  }

  /** The nested loop that converts each customer's monthly totals. */
  method ConvertCustomerRevenueByMonth(byMonth: map<string, map<int, real>>) returns (converted: map<string, map<int, real>>)
    ensures converted == ConvertedByMonth(byMonth)
  {
    converted := map[];
    var todo := byMonth.Keys;
    while todo != {}
      invariant todo <= byMonth.Keys
      invariant converted.Keys == byMonth.Keys - todo
      invariant forall c :: c in converted ==> converted[c] == ConvertedMonths(byMonth[c])
      decreases |todo|
    {
      var c := Pick(todo);
      var monthMap := ConvertMonthMap(byMonth[c]);
      converted := converted[c := monthMap];
      todo := todo - {c};
    }
  }

  // ---------------------------------------------------------------- the whole file

  /** What a sales file yields, stated on values. */
  function SalesFileSpec(filename: string, rows: seq<SalesRow>, monthOf: MonthReader): (d: SalesFileData)
    ensures d.fileType == DetectFileType(filename, rows)
    ensures |d.performance| == 12 && forall i :: 0 <= i < 12 ==> d.performance[i].month == i + 1
    ensures d.fileType == Plan ==> d.customerRevenue == map[] && d.customerRevenueByMonth == map[]
  {
    var t := DetectFileType(filename, rows);
    var monthly := MonthlyTotals(rows, monthOf);
    var keep := t == LastYear || t == ThisYear;
    SalesFileData(
      seq(12, i requires 0 <= i < 12 => MonthEntry(monthly, t, i + 1)),
      if keep then ConvertedTotals(CustomerTotals(rows)) else map[],
      if keep then ConvertedByMonth(CustomerMonthlyTotals(rows, monthOf)) else map[],
      t)
  }

  /** What parsePerformanceFromSalesFile resolves or rejects with. */
  function SalesFileResult(filename: string, sheet: Result<seq<Row>>): (r: Result<map<Category, SalesFileData>>)
    ensures ExtractCategoryFromFilename(filename).None? ==> r == Err(UnknownCategoryMessage(filename))
    ensures ExtractCategoryFromFilename(filename).Some? && sheet.Err? ==> r == Err(sheet.msg)
    ensures r.Ok? ==> sheet.Ok? && r.value.Keys == {ExtractCategoryFromFilename(filename).value}
  {
    match ExtractCategoryFromFilename(filename)
    case None => Err(UnknownCategoryMessage(filename))
    case Some(cat) =>
      match sheet
      case Err(e) => Err(e)
      case Ok(rows) => Ok(map[cat := SalesFileSpec(filename, ParseSalesSheet(rows), RowMonth)])
  }

  /** parsePerformanceFromSalesFile: rejected when the name names no category
      or the file cannot be read; otherwise the file's data under its category. */
  method ParsePerformanceFromSalesFile(filename: string, sheet: Result<seq<Row>>)
    returns (r: Result<map<Category, SalesFileData>>)
    ensures r == SalesFileResult(filename, sheet)
    ensures ExtractCategoryFromFilename(filename).None? ==> r == Err(UnknownCategoryMessage(filename))
    ensures ExtractCategoryFromFilename(filename).Some? && sheet.Err? ==> r == Err(sheet.msg)
    ensures ExtractCategoryFromFilename(filename).Some? && sheet.Ok? ==>
              r == Ok(map[ExtractCategoryFromFilename(filename).value :=
                            SalesFileSpec(filename, ParseSalesSheet(sheet.value), RowMonth)])
  {
    var category := ExtractCategoryFromFilename(filename);
    if category.None? {
      return Err(UnknownCategoryMessage(filename));
    }
    if sheet.Err? {
      return Err(sheet.msg);
    }
    var rows := ParseSalesSheet(sheet.value);
    var data := ReadSalesRows(filename, rows, RowMonth);
    r := Ok(map[category.value := data]);
  }

  /** The body of the reader callback once the rows are parsed. */
  method ReadSalesRows(filename: string, rows: seq<SalesRow>, monthOf: MonthReader) returns (data: SalesFileData)
    ensures data == SalesFileSpec(filename, rows, monthOf)
  {
    var fileType := DetectFileType(filename, rows);
    var monthlyData := AggregateMonthlyRevenue(rows, monthOf);
    var customerRevenue: map<string, real> := map[];
    var customerRevenueByMonth: map<string, map<int, real>> := map[];
    if fileType == LastYear || fileType == ThisYear {
      customerRevenue := AggregateCustomerRevenue(rows);
      customerRevenueByMonth := AggregateCustomerRevenueByMonth(rows, monthOf);
    }
    var performance := BuildPerformance(monthlyData, fileType);
    var customerRevenueInOk := ConvertCustomerRevenue(customerRevenue);
    var customerRevenueByMonthInOk := ConvertCustomerRevenueByMonth(customerRevenueByMonth);
    assert ConvertedTotals(map[]) == map[];
    assert ConvertedByMonth(map[]) == map[];
    assert performance == seq(12, i requires 0 <= i < 12 => MonthEntry(monthlyData, fileType, i + 1));
    data := SalesFileData(performance, customerRevenueInOk, customerRevenueByMonthInOk, fileType);
  }

  // ---------------------------------------------------------------- lemmas

  /** The monthly totals have a key exactly for the months some row counts towards,
      and each holds the sum of those rows' revenue. */
  lemma {:induction false} MonthlyTotalsMeaning(rows: seq<SalesRow>, monthOf: MonthReader, k: int)
    ensures k in MonthlyTotals(rows, monthOf) <==> exists i :: 0 <= i < |rows| && monthOf(rows[i]) == Some(k)
    ensures (if k in MonthlyTotals(rows, monthOf) then MonthlyTotals(rows, monthOf)[k] else 0.0) == MonthSum(rows, monthOf, k)
  {
    if rows != [] {
      var front := rows[..|rows| - 1];
      MonthlyTotalsMeaning(front, monthOf, k);
      assert forall i :: 0 <= i < |front| ==> front[i] == rows[i];
    }
  }

  /** Every row counts towards its customer's total, whether or not its period
      names a month. */
  lemma {:induction false} CustomerTotalsMeaning(rows: seq<SalesRow>, c: string)
    ensures c in CustomerTotals(rows) <==> exists i :: 0 <= i < |rows| && rows[i].customer == c
    ensures (if c in CustomerTotals(rows) then CustomerTotals(rows)[c] else 0.0) == CustomerSum(rows, c)
  {
    if rows != [] {
      var front := rows[..|rows| - 1];
      CustomerTotalsMeaning(front, c);
      assert forall i :: 0 <= i < |front| ==> front[i] == rows[i];
    }
  }

  /** A customer's monthly map is the monthly totals of that customer's rows; the
      customer has a map exactly when one of its rows names a month. */
  lemma CustomerMonthlyMeaning(rows: seq<SalesRow>, monthOf: MonthReader, c: string)
    ensures c in CustomerMonthlyTotals(rows, monthOf) <==>
              exists i :: 0 <= i < |rows| && rows[i].customer == c && monthOf(rows[i]).Some?
    ensures (if c in CustomerMonthlyTotals(rows, monthOf) then CustomerMonthlyTotals(rows, monthOf)[c] else map[])
              == MonthlyTotals(OfCustomer(rows, c), monthOf)
  {
    CustomerMonthlyKeys(rows, monthOf, c);
    CustomerMonthlyValues(rows, monthOf, c);
  }

  lemma {:induction false} CustomerMonthlyKeys(rows: seq<SalesRow>, monthOf: MonthReader, c: string)
    ensures c in CustomerMonthlyTotals(rows, monthOf) <==>
              exists i :: 0 <= i < |rows| && rows[i].customer == c && monthOf(rows[i]).Some?
  {
    if rows != [] {
      var front := rows[..|rows| - 1];
      CustomerMonthlyKeys(front, monthOf, c);
      assert forall i :: 0 <= i < |front| ==> front[i] == rows[i];
    }
  }

  lemma {:induction false} CustomerMonthlyValues(rows: seq<SalesRow>, monthOf: MonthReader, c: string)
    ensures (if c in CustomerMonthlyTotals(rows, monthOf) then CustomerMonthlyTotals(rows, monthOf)[c] else map[])
              == MonthlyTotals(OfCustomer(rows, c), monthOf)
  {
    if rows != [] {
      var front := rows[..|rows| - 1];
      var r := rows[|rows| - 1];
      CustomerMonthlyValues(front, monthOf, c);
      var ofc := OfCustomer(front, c);
      if r.customer == c {
        assert OfCustomer(rows, c) == ofc + [r];
        MonthlyTotalsSnoc(ofc, r, monthOf);
      } else {
        assert OfCustomer(rows, c) == ofc;
      }
    }
  }

  lemma MonthlyTotalsSnoc(rows: seq<SalesRow>, r: SalesRow, monthOf: MonthReader)
    ensures MonthlyTotals(rows + [r], monthOf)
              == match monthOf(r) case None => MonthlyTotals(rows, monthOf) case Some(k) => AddTo(MonthlyTotals(rows, monthOf), k, r.revenue)
  {
    assert (rows + [r])[..|rows + [r]| - 1] == rows;
  }

  /** The defaults of a sales row: it is dropped exactly when no period cell is
      truthy, a row without a truthy customer cell is the total line, and a row
      without a truthy revenue cell has revenue 0. */
  lemma SalesRowDefaults(row: Row)
    requires WellFormedRow(row)
    ensures ParseSalesRow(row).None? <==> forall k :: 0 <= k < |PeriodKeys| ==> !Truthy(Get(row, PeriodKeys[k]))
    ensures ParseSalesRow(row).Some? ==>
              ((forall k :: 0 <= k < |CustomerKeys| ==> !Truthy(Get(row, CustomerKeys[k])))
               ==> ParseSalesRow(row).value.customer == TotalCustomer)
    ensures ParseSalesRow(row).Some? ==>
              ((forall k :: 0 <= k < |SalesRevenueKeys| ==> !Truthy(Get(row, SalesRevenueKeys[k])))
               ==> ParseSalesRow(row).value.revenue == 0.0)
  {
    OrTextEmpty(row, PeriodKeys);
    if forall k :: 0 <= k < |CustomerKeys| ==> !Truthy(Get(row, CustomerKeys[k])) {
      var vs := Cells(row, CustomerKeys) + [Str(TotalCustomer)];
      assert forall k :: 0 <= k < |vs| - 1 ==> !Truthy(vs[k]);
      OrChainAllFalsy(vs);
    }
  }

  /** Two month readers that agree on every row give the same monthly and
      per-customer monthly totals. */
  lemma {:induction false} SameReadingSameTotals(rows: seq<SalesRow>, f: MonthReader, g: MonthReader)
    requires forall i :: 0 <= i < |rows| ==> f(rows[i]) == g(rows[i])
    ensures MonthlyTotals(rows, f) == MonthlyTotals(rows, g)
    ensures CustomerMonthlyTotals(rows, f) == CustomerMonthlyTotals(rows, g)
  {
    if rows != [] {
      var front := rows[..|rows| - 1];
      assert forall i :: 0 <= i < |front| ==> front[i] == rows[i];
      SameReadingSameTotals(front, f, g);
    }
  }

  /** The as-written and the corrected period readings differ only where the
      decimal branch yields a month: a file none of whose periods does gives the
      same data under both. */
  lemma ReadingsAgreeWithoutDecimalMonths(filename: string, rows: seq<SalesRow>)
    requires forall i :: 0 <= i < |rows| ==> DecimalBranch(rows[i].period).None?
    ensures SalesFileSpec(filename, rows, RowMonth) == SalesFileSpec(filename, rows, CorrectedRowMonth)
  {
    forall i | 0 <= i < |rows|
      ensures RowMonth(rows[i]) == CorrectedRowMonth(rows[i])
    {
    }
    SameReadingSameTotals(rows, RowMonth, CorrectedRowMonth);
  }

  /** A sales row dated "2026.01" is added to October's total as written, and to
      January's under the corrected reading. */
  lemma JanuaryRowCountsAsOctober(customer: string, revenue: real)
    ensures MonthlyTotals([SalesRow("2026.01", customer, revenue)], RowMonth) == map[10 := revenue]
    ensures MonthlyTotals([SalesRow("2026.01", customer, revenue)], CorrectedRowMonth) == map[1 := revenue]
  {
    SingleRowTotals(SalesRow("2026.01", customer, revenue));
  }

  lemma SingleRowTotals(r: SalesRow)
    requires r.period == "2026.01"
    ensures MonthlyTotals([r], RowMonth) == map[10 := r.revenue]
    ensures MonthlyTotals([r], CorrectedRowMonth) == map[1 := r.revenue]
  {
    JanuaryAt(r.period);
    assert RowMonth(r) == Some(10);
    assert CorrectedRowMonth(r) == Some(1);
    assert [r][..0] == [];
  }

  /** A row whose period resolves to month 0 counts towards no month. */
  lemma NoMonthZero(rows: seq<SalesRow>)
    ensures 0 !in MonthlyTotals(rows, RowMonth)
  {
    MonthlyTotalsMeaning(rows, RowMonth, 0);
  }

  /** Digits survive lowercasing, so a name with "25" in it is a last-year file
      whatever else it says. */
  lemma NameWith25IsLastYear(filename: string, rows: seq<SalesRow>)
    requires Contains(filename, "25")
    ensures DetectFileType(filename, rows) == LastYear
  {
    var i :| 0 <= i <= |filename| - 2 && OccursAt(filename, "25", i);
    var lower := ToLower(filename);
    assert filename[i] == '2' && filename[i + 1] == '5';
    assert lower[i..i + 2] == "25";
    assert OccursAt(lower, "25", i);
  }

  /** The twelve entries of a sales file: months 1..12 in order, only the field of
      the file's type filled (a last-year file's monthly sums in units of 100
      million, a plan file's divided by 100, a this-year file's in units of 100
      million), this year's actual present exactly for the months some row names;
      a plan file yields no customer totals, the others one rounded total per
      customer in the file, and per customer with a dated row that customer's
      monthly sums, each rounded in units of 100 million. */
  lemma SalesFileShape(filename: string, rows: seq<SalesRow>, monthOf: MonthReader)
    ensures var d := SalesFileSpec(filename, rows, monthOf);
            |d.performance| == 12
            && (forall i :: 0 <= i < 12 ==> d.performance[i].month == i + 1)
            && (forall i :: 0 <= i < 12 && d.fileType != LastYear ==> d.performance[i].lastYearActual == 0.0)
            && (forall i :: 0 <= i < 12 && d.fileType != Plan ==> d.performance[i].thisYearTarget == 0.0)
            && (forall i :: 0 <= i < 12 && d.fileType == LastYear ==>
                  d.performance[i].lastYearActual == MonthSum(rows, monthOf, i + 1) / 100000000.0)
            && (forall i :: 0 <= i < 12 && d.fileType == Plan ==>
                  d.performance[i].thisYearTarget == MonthSum(rows, monthOf, i + 1) / 100.0)
            && (forall i :: 0 <= i < 12 ==>
                  (d.performance[i].thisYearActual.Some? <==>
                     d.fileType == ThisYear && exists j :: 0 <= j < |rows| && monthOf(rows[j]) == Some(i + 1)))
            && (forall i :: 0 <= i < 12 && d.performance[i].thisYearActual.Some? ==>
                  d.performance[i].thisYearActual.value == MonthSum(rows, monthOf, i + 1) / 100000000.0)
            && (d.fileType == Plan ==> d.customerRevenue == map[] && d.customerRevenueByMonth == map[])
            && (d.fileType != Plan ==>
                  forall c :: (c in d.customerRevenue <==> exists j :: 0 <= j < |rows| && rows[j].customer == c))
            && (forall c :: c in d.customerRevenue ==>
                  CustomerSum(rows, c) / 100000000.0 - 0.5 < d.customerRevenue[c] <= CustomerSum(rows, c) / 100000000.0 + 0.5)
            && (d.fileType != Plan ==>
                  forall c :: (c in d.customerRevenueByMonth <==>
                                 exists j :: 0 <= j < |rows| && rows[j].customer == c && monthOf(rows[j]).Some?))
            && (forall c :: c in d.customerRevenueByMonth ==>
                  d.customerRevenueByMonth[c] == ConvertedMonths(MonthlyTotals(OfCustomer(rows, c), monthOf)))
  {
    var d := SalesFileSpec(filename, rows, monthOf);
    forall i | 0 <= i < 12
      ensures d.performance[i].month == i + 1
      ensures d.fileType != LastYear ==> d.performance[i].lastYearActual == 0.0
      ensures d.fileType != Plan ==> d.performance[i].thisYearTarget == 0.0
      ensures d.fileType == LastYear ==> d.performance[i].lastYearActual == MonthSum(rows, monthOf, i + 1) / 100000000.0
      ensures d.fileType == Plan ==> d.performance[i].thisYearTarget == MonthSum(rows, monthOf, i + 1) / 100.0
      ensures d.performance[i].thisYearActual.Some? <==>
                d.fileType == ThisYear && exists j :: 0 <= j < |rows| && monthOf(rows[j]) == Some(i + 1)
      ensures d.performance[i].thisYearActual.Some? ==>
                d.performance[i].thisYearActual.value == MonthSum(rows, monthOf, i + 1) / 100000000.0
    {
      assert d.performance[i] == MonthEntry(MonthlyTotals(rows, monthOf), d.fileType, i + 1);
      MonthlyTotalsMeaning(rows, monthOf, i + 1);
    }
    forall c
      ensures d.fileType != Plan ==> (c in d.customerRevenue <==> exists j :: 0 <= j < |rows| && rows[j].customer == c)
      ensures c in d.customerRevenue ==>
                CustomerSum(rows, c) / 100000000.0 - 0.5 < d.customerRevenue[c] <= CustomerSum(rows, c) / 100000000.0 + 0.5
    {
      CustomerTotalsMeaning(rows, c);
    }
    forall c
      ensures d.fileType != Plan ==> (c in d.customerRevenueByMonth <==>
                exists j :: 0 <= j < |rows| && rows[j].customer == c && monthOf(rows[j]).Some?)
      ensures c in d.customerRevenueByMonth ==>
                d.customerRevenueByMonth[c] == ConvertedMonths(MonthlyTotals(OfCustomer(rows, c), monthOf))
    {
      CustomerMonthlyMeaning(rows, monthOf, c);
    }
  }
}

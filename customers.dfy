/** Customer and market-share rows (utils/excelParser.ts): the CSV row parser
    parseCustomerRow, the older inline row parser of parseCustomerExcel, the
    per-period mean calculateAggregateShare and the per-file drivers. */
module Customers {
  import opened Types
  import opened Js
  import opened RowReader
  import opened CategoryResolver
  import opened Filtering

  // ---------------------------------------------------------------- header aliases

  const NameKeys: seq<string> := ["고객사", "고객사명", "name", "Name", "고객"]
  const RevenueKeys: seq<string> := ["매출", "매출액", "revenueYTD", "Revenue"]
  const GrowthKeys: seq<string> := ["성장률", "growth", "Growth"]

  const CosmaxKeys: seq<seq<string>> := [
    ["코스맥스25", "cosmax25", "Cosmax 25"],
    ["코스맥스26Q1", "코스맥스26q1", "cosmax26Q1", "Cosmax 26 Q1"],
    ["코스맥스26Q2", "코스맥스26q2", "cosmax26Q2", "Cosmax 26 Q2"],
    ["코스맥스26Q3", "코스맥스26q3", "cosmax26Q3", "Cosmax 26 Q3"],
    ["코스맥스26Q4", "코스맥스26q4", "cosmax26Q4", "Cosmax 26 Q4"]]

  const KolmarKeys: seq<seq<string>> := [
    ["콜마25", "kolmar25", "Kolmar 25"],
    ["콜마26Q1", "콜마26q1", "kolmar26Q1", "Kolmar 26 Q1"],
    ["콜마26Q2", "콜마26q2", "kolmar26Q2", "Kolmar 26 Q2"],
    ["콜마26Q3", "콜마26q3", "kolmar26Q3", "Kolmar 26 Q3"],
    ["콜마26Q4", "콜마26q4", "kolmar26Q4", "Kolmar 26 Q4"]]

  // ---------------------------------------------------------------- status

  /** The three-way status: Thriving on strong growth with a share gain,
      Challenged on a fall in revenue or a share loss of more than 5 points,
      Stable otherwise. Comparisons with NaN are false. */
  function DeriveStatus(growth: JsNumber, shareChange: JsNumber): (s: CustomerStatus)
    ensures s == Thriving <==> growth.Fin? && growth.v > 15.0 && shareChange.Fin? && shareChange.v > 0.0
    ensures s == Challenged <==> s != Thriving
                                 && ((growth.Fin? && growth.v < -5.0) || (shareChange.Fin? && shareChange.v < -5.0))
    ensures s == Stable <==> s != Thriving && s != Challenged
  {
    if growth.Fin? && growth.v > 15.0 && shareChange.Fin? && shareChange.v > 0.0 then Thriving
    else if (growth.Fin? && growth.v < -5.0) || (shareChange.Fin? && shareChange.v < -5.0) then Challenged
    else Stable
  }

  /** The customer id: `c-` and the row's position. */
  function CustomerId(idx: nat): string
  {
    "c-" + NatToString(idx)
  }

  // ---------------------------------------------------------------- CSV path

  /** The share of one period on the CSV path: a quarter where neither maker
      has a share gets 0 for "others" rather than 100. */
  function CsvShare(p: nat, cosmax: real, kolmar: real): MarketShare
    requires p < |SharePeriods|
  {
    MarketShare(SharePeriods[p], cosmax, kolmar,
      if p == 0 || cosmax != 0.0 || kolmar != 0.0 then 100.0 - cosmax - kolmar else 0.0)
  }

  /** parseCustomerRow: None for a row without a name, else the customer. */
  function ParseCustomerRow(row: Row, idx: nat): (r: Option<CustomerData>)
    ensures r.Some? ==> r.value.name != "" && |r.value.shares| == 5
                        && (forall p :: 0 <= p < 5 ==> r.value.shares[p].period == SharePeriods[p])
                        && r.value.revenueLastYear == 0.0 && r.value.products == []
                        && r.value.id == CustomerId(idx)
  {
    var name := OrText(row, NameKeys, "");
    if name == "" then None
    else
      var revenue := ParseNumericValue(row, RevenueKeys, 0.0);
      var growth := ParseNumericValue(row, GrowthKeys, 0.0);
      var cosmax := seq(5, p requires 0 <= p < 5 => ParseShareValue(row, CosmaxKeys[p]));
      var kolmar := seq(5, p requires 0 <= p < 5 => ParseShareValue(row, KolmarKeys[p]));
      var shares := seq(5, p requires 0 <= p < 5 => CsvShare(p, cosmax[p], kolmar[p]));
      Some(CustomerData(
        CustomerId(idx), name, 0.0, Round(revenue) as real, Round1(growth), shares,
        DeriveStatus(Fin(growth), Fin(cosmax[4] - cosmax[0])), []))
  }

  // ---------------------------------------------------------------- Excel path

  /** The cosmax (`c`) or kolmar (`k`) share of each period on the Excel path,
      before the `|| default` of the share records: the baseline defaults to
      `base`, each quarter to the period before it. */
  function ExcelShareChain(row: Row, keys: seq<seq<string>>, base: real): (xs: seq<JsNumber>)
    requires |keys| == 5
    ensures |xs| == 5
    ensures xs[0] == OrNumber(row, keys[0], Fin(base))
    ensures forall p :: 1 <= p < 5 ==> xs[p] == OrNumber(row, keys[p], xs[p - 1])
  {
    var x0 := OrNumber(row, keys[0], Fin(base));
    var x1 := OrNumber(row, keys[1], x0);
    var x2 := OrNumber(row, keys[2], x1);
    var x3 := OrNumber(row, keys[3], x2);
    var x4 := OrNumber(row, keys[4], x3);
    [x0, x1, x2, x3, x4]
  }

  function ExcelShare(p: nat, cosmax: JsNumber, kolmar: JsNumber): (r: MarketShare)
    requires p < |SharePeriods|
    ensures r.period == SharePeriods[p] && r.cosmax != 0.0 && r.kolmar != 0.0
  {
    var c := OrDefault(cosmax, 30.0);
    var k := OrDefault(kolmar, 25.0);
    MarketShare(SharePeriods[p], c, k, 100.0 - c - k)
  }

  /** The row parser inside parseCustomerExcel. */
  function ParseCustomerRowExcel(row: Row, idx: nat): (r: Option<CustomerData>)
    ensures r.Some? ==> r.value.name != "" && |r.value.shares| == 5
                        && (forall p :: 0 <= p < 5 ==> r.value.shares[p].period == SharePeriods[p])
                        && (forall p :: 0 <= p < 5 ==> r.value.shares[p].cosmax != 0.0 && r.value.shares[p].kolmar != 0.0)
                        && r.value.revenueLastYear == 0.0 && r.value.products == []
                        && r.value.id == CustomerId(idx)
  {
    var name := OrText(row, NameKeys, "");
    if name == "" then None
    else
      var revenue := OrNumber(row, RevenueKeys, Fin(0.0));
      var growth := OrNumber(row, GrowthKeys, Fin(0.0));
      var cosmax := ExcelShareChain(row, CosmaxKeys, 30.0);
      var kolmar := ExcelShareChain(row, KolmarKeys, 25.0);
      var shares := seq(5, p requires 0 <= p < 5 => ExcelShare(p, cosmax[p], kolmar[p]));
      var shareChange := JsSub(JsOr(cosmax[4], cosmax[0]), cosmax[0]);
      Some(CustomerData(
        CustomerId(idx), name, 0.0,
        if revenue.Fin? then Round(revenue.v) as real else 0.0,
        if growth.Fin? then Round1(growth.v) else 0.0,
        shares, DeriveStatus(growth, shareChange), []))
  }

  // ---------------------------------------------------------------- aggregate share

  /** `c.shares[p]?.cosmax || 0`. */
  function CosmaxAt(c: CustomerData, p: nat): real
  {
    if p < |c.shares| then c.shares[p].cosmax else 0.0
  }

  function KolmarAt(c: CustomerData, p: nat): real
  {
    if p < |c.shares| then c.shares[p].kolmar else 0.0
  }

  /** The cosmax shares of period p, customer by customer. */
  function CosmaxColumn(cs: seq<CustomerData>, p: nat): seq<real>
  {
    seq(|cs|, i requires 0 <= i < |cs| => CosmaxAt(cs[i], p))
  }

  /** The kolmar shares of period p, customer by customer. */
  function KolmarColumn(cs: seq<CustomerData>, p: nat): seq<real>
  {
    seq(|cs|, i requires 0 <= i < |cs| => KolmarAt(cs[i], p))
  }

  /** `reduce((sum, x) => sum + x, 0)`. */
  function Sum(xs: seq<real>): real
  {
    if xs == [] then 0.0 else Sum(xs[..|xs| - 1]) + xs[|xs| - 1]
  }

  /** The aggregate share of period p: the unweighted means, each to one decimal. */
  function PeriodMean(cs: seq<CustomerData>, p: nat): (m: MarketShare)
    requires |cs| > 0 && p < |cs[0].shares|
    ensures m.period == cs[0].shares[p].period
    ensures -0.05 <= m.cosmax - Sum(CosmaxColumn(cs, p)) / |cs| as real <= 0.05
    ensures -0.05 <= m.kolmar - Sum(KolmarColumn(cs, p)) / |cs| as real <= 0.05
    ensures -0.05 <= m.others - (100.0 - Sum(CosmaxColumn(cs, p)) / |cs| as real - Sum(KolmarColumn(cs, p)) / |cs| as real) <= 0.05
  {
    var avgC := Sum(CosmaxColumn(cs, p)) / |cs| as real;
    var avgK := Sum(KolmarColumn(cs, p)) / |cs| as real;
    MarketShare(cs[0].shares[p].period, Round1(avgC), Round1(avgK), Round1(100.0 - avgC - avgK))
  }

  /** calculateAggregateShare: one mean per period of the first customer. */
  function CalculateAggregateShare(cs: seq<CustomerData>): (r: seq<MarketShare>)
    ensures cs == [] ==> r == []
    ensures cs != [] ==> |r| == |cs[0].shares|
                         && forall p :: 0 <= p < |r| ==> r[p].period == cs[0].shares[p].period
  {
    if cs == [] then []
    else seq(|cs[0].shares|, p requires 0 <= p < |cs[0].shares| => PeriodMean(cs, p))
  }

  // ---------------------------------------------------------------- per-file drivers

  /** A row with a name: the rows both row parsers keep. */
  predicate Named(row: Row)
  {
    OrText(row, NameKeys, "") != ""
  }

  /** The row parser of a path: the Excel one inside parseCustomerExcel, or parseCustomerRow. */
  function CustomerRowParser(excel: bool): (Row, nat) -> Option<CustomerData>
  {
    if excel then ParseCustomerRowExcel else ParseCustomerRow
  }

  /** The customers of a sheet: the rows mapped with their positions (the
      position becomes the id) and the nameless ones filtered out, in sheet order. */
  function ParsedCustomers(rows: seq<Row>, excel: bool): (cs: seq<CustomerData>)
    ensures KeptValues(rows, CustomerRowParser(excel), cs)
    ensures forall i :: 0 <= i < |cs| ==> cs[i].name != "" && |cs[i].shares| == 5
  {
    if rows == [] then []
    else
      var front := ParsedCustomers(rows[..|rows| - 1], excel);
      KeptValuesSnoc(rows, CustomerRowParser(excel), front);
      var c := CustomerRowParser(excel)(rows[|rows| - 1], |rows| - 1);
      if c.Some? then front + [c.value] else front
  }

  /** Some customer is parsed exactly when some row has a name, on either path. */
  lemma SomeCustomerParsed(rows: seq<Row>, excel: bool)
    ensures |ParsedCustomers(rows, excel)| > 0 <==> exists i :: 0 <= i < |rows| && Named(rows[i])
  {
    KeptNonEmpty(rows, CustomerRowParser(excel));
    var parse := CustomerRowParser(excel);
    assert forall i :: 0 <= i < |rows| ==> (parse(rows[i], i).Some? <==> Named(rows[i]));
  }

  /** The share data of one sheet: its customers and their aggregate share, or
      nothing exactly when no row has a name. */
  function SheetUpload(rows: seq<Row>, excel: bool): (r: Option<ShareUpload>)
    ensures r.Some? <==> exists i :: 0 <= i < |rows| && Named(rows[i])
    ensures r.Some? ==> r.value.customers == ParsedCustomers(rows, excel)
                        && r.value.aggregateShare == CalculateAggregateShare(ParsedCustomers(rows, excel))
  {
    SomeCustomerParsed(rows, excel);
    var cs := ParsedCustomers(rows, excel);
    if |cs| > 0 then Some(ShareUpload(cs, CalculateAggregateShare(cs))) else None
  }

  /** parseCustomerCSV: the category comes from the file name, the customers
      from the first sheet; `sheet` is what reading and decoding the file gave.
      Without a category the file is rejected before it is read; a read failure
      rejects it; otherwise the category is present exactly when some row has a
      name, holding that sheet's customers. */
  function ParseCustomerCSV(filename: string, sheet: Result<seq<Row>>): (r: Result<map<Category, ShareUpload>>)
    ensures ExtractCategoryFromFilename(filename).None? ==> r == Err(UnknownCategoryMessage(filename))
    ensures ExtractCategoryFromFilename(filename).Some? && sheet.Err? ==> r == Err(sheet.msg)
    ensures ExtractCategoryFromFilename(filename).Some? && sheet.Ok? ==>
              var cat := ExtractCategoryFromFilename(filename).value;
              r.Ok? && r.value.Keys <= {cat}
              && (cat in r.value <==> exists i :: 0 <= i < |sheet.value| && Named(sheet.value[i]))
              && (cat in r.value ==> r.value[cat] == SheetUpload(sheet.value, false).value)
  {
    match ExtractCategoryFromFilename(filename)
    case None => Err(UnknownCategoryMessage(filename))
    case Some(cat) =>
      match sheet
      case Err(e) => Err(e)
      case Ok(rows) =>
        match SheetUpload(rows, false)
        case None => Ok(map[])
        case Some(u) => Ok(map[cat := u])
  }

  /** One sheet of a customer workbook, its name and rows: kept, under the
      category its name normalises to, exactly when that name is a category and
      some row has a name. */
  function CustomerSheet(sheet: (string, seq<Row>)): (r: Option<(Category, ShareUpload)>)
    ensures r.Some? <==> NormalizeCategory(sheet.0).Some? && exists i :: 0 <= i < |sheet.1| && Named(sheet.1[i])
    ensures r.Some? ==> r.value == (NormalizeCategory(sheet.0).value, SheetUpload(sheet.1, true).value)
  {
    match NormalizeCategory(sheet.0)
    case None => None
    case Some(cat) =>
      match SheetUpload(sheet.1, true)
      case None => None
      case Some(u) => Some((cat, u))
  }

  /** parseCustomerExcel over the sheets, in workbook order: a category is present
      exactly when some sheet is kept under it, and holds what the last such sheet gave. */
  function ParseCustomerSheets(sheets: seq<(string, seq<Row>)>): (r: map<Category, ShareUpload>)
    ensures LastWins(sheets, CustomerSheet, r)
    ensures forall c :: c in r ==> |r[c].customers| > 0
  {
    if sheets == [] then map[]
    else
      var front := ParseCustomerSheets(sheets[..|sheets| - 1]);
      var last := sheets[|sheets| - 1];
      LastWinsSnoc(sheets, CustomerSheet, front);
      match CustomerSheet(last)
      case None => front
      case Some(e) => front[e.0 := e.1]
  }

  /** A later sheet of a category replaces what an earlier sheet gave it; a
      sheet that is skipped changes nothing. */
  lemma LastCustomerSheetWins(sheets: seq<(string, seq<Row>)>, sheet: (string, seq<Row>))
    ensures CustomerSheet(sheet).Some? ==>
              ParseCustomerSheets(sheets + [sheet]) == ParseCustomerSheets(sheets)[CustomerSheet(sheet).value.0 := CustomerSheet(sheet).value.1]
    ensures CustomerSheet(sheet).None? ==> ParseCustomerSheets(sheets + [sheet]) == ParseCustomerSheets(sheets)
  {
    SheetsSnoc(sheets, sheet);
  }

  lemma SheetsSnoc(sheets: seq<(string, seq<Row>)>, sheet: (string, seq<Row>))
    ensures ParseCustomerSheets(sheets + [sheet])
            == match CustomerSheet(sheet) case None => ParseCustomerSheets(sheets) case Some(e) => ParseCustomerSheets(sheets)[e.0 := e.1]
  {
    var all := sheets + [sheet];
    assert all[..|all| - 1] == sheets;
  }

  /** parseCustomerExcel: the read failure, or the sheets' customers. */
  function ParseCustomerExcel(workbook: Result<seq<(string, seq<Row>)>>): (r: Result<map<Category, ShareUpload>>)
    ensures workbook.Err? ==> r == Err(workbook.msg)
    ensures workbook.Ok? ==> r.Ok? && LastWins(workbook.value, CustomerSheet, r.value)
  {
    match workbook
    case Err(e) => Err(e)
    case Ok(sheets) => Ok(ParseCustomerSheets(sheets))
  }

  // ---------------------------------------------------------------- lemmas

  /** A row is skipped exactly when none of its name cells is truthy. */
  lemma NamelessRowSkipped(row: Row, idx: nat)
    requires WellFormedRow(row)
    ensures ParseCustomerRow(row, idx).None? <==> forall k :: 0 <= k < |NameKeys| ==> !Truthy(Get(row, NameKeys[k]))
    ensures ParseCustomerRowExcel(row, idx).None? <==> forall k :: 0 <= k < |NameKeys| ==> !Truthy(Get(row, NameKeys[k]))
  {
    OrTextEmpty(row, NameKeys);
  }

  /** On the CSV path the baseline "others" is what the two makers leave, and a
      quarter where both makers read 0 has 0 for "others". */
  lemma CsvOthers(row: Row, idx: nat)
    requires ParseCustomerRow(row, idx).Some?
    ensures var c := ParseCustomerRow(row, idx).value;
            c.shares[0].others == 100.0 - c.shares[0].cosmax - c.shares[0].kolmar
            && forall p :: 1 <= p < 5 ==>
                 c.shares[p].others == (if c.shares[p].cosmax == 0.0 && c.shares[p].kolmar == 0.0 then 0.0
                                        else 100.0 - c.shares[p].cosmax - c.shares[p].kolmar)
  {
  }

  /** On the CSV path every share is a value read from the row or 0, and the
      status compares the last quarter's cosmax share with the baseline. */
  lemma CsvStatus(row: Row, idx: nat)
    requires ParseCustomerRow(row, idx).Some?
    ensures var c := ParseCustomerRow(row, idx).value;
            var g := ParseNumericValue(row, GrowthKeys, 0.0);
            var d := c.shares[4].cosmax - c.shares[0].cosmax;
            (c.status == Thriving <==> g > 15.0 && d > 0.0)
            && (c.status == Challenged <==> !(g > 15.0 && d > 0.0) && (g < -5.0 || d < -5.0))
            && (c.status == Stable <==> !(g > 15.0 && d > 0.0) && !(g < -5.0 || d < -5.0))
  {
  }

  /** A share loss of more than 5 points, or a revenue fall of more than 5
      percent, is never Thriving: it makes the customer Challenged. */
  lemma LossIsChallenged(growth: real, shareChange: real)
    requires growth < -5.0 || shareChange < -5.0
    ensures DeriveStatus(Fin(growth), Fin(shareChange)) == Challenged
  {
  }

  /** A NaN growth on the Excel path can neither make a customer Thriving nor Challenged
      through growth: only a share loss of more than 5 points makes it Challenged. */
  lemma NaNGrowth(shareChange: JsNumber)
    ensures DeriveStatus(NaN, shareChange) != Thriving
    ensures DeriveStatus(NaN, shareChange) == Challenged <==> shareChange.Fin? && shareChange.v < -5.0
  {
  }

  /** On the Excel path a quarter without its own cell carries the period before it forward. */
  lemma {:induction false} ExcelCarryForward(row: Row, keys: seq<seq<string>>, base: real)
    requires |keys| == 5
    requires forall p, k :: 1 <= p < 5 && 0 <= k < |keys[p]| ==> keys[p][k] !in row
    ensures forall p :: 0 <= p < 5 ==> ExcelShareChain(row, keys, base)[p] == OrNumber(row, keys[0], Fin(base))
  {
    var xs := ExcelShareChain(row, keys, base);
    forall p | 1 <= p < 5
      ensures xs[p] == xs[p - 1]
    {
      OrNumberAbsent(row, keys[p], xs[p - 1]);
    }
  }

  /** An Excel row without any share cell gets the defaults 30 / 25 / 45 in every period. */
  lemma ExcelDefaults(row: Row, idx: nat)
    requires forall p, k :: 0 <= p < 5 && 0 <= k < |CosmaxKeys[p]| ==> CosmaxKeys[p][k] !in row
    requires forall p, k :: 0 <= p < 5 && 0 <= k < |KolmarKeys[p]| ==> KolmarKeys[p][k] !in row
    requires ParseCustomerRowExcel(row, idx).Some?
    ensures forall p :: 0 <= p < 5 ==>
              ParseCustomerRowExcel(row, idx).value.shares[p] == MarketShare(SharePeriods[p], 30.0, 25.0, 45.0)
  {
    ExcelCarryForward(row, CosmaxKeys, 30.0);
    ExcelCarryForward(row, KolmarKeys, 25.0);
    OrNumberAbsent(row, CosmaxKeys[0], Fin(30.0));
    OrNumberAbsent(row, KolmarKeys[0], Fin(25.0));
    forall p | 0 <= p < 5
      ensures ParseCustomerRowExcel(row, idx).value.shares[p] == MarketShare(SharePeriods[p], 30.0, 25.0, 45.0)
    {
      ExcelShareAt(row, idx, p);
    }
  }

  /** The share of period p of an Excel row, from the carried cosmax and kolmar chains. */
  lemma ExcelShareAt(row: Row, idx: nat, p: nat)
    requires ParseCustomerRowExcel(row, idx).Some? && p < 5
    ensures ParseCustomerRowExcel(row, idx).value.shares[p]
            == ExcelShare(p, ExcelShareChain(row, CosmaxKeys, 30.0)[p], ExcelShareChain(row, KolmarKeys, 25.0)[p])
  {
  }

  /** The fields of a CSV row: the name text, the revenue read by
      parseNumericValue (default 0) and rounded, the growth read the same way to
      one decimal, each share read by parseShareValue over its period's
      headers, and the status from that growth and the 26 Q4 - 25 cosmax change. */
  lemma CsvFields(row: Row, idx: nat)
    requires ParseCustomerRow(row, idx).Some?
    ensures var c := ParseCustomerRow(row, idx).value;
            var revenue := ParseNumericValue(row, RevenueKeys, 0.0);
            var growth := ParseNumericValue(row, GrowthKeys, 0.0);
            c.name == OrText(row, NameKeys, "")
            && c.revenueYTD == Round(revenue) as real
            && revenue - 0.5 < c.revenueYTD <= revenue + 0.5
            && c.growth == Round1(growth)
            && (forall p :: 0 <= p < 5 ==> c.shares[p].cosmax == ParseShareValue(row, CosmaxKeys[p])
                                           && c.shares[p].kolmar == ParseShareValue(row, KolmarKeys[p]))
            && c.status == DeriveStatus(Fin(growth), Fin(c.shares[4].cosmax - c.shares[0].cosmax))
  {
  }

  /** The fields of an Excel row: the revenue read through its `||` chain, NaN
      read as 0 and otherwise rounded; the growth likewise, to one decimal; and
      the status from the raw growth (NaN compares false) and the share change
      `(cosmax26Q4 || cosmax25) - cosmax25` of the carried chain. */
  lemma ExcelFields(row: Row, idx: nat)
    requires ParseCustomerRowExcel(row, idx).Some?
    ensures var c := ParseCustomerRowExcel(row, idx).value;
            var revenue := OrNumber(row, RevenueKeys, Fin(0.0));
            var growth := OrNumber(row, GrowthKeys, Fin(0.0));
            var cosmax := ExcelShareChain(row, CosmaxKeys, 30.0);
            c.name == OrText(row, NameKeys, "")
            && (revenue.NaN? ==> c.revenueYTD == 0.0)
            && (revenue.Fin? ==> c.revenueYTD == Round(revenue.v) as real && revenue.v - 0.5 < c.revenueYTD <= revenue.v + 0.5)
            && (growth.NaN? ==> c.growth == 0.0)
            && (growth.Fin? ==> c.growth == Round1(growth.v))
            && c.status == DeriveStatus(growth, JsSub(JsOr(cosmax[4], cosmax[0]), cosmax[0]))
  {
  }

  /** A sum of values within [lo, hi] lies between the count times lo and the count times hi. */
  lemma {:induction false} SumWithin(xs: seq<real>, lo: real, hi: real)
    requires forall i :: 0 <= i < |xs| ==> lo <= xs[i] <= hi
    ensures |xs| as real * lo <= Sum(xs) <= |xs| as real * hi
  {
    if xs != [] {
      var front := xs[..|xs| - 1];
      assert forall i :: 0 <= i < |front| ==> front[i] == xs[i];
      SumWithin(front, lo, hi);
      StepBounds(|front| as real, |xs| as real, Sum(front), xs[|xs| - 1], lo, hi);
    }
  }

  lemma StepBounds(n: real, m: real, s: real, x: real, lo: real, hi: real)
    requires m == n + 1.0 && n * lo <= s <= n * hi && lo <= x <= hi
    ensures m * lo <= s + x <= m * hi
  {
    assert m * lo == n * lo + lo;
    assert m * hi == n * hi + hi;
  }

  /** The aggregate share of a period lies within the customers' own shares
      of that period, up to the rounding to one decimal. */
  lemma AggregateWithinRange(cs: seq<CustomerData>, p: nat, lo: real, hi: real)
    requires cs != [] && p < |cs[0].shares|
    requires forall i :: 0 <= i < |cs| ==> lo <= CosmaxAt(cs[i], p) <= hi && lo <= KolmarAt(cs[i], p) <= hi
    ensures var a := CalculateAggregateShare(cs)[p];
            lo - 0.05 <= a.cosmax <= hi + 0.05 && lo - 0.05 <= a.kolmar <= hi + 0.05
  {
    CosmaxMeanWithin(cs, p, lo, hi);
    KolmarMeanWithin(cs, p, lo, hi);
    AggregateAt(cs, p);
  }

  lemma CosmaxMeanWithin(cs: seq<CustomerData>, p: nat, lo: real, hi: real)
    requires cs != []
    requires forall i :: 0 <= i < |cs| ==> lo <= CosmaxAt(cs[i], p) <= hi
    ensures lo - 0.05 <= Round1(Sum(CosmaxColumn(cs, p)) / |cs| as real) <= hi + 0.05
  {
    SumWithin(CosmaxColumn(cs, p), lo, hi);
    MeanRoundWithin(Sum(CosmaxColumn(cs, p)), |cs|, lo, hi);
  }

  lemma KolmarMeanWithin(cs: seq<CustomerData>, p: nat, lo: real, hi: real)
    requires cs != []
    requires forall i :: 0 <= i < |cs| ==> lo <= KolmarAt(cs[i], p) <= hi
    ensures lo - 0.05 <= Round1(Sum(KolmarColumn(cs, p)) / |cs| as real) <= hi + 0.05
  {
    SumWithin(KolmarColumn(cs, p), lo, hi);
    MeanRoundWithin(Sum(KolmarColumn(cs, p)), |cs|, lo, hi);
  }

  /** A sum of n values within [lo, hi], divided by n and rounded to one decimal. */
  lemma MeanRoundWithin(s: real, n: nat, lo: real, hi: real)
    requires n > 0 && n as real * lo <= s <= n as real * hi
    ensures lo - 0.05 <= Round1(s / n as real) <= hi + 0.05
  {
    DivBounds(s, n as real, lo, hi);
  }

  lemma AggregateAt(cs: seq<CustomerData>, p: nat)
    requires cs != [] && p < |cs[0].shares|
    ensures CalculateAggregateShare(cs)[p].cosmax == Round1(Sum(CosmaxColumn(cs, p)) / |cs| as real)
    ensures CalculateAggregateShare(cs)[p].kolmar == Round1(Sum(KolmarColumn(cs, p)) / |cs| as real)
  {
    assert CalculateAggregateShare(cs)[p] == PeriodMean(cs, p);
  }

  lemma DivBounds(s: real, n: real, lo: real, hi: real)
    requires n > 0.0 && n * lo <= s <= n * hi
    ensures lo <= s / n <= hi
  {
  }

  /** The three parts of an aggregate share add up to 100, up to the rounding of each. */
  lemma AggregateAddsUp(cs: seq<CustomerData>, p: nat)
    requires cs != [] && p < |cs[0].shares|
    ensures var a := CalculateAggregateShare(cs)[p];
            99.85 <= a.cosmax + a.kolmar + a.others <= 100.15
  {
  }
}

/** The upload handlers of components/ExcelUploader.tsx: the files of one
    selection are parsed in order and folded into per-category results; the
    callback receives them only when every file parsed. */
module Batch {
  import opened Types
  import opened Js
  import opened SalesFile
  import opened Customers
  import opened CategoryResolver

  /** A selected file: its name and what reading and decoding it gave (the
      workbook's sheets, in order, or the failure). */
  datatype SourceFile = SourceFile(name: string, workbook: Result<seq<(string, seq<Row>)>>)

  /** The end of one upload: nothing selected (the handler returns at once), the
      value handed to the callback, or the message of the first failure (the
      callback is not called). */
  datatype Upload<T> = NoFiles | Uploaded(value: T) | Failed(msg: string)

  /** The failure of reading the first sheet of a workbook that has none. */
  const NoSheetMessage: string := "the workbook has no sheet"

  /** `workbook.Sheets[workbook.SheetNames[0]]`, decoded. */
  function FirstSheet(workbook: Result<seq<(string, seq<Row>)>>): (r: Result<seq<Row>>)
    ensures workbook.Ok? && |workbook.value| > 0 ==> r == Ok(workbook.value[0].1)
    ensures workbook.Err? ==> r == Err(workbook.msg)
  {
    match workbook
    case Err(e) => Err(e)
    case Ok(sheets) => if |sheets| > 0 then Ok(sheets[0].1) else Err(NoSheetMessage)
  }

  /** Each selected file read by parse, in file order. */
  function ParsedWith<T>(files: seq<SourceFile>, parse: SourceFile -> Result<T>): (rs: seq<Result<T>>)
    ensures |rs| == |files| && forall i :: 0 <= i < |files| ==> rs[i] == parse(files[i])
  {
    seq(|files|, i requires 0 <= i < |files| => parse(files[i]))
  }

  /** The end of an upload: nothing when no file is selected, otherwise what
      the loop over the files gave. */
  function UploadOutcome<A>(files: seq<SourceFile>, r: Result<A>): Upload<A>
  {
    if files == [] then NoFiles
    else
      match r
      case Err(e) => Failed(e)
      case Ok(acc) => Uploaded(acc)
  }

  // ---------------------------------------------------------------- performance uploads

  /** The four accumulators of handlePerformanceUpload. */
  datatype PerformanceUpload = PerformanceUpload(
    performance: map<Category, seq<MonthlyPerformance>>,
    lastYear: map<Category, map<string, real>>,
    thisYear: map<Category, map<string, real>>,
    lastYearByMonth: map<Category, map<string, map<int, real>>>)

  const NoPerformance := PerformanceUpload(map[], map[], map[], map[])

  /** The performance of each category of one file. */
  function Performances(data: map<Category, SalesFileData>): map<Category, seq<MonthlyPerformance>>
  {
    map c | c in data :: data[c].performance
  }

  /** The customer totals of the categories whose file is of type t. */
  function RevenuesOfType(data: map<Category, SalesFileData>, t: FileType): map<Category, map<string, real>>
  {
    map c | c in data && data[c].fileType == t :: data[c].customerRevenue
  }

  /** The monthly customer totals of the categories whose file is of type t. */
  function RevenuesByMonthOfType(data: map<Category, SalesFileData>, t: FileType): map<Category, map<string, map<int, real>>>
  {
    map c | c in data && data[c].fileType == t :: data[c].customerRevenueByMonth
  }

  /** The accumulators after one file's entries: the performance of every
      category is replaced, the last-year totals and monthly totals by a
      last-year file's, the this-year totals by a this-year file's. */
  function AddSalesFile(acc: PerformanceUpload, data: map<Category, SalesFileData>): PerformanceUpload
  {
    PerformanceUpload(
      acc.performance + Performances(data),
      acc.lastYear + RevenuesOfType(data, LastYear),
      acc.thisYear + RevenuesOfType(data, ThisYear),
      acc.lastYearByMonth + RevenuesByMonthOfType(data, LastYear))
  }

  /** What one file does to the performance of a category: replaced when the
      file has the category, left as it was otherwise. */
  lemma AddSalesFilePerformance(acc: PerformanceUpload, data: map<Category, SalesFileData>, c: Category)
    ensures var r := AddSalesFile(acc, data);
            (c in r.performance <==> c in data || c in acc.performance)
            && (c in data ==> r.performance[c] == data[c].performance)
            && (c !in data && c in acc.performance ==> r.performance[c] == acc.performance[c])
  {
  }

  /** Only a last-year file replaces the last-year totals and monthly totals of a
      category; this-year and plan files leave them as they were. */
  lemma AddSalesFileLastYear(acc: PerformanceUpload, data: map<Category, SalesFileData>, c: Category)
    ensures var r := AddSalesFile(acc, data);
            var replaced := c in data && data[c].fileType == LastYear;
            (c in r.lastYear <==> replaced || c in acc.lastYear)
            && (c in r.lastYearByMonth <==> replaced || c in acc.lastYearByMonth)
            && (replaced ==> r.lastYear[c] == data[c].customerRevenue && r.lastYearByMonth[c] == data[c].customerRevenueByMonth)
            && (!replaced && c in acc.lastYear ==> r.lastYear[c] == acc.lastYear[c])
            && (!replaced && c in acc.lastYearByMonth ==> r.lastYearByMonth[c] == acc.lastYearByMonth[c])
  {
  }

  /** Only a this-year file replaces the this-year totals of a category. */
  lemma AddSalesFileThisYear(acc: PerformanceUpload, data: map<Category, SalesFileData>, c: Category)
    ensures var r := AddSalesFile(acc, data);
            var replaced := c in data && data[c].fileType == ThisYear;
            (c in r.thisYear <==> replaced || c in acc.thisYear)
            && (replaced ==> r.thisYear[c] == data[c].customerRevenue)
            && (!replaced && c in acc.thisYear ==> r.thisYear[c] == acc.thisYear[c])
  {
  }

  /** The entries of the categories in done. */
  function Restrict(data: map<Category, SalesFileData>, done: set<Category>): map<Category, SalesFileData>
  {
    map c | c in data && c in done :: data[c]
  }

  /** The loop over the entries of one parsed file. */
  method AddSalesFileData(acc: PerformanceUpload, data: map<Category, SalesFileData>) returns (r: PerformanceUpload)
    ensures r == AddSalesFile(acc, data)
  {
    r := acc;
    var todo := data.Keys;
    ghost var done: set<Category> := {};
    AddNothing(acc, data);
    while todo != {}
      invariant done !! todo && done + todo == data.Keys
      invariant r == AddSalesFile(acc, Restrict(data, done))
      decreases |todo|
    {
      var c := Pick(todo);
      var catData := data[c];
      AddOneMore(acc, data, done, c);
      r := r.(performance := r.performance[c := catData.performance]);
      if catData.fileType == LastYear {
        r := r.(lastYear := r.lastYear[c := catData.customerRevenue],
                lastYearByMonth := r.lastYearByMonth[c := catData.customerRevenueByMonth]);
      } else if catData.fileType == ThisYear {
        r := r.(thisYear := r.thisYear[c := catData.customerRevenue]);
      }
      todo := todo - {c};
      done := done + {c};
    }
    assert Restrict(data, done) == data;
  }

  lemma AddNothing(acc: PerformanceUpload, data: map<Category, SalesFileData>)
    ensures AddSalesFile(acc, Restrict(data, {})) == acc
  {
    var none := Restrict(data, {});
    assert none == map[];
    assert Performances(none) == map[];
    assert RevenuesOfType(none, LastYear) == map[];
    assert RevenuesOfType(none, ThisYear) == map[];
    assert RevenuesByMonthOfType(none, LastYear) == map[];
  }

  /** Folding in one more category changes only that category's entries. */
  lemma AddOneMore(acc: PerformanceUpload, data: map<Category, SalesFileData>, done: set<Category>, c: Category)
    requires c in data
    ensures var before := AddSalesFile(acc, Restrict(data, done));
            var after := AddSalesFile(acc, Restrict(data, done + {c}));
            after.performance == before.performance[c := data[c].performance]
            && after.lastYear == (if data[c].fileType == LastYear then before.lastYear[c := data[c].customerRevenue] else before.lastYear)
            && after.lastYearByMonth == (if data[c].fileType == LastYear then before.lastYearByMonth[c := data[c].customerRevenueByMonth] else before.lastYearByMonth)
            && after.thisYear == (if data[c].fileType == ThisYear then before.thisYear[c := data[c].customerRevenue] else before.thisYear)
  {
    var small := Restrict(data, done);
    var big := Restrict(data, done + {c});
    assert big == small[c := data[c]];
    PerformancesStep(small, c, data[c]);
    RevenuesStep(small, c, data[c], LastYear);
    RevenuesStep(small, c, data[c], ThisYear);
    RevenuesByMonthStep(small, c, data[c], LastYear);
    UnionUpdate(acc.performance, Performances(small), c, data[c].performance);
    if data[c].fileType == LastYear {
      UnionUpdate(acc.lastYear, RevenuesOfType(small, LastYear), c, data[c].customerRevenue);
      UnionUpdate(acc.lastYearByMonth, RevenuesByMonthOfType(small, LastYear), c, data[c].customerRevenueByMonth);
    }
    if data[c].fileType == ThisYear {
      UnionUpdate(acc.thisYear, RevenuesOfType(small, ThisYear), c, data[c].customerRevenue);
    }
  }

  lemma PerformancesStep(m: map<Category, SalesFileData>, c: Category, d: SalesFileData)
    ensures Performances(m[c := d]) == Performances(m)[c := d.performance]
  {
  }

  lemma RevenuesStep(m: map<Category, SalesFileData>, c: Category, d: SalesFileData, t: FileType)
    requires c in m ==> m[c] == d
    ensures RevenuesOfType(m[c := d], t) == if d.fileType == t then RevenuesOfType(m, t)[c := d.customerRevenue] else RevenuesOfType(m, t)
  {
  }

  lemma RevenuesByMonthStep(m: map<Category, SalesFileData>, c: Category, d: SalesFileData, t: FileType)
    requires c in m ==> m[c] == d
    ensures RevenuesByMonthOfType(m[c := d], t) == if d.fileType == t then RevenuesByMonthOfType(m, t)[c := d.customerRevenueByMonth] else RevenuesByMonthOfType(m, t)
  {
  }

  lemma UnionUpdate<V>(a: map<Category, V>, m: map<Category, V>, c: Category, v: V)
    ensures a + m[c := v] == (a + m)[c := v]
  {
  }

  // ---------------------------------------------------------------- the loop over the files

  /** The loop over the files of one selection, stated on the parse results in
      file order: the accumulator starts at init, each parsed file is folded in
      with step, and the first failure ends the loop with its message. */
  function FoldOk<T, A>(rs: seq<Result<T>>, init: A, step: (A, T) -> A): (r: Result<A>)
    ensures r.Ok? ==> forall i :: 0 <= i < |rs| ==> rs[i].Ok?
  {
    if rs == [] then Ok(init)
    else
      assert forall i :: 0 <= i < |rs| - 1 ==> rs[..|rs| - 1][i] == rs[i];
      match FoldOk(rs[..|rs| - 1], init, step)
      case Err(e) => Err(e)
      case Ok(acc) =>
        match rs[|rs| - 1]
        case Err(e) => Err(e)
        case Ok(v) => Ok(step(acc, v))
  }

  /** Folding in one more parsed file. */
  lemma FoldOkStep<T, A>(rs: seq<Result<T>>, i: int, init: A, step: (A, T) -> A, acc: A)
    requires 0 <= i < |rs| && FoldOk(rs[..i], init, step) == Ok(acc) && rs[i].Ok?
    ensures FoldOk(rs[..i + 1], init, step) == Ok(step(acc, rs[i].value))
  {
    assert rs[..i + 1][..i] == rs[..i];
  }

  /** The last file of a selection that went through. */
  lemma FoldOkLast<T, A>(rs: seq<Result<T>>, init: A, step: (A, T) -> A)
    requires rs != [] && FoldOk(rs, init, step).Ok?
    ensures FoldOk(rs[..|rs| - 1], init, step).Ok? && rs[|rs| - 1].Ok?
    ensures FoldOk(rs, init, step).value == step(FoldOk(rs[..|rs| - 1], init, step).value, rs[|rs| - 1].value)
  {
  }

  /** Once a prefix of the files fails, the whole selection fails with the same message. */
  lemma {:induction false} FoldStops<T, A>(rs: seq<Result<T>>, i: int, init: A, step: (A, T) -> A)
    requires 0 <= i <= |rs| && FoldOk(rs[..i], init, step).Err?
    ensures FoldOk(rs, init, step) == FoldOk(rs[..i], init, step)
  {
    if i < |rs| {
      assert rs[..|rs| - 1][..i] == rs[..i];
      FoldStops(rs[..|rs| - 1], i, init, step);
    } else {
      assert rs[..i] == rs;
    }
  }

  /** A selection fails exactly when one of its files fails, and then with the
      message of the first such file. */
  lemma {:induction false} AllOrNothing<T, A>(rs: seq<Result<T>>, init: A, step: (A, T) -> A)
    ensures FoldOk(rs, init, step).Err? <==> exists i :: 0 <= i < |rs| && rs[i].Err?
    ensures FoldOk(rs, init, step).Err? ==>
              exists i :: 0 <= i < |rs| && rs[i].Err? && FoldOk(rs, init, step).msg == rs[i].msg
                && forall j :: 0 <= j < i ==> rs[j].Ok?
  {
    if rs != [] {
      var front := rs[..|rs| - 1];
      AllOrNothing(front, init, step);
      assert forall i :: 0 <= i < |front| ==> front[i] == rs[i];
      if FoldOk(front, init, step).Ok? && rs[|rs| - 1].Err? {
        assert forall j :: 0 <= j < |rs| - 1 ==> rs[j].Ok? by {
          forall j | 0 <= j < |rs| - 1 ensures rs[j].Ok? {
            assert front[j] == rs[j];
          }
        }
      }
    }
  }

  // ---------------------------------------------------------------- performance uploads

  /** One sales file: its category, type and figures, from its first sheet. */
  function SalesFileOf(f: SourceFile): (r: Result<map<Category, SalesFileData>>)
    ensures ExtractCategoryFromFilename(f.name).None? ==> r == Err(UnknownCategoryMessage(f.name))
    ensures ExtractCategoryFromFilename(f.name).Some? && f.workbook.Err? ==> r == Err(f.workbook.msg)
    ensures r.Ok? ==> f.workbook.Ok? && |f.workbook.value| > 0
                      && r.value.Keys == {ExtractCategoryFromFilename(f.name).value}
  {
    SalesFileResult(f.name, FirstSheet(f.workbook))
  }

  /** What handlePerformanceUpload hands over for a selection. */
  function PerformanceBatch(files: seq<SourceFile>): (u: Upload<PerformanceUpload>)
    ensures u.NoFiles? <==> files == []
    ensures u.Failed? <==> files != [] && exists i :: 0 <= i < |files| && SalesFileOf(files[i]).Err?
  {
    AllOrNothing(ParsedWith(files, SalesFileOf), NoPerformance, AddSalesFile);
    UploadOutcome(files, FoldOk(ParsedWith(files, SalesFileOf), NoPerformance, AddSalesFile))
  }

  /** handlePerformanceUpload. */
  method HandlePerformanceUpload(files: seq<SourceFile>) returns (outcome: Upload<PerformanceUpload>)
    ensures outcome == PerformanceBatch(files)
  {
    outcome := FoldSalesFiles(files, SalesFileOf);
  }

  /** The loop of handlePerformanceUpload, each file read by parse: the
      accumulators take in each file in turn, and the first failure ends the
      upload with its message. */
  method FoldSalesFiles(files: seq<SourceFile>, parse: SourceFile -> Result<map<Category, SalesFileData>>)
    returns (outcome: Upload<PerformanceUpload>)
    ensures outcome == UploadOutcome(files, FoldOk(ParsedWith(files, parse), NoPerformance, AddSalesFile))
  {
    if |files| == 0 {
      return NoFiles;
    }
    ghost var rs := ParsedWith(files, parse);
    var acc := NoPerformance;
    for i := 0 to |files|
      invariant FoldOk(rs[..i], NoPerformance, AddSalesFile) == Ok(acc)
    {
      var data := parse(files[i]);
      if data.Err? {
        assert rs[..i + 1][..i] == rs[..i];
        FoldStops(rs, i + 1, NoPerformance, AddSalesFile);
        return Failed(data.msg);
      }
      FoldOkStep(rs, i, NoPerformance, AddSalesFile, acc);
      acc := AddSalesFileData(acc, data.value);
    }
    assert rs[..|files|] == rs;
    outcome := Uploaded(acc);
  }

  /** The performance each file gives, in file order (nothing for a failed file). */
  function PerformanceLayers(rs: seq<Result<map<Category, SalesFileData>>>): seq<map<Category, seq<MonthlyPerformance>>>
  {
    seq(|rs|, i requires 0 <= i < |rs| => if rs[i].Ok? then Performances(rs[i].value) else map[])
  }

  /** The customer totals each file of type t gives, in file order. */
  function RevenueLayers(rs: seq<Result<map<Category, SalesFileData>>>, t: FileType): seq<map<Category, map<string, real>>>
  {
    seq(|rs|, i requires 0 <= i < |rs| => if rs[i].Ok? then RevenuesOfType(rs[i].value, t) else map[])
  }

  /** The monthly customer totals each file of type t gives, in file order. */
  function RevenueByMonthLayers(rs: seq<Result<map<Category, SalesFileData>>>, t: FileType): seq<map<Category, map<string, map<int, real>>>>
  {
    seq(|rs|, i requires 0 <= i < |rs| => if rs[i].Ok? then RevenuesByMonthOfType(rs[i].value, t) else map[])
  }

  /** A selection that goes through hands over each file's performance laid
      over the earlier files'. */
  lemma {:induction false} PerformanceLayered(rs: seq<Result<map<Category, SalesFileData>>>)
    requires FoldOk(rs, NoPerformance, AddSalesFile).Ok?
    ensures FoldOk(rs, NoPerformance, AddSalesFile).value.performance == Layers(PerformanceLayers(rs))
  {
    if rs != [] {
      var n := |rs| - 1;
      FoldOkLast(rs, NoPerformance, AddSalesFile);
      PerformanceLayered(rs[..n]);
      assert PerformanceLayers(rs)[..n] == PerformanceLayers(rs[..n]);
    }
  }

  /** The last-year totals handed over are those of the last-year files laid
      over one another; this-year and plan files give none. */
  lemma {:induction false} LastYearLayered(rs: seq<Result<map<Category, SalesFileData>>>)
    requires FoldOk(rs, NoPerformance, AddSalesFile).Ok?
    ensures FoldOk(rs, NoPerformance, AddSalesFile).value.lastYear == Layers(RevenueLayers(rs, LastYear))
  {
    if rs != [] {
      var n := |rs| - 1;
      FoldOkLast(rs, NoPerformance, AddSalesFile);
      LastYearLayered(rs[..n]);
      assert RevenueLayers(rs, LastYear)[..n] == RevenueLayers(rs[..n], LastYear);
    }
  }

  /** The same for the monthly last-year totals. */
  lemma {:induction false} LastYearByMonthLayered(rs: seq<Result<map<Category, SalesFileData>>>)
    requires FoldOk(rs, NoPerformance, AddSalesFile).Ok?
    ensures FoldOk(rs, NoPerformance, AddSalesFile).value.lastYearByMonth == Layers(RevenueByMonthLayers(rs, LastYear))
  {
    if rs != [] {
      var n := |rs| - 1;
      FoldOkLast(rs, NoPerformance, AddSalesFile);
      LastYearByMonthLayered(rs[..n]);
      assert RevenueByMonthLayers(rs, LastYear)[..n] == RevenueByMonthLayers(rs[..n], LastYear);
    }
  }

  /** The this-year totals handed over are those of the this-year files laid
      over one another; last-year and plan files give none. */
  lemma {:induction false} ThisYearLayered(rs: seq<Result<map<Category, SalesFileData>>>)
    requires FoldOk(rs, NoPerformance, AddSalesFile).Ok?
    ensures FoldOk(rs, NoPerformance, AddSalesFile).value.thisYear == Layers(RevenueLayers(rs, ThisYear))
  {
    if rs != [] {
      var n := |rs| - 1;
      FoldOkLast(rs, NoPerformance, AddSalesFile);
      ThisYearLayered(rs[..n]);
      assert RevenueLayers(rs, ThisYear)[..n] == RevenueLayers(rs[..n], ThisYear);
    }
  }

  /** For each category, the performance of the last file that has it wins;
      a category no file has gets no entry. */
  lemma LastPerformanceWins(rs: seq<Result<map<Category, SalesFileData>>>, c: Category)
    requires FoldOk(rs, NoPerformance, AddSalesFile).Ok?
    ensures c in FoldOk(rs, NoPerformance, AddSalesFile).value.performance <==>
              exists i :: 0 <= i < |rs| && Gives(rs[i], c)
    ensures c in FoldOk(rs, NoPerformance, AddSalesFile).value.performance ==>
              exists i :: 0 <= i < |rs| && Gives(rs[i], c)
                && FoldOk(rs, NoPerformance, AddSalesFile).value.performance[c] == rs[i].value[c].performance
                && forall j :: i < j < |rs| ==> !Gives(rs[j], c)
  {
    PerformanceLayered(rs);
    var ms := PerformanceLayers(rs);
    LastLayerWins(ms, c);
    forall i | 0 <= i < |rs|
      ensures c in ms[i] <==> Gives(rs[i], c)
      ensures c in ms[i] ==> ms[i][c] == rs[i].value[c].performance
    {
    }
  }

  /** A file that went through and gives category c. */
  predicate Gives<T>(r: Result<map<Category, T>>, c: Category)
  {
    r.Ok? && c in r.value
  }

  /** A file that went through and gives category c from a file of type t. */
  predicate GivesOfType(r: Result<map<Category, SalesFileData>>, c: Category, t: FileType)
  {
    r.Ok? && c in r.value && r.value[c].fileType == t
  }

  /** For each category, the last-year customer totals come from the last
      last-year file that has it: this-year and plan files leave them alone. */
  lemma LastYearFromLastYearFiles(rs: seq<Result<map<Category, SalesFileData>>>, c: Category)
    requires FoldOk(rs, NoPerformance, AddSalesFile).Ok?
    ensures c in FoldOk(rs, NoPerformance, AddSalesFile).value.lastYear <==>
              exists i :: 0 <= i < |rs| && GivesOfType(rs[i], c, LastYear)
    ensures c in FoldOk(rs, NoPerformance, AddSalesFile).value.lastYear ==>
              exists i :: 0 <= i < |rs| && GivesOfType(rs[i], c, LastYear)
                && FoldOk(rs, NoPerformance, AddSalesFile).value.lastYear[c] == rs[i].value[c].customerRevenue
                && forall j :: i < j < |rs| ==> !GivesOfType(rs[j], c, LastYear)
  {
    LastYearLayered(rs);
    var ms := RevenueLayers(rs, LastYear);
    LastLayerWins(ms, c);
    forall i | 0 <= i < |rs|
      ensures c in ms[i] <==> GivesOfType(rs[i], c, LastYear)
      ensures c in ms[i] ==> ms[i][c] == rs[i].value[c].customerRevenue
    {
    }
  }

  // ---------------------------------------------------------------- later files win

  /** Maps laid over one another in order: an entry of a later map replaces the
      entry of the same category in an earlier one. */
  function Layers<V>(ms: seq<map<Category, V>>): map<Category, V>
  {
    if ms == [] then map[] else Layers(ms[..|ms| - 1]) + ms[|ms| - 1]
  }

  /** A category is in the layered map exactly when some layer has it, and its
      entry is that of the last layer that has it. */
  lemma {:induction false} LastLayerWins<V>(ms: seq<map<Category, V>>, c: Category)
    ensures c in Layers(ms) <==> exists i :: 0 <= i < |ms| && c in ms[i]
    ensures c in Layers(ms) ==>
              exists i :: 0 <= i < |ms| && c in ms[i] && Layers(ms)[c] == ms[i][c]
                && forall j :: i < j < |ms| ==> c !in ms[j]
  {
    if ms != [] {
      var n := |ms| - 1;
      var front := ms[..n];
      assert forall i :: 0 <= i < n ==> front[i] == ms[i];
      LastLayerWins(front, c);
      if c in ms[n] {
        assert Layers(ms)[c] == ms[n][c];
      } else if c in Layers(front) {
        var i :| 0 <= i < n && c in front[i] && Layers(front)[c] == front[i][c]
                 && forall j :: i < j < n ==> c !in front[j];
        assert forall j :: i < j < |ms| ==> c !in ms[j];
      }
    }
  }

  // ---------------------------------------------------------------- customer uploads

  /** The parser is chosen by a `.csv` suffix in any case. */
  predicate IsCsv(name: string)
  {
    EndsWith(ToLower(name), ".csv")
  }

  /** One customer file: a CSV file through parseCustomerCSV (its first sheet),
      any other through parseCustomerExcel (every sheet). */
  function CustomerFileOf(f: SourceFile): (r: Result<map<Category, ShareUpload>>)
    ensures IsCsv(f.name) && ExtractCategoryFromFilename(f.name).None? ==> r == Err(UnknownCategoryMessage(f.name))
    ensures IsCsv(f.name) && r.Ok? ==> r.value.Keys <= {ExtractCategoryFromFilename(f.name).value}
    ensures f.workbook.Err? && (!IsCsv(f.name) || ExtractCategoryFromFilename(f.name).Some?) ==> r == Err(f.workbook.msg)
  {
    if IsCsv(f.name) then ParseCustomerCSV(f.name, FirstSheet(f.workbook))
    else ParseCustomerExcel(f.workbook)
  }

  /** `{ ...mergedData, ...data }`: the later file's entries win. */
  function Spread(merged: map<Category, ShareUpload>, data: map<Category, ShareUpload>): (r: map<Category, ShareUpload>)
    ensures r.Keys == merged.Keys + data.Keys
    ensures forall c :: c in data ==> r[c] == data[c]
    ensures forall c :: c in merged && c !in data ==> r[c] == merged[c]
  {
    merged + data
  }

  /** What handleCustomerUpload hands over for a selection. */
  function CustomerBatch(files: seq<SourceFile>): (u: Upload<map<Category, ShareUpload>>)
    ensures u.NoFiles? <==> files == []
    ensures u.Failed? <==> files != [] && exists i :: 0 <= i < |files| && CustomerFileOf(files[i]).Err?
  {
    AllOrNothing(ParsedWith(files, CustomerFileOf), map[], Spread);
    UploadOutcome(files, FoldOk(ParsedWith(files, CustomerFileOf), map[], Spread))
  }

  /** handleCustomerUpload. */
  method HandleCustomerUpload(files: seq<SourceFile>) returns (outcome: Upload<map<Category, ShareUpload>>)
    ensures outcome == CustomerBatch(files)
  {
    outcome := FoldCustomerFiles(files, CustomerFileOf);
  }

  /** The loop of handleCustomerUpload, each file read by parse: each file's
      entries are spread over the merged data, and the first failure ends the
      upload with its message. */
  method FoldCustomerFiles(files: seq<SourceFile>, parse: SourceFile -> Result<map<Category, ShareUpload>>)
    returns (outcome: Upload<map<Category, ShareUpload>>)
    ensures outcome == UploadOutcome(files, FoldOk(ParsedWith(files, parse), map[], Spread))
  {
    if |files| == 0 {
      return NoFiles;
    }
    ghost var rs := ParsedWith(files, parse);
    var mergedData: map<Category, ShareUpload> := map[];
    for i := 0 to |files|
      invariant FoldOk(rs[..i], map[], Spread) == Ok(mergedData)
    {
      var data := parse(files[i]);
      if data.Err? {
        assert rs[..i + 1][..i] == rs[..i];
        FoldStops(rs, i + 1, map[], Spread);
        return Failed(data.msg);
      }
      FoldOkStep(rs, i, map[], Spread, mergedData);
      mergedData := mergedData + data.value;
    }
    assert rs[..|files|] == rs;
    outcome := Uploaded(mergedData);
  }

  /** The shares each customer file gives, in file order (nothing for a failed file). */
  function ShareLayers(rs: seq<Result<map<Category, ShareUpload>>>): seq<map<Category, ShareUpload>>
  {
    seq(|rs|, i requires 0 <= i < |rs| => if rs[i].Ok? then rs[i].value else map[])
  }

  /** A customer selection that goes through hands over the files' shares laid
      over one another in file order. */
  lemma {:induction false} CustomerUploadLayers(rs: seq<Result<map<Category, ShareUpload>>>)
    requires FoldOk(rs, map[], Spread).Ok?
    ensures FoldOk(rs, map[], Spread).value == Layers(ShareLayers(rs))
  {
    if rs != [] {
      var n := |rs| - 1;
      FoldOkLast(rs, map[], Spread);
      CustomerUploadLayers(rs[..n]);
      assert ShareLayers(rs)[..n] == ShareLayers(rs[..n]);
    }
  }

  /** The last customer file that has a category gives its entry, so a category
      only earlier files have survives. */
  lemma LastCustomersWin(rs: seq<Result<map<Category, ShareUpload>>>, c: Category)
    requires FoldOk(rs, map[], Spread).Ok?
    ensures c in FoldOk(rs, map[], Spread).value <==> exists i :: 0 <= i < |rs| && Gives(rs[i], c)
    ensures c in FoldOk(rs, map[], Spread).value ==>
              exists i :: 0 <= i < |rs| && Gives(rs[i], c)
                && FoldOk(rs, map[], Spread).value[c] == rs[i].value[c]
                && forall j :: i < j < |rs| ==> !Gives(rs[j], c)
  {
    CustomerUploadLayers(rs);
    var ms := ShareLayers(rs);
    LastLayerWins(ms, c);
    forall i | 0 <= i < |rs|
      ensures c in ms[i] <==> Gives(rs[i], c)
      ensures c in ms[i] ==> ms[i][c] == rs[i].value[c]
    {
    }
  }

  /** The suffix test ignores case: "a.CSV" and "a.csv" go to the same parser. */
  lemma CsvSuffixIgnoresCase(stem: string)
    ensures IsCsv(stem + ".CSV") && IsCsv(stem + ".csv")
  {
    var upper := ToLower(stem + ".CSV");
    var lower := ToLower(stem + ".csv");
    var n := |stem|;
    assert upper[n..] == ".csv" by {
      assert upper[n] == '.' && upper[n + 1] == 'c' && upper[n + 2] == 's' && upper[n + 3] == 'v';
    }
    assert lower[n..] == ".csv" by {
      assert lower[n] == '.' && lower[n + 1] == 'c' && lower[n + 2] == 's' && lower[n + 3] == 'v';
    }
  }
}

# Spreadsheet ingestion and reconciliation, in Dafny

This project models the data core of a category-management dashboard for
four cosmetics categories (Sun Care, Foundation, Essence and Cream). Users
upload spreadsheets and CSV exports. The core turns them into monthly
performance, customer lists and market shares, merges them into the existing
dataset, and writes them back out as CSV. The model covers:

- **Category resolution** (`category.dfy`, module `CategoryResolver`):
  - the bilingual alias table;
  - the exact, case-sensitive lookup of a sheet name;
  - the first-match substring search in a file name, after the `.csv`,
    `.xlsx` or `.xls` extension is stripped and the name is lower-cased.
- **Period parsing** (`period.dfy`, module `PeriodParser`): the decimal
  `YYYY.MMM` branch, the `YYYY.NNN` pattern with its 1-based wrap-around,
  and the `N월` pattern.
- **Row extraction** (`rows.dfy`, module `RowReader`; `js.dfy`, module `Js`):
  - a sheet row is a map from header to cell;
  - the `row[a] || row[b] || …` alias chains, with JavaScript truthiness;
  - the first-numeric-alias readers `parseNumericValue` and `parseShareValue`;
  - the JavaScript built-ins they rely on: `parseFloat`, `parseInt`,
    `Math.round`, `toFixed(1)`, `trim` and `toLowerCase`.
- **Performance workbooks** (`performance.dfy`, module `PerformanceSheet`):
  one sheet per category, rows that name a month 1..12, sorted by month.
- **Customer/share files** (`customers.dfy`, module `Customers`):
  - the CSV row parser and the Excel row parser (with its carried-forward
    quarters and its 30/25 defaults);
  - the status rule;
  - the aggregate share: the unweighted mean of each period, to one decimal.
- **Sales files** (`sales.dfy`, module `SalesFile`):
  - the file-type heuristic (last year, plan or this year);
  - the monthly, per-customer and per-customer-per-month totals;
  - the twelve-month performance array;
  - the conversion to units of 100 million (억).
- **The two list shapes the parsers share** (`filter.dfy`, module `Filtering`):
  - `rows.map(parse).filter(x => x !== null)`, stated as "exactly the parsed
    values, in row order";
  - a loop over sheets writing `result[category] = value`, stated as "every
    category whose sheet gives one, with the value of its last such sheet".
- **The merge** (`merge.dfy`, module `Merge`):
  - every category is rebuilt from the uploads or the existing entry;
  - when this-year totals arrive, the customer list is rebuilt from them;
  - last year is compared over the same elapsed months (`maxYtdMonth`);
  - the list is sorted by this-year revenue.
- **The upload handlers** (`batch.dfy`, module `Batch`): the performance and
  customer batch loops of the uploader component, as folds over the files of
  one selection.
- **The CSV export** (`export.dfy`, module `Export`):
  - `escapeCSV`;
  - the monthly-performance, customer and full-data exports;
  - a reader for the quoting rules of section 2 of RFC 4180, against which
    every exported line is shown to read back as its cells.

Shared records (`types.dfy`, module `Types`) follow `types.ts`. Numbers are
exact reals. `NaN` is an explicit value (`JsNumber`) wherever the source can
produce it. File reading and workbook decoding are parameters: a file arrives
as its name and its decoded sheets, or as the decoding error.

Every pipeline follows the code as written, including where the code's own
description says otherwise:

- A sheet name is matched case-sensitively. `"SUN CARE"` is no category
  (`CategoryResolver.NormalizeIsCaseSensitive`).
- A failed file fails the whole upload batch. The loop sits inside one `try`
  in `components/ExcelUploader.tsx:32-62`, so nothing of the batch is handed
  over (`Batch.AllOrNothing`).
- Sales periods are read by the period parser as written. Its decimal branch
  runs first, so a row dated `2026.01` counts towards October (see
  "## Findings"; `SalesFile.JanuaryRowCountsAsOctober`).
- On the CSV customer path, a missing quarter share is 0 and is not carried
  forward from the quarter before. Carrying forward happens only on the Excel
  path (`Customers.ExcelCarryForward`).

## Model

| member | source | states |
|---|---|---|
| Js.OrChain | utils/excelParser.ts:99 | `a \|\| b \|\| …` is the first truthy cell, or the last cell when none is truthy |
| Js.IndexOf | utils/excelParser.ts:58 | `includes`: finds the first occurrence exactly when the substring occurs |
| Js.ToLower | utils/excelParser.ts:55 | lower-casing keeps the length and maps every character on its own |
| Js.TrimStart | utils/excelParser.ts:66 | the result is a suffix that does not start with white space |
| Js.TrimEnd | utils/excelParser.ts:66 | the result is a prefix that does not end with white space |
| Js.Round | utils/excelParser.ts:304 | `Math.round` lies within half a unit of its argument |
| Js.Round1 | utils/excelParser.ts:305 | `Number(x.toFixed(1))` lies within 0.05 of x |
| Js.NatToString | utils/exportData.ts:40 | `String(n)` of a natural number is a non-empty run of digits |
| Js.NatToStringValue | utils/exportData.ts:40 | the digits of `String(n)` have the value n |
| Js.ParseInt | utils/excelParser.ts:102 | `parseInt` of a non-empty run of digits is the value of those digits |
| Js.ParseFloatDigits | utils/excelParser.ts:376 | `parseFloat` of a non-empty run of digits is the value of those digits |
| Js.Fixed1Text | utils/exportData.ts:16 | `toFixed(1)` has at least one digit, a point and one digit after it, and a leading minus exactly for a negative number |
| Js.Fixed1TextSpellsTenths | utils/exportData.ts:16 | the digits of `toFixed(1)`, without sign and point, spell the number of tenths, rounded |
| Js.TenthsDigits | utils/exportData.ts:16 | the unsigned text of a count of tenths spells that count |
| CategoryResolver.FirstAliasIn | utils/excelParser.ts:57-62 | the category of the first alias that occurs in the name, and none exactly when no alias occurs |
| CategoryResolver.ExtractCategoryFromFilename | utils/excelParser.ts:54-62 | the lower-cased name without its extension: no category exactly when no alias occurs in it, otherwise the category of the first alias that occurs |
| CategoryResolver.FirstAliasWithin | utils/excelParser.ts:57-61 | when the alias at k occurs, the search returns the category of k or of an earlier alias |
| CategoryResolver.FirstAliasAt | utils/excelParser.ts:57-61 | when k is the first alias that occurs, the search returns its category |
| CategoryResolver.StripExtensionOf | utils/excelParser.ts:55 | a trailing `.csv`, `.xlsx` or `.xls`, in any case, is removed and nothing else |
| CategoryResolver.StripExtensionKeeps | utils/excelParser.ts:55 | a name without one of those extensions is searched whole |
| CategoryResolver.SunAliases | utils/excelParser.ts:37-40 | the first four aliases all give Sun Care, the fourth being `sun` |
| CategoryResolver.SunWinsOverLaterAliases | utils/excelParser.ts:54-62 | any file name containing `sun` resolves to Sun Care, whatever else it contains |
| CategoryResolver.EssenceBeforeCream | utils/excelParser.ts:54-62 | `essence_cream.csv` resolves to Essence: alias order decides ties |
| CategoryResolver.FirstMatchIsEssence | utils/excelParser.ts:57-61 | no Sun Care or Foundation alias occurs in `essence_cream`, and Essence is found first |
| CategoryResolver.AliasLookup | utils/excelParser.ts:67-68 | the exact lookup finds an entry exactly when some alias equals the key |
| CategoryResolver.AliasLookupAt | utils/excelParser.ts:67-68 | the exact lookup returns the category of the first alias equal to the key |
| CategoryResolver.CanonicalNamed | utils/excelParser.ts:70-71 | a canonical name resolves to its own category, and any other name to none |
| CategoryResolver.NormalizeCategory | utils/excelParser.ts:65-74 | a category exactly when the trimmed name is an alias or a canonical name, and then that alias's or name's category |
| CategoryResolver.NormalizeUnique | utils/excelParser.ts:65-69 | a trimmed alias resolves to the category of its first entry |
| CategoryResolver.NormalizeFromLookup | utils/excelParser.ts:65-69 | a trimmed name found in the table resolves to the table's category |
| CategoryResolver.NormalizeCanonical | utils/excelParser.ts:65-72 | every canonical category name resolves to its category |
| CategoryResolver.NormalizeIsCaseSensitive | utils/excelParser.ts:65-73 | `SUN CARE` resolves to no category |
| PeriodParser.FirstYearDot | utils/excelParser.ts:383 | the leftmost position where `\d{4}\.\d` starts, and none exactly when there is no such position |
| PeriodParser.YearDotGroup | utils/excelParser.ts:383 | the capture group `(\d{1,3})` holds one to three digits |
| PeriodParser.YearDotMatch | utils/excelParser.ts:383 | a match of `\d{4}\.(\d{1,3})` yields one to three digits |
| PeriodParser.WrapMonth | utils/excelParser.ts:386-387 | a month number folds into 1..12, congruent modulo 12, unchanged when already in 1..12 |
| PeriodParser.MonthMarkerAt | utils/excelParser.ts:390 | a match of `(\d{1,2})월` is one or two digits followed by the marker |
| PeriodParser.FirstMonthMarker | utils/excelParser.ts:390 | the leftmost position where `(\d{1,2})월` matches, and none exactly when there is no such position |
| PeriodParser.MonthMarkerMatch | utils/excelParser.ts:390-391 | none exactly when no position matches `(\d{1,2})월`; otherwise the one or two digits at the leftmost match, followed by `월`, with no match at any earlier position |
| PeriodParser.YearDotBranch | utils/excelParser.ts:383-388 | the `YYYY.NNN` branch yields only months 1..12 |
| PeriodParser.DecimalBranch | utils/excelParser.ts:376-381 | a month only for text with a point that `parseFloat` reads as a number, and then in 1..12 |
| PeriodParser.ParsePeriodToMonthAsWritten | utils/excelParser.ts:373-393 | none exactly when no branch matches; the decimal branch's month when it gives one, otherwise the `YYYY.NNN` branch's; when neither gives one, the `N월` branch's; a result lies in 0..99 |
| PeriodParser.ParsePeriodToMonth | utils/excelParser.ts:383-393 | the corrected order: none exactly when no branch matches; the `YYYY.NNN` branch's month when it gives one, otherwise the decimal branch's; when neither gives one, the `N월` branch's; a result lies in 0..99 |
| PeriodParser.MarkerBranch | utils/excelParser.ts:390-391 | a month exactly when `(\d{1,2})월` matches somewhere; then the value of the digits at the leftmost match, in 0..99 with no range check |
| PeriodParser.YearDotDecides | utils/excelParser.ts:376-387 | when the `YYYY.NNN` group is positive: as written, the period is that group wrapped into 1..12 provided the decimal branch gave nothing; once corrected, it always is |
| PeriodParser.YearDotMonth | utils/excelParser.ts:383-386 | a four-digit year, a point and a two-digit month 1..12 read as that month |
| PeriodParser.YearDotWraps | utils/excelParser.ts:373-393 | `2026.13` reads as January, as written and once corrected |
| PeriodParser.YearDotMonthAsWritten | utils/excelParser.ts:373-393 | as written, a four-digit year, a point and a two-digit month 02..99 gets nothing from the decimal branch and reads as that month wrapped into 1..12 |
| PeriodParser.DecimalSeesThousandths | utils/excelParser.ts:375-380 | the decimal branch reads `YYYY.MM` as 10 × MM thousandths, so it gives no month for MM from 02 up |
| PeriodParser.YearDotMatchMonth | utils/excelParser.ts:383 | the `YYYY.NNN` pattern captures the two month digits of `YYYY.MM` |
| PeriodParser.YearDotValue | utils/excelParser.ts:375 | parseFloat of `YYYY.MM` is the year plus the month in hundredths |
| PeriodParser.AprilBothReadings | utils/excelParser.ts:373-393 | `2026.04` reads as April, as written and once corrected |
| PeriodParser.MarkerDigit | utils/excelParser.ts:390-391 | one digit before `월` reads as that digit, so `0월` is 0 |
| PeriodParser.MarkerTwoDigits | utils/excelParser.ts:390-391 | two digits before `월` read as their two-digit value, so `13월` is 13 |
| PeriodParser.NoDigitsNoMonth | utils/excelParser.ts:373-393 | text without a digit is no period, for both the as-written and the corrected parser |
| PeriodParser.NoDigitsNaN | utils/excelParser.ts:376 | `parseFloat` of text without a digit is NaN |
| PeriodParser.GarbageIsNoPeriod | utils/excelParser.ts:373-393 | `garbage` is no period |
| PeriodParser.DecimalFirst | utils/excelParser.ts:376-380 | as written, a decimal-branch month is returned before the other patterns are tried |
| PeriodParser.DecimalJanuary | utils/excelParser.ts:376-380 | the decimal branch reads `2026.01` as 10 |
| PeriodParser.YearDotJanuary | utils/excelParser.ts:383-386 | the corrected parser reads `2026.01` as 1 |
| PeriodParser.JanuaryReadAsOctober | utils/excelParser.ts:373-393 | `2026.01` is month 10 as written and month 1 once corrected |
| RowReader.FirstNumeric | utils/excelParser.ts:242-248 | the number of the first alias whose cell is present and numeric, and none exactly when no alias has one |
| RowReader.ParseNumericValue | utils/excelParser.ts:241-250 | the number of the first alias whose cell is numeric, or the fallback when no alias has one |
| RowReader.ParseShareValue | utils/excelParser.ts:252-263 | the first numeric alias's value, a fraction in [0, 1] scaled to a whole percentage, or 0 when no alias has one |
| RowReader.FirstNumericIgnoresLater | utils/excelParser.ts:242-247 | once an alias yields a number, aliases added after it change nothing |
| RowReader.NoAliasFallsBack | utils/excelParser.ts:241-263 | a row with none of the aliases reads as the fallback, and as share 0 |
| RowReader.FractionAndPercentAgree | utils/excelParser.ts:258 | a share of 0.42 and one of 42 both read as 42 |
| RowReader.ShareScaleRange | utils/excelParser.ts:258 | a share above 1 is kept, and a fraction in [0, 1] becomes a whole percentage in [0, 100] |
| RowReader.ZeroCellDiffers | utils/excelParser.ts:241-250 | a cell holding 0 reads as 0 through `parseNumericValue` but as the default through a `\|\|` chain |
| RowReader.FirstTruthy | utils/excelParser.ts:165 | the first truthy cell, and none exactly when no cell is truthy |
| RowReader.OrDefault | utils/excelParser.ts:184 | `n \|\| d` is n when n is truthy and d otherwise |
| RowReader.OrTextEmpty | utils/excelParser.ts:165-166 | the name chain is empty exactly when none of its cells is truthy |
| RowReader.OrChainAllFalsy | utils/excelParser.ts:99 | a chain whose cells before the last are all falsy yields the last |
| RowReader.OrChainTruthy | utils/excelParser.ts:99 | a chain with some truthy cell yields a truthy cell |
| RowReader.CellTextNonEmpty | utils/excelParser.ts:165 | `String()` of a truthy cell is never empty |
| RowReader.OrNumberAbsent | utils/excelParser.ts:171-181 | a chain over aliases that the row lacks yields its default |
| PerformanceSheet.RowMonth | utils/excelParser.ts:99-103 | the month of a row is in 1..12 |
| PerformanceSheet.ParsePerformanceRow | utils/excelParser.ts:98-121 | a row is kept exactly when it names a month 1..12; NaN figures become 0, and an actual that is absent or NaN becomes null |
| PerformanceSheet.ParsedMonths | utils/excelParser.ts:97-123 | exactly the rows the row parser accepts, parsed, in sheet order; each of month 1..12 |
| PerformanceSheet.SheetPerformance | utils/excelParser.ts:97-124 | a permutation of the kept rows, sorted by month |
| PerformanceSheet.SameMonthInSheetOrder | utils/excelParser.ts:124 | the rows of one month keep their sheet order (the sort is stable) |
| PerformanceSheet.OrderedSheetUnchanged | utils/excelParser.ts:124 | a sheet already in month order is kept as it is |
| PerformanceSheet.PerformanceSheetEntry | utils/excelParser.ts:88-128 | a sheet is kept exactly when its name resolves to a category and some row names a month 1..12; it then gives that category and its sorted months |
| PerformanceSheet.PerformanceSheets | utils/excelParser.ts:85-131 | a category is present exactly when some sheet gives it, with the months of the last such sheet, never empty |
| PerformanceSheet.ParsePerformanceExcel | utils/excelParser.ts:76-139 | a read failure is passed on; otherwise each category maps to the months of its last sheet |
| PerformanceSheet.LastSheetWins | utils/excelParser.ts:126-128 | a later sheet of a category replaces what an earlier one gave |
| PerformanceSheet.ZeroActualDependsOnHeader | utils/excelParser.ts:111-120 | a 0 actual under the first header is lost (null), but under the last header it is kept |
| Sorting.SortBy | utils/excelParser.ts:124 | the sort result is sorted by the key and is a permutation of the input |
| Sorting.SortByStable | utils/excelParser.ts:124 | elements with equal keys keep their input order |
| Sorting.SortBySorted | utils/excelParser.ts:124 | an already sorted input is returned as it is |
| Customers.DeriveStatus | utils/excelParser.ts:292-298 | Thriving exactly when growth > 15 and the share gain > 0; otherwise Challenged exactly when growth < -5 or the share change < -5; otherwise Stable |
| Customers.ParseCustomerRow | utils/excelParser.ts:265-310 | a customer has a name, five share periods in order, no last-year revenue or products, and the id `c-idx` |
| Customers.NamelessRowSkipped | utils/excelParser.ts:266-267 | on both paths, a row is skipped exactly when none of its name cells is truthy |
| Customers.CsvOthers | utils/excelParser.ts:284-290 | `others` is 100 - cosmax - kolmar; in a quarter where both are 0 it is 0 |
| Customers.CsvStatus | utils/excelParser.ts:292-298 | the status from the read growth and the change from baseline to fourth-quarter cosmax share, all three cases as iffs |
| Customers.CsvFields | utils/excelParser.ts:265-310 | a CSV customer's name, its revenue rounded, its growth to one decimal, each period's cosmax and kolmar share as read, and its status |
| Customers.LossIsChallenged | utils/excelParser.ts:296-297 | a growth or share change below -5 is Challenged |
| Customers.NaNGrowth | utils/excelParser.ts:191-197 | a NaN growth never makes a customer Thriving, and makes it Challenged exactly when the share fell by more than 5 |
| Customers.ExcelShareChain | utils/excelParser.ts:171-181 | each quarter reads its own aliases, falling back to the quarter before, and the baseline falls back to its constant |
| Customers.ExcelShare | utils/excelParser.ts:183-189 | an Excel share carries its period label, and its cosmax and kolmar are never 0 |
| Customers.ParseCustomerRowExcel | utils/excelParser.ts:164-209 | an Excel customer has a name, five labelled periods with non-zero cosmax and kolmar shares, and the id `c-idx` |
| Customers.ExcelFields | utils/excelParser.ts:164-209 | an Excel customer's name; its revenue rounded, or 0 when NaN; its growth to one decimal, or 0 when NaN; its status from the growth and the change from baseline to fourth-quarter cosmax share |
| Customers.ExcelCarryForward | utils/excelParser.ts:172-181 | quarters without their own cell carry the baseline forward |
| Customers.ExcelDefaults | utils/excelParser.ts:171-189 | an Excel row without share cells gets 30 / 25 / 45 in every period |
| Customers.ExcelShareAt | utils/excelParser.ts:183-189 | each Excel period is built from the carried cosmax and kolmar values of that period |
| Customers.SumWithin | utils/excelParser.ts:316 | a sum of values in [lo, hi] lies between the count times lo and the count times hi |
| Customers.CalculateAggregateShare | utils/excelParser.ts:312-325 | no customers give no shares; otherwise one share per period of the first customer, with its label |
| Customers.PeriodMean | utils/excelParser.ts:315-323 | one period's aggregate: its label, the mean cosmax and kolmar shares and the rest of 100, each to within 0.05 |
| Customers.AggregateAt | utils/excelParser.ts:315-321 | each period's cosmax and kolmar are the means over all customers, to one decimal |
| Customers.CosmaxMeanWithin | utils/excelParser.ts:316-320 | the rounded mean cosmax share lies within the customers' range, up to 0.05 |
| Customers.KolmarMeanWithin | utils/excelParser.ts:317-321 | the rounded mean kolmar share lies within the customers' range, up to 0.05 |
| Customers.AggregateWithinRange | utils/excelParser.ts:312-325 | when all customers' shares lie in [lo, hi], so do the aggregate's, up to the rounding |
| Customers.AggregateAddsUp | utils/excelParser.ts:318-323 | the three parts of an aggregate share add up to 100, up to 0.15 of rounding |
| Customers.ParsedCustomers | utils/excelParser.ts:344-346 | exactly the rows the row parser accepts, parsed with their row index, in row order; each with a name and five share periods |
| Customers.SomeCustomerParsed | utils/excelParser.ts:344-348 | some customer is parsed exactly when some row has a name |
| Customers.SheetUpload | utils/excelParser.ts:344-355 | an upload exactly when some row has a name; then the parsed customers and their aggregate share |
| Customers.ParseCustomerCSV | utils/excelParser.ts:327-365 | a file name without a category is rejected with the message naming the accepted tokens; a read failure is passed on; otherwise the file's category is present exactly when some row has a name, with that sheet's upload, and no other category |
| Customers.CustomerSheet | utils/excelParser.ts:153-227 | a sheet counts exactly when its name resolves to a category and some row has a name; it then gives that category and its upload |
| Customers.ParseCustomerSheets | utils/excelParser.ts:151-230 | a category is present exactly when some sheet gives it, with the upload of the last such sheet, never without customers |
| Customers.ParseCustomerExcel | utils/excelParser.ts:142-239 | a read failure is passed on; otherwise each category maps to the upload of its last sheet |
| Customers.LastCustomerSheetWins | utils/excelParser.ts:225-227 | a later sheet of a category replaces an earlier one, and an empty or unknown sheet changes nothing |
| SalesFile.ParseSalesRow | utils/excelParser.ts:405-414 | no row exactly when the period text is empty; otherwise that period, the customer or `_total_`, and the revenue read by `parseFloat` with NaN as 0 |
| SalesFile.SalesRowDefaults | utils/excelParser.ts:405-412 | a row is dropped exactly when no period cell is truthy; with no customer cell the customer is `_total_`, with no revenue cell the revenue is 0 |
| SalesFile.ParseSalesSheet | utils/excelParser.ts:395-416 | exactly the rows the row parser accepts, parsed, in sheet order; each with a period |
| SalesFile.RowMonth | utils/excelParser.ts:422-423 | a row's month is the as-written period parser's, when that is a month other than 0 |
| SalesFile.CorrectedRowMonth | utils/excelParser.ts:383-393 | the same with the corrected period parser |
| SalesFile.MonthlyTotals | utils/excelParser.ts:418-429 | every month with a total is some row's month |
| SalesFile.SameReadingSameTotals | utils/excelParser.ts:418-456 | two period readings that agree on every row give the same monthly and per-customer monthly totals |
| SalesFile.ReadingsAgreeWithoutDecimalMonths | utils/excelParser.ts:373-393 | when no period has a decimal-branch month, the as-written and the corrected reading give the same file figures |
| SalesFile.JanuaryRowCountsAsOctober | utils/excelParser.ts:418-429 | as written, a `2026.01` row adds to October's total; once corrected, to January's |
| SalesFile.AggregateMonthlyRevenue | utils/excelParser.ts:418-429 | the loop computes the monthly totals of the rows, in order |
| SalesFile.MonthlyTotalsMeaning | utils/excelParser.ts:418-429 | a month has a total exactly when some row resolves to it, and the total is the sum of those rows' revenue |
| SalesFile.MonthlyTotalsSnoc | utils/excelParser.ts:421-426 | one more row adds its revenue to its month, or changes nothing when it has no month |
| SalesFile.NoMonthZero | utils/excelParser.ts:423 | a period that resolves to 0 counts towards no month |
| SalesFile.AggregateCustomerRevenue | utils/excelParser.ts:431-439 | the loop computes the per-customer totals of the rows |
| SalesFile.CustomerTotalsMeaning | utils/excelParser.ts:431-439 | a customer has a total exactly when some row names it, and the total is the sum of its rows |
| SalesFile.AggregateCustomerRevenueByMonth | utils/excelParser.ts:441-456 | the loop computes the per-customer monthly totals of the rows |
| SalesFile.CustomerMonthlyMeaning | utils/excelParser.ts:441-456 | a customer has a monthly map exactly when one of its rows has a month, and the map is the monthly totals of its rows |
| SalesFile.DetectFileType | utils/excelParser.ts:467-487 | `25` in the name means last year; plan exactly when `26` and a plan word are in the name without `25`; this year exactly when `26` is there without a plan word, or the name has neither year and the first period starts with `2026` |
| SalesFile.NameWith25IsLastYear | utils/excelParser.ts:470-475 | a name containing `25` is a last-year file |
| SalesFile.BuildPerformance | utils/excelParser.ts:523-534 | twelve entries, the i-th the entry of month i + 1 |
| SalesFile.MonthEntry | utils/excelParser.ts:523-534 | a month's entry: the last-year column only for last-year files, the target only for plan files, an actual exactly for this-year files with a total in that month, and all zero for a month without a total |
| SalesFile.HundredMillions | utils/excelParser.ts:538 | the number of 100 millions, rounded to within half a unit |
| SalesFile.ConvertCustomerRevenue | utils/excelParser.ts:536-539 | every customer total is converted to whole units of 100 million |
| SalesFile.ConvertMonthMap | utils/excelParser.ts:543-546 | every monthly total is converted to whole units of 100 million |
| SalesFile.ConvertCustomerRevenueByMonth | utils/excelParser.ts:541-548 | every customer's monthly map is converted |
| SalesFile.ReadSalesRows | utils/excelParser.ts:507-551 | the file's type, performance and converted totals from its rows |
| SalesFile.SalesFileSpec | utils/excelParser.ts:507-551 | the detected file type, twelve months in order, and no customer totals for a plan file |
| SalesFile.SalesFileResult | utils/excelParser.ts:489-562 | no category in the name gives the message naming the accepted tokens; a read failure is passed on; a success maps exactly the file's category |
| SalesFile.SalesFileShape | utils/excelParser.ts:513-551 | twelve months in order; a last-year file gives each month's total / 10^8 as last year's actual, a plan file its total / 100 as the target, a this-year file its total / 10^8 as the actual exactly for months with rows; the other columns are 0; plan files carry no customer totals; other files have one total per customer named, within 0.5 of its sum / 10^8, and a monthly map exactly for the customers with a dated row, holding that customer's monthly sums each rounded in units of 10^8 |
| SalesFile.ParsePerformanceFromSalesFile | utils/excelParser.ts:489-562 | a name without a category is rejected with the message naming the accepted tokens; a read failure is passed on; otherwise exactly the file's category maps to its figures, with periods read by the as-written parser |
| Merge.YtdMonths | utils/excelParser.ts:583 | the months whose this-year actual is reported, and no others |
| Merge.MaxOrZero | utils/excelParser.ts:584 | the largest of the months, or 0 when there is none |
| Merge.SumElapsedMonths | utils/excelParser.ts:598-601 | the loop sums months 1..maxYtdMonth, a missing month counting 0 |
| Merge.LastYearYtd | utils/excelParser.ts:594-604 | last year's revenue: the sum over the elapsed months when the customer has a monthly map and months have elapsed, else its yearly total, else 0; maps are looked up by own key only (see Left out) |
| Merge.SumIgnoresLaterMonths | utils/excelParser.ts:599-601 | months after the last elapsed one do not count towards last year |
| Merge.SumMonthsMonotone | utils/excelParser.ts:599-601 | with non-negative months, more elapsed months never give less |
| Merge.Growth | utils/excelParser.ts:606-609 | 0 unless both revenues are positive; otherwise the percentage change to within 0.05 |
| Merge.ZeroShares | utils/excelParser.ts:617-623 | a rebuilt customer has the five periods with all shares 0 |
| Merge.Rebuilt | utils/excelParser.ts:606-626 | a rebuilt customer: its id and name, this year's total or 0 (own keys only, see Left out), last year's revenue, growth 0 unless both are positive and else the percentage change, zero shares, Stable, no products |
| Merge.RebuildCustomer | utils/excelParser.ts:594-626 | one customer from its this-year total and its last-year revenue over the elapsed months |
| Merge.BuildCustomers | utils/excelParser.ts:592-627 | one customer per name of either year, the k-th with id `c-k`, each with its figures from the totals |
| Merge.SortedKeepsRebuilt | utils/excelParser.ts:629 | sorting keeps one customer per name with its figures and the ids `c-0` .. `c-(n-1)`, and orders by this-year revenue |
| Merge.SortedKeepsIds | utils/excelParser.ts:611-629 | after the sort every id `c-k` with k below the length is still carried by some customer, and no two customers share an id when the maker is injective |
| Merge.CustomerIdInjective | utils/excelParser.ts:611 | distinct positions give distinct ids `c-k` |
| Merge.SortedByYtd | utils/excelParser.ts:629 | the sort comparator orders the customers by non-increasing this-year revenue |
| Merge.RebuildCustomers | utils/excelParser.ts:587-629 | one customer per name of either year, with the totals' revenues and growth, the ids exactly `c-0` .. `c-(n-1)` (distinct for an injective maker such as `c-k`), sorted by non-increasing this-year revenue |
| Merge.MergeCategory | utils/excelParser.ts:575-638 | one category's entry: the uploaded performance and aggregate share, or the existing ones; customers rebuilt when this-year totals arrived, else the uploaded or existing list |
| Merge.PerformanceFor | utils/excelParser.ts:582 | the uploaded performance of the category, or the existing one |
| Merge.MergeEach | utils/excelParser.ts:574-639 | the loop writes each category's merged entry under its key |
| Merge.OverlayElsewhere | utils/excelParser.ts:572 | keys other than the category names keep the dataset's entries |
| Merge.OverlayAt | utils/excelParser.ts:633 | each category's key holds that category's merged entry |
| Merge.OverlayCategories | utils/excelParser.ts:572-641 | after the loop: all dataset keys plus the four category keys, the other keys unchanged, each category merged |
| Merge.MergeWith | utils/excelParser.ts:564-642 | the merge for any id maker: the dataset's keys plus the four categories, the other keys untouched, each category merged |
| Merge.MergeWithExistingData | utils/excelParser.ts:564-642 | the dataset's keys plus the four categories, the other keys untouched, each category merged from its entry or the default one |
| Batch.FirstSheet | utils/excelParser.ts:506 | the first sheet of a decoded workbook, or its read error |
| Batch.ParsedWith | components/ExcelUploader.tsx:38-40 | each file is parsed, in file order |
| Batch.AddSalesFilePerformance | components/ExcelUploader.tsx:42-43 | a file's performance replaces each of its categories', and the others stay |
| Batch.AddSalesFileLastYear | components/ExcelUploader.tsx:45-47 | only a last-year file replaces a category's last-year totals and monthly totals |
| Batch.AddSalesFileThisYear | components/ExcelUploader.tsx:48-49 | only a this-year file replaces a category's this-year totals |
| Batch.AddSalesFileData | components/ExcelUploader.tsx:42-51 | the loop over a file's categories folds the whole file in |
| Batch.FoldStops | components/ExcelUploader.tsx:38-62 | once a file fails, the rest of the batch is not used and the batch fails with that error |
| Batch.AllOrNothing | components/ExcelUploader.tsx:32-62 | the batch fails exactly when some file fails, and then with the first failure's message |
| Batch.FoldOk | components/ExcelUploader.tsx:32-62 | the batch succeeds only when every file succeeds |
| Batch.FoldSalesFiles | components/ExcelUploader.tsx:38-52 | the loop is the fold of the parsed files, stopping at the first failure |
| Batch.HandlePerformanceUpload | components/ExcelUploader.tsx:26-62 | no files is a no-op; otherwise the performance fold of the sales files, read with the as-written period parser, or its failure |
| Batch.PerformanceBatch | components/ExcelUploader.tsx:26-62 | nothing exactly when there are no files; a failure exactly when some file fails to parse |
| Batch.SalesFileOf | components/ExcelUploader.tsx:40 | no category in the name gives the message naming the accepted tokens; a read failure is passed on; a success comes from a workbook with a sheet and maps exactly the file's category |
| Batch.PerformanceLayered | components/ExcelUploader.tsx:38-52 | the batch's performance is the files' performances laid over each other in order |
| Batch.LastYearLayered | components/ExcelUploader.tsx:45-47 | the batch's last-year totals are the last-year files' totals laid over each other in order |
| Batch.LastYearByMonthLayered | components/ExcelUploader.tsx:45-47 | likewise for the monthly last-year totals |
| Batch.ThisYearLayered | components/ExcelUploader.tsx:48-49 | the batch's this-year totals are the this-year files' totals laid over each other in order |
| Batch.LastPerformanceWins | components/ExcelUploader.tsx:42-43 | a category has performance exactly when some file gives it, and it is the last such file's |
| Batch.LastYearFromLastYearFiles | components/ExcelUploader.tsx:45-47 | a category has last-year totals exactly when some last-year file gives it, and they are the last such file's |
| Batch.Spread | components/ExcelUploader.tsx:82 | `{ ...merged, ...data }`: the keys of both, and the later file's entry wins |
| Batch.FoldCustomerFiles | components/ExcelUploader.tsx:78-83 | the loop is the spread fold of the parsed files, stopping at the first failure |
| Batch.HandleCustomerUpload | components/ExcelUploader.tsx:69-93 | no files is a no-op; otherwise the spread of the customer files, each read by the CSV or Excel parser, or the failure |
| Batch.CustomerBatch | components/ExcelUploader.tsx:69-93 | nothing exactly when there are no files; a failure exactly when some file fails to parse |
| Batch.CustomerFileOf | components/ExcelUploader.tsx:80-81 | a CSV file without a category is rejected with the message naming the accepted tokens; a CSV success holds at most its file's category; a read failure is passed on |
| Batch.CustomerUploadLayers | components/ExcelUploader.tsx:78-83 | the batch's shares are the files' shares laid over each other in order |
| Batch.LastCustomersWin | components/ExcelUploader.tsx:82 | a category is present exactly when some file gives it, with the last such file's customers and shares |
| Batch.LastLayerWins | components/ExcelUploader.tsx:42-49 | in maps laid over each other, a category is present exactly when some map has it, with the last such map's value |
| Batch.CsvSuffixIgnoresCase | components/ExcelUploader.tsx:80 | `.CSV` and `.csv` both select the CSV parser |
| Export.EscapeCsv | utils/exportData.ts:3-10 | null is empty; a value without a comma, quote or newline is kept; any other value is quoted |
| Export.ReadEscaped | utils/exportData.ts:3-10 | an escaped value followed by a separator reads back as the value's text, leaving the separator |
| Export.EscapeRoundTrip | utils/exportData.ts:3-10 | every escaped value reads back as its text |
| Export.LineRoundTrip | utils/exportData.ts:21-28 | a line of escaped cells joined by commas reads back as exactly those cells |
| Export.PerformanceCsv | utils/exportData.ts:12-32 | the byte order mark, then the header line and one line per month, joined by newlines |
| Export.PerformanceLines | utils/exportData.ts:14-29 | one line per month, the i-th of month i's cells |
| Export.JoinStartsWithFirst | utils/exportData.ts:32 | joined lines start with the first of them |
| Export.PerformanceCells | utils/exportData.ts:21-28 | one cell per header column |
| Export.PerformanceLineReads | utils/exportData.ts:14-29 | a month line reads back as six fields: the month label, the three figures (an unreported actual empty), achievement and growth |
| Export.Fixed1NotEmpty | utils/exportData.ts:16 | `toFixed(1)` never gives the empty text |
| Export.AchievementFilled | utils/exportData.ts:15-17 | the achievement is filled exactly when the actual is reported and the target is positive |
| Export.GrowthFilled | utils/exportData.ts:18-20 | the growth is filled exactly when the actual is reported and last year's actual is positive |
| Export.CustomerCells | utils/exportData.ts:39-46 | one cell per header column |
| Export.CustomerLines | utils/exportData.ts:38-47 | one line per customer |
| Export.CustomersNumbered | utils/exportData.ts:38-47 | the i-th customer line reads back as rank i + 1, the name, the three figures and the status |
| Export.CustomerCsv | utils/exportData.ts:36-50 | the byte order mark, then the header line and one line per customer, joined by newlines |
| Export.MonthCells | utils/exportData.ts:61 | four cells per month |
| Export.CustomerRowCells | utils/exportData.ts:68 | five cells per customer |
| Export.FacilitatorCells | utils/exportData.ts:75 | two cells per facilitator |
| Export.MonthLines | utils/exportData.ts:60-62 | one line per month |
| Export.CustomerRowLines | utils/exportData.ts:67-69 | one line per customer |
| Export.FacilitatorLines | utils/exportData.ts:74-76 | one line per facilitator |
| Export.PerformanceSection | utils/exportData.ts:58-62 | a title, a header and one line per month |
| Export.CustomerSection | utils/exportData.ts:64-69 | an empty line, a title, a header and one line per customer |
| Export.FacilitatorSection | utils/exportData.ts:71-76 | an empty line, a title, a header and one line per facilitator |
| Export.FullSections | utils/exportData.ts:55-77 | eight fixed lines plus one per month, customer and facilitator |
| Export.PushMonths | utils/exportData.ts:60-62 | the loop appends the month lines |
| Export.PushCustomers | utils/exportData.ts:67-69 | the loop appends the customer lines |
| Export.PushFacilitators | utils/exportData.ts:74-76 | the loop appends the facilitator lines |
| Export.ExportFullDataCsv | utils/exportData.ts:54-80 | the byte order mark, then the three sections joined by newlines |
| Export.FullSectionsLayout | utils/exportData.ts:58-73 | each section starts with its category title, and the second and third follow an empty line |
| Export.MonthLineReads | utils/exportData.ts:61 | a month line reads back as the label and its three figures |
| Export.FullMonthRead | utils/exportData.ts:58-62 | the i-th month line of the full export reads back as that month |
| Export.CustomerRowReads | utils/exportData.ts:68 | a customer line reads back as its name, figures and status |
| Export.FullCustomerRead | utils/exportData.ts:64-69 | the j-th customer line of the full export reads back as that customer |
| Export.FullFacilitatorRead | utils/exportData.ts:71-76 | the k-th facilitator line reads back as its role and name |

## Left out

- File reading (`FileReader`) and workbook decoding (`XLSX.read`, `sheet_to_json`) are not modelled. A file is its name and its decoded sheets, or a decoding error. The error message of a failed read is not modelled.
- A workbook with no sheet at all fails with a fixed message of the model's own. In the source, reading the first sheet of such a workbook throws.
- Floating point is not modelled; numbers are exact reals. `parseFloat` reads an optional sign and a decimal prefix, but not exponents or `Infinity`.
- `String(number)` is not modelled:
  - a numeric cell carries the text it prints as;
  - the CSV export takes number formatting as a parameter `show`.
- `toLowerCase` is modelled on ASCII letters only. Hangul has no case.
- Iteration order is not modelled. This covers `Object.entries` over a parsed file and `Map` or `Set` iteration in the conversions and the merge. Each loop picks an unvisited key, and its contract does not depend on the order.
- `Array.prototype.sort` is modelled as a stable insertion sort. The ECMAScript standard requires a stable sort, and the model proves stability.
- The default dataset `MOCK_DATA` is a parameter of the merge. Its contents are not modelled.
- The revenue maps arrive as `Map` objects in the uploader and are indexed as records in the merge. Both are Dafny maps.
- Merge.LastYearYtd: own keys only. The merge indexes `lastYearByMonthMap[customerName]` and `lastYearMap[customerName]` as plain records (utils/excelParser.ts:596-603), so a customer named like an inherited `Object.prototype` member (`constructor`, `toString`, ...) that is not an own key finds that member there. For `constructor` with months elapsed, the source reads `Object` as the monthly map and sums `Object[m] || 0` to 0; the model treats the name as absent and gives the yearly total or 0.
- Merge.Rebuilt: own keys only. `thisYearMap[customerName] || 0` (utils/excelParser.ts:594) finds an inherited member for such a name, so a name present only in last year's map (`toString`, say) gets a function as its this-year revenue, and NaN revenue and growth follow; the model gives 0. Customer names are modelled as plain text, and prototype lookup is not part of the model.
- Console logging, `alert`, the status indicator, the two-second timers and the reset of the file input are not modelled. The same goes for `onPerformanceUpload`, `onCustomerUpload` and `downloadFile`: the handlers return what they would hand over, and the exports return the text they would download.
- The loop methods take the file parser as a parameter. The handler methods pass the model's parsers.
- Customers.ParseCustomerRow: the contract covers the fields that hold on every row. `revenueYTD`, `growth`, the shares and the status are stated by `CsvFields`, `others` by `CsvOthers`, and the status rule by `CsvStatus`.
- Customers.ParseCustomerRowExcel: the contract covers the shape. `revenueYTD`, `growth` and the status are stated by `ExcelFields`, the shares by `ExcelShareAt` and `ExcelDefaults`.
- Customers.CalculateAggregateShare: the contract covers the shape. The values are stated by `PeriodMean`, `AggregateAt`, `AggregateWithinRange` and `AggregateAddsUp`.
- Js.ParseFloat has no contract of its own. `ParseFloatDigits` states what it gives for a run of digits, and `NoDigitsNaN` that it gives NaN for text without a digit.
- Batch.Layers has no contract of its own. What it computes is stated by `LastLayerWins`.
- Batch.IsCsv is a plain test of the name's ending. `CsvSuffixIgnoresCase` states that the test ignores case.
- Merge.MergedCategory is the specification predicate of the merge of one category. The methods `MergeCategory`, `MergeWith` and `MergeWithExistingData` are proved against it.
- The category table is an ordered list of aliases, not a JavaScript object. In the source, `CATEGORY_MAP[name]` (utils/excelParser.ts:67) also finds inherited keys such as `constructor`, `toString` or `__proto__`. A sheet named like that gets a non-category key there, while `AliasLookup` and `NormalizeCategory` give no category.
- Boolean cells are modelled (`Bool`). Their text is `true` or `false`, as `String(true)` gives. Dates and other cell types that `sheet_to_json` can produce are not modelled.

## Findings

| source | as written | input that shows it | evidently intended | confidence | as-written member | corrected member |
|---|---|---|---|---|---|---|
| utils/excelParser.ts:376-380 | a period with a point is first read as a number, and its fraction times 1000 is taken as the month | `"2026.01"` gives 0.01 × 1000 = 10, so January is counted as October | `"2026.01"` is month 1, as the `YYYY.NNN` pattern on lines 383-386 reads it | not executed; the arithmetic is exact, not a floating-point effect | PeriodParser.JanuaryReadAsOctober | PeriodParser.YearDotMonth |

The as-written parser is `PeriodParser.ParsePeriodToMonthAsWritten`. The
sales aggregation uses it, through `SalesFile.RowMonth`, so the modelled
figures are those the code computes (`SalesFile.JanuaryRowCountsAsOctober`).
The corrected parser, `PeriodParser.ParsePeriodToMonth`, tries the `YYYY.NNN`
pattern before the decimal reading. `SalesFile.CorrectedRowMonth` plugs it
into the same aggregation. `SalesFile.ReadingsAgreeWithoutDecimalMonths`
shows that the two readings give the same figures whenever no period has a
decimal-branch month.

/** mergeWithExistingData (utils/excelParser.ts): the uploaded performance,
    share files and revenue totals folded into the dataset, category by category. */
module Merge {
  import opened Types
  import opened Js
  import opened Sorting
  import opened Customers

  /** Revenue totals of one category by customer name, and by name and month. */
  type Totals = map<string, real>
  type MonthlyTotals = map<string, map<int, real>>

  /** What one merge is given besides the dataset; a category absent from a map was not uploaded. */
  datatype Uploads = Uploads(
    performance: map<Category, seq<MonthlyPerformance>>,
    customers: map<Category, ShareUpload>,
    lastYear: map<Category, Totals>,
    thisYear: map<Category, Totals>,
    lastYearByMonth: map<Category, MonthlyTotals>)

  // ---------------------------------------------------------------- the elapsed months

  /** The months of perf whose this-year actual is reported. */
  function YtdMonths(perf: seq<MonthlyPerformance>): (ms: seq<int>)
    ensures forall m :: m in ms <==> exists i :: 0 <= i < |perf| && perf[i].thisYearActual.Some? && perf[i].month == m
  {
    if perf == [] then []
    else
      var front := perf[..|perf| - 1];
      var last := perf[|perf| - 1];
      assert forall i :: 0 <= i < |front| ==> front[i] == perf[i];
      YtdMonths(front) + (if last.thisYearActual.Some? then [last.month] else [])
  }

  /** The largest of ms, or 0 when there is none (Math.max of the spread list). */
  function MaxOrZero(ms: seq<int>): (r: int)
    ensures ms == [] ==> r == 0
    ensures ms != [] ==> r in ms && forall m :: m in ms ==> m <= r
  {
    if ms == [] then 0
    else if |ms| == 1 then ms[0]
    else
      var rest := MaxOrZero(ms[1..]);
      assert forall m :: m in ms ==> m == ms[0] || m in ms[1..];
      if ms[0] >= rest then ms[0] else rest
  }

  /** maxYtdMonth: the last month with a reported actual. */
  function MaxYtdMonth(perf: seq<MonthlyPerformance>): int
  {
    MaxOrZero(YtdMonths(perf))
  }

  // ---------------------------------------------------------------- one rebuilt customer

  /** `monthly[m] || 0`. */
  function MonthValue(monthly: map<int, real>, m: int): real
  {
    if m in monthly then monthly[m] else 0.0
  }

  /** The revenue of months 1..n. */
  function SumMonths(monthly: map<int, real>, n: int): real
  {
    if n <= 0 then 0.0 else SumMonths(monthly, n - 1) + MonthValue(monthly, n)
  }

  /** The loop that sums a customer's last-year months up to the last elapsed one. */
  method SumElapsedMonths(monthly: map<int, real>, maxYtdMonth: int) returns (total: real)
    ensures total == SumMonths(monthly, maxYtdMonth)
  {
    total := 0.0;
    var m := 1;
    while m <= maxYtdMonth
      invariant 1 <= m
      invariant m <= if maxYtdMonth >= 0 then maxYtdMonth + 1 else 1
      invariant total == SumMonths(monthly, m - 1)
    {
      total := total + MonthValue(monthly, m);
      m := m + 1;
    }
  }

  /** `map[name] || 0`. */
  function TotalOf(totals: Totals, name: string): real
  {
    if name in totals then totals[name] else 0.0
  }

  /** What a category's customers are rebuilt from: this year's and last year's
      totals, last year's monthly totals and the last elapsed month. */
  datatype Sources = Sources(thisYear: Totals, lastYear: Totals, byMonth: MonthlyTotals, maxYtdMonth: int)

  /** The names of either year's totals. */
  function Names(src: Sources): set<string>
  {
    src.thisYear.Keys + src.lastYear.Keys
  }

  /** The last-year revenue a customer is compared against: the elapsed months
      when the customer has a monthly map and some month has elapsed, else its
      whole last-year total. */
  function LastYearYtd(name: string, src: Sources): (r: real)
    ensures name in src.byMonth && src.maxYtdMonth > 0 ==> r == SumMonths(src.byMonth[name], src.maxYtdMonth)
    ensures name !in src.byMonth && name !in src.lastYear ==> r == 0.0
    ensures (name !in src.byMonth || src.maxYtdMonth <= 0) && name in src.lastYear ==> r == src.lastYear[name]
  {
    if name in src.byMonth && src.maxYtdMonth > 0 then SumMonths(src.byMonth[name], src.maxYtdMonth)
    else TotalOf(src.lastYear, name)
  }

  /** Growth in percent to one decimal, 0 unless both revenues are positive. */
  function Growth(thisYear: real, lastYear: real): (g: real)
    ensures thisYear <= 0.0 || lastYear <= 0.0 ==> g == 0.0
    ensures thisYear > 0.0 && lastYear > 0.0 ==> -0.05 <= g - (thisYear - lastYear) / lastYear * 100.0 <= 0.05
  {
    if thisYear > 0.0 && lastYear > 0.0 then Round1((thisYear - lastYear) / lastYear * 100.0) else 0.0
  }

  /** The five periods, all shares zero. */
  function ZeroShares(): (s: seq<MarketShare>)
    ensures |s| == 5 && forall i :: 0 <= i < 5 ==> s[i] == MarketShare(SharePeriods[i], 0.0, 0.0, 0.0)
  {
    seq(5, i requires 0 <= i < 5 => MarketShare(SharePeriods[i], 0.0, 0.0, 0.0))
  }

  /** The customer rebuilt from the totals, given its last-year revenue. */
  function Rebuilt(id: string, name: string, thisYear: Totals, lastYearYtd: real): (c: CustomerData)
    ensures c.id == id && c.name == name && c.revenueLastYear == lastYearYtd
    ensures c.revenueYTD == (if name in thisYear then thisYear[name] else 0.0)
    ensures c.revenueYTD <= 0.0 || lastYearYtd <= 0.0 ==> c.growth == 0.0
    ensures c.revenueYTD > 0.0 && lastYearYtd > 0.0 ==>
              -0.05 <= c.growth - (c.revenueYTD - lastYearYtd) / lastYearYtd * 100.0 <= 0.05
    ensures |c.shares| == 5 && forall i :: 0 <= i < 5 ==> c.shares[i] == MarketShare(SharePeriods[i], 0.0, 0.0, 0.0)
    ensures c.status == Stable && c.products == []
  {
    var rev := TotalOf(thisYear, name);
    CustomerData(id, name, lastYearYtd, rev, Growth(rev, lastYearYtd), ZeroShares(), Stable, [])
  }

  /** The body of the loop over customer names. */
  method RebuildCustomer(id: string, name: string, src: Sources) returns (c: CustomerData)
    ensures c == Rebuilt(id, name, src.thisYear, LastYearYtd(name, src))
  {
    var lastYearRevYtd := 0.0;
    if name in src.byMonth && src.maxYtdMonth > 0 {
      lastYearRevYtd := SumElapsedMonths(src.byMonth[name], src.maxYtdMonth);
    } else {
      lastYearRevYtd := TotalOf(src.lastYear, name);
    }
    c := Rebuilt(id, name, src.thisYear, lastYearRevYtd);
  }

  // ---------------------------------------------------------------- the rebuilt list

  /** The id of the k-th customer pushed. The merge uses CustomerId ("c-" and k);
      the list is stated for any such maker so that its proof does not unfold
      the printing of k. */
  type IdMaker = nat -> string

  /** The sort key of `(a, b) => b.revenueYTD - a.revenueYTD`. */
  function NegYtd(c: CustomerData): real
  {
    -c.revenueYTD
  }

  /** The customer's id is the id of some position below n. */
  ghost predicate IdBelow(c: CustomerData, n: nat, idOf: IdMaker)
  {
    exists k: nat :: k < n && c.id == idOf(k)
  }

  /** A customer whose fields are those its name gets from the totals. */
  predicate FromTotals(c: CustomerData, src: Sources)
  {
    c == Rebuilt(c.id, c.name, src.thisYear, LastYearYtd(c.name, src))
  }

  /** The list built so far: an entry for each name in done and for no other,
      the k-th with id c-k, each from the totals. */
  ghost predicate BuiltFor(built: seq<CustomerData>, done: set<string>, src: Sources, idOf: IdMaker)
  {
    (forall n :: n in done ==> exists i :: 0 <= i < |built| && built[i].name == n)
    && (forall i :: 0 <= i < |built| ==> built[i].name in done)
    && (forall i :: 0 <= i < |built| ==> built[i].id == idOf(i))
    && (forall i :: 0 <= i < |built| ==> FromTotals(built[i], src))
  }

  /** A maker that never gives two positions the same id. */
  ghost predicate Injective(idOf: IdMaker)
  {
    forall a: nat, b: nat :: idOf(a) == idOf(b) ==> a == b
  }

  /** Every id c-k with k below the length is carried by some entry, and no two
      entries share an id when the maker is injective. */
  ghost predicate IdsExactly(cs: seq<CustomerData>, idOf: IdMaker)
  {
    (forall k: nat :: k < |cs| ==> exists i :: 0 <= i < |cs| && cs[i].id == idOf(k))
    && (Injective(idOf) ==> forall i, j :: 0 <= i < j < |cs| ==> cs[i].id != cs[j].id)
  }

  /** A list rebuilt from the totals: one entry per name of either map, each with
      the revenues and growth of its name; the ids are exactly c-0 .. c-(n-1),
      one per entry (distinct whenever the maker is); sorted by non-increasing
      this-year revenue. */
  ghost predicate RebuiltList(cs: seq<CustomerData>, src: Sources, idOf: IdMaker)
  {
    |cs| == |Names(src)|
    && (forall n :: n in Names(src) ==> exists i :: 0 <= i < |cs| && cs[i].name == n)
    && (forall i :: 0 <= i < |cs| ==> cs[i].name in Names(src))
    && (forall i :: 0 <= i < |cs| ==> IdBelow(cs[i], |cs|, idOf))
    && IdsExactly(cs, idOf)
    && (forall i :: 0 <= i < |cs| ==> FromTotals(cs[i], src))
    && (forall i, j :: 0 <= i < j < |cs| ==> cs[i].revenueYTD >= cs[j].revenueYTD)
  }

  /** The loop over the union of names (in some order), then the sort. */
  method RebuildCustomers(src: Sources, idOf: IdMaker) returns (customers: seq<CustomerData>)
    ensures RebuiltList(customers, src, idOf)
  {
    var built := BuildCustomers(src, idOf);
    customers := SortBy(built, NegYtd);
    SortedKeepsRebuilt(built, customers, src, idOf);
  }

  /** The loop that pushes one customer per name, ids in push order. */
  method BuildCustomers(src: Sources, idOf: IdMaker) returns (built: seq<CustomerData>)
    ensures |built| == |Names(src)|
    ensures BuiltFor(built, Names(src), src, idOf)
  {
    var names := Names(src);
    built := [];
    ghost var order: seq<string> := [];
    var todo := names;
    while todo != {}
      invariant todo <= names
      invariant |order| + |todo| == |names|
      invariant forall n :: n in order <==> n in names - todo
      invariant built == RebuiltSeq(order, src, idOf)
      decreases |todo|
    {
      var name := Pick(todo);
      var c := RebuildCustomer(idOf(|built|), name, src);
      assert (order + [name])[..|order|] == order;
      built := built + [c];
      order := order + [name];
      todo := todo - {name};
    }
    RebuiltSeqFor(order, names, src, idOf);
  }

  /** The customers pushed for the names in order. */
  function RebuiltSeq(order: seq<string>, src: Sources, idOf: IdMaker): (r: seq<CustomerData>)
    ensures |r| == |order|
  {
    if order == [] then []
    else
      var n := |order| - 1;
      RebuiltSeq(order[..n], src, idOf) + [Rebuilt(idOf(n), order[n], src.thisYear, LastYearYtd(order[n], src))]
  }

  /** What the pushed list says of each name. */
  lemma {:induction false} RebuiltSeqAt(order: seq<string>, src: Sources, idOf: IdMaker, i: int)
    requires 0 <= i < |order|
    ensures RebuiltSeq(order, src, idOf)[i] == Rebuilt(idOf(i), order[i], src.thisYear, LastYearYtd(order[i], src))
  {
    var n := |order| - 1;
    if i < n {
      RebuiltSeqAt(order[..n], src, idOf, i);
    }
  }

  lemma RebuiltSeqFor(order: seq<string>, done: set<string>, src: Sources, idOf: IdMaker)
    requires forall n :: n in order <==> n in done
    ensures BuiltFor(RebuiltSeq(order, src, idOf), done, src, idOf)
  {
    var r := RebuiltSeq(order, src, idOf);
    forall i | 0 <= i < |r|
      ensures r[i].name in done && r[i].id == idOf(i) && FromTotals(r[i], src)
    {
      RebuiltSeqAt(order, src, idOf, i);
    }
    forall n | n in done
      ensures exists i :: 0 <= i < |r| && r[i].name == n
    {
      var i :| 0 <= i < |order| && order[i] == n;
      RebuiltSeqAt(order, src, idOf, i);
    }
  }

  /** Sorting the built list keeps what is said of each entry and orders the list. */
  lemma SortedKeepsRebuilt(built: seq<CustomerData>, cs: seq<CustomerData>, src: Sources, idOf: IdMaker)
    requires cs == SortBy(built, NegYtd)
    requires |built| == |Names(src)|
    requires BuiltFor(built, Names(src), src, idOf)
    ensures RebuiltList(cs, src, idOf)
  {
    SortedKeepsNames(built, cs, Names(src));
    SortedKeepsEntries(built, cs, src, idOf);
    SortedKeepsIds(built, cs, idOf);
    SortedByYtd(cs);
  }

  /** Sorting keeps every id c-k of the built list, and keeps them distinct. */
  lemma SortedKeepsIds(built: seq<CustomerData>, cs: seq<CustomerData>, idOf: IdMaker)
    requires multiset(cs) == multiset(built) && |cs| == |built|
    requires forall i :: 0 <= i < |built| ==> built[i].id == idOf(i)
    ensures IdsExactly(cs, idOf)
  {
    forall k: nat | k < |cs|
      ensures exists i :: 0 <= i < |cs| && cs[i].id == idOf(k)
    {
      assert built[k] in multiset(cs);
      var i :| 0 <= i < |cs| && cs[i] == built[k];
    }
    if Injective(idOf) {
      forall i, j | 0 <= i < j < |cs|
        ensures cs[i].id != cs[j].id
      {
        if cs[i].id == cs[j].id {
          assert cs[i] in multiset(built);
          var a :| 0 <= a < |built| && built[a] == cs[i];
          assert cs[j] in multiset(built);
          var b :| 0 <= b < |built| && built[b] == cs[j];
          assert a == b;
          CountTwo(cs, i, j);
          CountAtMostOne(built, cs[i]);
          assert false;
        }
      }
    }
  }

  /** An element at two positions occurs at least twice. */
  lemma CountTwo<T>(s: seq<T>, i: int, j: int)
    requires 0 <= i < j < |s| && s[i] == s[j]
    ensures multiset(s)[s[i]] >= 2
  {
    assert s == s[..j] + [s[j]] + s[j + 1..];
    assert s[..j][i] == s[i];
    assert s[i] in multiset(s[..j]);
  }

  /** In a sequence of distinct ids every element occurs at most once. */
  lemma {:induction false} CountAtMostOne(s: seq<CustomerData>, x: CustomerData)
    requires forall i, j :: 0 <= i < j < |s| ==> s[i].id != s[j].id
    ensures multiset(s)[x] <= 1
  {
    if s != [] {
      var n := |s| - 1;
      assert s == s[..n] + [s[n]];
      CountAtMostOne(s[..n], x);
      if x == s[n] {
        assert x !in s[..n] by {
          forall i | 0 <= i < n ensures s[..n][i] != x { assert s[i].id != s[n].id; }
        }
      }
    }
  }

  /** Sorted by the negated this-year revenue: non-increasing revenue. */
  lemma SortedByYtd(cs: seq<CustomerData>)
    requires SortedBy(cs, NegYtd)
    ensures forall i, j :: 0 <= i < j < |cs| ==> cs[i].revenueYTD >= cs[j].revenueYTD
  {
    forall i, j | 0 <= i < j < |cs|
      ensures cs[i].revenueYTD >= cs[j].revenueYTD
    {
      assert NegYtd(cs[i]) <= NegYtd(cs[j]);
    }
  }

  lemma SortedKeepsNames(built: seq<CustomerData>, cs: seq<CustomerData>, names: set<string>)
    requires multiset(cs) == multiset(built)
    requires forall n :: n in names ==> exists i :: 0 <= i < |built| && built[i].name == n
    ensures forall n :: n in names ==> exists i :: 0 <= i < |cs| && cs[i].name == n
  {
    forall n | n in names
      ensures exists i :: 0 <= i < |cs| && cs[i].name == n
    {
      var j :| 0 <= j < |built| && built[j].name == n;
      assert built[j] in multiset(cs);
      var i :| 0 <= i < |cs| && cs[i] == built[j];
    }
  }

  lemma SortedKeepsEntries(built: seq<CustomerData>, cs: seq<CustomerData>, src: Sources, idOf: IdMaker)
    requires multiset(cs) == multiset(built) && |cs| == |built|
    requires BuiltFor(built, Names(src), src, idOf)
    ensures forall i :: 0 <= i < |cs| ==> cs[i].name in Names(src)
    ensures forall i :: 0 <= i < |cs| ==> IdBelow(cs[i], |cs|, idOf)
    ensures forall i :: 0 <= i < |cs| ==> FromTotals(cs[i], src)
  {
    forall i | 0 <= i < |cs|
      ensures cs[i].name in Names(src)
      ensures IdBelow(cs[i], |cs|, idOf)
      ensures FromTotals(cs[i], src)
    {
      assert cs[i] in multiset(built);
      var j :| 0 <= j < |built| && built[j] == cs[i];
      assert cs[i].id == idOf(j);
      assert IdBelow(cs[i], |cs|, idOf);
    }
  }

  // ---------------------------------------------------------------- one category, the whole merge

  /** The entry the merge starts from: the dataset's, else the default one. */
  function Existing(data: map<string, CategoryData>, mock: Category -> CategoryData, c: Category): CategoryData
  {
    var key := CategoryName(c);
    if key in data then data[key] else mock(c)
  }

  /** `up?.[c] || {}` for the revenue maps. */
  function TotalsFor(m: map<Category, Totals>, c: Category): Totals
  {
    if c in m then m[c] else map[]
  }

  function MonthlyFor(m: map<Category, MonthlyTotals>, c: Category): MonthlyTotals
  {
    if c in m then m[c] else map[]
  }

  /** The performance the category ends with: the uploaded one, even when empty, else the existing one. */
  function PerformanceFor(up: Uploads, existing: CategoryData, c: Category): (perf: seq<MonthlyPerformance>)
    ensures c in up.performance ==> perf == up.performance[c]
    ensures c !in up.performance ==> perf == existing.totalPerformance
  {
    if c in up.performance then up.performance[c] else existing.totalPerformance
  }

  /** What the category's customers are rebuilt from. */
  function SourcesFor(up: Uploads, existing: CategoryData, c: Category): Sources
  {
    Sources(TotalsFor(up.thisYear, c), TotalsFor(up.lastYear, c), MonthlyFor(up.lastYearByMonth, c),
            MaxYtdMonth(PerformanceFor(up, existing, c)))
  }

  /** What the merge promises of one category's new entry. */
  ghost predicate MergedCategory(e: CategoryData, existing: CategoryData, up: Uploads, c: Category, idOf: IdMaker)
  {
    var perf := PerformanceFor(up, existing, c);
    e.category == existing.category
    && e.facilitators == existing.facilitators
    && e.totalPerformance == perf
    && e.top20AggregateShare == (if c in up.customers then up.customers[c].aggregateShare else existing.top20AggregateShare)
    && (if |TotalsFor(up.thisYear, c)| > 0
        then RebuiltList(e.topCustomers, SourcesFor(up, existing, c), idOf)
        else e.topCustomers == (if c in up.customers then up.customers[c].customers else existing.topCustomers))
  }

  /** One pass of the forEach over the categories. */
  method MergeCategory(existing: CategoryData, up: Uploads, c: Category, idOf: IdMaker) returns (e: CategoryData)
    ensures MergedCategory(e, existing, up, c, idOf)
  {
    var customers := if c in up.customers then up.customers[c].customers else existing.topCustomers;
    var perf := PerformanceFor(up, existing, c);
    var src := Sources(TotalsFor(up.thisYear, c), TotalsFor(up.lastYear, c), MonthlyFor(up.lastYearByMonth, c),
                       MaxYtdMonth(perf));
    assert src == SourcesFor(up, existing, c);
    if |src.thisYear| > 0 {
      customers := RebuildCustomers(src, idOf);
    }
    e := existing.(
      totalPerformance := perf,
      topCustomers := customers,
      top20AggregateShare := if c in up.customers then up.customers[c].aggregateShare else existing.top20AggregateShare);
  }

  /** mergeWithExistingData: every category key rewritten from its entry (or the
      default), every other key passed through; rebuilt customers get the ids c-0, c-1, ... */
  method MergeWithExistingData(data: map<string, CategoryData>, up: Uploads, mock: Category -> CategoryData)
    returns (merged: map<string, CategoryData>)
    ensures forall k :: k in merged <==> k in data || exists c: Category :: k == CategoryName(c)
    ensures forall k :: k in data && (forall c: Category :: k != CategoryName(c)) ==> merged[k] == data[k]
    ensures forall c: Category :: MergedCategory(merged[CategoryName(c)], Existing(data, mock, c), up, c, CustomerId)
  {
    merged := MergeWith(data, up, mock, CustomerId);
  }

  /** Distinct positions get distinct ids: the digits after `c-` read back as the position. */
  lemma CustomerIdInjective()
    ensures Injective(CustomerId)
  {
    forall a: nat, b: nat | CustomerId(a) == CustomerId(b)
      ensures a == b
    {
      assert CustomerId(a)[2..] == NatToString(a);
      assert CustomerId(b)[2..] == NatToString(b);
      NatToStringValue(a);
      NatToStringValue(b);
    }
  }

  /** The merge, for any maker of the rebuilt customers' ids. */
  method MergeWith(data: map<string, CategoryData>, up: Uploads, mock: Category -> CategoryData, idOf: IdMaker)
    returns (merged: map<string, CategoryData>)
    ensures forall k :: k in merged <==> k in data || exists c: Category :: k == CategoryName(c)
    ensures forall k :: k in data && (forall c: Category :: k != CategoryName(c)) ==> merged[k] == data[k]
    ensures forall c: Category :: MergedCategory(merged[CategoryName(c)], Existing(data, mock, c), up, c, idOf)
  {
    NamesDistinct();
    ghost var entries;
    merged, entries := MergeEach(data, Categories, up, mock, idOf);
    OverlayCategories(data, entries, up, mock, idOf);
  }

  /** The forEach over the categories cs, whose keys are distinct: the i-th pass
      reads the i-th key (not yet rewritten) and writes it. */
  method MergeEach(data: map<string, CategoryData>, cs: seq<Category>, up: Uploads, mock: Category -> CategoryData, idOf: IdMaker)
    returns (merged: map<string, CategoryData>, ghost entries: seq<CategoryData>)
    requires forall a, b :: 0 <= a < b < |cs| ==> CategoryName(cs[a]) != CategoryName(cs[b])
    ensures |entries| == |cs| && merged == Overlay(data, cs, entries)
    ensures AllMerged(entries, cs, data, up, mock, idOf)
  {
    merged := data;
    entries := [];
    for i := 0 to |cs|
      invariant |entries| == i
      invariant merged == Overlay(data, cs[..i], entries)
      invariant AllMerged(entries, cs[..i], data, up, mock, idOf)
    {
      var c := cs[i];
      var key := CategoryName(c);
      NotYetWritten(data, cs, entries, i);
      var existing := if key in merged then merged[key] else mock(c);
      assert existing == Existing(data, mock, c);
      var e := MergeCategory(existing, up, c, idOf);
      AllMergedStep(entries, cs, i, e, data, up, mock, idOf);
      OverlayStep(data, cs, entries, i, e);
      merged := merged[key := e];
      entries := entries + [e];
    }
    assert cs[..|cs|] == cs;
  }

  /** The i-th pass writes the i-th key. */
  lemma OverlayStep(data: map<string, CategoryData>, cs: seq<Category>, entries: seq<CategoryData>, i: int, e: CategoryData)
    requires |entries| == i < |cs|
    ensures Overlay(data, cs[..i + 1], entries + [e]) == Overlay(data, cs[..i], entries)[CategoryName(cs[i]) := e]
  {
    assert cs[..i + 1][..i] == cs[..i] && (entries + [e])[..i] == entries;
  }

  /** Before the i-th pass the i-th key still holds the dataset's entry, if any. */
  lemma NotYetWritten(data: map<string, CategoryData>, cs: seq<Category>, entries: seq<CategoryData>, i: int)
    requires |entries| == i < |cs|
    requires forall a, b :: 0 <= a < b < |cs| ==> CategoryName(cs[a]) != CategoryName(cs[b])
    ensures CategoryName(cs[i]) in Overlay(data, cs[..i], entries) <==> CategoryName(cs[i]) in data
    ensures CategoryName(cs[i]) in data ==> Overlay(data, cs[..i], entries)[CategoryName(cs[i])] == data[CategoryName(cs[i])]
  {
    var key := CategoryName(cs[i]);
    forall j | 0 <= j < i
      ensures key != CategoryName(cs[..i][j])
    {
      assert cs[..i][j] == cs[j];
    }
    OverlayElsewhere(data, cs[..i], entries, key);
  }

  /** After the four passes: the category keys hold their entries, the other keys
      the dataset's. */
  lemma OverlayCategories(data: map<string, CategoryData>, entries: seq<CategoryData>, up: Uploads,
                          mock: Category -> CategoryData, idOf: IdMaker)
    requires |entries| == |Categories|
    requires AllMerged(entries, Categories, data, up, mock, idOf)
    ensures var merged := Overlay(data, Categories, entries);
            (forall k :: k in merged <==> k in data || exists c: Category :: k == CategoryName(c))
            && (forall k :: k in data && (forall c: Category :: k != CategoryName(c)) ==> merged[k] == data[k])
            && (forall c: Category :: MergedCategory(merged[CategoryName(c)], Existing(data, mock, c), up, c, idOf))
  {
    var merged := Overlay(data, Categories, entries);
    NamesDistinct();
    forall k
      ensures k in merged <==> k in data || exists c: Category :: k == CategoryName(c)
      ensures k in data && (forall c: Category :: k != CategoryName(c)) ==> merged[k] == data[k]
    {
      OverlayElsewhere(data, Categories, entries, k);
      if exists c: Category :: k == CategoryName(c) {
        var c: Category :| k == CategoryName(c);
        assert k == CategoryName(Categories[CategoryIndex(c)]);
      } else {
        assert forall j :: 0 <= j < |Categories| ==> k != CategoryName(Categories[j]);
      }
    }
    forall c: Category
      ensures MergedCategory(merged[CategoryName(c)], Existing(data, mock, c), up, c, idOf)
    {
      OverlayAt(data, Categories, entries, CategoryIndex(c));
      AllMergedAt(entries, Categories, data, up, mock, idOf, CategoryIndex(c));
    }
  }

  /** Each entry is what the merge promises for its category. */
  ghost predicate AllMerged(entries: seq<CategoryData>, cs: seq<Category>, data: map<string, CategoryData>,
                            up: Uploads, mock: Category -> CategoryData, idOf: IdMaker)
    requires |entries| == |cs|
  {
    if cs == [] then true
    else
      var n := |cs| - 1;
      AllMerged(entries[..n], cs[..n], data, up, mock, idOf) && MergedCategory(entries[n], Existing(data, mock, cs[n]), up, cs[n], idOf)
  }

  lemma AllMergedStep(entries: seq<CategoryData>, cs: seq<Category>, i: int, e: CategoryData,
                      data: map<string, CategoryData>, up: Uploads, mock: Category -> CategoryData, idOf: IdMaker)
    requires |entries| == i < |cs|
    requires AllMerged(entries, cs[..i], data, up, mock, idOf)
    requires MergedCategory(e, Existing(data, mock, cs[i]), up, cs[i], idOf)
    ensures AllMerged(entries + [e], cs[..i + 1], data, up, mock, idOf)
  {
    assert cs[..i + 1][..i] == cs[..i] && (entries + [e])[..i] == entries;
  }

  lemma {:induction false} AllMergedAt(entries: seq<CategoryData>, cs: seq<Category>, data: map<string, CategoryData>,
                                       up: Uploads, mock: Category -> CategoryData, idOf: IdMaker, j: int)
    requires |entries| == |cs| && 0 <= j < |cs|
    requires AllMerged(entries, cs, data, up, mock, idOf)
    ensures MergedCategory(entries[j], Existing(data, mock, cs[j]), up, cs[j], idOf)
  {
    var n := |cs| - 1;
    if j < n {
      AllMergedAt(entries[..n], cs[..n], data, up, mock, idOf, j);
    }
  }

  /** The dataset with the i-th category's key set to the i-th entry, in order. */
  function Overlay(data: map<string, CategoryData>, cs: seq<Category>, entries: seq<CategoryData>): map<string, CategoryData>
    requires |entries| == |cs|
  {
    if cs == [] then data
    else
      var n := |cs| - 1;
      Overlay(data, cs[..n], entries[..n])[CategoryName(cs[n]) := entries[n]]
  }

  /** Keys the categories do not name are those of the dataset. */
  lemma {:induction false} OverlayElsewhere(data: map<string, CategoryData>, cs: seq<Category>, entries: seq<CategoryData>, k: string)
    requires |entries| == |cs|
    ensures (forall j :: 0 <= j < |cs| ==> k != CategoryName(cs[j])) ==>
              (k in Overlay(data, cs, entries) <==> k in data)
              && (k in data ==> Overlay(data, cs, entries)[k] == data[k])
    ensures (exists j :: 0 <= j < |cs| && k == CategoryName(cs[j])) ==> k in Overlay(data, cs, entries)
  {
    if cs != [] {
      var n := |cs| - 1;
      OverlayElsewhere(data, cs[..n], entries[..n], k);
      assert forall j :: 0 <= j < n ==> cs[..n][j] == cs[j];
    }
  }

  /** With distinct keys, each category's key holds its own entry. */
  lemma {:induction false} OverlayAt(data: map<string, CategoryData>, cs: seq<Category>, entries: seq<CategoryData>, j: int)
    requires |entries| == |cs| && 0 <= j < |cs|
    requires forall a, b :: 0 <= a < b < |cs| ==> CategoryName(cs[a]) != CategoryName(cs[b])
    ensures CategoryName(cs[j]) in Overlay(data, cs, entries)
    ensures Overlay(data, cs, entries)[CategoryName(cs[j])] == entries[j]
  {
    var n := |cs| - 1;
    if j < n {
      var front := cs[..n];
      forall a, b | 0 <= a < b < n
        ensures CategoryName(front[a]) != CategoryName(front[b])
      {
        assert front[a] == cs[a] && front[b] == cs[b];
      }
      OverlayAt(data, front, entries[..n], j);
      assert CategoryName(cs[j]) != CategoryName(cs[n]);
      assert front[j] == cs[j] && entries[..n][j] == entries[j];
    }
  }

  /** The position of a category in CATEGORIES. */
  function CategoryIndex(c: Category): (i: int)
    ensures 0 <= i < |Categories| && Categories[i] == c
  {
    match c
    case SunCare => 0
    case Foundation => 1
    case Essence => 2
    case Cream => 3
  }

  /** The four category keys are different strings (they differ in length). */
  lemma NamesDistinct()
    ensures forall a, b :: 0 <= a < b < |Categories| ==> CategoryName(Categories[a]) != CategoryName(Categories[b])
  {
    forall a, b | 0 <= a < b < |Categories|
      ensures CategoryName(Categories[a]) != CategoryName(Categories[b])
    {
      assert |CategoryName(Categories[a])| != |CategoryName(Categories[b])|;
    }
  }

  // ---------------------------------------------------------------- lemmas


  /** Last-year months after the last elapsed one do not count. */
  lemma {:induction false} SumIgnoresLaterMonths(monthly: map<int, real>, n: int, m: int, x: real)
    requires m > n
    ensures SumMonths(monthly[m := x], n) == SumMonths(monthly, n)
  {
    if n > 0 {
      SumIgnoresLaterMonths(monthly, n - 1, m, x);
    }
  }

  /** With no negative month, a later last elapsed month never lowers the
      last-year revenue a customer is compared against. */
  lemma {:induction false} SumMonthsMonotone(monthly: map<int, real>, k: int, n: int)
    requires forall m :: m in monthly ==> monthly[m] >= 0.0
    requires k <= n
    ensures SumMonths(monthly, k) <= SumMonths(monthly, n)
  {
    if k < n && n > 0 {
      SumMonthsMonotone(monthly, k, n - 1);
    }
  }
}

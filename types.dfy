/** The records of the sales dashboard (types.ts) and the small wrappers the
    rest of the model uses for absent values and failed parses. */
module Types {

  datatype Option<T> = None | Some(value: T)

  /** A parse that either yields a value or is rejected with a message,
      the model of a promise that resolves or rejects. */
  datatype Result<T> = Ok(value: T) | Err(msg: string)

  /** A JavaScript number as the parsers see it: NaN or a finite value.
      Finite values are exact reals; binary floating point is not modelled. */
  datatype JsNumber = NaN | Fin(v: real)

  /** The closed set of product categories. */
  datatype Category = SunCare | Foundation | Essence | Cream

  /** CATEGORIES, in declaration order. */
  const Categories: seq<Category> := [SunCare, Foundation, Essence, Cream]

  /** The canonical display name, which is also the key of the category in the dataset. */
  function CategoryName(c: Category): string
  {
    match c
    case SunCare => "Sun Care"
    case Foundation => "Foundation"
    case Essence => "Essence"
    case Cream => "Cream"
  }

  /** One month of a category's performance; an absent this-year actual means
      "not yet reported", which is not the same as zero. */
  datatype MonthlyPerformance = MonthlyPerformance(
    month: int,
    lastYearActual: real,
    thisYearTarget: real,
    thisYearActual: Option<real>)

  /** Share of one period, in percent. */
  datatype MarketShare = MarketShare(period: string, cosmax: real, kolmar: real, others: real)

  datatype Product = Product(id: string, name: string, revenue: real, growth: real, share: real)

  datatype CustomerStatus = Thriving | Stable | Challenged

  datatype CustomerData = CustomerData(
    id: string,
    name: string,
    revenueLastYear: real,
    revenueYTD: real,
    growth: real,
    shares: seq<MarketShare>,
    status: CustomerStatus,
    products: seq<Product>)

  datatype Facilitator = Facilitator(role: string, name: string)

  datatype CategoryData = CategoryData(
    category: Category,
    totalPerformance: seq<MonthlyPerformance>,
    top20AggregateShare: seq<MarketShare>,
    topCustomers: seq<CustomerData>,
    facilitators: seq<Facilitator>)

  /** What a customer/share file yields for one category. */
  datatype ShareUpload = ShareUpload(customers: seq<CustomerData>, aggregateShare: seq<MarketShare>)

  /** The five share periods: a baseline and four quarters. */
  const SharePeriods: seq<string> := ["25", "26 Q1", "26 Q2", "26 Q3", "26 Q4"]

  /** Some element of a non-empty set. The loops that visit the keys of a Map,
      a Set or a record use it: their visiting order is not modelled. */
  method Pick<T>(s: set<T>) returns (x: T)
    requires s != {}
    ensures x in s
  {
    x :| x in s;
  }
}

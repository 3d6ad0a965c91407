/** GET /api/analytics: over the completed sales of a period, the revenue and profit, the
    number of sales, the sales per day, the ten best-selling products, the totals per payment
    method, and the ten active products with the least stock. */
module Analytics {
  import opened Schema
  import opened Rows
  import opened Grouping
  import opened Sorting
  import opened SaleTotals

  /** The `period` query parameter: "30days" or "90days", anything else a week. */
  function PeriodDays(period: Option<string>): (days: nat)
    ensures days == 30 <==> period == Some("30days")
    ensures days == 90 <==> period == Some("90days")
    ensures days == 7 <==> period != Some("30days") && period != Some("90days")
  {
    if period == Some("30days") then 30
    else if period == Some("90days") then 90
    else 7
  }

  predicate InWindow(s: Sale, start: int, end: int) {
    s.paymentStatus == Completed && start <= s.createdAt <= end
  }

  /** The completed sales created between `start` and `end`, both included, in table order. */
  function Window(sales: seq<Sale>, start: int, end: int): seq<Sale> {
    Filter(sales, (s: Sale) => InWindow(s, start, end))
  }

  /** The sales the report covers: completed ones from `days` days before `now` up to `now`. */
  lemma WindowMembers(sales: seq<Sale>, now: int, days: nat)
    ensures var w := Window(sales, now - days * MsPerDay, now);
      && (forall i :: 0 <= i < |w| ==> w[i] in sales && w[i].paymentStatus == Completed
                                       && now - days * MsPerDay <= w[i].createdAt <= now)
      && (forall i :: 0 <= i < |sales| && InWindow(sales[i], now - days * MsPerDay, now) ==> sales[i] in w)
  {
  }

  /** A window reaching further back covers every sale a shorter one does. */
  lemma LongerPeriodCovers(sales: seq<Sale>, earlier: int, later: int, end: int)
    requires earlier <= later
    ensures forall s :: s in Window(sales, later, end) ==> s in Window(sales, earlier, end)
  {
    forall s | s in Window(sales, later, end)
      ensures s in Window(sales, earlier, end)
    {
      var k :| 0 <= k < |sales| && sales[k] == s;
      assert InWindow(sales[k], earlier, end);
    }
  }

  /** The daily entries: one per day on which some sale of the window was created, in
      strictly ascending day order, each holding that day's number of sales and revenue. */
  lemma DailySalesShape(window: seq<Sale>, offsetMs: int)
    ensures var days := DailySales(window, offsetMs);
      && (forall i, j :: 0 <= i < j < |days| ==> days[i].key < days[j].key)
      && (forall b :: b in days ==> IsEntryOf(b, window, SaleDay(offsetMs), OneSale, SaleTotal))
      && (forall i :: 0 <= i < |window| ==>
            exists j :: 0 <= j < |days| && days[j].key == DayOf(window[i].createdAt, offsetMs))
  {
    var g := Group(window, SaleDay(offsetMs), OneSale, SaleTotal);
    var days := DailySales(window, offsetMs);
    GroupEntries(window, SaleDay(offsetMs), OneSale, SaleTotal);
    SortBySorted(g, EntryKey);
    SortByMembers(g, EntryKey);
    SortByDistinct(g, EntryKey, EntryKey);
    forall i | 0 <= i < |window|
      ensures exists j :: 0 <= j < |days| && days[j].key == DayOf(window[i].createdAt, offsetMs)
    {
      var k :| 0 <= k < |g| && g[k].key == SaleDay(offsetMs)(window[i]);
      assert g[k] in days;
    }
  }

  /** The daily counts add up to the number of sales in the window, and the daily revenues
      to its revenue. */
  lemma DailySalesConserve(window: seq<Sale>, offsetMs: int)
    ensures CountTotal(DailySales(window, offsetMs)) == |window|
    ensures SumTotal(DailySales(window, offsetMs)) == Revenue(window)
  {
    var g := Group(window, SaleDay(offsetMs), OneSale, SaleTotal);
    GroupConserves(window, SaleDay(offsetMs), OneSale, SaleTotal);
    SumOfSortBy(g, EntryKey, EntryCount);
    SumOfSortBy(g, EntryKey, EntrySum);
    CountsSales(window);
  }

  /** The best sellers are at most ten products, each listed once, highest revenue first. */
  lemma BestSellersOrdered(entries: seq<Bucket<Id>>)
    requires KeysDistinct(entries)
    ensures var best := BestSellers(entries);
      && |best| <= 10
      && (forall i, j :: 0 <= i < j < |best| ==> best[i].sum >= best[j].sum)
      && DistinctBy(best, EntryKey)
  {
    TopN(entries, SumDescending, 10);
    SortByDistinct(entries, SumDescending, EntryKey);
    var sorted := SortBy(entries, SumDescending);
    assert DistinctBy(BestSellers(entries), EntryKey) by {
      forall i, j | 0 <= i < j < |BestSellers(entries)|
        ensures BestSellers(entries)[i].key != BestSellers(entries)[j].key
      {
        assert BestSellers(entries)[i] == sorted[i] && BestSellers(entries)[j] == sorted[j];
      }
    }
  }

  /** Each best seller holds the quantity and revenue of that product's lines in the window;
      no product left out earned more than one listed, and with ten or fewer products sold
      all are listed. */
  lemma BestSellersTotals(window: seq<Sale>)
    ensures var entries := Group(AllItems(window), ItemProductId, ItemQuantity, ItemSubtotal);
      var best := BestSellers(entries);
      && KeysDistinct(entries)
      && (forall b :: b in best ==> IsEntryOf(b, AllItems(window), ItemProductId, ItemQuantity, ItemSubtotal))
      && (forall e :: e in entries && e !in best ==> forall b :: b in best ==> e.sum <= b.sum)
      && (|entries| <= 10 ==> forall e :: e in entries ==> e in best)
  {
    var entries := Group(AllItems(window), ItemProductId, ItemQuantity, ItemSubtotal);
    GroupEntries(AllItems(window), ItemProductId, ItemQuantity, ItemSubtotal);
    TopNMembers(entries, SumDescending, 10);
  }

  /** The payment-method entries: one per method used, each with that method's number of
      sales and their total; together they count every sale of the window and its revenue. */
  lemma PaymentMethodsShape(window: seq<Sale>)
    ensures var methods := Group(window, SaleMethod, OneSale, SaleTotal);
      && KeysDistinct(methods)
      && (forall m :: TotalsFor(methods, m) == (SumWhere(window, SaleMethod, m, OneSale), SumWhere(window, SaleMethod, m, SaleTotal)))
      && CountTotal(methods) == |window|
      && SumTotal(methods) == Revenue(window)
  {
    GroupTotals(window, SaleMethod, OneSale, SaleTotal);
    GroupConserves(window, SaleMethod, OneSale, SaleTotal);
    CountsSales(window);
  }

  lemma {:induction false} CountsSales(sales: seq<Sale>)
    ensures SumOf(sales, OneSale) == |sales|
  {
    if sales != [] {
      CountsSales(sales[..|sales| - 1]);
    }
  }

  /** The low-stock list holds at most ten products, least stock first. */
  lemma LowStockOrdered(products: seq<Product>)
    ensures var low := LowStock(products);
      && |low| <= 10
      && forall i, j :: 0 <= i < j < |low| ==> low[i].stockQuantity <= low[j].stockQuantity
  {
    TopN(Filter(products, StockedLow), Stock, 10);
  }

  /** The low-stock list holds active products with at most ten in stock; every such product
      left out has no less stock than any listed, and with ten or fewer such products all are
      listed. */
  lemma LowStockRows(products: seq<Product>)
    ensures var low := LowStock(products);
      && (forall p :: p in low ==> p in products && p.isActive && p.stockQuantity <= 10)
      && (forall p :: p in products && StockedLow(p) && p !in low ==>
            forall q :: q in low ==> q.stockQuantity <= p.stockQuantity)
      && (|Filter(products, StockedLow)| <= 10 ==> forall p :: p in products && StockedLow(p) ==> p in low)
  {
    var candidates := Filter(products, StockedLow);
    TopNMembers(candidates, Stock, 10);
    forall p | p in LowStock(products)
      ensures p in products && p.isActive && p.stockQuantity <= 10
    {
      var i :| 0 <= i < |candidates| && candidates[i] == p;
    }
  }

  /** A period without completed sales reports zeros and empty lists (the low-stock list
      aside, which does not depend on the sales). */
  lemma EmptyPeriodReport(products: seq<Product>, sales: seq<Sale>, period: Option<string>, now: int, offsetMs: int)
    requires ItemsReferenceProducts(products, sales)
    requires forall i :: 0 <= i < |sales| ==> !InWindow(sales[i], now - PeriodDays(period) * MsPerDay, now)
    ensures var r := ReportOf(products, sales, period, now, offsetMs);
      && r.summary == Summary(0, 0, 0, 0.0, 0.0)
      && r.dailySales == [] && r.bestSellers == [] && r.paymentMethods == []
  {
    var window := Window(sales, now - PeriodDays(period) * MsPerDay, now);
    FilterNone(sales, (s: Sale) => InWindow(s, now - PeriodDays(period) * MsPerDay, now));
    assert window == [];
  }

  /** The profit loop: for each sale, for each of its lines, add (unit price − cost price) ×
      quantity. */
  method TotalProfit(products: seq<Product>, sales: seq<Sale>) returns (profit: int)
    requires ItemsReferenceProducts(products, sales)
    ensures profit == Profit(products, sales)
  {
    profit := 0;
    var i := 0;
    while i < |sales|
      invariant 0 <= i <= |sales|
      invariant ItemsReferenceProducts(products, sales[..i])
      invariant profit == Profit(products, sales[..i])
    {
      SaleStep(products, sales, i);
      var saleProfit := LinesProfit(products, sales[i].items);
      profit := profit + saleProfit;
      i := i + 1;
    }
    assert sales[..i] == sales;
  }

  /** The best-seller loop: for each sale, for each of its lines, add the line's quantity and
      subtotal to its product's entry, creating the entry at zero first. */
  method ProductSales(sales: seq<Sale>) returns (entries: seq<Bucket<Id>>)
    ensures entries == Group(AllItems(sales), ItemProductId, ItemQuantity, ItemSubtotal)
  {
    entries := [];
    var i := 0;
    while i < |sales|
      invariant 0 <= i <= |sales|
      invariant entries == Group(AllItems(sales[..i]), ItemProductId, ItemQuantity, ItemSubtotal)
    {
      entries := TallyInto(entries, AllItems(sales[..i]), sales[i].items, ItemProductId, ItemQuantity, ItemSubtotal);
      AllItemsStep(sales, i);
      i := i + 1;
    }
    assert sales[..i] == sales;
  }

  /** One entry per day with its number of sales and their revenue, in ascending day order. */
  function DailySales(window: seq<Sale>, offsetMs: int): seq<Bucket<int>> {
    SortBy(Group(window, SaleDay(offsetMs), OneSale, SaleTotal), EntryKey)
  }

  /** The ten entries with the highest revenue, highest first. */
  function BestSellers(entries: seq<Bucket<Id>>): seq<Bucket<Id>> {
    Take(SortBy(entries, SumDescending), 10)
  }

  predicate StockedLow(p: Product) {
    p.isActive && p.stockQuantity <= 10
  }

  function Stock(p: Product): int { p.stockQuantity }

  /** Active products with at most ten in stock, least stock first, at most ten of them. */
  function LowStock(products: seq<Product>): seq<Product> {
    Take(SortBy(Filter(products, StockedLow), Stock), 10)
  }

  datatype Summary = Summary(
    totalRevenue: int,
    totalProfit: int,
    totalTransactions: nat,
    averageOrderValue: real,
    profitMargin: real)

  /** The summary figures; the average is 0 without sales and the margin (in percent) is 0
      unless the revenue is positive. */
  function Summarize(revenue: int, profit: int, transactions: nat): (s: Summary)
    ensures s.totalRevenue == revenue && s.totalProfit == profit && s.totalTransactions == transactions
    ensures transactions == 0 ==> s.averageOrderValue == 0.0
    ensures transactions > 0 ==> s.averageOrderValue * transactions as real == revenue as real
    ensures revenue <= 0 ==> s.profitMargin == 0.0
    ensures revenue > 0 ==> s.profitMargin * revenue as real == profit as real * 100.0
  {
    Summary(revenue, profit, transactions,
      if transactions > 0 then revenue as real / transactions as real else 0.0,
      if revenue > 0 then profit as real / revenue as real * 100.0 else 0.0)
  }

  datatype Report = Report(
    summary: Summary,
    dailySales: seq<Bucket<int>>,
    bestSellers: seq<Bucket<Id>>,
    paymentMethods: seq<Bucket<PaymentMethod>>,
    lowStock: seq<Product>)

  datatype AnalyticsError = Unauthorized

  /** The whole report over the table, as one function of its inputs. */
  function ReportOf(products: seq<Product>, sales: seq<Sale>, period: Option<string>, now: int, offsetMs: int): Report
    requires ItemsReferenceProducts(products, sales)
  {
    var window := Window(sales, now - PeriodDays(period) * MsPerDay, now);
    ReferencesOfSubset(products, sales, window);
    Report(
      Summarize(Revenue(window), Profit(products, window), |window|),
      DailySales(window, offsetMs),
      BestSellers(Group(AllItems(window), ItemProductId, ItemQuantity, ItemSubtotal)),
      Group(window, SaleMethod, OneSale, SaleTotal),
      LowStock(products))
  }

  /** GET /api/analytics. `now` is the current instant and `offsetMs` the server's offset from
      UTC; the database is only read. */
  method GetAnalytics(db: Db, authorized: bool, period: Option<string>, now: int, offsetMs: int)
    returns (r: Result<Report, AnalyticsError>)
    requires db.Valid()
    ensures !authorized ==> r == Err(Unauthorized)
    ensures authorized ==> r == Ok(ReportOf(db.products, db.sales, period, now, offsetMs))
  {
    if !authorized {
      return Err(Unauthorized);
    }
    var days := PeriodDays(period);
    var window := Window(db.sales, now - days * MsPerDay, now);
    ReferencesOfSubset(db.products, db.sales, window);
    var revenue := Revenue(window);
    var profit := TotalProfit(db.products, window);
    var daily := Tally(window, SaleDay(offsetMs), OneSale, SaleTotal);
    var entries := ProductSales(window);
    var methods := Tally(window, SaleMethod, OneSale, SaleTotal);
    r := Ok(Report(
      Summarize(revenue, profit, |window|),
      SortBy(daily, EntryKey),
      Take(SortBy(entries, SumDescending), 10),
      methods,
      LowStock(db.products)));
  }
}

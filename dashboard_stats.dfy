/** GET /api/dashboard/stats: the number of active products and of those at or below their
    own minimum stock level, the revenue, profit and number of completed sales of the last
    seven days, and the five most recent sales of any status. */
module DashboardStats {
  import opened Schema
  import opened Rows
  import opened Sorting
  import opened SaleTotals
  import Analytics

  predicate Active(p: Product) {
    p.isActive
  }

  /** Active and holding no more than the product's own minimum stock level. */
  predicate BelowMinimum(p: Product) {
    p.isActive && p.stockQuantity <= p.minStockLevel
  }

  function ActiveCount(products: seq<Product>): nat {
    |Filter(products, Active)|
  }

  function LowStockCount(products: seq<Product>): nat {
    |Filter(products, BelowMinimum)|
  }

  /** Only active products are counted, and a low-stock product is one of them. */
  lemma CountsBounded(products: seq<Product>)
    ensures LowStockCount(products) <= ActiveCount(products) <= |products|
    ensures (forall i :: 0 <= i < |products| ==> !products[i].isActive) ==> ActiveCount(products) == 0
    ensures (forall i :: 0 <= i < |products| ==> products[i].isActive) ==> ActiveCount(products) == |products|
  {
    FilterStricter(products, BelowMinimum, Active);
    if forall i :: 0 <= i < |products| ==> !products[i].isActive {
      FilterNone(products, Active);
    }
    if forall i :: 0 <= i < |products| ==> products[i].isActive {
      FilterAll(products, Active);
    }
  }

  predicate Recent(s: Sale, since: int) {
    s.paymentStatus == Completed && s.createdAt >= since
  }

  /** The completed sales created at or after `since`, in table order. */
  function RecentSales(sales: seq<Sale>, since: int): seq<Sale> {
    Filter(sales, (s: Sale) => Recent(s, since))
  }

  /** The totals loop: for each recent sale add its total to the revenue and, for each of its
      lines, (unit price − cost price) × quantity to the profit. */
  method RevenueAndProfit(products: seq<Product>, sales: seq<Sale>) returns (revenue: int, profit: int)
    requires ItemsReferenceProducts(products, sales)
    ensures revenue == Revenue(sales)
    ensures profit == Profit(products, sales)
  {
    revenue, profit := 0, 0;
    var i := 0;
    while i < |sales|
      invariant 0 <= i <= |sales|
      invariant ItemsReferenceProducts(products, sales[..i])
      invariant revenue == Revenue(sales[..i])
      invariant profit == Profit(products, sales[..i])
    {
      SaleStep(products, sales, i);
      revenue := revenue + sales[i].total;
      var saleProfit := LinesProfit(products, sales[i].items);
      profit := profit + saleProfit;
      i := i + 1;
    }
    assert sales[..i] == sales;
  }

  function Newest(s: Sale): int { -s.createdAt }

  /** The five most recent sales, newest first, whatever their payment status. */
  function LatestSales(sales: seq<Sale>): seq<Sale> {
    Take(SortBy(sales, Newest), 5)
  }

  /** At most five sales, newest first. */
  lemma LatestSalesOrdered(sales: seq<Sale>)
    ensures var latest := LatestSales(sales);
      && |latest| <= 5
      && forall i, j :: 0 <= i < j < |latest| ==> latest[i].createdAt >= latest[j].createdAt
  {
    TopN(sales, Newest, 5);
  }

  /** The latest sales come from the table; no sale left out is newer than one listed, and
      with five or fewer sales all are listed. */
  lemma LatestSalesRows(sales: seq<Sale>)
    ensures var latest := LatestSales(sales);
      && (forall s :: s in latest ==> s in sales)
      && (forall s :: s in sales && s !in latest ==> forall t :: t in latest ==> s.createdAt <= t.createdAt)
      && (|sales| <= 5 ==> forall s :: s in sales ==> s in latest)
  {
    TopNMembers(sales, Newest, 5);
  }

  /** Unlike the totals, the latest sales are not limited to completed ones: a lone pending
      sale is listed. */
  lemma LatestIncludesPending(sale: Sale)
    requires sale.paymentStatus == Pending
    ensures LatestSales([sale]) == [sale]
    ensures RecentSales([sale], sale.createdAt) == []
  {
  }

  datatype Stats = Stats(
    totalProducts: nat,
    lowStockProducts: nat,
    totalRevenue: int,
    totalProfit: int,
    totalTransactions: nat,
    latestSales: seq<Sale>)

  datatype StatsError = Unauthorized

  /** The statistics over the table as one function of its inputs. */
  function StatsOf(products: seq<Product>, sales: seq<Sale>, now: int): Stats
    requires ItemsReferenceProducts(products, sales)
  {
    var recent := RecentSales(sales, now - 7 * MsPerDay);
    ReferencesOfSubset(products, sales, recent);
    Stats(ActiveCount(products), LowStockCount(products), Revenue(recent), Profit(products, recent),
          |recent|, LatestSales(sales))
  }

  /** GET /api/dashboard/stats; `now` is the current instant and the database is only read. */
  method GetStats(db: Db, authorized: bool, now: int) returns (r: Result<Stats, StatsError>)
    requires db.Valid()
    ensures !authorized ==> r == Err(Unauthorized)
    ensures authorized ==> r == Ok(StatsOf(db.products, db.sales, now))
  {
    if !authorized {
      return Err(Unauthorized);
    }
    var recent := RecentSales(db.sales, now - 7 * MsPerDay);
    ReferencesOfSubset(db.products, db.sales, recent);
    var revenue, profit := RevenueAndProfit(db.products, recent);
    r := Ok(Stats(ActiveCount(db.products), LowStockCount(db.products), revenue, profit,
                  |recent|, LatestSales(db.sales)));
  }

  /** With no sale dated after `now`, the dashboard's seven-day figures are the analytics
      report's figures for the default period. */
  lemma AgreesWithWeeklyAnalytics(products: seq<Product>, sales: seq<Sale>, now: int, offsetMs: int)
    requires ItemsReferenceProducts(products, sales)
    requires forall i :: 0 <= i < |sales| ==> sales[i].createdAt <= now
    ensures var stats := StatsOf(products, sales, now);
      var summary := Analytics.ReportOf(products, sales, None, now, offsetMs).summary;
      && stats.totalRevenue == summary.totalRevenue
      && stats.totalProfit == summary.totalProfit
      && stats.totalTransactions == summary.totalTransactions
  {
    var start := now - 7 * MsPerDay;
    FilterSame(sales, (s: Sale) => Recent(s, start), (s: Sale) => Analytics.InWindow(s, start, now));
    assert RecentSales(sales, start) == Analytics.Window(sales, start, now);
  }

  /** A week without completed sales shows zero revenue, profit and transactions. */
  lemma QuietWeek(products: seq<Product>, sales: seq<Sale>, now: int)
    requires ItemsReferenceProducts(products, sales)
    requires forall i :: 0 <= i < |sales| ==> !Recent(sales[i], now - 7 * MsPerDay)
    ensures var stats := StatsOf(products, sales, now);
      stats.totalRevenue == 0 && stats.totalProfit == 0 && stats.totalTransactions == 0
  {
    FilterNone(sales, (s: Sale) => Recent(s, now - 7 * MsPerDay));
  }
}

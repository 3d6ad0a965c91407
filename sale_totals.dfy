/** The figures both reports compute over a list of sales: revenue, profit at today's cost
    prices, the day a sale falls on, and the key and weight functions the groupings use. */
module SaleTotals {
  import opened Schema
  import opened Rows

  const MsPerDay := 86400000

  /** The local calendar day of instant `t` (milliseconds since the epoch) at a fixed offset
      from UTC: `startOfDay` of the instant, counted in days. */
  function DayOf(t: int, offsetMs: int): (d: int)
    ensures d * MsPerDay <= t + offsetMs < (d + 1) * MsPerDay
  {
    (t + offsetMs) / MsPerDay
  }

  /** Two instants fall on the same day exactly when they lie in the same 24-hour slot. */
  lemma SameDayIff(t: int, u: int, offsetMs: int)
    ensures DayOf(t, offsetMs) == DayOf(u, offsetMs) <==>
      exists d :: d * MsPerDay <= t + offsetMs < (d + 1) * MsPerDay && d * MsPerDay <= u + offsetMs < (d + 1) * MsPerDay
  {
    var a, b := DayOf(t, offsetMs), DayOf(u, offsetMs);
    if exists d :: d * MsPerDay <= t + offsetMs < (d + 1) * MsPerDay && d * MsPerDay <= u + offsetMs < (d + 1) * MsPerDay {
      var d :| d * MsPerDay <= t + offsetMs < (d + 1) * MsPerDay && d * MsPerDay <= u + offsetMs < (d + 1) * MsPerDay;
      SlotUnique(t + offsetMs, a, d);
      SlotUnique(u + offsetMs, b, d);
    }
  }

  lemma SlotUnique(x: int, a: int, b: int)
    requires a * MsPerDay <= x < (a + 1) * MsPerDay && b * MsPerDay <= x < (b + 1) * MsPerDay
    ensures a == b
  {
  }

  // Keys and weights of the groupings.

  function SaleTotal(s: Sale): int { s.total }
  function OneSale(s: Sale): int { 1 }
  function SaleMethod(s: Sale): PaymentMethod { s.paymentMethod }
  function ItemProductId(item: SaleItem): Id { item.productId }
  function ItemQuantity(item: SaleItem): int { item.quantity }
  function ItemSubtotal(item: SaleItem): int { item.subtotal }

  /** The day key of a sale at the given offset. */
  function SaleDay(offsetMs: int): Sale -> int {
    (s: Sale) => DayOf(s.createdAt, offsetMs)
  }

  /** Σ total over the sales. */
  function Revenue(sales: seq<Sale>): int {
    SumOf(sales, SaleTotal)
  }

  /** Every line of every sale, sale by sale. */
  function AllItems(sales: seq<Sale>): (items: seq<SaleItem>)
    ensures forall i, j :: 0 <= i < |sales| && 0 <= j < |sales[i].items| ==> sales[i].items[j] in items
  {
    if sales == [] then []
    else
      var init := sales[..|sales| - 1];
      assert forall i :: 0 <= i < |sales| - 1 ==> sales[i] == init[i];
      AllItems(init) + sales[|sales| - 1].items
  }

  /** Every line's product is in the catalogue, so it has a cost price. */
  predicate Priced(products: seq<Product>, items: seq<SaleItem>) {
    forall j :: 0 <= j < |items| ==> FindProduct(products, items[j].productId).Some?
  }

  function CostPrice(products: seq<Product>, id: Id): int
    requires FindProduct(products, id).Some?
  {
    products[FindProduct(products, id).value].costPrice
  }

  /** (unit price − current cost price) × quantity. */
  function ItemProfit(products: seq<Product>, item: SaleItem): int
    requires FindProduct(products, item.productId).Some?
  {
    (item.unitPrice - CostPrice(products, item.productId)) * item.quantity
  }

  function ItemsProfit(products: seq<Product>, items: seq<SaleItem>): int
    requires Priced(products, items)
  {
    if items == [] then 0
    else ItemsProfit(products, items[..|items| - 1]) + ItemProfit(products, items[|items| - 1])
  }

  /** Σ over every line of every sale of the line's profit. */
  function Profit(products: seq<Product>, sales: seq<Sale>): int
    requires ItemsReferenceProducts(products, sales)
  {
    if sales == [] then 0
    else
      assert Priced(products, sales[|sales| - 1].items);
      Profit(products, sales[..|sales| - 1]) + ItemsProfit(products, sales[|sales| - 1].items)
  }

  /** One more sale adds its total to the revenue and its lines' profit to the profit. */
  lemma SaleStep(products: seq<Product>, sales: seq<Sale>, i: nat)
    requires ItemsReferenceProducts(products, sales) && i < |sales|
    ensures ItemsReferenceProducts(products, sales[..i]) && ItemsReferenceProducts(products, sales[..i + 1])
    ensures Priced(products, sales[i].items)
    ensures Revenue(sales[..i + 1]) == Revenue(sales[..i]) + sales[i].total
    ensures Profit(products, sales[..i + 1]) == Profit(products, sales[..i]) + ItemsProfit(products, sales[i].items)
  {
    assert sales[..i + 1][..i] == sales[..i];
    ReferencesOfSubset(products, sales, sales[..i]);
    ReferencesOfSubset(products, sales, sales[..i + 1]);
  }

  /** One more line adds its profit. */
  lemma ItemStep(products: seq<Product>, items: seq<SaleItem>, j: nat)
    requires Priced(products, items) && j < |items|
    ensures Priced(products, items[..j]) && Priced(products, items[..j + 1])
    ensures ItemsProfit(products, items[..j + 1]) == ItemsProfit(products, items[..j]) + ItemProfit(products, items[j])
  {
    assert items[..j + 1][..j] == items[..j];
  }

  /** The inner loop of both reports: for each line of one sale, (unit price − cost price) ×
      quantity, added up. */
  method LinesProfit(products: seq<Product>, items: seq<SaleItem>) returns (profit: int)
    requires Priced(products, items)
    ensures profit == ItemsProfit(products, items)
  {
    profit := 0;
    var j := 0;
    while j < |items|
      invariant 0 <= j <= |items|
      invariant Priced(products, items[..j])
      invariant profit == ItemsProfit(products, items[..j])
    {
      ItemStep(products, items, j);
      var product := products[FindProduct(products, items[j].productId).value];
      profit := profit + (items[j].unitPrice - product.costPrice) * items[j].quantity;
      j := j + 1;
    }
    assert items[..j] == items;
  }

  /** The lines of one more sale follow the lines already seen. */
  lemma AllItemsStep(sales: seq<Sale>, i: nat)
    requires i < |sales|
    ensures AllItems(sales[..i + 1]) == AllItems(sales[..i]) + sales[i].items
  {
    assert sales[..i + 1][..i] == sales[..i];
  }

  /** A sub-list of the sales (a filtered one, say) references products as the table does. */
  lemma ReferencesOfSubset(products: seq<Product>, sales: seq<Sale>, sub: seq<Sale>)
    requires ItemsReferenceProducts(products, sales)
    requires forall i :: 0 <= i < |sub| ==> sub[i] in sales
    ensures ItemsReferenceProducts(products, sub)
  {
    forall i, j | 0 <= i < |sub| && 0 <= j < |sub[i].items|
      ensures FindProduct(products, sub[i].items[j].productId).Some?
    {
      var k :| 0 <= k < |sales| && sales[k] == sub[i];
    }
  }

  lemma ReferencesOfConcat(products: seq<Product>, a: seq<Sale>, b: seq<Sale>)
    requires ItemsReferenceProducts(products, a + b)
    ensures ItemsReferenceProducts(products, a) && ItemsReferenceProducts(products, b)
  {
    forall i | 0 <= i < |a| ensures a[i] == (a + b)[i] { }
    forall i | 0 <= i < |b| ensures b[i] == (a + b)[|a| + i] { }
  }

  /** Revenue and profit add up over consecutive runs of sales. */
  lemma {:induction false} TotalsAdd(products: seq<Product>, a: seq<Sale>, b: seq<Sale>)
    requires ItemsReferenceProducts(products, a + b)
    ensures ItemsReferenceProducts(products, a) && ItemsReferenceProducts(products, b)
    ensures Revenue(a + b) == Revenue(a) + Revenue(b)
    ensures Profit(products, a + b) == Profit(products, a) + Profit(products, b)
  {
    ReferencesOfConcat(products, a, b);
    if b != [] {
      var init := b[..|b| - 1];
      assert (a + b)[..|a + b| - 1] == a + init;
      assert b == init + [b[|b| - 1]];
      ReferencesOfConcat(products, init, [b[|b| - 1]]);
      TotalsAdd(products, a, init);
    } else {
      assert a + b == a;
    }
  }

  /** Profit is taken before the discount: giving a sale a discount lowers the revenue but
      leaves the profit as it was. */
  lemma DiscountLeavesProfit(products: seq<Product>, sale: Sale, discounted: int)
    requires Priced(products, sale.items) && discounted < sale.total
    ensures Profit(products, [sale.(total := discounted)]) == Profit(products, [sale])
    ensures Revenue([sale.(total := discounted)]) < Revenue([sale])
  {
    assert [sale.(total := discounted)][..0] == [sale][..0] == [];
  }
}

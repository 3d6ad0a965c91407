/** Creating a sale: validating the cart, computing its totals, numbering it, and in one
    all-or-nothing step checking stock, recording the sale and decrementing stock. */
module SalesRoute {
  import opened Schema
  import opened SaleNumbers

  /** One cart line as received. Money is whole units; the quantity is kept as a number
      so that a fractional quantity can be represented and rejected. */
  datatype LineInput = LineInput(productId: Id, quantity: real, unitPrice: int)

  /** The request body; a missing discount defaults to 0. */
  datatype SaleRequest = SaleRequest(items: seq<LineInput>, paymentMethod: string, discount: Option<int>)

  /** A validated cart line. */
  datatype Line = Line(productId: Id, quantity: nat, unitPrice: nat)

  datatype Cart = Cart(lines: seq<Line>, paymentMethod: PaymentMethod, discount: nat)

  datatype SaleError = Unauthorized | InvalidData | ServerError(message: string)

  /** The HTTP status each failure is answered with. */
  function StatusCode(e: SaleError): int {
    match e
    case Unauthorized => 401
    case InvalidData => 400
    case ServerError(_) => 500
  }

  /** The payment-method enumeration of the request schema. */
  function ParsePaymentMethod(s: string): (r: Option<PaymentMethod>)
    ensures r.Some? <==> s == "CASH" || s == "MPESA" || s == "BANK_TRANSFER"
    ensures s == "CASH" ==> r == Some(Cash)
    ensures s == "MPESA" ==> r == Some(Mpesa)
    ensures s == "BANK_TRANSFER" ==> r == Some(BankTransfer)
  {
    if s == "CASH" then Some(Cash)
    else if s == "MPESA" then Some(Mpesa)
    else if s == "BANK_TRANSFER" then Some(BankTransfer)
    else None
  }

  predicate IsWhole(x: real) {
    x.Floor as real == x
  }

  predicate LineInputValid(x: LineInput) {
    IsWhole(x.quantity) && x.quantity > 0.0 && x.unitPrice > 0
  }

  /** A validated line carries exactly the values of its input line. */
  predicate Agrees(l: Line, x: LineInput) {
    l.productId == x.productId && l.quantity as real == x.quantity && l.unitPrice == x.unitPrice
  }

  function ValidateLines(items: seq<LineInput>): (r: Option<seq<Line>>)
    ensures r.Some? <==> forall i :: 0 <= i < |items| ==> LineInputValid(items[i])
    ensures r.Some? ==> |r.value| == |items|
    ensures r.Some? ==> forall i :: 0 <= i < |items| ==> Agrees(r.value[i], items[i])
    ensures r.Some? ==> forall i :: 0 <= i < |items| ==> r.value[i].quantity > 0 && r.value[i].unitPrice > 0
  {
    if items == [] then Some([])
    else
      var x := items[0];
      if !LineInputValid(x) then None
      else match ValidateLines(items[1..])
        case None => None
        case Some(rest) => Some([Line(x.productId, x.quantity.Floor as nat, x.unitPrice as nat)] + rest)
  }

  /** The request schema: at least one line, whole positive quantities, positive prices,
      a non-negative discount and one of the three payment methods. */
  function Validate(req: SaleRequest): (r: Option<Cart>)
    ensures r.None? <==>
      || |req.items| == 0
      || (exists i :: 0 <= i < |req.items| && !IsWhole(req.items[i].quantity))
      || (exists i :: 0 <= i < |req.items| && req.items[i].quantity <= 0.0)
      || (exists i :: 0 <= i < |req.items| && req.items[i].unitPrice <= 0)
      || (req.discount.Some? && req.discount.value < 0)
      || ParsePaymentMethod(req.paymentMethod).None?
    ensures r.Some? ==> |r.value.lines| == |req.items|
    ensures r.Some? ==> forall i :: 0 <= i < |req.items| ==> Agrees(r.value.lines[i], req.items[i])
    ensures r.Some? ==> r.value.discount == (if req.discount.Some? then req.discount.value else 0)
    ensures r.Some? ==> Some(r.value.paymentMethod) == ParsePaymentMethod(req.paymentMethod)
  {
    if |req.items| == 0 then None
    else if req.discount.Some? && req.discount.value < 0 then None
    else match (ValidateLines(req.items), ParsePaymentMethod(req.paymentMethod))
      case (Some(lines), Some(m)) =>
        Some(Cart(lines, m, if req.discount.Some? then req.discount.value as nat else 0))
      case _ => None
  }

  /** Σ unitPrice × quantity over the lines. */
  function Subtotal(lines: seq<Line>): nat {
    if lines == [] then 0
    else Subtotal(lines[..|lines| - 1]) + lines[|lines| - 1].unitPrice * lines[|lines| - 1].quantity
  }

  /** The discount is taken off the subtotal, never below zero. */
  function Total(subtotal: nat, discount: nat): (r: nat)
    ensures r <= subtotal
    ensures discount <= subtotal ==> r + discount == subtotal
    ensures r == 0 <==> discount >= subtotal
  {
    if subtotal >= discount then subtotal - discount else 0
  }

  /** Mobile-money sales wait for the provider; the others are settled on the spot. */
  function InitialStatus(m: PaymentMethod): (s: PaymentStatus)
    ensures s == Pending <==> m == Mpesa
    ensures s != Failed
  {
    if m == Mpesa then Pending else Completed
  }

  /** The stored line items; each subtotal is unitPrice × quantity. */
  function ToItems(lines: seq<Line>): (items: seq<SaleItem>)
    ensures |items| == |lines|
    ensures forall i :: 0 <= i < |lines| ==>
      && items[i].productId == lines[i].productId
      && items[i].quantity == lines[i].quantity && items[i].unitPrice == lines[i].unitPrice
      && items[i].subtotal == lines[i].unitPrice * lines[i].quantity
  {
    seq(|lines|, i requires 0 <= i < |lines| =>
      SaleItem(lines[i].productId, lines[i].quantity, lines[i].unitPrice, lines[i].unitPrice * lines[i].quantity))
  }

  function SumItemSubtotals(items: seq<SaleItem>): int {
    if items == [] then 0 else SumItemSubtotals(items[..|items| - 1]) + items[|items| - 1].subtotal
  }

  /** The stored items' subtotals add up to the sale's subtotal. */
  lemma {:induction false} ItemsAddUpToSubtotal(lines: seq<Line>)
    ensures SumItemSubtotals(ToItems(lines)) == Subtotal(lines)
  {
    if lines != [] {
      var n := |lines|;
      assert ToItems(lines)[..n - 1] == ToItems(lines[..n - 1]);
      ItemsAddUpToSubtotal(lines[..n - 1]);
    }
  }

  /** The sale written for a cart; the discount itself is not stored. */
  function NewSale(id: Id, count: nat, cart: Cart, userId: string, now: int): (s: Sale)
    ensures s.id == id && s.saleNumber == SaleNumber(count)
    ensures s.items == ToItems(cart.lines) && s.subtotal == Subtotal(cart.lines)
    ensures s.total <= s.subtotal == SumItemSubtotals(s.items)
    ensures s.total == Total(s.subtotal, cart.discount)
    ensures s.paymentMethod == cart.paymentMethod
    ensures s.paymentStatus == Pending <==> cart.paymentMethod == Mpesa
    ensures s.paymentStatus != Failed
    ensures s.mpesaCode == None && s.soldById == userId && s.createdAt == now
  {
    ItemsAddUpToSubtotal(cart.lines);
    var subtotal := Subtotal(cart.lines);
    Sale(id, SaleNumber(count), ToItems(cart.lines), subtotal, Total(subtotal, cart.discount),
         cart.paymentMethod, InitialStatus(cart.paymentMethod), None, userId, now)
  }

  /** A line passes the stock check when its product exists with at least that many in stock
      (whether the product is active is not looked at). */
  predicate LineAvailable(products: seq<Product>, line: Line) {
    match FindProduct(products, line.productId)
    case None => false
    case Some(k) => products[k].stockQuantity >= line.quantity
  }

  predicate AllAvailable(products: seq<Product>, lines: seq<Line>) {
    forall i :: 0 <= i < |lines| ==> LineAvailable(products, lines[i])
  }

  /** The error raised by the stock check; a missing product or an empty name reads "product". */
  function InsufficientMessage(products: seq<Product>, productId: Id): string {
    "Insufficient stock for " +
      match FindProduct(products, productId)
      case Some(k) => if products[k].name != "" then products[k].name else "product"
      case None => "product"
  }

  /** The total quantity the lines take of one product. */
  function QtyOf(lines: seq<Line>, id: Id): nat {
    if lines == [] then 0
    else QtyOf(lines[..|lines| - 1], id) + (if lines[|lines| - 1].productId == id then lines[|lines| - 1].quantity else 0)
  }

  /** The product table after a sale of `lines`: each product's stock has dropped by exactly
      the sum of its line quantities, and nothing else about any product has changed. */
  function Decremented(products: seq<Product>, lines: seq<Line>): (r: seq<Product>)
    ensures |r| == |products|
    ensures forall k :: 0 <= k < |r| ==> r[k].id == products[k].id
  {
    seq(|products|, k requires 0 <= k < |products| =>
      products[k].(stockQuantity := products[k].stockQuantity - QtyOf(lines, products[k].id)))
  }

  /** The stock check loop: the index of the first line that fails, if any. */
  method CheckStock(products: seq<Product>, lines: seq<Line>) returns (failed: Option<nat>)
    ensures failed.None? <==> AllAvailable(products, lines)
    ensures failed.Some? ==> failed.value < |lines| && !LineAvailable(products, lines[failed.value])
    ensures failed.Some? ==> forall j :: 0 <= j < failed.value ==> LineAvailable(products, lines[j])
  {
    var i := 0;
    while i < |lines|
      invariant 0 <= i <= |lines|
      invariant forall j :: 0 <= j < i ==> LineAvailable(products, lines[j])
    {
      var found := FindProduct(products, lines[i].productId);
      if found.None? || products[found.value].stockQuantity < lines[i].quantity {
        return Some(i);
      }
      i := i + 1;
    }
    return None;
  }

  /** POST /api/sales. `authorized` is whether the request carries a session, `userId` its
      user, `newId` the identity the database gives the new row and `now` the clock. */
  method CreateSale(db: Db, authorized: bool, userId: string, req: SaleRequest, newId: Id, now: int)
    returns (r: Result<Sale, SaleError>)
    requires db.Valid()
    requires FindSale(db.sales, newId).None?
    modifies db
    ensures db.Valid()
    ensures r.Err? ==> db.products == old(db.products) && db.sales == old(db.sales)
    ensures !authorized ==> r == Err(Unauthorized)
    ensures authorized && Validate(req).None? ==> r == Err(InvalidData)
    ensures authorized && Validate(req).Some? && AllAvailable(old(db.products), Validate(req).value.lines) ==>
      && r == Ok(NewSale(newId, |old(db.sales)|, Validate(req).value, userId, now))
      && db.sales == old(db.sales) + [r.value]
      && db.products == Decremented(old(db.products), Validate(req).value.lines)
    ensures authorized && Validate(req).Some? && !AllAvailable(old(db.products), Validate(req).value.lines) ==>
      var lines := Validate(req).value.lines;
      exists i :: 0 <= i < |lines| && !LineAvailable(old(db.products), lines[i])
        && (forall j :: 0 <= j < i ==> LineAvailable(old(db.products), lines[j]))
        && r == Err(ServerError(InsufficientMessage(old(db.products), lines[i].productId)))
  {
    if !authorized {
      return Err(Unauthorized);
    }
    var validated := Validate(req);
    if validated.None? {
      return Err(InvalidData);
    }
    var cart := validated.value;
    var count := |db.sales|;
    var failed := CheckStock(db.products, cart.lines);
    if failed.Some? {
      return Err(ServerError(InsufficientMessage(db.products, cart.lines[failed.value].productId)));
    }
    var sale := NewSale(newId, count, cart, userId, now);
    ghost var before := db.products;
    db.sales := db.sales + [sale];
    DecrementStock(db, cart.lines);
    StoreStaysValid(before, old(db.sales), sale, cart.lines);
    r := Ok(sale);
  }

  /** The decrement loop: each line's quantity is taken off its product's row in place. */
  method DecrementStock(db: Db, lines: seq<Line>)
    requires ProductIdsDistinct(db.products) && AllAvailable(db.products, lines)
    modifies db`products
    ensures db.products == Decremented(old(db.products), lines)
  {
    ghost var original := db.products;
    var current := db.products;
    var i := 0;
    while i < |lines|
      invariant 0 <= i <= |lines|
      invariant current == Decremented(original, lines[..i])
    {
      StepFindsRow(original, lines, i, current);
      var k := FindProduct(current, lines[i].productId).value;
      DecrementStep(original, lines, i, current, k);
      current := current[k := current[k].(stockQuantity := current[k].stockQuantity - lines[i].quantity)];
      i := i + 1;
    }
    assert lines[..i] == lines;
    db.products := current;
  }

  /** Appending a sale whose lines all passed the stock check, and decrementing stock, keeps
      the database's invariant. */
  lemma StoreStaysValid(products: seq<Product>, sales: seq<Sale>, sale: Sale, lines: seq<Line>)
    requires ProductIdsDistinct(products) && SaleIdsDistinct(sales)
    requires NumberedInOrder(sales) && ItemsReferenceProducts(products, sales)
    requires AllAvailable(products, lines)
    requires FindSale(sales, sale.id).None? && sale.saleNumber == SaleNumber(|sales|)
    requires sale.items == ToItems(lines)
    ensures var after := Decremented(products, lines);
      var all := sales + [sale];
      ProductIdsDistinct(after) && SaleIdsDistinct(all) && NumberedInOrder(all) && ItemsReferenceProducts(after, all)
  {
    assert ProductIdsDistinct(Decremented(products, lines)) by {
      DecrementKeepsIds(products, lines);
    }
    AppendKeepsSaleIdsDistinct(sales, sale);
    AppendKeepsNumbering(sales, sale);
    ReferencesSurvive(products, sales, sale, lines);
  }

  lemma DecrementKeepsIds(products: seq<Product>, lines: seq<Line>)
    requires ProductIdsDistinct(products)
    ensures ProductIdsDistinct(Decremented(products, lines))
  {
    var after := Decremented(products, lines);
    assert forall k :: 0 <= k < |after| ==> after[k].id == products[k].id;
  }

  lemma ReferencesSurvive(products: seq<Product>, sales: seq<Sale>, sale: Sale, lines: seq<Line>)
    requires ItemsReferenceProducts(products, sales)
    requires AllAvailable(products, lines)
    requires sale.items == ToItems(lines)
    ensures ItemsReferenceProducts(Decremented(products, lines), sales + [sale])
  {
    var after := Decremented(products, lines);
    var all := sales + [sale];
    forall m, j | 0 <= m < |all| && 0 <= j < |all[m].items|
      ensures FindProduct(after, all[m].items[j].productId).Some?
    {
      var id := all[m].items[j].productId;
      FindProductSameIds(products, after, id);
      if m == |sales| {
        assert LineAvailable(products, lines[j]);
      }
    }
  }

  /** The row for line i is still found after the earlier lines' decrements. */
  lemma StepFindsRow(original: seq<Product>, lines: seq<Line>, i: nat, current: seq<Product>)
    requires AllAvailable(original, lines)
    requires i < |lines| && current == Decremented(original, lines[..i])
    ensures FindProduct(current, lines[i].productId).Some?
  {
    FindProductSameIds(original, current, lines[i].productId);
    assert LineAvailable(original, lines[i]);
  }

  /** One pass of the decrement loop: updating the row that holds line i's product in place
      takes the table from the state after i lines to the state after i + 1 lines. */
  lemma DecrementStep(original: seq<Product>, lines: seq<Line>, i: nat, current: seq<Product>, k: nat)
    requires ProductIdsDistinct(original)
    requires i < |lines| && current == Decremented(original, lines[..i])
    requires k < |current| && current[k].id == lines[i].productId
    ensures current[k := current[k].(stockQuantity := current[k].stockQuantity - lines[i].quantity)]
      == Decremented(original, lines[..i + 1])
  {
    var next := Decremented(original, lines[..i + 1]);
    var updated := current[k := current[k].(stockQuantity := current[k].stockQuantity - lines[i].quantity)];
    assert lines[..i + 1][..i] == lines[..i];
    forall m | 0 <= m < |original|
      ensures updated[m] == next[m]
    {
      if m != k {
        assert original[m].id != original[k].id;
      }
    }
  }

  /** With at most one line per product, a sale that passes the stock check leaves no
      product below zero. */
  lemma DistinctLinesKeepStockNonNegative(products: seq<Product>, lines: seq<Line>)
    requires ProductIdsDistinct(products)
    requires forall k :: 0 <= k < |products| ==> products[k].stockQuantity >= 0
    requires forall i, j :: 0 <= i < j < |lines| ==> lines[i].productId != lines[j].productId
    requires AllAvailable(products, lines)
    ensures forall k :: 0 <= k < |products| ==> Decremented(products, lines)[k].stockQuantity >= 0
  {
    forall k | 0 <= k < |products|
      ensures Decremented(products, lines)[k].stockQuantity >= 0
    {
      var id := products[k].id;
      if j :| 0 <= j < |lines| && lines[j].productId == id {
        QtyOfSingleLine(lines, id, j);
        assert FindProduct(products, id) == Some(k);
      } else {
        QtyOfAbsent(lines, id);
      }
    }
  }

  lemma {:induction false} QtyOfAbsent(lines: seq<Line>, id: Id)
    requires forall j :: 0 <= j < |lines| ==> lines[j].productId != id
    ensures QtyOf(lines, id) == 0
  {
    if lines != [] {
      QtyOfAbsent(lines[..|lines| - 1], id);
    }
  }

  lemma {:induction false} QtyOfSingleLine(lines: seq<Line>, id: Id, j: nat)
    requires forall a, b :: 0 <= a < b < |lines| ==> lines[a].productId != lines[b].productId
    requires j < |lines| && lines[j].productId == id
    ensures QtyOf(lines, id) == lines[j].quantity
  {
    var n := |lines|;
    if j == n - 1 {
      QtyOfAbsent(lines[..n - 1], id);
    } else {
      QtyOfSingleLine(lines[..n - 1], id, j);
    }
  }

  /** Each line is checked against the stock before any decrement, so two lines for the
      same product can together take more than is in stock. */
  lemma RepeatedLineDrivesStockNegative()
    ensures var products := [Product("p1", "Soap", 40, 1, 5, true)];
      var lines := [Line("p1", 1, 100), Line("p1", 1, 100)];
      && AllAvailable(products, lines)
      && Decremented(products, lines)[0].stockQuantity == -1
  {
    var products := [Product("p1", "Soap", 40, 1, 5, true)];
    var lines := [Line("p1", 1, 100), Line("p1", 1, 100)];
    assert lines[..1] == [Line("p1", 1, 100)];
    assert lines[..1][..0] == [];
    assert QtyOf(lines[..1], "p1") == 1;
  }

  /** The stock check does not look at the soft-delete flag: an inactive product is sold. */
  lemma InactiveProductPassesCheck(products: seq<Product>, line: Line, k: nat)
    requires k < |products| && FindProduct(products, line.productId) == Some(k)
    requires products[k].stockQuantity >= line.quantity
    ensures LineAvailable(products, line)
    ensures LineAvailable(products[k := products[k].(isActive := false)], line)
  {
    FindProductSameIds(products, products[k := products[k].(isActive := false)], line.productId);
  }

  /** Two lines (2 × 100 and 1 × 50) with a discount of 20. */
  lemma CheckoutExample()
    ensures var lines := [Line("a", 2, 100), Line("b", 1, 50)];
      Subtotal(lines) == 250 && Total(Subtotal(lines), 20) == 230
  {
    var lines := [Line("a", 2, 100), Line("b", 1, 50)];
    assert lines[..1] == [Line("a", 2, 100)];
    assert lines[..1][..0] == [];
  }
}

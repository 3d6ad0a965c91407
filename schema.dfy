/** The records the sale and payment paths read and write (the store's products and
    sales with their line items), and the database holding them. */
module Schema {
  import opened SaleNumbers

  /** Row identities (database-generated keys). */
  type Id = string

  datatype Option<T> = None | Some(value: T)

  datatype Result<T, E> = Ok(value: T) | Err(error: E)

  /** JavaScript's `v || fallback` on an optional string: a missing or empty value gives the fallback. */
  function OrElse(v: Option<string>, fallback: string): (r: string)
    ensures v.Some? && v.value != "" ==> r == v.value
    ensures v.None? || v.value == "" ==> r == fallback
  {
    if v.Some? && v.value != "" then v.value else fallback
  }

  datatype PaymentMethod = Cash | Mpesa | BankTransfer

  datatype PaymentStatus = Pending | Completed | Failed

  /** A catalogue row; `isActive` is the soft-delete flag. */
  datatype Product = Product(
    id: Id,
    name: string,
    costPrice: int,
    stockQuantity: int,
    minStockLevel: int,
    isActive: bool)

  /** A line of a sale; `unitPrice` is the price charged at the time of sale. */
  datatype SaleItem = SaleItem(productId: Id, quantity: int, unitPrice: int, subtotal: int)

  /** `mpesaCode` holds the provider's checkout request id while a payment is under way
      and the receipt number once it completes. `createdAt` is in milliseconds. */
  datatype Sale = Sale(
    id: Id,
    saleNumber: string,
    items: seq<SaleItem>,
    subtotal: int,
    total: int,
    paymentMethod: PaymentMethod,
    paymentStatus: PaymentStatus,
    mpesaCode: Option<string>,
    soldById: string,
    createdAt: int)

  /** The first row of the product table with the given id (a unique lookup when ids are distinct). */
  function FindProduct(products: seq<Product>, id: Id): (r: Option<nat>)
    ensures r.Some? ==> r.value < |products| && products[r.value].id == id
    ensures r.Some? ==> forall k :: 0 <= k < r.value ==> products[k].id != id
    ensures r.None? <==> forall k :: 0 <= k < |products| ==> products[k].id != id
  {
    if |products| == 0 then None
    else if products[0].id == id then Some(0)
    else match FindProduct(products[1..], id)
      case None => None
      case Some(k) => Some(k + 1)
  }

  /** The first sale with the given id. */
  function FindSale(sales: seq<Sale>, id: Id): (r: Option<nat>)
    ensures r.Some? ==> r.value < |sales| && sales[r.value].id == id
    ensures r.Some? ==> forall k :: 0 <= k < r.value ==> sales[k].id != id
    ensures r.None? <==> forall k :: 0 <= k < |sales| ==> sales[k].id != id
  {
    if |sales| == 0 then None
    else if sales[0].id == id then Some(0)
    else match FindSale(sales[1..], id)
      case None => None
      case Some(k) => Some(k + 1)
  }

  /** Lookups by id see only the ids of the rows. */
  lemma {:induction false} FindProductSameIds(p: seq<Product>, q: seq<Product>, id: Id)
    requires |p| == |q|
    requires forall k :: 0 <= k < |p| ==> p[k].id == q[k].id
    ensures FindProduct(p, id) == FindProduct(q, id)
  {
    if |p| > 0 && p[0].id != id {
      FindProductSameIds(p[1..], q[1..], id);
    }
  }

  predicate ProductIdsDistinct(products: seq<Product>) {
    forall i, j :: 0 <= i < j < |products| ==> products[i].id != products[j].id
  }

  predicate SaleIdsDistinct(sales: seq<Sale>) {
    forall i, j :: 0 <= i < j < |sales| ==> sales[i].id != sales[j].id
  }

  /** Every sale item refers to an existing product (the foreign key of the items table). */
  predicate ItemsReferenceProducts(products: seq<Product>, sales: seq<Sale>) {
    forall i, j :: 0 <= i < |sales| && 0 <= j < |sales[i].items| ==>
      FindProduct(products, sales[i].items[j].productId).Some?
  }

  /** Sales are only ever appended, numbered from the count of earlier sales. */
  predicate NumberedInOrder(sales: seq<Sale>) {
    forall i :: 0 <= i < |sales| ==> sales[i].saleNumber == SaleNumber(i)
  }

  /** The database: the product table and the sale table (items are stored with their sale). */
  class Db {
    var products: seq<Product>
    var sales: seq<Sale>

    ghost predicate Valid()
      reads this
    {
      && ProductIdsDistinct(products)
      && SaleIdsDistinct(sales)
      && NumberedInOrder(sales)
      && ItemsReferenceProducts(products, sales)
    }

    constructor (catalogue: seq<Product>)
      requires ProductIdsDistinct(catalogue)
      ensures Valid() && products == catalogue && sales == []
    {
      products := catalogue;
      sales := [];
    }
  }

  /** Appending a sale with a fresh id keeps sale ids distinct. */
  lemma AppendKeepsSaleIdsDistinct(sales: seq<Sale>, sale: Sale)
    requires SaleIdsDistinct(sales) && FindSale(sales, sale.id).None?
    ensures SaleIdsDistinct(sales + [sale])
  {
    var all := sales + [sale];
    forall i, j | 0 <= i < j < |all|
      ensures all[i].id != all[j].id
    {
      assert all[i] == sales[i];
      if j < |sales| {
        assert all[j] == sales[j];
      } else {
        assert all[j] == sale;
      }
    }
  }

  /** Appending a sale numbered from the count of earlier sales keeps numbering in order. */
  lemma AppendKeepsNumbering(sales: seq<Sale>, sale: Sale)
    requires NumberedInOrder(sales) && sale.saleNumber == SaleNumber(|sales|)
    ensures NumberedInOrder(sales + [sale])
  {
    var all := sales + [sale];
    forall i | 0 <= i < |all|
      ensures all[i].saleNumber == SaleNumber(i)
    {
      if i < |sales| {
        assert all[i] == sales[i];
      } else {
        assert all[i] == sale && i == |sales|;
      }
    }
  }

  /** Rewriting the payment fields of one sale (keeping its id, number and items) keeps the
      database's invariant. */
  lemma ReplaceSaleKeepsInvariant(products: seq<Product>, sales: seq<Sale>, k: nat, updated: Sale)
    requires SaleIdsDistinct(sales) && NumberedInOrder(sales) && ItemsReferenceProducts(products, sales)
    requires k < |sales|
    requires updated.id == sales[k].id && updated.saleNumber == sales[k].saleNumber
    requires updated.items == sales[k].items
    ensures var after := sales[k := updated];
      SaleIdsDistinct(after) && NumberedInOrder(after) && ItemsReferenceProducts(products, after)
  {
    var after := sales[k := updated];
    assert forall i :: 0 <= i < |after| ==> after[i].id == sales[i].id && after[i].items == sales[i].items;
  }

  /** In a database kept valid, no two sales carry the same sale number. */
  lemma SaleNumbersUnique(sales: seq<Sale>, i: nat, j: nat)
    requires NumberedInOrder(sales)
    requires i < j < |sales|
    ensures sales[i].saleNumber != sales[j].saleNumber
  {
    SaleNumberInjective(i, j);
  }
}

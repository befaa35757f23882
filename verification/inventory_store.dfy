/** The stock bookkeeping of the inventory context: the products collection
    reduced to each product's quantity, the inventory-movement log and the
    sales collection, held in memory. Adding a product logs its initial
    stock; registering a sale stores it and, item by item, lowers the stock
    of every product that still exists and logs one movement for it. */
module InventoryStore {
  import opened Basics
  import opened Records

  datatype MovementType = Initial | SaleOut

  datatype Movement = Movement(
    productId: ProductId,
    quantity: int,
    kind: MovementType,
    referenceId: Option<string>,
    note: string,
    createdAt: Time)

  /** The movement logged for one sold item. */
  function SaleMovement(item: SaleItem, saleId: string, now: Time): Movement
  {
    Movement(item.productId, -item.quantity, SaleOut, Some(saleId), "Venta #" + saleId, now)
  }

  /** One pass of the loop body: the product's current quantity minus the
      item's, when the product document exists. */
  function ApplyItem(stock: map<ProductId, int>, item: SaleItem): map<ProductId, int>
  {
    if item.productId in stock
    then stock[item.productId := stock[item.productId] - item.quantity]
    else stock
  }

  /** The stock after the loop has processed `items` in order. */
  function AppliedSale(stock: map<ProductId, int>, items: seq<SaleItem>): map<ProductId, int>
    decreases |items|
  {
    if items == [] then stock
    else ApplyItem(AppliedSale(stock, items[..|items| - 1]), items[|items| - 1])
  }

  /** The movements the loop logs for `items`, given the products that exist. */
  function SaleMovements(products: set<ProductId>, items: seq<SaleItem>, saleId: string, now: Time): seq<Movement>
    decreases |items|
  {
    if items == [] then []
    else
      var last := items[|items| - 1];
      SaleMovements(products, items[..|items| - 1], saleId, now)
        + (if last.productId in products then [SaleMovement(last, saleId, now)] else [])
  }

  /** The units of product `id` that `items` sell. */
  function SoldOf(items: seq<SaleItem>, id: ProductId): int
  {
    SumOf(items, (it: SaleItem) => if it.productId == id then it.quantity else 0)
  }

  lemma {:induction false} AppliedSaleKeys(stock: map<ProductId, int>, items: seq<SaleItem>)
    ensures AppliedSale(stock, items).Keys == stock.Keys
    decreases |items|
  {
    if items != [] {
      AppliedSaleKeys(stock, items[..|items| - 1]);
    }
  }

  /** Each existing product ends at its quantity minus everything the sale
      sold of it, however many items name it; absent products stay absent. */
  lemma {:induction false} AppliedSaleAt(stock: map<ProductId, int>, items: seq<SaleItem>, id: ProductId)
    ensures id in AppliedSale(stock, items) <==> id in stock
    ensures id in stock ==> AppliedSale(stock, items)[id] == stock[id] - SoldOf(items, id)
    decreases |items|
  {
    AppliedSaleKeys(stock, items);
    if items != [] {
      var front, last := items[..|items| - 1], items[|items| - 1];
      AppliedSaleAt(stock, front, id);
      assert items == front + [last];
      SumOfConcat(front, [last], (it: SaleItem) => if it.productId == id then it.quantity else 0);
    }
  }

  /** A product no item names keeps its quantity. */
  lemma UnsoldProductUnchanged(stock: map<ProductId, int>, items: seq<SaleItem>, id: ProductId)
    requires id in stock
    requires forall j :: 0 <= j < |items| ==> items[j].productId != id
    ensures id in AppliedSale(stock, items) && AppliedSale(stock, items)[id] == stock[id]
  {
    AppliedSaleAt(stock, items, id);
    SoldOfUnnamed(items, id);
  }

  lemma {:induction false} SoldOfUnnamed(items: seq<SaleItem>, id: ProductId)
    requires forall j :: 0 <= j < |items| ==> items[j].productId != id
    ensures SoldOf(items, id) == 0
    decreases |items|
  {
    if items != [] {
      SoldOfUnnamed(items[1..], id);
    }
  }

  /** Nothing keeps the stock from going below zero. */
  lemma StockMayGoNegative()
    ensures AppliedSale(map["p" := 1], [SaleItem("p", None, 3, Some(100), Some(300))])["p"] == -2
  {
    var items := [SaleItem("p", None, 3, Some(100), Some(300))];
    assert items[..0] == [];
  }

  /** Whether an item's product document exists. */
  function Exists(products: set<ProductId>): SaleItem -> bool
  {
    (it: SaleItem) => it.productId in products
  }

  /** One 'sale' movement per item, in order. */
  function MovementsFor(kept: seq<SaleItem>, saleId: string, now: Time): (r: seq<Movement>)
    ensures |r| == |kept|
    ensures forall j :: 0 <= j < |kept| ==> r[j] == SaleMovement(kept[j], saleId, now)
  {
    if kept == [] then []
    else MovementsFor(kept[..|kept| - 1], saleId, now) + [SaleMovement(kept[|kept| - 1], saleId, now)]
  }

  /** One movement per item whose product exists, in item order, each a
      'sale' movement of minus the item's quantity referring to the sale. */
  lemma {:induction false} SaleMovementsAreFilteredItems(products: set<ProductId>, items: seq<SaleItem>, saleId: string, now: Time)
    ensures SaleMovements(products, items, saleId, now) == MovementsFor(Filter(items, Exists(products)), saleId, now)
    decreases |items|
  {
    if items != [] {
      SaleMovementsAreFilteredItems(products, items[..|items| - 1], saleId, now);
      MovementsStep(products, items, saleId, now);
    }
  }

  lemma MovementsStep(products: set<ProductId>, items: seq<SaleItem>, saleId: string, now: Time)
    requires items != []
    requires var front := items[..|items| - 1];
             SaleMovements(products, front, saleId, now) == MovementsFor(Filter(front, Exists(products)), saleId, now)
    ensures SaleMovements(products, items, saleId, now) == MovementsFor(Filter(items, Exists(products)), saleId, now)
  {
    var front, last := items[..|items| - 1], items[|items| - 1];
    FilterSnoc(items, Exists(products));
    var k0 := Filter(front, Exists(products));
    if last.productId in products {
      KeptStep(k0, last, saleId, now);
    } else {
      assert k0 + [] == k0;
    }
  }

  lemma KeptStep(k0: seq<SaleItem>, last: SaleItem, saleId: string, now: Time)
    ensures MovementsFor(k0 + [last], saleId, now) == MovementsFor(k0, saleId, now) + [SaleMovement(last, saleId, now)]
  {
    assert (k0 + [last])[..|k0|] == k0;
  }

  /** `getSales`: the date range applies only when both bounds are given,
      and both bounds are inclusive. */
  function SalesInRange(sales: seq<Sale>, startDate: Option<Time>, endDate: Option<Time>): seq<Sale>
  {
    if startDate.Some? && endDate.Some?
    then Filter(sales, (s: Sale) => s.createdAt.Some? && startDate.value <= s.createdAt.value <= endDate.value)
    else sales
  }

  lemma SalesInRangeMembers(sales: seq<Sale>, startDate: Option<Time>, endDate: Option<Time>)
    ensures startDate.None? || endDate.None? ==> SalesInRange(sales, startDate, endDate) == sales
    ensures startDate.Some? && endDate.Some? ==>
      forall s :: s in SalesInRange(sales, startDate, endDate) <==>
        s in sales && s.createdAt.Some? && startDate.value <= s.createdAt.value <= endDate.value
    ensures IsSubsequence(SalesInRange(sales, startDate, endDate), sales)
  {
    if startDate.Some? && endDate.Some? {
      var keep := (s: Sale) => s.createdAt.Some? && startDate.value <= s.createdAt.value <= endDate.value;
      FilterMembership(sales, keep);
      FilterIsSubsequence(sales, keep);
    } else {
      IsSubsequenceOfSelf(sales);
    }
  }

  class Store {
    var stock: map<ProductId, int>
    var movements: seq<Movement>
    var sales: seq<Sale>

    constructor ()
      ensures stock == map[] && movements == [] && sales == []
    {
      stock, movements, sales := map[], [], [];
    }

    /** `addProduct`: the new document (its id is the fresh one the database
        assigned) and exactly one 'initial' movement of its quantity. */
    method AddProduct(id: ProductId, quantity: int, now: Time)
      requires id !in stock
      modifies this
      ensures stock == old(stock)[id := quantity]
      ensures movements == old(movements) + [Movement(id, quantity, Initial, None, "Inventario inicial", now)]
      ensures sales == old(sales)
    {
      stock := stock[id := quantity];
      movements := movements + [Movement(id, quantity, Initial, None, "Inventario inicial", now)];
    }

    /** `registerSale`: store the sale, then walk its items. */
    method RegisterSale(saleId: string, draft: SaleDraft, now: Time) returns (sale: Sale)
      modifies this
      ensures sale == Sale(saleId, Some(now), Some(draft.items), draft.total, Some(draft.paymentMethod), draft.notes)
      ensures sales == old(sales) + [sale]
      ensures stock == AppliedSale(old(stock), draft.items)
      ensures movements == old(movements) + SaleMovements(old(stock).Keys, draft.items, saleId, now)
    {
      sale := Sale(saleId, Some(now), Some(draft.items), draft.total, Some(draft.paymentMethod), draft.notes);
      sales := sales + [sale];
      var items := draft.items;
      var i := 0;
      while i < |items|
        invariant 0 <= i <= |items|
        invariant stock == AppliedSale(old(stock), items[..i])
        invariant stock.Keys == old(stock).Keys
        invariant movements == old(movements) + SaleMovements(old(stock).Keys, items[..i], saleId, now)
        invariant sales == old(sales) + [sale]
      {
        var item := items[i];
        assert items[..i + 1][..i] == items[..i];
        if item.productId in stock {
          var currentQuantity := stock[item.productId];
          stock := stock[item.productId := currentQuantity - item.quantity];
          movements := movements + [SaleMovement(item, saleId, now)];
        }
        i := i + 1;
      }
      assert items[..|items|] == items;
    }

    function GetSales(startDate: Option<Time>, endDate: Option<Time>): seq<Sale>
      reads this
    {
      SalesInRange(sales, startDate, endDate)
    }
  }
}

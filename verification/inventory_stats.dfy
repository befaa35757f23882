/** The inventory figures the dashboard and the reports page compute from
    the catalog: product count, units in stock, low- and out-of-stock counts
    and the value of the stock. */
module InventoryStats {
  import opened Basics
  import opened Records
  import opened StockLevels

  function Units(p: Product): int
  {
    OrZero(p.quantity)
  }

  /** `(product.price || 0) * (product.quantity || 0)`. */
  function StockValue(p: Product): Money
  {
    OrZero(p.price) * OrZero(p.quantity)
  }

  function TotalProducts(products: seq<Product>): nat
  {
    |products|
  }

  function TotalItems(products: seq<Product>): int
  {
    SumOf(products, Units)
  }

  function LowStockCount(products: seq<Product>): nat
  {
    |Filter(products, (p: Product) => IsLowStock(p.quantity))|
  }

  function OutOfStockCount(products: seq<Product>): nat
  {
    |Filter(products, (p: Product) => IsOutOfStock(p.quantity))|
  }

  function InventoryValue(products: seq<Product>): Money
  {
    SumOf(products, StockValue)
  }

  /** Every out-of-stock product is a low-stock one, so the first count never
      exceeds the second, and neither exceeds the catalog size. */
  lemma OutOfStockWithinLowStock(products: seq<Product>)
    ensures OutOfStockCount(products) <= LowStockCount(products) <= TotalProducts(products)
  {
    FilterMonotone(products, (p: Product) => IsOutOfStock(p.quantity), (p: Product) => IsLowStock(p.quantity));
  }

  /** The low-stock products are those not in the 'in' tier. */
  lemma LowStockIsNotInTier(products: seq<Product>)
    ensures LowStockCount(products) == |Filter(products, (p: Product) => StatusOf(p.quantity) != In)|
  {
    FilterCongruent(products, (p: Product) => IsLowStock(p.quantity), (p: Product) => StatusOf(p.quantity) != In);
  }

  /** Products without a quantity add nothing: the total is the sum of the
      quantities that are present. */
  lemma TotalItemsOfPresent(products: seq<Product>)
    ensures TotalItems(products) ==
      SumOf(Filter(products, (p: Product) => p.quantity.Some?), (p: Product) => if p.quantity.Some? then p.quantity.value else 0)
  {
    var present := (p: Product) => p.quantity.Some?;
    SumOfIgnoresZeros(products, Units, present);
    SumOfCongruent(Filter(products, present), Units, (p: Product) => if p.quantity.Some? then p.quantity.value else 0);
  }

  /** Products missing a price or a quantity add nothing to the value; the
      value is the sum of price times quantity over the others. */
  lemma InventoryValueOfComplete(products: seq<Product>)
    ensures InventoryValue(products) ==
      SumOf(Filter(products, (p: Product) => p.price.Some? && p.quantity.Some?),
            (p: Product) => if p.price.Some? && p.quantity.Some? then p.price.value * p.quantity.value else 0)
  {
    var complete := (p: Product) => p.price.Some? && p.quantity.Some?;
    SumOfIgnoresZeros(products, StockValue, complete);
    SumOfCongruent(Filter(products, complete), StockValue,
      (p: Product) => if p.price.Some? && p.quantity.Some? then p.price.value * p.quantity.value else 0);
  }

  /** With no negative prices or quantities the figures are never negative. */
  lemma FiguresNonNegative(products: seq<Product>)
    requires forall p :: p in products ==> OrZero(p.price) >= 0 && OrZero(p.quantity) >= 0
    ensures TotalItems(products) >= 0 && InventoryValue(products) >= 0
  {
    SumOfNonNegative(products, Units);
    SumOfNonNegative(products, StockValue);
  }

  /** The figures of two catalogs put together are the sums of their figures. */
  lemma FiguresAdd(a: seq<Product>, b: seq<Product>)
    ensures TotalItems(a + b) == TotalItems(a) + TotalItems(b)
    ensures InventoryValue(a + b) == InventoryValue(a) + InventoryValue(b)
    ensures LowStockCount(a + b) == LowStockCount(a) + LowStockCount(b)
    ensures OutOfStockCount(a + b) == OutOfStockCount(a) + OutOfStockCount(b)
  {
    SumOfConcat(a, b, Units);
    SumOfConcat(a, b, StockValue);
    FilterConcat(a, b, (p: Product) => IsLowStock(p.quantity));
    FilterConcat(a, b, (p: Product) => IsOutOfStock(p.quantity));
  }
}

/** The dashboard's low-stock panel: the first few products at or below the
    low-stock limit, each with its SKU, its badge text and its colour. */
module Dashboard {
  import opened Basics
  import opened Records
  import opened StockLevels
  import InventoryStats
  import Text

  const PanelSize: nat := 5

  datatype PanelStatus = PanelOut | PanelLow

  datatype PanelItem = PanelItem(productId: ProductId, name: Option<string>, skuText: string, badge: string, status: PanelStatus)

  function LowStockProducts(products: seq<Product>): seq<Product>
  {
    Filter(products, (p: Product) => IsLowStock(p.quantity))
  }

  /** One row of the panel: `sku || 'N/A'`, and 'out' or 'low'. */
  function PanelItemOf(p: Product): PanelItem
  {
    PanelItem(p.id, p.name,
      if p.sku.Some? && p.sku.value != "" then p.sku.value else "N/A",
      BadgeText(p.quantity),
      if IsOutOfStock(p.quantity) then PanelOut else PanelLow)
  }

  function PanelItems(ps: seq<Product>): (r: seq<PanelItem>)
    ensures |r| == |ps|
    ensures forall i :: 0 <= i < |ps| ==> r[i] == PanelItemOf(ps[i])
  {
    if ps == [] then [] else [PanelItemOf(ps[0])] + PanelItems(ps[1..])
  }

  /** `filter(quantity <= 5).slice(0, 5).map(...)`. */
  function LowStockPanel(products: seq<Product>): seq<PanelItem>
  {
    PanelItems(Take(LowStockProducts(products), PanelSize))
  }

  /** The panel is shown when some product is low on stock. */
  predicate PanelShown(products: seq<Product>)
  {
    |LowStockProducts(products)| > 0
  }

  /** The panel holds the first five low-stock products (fewer if there are
      fewer), in catalog order; each is badged 'Agotado' exactly when its
      quantity is 0 or less and with its unit count otherwise. */
  lemma PanelContents(products: seq<Product>)
    ensures var low := LowStockProducts(products);
            var panel := LowStockPanel(products);
            && |panel| == (if |low| < PanelSize then |low| else PanelSize)
            && |low| == InventoryStats.LowStockCount(products)
            && IsSubsequence(low, products)
            && (forall i :: 0 <= i < |panel| ==>
                  && low[i] in products && low[i].quantity.Some? && low[i].quantity.value <= LowStockLimit
                  && panel[i].productId == low[i].id
                  && (panel[i].badge == "Agotado" <==> low[i].quantity.value <= 0)
                  && (low[i].quantity.value > 0 ==> panel[i].badge == Text.IntText(low[i].quantity.value) + " uds.")
                  && (panel[i].status == PanelOut <==> low[i].quantity.value <= 0))
  {
    var low := LowStockProducts(products);
    FilterIsSubsequence(products, (p: Product) => IsLowStock(p.quantity));
    forall i | 0 <= i < |LowStockPanel(products)|
      ensures BadgeText(low[i].quantity) == "Agotado" <==> IsOutOfStock(low[i].quantity)
      ensures !IsOutOfStock(low[i].quantity) ==> BadgeText(low[i].quantity) == QuantityText(low[i].quantity) + " uds."
    {
      BadgeAgotadoIffOut(low[i].quantity);
    }
  }

  /** The panel and its empty state follow the low-stock count. */
  lemma PanelShownIffLowStock(products: seq<Product>)
    ensures PanelShown(products) <==> InventoryStats.LowStockCount(products) > 0
    ensures PanelShown(products) <==> exists p :: p in products && IsLowStock(p.quantity)
    ensures PanelShown(products) <==> |LowStockPanel(products)| > 0
  {
    FilterMembership(products, (p: Product) => IsLowStock(p.quantity));
    if PanelShown(products) {
      assert LowStockProducts(products)[0] in LowStockProducts(products);
    }
  }
}

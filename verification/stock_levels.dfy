/** The stock thresholds shared by the catalog list, the dashboard and the
    product page. JavaScript's `q <= 0` and `q <= 5` are false when the
    quantity is absent (or NaN), so an absent quantity is never "low". */
module StockLevels {
  import opened Basics
  import Text

  const LowStockLimit: int := 5

  predicate IsOutOfStock(q: Option<int>)
  {
    q.Some? && q.value <= 0
  }

  predicate IsLowStock(q: Option<int>)
  {
    q.Some? && q.value <= LowStockLimit
  }

  datatype Status = Out | Low | In

  /** The badge colour tier of the catalog list. */
  function StatusOf(q: Option<int>): Status
  {
    if IsOutOfStock(q) then Out else if IsLowStock(q) then Low else In
  }

  lemma StatusTiers(q: Option<int>)
    ensures StatusOf(q) == Out <==> q.Some? && q.value <= 0
    ensures StatusOf(q) == Low <==> q.Some? && 0 < q.value <= 5
    ensures StatusOf(q) == In <==> q.None? || q.value > 5
  {
  }

  /** An out-of-stock quantity is also a low-stock one. */
  lemma OutOfStockIsLowStock(q: Option<int>)
    ensures IsOutOfStock(q) ==> IsLowStock(q)
    ensures StatusOf(q) != In <==> IsLowStock(q)
  {
  }

  /** `${quantity}` in a template literal. */
  function QuantityText(q: Option<int>): string
  {
    if q.Some? then Text.IntText(q.value) else "undefined"
  }

  /** The badge text: "Agotado" when out of stock, else the unit count. */
  function BadgeText(q: Option<int>): string
  {
    if IsOutOfStock(q) then "Agotado" else QuantityText(q) + " uds."
  }

  lemma {:induction false} BadgeAgotadoIffOut(q: Option<int>)
    ensures BadgeText(q) == "Agotado" <==> IsOutOfStock(q)
    ensures !IsOutOfStock(q) ==> BadgeText(q) == QuantityText(q) + " uds."
  {
    if !IsOutOfStock(q) {
      var t := QuantityText(q) + " uds.";
      assert t[|t| - 1] == '.';
      assert "Agotado"[6] == 'o';
    }
  }

  /** The label next to the quantity on the product page. */
  function DetailLabel(q: Option<int>): string
  {
    match StatusOf(q)
    case Out => "Agotado"
    case Low => "Stock Bajo"
    case In => "En Stock"
  }

  lemma DetailLabelTiers(q: Option<int>)
    ensures DetailLabel(q) == "Agotado" <==> q.Some? && q.value <= 0
    ensures DetailLabel(q) == "Stock Bajo" <==> q.Some? && 0 < q.value <= 5
    ensures DetailLabel(q) == "En Stock" <==> q.None? || q.value > 5
  {
  }
}

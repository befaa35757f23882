/** The sales page: a shopping cart of lines, the product picker that feeds
    it, and the checkout that turns the cart into a sale record and hands it
    to the store. */
module Cart {
  import opened Basics
  import opened Records
  import Text
  import Normalize
  import InventoryStore

  datatype CartLine = CartLine(
    productId: ProductId,
    productName: Option<string>,
    price: Option<Money>,
    quantity: int,
    maxQuantity: Option<int>)

  datatype CheckoutError = EmptyCart

  const DefaultPaymentMethod: string := "Efectivo"

  // ---------------------------------------------------------------- totals

  /** `item.price * item.quantity`. */
  function LineAmount(line: CartLine): Option<Money>
  {
    Times(line.price, Some(line.quantity))
  }

  /** `total`: the running sum of the line amounts; a line without a price
      makes it NaN. */
  function Total(lines: seq<CartLine>): Option<Money>
  {
    if lines == [] then Some(0) else Plus(LineAmount(lines[0]), Total(lines[1..]))
  }

  predicate AllPriced(lines: seq<CartLine>)
  {
    forall i :: 0 <= i < |lines| ==> lines[i].price.Some?
  }

  function PricedAmount(line: CartLine): int
  {
    OrZero(line.price) * line.quantity
  }

  /** The total is the sum of price times quantity over all lines (0 for an
      empty cart), and NaN exactly when some line has no price. */
  lemma {:induction false} TotalIsSumOfLines(lines: seq<CartLine>)
    ensures Total(lines) == if AllPriced(lines) then Some(SumOf(lines, PricedAmount)) else None
    ensures Total([]) == Some(0)
    decreases |lines|
  {
    if lines != [] {
      TotalIsSumOfLines(lines[1..]);
      assert AllPriced(lines) <==> lines[0].price.Some? && AllPriced(lines[1..]) by {
        if lines[0].price.Some? && AllPriced(lines[1..]) {
          forall i | 0 <= i < |lines| ensures lines[i].price.Some? {
            if i > 0 { assert lines[i] == lines[1..][i - 1]; }
          }
        }
      }
    }
  }

  // ---------------------------------------------------------------- picker

  predicate InStock(p: Product)
  {
    p.quantity.Some? && p.quantity.value > 0
  }

  /** The lowercased query occurs in the lowercased name or SKU. */
  predicate MatchesPicker(p: Product, query: string)
  {
    var q := Text.Lower(query);
    || (p.name.Some? && Text.Includes(Text.Lower(p.name.value), q))
    || (p.sku.Some? && Text.Includes(Text.Lower(p.sku.value), q))
  }

  /** The products the picker lists for a search query. */
  function PickerProducts(products: seq<Product>, query: string): seq<Product>
  {
    if query != ""
    then Filter(products, (p: Product) => MatchesPicker(p, query) && InStock(p))
    else Filter(products, InStock)
  }

  lemma PickerListsMatchingInStock(products: seq<Product>, query: string)
    ensures forall p :: p in PickerProducts(products, query) <==>
      p in products && InStock(p) && (query == "" || MatchesPicker(p, query))
    ensures IsSubsequence(PickerProducts(products, query), products)
  {
    if query != "" {
      FilterMembership(products, (p: Product) => MatchesPicker(p, query) && InStock(p));
      FilterIsSubsequence(products, (p: Product) => MatchesPicker(p, query) && InStock(p));
    } else {
      FilterMembership(products, InStock);
      FilterIsSubsequence(products, InStock);
    }
  }

  // ---------------------------------------------------------------- cart lines

  /** `findIndex(item => item.productId === id)`. */
  function LineIndex(lines: seq<CartLine>, id: ProductId): (k: int)
    ensures -1 <= k < |lines|
    ensures k >= 0 ==> lines[k].productId == id
    ensures k >= 0 ==> forall j :: 0 <= j < k ==> lines[j].productId != id
    ensures k == -1 <==> forall j :: 0 <= j < |lines| ==> lines[j].productId != id
  {
    if lines == [] then -1
    else if lines[0].productId == id then 0
    else
      var k := LineIndex(lines[1..], id);
      if k < 0 then -1 else k + 1
  }

  /** In a cart without duplicates, a line is found at its own index. */
  lemma LineIndexOfDistinct(lines: seq<CartLine>, i: int)
    requires DistinctIds(lines)
    requires 0 <= i < |lines|
    ensures LineIndex(lines, lines[i].productId) == i
  {
  }

  predicate DistinctIds(lines: seq<CartLine>)
  {
    forall i, j :: 0 <= i < j < |lines| ==> lines[i].productId != lines[j].productId
  }

  predicate PositiveQuantities(lines: seq<CartLine>)
  {
    forall i :: 0 <= i < |lines| ==> lines[i].quantity >= 1
  }

  /** Every line stays within the stock recorded when it was added. */
  predicate WithinStock(lines: seq<CartLine>)
  {
    forall i :: 0 <= i < |lines| && lines[i].maxQuantity.Some? ==> lines[i].quantity <= lines[i].maxQuantity.value
  }

  /** `currentQuantity >= product.quantity`, false when the stock is absent. */
  predicate AtStock(current: int, stock: Option<int>)
  {
    stock.Some? && current >= stock.value
  }

  function NewLine(p: Product): CartLine
  {
    CartLine(p.id, p.name, p.price, 1, p.quantity)
  }

  function OneMore(line: CartLine): CartLine
  {
    line.(quantity := line.quantity + 1)
  }

  /** The cart after `addToCart(p)`. */
  function AddedLines(lines: seq<CartLine>, p: Product): seq<CartLine>
  {
    var k := LineIndex(lines, p.id);
    if k < 0 then lines + [NewLine(p)]
    else if AtStock(lines[k].quantity, p.quantity) then lines
    else lines[k := OneMore(lines[k])]
  }

  /** A product not yet in the cart is appended as one line of quantity 1
      whose cap is the product's stock; the earlier lines are untouched. */
  lemma AddNewProduct(lines: seq<CartLine>, p: Product)
    requires forall j :: 0 <= j < |lines| ==> lines[j].productId != p.id
    ensures AddedLines(lines, p) == lines + [CartLine(p.id, p.name, p.price, 1, p.quantity)]
  {
  }

  /** A product already in the cart raises only its own line by one, unless
      that line already holds the product's whole stock. */
  lemma AddExistingProduct(lines: seq<CartLine>, p: Product, i: int)
    requires DistinctIds(lines)
    requires 0 <= i < |lines| && lines[i].productId == p.id
    ensures var r := AddedLines(lines, p);
            && |r| == |lines|
            && (AtStock(lines[i].quantity, p.quantity) ==> r == lines)
            && (!AtStock(lines[i].quantity, p.quantity) ==> r[i].quantity == lines[i].quantity + 1)
            && r[i].productId == lines[i].productId && r[i].price == lines[i].price
            && r[i].maxQuantity == lines[i].maxQuantity
            && forall j :: 0 <= j < |lines| && j != i ==> r[j] == lines[j]
  {
    assert LineIndex(lines, p.id) == i;
  }

  /** Adding never produces two lines for one product. */
  lemma AddKeepsDistinct(lines: seq<CartLine>, p: Product)
    requires DistinctIds(lines)
    ensures DistinctIds(AddedLines(lines, p))
  {
  }

  lemma AddKeepsPositive(lines: seq<CartLine>, p: Product)
    requires PositiveQuantities(lines)
    ensures PositiveQuantities(AddedLines(lines, p))
  {
  }

  /** While the product's stock is still the one its line recorded, adding
      keeps every line within its cap; an in-stock product is needed for a
      new line, as the picker guarantees. */
  lemma AddKeepsWithinStock(lines: seq<CartLine>, p: Product)
    requires WithinStock(lines)
    requires InStock(p)
    requires forall j :: 0 <= j < |lines| && lines[j].productId == p.id ==> lines[j].maxQuantity == p.quantity
    ensures WithinStock(AddedLines(lines, p))
  {
  }

  lemma {:induction false} TotalConcat(a: seq<CartLine>, b: seq<CartLine>)
    ensures Total(a + b) == Plus(Total(a), Total(b))
    decreases |a|
  {
    if a == [] {
      assert a + b == b;
    } else {
      assert (a + b)[0] == a[0];
      assert (a + b)[1..] == a[1..] + b;
      TotalConcat(a[1..], b);
    }
  }

  /** Adding a new product raises the total by its price. */
  lemma AddNewRaisesTotal(lines: seq<CartLine>, p: Product)
    requires LineIndex(lines, p.id) < 0
    ensures Total(AddedLines(lines, p)) == Plus(Total(lines), p.price)
  {
    TotalConcat(lines, [NewLine(p)]);
  }

  /** Adding a product already in the cart raises the total by that line's
      price, unless the line is at the stock limit. */
  lemma AddExistingRaisesTotal(lines: seq<CartLine>, p: Product, i: int)
    requires DistinctIds(lines)
    requires 0 <= i < |lines| && lines[i].productId == p.id
    requires !AtStock(lines[i].quantity, p.quantity)
    ensures Total(AddedLines(lines, p)) == Plus(Total(lines), lines[i].price)
  {
    LineIndexOfDistinct(lines, i);
    AddedTotal(lines, p, i);
  }

  lemma AddedTotal(lines: seq<CartLine>, p: Product, i: int)
    requires 0 <= i < |lines| && LineIndex(lines, p.id) == i
    requires !AtStock(lines[i].quantity, p.quantity)
    ensures Total(AddedLines(lines, p)) == Plus(Total(lines), lines[i].price)
  {
    var line := lines[i];
    var up := OneMore(line);
    var ta, tb := Total(lines[..i]), Total(lines[i + 1..]);
    calc {
      Total(AddedLines(lines, p));
      { AddedAt(lines, p, i); }
      Total(lines[i := up]);
      { TotalAfterUpdate(lines, i, up); }
      Plus(Plus(ta, LineAmount(up)), tb);
      { OneMoreUnit(line);
        PlusShift(ta, LineAmount(line), tb, line.price, LineAmount(up)); }
      Plus(Plus(Plus(ta, LineAmount(line)), tb), line.price);
      { TotalAfterUpdate(lines, i, up); }
      Plus(Total(lines), line.price);
    }
  }

  lemma TotalAfterUpdate(lines: seq<CartLine>, i: int, up: CartLine)
    requires 0 <= i < |lines|
    ensures Total(lines) == Plus(Plus(Total(lines[..i]), LineAmount(lines[i])), Total(lines[i + 1..]))
    ensures Total(lines[i := up]) == Plus(Plus(Total(lines[..i]), LineAmount(up)), Total(lines[i + 1..]))
  {
    assert lines == lines[..i] + [lines[i]] + lines[i + 1..];
    assert lines[i := up] == lines[..i] + [up] + lines[i + 1..];
    TotalAround(lines[..i], lines[i], lines[i + 1..]);
    TotalAround(lines[..i], up, lines[i + 1..]);
  }

  lemma AddedAt(lines: seq<CartLine>, p: Product, i: int)
    requires 0 <= i < |lines| && LineIndex(lines, p.id) == i
    requires !AtStock(lines[i].quantity, p.quantity)
    ensures AddedLines(lines, p) == lines[i := OneMore(lines[i])]
  {
    var r := AddedLines(lines, p);
    var u := lines[i := OneMore(lines[i])];
    assert |r| == |u|;
    forall j | 0 <= j < |r| ensures r[j] == u[j] {}
  }

  /** One more unit adds one unit price to a line's amount. */
  lemma OneMoreUnit(line: CartLine)
    ensures LineAmount(OneMore(line)) == Plus(LineAmount(line), line.price)
  {
    if line.price.Some? {
      calc {
        line.price.value * (line.quantity + 1);
        line.price.value * line.quantity + line.price.value;
      }
    }
  }

  lemma PlusShift(ta: Option<Money>, x: Option<Money>, tb: Option<Money>, d: Option<Money>, y: Option<Money>)
    requires y == Plus(x, d)
    ensures Plus(Plus(ta, y), tb) == Plus(Plus(Plus(ta, x), tb), d)
  {
  }

  lemma TotalAround(a: seq<CartLine>, line: CartLine, b: seq<CartLine>)
    ensures Total(a + [line] + b) == Plus(Plus(Total(a), LineAmount(line)), Total(b))
  {
    TotalConcat(a + [line], b);
    TotalConcat(a, [line]);
  }

  /** The cart after `removeFromCart(index)`: `splice(index, 1)`, where a
      negative index counts from the end and one past the end removes
      nothing. */
  function RemovedLines(lines: seq<CartLine>, index: int): seq<CartLine>
  {
    var start := if index >= 0 then index else if |lines| + index >= 0 then |lines| + index else 0;
    if start < |lines| then lines[..start] + lines[start + 1..] else lines
  }

  /** Removing index `i` deletes exactly that line and keeps the others in
      order. */
  lemma RemoveDeletesLine(lines: seq<CartLine>, i: int)
    requires 0 <= i < |lines|
    ensures var r := RemovedLines(lines, i);
            && |r| == |lines| - 1
            && (forall j :: 0 <= j < i ==> r[j] == lines[j])
            && (forall j :: i <= j < |r| ==> r[j] == lines[j + 1])
  {
  }

  lemma RemoveOutOfRange(lines: seq<CartLine>, i: int)
    requires i >= |lines|
    ensures RemovedLines(lines, i) == lines
  {
  }

  /** Removal keeps the cart's invariants: it only deletes lines. */
  lemma {:induction false} RemoveKeepsInvariants(lines: seq<CartLine>, i: int)
    requires DistinctIds(lines) && PositiveQuantities(lines) && WithinStock(lines)
    ensures var r := RemovedLines(lines, i);
            DistinctIds(r) && PositiveQuantities(r) && WithinStock(r) && IsSubsequence(r, lines)
  {
    var r := RemovedLines(lines, i);
    var start := if i >= 0 then i else if |lines| + i >= 0 then |lines| + i else 0;
    if start < |lines| {
      forall a, b | 0 <= a < b < |r| ensures r[a].productId != r[b].productId {
        var a' := if a < start then a else a + 1;
        var b' := if b < start then b else b + 1;
        assert r[a] == lines[a'] && r[b] == lines[b'];
      }
      forall a | 0 <= a < |r| ensures r[a] == lines[if a < start then a else a + 1] {}
      SubsequenceDeleteOne(lines, start);
    } else {
      IsSubsequenceOfSelf(lines);
    }
  }

  lemma {:induction false} SubsequenceDeleteOne(s: seq<CartLine>, k: int)
    requires 0 <= k < |s|
    ensures IsSubsequence(s[..k] + s[k + 1..], s)
    decreases k
  {
    if k == 0 {
      assert s[..0] + s[1..] == s[1..];
      IsSubsequenceOfSelf(s[1..]);
      SubsequenceOfTail(s[1..], s);
    } else {
      SubsequenceDeleteOne(s[1..], k - 1);
      assert s[1..][..k - 1] + s[1..][k..] == (s[..k] + s[k + 1..])[1..];
      assert (s[..k] + s[k + 1..])[0] == s[0];
    }
  }

  /** `newQuantity > maxQuantity`, false when the cap is absent. */
  predicate Exceeds(newQuantity: int, maxQuantity: Option<int>)
  {
    maxQuantity.Some? && newQuantity > maxQuantity.value
  }

  /** The cart after `updateItemQuantity(index, newQuantity)`. */
  function UpdatedLines(lines: seq<CartLine>, index: int, newQuantity: int): seq<CartLine>
    requires 0 <= index < |lines|
  {
    if Exceeds(newQuantity, lines[index].maxQuantity) then lines
    else if newQuantity <= 0 then RemovedLines(lines, index)
    else lines[index := lines[index].(quantity := newQuantity)]
  }

  /** The cap is checked first; then a quantity of 0 or less removes the
      line; otherwise only that line's quantity is set. */
  lemma UpdateCases(lines: seq<CartLine>, index: int, newQuantity: int)
    requires 0 <= index < |lines|
    ensures var r := UpdatedLines(lines, index, newQuantity);
            && (Exceeds(newQuantity, lines[index].maxQuantity) ==> r == lines)
            && (!Exceeds(newQuantity, lines[index].maxQuantity) && newQuantity <= 0 ==>
                  |r| == |lines| - 1 && r == lines[..index] + lines[index + 1..])
            && (!Exceeds(newQuantity, lines[index].maxQuantity) && newQuantity > 0 ==>
                  |r| == |lines| && r[index].quantity == newQuantity
                  && r[index] == lines[index].(quantity := newQuantity)
                  && forall j :: 0 <= j < |lines| && j != index ==> r[j] == lines[j])
  {
  }

  lemma UpdateKeepsInvariants(lines: seq<CartLine>, index: int, newQuantity: int)
    requires 0 <= index < |lines|
    requires DistinctIds(lines) && PositiveQuantities(lines) && WithinStock(lines)
    ensures var r := UpdatedLines(lines, index, newQuantity);
            DistinctIds(r) && PositiveQuantities(r) && WithinStock(r)
  {
    if !Exceeds(newQuantity, lines[index].maxQuantity) && newQuantity <= 0 {
      RemoveKeepsInvariants(lines, index);
    }
  }

  // ---------------------------------------------------------------- checkout

  function SaleItemOf(line: CartLine): SaleItem
  {
    SaleItem(line.productId, line.productName, line.quantity, line.price, LineAmount(line))
  }

  function SaleItems(lines: seq<CartLine>): (items: seq<SaleItem>)
    ensures |items| == |lines|
    ensures forall i :: 0 <= i < |lines| ==> items[i] == SaleItemOf(lines[i])
  {
    if lines == [] then [] else [SaleItemOf(lines[0])] + SaleItems(lines[1..])
  }

  /** The sum of the stored subtotals, NaN-propagating. */
  function SubtotalSum(items: seq<SaleItem>): Option<Money>
  {
    if items == [] then Some(0) else Plus(items[0].subtotal, SubtotalSum(items[1..]))
  }

  /** The sale record `handleCheckout` builds, or the refusal of an empty
      cart. */
  function BuildSale(lines: seq<CartLine>, paymentMethod: string, notes: string): Result<SaleDraft, CheckoutError>
  {
    if |lines| == 0 then Err(EmptyCart)
    else Ok(SaleDraft(SaleItems(lines), Total(lines), paymentMethod, Normalize.TrimOrNull(notes)))
  }

  /** Checkout refuses an empty cart; otherwise there is one item per line,
      each item's subtotal is its price times its quantity, and the sale's
      total is the sum of the subtotals. */
  lemma {:induction false} CheckoutRecord(lines: seq<CartLine>, paymentMethod: string, notes: string)
    ensures BuildSale(lines, paymentMethod, notes).Err? <==> lines == []
    ensures BuildSale(lines, paymentMethod, notes).Ok? ==>
      var d := BuildSale(lines, paymentMethod, notes).value;
      && |d.items| == |lines|
      && (forall i :: 0 <= i < |lines| ==>
            d.items[i].productId == lines[i].productId && d.items[i].quantity == lines[i].quantity
            && d.items[i].price == lines[i].price
            && d.items[i].subtotal == Times(lines[i].price, Some(lines[i].quantity)))
      && d.total == SubtotalSum(d.items)
      && d.paymentMethod == paymentMethod
  {
    SubtotalsAddUp(lines);
  }

  lemma {:induction false} SubtotalsAddUp(lines: seq<CartLine>)
    ensures SubtotalSum(SaleItems(lines)) == Total(lines)
    decreases |lines|
  {
    if lines != [] {
      SubtotalsAddUp(lines[1..]);
      assert SaleItems(lines)[1..] == SaleItems(lines[1..]);
    }
  }

  // ---------------------------------------------------------------- page state

  class SalesPage {
    var lines: seq<CartLine>
    var notes: string
    var paymentMethod: string
    var showProductModal: bool
    var searchQuery: string

    ghost predicate Valid()
      reads this
    {
      DistinctIds(lines) && PositiveQuantities(lines)
    }

    constructor ()
      ensures Valid()
      ensures lines == [] && notes == "" && paymentMethod == DefaultPaymentMethod
      ensures !showProductModal && searchQuery == ""
    {
      lines, notes, paymentMethod := [], "", DefaultPaymentMethod;
      showProductModal, searchQuery := false, "";
    }

    /** `addToCart`: on the stock alert nothing changes; otherwise the cart
        grows and the picker closes with its search cleared. */
    method AddToCart(p: Product)
      requires Valid()
      modifies this
      ensures Valid()
      ensures lines == AddedLines(old(lines), p)
      ensures notes == old(notes) && paymentMethod == old(paymentMethod)
      ensures var k := LineIndex(old(lines), p.id);
              if k >= 0 && AtStock(old(lines)[k].quantity, p.quantity)
              then showProductModal == old(showProductModal) && searchQuery == old(searchQuery)
              else !showProductModal && searchQuery == ""
    {
      AddKeepsDistinct(lines, p);
      AddKeepsPositive(lines, p);
      var existingItemIndex := LineIndex(lines, p.id);
      if existingItemIndex >= 0 {
        var updatedItems := lines;
        var currentQuantity := updatedItems[existingItemIndex].quantity;
        if AtStock(currentQuantity, p.quantity) {
          return;
        }
        updatedItems := updatedItems[existingItemIndex := updatedItems[existingItemIndex].(quantity := currentQuantity + 1)];
        lines := updatedItems;
      } else {
        lines := lines + [NewLine(p)];
      }
      showProductModal := false;
      searchQuery := "";
    }

    /** `removeFromCart`. */
    method RemoveFromCart(index: int)
      requires Valid()
      modifies this
      ensures Valid()
      ensures lines == RemovedLines(old(lines), index)
      ensures notes == old(notes) && paymentMethod == old(paymentMethod)
      ensures showProductModal == old(showProductModal) && searchQuery == old(searchQuery)
    {
      RemoveKeepsDistinctPositive(lines, index);
      var updatedItems := lines;
      updatedItems := RemovedLines(updatedItems, index);
      lines := updatedItems;
    }

    /** `updateItemQuantity`: the index comes from a rendered line. */
    method UpdateItemQuantity(index: int, newQuantity: int)
      requires Valid()
      requires 0 <= index < |lines|
      modifies this
      ensures Valid()
      ensures lines == UpdatedLines(old(lines), index, newQuantity)
      ensures notes == old(notes) && paymentMethod == old(paymentMethod)
      ensures showProductModal == old(showProductModal) && searchQuery == old(searchQuery)
    {
      var maxQuantity := lines[index].maxQuantity;
      if Exceeds(newQuantity, maxQuantity) {
        return;
      }
      if newQuantity <= 0 {
        RemoveFromCart(index);
      } else {
        var updatedItems := lines;
        updatedItems := updatedItems[index := updatedItems[index].(quantity := newQuantity)];
        lines := updatedItems;
      }
    }

    /** `handleCheckout`: an empty cart is refused and nothing changes;
        otherwise the sale is registered in the store and the page is
        cleared. */
    method Checkout(store: InventoryStore.Store, saleId: string, now: Time) returns (r: Result<SaleDraft, CheckoutError>)
      requires Valid()
      modifies this, store
      ensures Valid()
      ensures r == BuildSale(old(lines), old(paymentMethod), old(notes))
      ensures r.Err? ==> lines == old(lines) && notes == old(notes) && paymentMethod == old(paymentMethod)
                         && store.sales == old(store.sales) && store.stock == old(store.stock)
                         && store.movements == old(store.movements)
      ensures r.Ok? ==> lines == [] && notes == "" && paymentMethod == DefaultPaymentMethod
      ensures r.Ok? ==>
        && store.sales == old(store.sales) + [Sale(saleId, Some(now), Some(r.value.items), r.value.total, Some(r.value.paymentMethod), r.value.notes)]
        && store.stock == InventoryStore.AppliedSale(old(store.stock), r.value.items)
        && store.movements == old(store.movements) + InventoryStore.SaleMovements(old(store.stock).Keys, r.value.items, saleId, now)
      ensures showProductModal == old(showProductModal) && searchQuery == old(searchQuery)
    {
      if |lines| == 0 {
        return Err(EmptyCart);
      }
      var saleData := SaleDraft(SaleItems(lines), Total(lines), paymentMethod, Normalize.TrimOrNull(notes));
      var _ := store.RegisterSale(saleId, saleData, now);
      r := Ok(saleData);
      lines := [];
      notes := "";
      paymentMethod := DefaultPaymentMethod;
    }
  }

  lemma RemoveKeepsDistinctPositive(lines: seq<CartLine>, index: int)
    requires DistinctIds(lines) && PositiveQuantities(lines)
    ensures DistinctIds(RemovedLines(lines, index)) && PositiveQuantities(RemovedLines(lines, index))
  {
    var start := if index >= 0 then index else if |lines| + index >= 0 then |lines| + index else 0;
    if start < |lines| {
      var r := RemovedLines(lines, index);
      forall a | 0 <= a < |r| ensures r[a] == lines[if a < start then a else a + 1] {}
    }
  }
}

/** The product detail page: the edit form loaded from a catalog product,
    field edits, the save record, the profit margin, the stock value and the
    stock label shown next to the quantity. */
module ProductDetail {
  import opened Basics
  import opened Records
  import opened Text
  import opened StockLevels
  import InventoryStats

  /** The form holds every field as the text of its input. */
  datatype DetailForm = DetailForm(
    name: string,
    sku: string,
    description: string,
    category: string,
    price: string,
    cost: string,
    quantity: string,
    imageUrl: string)

  /** The input names `handleChange` receives. */
  datatype Field = NameField | SkuField | DescriptionField | CategoryField
                 | PriceField | CostField | QuantityField | ImageUrlField

  function Get(form: DetailForm, f: Field): string
  {
    match f
    case NameField => form.name
    case SkuField => form.sku
    case DescriptionField => form.description
    case CategoryField => form.category
    case PriceField => form.price
    case CostField => form.cost
    case QuantityField => form.quantity
    case ImageUrlField => form.imageUrl
  }

  /** `{...prev, [name]: value}`: the named field takes the value and every
      other field keeps its text. */
  function HandleChange(form: DetailForm, f: Field, value: string): (r: DetailForm)
    ensures Get(r, f) == value
    ensures forall g :: g != f ==> Get(r, g) == Get(form, g)
  {
    match f
    case NameField => form.(name := value)
    case SkuField => form.(sku := value)
    case DescriptionField => form.(description := value)
    case CategoryField => form.(category := value)
    case PriceField => form.(price := value)
    case CostField => form.(cost := value)
    case QuantityField => form.(quantity := value)
    case ImageUrlField => form.(imageUrl := value)
  }

  /** Two forms that agree on every field are the same form. */
  lemma FormsByFields(a: DetailForm, b: DetailForm)
    requires forall f :: Get(a, f) == Get(b, f)
    ensures a == b
  {
    assert Get(a, NameField) == Get(b, NameField);
    assert Get(a, SkuField) == Get(b, SkuField);
    assert Get(a, DescriptionField) == Get(b, DescriptionField);
    assert Get(a, CategoryField) == Get(b, CategoryField);
    assert Get(a, PriceField) == Get(b, PriceField);
    assert Get(a, CostField) == Get(b, CostField);
    assert Get(a, QuantityField) == Get(b, QuantityField);
    assert Get(a, ImageUrlField) == Get(b, ImageUrlField);
  }

  /** Typing back what a field held gives the same form, and a second edit
      of a field overrides the first. */
  lemma HandleChangeLaws(form: DetailForm, f: Field, v: string, w: string)
    ensures HandleChange(form, f, Get(form, f)) == form
    ensures HandleChange(HandleChange(form, f, v), f, w) == HandleChange(form, f, w)
  {
    FormsByFields(HandleChange(form, f, Get(form, f)), form);
    FormsByFields(HandleChange(HandleChange(form, f, v), f, w), HandleChange(form, f, w));
  }

  /** `x || ''` for a text field. */
  function TextOrEmpty(x: Option<string>): string
  {
    if x.Some? then x.value else ""
  }

  /** `x ? x.toString() : ''` for an amount. */
  function AmountOrEmpty(x: Option<Money>): string
  {
    if Truthy(x) then MoneyText(x.value) else ""
  }

  /** `x ? x.toString() : ''` for a count. */
  function CountOrEmpty(x: Option<int>): string
  {
    if Truthy(x) then IntText(x.value) else ""
  }

  /** The form filled from the product found by its id. */
  function LoadForm(p: Product): DetailForm
  {
    DetailForm(TextOrEmpty(p.name), TextOrEmpty(p.sku), TextOrEmpty(p.description),
      TextOrEmpty(p.category), AmountOrEmpty(p.price), AmountOrEmpty(p.cost),
      CountOrEmpty(p.quantity), TextOrEmpty(p.imageUrl))
  }

  /** `parseInt` of a loaded count gives the count back when it is truthy,
      and NaN otherwise. */
  lemma ParseCount(x: Option<int>)
    ensures ParseInt(CountOrEmpty(x)) == (if Truthy(x) then x else None)
  {
    if Truthy(x) {
      ParseIntText(x.value);
    } else {
      ParseIntText(0);
    }
  }

  /** A text field loads as '' exactly when the product lacks it or holds
      ''; a number loads as '' exactly when it is missing or 0, and the
      quantity text of a non-zero count reads back as that count. */
  lemma LoadedFields(p: Product)
    ensures LoadForm(p).name == "" <==> p.name.None? || p.name.value == ""
    ensures LoadForm(p).sku == "" <==> p.sku.None? || p.sku.value == ""
    ensures LoadForm(p).price == "" <==> p.price.None? || p.price.value == 0
    ensures LoadForm(p).cost == "" <==> p.cost.None? || p.cost.value == 0
    ensures LoadForm(p).quantity == "" <==> p.quantity.None? || p.quantity.value == 0
    ensures ParseInt(LoadForm(p).quantity) == (if Truthy(p.quantity) then p.quantity else None)
  {
    ParseCount(p.quantity);
  }

  /** The record `handleSave` passes to `updateProduct`: the form's texts
      with the three numbers parsed. */
  datatype UpdatedProduct = UpdatedProduct(
    name: string,
    sku: string,
    description: string,
    category: string,
    price: Money,
    cost: Money,
    quantity: int,
    imageUrl: string)

  datatype SaveError = NameRequired

  /** `handleSave`: an empty name (not trimmed) is refused; otherwise a
      price, cost or quantity that does not parse, or parses to 0, is
      stored as 0. `priceNumber` and `costNumber` are what `parseFloat`
      gives for the form's texts. */
  function Save(form: DetailForm, priceNumber: Option<Money>, costNumber: Option<Money>): Result<UpdatedProduct, SaveError>
  {
    if form.name == "" then Err(NameRequired)
    else Ok(UpdatedProduct(form.name, form.sku, form.description, form.category,
      OrZero(priceNumber), OrZero(costNumber), OrZero(ParseInt(form.quantity)), form.imageUrl))
  }

  /** Save refuses exactly the empty name; an accepted record keeps every
      text of the form and holds the parsed numbers, 0 for what did not
      parse. */
  lemma SaveOutcome(form: DetailForm, priceNumber: Option<Money>, costNumber: Option<Money>)
    ensures Save(form, priceNumber, costNumber).Err? <==> form.name == ""
    ensures form.name != "" ==>
      var u := Save(form, priceNumber, costNumber).value;
      && u.name == form.name && u.sku == form.sku && u.description == form.description
      && u.category == form.category && u.imageUrl == form.imageUrl
      && u.price == (if priceNumber.Some? then priceNumber.value else 0)
      && u.cost == (if costNumber.Some? then costNumber.value else 0)
      && u.quantity == (if ParseInt(form.quantity).Some? then ParseInt(form.quantity).value else 0)
  {
  }

  /** Saving a form loaded from a product, untouched, writes back the
      product's quantity, 0 when it had none. */
  lemma SaveLoadedQuantity(p: Product, priceNumber: Option<Money>, costNumber: Option<Money>)
    requires p.name.Some? && p.name.value != ""
    ensures Save(LoadForm(p), priceNumber, costNumber).Ok?
    ensures Save(LoadForm(p), priceNumber, costNumber).value.quantity == InventoryStats.Units(p)
  {
    LoadedFields(p);
  }

  /** `calculateProfit`: the margin in percent, 0 when either number does
      not parse or the price is 0. */
  function Margin(price: Option<Money>, cost: Option<Money>): real
  {
    if price.None? || cost.None? || price.value == 0 then 0.0
    else ((price.value - cost.value) as real / price.value as real) * 100.0
  }

  /** For a positive price the margin is 100 at zero cost, 0 at cost equal
      to the price, negative exactly when the cost exceeds the price, and
      never above 100 for a non-negative cost. */
  lemma MarginFacts(price: Money, cost: Money)
    requires price > 0
    ensures cost == 0 ==> Margin(Some(price), Some(cost)) == 100.0
    ensures cost == price ==> Margin(Some(price), Some(cost)) == 0.0
    ensures Margin(Some(price), Some(cost)) < 0.0 <==> cost > price
    ensures cost >= 0 ==> Margin(Some(price), Some(cost)) <= 100.0
  {
    var p := price as real;
    var d := (price - cost) as real;
    QuotientFacts(d, p);
    assert Margin(Some(price), Some(cost)) == (d / p) * 100.0;
  }

  /** Division by a positive number keeps the sign, and a quotient of a
      number no larger than the divisor is at most 1. */
  lemma QuotientFacts(d: real, p: real)
    requires p > 0.0
    ensures d / p < 0.0 <==> d < 0.0
    ensures d <= p ==> d / p <= 1.0
    ensures d == p ==> d / p == 1.0
    ensures d == 0.0 ==> d / p == 0.0
  {
    var q := d / p;
    assert q * p == d;
    if q < 0.0 {
      assert (0.0 - q) * p > 0.0;
    }
    if d < 0.0 {
      assert q < 0.0;
    }
    if d <= p {
      assert (1.0 - q) * p == p - d;
    }
  }

  /** What the model knows of `parseFloat` on a field's text `s` with
      result `x`: blank text is NaN, and the rendering of an amount reads
      back as that amount. */
  ghost predicate ReadsAmount(s: string, x: Option<Money>)
  {
    && ((forall i :: 0 <= i < |s| ==> IsSpace(s[i])) ==> x.None?)
    && (forall m :: s == MoneyText(m) ==> x == Some(m))
  }

  /** `calculateTotalValue`: price times quantity, 0 when either does not
      parse. */
  function TotalValue(price: Option<Money>, form: DetailForm): Money
  {
    var quantity := ParseInt(form.quantity);
    if price.None? || quantity.None? then 0 else price.value * quantity.value
  }

  /** The value shown for a loaded, untouched form, from `parseFloat` of
      the loaded price text, is the product's stock value as the dashboards
      count it: a price of 0 loads as '' and reads as NaN, which gives 0
      all the same. */
  lemma TotalValueOfLoaded(p: Product, priceNumber: Option<Money>)
    requires ReadsAmount(LoadForm(p).price, priceNumber)
    ensures priceNumber == (if Truthy(p.price) then p.price else None)
    ensures TotalValue(priceNumber, LoadForm(p)) == InventoryStats.StockValue(p)
  {
    LoadedFields(p);
    ParseCount(p.quantity);
    if Truthy(p.price) {
      assert LoadForm(p).price == MoneyText(p.price.value);
    }
  }

  /** The label beside the quantity, from `parseInt` of the quantity text:
      'Agotado' at 0 or less, 'Stock Bajo' up to 5, 'En Stock' above 5 and
      also when the text does not parse (every comparison with NaN is
      false). */
  function ShownStockLabel(form: DetailForm): (r: string)
    ensures r == "Agotado" <==> ParseInt(form.quantity).Some? && ParseInt(form.quantity).value <= 0
    ensures r == "Stock Bajo" <==> ParseInt(form.quantity).Some? && 0 < ParseInt(form.quantity).value <= LowStockLimit
    ensures r == "En Stock" <==> ParseInt(form.quantity).None? || ParseInt(form.quantity).value > LowStockLimit
  {
    DetailLabelTiers(ParseInt(form.quantity));
    DetailLabel(ParseInt(form.quantity))
  }

  /** A product whose stock is 0 loads with an empty quantity text, which
      does not parse, so the page labels it 'En Stock' where its stock level
      is 'Agotado'. */
  lemma ZeroStockShownInStock(p: Product)
    requires p.quantity == Some(0)
    ensures ShownStockLabel(LoadForm(p)) == "En Stock"
    ensures DetailLabel(p.quantity) == "Agotado"
  {
    ParseCount(p.quantity);
  }

  /** The load mapping with every number rendered whenever it is present,
      0 included. */
  function LoadFormKeepingZero(p: Product): DetailForm
  {
    LoadForm(p).(
      price := if p.price.Some? then MoneyText(p.price.value) else "",
      cost := if p.cost.Some? then MoneyText(p.cost.value) else "",
      quantity := if p.quantity.Some? then IntText(p.quantity.value) else "")
  }

  /** With zero rendered, the label of the loaded form is the product's own
      stock label for every product; the texts load as before, and the
      numbers differ from the as-written load only at 0. */
  lemma KeepingZeroShowsStock(p: Product)
    ensures ShownStockLabel(LoadFormKeepingZero(p)) == DetailLabel(p.quantity)
    ensures forall f :: f != PriceField && f != CostField && f != QuantityField ==>
      Get(LoadFormKeepingZero(p), f) == Get(LoadForm(p), f)
    ensures Truthy(p.price) && Truthy(p.cost) && Truthy(p.quantity) ==> LoadFormKeepingZero(p) == LoadForm(p)
  {
    var form := LoadFormKeepingZero(p);
    if p.quantity.Some? {
      ParseIntText(p.quantity.value);
    } else {
      ParseIntText(0);
    }
    assert ParseInt(form.quantity) == p.quantity;
    assert ShownStockLabel(form) == DetailLabel(ParseInt(form.quantity));
    forall f | f != PriceField && f != CostField && f != QuantityField
      ensures Get(form, f) == Get(LoadForm(p), f)
    {
    }
  }

  /** A product with a positive price and a cost of 0 loads its cost as
      '', which `parseFloat` reads as NaN, so the page shows a margin of 0
      where the product's own numbers give 100. */
  lemma ZeroCostShowsNoMargin(p: Product, priceNumber: Option<Money>, costNumber: Option<Money>)
    requires p.price.Some? && p.price.value > 0 && p.cost == Some(0)
    requires ReadsAmount(LoadForm(p).price, priceNumber) && ReadsAmount(LoadForm(p).cost, costNumber)
    ensures Margin(priceNumber, costNumber) == 0.0
    ensures Margin(p.price, p.cost) == 100.0
  {
    LoadedFields(p);
    assert LoadForm(p).cost == "";
    MarginFacts(p.price.value, 0);
  }

  /** With every present number rendered, the margin the page shows is the
      margin of the product's own price and cost, so a positive price at
      cost 0 shows 100. */
  lemma KeepingZeroShowsMargin(p: Product, priceNumber: Option<Money>, costNumber: Option<Money>)
    requires p.price.Some? && p.cost.Some?
    requires ReadsAmount(LoadFormKeepingZero(p).price, priceNumber) && ReadsAmount(LoadFormKeepingZero(p).cost, costNumber)
    ensures priceNumber == p.price && costNumber == p.cost
    ensures Margin(priceNumber, costNumber) == Margin(p.price, p.cost)
    ensures p.price.value > 0 && p.cost.value == 0 ==> Margin(priceNumber, costNumber) == 100.0
  {
    var form := LoadFormKeepingZero(p);
    assert form.price == MoneyText(p.price.value);
    assert form.cost == MoneyText(p.cost.value);
    if p.price.value > 0 {
      MarginFacts(p.price.value, p.cost.value);
    }
  }
}

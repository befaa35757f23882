/** The add-product form: the checks a new product must pass, the record it
    is saved as, the category picker's search, the creation of a new
    category from that search, and the form's own fields. */
module AddProduct {
  import opened Basics
  import opened Records
  import opened Text
  import opened Normalize
  import InventoryStore

  const NoCategory: string := "Sin categoría"

  datatype FormError = NameRequired | InvalidPrice | InvalidCost | InvalidQuantity

  /** The product record handed to `addProduct`. */
  datatype ProductDraft = ProductDraft(
    name: string,
    sku: Option<string>,
    description: Option<string>,
    category: string,
    price: Money,
    cost: Money,
    quantity: int)

  /** `handleSaveProduct`'s checks and record. The three numbers are what
      `parseFloat`/`parseInt` made of the fields, `None` for NaN. */
  function Validate(name: string, sku: string, description: string, category: string,
                    price: Option<Money>, cost: Option<Money>, quantity: Option<int>): Result<ProductDraft, FormError>
  {
    if Trim(name) == "" then Err(NameRequired)
    else if price.None? || price.value <= 0 then Err(InvalidPrice)
    else if cost.None? || cost.value <= 0 then Err(InvalidCost)
    else if quantity.None? || quantity.value < 0 then Err(InvalidQuantity)
    else Ok(Draft(name, sku, description, category, price.value, cost.value, quantity.value))
  }

  /** The record of an accepted form: SKU and description trimmed or null,
      the category trimmed or 'Sin categoría'. */
  function Draft(name: string, sku: string, description: string, category: string,
                 price: Money, cost: Money, quantity: int): ProductDraft
  {
    ProductDraft(name, TrimOrNull(sku), TrimOrNull(description), TrimOr(category, NoCategory), price, cost, quantity)
  }

  /** The checks run in a fixed order and each rejection names the first
      check that failed: a blank name before any number, then the price,
      the cost and the quantity. */
  lemma ValidationOrder(name: string, sku: string, description: string, category: string,
                        price: Option<Money>, cost: Option<Money>, quantity: Option<int>)
    ensures var r := Validate(name, sku, description, category, price, cost, quantity);
            var nameOk := exists i :: 0 <= i < |name| && !IsSpace(name[i]);
            var priceOk := price.Some? && price.value > 0;
            var costOk := cost.Some? && cost.value > 0;
            var quantityOk := quantity.Some? && quantity.value >= 0;
            && (r == Err(NameRequired) <==> !nameOk)
            && (r == Err(InvalidPrice) <==> nameOk && !priceOk)
            && (r == Err(InvalidCost) <==> nameOk && priceOk && !costOk)
            && (r == Err(InvalidQuantity) <==> nameOk && priceOk && costOk && !quantityOk)
            && (r.Ok? <==> nameOk && priceOk && costOk && quantityOk)
  {
    TrimEmptyIffBlank(name);
  }

  /** An accepted record keeps the name as typed, trims SKU and description
      or leaves them out when blank, trims the category or files it under
      'Sin categoría', and carries the checked numbers. */
  lemma AcceptedRecord(name: string, sku: string, description: string, category: string,
                       price: Option<Money>, cost: Option<Money>, quantity: Option<int>, d: ProductDraft)
    requires Validate(name, sku, description, category, price, cost, quantity) == Ok(d)
    ensures d.name == name
    ensures d.sku.None? <==> forall i :: 0 <= i < |sku| ==> IsSpace(sku[i])
    ensures d.sku.Some? ==> d.sku.value == Trim(sku)
    ensures d.description.None? <==> forall i :: 0 <= i < |description| ==> IsSpace(description[i])
    ensures d.description.Some? ==> d.description.value == Trim(description)
    ensures Trim(category) == "" ==> d.category == NoCategory
    ensures Trim(category) != "" ==> d.category == Trim(category)
    ensures price.Some? && d.price == price.value > 0
    ensures cost.Some? && d.cost == cost.value > 0
    ensures quantity.Some? && d.quantity == quantity.value >= 0
  {
    if Trim(name) == "" || price.None? || price.value <= 0 || cost.None? || cost.value <= 0
       || quantity.None? || quantity.value < 0 {
      assert false;
    }
    assert d == Draft(name, sku, description, category, price.value, cost.value, quantity.value);
  }

  // ---------------------------------------------------------------- categories

  /** The picker's list for a search. */
  function FilterCategories(categories: seq<Category>, search: string): seq<Category>
  {
    if Trim(search) == "" then categories
    else Filter(categories, (c: Category) => Includes(Lower(c.name), Lower(search)))
  }

  /** A blank search lists every category; otherwise a category is listed
      when its name contains the search, ignoring case. */
  lemma FilterCategoriesListed(categories: seq<Category>, search: string)
    ensures (forall i :: 0 <= i < |search| ==> IsSpace(search[i])) ==> FilterCategories(categories, search) == categories
    ensures (exists i :: 0 <= i < |search| && !IsSpace(search[i])) ==>
      forall c :: c in FilterCategories(categories, search) <==>
        c in categories && exists k :: OccursAt(Lower(c.name), Lower(search), k)
    ensures IsSubsequence(FilterCategories(categories, search), categories)
  {
    TrimEmptyIffBlank(search);
    var keep := (c: Category) => Includes(Lower(c.name), Lower(search));
    FilterMembership(categories, keep);
    FilterIsSubsequence(categories, keep);
    IsSubsequenceOfSelf(categories);
    forall c: Category ensures keep(c) <==> exists k :: OccursAt(Lower(c.name), Lower(search), k) {
      assert keep(c) == Includes(Lower(c.name), Lower(search));
      IncludesIffOccurs(Lower(c.name), Lower(search));
    }
  }

  datatype CategoryError = BlankCategory | DuplicateCategory

  /** Whether a category's name equals `s`, ignoring case. */
  predicate SameName(c: Category, s: string)
  {
    Lower(c.name) == Lower(s)
  }

  /** `addNewCategory` as written: the duplicate check compares the search
      as typed, while the name stored is the trimmed search. */
  function NewCategoryAsWritten(categories: seq<Category>, search: string): Result<string, CategoryError>
  {
    if Trim(search) == "" then Err(BlankCategory)
    else if exists i :: 0 <= i < |categories| && SameName(categories[i], search) then Err(DuplicateCategory)
    else Ok(Trim(search))
  }

  /** As written, a blank search is refused, a search equal to an existing
      name in any case is refused, and anything else stores the trimmed
      search, which may then equal an existing name. */
  lemma NewCategoryAsWrittenChecks(categories: seq<Category>, search: string)
    ensures NewCategoryAsWritten(categories, search) == Err(BlankCategory) <==> forall i :: 0 <= i < |search| ==> IsSpace(search[i])
    ensures NewCategoryAsWritten(categories, search) == Err(DuplicateCategory) <==>
      && (exists i :: 0 <= i < |search| && !IsSpace(search[i]))
      && exists c :: c in categories && Lower(c.name) == Lower(search)
    ensures NewCategoryAsWritten(categories, search).Ok? ==>
      && NewCategoryAsWritten(categories, search).value == Trim(search) != ""
      && forall c :: c in categories ==> Lower(c.name) != Lower(search)
  {
    TrimEmptyIffBlank(search);
    SameNameListed(categories, search);
  }

  /** A category of the list has the name `s` exactly when some index of
      the list holds one. */
  lemma SameNameListed(categories: seq<Category>, s: string)
    ensures (exists i :: 0 <= i < |categories| && SameName(categories[i], s))
       <==> exists c :: c in categories && Lower(c.name) == Lower(s)
  {
    if c :| c in categories && Lower(c.name) == Lower(s) {
      var i :| 0 <= i < |categories| && categories[i] == c;
      assert SameName(categories[i], s);
    }
  }

  /** With a category already named `name`, the search `name + ' '`
      (say 'Bebidas ' beside 'Bebidas') passes the check and stores a second
      `name`, where the check on the stored name refuses it. */
  lemma AsWrittenStoresDuplicate(name: string)
    requires name != "" && Trim(name) == name
    ensures NewCategoryAsWritten([Category("c1", name)], name + " ") == Ok(name)
    ensures NewCategory([Category("c1", name)], name + " ") == Err(DuplicateCategory)
  {
    var s := name + " ";
    var cs := [Category("c1", name)];
    TrimPadded(name);
    assert forall i :: 0 <= i < |cs| ==> !SameName(cs[i], s) by {
      assert |Lower(s)| != |Lower(name)|;
    }
    assert SameName(cs[0], Trim(s));
  }

  /** One space after a trimmed text is trimmed away. */
  lemma TrimPadded(name: string)
    requires name != "" && Trim(name) == name
    ensures Trim(name + " ") == name
  {
    var s := name + " ";
    var t := TrimStart(name);
    TrimStartFacts(name);
    assert |t| == |name| by {
      assert |TrimEnd(t)| <= |t| <= |name|;
    }
    assert t == name;
    TrimStartNoSpace(s);
    assert IsSpace(s[|s| - 1]) && s[..|s| - 1] == name;
    assert TrimEnd(s) == TrimEnd(name);
  }

  /** The two checks differ only on searches with white space around them. */
  lemma AsWrittenAgreesWhenTrimmed(categories: seq<Category>, search: string)
    requires Trim(search) == search
    ensures NewCategoryAsWritten(categories, search) == NewCategory(categories, search)
  {
  }

  /** `addNewCategory` with the duplicate check made on the name that is
      stored. */
  function NewCategory(categories: seq<Category>, search: string): Result<string, CategoryError>
  {
    if Trim(search) == "" then Err(BlankCategory)
    else if exists i :: 0 <= i < |categories| && SameName(categories[i], Trim(search)) then Err(DuplicateCategory)
    else Ok(Trim(search))
  }

  /** A blank search is refused; otherwise the trimmed search is stored
      unless some category already has that name in any case, so a stored
      name never duplicates an existing one. */
  lemma NewCategoryChecks(categories: seq<Category>, search: string)
    ensures NewCategory(categories, search) == Err(BlankCategory) <==> forall i :: 0 <= i < |search| ==> IsSpace(search[i])
    ensures NewCategory(categories, search).Ok? ==>
      && NewCategory(categories, search).value == Trim(search) != ""
      && forall c :: c in categories ==> Lower(c.name) != Lower(NewCategory(categories, search).value)
    ensures NewCategory(categories, search) == Err(DuplicateCategory) ==>
      exists c :: c in categories && Lower(c.name) == Lower(Trim(search))
  {
    TrimEmptyIffBlank(search);
  }

  // ---------------------------------------------------------------- the form

  class AddProductForm {
    var name: string
    var sku: string
    var description: string
    var category: string
    var price: string
    var cost: string
    var quantity: string
    var image: Option<string>
    var showCategoryModal: bool
    var categorySearch: string

    constructor ()
      ensures name == "" && sku == "" && description == "" && category == ""
      ensures price == "" && cost == "" && quantity == "" && image == None
      ensures !showCategoryModal && categorySearch == ""
    {
      name, sku, description, category := "", "", "", "";
      price, cost, quantity, image := "", "", "", None;
      showCategoryModal, categorySearch := false, "";
    }

    /** `resetForm`: every field but the category. */
    method ResetForm()
      modifies this
      ensures name == "" && sku == "" && description == ""
      ensures price == "" && cost == "" && quantity == "" && image == None
      ensures category == old(category)
      ensures showCategoryModal == old(showCategoryModal) && categorySearch == old(categorySearch)
    {
      name := "";
      sku := "";
      description := "";
      price := "";
      cost := "";
      quantity := "";
      image := None;
    }

    /** `selectCategory`. */
    method SelectCategory(categoryName: string)
      modifies this
      ensures category == categoryName && !showCategoryModal && categorySearch == ""
      ensures name == old(name) && sku == old(sku) && description == old(description)
      ensures price == old(price) && cost == old(cost) && quantity == old(quantity) && image == old(image)
    {
      category := categoryName;
      showCategoryModal := false;
      categorySearch := "";
    }

    /** `addNewCategory` as written: the duplicate check compares the search
        as typed. On success the untrimmed search becomes the form's
        category and the picker closes; the name returned is the trimmed
        one to store. A refusal changes nothing. */
    method AddNewCategory(categories: seq<Category>) returns (r: Result<string, CategoryError>)
      modifies this
      ensures r == NewCategoryAsWritten(categories, old(categorySearch))
      ensures r.Ok? ==> category == old(categorySearch) && !showCategoryModal && categorySearch == ""
      ensures r.Err? ==> category == old(category) && showCategoryModal == old(showCategoryModal) && categorySearch == old(categorySearch)
      ensures name == old(name) && sku == old(sku) && description == old(description)
      ensures price == old(price) && cost == old(cost) && quantity == old(quantity) && image == old(image)
    {
      r := NewCategoryAsWritten(categories, categorySearch);
      if r.Err? {
        return;
      }
      category := categorySearch;
      showCategoryModal := false;
      categorySearch := "";
    }

    /** `handleSaveProduct`: the price and cost numbers are the parses of
        their fields, given as parameters; the quantity is `parseInt` of
        the quantity field. An accepted product is added to the store
        under the identifier the database assigns; if the user then asks to
        add another, the form is cleared except for its category. */
    method SaveProduct(store: InventoryStore.Store, newId: ProductId, now: Time,
                       priceNumber: Option<Money>, costNumber: Option<Money>,
                       addAnother: bool)
      returns (r: Result<ProductDraft, FormError>)
      requires newId !in store.stock
      modifies this, store
      ensures r == Validate(old(name), old(sku), old(description), old(category), priceNumber, costNumber, ParseInt(old(quantity)))
      ensures r.Err? ==> store.stock == old(store.stock) && store.movements == old(store.movements)
      ensures r.Ok? ==> store.stock == old(store.stock)[newId := r.value.quantity]
      ensures r.Ok? ==>
        store.movements == old(store.movements) + [InventoryStore.Movement(newId, r.value.quantity, InventoryStore.Initial, None, "Inventario inicial", now)]
      ensures store.sales == old(store.sales)
      ensures category == old(category)
      ensures r.Ok? && addAnother ==> name == "" && sku == "" && description == "" && price == "" && cost == "" && quantity == "" && image == None
      ensures !(r.Ok? && addAnother) ==> name == old(name) && sku == old(sku) && description == old(description)
                                          && price == old(price) && cost == old(cost) && quantity == old(quantity) && image == old(image)
      ensures showCategoryModal == old(showCategoryModal) && categorySearch == old(categorySearch)
    {
      r := Validate(name, sku, description, category, priceNumber, costNumber, ParseInt(quantity));
      if r.Ok? {
        StoreAccepted(store, newId, now, r.value, addAnother);
      }
    }

    /** The accepted branch of `handleSaveProduct`: add the product, then
        clear the form but for its category if the user asks for another. */
    method StoreAccepted(store: InventoryStore.Store, newId: ProductId, now: Time, draft: ProductDraft, addAnother: bool)
      requires newId !in store.stock
      modifies this, store
      ensures store.stock == old(store.stock)[newId := draft.quantity]
      ensures store.movements == old(store.movements) + [InventoryStore.Movement(newId, draft.quantity, InventoryStore.Initial, None, "Inventario inicial", now)]
      ensures store.sales == old(store.sales)
      ensures category == old(category)
      ensures addAnother ==> name == "" && sku == "" && description == "" && price == "" && cost == "" && quantity == "" && image == None
      ensures !addAnother ==> name == old(name) && sku == old(sku) && description == old(description)
                              && price == old(price) && cost == old(cost) && quantity == old(quantity) && image == old(image)
      ensures showCategoryModal == old(showCategoryModal) && categorySearch == old(categorySearch)
    {
      store.AddProduct(newId, draft.quantity, now);
      if addAnother {
        var selectedCategory := category;
        ResetForm();
        category := selectedCategory;
      }
    }
  }
}

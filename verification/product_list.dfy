/** The catalog list: its category chips, the category and text filters, the
    sort by a chosen column in a chosen direction, and the column toggle. */
module ProductList {
  import opened Basics
  import opened Records
  import Text

  const AllCategories: string := "Todos"

  // ---------------------------------------------------------------- categories

  /** A string is truthy when it is present and not empty. */
  predicate TextTruthy(x: Option<string>)
  {
    x.Some? && x.value != ""
  }

  /** The truthy categories of the products, in catalog order, repeats kept
      (`products.map(p => p.category).filter(Boolean)`). */
  function CategoryValues(products: seq<Product>): (r: seq<string>)
    ensures forall c :: c in r <==> exists p :: p in products && p.category == Some(c) && c != ""
  {
    if products == [] then []
    else
      var rest := CategoryValues(products[1..]);
      assert forall p :: p in products[1..] ==> p in products;
      assert forall p :: p in products ==> p == products[0] || p in products[1..];
      if TextTruthy(products[0].category) then [products[0].category.value] + rest else rest
  }

  /** The elements of a `Set` built from `s`, in insertion order: each value
      at its first occurrence. */
  function InsertionOrder(s: seq<string>): seq<string>
    decreases |s|
  {
    if s == [] then []
    else
      var r := InsertionOrder(s[..|s| - 1]);
      if s[|s| - 1] in r then r else r + [s[|s| - 1]]
  }

  /** The index of the first occurrence of `x` in `s`. */
  function FirstIndex(s: seq<string>, x: string): (k: nat)
    requires x in s
    ensures k < |s| && s[k] == x
    ensures forall j :: 0 <= j < k ==> s[j] != x
  {
    if s[0] == x then 0 else 1 + FirstIndex(s[1..], x)
  }

  lemma {:induction false} FirstIndexOfPrefix(s: seq<string>, x: string, y: string)
    requires x in s
    ensures x in s + [y] && FirstIndex(s + [y], x) == FirstIndex(s, x)
    decreases |s|
  {
    if s[0] != x {
      assert (s + [y])[1..] == s[1..] + [y];
      FirstIndexOfPrefix(s[1..], x, y);
    }
  }

  lemma FirstIndexOfNew(s: seq<string>, y: string)
    requires y !in s
    ensures y in s + [y] && FirstIndex(s + [y], y) == |s|
  {
    assert forall j :: 0 <= j < |s| ==> (s + [y])[j] == s[j];
  }

  /** `r` lists each value of `s` once, in the order of first occurrence. */
  ghost predicate FirstOccurrences(r: seq<string>, s: seq<string>)
  {
    && (forall i, j :: 0 <= i < j < |r| ==> r[i] != r[j])
    && (forall x :: x in r <==> x in s)
    && (forall i, j :: 0 <= i < j < |r| ==> FirstIndex(s, r[i]) < FirstIndex(s, r[j]))
  }

  /** Every value appears once, and exactly the values of `s` appear, in
      the order of their first occurrences in `s`. */
  lemma {:induction false} InsertionOrderFacts(s: seq<string>)
    ensures forall i, j :: 0 <= i < j < |InsertionOrder(s)| ==> InsertionOrder(s)[i] != InsertionOrder(s)[j]
    ensures forall x :: x in InsertionOrder(s) <==> x in s
    ensures forall i, j :: 0 <= i < j < |InsertionOrder(s)| ==>
      FirstIndex(s, InsertionOrder(s)[i]) < FirstIndex(s, InsertionOrder(s)[j])
    decreases |s|
  {
    if s != [] {
      var front, last := s[..|s| - 1], s[|s| - 1];
      assert s == front + [last];
      InsertionOrderFacts(front);
      InsertionOrderStep(front, last);
    }
  }

  /** Appending one value to the input keeps the first-occurrence listing. */
  lemma InsertionOrderStep(front: seq<string>, last: string)
    requires FirstOccurrences(InsertionOrder(front), front)
    ensures FirstOccurrences(InsertionOrder(front + [last]), front + [last])
  {
    var s := front + [last];
    assert s[..|s| - 1] == front && s[|s| - 1] == last;
    var r0 := InsertionOrder(front);
    forall x | x in r0 ensures x in s && FirstIndex(s, x) == FirstIndex(front, x) {
      FirstIndexOfPrefix(front, x, last);
    }
    if last in r0 {
      assert InsertionOrder(s) == r0;
    } else {
      AppendNewValue(front, last);
    }
  }

  lemma AppendNewValue(front: seq<string>, last: string)
    requires FirstOccurrences(InsertionOrder(front), front)
    requires last !in InsertionOrder(front)
    ensures FirstOccurrences(InsertionOrder(front + [last]), front + [last])
  {
    var s := front + [last];
    assert s[..|s| - 1] == front && s[|s| - 1] == last;
    var r0 := InsertionOrder(front);
    var r := r0 + [last];
    assert InsertionOrder(s) == r;
    FirstIndexOfNew(front, last);
    forall x | x in r0 ensures x in s && FirstIndex(s, x) == FirstIndex(front, x) < |front| {
      FirstIndexOfPrefix(front, x, last);
    }
    forall i, j | 0 <= i < j < |r| ensures r[i] != r[j] && FirstIndex(s, r[i]) < FirstIndex(s, r[j]) {
      assert r[i] == r0[i] && r0[i] in r0;
      if j < |r0| {
        assert r[j] == r0[j] && r0[j] in r0;
      }
    }
  }

  /** `['Todos', ...new Set(truthy categories)]`. */
  function Categories(products: seq<Product>): seq<string>
  {
    [AllCategories] + InsertionOrder(CategoryValues(products))
  }

  /** The chips are 'Todos' and then each non-empty category of some product
      exactly once, ordered by where it first appears in the catalog. */
  lemma CategoriesListed(products: seq<Product>)
    ensures var cs := Categories(products);
            var vs := CategoryValues(products);
            && cs[0] == AllCategories
            && (forall i, j :: 1 <= i < j < |cs| ==> cs[i] != cs[j])
            && (forall c :: c in cs[1..] <==> exists p :: p in products && p.category == Some(c) && c != "")
            && (forall i :: 1 <= i < |cs| ==> cs[i] in vs)
            && (forall i, j :: 1 <= i < j < |cs| ==> FirstIndex(vs, cs[i]) < FirstIndex(vs, cs[j]))
  {
    var vs := CategoryValues(products);
    InsertionOrderFacts(vs);
    var cs := Categories(products);
    var r := InsertionOrder(vs);
    assert cs[1..] == r;
    forall i, j | 1 <= i < j < |cs| ensures cs[i] != cs[j] && FirstIndex(vs, cs[i]) < FirstIndex(vs, cs[j]) {
      assert cs[i] == r[i - 1] && cs[j] == r[j - 1];
    }
  }

  // ---------------------------------------------------------------- filters

  predicate InCategory(p: Product, selected: string)
  {
    selected == AllCategories || p.category == Some(selected)
  }

  /** The field is truthy and, lowercased, contains the lowercased query. */
  predicate FieldMatches(field: Option<string>, query: string)
  {
    TextTruthy(field) && Text.Includes(Text.Lower(field.value), Text.Lower(query))
  }

  predicate MatchesQuery(p: Product, query: string)
  {
    query == "" || FieldMatches(p.name, query) || FieldMatches(p.sku, query) || FieldMatches(p.description, query)
  }

  /** The products that pass both filters, in catalog order. */
  function Visible(products: seq<Product>, selected: string, query: string): seq<Product>
  {
    Filter(products, (p: Product) => InCategory(p, selected) && MatchesQuery(p, query))
  }

  // ---------------------------------------------------------------- sort

  datatype SortKey = Name | Price | Quantity
  datatype Direction = Asc | Desc
  datatype SortConfig = SortConfig(key: SortKey, direction: Direction)

  const InitialSort: SortConfig := SortConfig(Name, Asc)

  /** The comparator on a string column: falsy values last in both
      directions, then string order, reversed for 'desc'. */
  function CompareText(x: Option<string>, y: Option<string>, d: Direction): int
  {
    if !TextTruthy(x) && !TextTruthy(y) then 0
    else if !TextTruthy(x) then 1
    else if !TextTruthy(y) then -1
    else if d == Asc then Text.Compare(x.value, y.value)
    else Text.Compare(y.value, x.value)
  }

  /** The comparator on a numeric column: falsy values (absent, NaN, 0)
      last, then `a - b`, or `b - a` for 'desc'. */
  function CompareNumber(x: Option<int>, y: Option<int>, d: Direction): int
  {
    if !Truthy(x) && !Truthy(y) then 0
    else if !Truthy(x) then 1
    else if !Truthy(y) then -1
    else if d == Asc then x.value - y.value
    else y.value - x.value
  }

  function Compare(a: Product, b: Product, cfg: SortConfig): int
  {
    match cfg.key
    case Name => CompareText(a.name, b.name, cfg.direction)
    case Price => CompareNumber(a.price, b.price, cfg.direction)
    case Quantity => CompareNumber(a.quantity, b.quantity, cfg.direction)
  }

  /** Whether the product's value in the sorted column is truthy. */
  predicate KeyTruthy(p: Product, key: SortKey)
  {
    match key
    case Name => TextTruthy(p.name)
    case Price => Truthy(p.price)
    case Quantity => Truthy(p.quantity)
  }

  /** A product with a falsy key sorts after every product with a truthy
      one, whichever the direction, and ties with other falsy ones. */
  lemma FalsyLast(a: Product, b: Product, cfg: SortConfig)
    requires KeyTruthy(a, cfg.key) && !KeyTruthy(b, cfg.key)
    ensures Compare(a, b, cfg) < 0 && Compare(b, a, cfg) > 0
  {
  }

  lemma FalsyTies(a: Product, b: Product, cfg: SortConfig)
    requires !KeyTruthy(a, cfg.key) && !KeyTruthy(b, cfg.key)
    ensures Compare(a, b, cfg) == 0
  {
  }

  /** Between truthy keys, numbers compare by their difference and strings
      by string order; 'desc' compares the other way round. */
  lemma TruthyOrder(a: Product, b: Product, cfg: SortConfig)
    requires KeyTruthy(a, cfg.key) && KeyTruthy(b, cfg.key)
    ensures cfg.key == Name ==> Compare(a, b, cfg) == (if cfg.direction == Asc then Text.Compare(a.name.value, b.name.value) else Text.Compare(b.name.value, a.name.value))
    ensures cfg.key == Price ==> Compare(a, b, cfg) == (if cfg.direction == Asc then a.price.value - b.price.value else b.price.value - a.price.value)
    ensures cfg.key == Quantity ==> Compare(a, b, cfg) == (if cfg.direction == Asc then a.quantity.value - b.quantity.value else b.quantity.value - a.quantity.value)
    ensures Compare(a, b, cfg.(direction := Desc)) == Compare(b, a, cfg.(direction := Asc))
  {
  }

  lemma CompareAntisymmetric(a: Product, b: Product, cfg: SortConfig)
    ensures Compare(a, b, cfg) == -Compare(b, a, cfg)
  {
    if cfg.key == Name && TextTruthy(a.name) && TextTruthy(b.name) {
      Text.CompareAntisymmetric(a.name.value, b.name.value);
    }
  }

  lemma CompareTransitive(a: Product, b: Product, c: Product, cfg: SortConfig)
    requires Compare(a, b, cfg) <= 0 && Compare(b, c, cfg) <= 0
    ensures Compare(a, c, cfg) <= 0
  {
    if cfg.key == Name && TextTruthy(a.name) && TextTruthy(b.name) && TextTruthy(c.name) {
      if cfg.direction == Asc {
        Text.CompareTransitive(a.name.value, b.name.value, c.name.value);
      } else {
        Text.CompareTransitive(c.name.value, b.name.value, a.name.value);
      }
    }
  }

  predicate Sorted(s: seq<Product>, cfg: SortConfig)
  {
    forall i, j :: 0 <= i < j < |s| ==> Compare(s[i], s[j], cfg) <= 0
  }

  /** Place `x` before the first element it does not come after. */
  function Insert(x: Product, s: seq<Product>, cfg: SortConfig): seq<Product>
  {
    if s == [] then [x]
    else if Compare(x, s[0], cfg) <= 0 then [x] + s
    else [s[0]] + Insert(x, s[1..], cfg)
  }

  /** A stable sort under the comparator, as `Array.prototype.sort` is. */
  function SortBy(s: seq<Product>, cfg: SortConfig): seq<Product>
  {
    if s == [] then [] else Insert(s[0], SortBy(s[1..], cfg), cfg)
  }

  lemma {:induction false} InsertMultiset(x: Product, s: seq<Product>, cfg: SortConfig)
    ensures multiset(Insert(x, s, cfg)) == multiset(s) + multiset{x}
    decreases |s|
  {
    if s != [] && Compare(x, s[0], cfg) > 0 {
      assert s == [s[0]] + s[1..];
      InsertMultiset(x, s[1..], cfg);
    }
  }

  lemma {:induction false} InsertFacts(x: Product, s: seq<Product>, cfg: SortConfig)
    requires Sorted(s, cfg)
    ensures multiset(Insert(x, s, cfg)) == multiset(s) + multiset{x}
    ensures Sorted(Insert(x, s, cfg), cfg)
    decreases |s|
  {
    InsertMultiset(x, s, cfg);
    if s == [] {
    } else if Compare(x, s[0], cfg) <= 0 {
      SortedCons(x, s, cfg);
    } else {
      InsertFacts(x, s[1..], cfg);
      CompareAntisymmetric(x, s[0], cfg);
      InsertBehindHead(x, s, cfg);
    }
  }

  /** An element no later than the head of a sorted sequence can go first. */
  lemma SortedCons(x: Product, s: seq<Product>, cfg: SortConfig)
    requires Sorted(s, cfg) && s != [] && Compare(x, s[0], cfg) <= 0
    ensures Sorted([x] + s, cfg)
  {
    var r := [x] + s;
    forall i, j | 0 <= i < j < |r| ensures Compare(r[i], r[j], cfg) <= 0 {
      if i == 0 && j > 1 {
        CompareTransitive(x, s[0], s[j - 1], cfg);
      }
    }
  }

  lemma InsertBehindHead(x: Product, s: seq<Product>, cfg: SortConfig)
    requires Sorted(s, cfg) && s != [] && Compare(s[0], x, cfg) <= 0
    requires multiset(Insert(x, s[1..], cfg)) == multiset(s[1..]) + multiset{x}
    requires Sorted(Insert(x, s[1..], cfg), cfg)
    ensures Sorted([s[0]] + Insert(x, s[1..], cfg), cfg)
  {
    var t := Insert(x, s[1..], cfg);
    forall k | 0 <= k < |t| ensures Compare(s[0], t[k], cfg) <= 0 {
      assert t[k] in multiset(t);
      if t[k] != x {
        var m :| 0 <= m < |s[1..]| && s[1..][m] == t[k];
        assert s[1..][m] == s[m + 1];
      }
    }
    HeadBeforeAll(s[0], t, cfg);
  }

  lemma HeadBeforeAll(h: Product, t: seq<Product>, cfg: SortConfig)
    requires Sorted(t, cfg)
    requires forall k :: 0 <= k < |t| ==> Compare(h, t[k], cfg) <= 0
    ensures Sorted([h] + t, cfg)
  {
    var r := [h] + t;
    forall i, j | 0 <= i < j < |r| ensures Compare(r[i], r[j], cfg) <= 0 {
      if i == 0 {
        assert r[j] == t[j - 1];
      } else {
        assert r[i] == t[i - 1] && r[j] == t[j - 1];
      }
    }
  }

  /** The sort returns the same products, ordered by the comparator. */
  lemma SortByFacts(s: seq<Product>, cfg: SortConfig)
    ensures multiset(SortBy(s, cfg)) == multiset(s)
    ensures Sorted(SortBy(s, cfg), cfg)
  {
    SortByMultiset(s, cfg);
    SortBySorted(s, cfg);
  }

  lemma {:induction false} SortByMultiset(s: seq<Product>, cfg: SortConfig)
    ensures multiset(SortBy(s, cfg)) == multiset(s)
    decreases |s|
  {
    if s != [] {
      SortByMultiset(s[1..], cfg);
      InsertMultiset(s[0], SortBy(s[1..], cfg), cfg);
      assert s == [s[0]] + s[1..];
    }
  }

  lemma {:induction false} SortBySorted(s: seq<Product>, cfg: SortConfig)
    ensures Sorted(SortBy(s, cfg), cfg)
    decreases |s|
  {
    if s != [] {
      SortBySorted(s[1..], cfg);
      InsertFacts(s[0], SortBy(s[1..], cfg), cfg);
    }
  }

  /** Sorting by any column keeps every product with a truthy value ahead
      of every product without one. */
  lemma SortedPutsFalsyLast(s: seq<Product>, cfg: SortConfig, i: int, j: int)
    requires Sorted(s, cfg)
    requires 0 <= i < |s| && 0 <= j < |s|
    requires KeyTruthy(s[i], cfg.key) && !KeyTruthy(s[j], cfg.key)
    ensures i < j
  {
    FalsyLast(s[i], s[j], cfg);
  }

  /** `handleSort(key)`. */
  function HandleSort(prev: SortConfig, key: SortKey): SortConfig
  {
    SortConfig(key, if prev.key == key then (if prev.direction == Asc then Desc else Asc) else Asc)
  }

  /** The same column flips the direction, so twice is back where it
      started; another column starts ascending. */
  lemma HandleSortToggles(prev: SortConfig, key: SortKey)
    ensures HandleSort(prev, key).key == key
    ensures prev.key == key ==> HandleSort(prev, key).direction != prev.direction
    ensures prev.key == key ==> HandleSort(HandleSort(prev, key), key) == prev
    ensures prev.key != key ==> HandleSort(prev, key).direction == Asc
  {
  }

  // ---------------------------------------------------------------- the effect

  /** The filter/sort effect, reassigning `result` as it goes. */
  method FilterAndSort(products: seq<Product>, selected: string, query: string, cfg: SortConfig)
    returns (result: seq<Product>)
    ensures multiset(result) == multiset(Visible(products, selected, query))
    ensures Sorted(result, cfg)
    ensures forall p :: p in result <==>
      p in products
      && (selected != AllCategories ==> p.category == Some(selected))
      && (query != "" ==> FieldMatches(p.name, query) || FieldMatches(p.sku, query) || FieldMatches(p.description, query))
  {
    result := products;
    if selected != AllCategories {
      result := Filter(result, (p: Product) => p.category == Some(selected));
    }
    if query != "" {
      result := Filter(result, (p: Product) =>
        FieldMatches(p.name, query) || FieldMatches(p.sku, query) || FieldMatches(p.description, query));
    }
    TwoFiltersAreVisible(products, selected, query, result);
    SortByFacts(result, cfg);
    VisibleMembers(products, selected, query);
    result := SortBy(result, cfg);
    SameMembers(result, Visible(products, selected, query));
  }

  lemma SameMembers(a: seq<Product>, b: seq<Product>)
    requires multiset(a) == multiset(b)
    ensures forall p :: p in a <==> p in b
  {
    assert forall p :: p in a <==> p in multiset(a);
    assert forall p :: p in b <==> p in multiset(b);
  }

  /** A product is visible exactly when it passes both filters. */
  lemma VisibleMembers(products: seq<Product>, selected: string, query: string)
    ensures forall p :: p in Visible(products, selected, query) <==>
      p in products
      && (selected != AllCategories ==> p.category == Some(selected))
      && (query != "" ==> FieldMatches(p.name, query) || FieldMatches(p.sku, query) || FieldMatches(p.description, query))
    ensures IsSubsequence(Visible(products, selected, query), products)
  {
    FilterMembership(products, (p: Product) => InCategory(p, selected) && MatchesQuery(p, query));
    FilterIsSubsequence(products, (p: Product) => InCategory(p, selected) && MatchesQuery(p, query));
  }

  lemma TwoFiltersAreVisible(products: seq<Product>, selected: string, query: string, result: seq<Product>)
    requires result == (
      var byCategory := if selected != AllCategories then Filter(products, (p: Product) => p.category == Some(selected)) else products;
      if query != "" then Filter(byCategory, (p: Product) =>
        FieldMatches(p.name, query) || FieldMatches(p.sku, query) || FieldMatches(p.description, query))
      else byCategory)
    ensures result == Visible(products, selected, query)
  {
    var cat := (p: Product) => p.category == Some(selected);
    var txt := (p: Product) => FieldMatches(p.name, query) || FieldMatches(p.sku, query) || FieldMatches(p.description, query);
    var both := (p: Product) => InCategory(p, selected) && MatchesQuery(p, query);
    if selected != AllCategories && query != "" {
      FilterTwice(products, cat, txt, both);
    } else if selected != AllCategories {
      FilterCongruent(products, cat, both);
    } else if query != "" {
      FilterCongruent(products, txt, both);
    } else {
      FilterAll(products, both);
    }
  }

  /** Filtering twice is filtering once by both conditions. */
  lemma {:induction false} FilterTwice(s: seq<Product>, p: Product -> bool, q: Product -> bool, both: Product -> bool)
    requires forall x :: both(x) == (p(x) && q(x))
    ensures Filter(Filter(s, p), q) == Filter(s, both)
    decreases |s|
  {
    if s != [] {
      FilterTwice(s[1..], p, q, both);
    }
  }
}

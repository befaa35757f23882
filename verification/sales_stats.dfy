/** The sales figures of the reports page: number of sales, revenue, units
    sold, the breakdown by payment method, and the title of the period. */
module SalesStats {
  import opened Basics
  import opened Records

  const DefaultMethod: string := "Efectivo"

  function SaleTotal(s: Sale): Money
  {
    OrZero(s.total)
  }

  function TotalSales(sales: seq<Sale>): nat
  {
    |sales|
  }

  /** The sum of `sale.total || 0`. */
  function TotalRevenue(sales: seq<Sale>): Money
  {
    SumOf(sales, SaleTotal)
  }

  function ItemUnits(it: SaleItem): int
  {
    it.quantity
  }

  /** The units of one sale, 0 when it has no item list. */
  function SaleUnits(s: Sale): int
  {
    if s.items.Some? then SumOf(s.items.value, ItemUnits) else 0
  }

  function TotalItemsSold(sales: seq<Sale>): int
  {
    SumOf(sales, SaleUnits)
  }

  /** All items of all sales, one after another. */
  function AllItems(sales: seq<Sale>): seq<SaleItem>
  {
    if sales == [] then []
    else (if sales[0].items.Some? then sales[0].items.value else []) + AllItems(sales[1..])
  }

  /** The nested sum equals the sum over the flattened item list. */
  lemma {:induction false} ItemsSoldIsFlatSum(sales: seq<Sale>)
    ensures TotalItemsSold(sales) == SumOf(AllItems(sales), ItemUnits)
    decreases |sales|
  {
    if sales != [] {
      ItemsSoldIsFlatSum(sales[1..]);
      SumOfConcat(if sales[0].items.Some? then sales[0].items.value else [], AllItems(sales[1..]), ItemUnits);
    }
  }

  lemma RevenueAdds(a: seq<Sale>, b: seq<Sale>)
    ensures TotalRevenue(a + b) == TotalRevenue(a) + TotalRevenue(b)
    ensures TotalItemsSold(a + b) == TotalItemsSold(a) + TotalItemsSold(b)
  {
    SumOfConcat(a, b, SaleTotal);
    SumOfConcat(a, b, SaleUnits);
  }

  // ---------------------------------------------------------------- by payment method

  /** `sale.paymentMethod || 'Efectivo'`. */
  function PaymentLabel(s: Sale): string
  {
    if s.paymentMethod.Some? && s.paymentMethod.value != "" then s.paymentMethod.value else DefaultMethod
  }

  /** One entry of the accumulator: `acc[method] = { count, total }`. */
  datatype PaymentGroup = PaymentGroup(name: string, count: int, total: Money)

  function GroupIndex(acc: seq<PaymentGroup>, m: string): (k: int)
    ensures -1 <= k < |acc|
    ensures k >= 0 ==> acc[k].name == m && forall j :: 0 <= j < k ==> acc[j].name != m
    ensures k == -1 <==> forall j :: 0 <= j < |acc| ==> acc[j].name != m
  {
    if acc == [] then -1
    else if acc[0].name == m then 0
    else
      var k := GroupIndex(acc[1..], m);
      if k < 0 then -1 else k + 1
  }

  function Counted(g: PaymentGroup, s: Sale): PaymentGroup
  {
    PaymentGroup(g.name, g.count + 1, g.total + SaleTotal(s))
  }

  /** One call of the reducer. */
  function GroupStep(acc: seq<PaymentGroup>, s: Sale): seq<PaymentGroup>
  {
    var k := GroupIndex(acc, PaymentLabel(s));
    if k < 0 then acc + [Counted(PaymentGroup(PaymentLabel(s), 0, 0), s)]
    else acc[k := Counted(acc[k], s)]
  }

  /** The accumulator after the reducer has seen `sales`, keys in the order
      they were first met. */
  function Grouped(sales: seq<Sale>): seq<PaymentGroup>
    decreases |sales|
  {
    if sales == [] then [] else GroupStep(Grouped(sales[..|sales| - 1]), sales[|sales| - 1])
  }

  /** `salesByPaymentMethod`, mutating its accumulator sale by sale. */
  method SalesByPaymentMethod(sales: seq<Sale>) returns (acc: seq<PaymentGroup>)
    ensures acc == Grouped(sales)
  {
    acc := [];
    var i := 0;
    while i < |sales|
      invariant 0 <= i <= |sales|
      invariant acc == Grouped(sales[..i])
    {
      var sale := sales[i];
      ghost var next := GroupStep(acc, sale);
      assert sales[..i + 1][..i] == sales[..i];
      assert Grouped(sales[..i + 1]) == next;
      var name := PaymentLabel(sale);
      var k := GroupIndex(acc, name);
      if k < 0 {
        acc := acc + [PaymentGroup(name, 0, 0)];
        k := |acc| - 1;
      }
      acc := acc[k := PaymentGroup(acc[k].name, acc[k].count + 1, acc[k].total + SaleTotal(sale))];
      assert acc == next;
      i := i + 1;
    }
    assert sales[..|sales|] == sales;
  }

  predicate DistinctMethods(acc: seq<PaymentGroup>)
  {
    forall i, j :: 0 <= i < j < |acc| ==> acc[i].name != acc[j].name
  }

  function CountOf(sales: seq<Sale>, m: string): nat
  {
    |Filter(sales, (s: Sale) => PaymentLabel(s) == m)|
  }

  function RevenueOf(sales: seq<Sale>, m: string): Money
  {
    TotalRevenue(Filter(sales, (s: Sale) => PaymentLabel(s) == m))
  }

  function GroupCount(g: PaymentGroup): int
  {
    g.count
  }

  function GroupTotal(g: PaymentGroup): int
  {
    g.total
  }

  /** The entry of method `m`, if the accumulator has one. */
  function EntryOf(acc: seq<PaymentGroup>, m: string): Option<PaymentGroup>
  {
    var k := GroupIndex(acc, m);
    if k >= 0 then Some(acc[k]) else None
  }

  /** The entry the reducer starts from: the existing one or a fresh zero. */
  function EntryOr(acc: seq<PaymentGroup>, m: string): PaymentGroup
  {
    var e := EntryOf(acc, m);
    if e.Some? then e.value else PaymentGroup(m, 0, 0)
  }

  lemma {:induction false} GroupIndexSameNames(a: seq<PaymentGroup>, b: seq<PaymentGroup>, m: string)
    requires |a| == |b| && forall j :: 0 <= j < |a| ==> a[j].name == b[j].name
    ensures GroupIndex(a, m) == GroupIndex(b, m)
    decreases |a|
  {
    if a != [] {
      GroupIndexSameNames(a[1..], b[1..], m);
    }
  }

  lemma {:induction false} GroupIndexAppend(a: seq<PaymentGroup>, x: PaymentGroup, m: string)
    ensures GroupIndex(a + [x], m) ==
      if GroupIndex(a, m) >= 0 then GroupIndex(a, m) else if x.name == m then |a| else -1
    decreases |a|
  {
    if a == [] {
      assert a + [x] == [x];
    } else {
      assert (a + [x])[1..] == a[1..] + [x];
      GroupIndexAppend(a[1..], x, m);
    }
  }

  /** One reducer call counts the sale into the entry of its own method and
      leaves the entry of every other method as it was. */
  lemma StepEntry(acc: seq<PaymentGroup>, s: Sale, m: string)
    ensures EntryOf(GroupStep(acc, s), m) ==
      if PaymentLabel(s) == m then Some(Counted(EntryOr(acc, m), s)) else EntryOf(acc, m)
  {
    var l := PaymentLabel(s);
    var k := GroupIndex(acc, l);
    if k < 0 {
      GroupIndexAppend(acc, Counted(PaymentGroup(l, 0, 0), s), m);
    } else {
      var r := acc[k := Counted(acc[k], s)];
      GroupIndexSameNames(r, acc, m);
    }
  }

  lemma StepDistinct(acc: seq<PaymentGroup>, s: Sale)
    requires DistinctMethods(acc)
    ensures DistinctMethods(GroupStep(acc, s))
  {
    var k := GroupIndex(acc, PaymentLabel(s));
    var r := GroupStep(acc, s);
    if k >= 0 {
      assert forall j :: 0 <= j < |acc| ==> r[j].name == acc[j].name;
    }
  }

  /** No method has two entries. */
  lemma {:induction false} GroupedDistinct(sales: seq<Sale>)
    ensures DistinctMethods(Grouped(sales))
    decreases |sales|
  {
    if sales != [] {
      GroupedDistinct(sales[..|sales| - 1]);
      StepDistinct(Grouped(sales[..|sales| - 1]), sales[|sales| - 1]);
    }
  }

  /** The entry of a method exists exactly when some sale is labelled with
      it; it then counts those sales and adds up their totals. */
  lemma {:induction false} GroupedEntry(sales: seq<Sale>, m: string)
    ensures EntryOf(Grouped(sales), m) ==
      if CountOf(sales, m) == 0 then None else Some(PaymentGroup(m, CountOf(sales, m), RevenueOf(sales, m)))
    decreases |sales|
  {
    if sales == [] {
      assert CountOf(sales, m) == 0;
    } else {
      var front, last := sales[..|sales| - 1], sales[|sales| - 1];
      GroupedEntry(front, m);
      CountRevenueSnoc(sales, m);
      EntryStep(Grouped(sales), Grouped(front), last, m, CountOf(front, m), RevenueOf(front, m),
                CountOf(sales, m), RevenueOf(sales, m));
    }
  }

  /** The entry after one more sale, from the entry before it. */
  lemma EntryStep(gs: seq<PaymentGroup>, g0: seq<PaymentGroup>, last: Sale, m: string,
                  cf: int, rf: int, c: int, r: int)
    requires gs == GroupStep(g0, last)
    requires EntryOf(g0, m) == if cf == 0 then None else Some(PaymentGroup(m, cf, rf))
    requires cf == 0 ==> rf == 0
    requires cf >= 0
    requires c == cf + (if PaymentLabel(last) == m then 1 else 0)
    requires r == rf + (if PaymentLabel(last) == m then SaleTotal(last) else 0)
    ensures EntryOf(gs, m) == if c == 0 then None else Some(PaymentGroup(m, c, r))
  {
    StepEntry(g0, last, m);
    if PaymentLabel(last) == m {
      var e := EntryOr(g0, m);
      assert e == PaymentGroup(m, cf, rf);
      assert Counted(e, last) == PaymentGroup(m, cf + 1, rf + SaleTotal(last));
    }
  }

  lemma CountRevenueSnoc(sales: seq<Sale>, m: string)
    requires sales != []
    ensures var front, last := sales[..|sales| - 1], sales[|sales| - 1];
            && CountOf(sales, m) == CountOf(front, m) + (if PaymentLabel(last) == m then 1 else 0)
            && RevenueOf(sales, m) == RevenueOf(front, m) + (if PaymentLabel(last) == m then SaleTotal(last) else 0)
            && (CountOf(front, m) == 0 ==> RevenueOf(front, m) == 0)
  {
    var front, last := sales[..|sales| - 1], sales[|sales| - 1];
    assert sales == front + [last];
    var keep := (s: Sale) => PaymentLabel(s) == m;
    FilterConcat(front, [last], keep);
    SumOfConcat(Filter(front, keep), Filter([last], keep), SaleTotal);
  }

  lemma CountOfPositive(sales: seq<Sale>, m: string)
    ensures CountOf(sales, m) > 0 <==> exists j :: 0 <= j < |sales| && PaymentLabel(sales[j]) == m
  {
    var keep := (s: Sale) => PaymentLabel(s) == m;
    FilterMembership(sales, keep);
    if CountOf(sales, m) > 0 {
      var x := Filter(sales, keep)[0];
      assert x in sales;
    }
  }

  /** The counts add up to the number of sales, and the totals to the
      revenue. */
  lemma {:induction false} GroupedSums(sales: seq<Sale>)
    ensures SumOf(Grouped(sales), GroupCount) == TotalSales(sales)
    ensures SumOf(Grouped(sales), GroupTotal) == TotalRevenue(sales)
    decreases |sales|
  {
    if sales != [] {
      var front, last := sales[..|sales| - 1], sales[|sales| - 1];
      assert sales == front + [last];
      GroupedSums(front);
      SumOfConcat(front, [last], SaleTotal);
      var g0 := Grouped(front);
      var k := GroupIndex(g0, PaymentLabel(last));
      if k < 0 {
        SumOfConcat(g0, [Counted(PaymentGroup(PaymentLabel(last), 0, 0), last)], GroupCount);
        SumOfConcat(g0, [Counted(PaymentGroup(PaymentLabel(last), 0, 0), last)], GroupTotal);
      } else {
        SumOfUpdate(g0, k, Counted(g0[k], last), GroupCount);
        SumOfUpdate(g0, k, Counted(g0[k], last), GroupTotal);
      }
    }
  }

  // ---------------------------------------------------------------- period

  /** `getPeriodTitle`. */
  function PeriodTitle(filter: string): string
  {
    if filter == "day" then "Hoy"
    else if filter == "week" then "Últimos 7 días"
    else if filter == "month" then "Último mes"
    else if filter == "year" then "Último año"
    else "Últimos 7 días"
  }

  /** Each period has its own title, and every value that is not one of the
      other three periods reads as the last seven days. */
  lemma PeriodTitles(filter: string)
    ensures PeriodTitle(filter) == "Hoy" <==> filter == "day"
    ensures PeriodTitle(filter) == "Último mes" <==> filter == "month"
    ensures PeriodTitle(filter) == "Último año" <==> filter == "year"
    ensures PeriodTitle(filter) == "Últimos 7 días" <==> filter != "day" && filter != "month" && filter != "year"
  {
    assert "Último mes"[7] != "Último año"[7];
  }
}

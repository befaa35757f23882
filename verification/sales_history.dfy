/** The sales history page: the date filter over the loaded sales, the
    count and amount of what it keeps, and the amount shown for each line. */
module SalesHistory {
  import opened Basics
  import opened Records
  import SalesStats
  import Cart

  /** The clock the page reads, taken as a parameter: today's day number in
      local time, and the local midnight one calendar month before today's
      midnight (`setMonth(getMonth() - 1)`). */
  datatype Clock = Clock(today: int, monthAgo: Time)

  function Midnight(day: int): Time
  {
    day * MsPerDay
  }

  /** The day a local timestamp falls on. */
  function DayOf(t: Time): int
  {
    t / MsPerDay
  }

  /** Today's midnight moved back seven days. */
  function WeekAgo(c: Clock): Time
  {
    Midnight(c.today - 7)
  }

  /** The filter callback, early returns in order. */
  predicate KeepSale(filter: string, c: Clock, s: Sale)
  {
    if filter == "all" then true
    else if s.createdAt.None? then false
    else if filter == "today" then DayOf(s.createdAt.value) == c.today
    else if filter == "week" then s.createdAt.value >= WeekAgo(c)
    else if filter == "month" then s.createdAt.value >= c.monthAgo
    else true
  }

  function FilteredSales(sales: seq<Sale>, filter: string, c: Clock): seq<Sale>
  {
    Filter(sales, (s: Sale) => KeepSale(filter, c, s))
  }

  function TotalSales(sales: seq<Sale>, filter: string, c: Clock): nat
  {
    |FilteredSales(sales, filter, c)|
  }

  function TotalAmount(sales: seq<Sale>, filter: string, c: Clock): Money
  {
    SalesStats.TotalRevenue(FilteredSales(sales, filter, c))
  }

  /** What each filter keeps: 'all' everything, including undated sales;
      every other value only dated sales, and among them 'today' those of
      today's date, 'week' and 'month' those from their cut-off on, and an
      unrecognised value all of them. The result keeps the input order. */
  lemma FilterKeeps(sales: seq<Sale>, filter: string, c: Clock)
    ensures IsSubsequence(FilteredSales(sales, filter, c), sales)
    ensures filter == "all" ==> FilteredSales(sales, filter, c) == sales
    ensures forall s :: s in FilteredSales(sales, filter, c) <==> s in sales && KeepSale(filter, c, s)
    ensures forall s: Sale :: filter != "all" && s.createdAt.None? ==> !KeepSale(filter, c, s)
    ensures forall s: Sale :: s.createdAt.Some? ==>
      (filter == "today" ==> (KeepSale(filter, c, s) <==> Midnight(c.today) <= s.createdAt.value < Midnight(c.today + 1)))
      && (filter == "week" ==> (KeepSale(filter, c, s) <==> s.createdAt.value >= Midnight(c.today) - 7 * MsPerDay))
      && (filter == "month" ==> (KeepSale(filter, c, s) <==> s.createdAt.value >= c.monthAgo))
      && (filter !in {"all", "today", "week", "month"} ==> KeepSale(filter, c, s))
  {
    var keep := (s: Sale) => KeepSale(filter, c, s);
    FilterIsSubsequence(sales, keep);
    FilterMembership(sales, keep);
    if filter == "all" {
      FilterAll(sales, keep);
    }
    forall s: Sale | s.createdAt.Some? && filter == "today"
      ensures KeepSale(filter, c, s) <==> Midnight(c.today) <= s.createdAt.value < Midnight(c.today + 1)
    {
      DayBounds(s.createdAt.value, c.today);
    }
  }

  /** A timestamp falls on `day` exactly when it lies between that day's
      midnight and the next one. */
  lemma DayBounds(t: Time, day: int)
    ensures DayOf(t) == day <==> Midnight(day) <= t < Midnight(day + 1)
  {
    var d := t / MsPerDay;
    assert Midnight(d) <= t < Midnight(d + 1);
    if d < day {
      assert Midnight(d + 1) <= Midnight(day);
    } else if d > day {
      assert Midnight(day + 1) <= Midnight(d);
    }
  }

  /** Today's sales are among the week's, and the week's among the month's,
      since a calendar month back lies at least seven days back. */
  lemma FiltersNest(sales: seq<Sale>, c: Clock)
    requires c.monthAgo <= WeekAgo(c)
    ensures forall s :: s in FilteredSales(sales, "today", c) ==> s in FilteredSales(sales, "week", c)
    ensures forall s :: s in FilteredSales(sales, "week", c) ==> s in FilteredSales(sales, "month", c)
    ensures TotalSales(sales, "today", c) <= TotalSales(sales, "week", c) <= TotalSales(sales, "month", c)
  {
    var today := (s: Sale) => KeepSale("today", c, s);
    var week := (s: Sale) => KeepSale("week", c, s);
    var month := (s: Sale) => KeepSale("month", c, s);
    forall s: Sale | today(s) ensures week(s) {
      DayBounds(s.createdAt.value, c.today);
    }
    FilterMembership(sales, today);
    FilterMembership(sales, week);
    FilterMembership(sales, month);
    FilterMonotone(sales, today, week);
    FilterMonotone(sales, week, month);
  }

  /** Under 'all' the page's figures are the reports' figures for every
      sale. */
  lemma AllTotals(sales: seq<Sale>, c: Clock)
    ensures TotalSales(sales, "all", c) == SalesStats.TotalSales(sales)
    ensures TotalAmount(sales, "all", c) == SalesStats.TotalRevenue(sales)
  {
    FilterKeeps(sales, "all", c);
  }

  /** Sales the filter drops add nothing; an amount is the revenue of the
      kept sales. */
  lemma AmountSplits(sales: seq<Sale>, filter: string, c: Clock)
    ensures TotalAmount(sales, filter, c) + SalesStats.TotalRevenue(Filter(sales, (s: Sale) => !KeepSale(filter, c, s)))
            == SalesStats.TotalRevenue(sales)
  {
    PartitionRevenue(sales, (s: Sale) => KeepSale(filter, c, s), (s: Sale) => !KeepSale(filter, c, s));
  }

  lemma {:induction false} PartitionRevenue(sales: seq<Sale>, keep: Sale -> bool, drop: Sale -> bool)
    requires forall s :: drop(s) == !keep(s)
    ensures SalesStats.TotalRevenue(Filter(sales, keep)) + SalesStats.TotalRevenue(Filter(sales, drop))
            == SalesStats.TotalRevenue(sales)
    decreases |sales|
  {
    if sales != [] {
      PartitionRevenue(sales[1..], keep, drop);
    }
  }

  /** The amount shown for a line: `item.subtotal || item.price * item.quantity`. */
  function LineAmount(item: SaleItem): Option<Money>
  {
    if Truthy(item.subtotal) then item.subtotal else Times(item.price, Some(item.quantity))
  }

  /** For a line recorded at checkout the shown amount is its price times
      its quantity, whether or not the stored subtotal is 0 or NaN. */
  lemma CheckoutLineAmount(line: Cart.CartLine)
    ensures LineAmount(Cart.SaleItemOf(line)) == Times(line.price, Some(line.quantity))
  {
  }
}

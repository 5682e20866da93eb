/** The staff screen's derived data: the selected day's orders and counts, the task list of a
    pickup slot, the daily production summary split into pending and finished orders, and the
    sales dashboard (estimated revenue from a fixed price table, and the top three products). */
module StaffScreen {
  import opened Collections
  import opened Ranking
  import opened BakeryModel
  import ViewModel

  // ---- Day view ----

  /** `selectedDateOrders`: the orders picked up on the selected date, in input order. */
  function SelectedDateOrders(orders: seq<BakeryOrder>, date: string): seq<BakeryOrder>
  {
    Filter(orders, OnDate(date))
  }

  function TotalCount(orders: seq<BakeryOrder>, date: string): nat
  {
    |SelectedDateOrders(orders, date)|
  }

  function PendingCount(orders: seq<BakeryOrder>, date: string): (r: nat)
    ensures r <= TotalCount(orders, date)
  {
    Count(SelectedDateOrders(orders, date), IsPendingOrder())
  }

  /** An order is in the day view exactly when it is for the selected date; the header counts
      agree with the view-model's `getDailyStats`. */
  lemma SelectedDateOrdersSpec(orders: seq<BakeryOrder>, date: string, o: BakeryOrder)
    ensures o in SelectedDateOrders(orders, date) <==> o in orders && o.pickupDate == date
    ensures (TotalCount(orders, date), PendingCount(orders, date)) == ViewModel.DailyStats(orders, date)
  {
    FilterMember(orders, OnDate(date), o);
  }

  function IsTask(date: string, slot: string): BakeryOrder -> bool
  {
    (o: BakeryOrder) => o.pickupDate == date && o.pickupTime == slot && o.status == "pending"
  }

  /** `currentTasks`: the pending orders of the selected date and slot, in input order. */
  function CurrentTasks(orders: seq<BakeryOrder>, date: string, slot: string): seq<BakeryOrder>
  {
    Filter(orders, IsTask(date, slot))
  }

  /** The task list holds exactly the pending orders of the date and slot; it is what the
      same filter keeps of the day view, so it is a sub-list of it in the same order. */
  lemma CurrentTasksSpec(orders: seq<BakeryOrder>, date: string, slot: string, o: BakeryOrder)
    ensures o in CurrentTasks(orders, date, slot)
        <==> o in orders && o.pickupDate == date && o.pickupTime == slot && o.status == "pending"
    ensures CurrentTasks(orders, date, slot) == Filter(SelectedDateOrders(orders, date), IsTask(date, slot))
    ensures |CurrentTasks(orders, date, slot)| <= PendingCount(orders, date)
  {
    FilterMember(orders, IsTask(date, slot), o);
    FilterOfFilter(orders, IsTask(date, slot), OnDate(date));
    var day := SelectedDateOrders(orders, date);
    FilterOfFilter(day, IsTask(date, slot), IsPendingOrder());
    assert Filter(day, IsTask(date, slot)) == Filter(Filter(day, IsPendingOrder()), IsTask(date, slot));
  }

  // ---- Daily summary ----

  /** `pendingOrders`. */
  function PendingOrders(orders: seq<BakeryOrder>): seq<BakeryOrder>
  {
    Filter(orders, IsPendingOrder())
  }

  /** `completedOrders`: every order whose status is not "pending", whether "ready",
      "completed" or "cancelled". */
  function CompletedOrders(orders: seq<BakeryOrder>): seq<BakeryOrder>
  {
    Filter(orders, NotPendingOrder())
  }

  /** The two tabs split the orders: together they hold every order exactly as often as the
      input does, and an order lands in the second tab exactly when it is not pending. */
  lemma PartitionSpec(orders: seq<BakeryOrder>, o: BakeryOrder)
    ensures |PendingOrders(orders)| + |CompletedOrders(orders)| == |orders|
    ensures multiset(PendingOrders(orders)) + multiset(CompletedOrders(orders)) == multiset(orders)
    ensures o in CompletedOrders(orders) <==> o in orders && o.status != "pending"
    ensures o in PendingOrders(orders) <==> o in orders && o.status == "pending"
  {
    FilterComplement(orders, IsPendingOrder(), NotPendingOrder());
    forall x
      ensures multiset(PendingOrders(orders))[x] + multiset(CompletedOrders(orders))[x] == multiset(orders)[x]
    {
      FilterMultiset(orders, IsPendingOrder(), x);
      FilterMultiset(orders, NotPendingOrder(), x);
    }
    FilterMember(orders, IsPendingOrder(), o);
    FilterMember(orders, NotPendingOrder(), o);
  }

  /** One step of `groupBy { it.name }` followed by `mapValues { sumOf { it.qty } }`: add the
      line's quantity to its name's entry, or open an entry at the end for a new name. */
  function AddLine(g: seq<(string, int)>, it: OrderItem): (r: seq<(string, int)>)
    ensures |r| == |g| + (if HasFirst(g, it.name) then 0 else 1)
    ensures forall i :: 0 <= i < |g| ==> r[i].0 == g[i].0
    ensures !HasFirst(g, it.name) ==> r[|g|] == (it.name, it.qty)
  {
    var k := IndexOfFirst(g, it.name);
    if k == -1 then g + [(it.name, it.qty)] else g[k := (it.name, g[k].1 + it.qty)]
  }

  /** `groupBy { it.name }.mapValues { … }.toList()` over a list of lines. */
  function GroupSums(items: seq<OrderItem>): seq<(string, int)>
  {
    if items == [] then [] else AddLine(GroupSums(Init(items)), Last(items))
  }

  lemma AddLineFirsts(g: seq<(string, int)>, x: OrderItem, n: string)
    ensures HasFirst(AddLine(g, x), n) <==> HasFirst(g, n) || x.name == n
  {
    var r := AddLine(g, x);
    if HasFirst(r, n) {
      var i :| 0 <= i < |r| && r[i].0 == n;
      if i < |g| {
        assert g[i].0 == n;
      }
    }
    if HasFirst(g, n) {
      var i :| 0 <= i < |g| && g[i].0 == n;
      assert r[i].0 == n;
    }
    if x.name == n && HasFirst(g, x.name) {
      var i :| 0 <= i < |g| && g[i].0 == n;
      assert r[i].0 == n;
    }
    if !HasFirst(g, x.name) {
      assert r[|g|].0 == x.name;
    }
  }

  /** The grouped list has an entry for a name exactly when some line carries it. */
  lemma {:induction false} GroupSumsNames(items: seq<OrderItem>, n: string)
    ensures HasFirst(GroupSums(items), n) <==> HasItemNamed(items, n)
  {
    if items != [] {
      GroupSumsNames(Init(items), n);
      AddLineFirsts(GroupSums(Init(items)), Last(items), n);
      InitLast(items);
      HasItemNamedSnoc(Init(items), Last(items), n);
    }
  }

  /** The grouped list names every name once. */
  lemma {:induction false} GroupSumsDistinct(items: seq<OrderItem>)
    ensures DistinctFirsts(GroupSums(items))
  {
    if items != [] {
      var g := GroupSums(Init(items));
      var x := Last(items);
      GroupSumsDistinct(Init(items));
      var r := AddLine(g, x);
      if !HasFirst(g, x.name) {
        forall i, j | 0 <= i < j < |r| ensures r[i].0 != r[j].0 {
          if j == |g| {
            assert r[i].0 == g[i].0;
          }
        }
      }
    }
  }

  /** Each entry of the grouped list carries the summed quantity of the lines with its name. */
  lemma {:induction false} GroupSumsValues(items: seq<OrderItem>)
    ensures forall i :: 0 <= i < |GroupSums(items)| ==> GroupSums(items)[i].1 == QtyNamed(items, GroupSums(items)[i].0)
  {
    if items != [] {
      var g := GroupSums(Init(items));
      var x := Last(items);
      var r := AddLine(g, x);
      GroupSumsValues(Init(items));
      GroupSumsDistinct(Init(items));
      var k := IndexOfFirst(g, x.name);
      forall i | 0 <= i < |r| ensures r[i].1 == QtyNamed(items, r[i].0) {
        if k == -1 {
          if i == |g| {
            GroupSumsNames(Init(items), x.name);
            QtyNamedAbsent(Init(items), x.name);
          }
        } else if i == k {
        } else {
          assert g[i].0 != x.name by {
            IndexOfFirstDistinct(g, i);
          }
        }
      }
    }
  }

  /** The grouped list keeps the order in which names first occur among the lines. */
  lemma {:induction false} GroupSumsOrder(items: seq<OrderItem>, i: nat, j: nat)
    requires i < j < |GroupSums(items)|
    ensures FindLine(items, GroupSums(items)[i].0).Some? && FindLine(items, GroupSums(items)[j].0).Some?
    ensures FindLine(items, GroupSums(items)[i].0).value < FindLine(items, GroupSums(items)[j].0).value
  {
    var g := GroupSums(Init(items));
    var x := Last(items);
    var r := AddLine(g, x);
    InitLast(items);
    GroupSumsNames(items, r[i].0);
    GroupSumsNames(items, r[j].0);
    assert HasFirst(r, r[i].0) && HasFirst(r, r[j].0);
    assert r[i].0 == g[i].0;
    GroupSumsNames(Init(items), g[i].0);
    FindLineSnocOld(Init(items), x, g[i].0);
    if j < |g| {
      assert r[j].0 == g[j].0;
      GroupSumsOrder(Init(items), i, j);
      GroupSumsNames(Init(items), g[j].0);
      FindLineSnocOld(Init(items), x, g[j].0);
    } else {
      assert r[j].0 == x.name;
      GroupSumsNames(Init(items), x.name);
      FindLineSnocNew(Init(items), x, x.name);
    }
  }

  /** The grouped quantities add up to the quantity of all lines. */
  lemma {:induction false} GroupSumsTotal(items: seq<OrderItem>)
    ensures SumCounts(GroupSums(items)) == TotalQty(items)
  {
    if items != [] {
      var g := GroupSums(Init(items));
      var x := Last(items);
      GroupSumsTotal(Init(items));
      var k := IndexOfFirst(g, x.name);
      if k == -1 {
        SumCountsSnoc(g, (x.name, x.qty));
      } else {
        SumCountsUpdate(g, k, (x.name, g[k].1 + x.qty));
      }
    }
  }

  /** `calculateSummary`: one entry per product name with its summed quantity, most first. */
  function CalculateSummary(orders: seq<BakeryOrder>): seq<(string, int)>
  {
    SortDesc(GroupSums(Flatten(orders)))
  }

  /** The summary is non-increasing in quantity and lists each name of the orders' lines once,
      with the sum of that name's quantities; the quantities add up to all lines' quantity. */
  lemma SummarySpec(orders: seq<BakeryOrder>, n: string)
    ensures SortedDesc(CalculateSummary(orders)) && DistinctFirsts(CalculateSummary(orders))
    ensures HasFirst(CalculateSummary(orders), n) <==> HasItemNamed(Flatten(orders), n)
    ensures forall i :: 0 <= i < |CalculateSummary(orders)| ==>
              CalculateSummary(orders)[i].1 == QtyNamed(Flatten(orders), CalculateSummary(orders)[i].0)
    ensures SumCounts(CalculateSummary(orders)) == TotalQty(Flatten(orders))
  {
    var g := GroupSums(Flatten(orders));
    var r := CalculateSummary(orders);
    GroupSumsDistinct(Flatten(orders));
    SortDescDistinct(g);
    GroupSumsNames(Flatten(orders), n);
    SortDescHasFirst(g, n);
    GroupSumsValues(Flatten(orders));
    forall i | 0 <= i < |r| ensures r[i].1 == QtyNamed(Flatten(orders), r[i].0) {
      MemberOfMultiset(r, g, r[i]);
    }
    GroupSumsTotal(Flatten(orders));
    SumCountsSortDesc(g);
  }

  /** Ties keep the grouped order: the names of each quantity appear in the summary as they
      first occur among the lines. */
  lemma SummaryTies(orders: seq<BakeryOrder>, k: int)
    ensures Filter(CalculateSummary(orders), WithCount(k)) == Filter(GroupSums(Flatten(orders)), WithCount(k))
  {
    SortDescStable(GroupSums(Flatten(orders)), k);
  }

  /** The quantity a summary shows for a name, 0 when the name is not listed. */
  function SummaryQty(summary: seq<(string, int)>, n: string): int
  {
    var k := IndexOfFirst(summary, n);
    if k == -1 then 0 else summary[k].1
  }

  lemma SummaryQtySpec(orders: seq<BakeryOrder>, n: string)
    ensures SummaryQty(CalculateSummary(orders), n) == QtyNamed(Flatten(orders), n)
  {
    SummarySpec(orders, n);
    if IndexOfFirst(CalculateSummary(orders), n) == -1 {
      QtyNamedAbsent(Flatten(orders), n);
    }
  }

  lemma {:induction false} QtyNamedSplit(orders: seq<BakeryOrder>, n: string)
    ensures QtyNamed(Flatten(PendingOrders(orders)), n) + QtyNamed(Flatten(CompletedOrders(orders)), n)
         == QtyNamed(Flatten(orders), n)
  {
    if orders != [] {
      var o := Last(orders);
      var init := Init(orders);
      QtyNamedSplit(init, n);
      QtyNamedConcat(Flatten(init), o.items, n);
      if o.status == "pending" {
        assert PendingOrders(orders) == PendingOrders(init) + [o];
        assert CompletedOrders(orders) == CompletedOrders(init);
        FlattenSnoc(PendingOrders(init), o);
        QtyNamedConcat(Flatten(PendingOrders(init)), o.items, n);
      } else {
        assert PendingOrders(orders) == PendingOrders(init);
        assert CompletedOrders(orders) == CompletedOrders(init) + [o];
        FlattenSnoc(CompletedOrders(init), o);
        QtyNamedConcat(Flatten(CompletedOrders(init)), o.items, n);
      }
    }
  }

  /** For every name, the pending tab's quantity plus the finished tab's is the day's. */
  lemma SummarySplit(orders: seq<BakeryOrder>, n: string)
    ensures SummaryQty(CalculateSummary(PendingOrders(orders)), n) + SummaryQty(CalculateSummary(CompletedOrders(orders)), n)
         == SummaryQty(CalculateSummary(orders), n)
  {
    SummaryQtySpec(PendingOrders(orders), n);
    SummaryQtySpec(CompletedOrders(orders), n);
    SummaryQtySpec(orders, n);
    QtyNamedSplit(orders, n);
  }

  // ---- Sales dashboard ----

  /** The dashboard's own price table, as the pairs given to `mapOf`. */
  const PriceList: seq<(string, int)> := [
    ("瑪麗媽媽經典", 200), ("陽光百果", 150), ("黑五寶", 40), ("裸麥南瓜", 45),
    ("法國起司堡", 60), ("天然酵母乳酪", 35), ("維也納麵包", 30), ("法國起司球", 18),
    ("蔓越莓乳酪", 25), ("黑橄欖乳酪", 25), ("巧克力葡萄乾", 20), ("核桃", 20),
    ("歐克", 40), ("布里歐莓", 120), ("小波羅(5入)", 50), ("椰香", 35),
    ("紅豆麵包", 30), ("墨西哥巧克力", 30), ("爆漿餐包(8入)", 70), ("法國魔杖", 55),
    ("德國小香腸(4入)", 50), ("法式香蒜", 40), ("不脹氣吐司", 45), ("鮮奶吐司", 45),
    ("全麥吐司", 60), ("蛋糕吐司", 70), ("葡萄乾吐司", 75), ("火腿起司吐司", 100),
    ("輕乳酪(小)", 35), ("檸檬塔", 70), ("布朗尼", 30), ("德式布丁", 40),
    ("黃金乳酪", 35), ("丹麥菊花", 60), ("丹麥巧克力", 60), ("燕麥餅乾", 60),
    ("杏仁巧克力", 80), ("核桃酥", 80), ("芝麻蘇", 80), ("英式伯爵紅茶", 80),
    ("義式咖啡", 80), ("南瓜子瓦片", 90), ("杏仁瓦片", 90), ("牛奶餅乾", 80)]

  /** `priceMap[name] ?: 0`: the price of the last pair with key `n` (a later pair of `mapOf`
      overrides an earlier one), 0 when there is none. */
  function PriceOf(table: seq<(string, int)>, n: string): int
  {
    if table == [] then 0
    else if Last(table).0 == n then Last(table).1
    else PriceOf(Init(table), n)
  }

  /** A name without a pair costs 0. */
  lemma {:induction false} PriceOfAbsent(table: seq<(string, int)>, n: string)
    requires forall i :: 0 <= i < |table| ==> table[i].0 != n
    ensures PriceOf(table, n) == 0
  {
    if table != [] {
      assert Last(table) == table[|table| - 1];
      assert forall i :: 0 <= i < |Init(table)| ==> Init(table)[i] == table[i];
      PriceOfAbsent(Init(table), n);
    }
  }

  /** A name costs the price of its last pair. */
  lemma {:induction false} PriceOfListed(table: seq<(string, int)>, n: string, k: nat)
    requires k < |table| && table[k].0 == n
    requires forall j :: k < j < |table| ==> table[j].0 != n
    ensures PriceOf(table, n) == table[k].1
  {
    if k < |table| - 1 {
      assert Last(table) == table[|table| - 1];
      assert forall j :: 0 <= j < |Init(table)| ==> Init(table)[j] == table[j];
      PriceOfListed(Init(table), n, k);
    }
  }

  /** Prices that are not negative give lookups that are not negative. */
  lemma {:induction false} PriceOfNonNegative(table: seq<(string, int)>, n: string)
    requires forall i :: 0 <= i < |table| ==> table[i].1 >= 0
    ensures PriceOf(table, n) >= 0
  {
    if table != [] {
      assert Last(table) == table[|table| - 1];
      assert forall i :: 0 <= i < |Init(table)| ==> Init(table)[i] == table[i];
      PriceOfNonNegative(Init(table), n);
    }
  }

  /** `sumOf { (priceMap[it.name] ?: 0) * it.qty }` over lines, for a given table. */
  function Revenue(table: seq<(string, int)>, items: seq<OrderItem>): int
  {
    if items == [] then 0 else Revenue(table, Init(items)) + PriceOf(table, Last(items).name) * Last(items).qty
  }

  /** `totalRevenue` over the dialog's orders. */
  function TotalRevenue(orders: seq<BakeryOrder>): int
  {
    Revenue(PriceList, Flatten(orders))
  }

  /** The revenue of joined line lists is the sum of their revenues. */
  lemma {:induction false} RevenueConcat(table: seq<(string, int)>, a: seq<OrderItem>, b: seq<OrderItem>)
    ensures Revenue(table, a + b) == Revenue(table, a) + Revenue(table, b)
  {
    if b == [] {
      assert a + b == a;
    } else {
      InitOfSnoc(a + Init(b), Last(b));
      InitLast(b);
      assert a + b == (a + Init(b)) + [Last(b)];
      RevenueConcat(table, a, Init(b));
    }
  }

  /** Every line adds its table price times its quantity; a name missing from the table adds 0. */
  lemma RevenueSnoc(table: seq<(string, int)>, items: seq<OrderItem>, it: OrderItem)
    ensures Revenue(table, items + [it]) == Revenue(table, items) + PriceOf(table, it.name) * it.qty
    ensures (forall i :: 0 <= i < |table| ==> table[i].0 != it.name) ==> Revenue(table, items + [it]) == Revenue(table, items)
  {
    InitOfSnoc(items, it);
    if forall i :: 0 <= i < |table| ==> table[i].0 != it.name {
      PriceOfAbsent(table, it.name);
    }
  }

  /** The revenue reads only names and quantities: the lines' own prices do not matter. */
  lemma {:induction false} RevenueIgnoresLinePrice(table: seq<(string, int)>, a: seq<OrderItem>, b: seq<OrderItem>)
    requires |a| == |b|
    requires forall i :: 0 <= i < |a| ==> a[i].name == b[i].name && a[i].qty == b[i].qty
    ensures Revenue(table, a) == Revenue(table, b)
  {
    if a != [] {
      assert Last(a) == a[|a| - 1] && Last(b) == b[|b| - 1];
      assert forall i :: 0 <= i < |Init(a)| ==> Init(a)[i] == a[i] && Init(b)[i] == b[i];
      RevenueIgnoresLinePrice(table, Init(a), Init(b));
    }
  }

  /** With prices and quantities not negative, so is the revenue. */
  lemma {:induction false} RevenueNonNegative(table: seq<(string, int)>, items: seq<OrderItem>)
    requires forall i :: 0 <= i < |table| ==> table[i].1 >= 0
    requires forall i :: 0 <= i < |items| ==> items[i].qty >= 0
    ensures Revenue(table, items) >= 0
  {
    if items != [] {
      assert Last(items) == items[|items| - 1];
      assert forall i :: 0 <= i < |Init(items)| ==> Init(items)[i] == items[i];
      RevenueNonNegative(table, Init(items));
      PriceOfNonNegative(table, Last(items).name);
    }
  }

  /** Every price in the dashboard's table is positive. */
  lemma PriceListPositive()
    ensures forall i :: 0 <= i < |PriceList| ==> PriceList[i].1 > 0
  {
  }

  /** The estimate is never negative when no line's quantity is. */
  lemma TotalRevenueNonNegative(orders: seq<BakeryOrder>)
    requires forall i :: 0 <= i < |Flatten(orders)| ==> Flatten(orders)[i].qty >= 0
    ensures TotalRevenue(orders) >= 0
  {
    PriceListPositive();
    RevenueNonNegative(PriceList, Flatten(orders));
  }

  /** `topProducts`: the first three entries of the same ranking as the summary. */
  function TopProducts(orders: seq<BakeryOrder>): seq<(string, int)>
  {
    Take(CalculateSummary(orders), 3)
  }

  /** The top list holds the first `min(3, number of distinct names)` summary entries, and none
      of them sells less than an entry left out. */
  lemma TopProductsSpec(orders: seq<BakeryOrder>)
    ensures |TopProducts(orders)| == Min(3, |GroupSums(Flatten(orders))|)
    ensures DistinctFirsts(GroupSums(Flatten(orders)))
    ensures forall i :: 0 <= i < |TopProducts(orders)| ==> TopProducts(orders)[i] == CalculateSummary(orders)[i]
    ensures forall i, j :: 0 <= i < |TopProducts(orders)| <= j < |CalculateSummary(orders)| ==>
              TopProducts(orders)[i].1 >= CalculateSummary(orders)[j].1
  {
    GroupSumsDistinct(Flatten(orders));
  }
}

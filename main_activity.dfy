/** The earlier revision of the app, kept in a single activity: its own records, a
    view-model with an uncapped cart and a slot check that ignores the date, the staff task
    list of the current time block and the task card's icon rule. */
module LegacyApp {
  import opened Collections

  /** The earlier product record: no daily quantity. */
  datatype Product = Product(id: string := "", name: string := "", price: int := 0, iconName: string := "bread")

  /** The earlier order line: no price. */
  datatype OrderItem = OrderItem(name: string := "", qty: int := 0)

  /** The earlier order record: no email. The creation time is a plain number. */
  datatype BakeryOrder = BakeryOrder(
    id: string := "",
    customerName: string := "",
    pickupTime: string := "",
    items: seq<OrderItem> := [],
    status: string := "pending",
    pickupDate: string := "",
    timestamp: int := 0)

  const MaxOrdersPerSlot := 3

  // ---- Cart ----

  /** `find { it.name == n }`, as the index of the first line named `n`. */
  function LineOf(cart: seq<OrderItem>, n: string): (r: Option<nat>)
    ensures r.Some? ==> r.value < |cart| && cart[r.value].name == n
    ensures r.Some? ==> forall j :: 0 <= j < r.value ==> cart[j].name != n
    ensures r.None? ==> forall j :: 0 <= j < |cart| ==> cart[j].name != n
  {
    if cart == [] then None
    else if cart[0].name == n then Some(0)
    else
      match LineOf(cart[1..], n)
      case None =>
        assert forall j :: 1 <= j < |cart| ==> cart[j] == cart[1..][j - 1];
        None
      case Some(k) => Some(k + 1)
  }

  /** Every line has a positive quantity and no two lines share a name. */
  predicate CartValid(cart: seq<OrderItem>)
  {
    (forall i :: 0 <= i < |cart| ==> cart[i].qty >= 1) &&
    (forall i, j :: 0 <= i < j < |cart| ==> cart[i].name != cart[j].name)
  }

  /** `sumOf { it.qty }` over the cart. */
  function CartCount(cart: seq<OrderItem>): int
  {
    if cart == [] then 0 else CartCount(Init(cart)) + Last(cart).qty
  }

  /** The cart `addToCart` leaves behind: one more piece on the product's line, or a new
      line of one piece at the end. */
  function AddedToCart(cart: seq<OrderItem>, name: string): seq<OrderItem>
  {
    match LineOf(cart, name)
    case Some(i) => cart[i := cart[i].(qty := cart[i].qty + 1)]
    case None => cart + [OrderItem(name, 1)]
  }

  /** On a product already in the cart, one more piece goes on its line, in place; no other
      line changes. */
  lemma AddToExistingLine(cart: seq<OrderItem>, name: string, i: nat)
    requires i < |cart| && cart[i].name == name && CartValid(cart)
    ensures var r := AddedToCart(cart, name);
      |r| == |cart| && r[i] == OrderItem(name, cart[i].qty + 1) &&
      forall k :: 0 <= k < |cart| && k != i ==> r[k] == cart[k]
  {
    assert LineOf(cart, name) == Some(i);
  }

  /** A product not in the cart gets a new line of one piece at the end, however many pieces
      of it were ordered already: there is no cap. */
  lemma AddNewLine(cart: seq<OrderItem>, name: string)
    requires forall j :: 0 <= j < |cart| ==> cart[j].name != name
    ensures AddedToCart(cart, name) == cart + [OrderItem(name, 1)]
  {
  }

  /** Adding keeps every quantity positive and the names distinct. */
  lemma AddPreservesValid(cart: seq<OrderItem>, name: string)
    requires CartValid(cart)
    ensures CartValid(AddedToCart(cart, name))
  {
    match LineOf(cart, name)
    case Some(i) =>
    case None =>
      var r := cart + [OrderItem(name, 1)];
      assert forall k :: 0 <= k < |cart| ==> r[k] == cart[k];
  }

  lemma {:induction false} CartCountConcat(a: seq<OrderItem>, b: seq<OrderItem>)
    ensures CartCount(a + b) == CartCount(a) + CartCount(b)
  {
    if b == [] {
      assert a + b == a;
    } else {
      InitOfSnoc(a + Init(b), Last(b));
      InitLast(b);
      assert a + b == (a + Init(b)) + [Last(b)];
      CartCountConcat(a, Init(b));
    }
  }

  lemma CartCountSingle(c: OrderItem)
    ensures CartCount([c]) == c.qty
  {
    InitOfSnoc([], c);
    assert [] + [c] == [c];
  }

  lemma CartCountAround(a: seq<OrderItem>, c: OrderItem, b: seq<OrderItem>)
    ensures CartCount(a + ([c] + b)) == CartCount(a) + c.qty + CartCount(b)
  {
    CartCountConcat(a, [c] + b);
    CartCountConcat([c], b);
    CartCountSingle(c);
  }

  lemma CartCountReplace(cart: seq<OrderItem>, i: nat, c: OrderItem)
    requires i < |cart|
    ensures CartCount(cart[i := c]) == CartCount(cart) - cart[i].qty + c.qty
  {
    SplitAt(cart, i);
    ReplaceSplit(cart, i, c);
    CartCountAround(cart[..i], cart[i], cart[i + 1..]);
    CartCountAround(cart[..i], c, cart[i + 1..]);
  }

  /** Every press adds exactly one piece to the cart, with no limit. */
  lemma AddCountsOne(cart: seq<OrderItem>, name: string)
    ensures CartCount(AddedToCart(cart, name)) == CartCount(cart) + 1
  {
    var r := AddedToCart(cart, name);
    match LineOf(cart, name)
    case Some(i) =>
      var c := cart[i].(qty := cart[i].qty + 1);
      assert r == cart[i := c];
      CartCountReplace(cart, i, c);
    case None =>
      assert r == cart + [OrderItem(name, 1)];
      InitOfSnoc(cart, OrderItem(name, 1));
  }

  // ---- Slots, orders and statistics ----

  /** The orders of any date that hold slot `slot` and are not cancelled. */
  function HoldsSlot(slot: string): BakeryOrder -> bool
  {
    (o: BakeryOrder) => o.pickupTime == slot && o.status != "cancelled"
  }

  function SlotCount(orders: seq<BakeryOrder>, slot: string): nat
  {
    Count(orders, HoldsSlot(slot))
  }

  /** The slot count ignores dates: an order for the slot on any date adds one, whatever
      its pickup date, and a full slot stays full. */
  lemma SlotCountIgnoresDate(orders: seq<BakeryOrder>, o: BakeryOrder, slot: string, date: string)
    ensures SlotCount(orders + [o], slot) ==
      SlotCount(orders, slot) + (if o.pickupTime == slot && o.status != "cancelled" then 1 else 0)
    ensures SlotCount(orders + [o.(pickupDate := date)], slot) == SlotCount(orders + [o], slot)
  {
    InitOfSnoc(orders, o);
    InitOfSnoc(orders, o.(pickupDate := date));
  }

  /** The order `submitOrder` builds: the cart's lines, today's date, "pending". */
  function NewOrder(cart: seq<OrderItem>, name: string, slot: string, today: string, timestamp: int): (o: BakeryOrder)
    ensures o.status == "pending" && o.items == cart && o.pickupDate == today
    ensures o.customerName == name && o.pickupTime == slot && o.id == ""
  {
    BakeryOrder(customerName := name, pickupTime := slot, items := cart, pickupDate := today,
                status := "pending", timestamp := timestamp)
  }

  function IsPending(): BakeryOrder -> bool
  {
    (o: BakeryOrder) => o.status == "pending"
  }

  /** `(total, pending)` over every order held, of any date. */
  function DailyStats(orders: seq<BakeryOrder>): (r: (nat, nat))
    ensures r.0 == |orders|
    ensures r.1 <= r.0
  {
    (|orders|, Count(orders, IsPending()))
  }

  /** An arriving order of any date adds one to the total, and one to the pending count
      exactly when its status is "pending". */
  lemma DailyStatsSnoc(orders: seq<BakeryOrder>, o: BakeryOrder)
    ensures DailyStats(orders + [o]).0 == DailyStats(orders).0 + 1
    ensures DailyStats(orders + [o]).1 == DailyStats(orders).1 + (if o.status == "pending" then 1 else 0)
  {
    FilterConcat(orders, [o], IsPending());
    InitOfSnoc([], o);
    assert [] + [o] == [o];
  }

  /** The earlier view-model: the order snapshot and the cart. */
  class BakeryViewModel {
    var orders: seq<BakeryOrder>
    var cart: seq<OrderItem>

    constructor ()
      ensures orders == [] && cart == []
    {
      orders := [];
      cart := [];
    }

    /** `listenToOrders`: a snapshot replaces the orders. */
    method ReceiveSnapshot(list: seq<BakeryOrder>)
      modifies this`orders
      ensures orders == list
    {
      orders := list;
    }

    /** `addToCart`. */
    method AddToCart(product: Product)
      modifies this`cart
      ensures cart == AddedToCart(old(cart), product.name)
      ensures CartValid(old(cart)) ==> CartValid(cart)
      ensures CartCount(cart) == CartCount(old(cart)) + 1
    {
      var currentList := cart;
      var existing := LineOf(currentList, product.name);
      if existing.Some? {
        var index := existing.value;
        // `indexOf(existing)` finds this line: no earlier line is equal to it
        assert forall j :: 0 <= j < index ==> currentList[j] != currentList[index];
        currentList := currentList[index := currentList[index].(qty := currentList[index].qty + 1)];
      } else {
        currentList := currentList + [OrderItem(product.name, 1)];
      }
      if CartValid(cart) {
        AddPreservesValid(cart, product.name);
      }
      AddCountsOne(cart, product.name);
      cart := currentList;
    }

    /** `isSlotFull`: three orders of any date hold the slot and are not cancelled. */
    function IsSlotFull(timeSlot: string): (full: bool)
      reads this
      ensures full <==> SlotCount(orders, timeSlot) >= MaxOrdersPerSlot
    {
      SlotCount(orders, timeSlot) >= MaxOrdersPerSlot
    }

    /** `submitOrder`: the order carries today's date; the cart is emptied and `onSuccess`
        runs only in the store's success listener. */
    method SubmitOrder(name: string, timeSlot: string, today: string, timestamp: int, writeSucceeds: bool)
      returns (newOrder: BakeryOrder, onSuccessRan: bool)
      modifies this`cart
      ensures newOrder == NewOrder(old(cart), name, timeSlot, today, timestamp)
      ensures onSuccessRan == writeSucceeds
      ensures cart == if writeSucceeds then [] else old(cart)
    {
      newOrder := NewOrder(cart, name, timeSlot, today, timestamp);
      onSuccessRan := false;
      if writeSucceeds {
        cart := [];
        onSuccessRan := true;
      }
    }

    /** `getDailyStats`: every order counts toward the total. */
    function GetDailyStats(): (r: (nat, nat))
      reads this
      ensures r.0 == |orders| && r.1 <= r.0
      ensures r == DailyStats(orders)
    {
      DailyStats(orders)
    }
  }

  // ---- Staff screen ----

  function IsTask(block: string): BakeryOrder -> bool
  {
    (o: BakeryOrder) => o.pickupTime == block && o.status == "pending"
  }

  /** `currentTasks`: the pending orders of the time block, of any date, in input order. */
  function CurrentTasks(orders: seq<BakeryOrder>, block: string): seq<BakeryOrder>
  {
    Filter(orders, IsTask(block))
  }

  /** An order is a task exactly when it holds the block and is pending; tasks keep the order
      of the snapshot, and every task holds a slot place. */
  lemma CurrentTasksSpec(orders: seq<BakeryOrder>, later: seq<BakeryOrder>, block: string, o: BakeryOrder)
    ensures o in CurrentTasks(orders, block) <==> o in orders && o.pickupTime == block && o.status == "pending"
    ensures CurrentTasks(orders + later, block) == CurrentTasks(orders, block) + CurrentTasks(later, block)
    ensures |CurrentTasks(orders, block)| <= SlotCount(orders, block)
  {
    FilterMember(orders, IsTask(block), o);
    FilterConcat(orders, later, IsTask(block));
    FilterOfFilter(orders, IsTask(block), HoldsSlot(block));
    assert |Filter(Filter(orders, HoldsSlot(block)), IsTask(block))| <= |Filter(orders, HoldsSlot(block))|;
  }

  /** The task card's icons. */
  datatype TaskIcon = Brightness5 | FiberManualRecord | BakeryDining

  /** The task card's rule: pineapple first, then red bean, otherwise the default. */
  function TaskIconOf(name: string): (icon: TaskIcon)
    ensures icon == Brightness5 <==> Contains(name, "菠蘿")
    ensures icon == FiberManualRecord <==> !Contains(name, "菠蘿") && Contains(name, "紅豆")
    ensures icon == BakeryDining <==> !Contains(name, "菠蘿") && !Contains(name, "紅豆")
  {
    if Contains(name, "菠蘿") then Brightness5
    else if Contains(name, "紅豆") then FiberManualRecord
    else BakeryDining
  }

  /** The three products of the earlier menu. */
  const Menu: seq<Product> := [
    Product("1", "招牌菠蘿", 35, "bread"),
    Product("2", "紅豆麵包", 30, "bean"),
    Product("3", "蔥花麵包", 35, "onion")
  ]

  /** Each product of the earlier menu gets its own task icon, and a name holding both
      keywords gets the pineapple one. */
  lemma MenuTaskIcons()
    ensures TaskIconOf(Menu[0].name) == Brightness5
    ensures TaskIconOf(Menu[1].name) == FiberManualRecord
    ensures TaskIconOf(Menu[2].name) == BakeryDining
    ensures TaskIconOf("紅豆菠蘿") == Brightness5
  {
    PineappleTaskIcon();
    RedBeanTaskIcon();
    OnionTaskIcon();
    ContainsAt("紅豆菠蘿", "菠蘿", 2);
  }

  lemma PineappleTaskIcon()
    ensures TaskIconOf(Menu[0].name) == Brightness5
  {
    ContainsAt("招牌菠蘿", "菠蘿", 2);
  }

  lemma RedBeanTaskIcon()
    ensures TaskIconOf(Menu[1].name) == FiberManualRecord
  {
    NotContainsFirst("紅豆麵包", "菠蘿");
    ContainsAt("紅豆麵包", "紅豆", 0);
  }

  lemma OnionTaskIcon()
    ensures TaskIconOf(Menu[2].name) == BakeryDining
  {
    NotContainsFirst("蔥花麵包", "菠蘿");
    NotContainsFirst("蔥花麵包", "紅豆");
  }
}

/** The current view-model: the order snapshot, the selected pickup date, the sold quantity per
    product for that date, and the customer's cart. Store writes become a success flag; a
    successful write reaches the view-model later, as a new snapshot. */
module ViewModel {
  import opened Collections
  import opened BakeryModel

  /** `MAX_ORDERS_PER_SLOT`. */
  const MaxOrdersPerSlot := 3

  /** The literal limit `updateCartQty` checks against (it does not read `maxDailyQty`). */
  const DailyCap := 20

  /** `soldMap[name] ?: 0`. */
  function SoldOf(sold: map<string, int>, name: string): int
  {
    if name in sold then sold[name] else 0
  }

  // ---- Inventory: the sold quantity per product on the selected date ----

  /** An order counts towards a day's sales when it is for that day and not cancelled. */
  function CountsTowardDay(date: string): BakeryOrder -> bool
  {
    (o: BakeryOrder) => o.pickupDate == date && o.status != "cancelled"
  }

  function DayOrders(orders: seq<BakeryOrder>, date: string): seq<BakeryOrder>
  {
    Filter(orders, CountsTowardDay(date))
  }

  /** One step of the inner loop: add a line's quantity to its name's entry. */
  function Bump(m: map<string, int>, it: OrderItem): map<string, int>
  {
    m[it.name := SoldOf(m, it.name) + it.qty]
  }

  function Tally(m: map<string, int>, items: seq<OrderItem>): map<string, int>
  {
    if items == [] then m else Bump(Tally(m, Init(items)), Last(items))
  }

  /** The sold map `recalculateInventory` computes for `orders` and `date`. */
  function SoldMap(orders: seq<BakeryOrder>, date: string): map<string, int>
  {
    Tally(map[], Flatten(DayOrders(orders, date)))
  }

  /** The inner loop's body: one more line of the current order, on the map it holds. */
  lemma TallyStep(start: map<string, int>, items: seq<OrderItem>, j: nat, m: map<string, int>)
    requires j < |items| && m == Tally(start, items[..j])
    ensures m[items[j].name := (if items[j].name in m then m[items[j].name] else 0) + items[j].qty]
         == Tally(start, items[..j + 1])
  {
    assert items[..j + 1] == items[..j] + [items[j]];
    InitOfSnoc(items[..j], items[j]);
  }

  /** Tallying two runs of lines is tallying the second onto the tally of the first. */
  lemma {:induction false} TallyConcat(m: map<string, int>, a: seq<OrderItem>, b: seq<OrderItem>)
    ensures Tally(m, a + b) == Tally(Tally(m, a), b)
  {
    if b == [] {
      assert a + b == a;
    } else {
      InitLast(b);
      assert a + b == (a + Init(b)) + [Last(b)];
      InitOfSnoc(a + Init(b), Last(b));
      TallyConcat(m, a, Init(b));
    }
  }

  /** The outer loop's body: the lines of one more order tallied onto the map. */
  lemma OrderStep(orders: seq<BakeryOrder>, i: nat, start: map<string, int>, m: map<string, int>)
    requires i < |orders| && start == Tally(map[], Flatten(orders[..i]))
    requires m == Tally(start, orders[i].items[..|orders[i].items|])
    ensures m == Tally(map[], Flatten(orders[..i + 1]))
  {
    assert orders[..i + 1] == orders[..i] + [orders[i]];
    FlattenSnoc(orders[..i], orders[i]);
    assert orders[i].items[..|orders[i].items|] == orders[i].items;
    TallyConcat(map[], Flatten(orders[..i]), orders[i].items);
  }

  /** Tallying lines adds, for every name, the quantities of the lines with that name; the
      names with an entry are the ones that had one or occur among the lines. */
  lemma {:induction false} TallySpec(m: map<string, int>, items: seq<OrderItem>, n: string)
    ensures SoldOf(Tally(m, items), n) == SoldOf(m, n) + QtyNamed(items, n)
    ensures n in Tally(m, items) <==> n in m || HasItemNamed(items, n)
  {
    if items != [] {
      TallySpec(m, Init(items), n);
      InitLast(items);
      if HasItemNamed(items, n) && Last(items).name != n {
        var i :| 0 <= i < |items| && items[i].name == n;
        assert i < |items| - 1 && Init(items)[i] == items[i];
      }
      if HasItemNamed(Init(items), n) {
        var i :| 0 <= i < |Init(items)| && Init(items)[i].name == n;
        assert items[i] == Init(items)[i];
      }
      assert Last(items) == items[|items| - 1];
    }
  }

  /** Some line of an order that counts towards `date` is named `n`. */
  predicate SoldOnDay(orders: seq<BakeryOrder>, date: string, n: string)
  {
    exists k :: 0 <= k < |orders| && CountsTowardDay(date)(orders[k]) && HasItemNamed(orders[k].items, n)
  }

  lemma FlattenHasName(orders: seq<BakeryOrder>, n: string)
    ensures HasItemNamed(Flatten(orders), n) <==> exists k :: 0 <= k < |orders| && HasItemNamed(orders[k].items, n)
  {
    var fl := Flatten(orders);
    if HasItemNamed(fl, n) {
      var i :| 0 <= i < |fl| && fl[i].name == n;
      FlattenMember(orders, fl[i]);
      var k :| 0 <= k < |orders| && fl[i] in orders[k].items;
      var j :| 0 <= j < |orders[k].items| && orders[k].items[j] == fl[i];
      assert HasItemNamed(orders[k].items, n);
    }
    if exists k :: 0 <= k < |orders| && HasItemNamed(orders[k].items, n) {
      var k :| 0 <= k < |orders| && HasItemNamed(orders[k].items, n);
      var j :| 0 <= j < |orders[k].items| && orders[k].items[j].name == n;
      FlattenMember(orders, orders[k].items[j]);
      var i :| 0 <= i < |fl| && fl[i] == orders[k].items[j];
    }
  }

  /** The sold map holds, for every product name, the summed quantity over the orders for the
      date that are not cancelled, and has an entry exactly for the names such an order has. */
  lemma SoldMapSpec(orders: seq<BakeryOrder>, date: string, n: string)
    ensures SoldOf(SoldMap(orders, date), n) == QtyNamed(Flatten(DayOrders(orders, date)), n)
    ensures n in SoldMap(orders, date) <==> SoldOnDay(orders, date, n)
  {
    var day := DayOrders(orders, date);
    TallySpec(map[], Flatten(day), n);
    FlattenHasName(day, n);
    if SoldOnDay(orders, date, n) {
      var k :| 0 <= k < |orders| && CountsTowardDay(date)(orders[k]) && HasItemNamed(orders[k].items, n);
      var k' :| 0 <= k' < |day| && day[k'] == orders[k];
    }
    if exists k :: 0 <= k < |day| && HasItemNamed(day[k].items, n) {
      var k :| 0 <= k < |day| && HasItemNamed(day[k].items, n);
      var k' :| 0 <= k' < |orders| && orders[k'] == day[k];
      assert CountsTowardDay(date)(orders[k']);
    }
  }

  /** No line on a counting order gives the empty map, and only then. */
  lemma SoldMapEmpty(orders: seq<BakeryOrder>, date: string)
    ensures SoldMap(orders, date) == map[] <==> Flatten(DayOrders(orders, date)) == []
  {
    var fl := Flatten(DayOrders(orders, date));
    if fl != [] {
      TallySpec(map[], fl, fl[0].name);
      assert HasItemNamed(fl, fl[0].name);
    }
  }

  /** An order for another date, or a cancelled one, changes nothing in the sold map. */
  lemma SoldMapIgnores(orders: seq<BakeryOrder>, o: BakeryOrder, date: string)
    requires o.pickupDate != date || o.status == "cancelled"
    ensures SoldMap(orders + [o], date) == SoldMap(orders, date)
  {
    FilterConcat(orders, [o], CountsTowardDay(date));
    InitOfSnoc([], o);
    assert [] + [o] == [o];
    assert DayOrders(orders + [o], date) == DayOrders(orders, date);
  }

  /** An order that counts adds its quantities to the sold map. */
  lemma SoldMapAdds(orders: seq<BakeryOrder>, o: BakeryOrder, date: string, n: string)
    requires o.pickupDate == date && o.status != "cancelled"
    ensures SoldOf(SoldMap(orders + [o], date), n) == SoldOf(SoldMap(orders, date), n) + QtyNamed(o.items, n)
  {
    FilterConcat(orders, [o], CountsTowardDay(date));
    InitOfSnoc([], o);
    assert [] + [o] == [o];
    assert DayOrders(orders + [o], date) == DayOrders(orders, date) + [o];
    FlattenSnoc(DayOrders(orders, date), o);
    SoldMapSpec(orders + [o], date, n);
    SoldMapSpec(orders, date, n);
    QtyNamedConcat(Flatten(DayOrders(orders, date)), o.items, n);
  }

  // ---- Slot capacity ----

  /** An order occupies a slot when it is for that date and time and not cancelled. */
  function InSlot(date: string, slot: string): BakeryOrder -> bool
  {
    (o: BakeryOrder) => o.pickupDate == date && o.pickupTime == slot && o.status != "cancelled"
  }

  function SlotCount(orders: seq<BakeryOrder>, date: string, slot: string): nat
  {
    Count(orders, InSlot(date, slot))
  }

  /** `isSlotFull` for a given snapshot and date. */
  predicate SlotFull(orders: seq<BakeryOrder>, date: string, slot: string)
  {
    SlotCount(orders, date, slot) >= MaxOrdersPerSlot
  }

  /** A new order raises the slot's count by one when it occupies the slot and leaves it
      otherwise, so a full slot never becomes free by an order arriving. */
  lemma SlotCountSnoc(orders: seq<BakeryOrder>, o: BakeryOrder, date: string, slot: string)
    ensures SlotCount(orders + [o], date, slot)
         == SlotCount(orders, date, slot) + (if InSlot(date, slot)(o) then 1 else 0)
    ensures SlotFull(orders, date, slot) ==> SlotFull(orders + [o], date, slot)
  {
    FilterConcat(orders, [o], InSlot(date, slot));
    InitOfSnoc([], o);
    assert [] + [o] == [o];
  }

  /** `getDailyStats`: every order on the date, and the pending ones among them. */
  function DailyStats(orders: seq<BakeryOrder>, date: string): (r: (nat, nat))
    ensures r.1 <= r.0 <= |orders|
  {
    var day := Filter(orders, OnDate(date));
    (|day|, Count(day, IsPendingOrder()))
  }

  /** A new order on the date adds one to the total whatever its status, and one to the
      pending count exactly when it is pending; an order on another date changes neither. */
  lemma DailyStatsSnoc(orders: seq<BakeryOrder>, o: BakeryOrder, date: string)
    ensures DailyStats(orders + [o], date).0 == DailyStats(orders, date).0 + (if o.pickupDate == date then 1 else 0)
    ensures DailyStats(orders + [o], date).1
         == DailyStats(orders, date).1 + (if o.pickupDate == date && o.status == "pending" then 1 else 0)
  {
    FilterConcat(orders, [o], OnDate(date));
    InitOfSnoc([], o);
    assert [] + [o] == [o];
    var day := Filter(orders, OnDate(date));
    if o.pickupDate == date {
      assert Filter(orders + [o], OnDate(date)) == day + [o];
      FilterConcat(day, [o], IsPendingOrder());
    } else {
      assert Filter(orders + [o], OnDate(date)) == day;
    }
  }

  // ---- Cart ----

  /** What the cart always satisfies: every line has a positive quantity and the default
      price 0, and no two lines share a name. */
  predicate CartValid(cart: seq<OrderItem>)
  {
    (forall i :: 0 <= i < |cart| ==> cart[i].qty >= 1 && cart[i].price == 0) &&
    (forall i, j :: 0 <= i < j < |cart| ==> cart[i].name != cart[j].name)
  }

  /** Every line fits the daily cap next to what is already sold. */
  predicate WithinCap(cart: seq<OrderItem>, sold: map<string, int>)
  {
    forall i :: 0 <= i < |cart| ==> SoldOf(sold, cart[i].name) + cart[i].qty <= DailyCap
  }

  /** Removing line `i` keeps a cart valid and within the cap. */
  lemma RemoveLineKeeps(cart: seq<OrderItem>, sold: map<string, int>, i: nat)
    requires i < |cart|
    ensures CartValid(cart) ==> CartValid(cart[..i] + cart[i + 1..])
    ensures WithinCap(cart, sold) ==> WithinCap(cart[..i] + cart[i + 1..], sold)
  {
    var r := cart[..i] + cart[i + 1..];
    forall k | 0 <= k < |r| ensures r[k] == cart[if k < i then k else k + 1] { }
  }

  /** Writing a positive quantity on line `i` keeps a cart valid. */
  lemma WriteLineKeepsValid(cart: seq<OrderItem>, i: nat, q: int)
    requires i < |cart| && q >= 1 && CartValid(cart)
    ensures CartValid(cart[i := cart[i].(qty := q)])
  {
    var r := cart[i := cart[i].(qty := q)];
    assert forall k :: 0 <= k < |r| ==> r[k].name == cart[k].name && r[k].price == 0;
  }

  /** Writing a quantity that fits the cap on line `i` keeps a cart within the cap. */
  lemma WriteLineKeepsCap(cart: seq<OrderItem>, sold: map<string, int>, i: nat, q: int)
    requires i < |cart| && WithinCap(cart, sold) && SoldOf(sold, cart[i].name) + q <= DailyCap
    ensures WithinCap(cart[i := cart[i].(qty := q)], sold)
  {
  }

  /** A new line `(name, 1)` for a name without a line keeps a cart valid. */
  lemma AppendLineKeepsValid(cart: seq<OrderItem>, name: string)
    requires CartValid(cart) && !HasItemNamed(cart, name)
    ensures CartValid(cart + [OrderItem(name, 1)])
  {
    var r := cart + [OrderItem(name, 1)];
    assert forall k :: 0 <= k < |cart| ==> r[k] == cart[k];
  }

  /** A new line `(name, 1)` that fits the cap keeps a cart within it. */
  lemma AppendLineKeepsCap(cart: seq<OrderItem>, sold: map<string, int>, name: string)
    requires WithinCap(cart, sold) && SoldOf(sold, name) + 1 <= DailyCap
    ensures WithinCap(cart + [OrderItem(name, 1)], sold)
  {
    var r := cart + [OrderItem(name, 1)];
    assert forall k :: 0 <= k < |cart| ==> r[k] == cart[k];
  }

  function NotNamed(n: string): OrderItem -> bool
  {
    (it: OrderItem) => it.name != n
  }

  /** The cart `updateCartQty(product, delta)` leaves behind, given the sold map. */
  function UpdatedCart(cart: seq<OrderItem>, sold: map<string, int>, name: string, delta: int): seq<OrderItem>
  {
    match FindLine(cart, name)
    case Some(i) =>
      var newQty := cart[i].qty + delta;
      if newQty <= 0 then cart[..i] + cart[i + 1..]
      else if SoldOf(sold, name) + newQty <= DailyCap then cart[i := cart[i].(qty := newQty)]
      else cart
    case None =>
      if delta > 0 && SoldOf(sold, name) + 1 <= DailyCap then cart + [OrderItem(name, 1)]
      else cart
  }

  /** A line whose quantity would drop to 0 or below is removed; the other lines stay, in order. */
  lemma UpdateRemoves(cart: seq<OrderItem>, sold: map<string, int>, name: string, delta: int, i: nat)
    requires i < |cart| && cart[i].name == name && cart[i].qty + delta <= 0
    requires CartValid(cart)
    ensures !HasItemNamed(UpdatedCart(cart, sold, name, delta), name)
    ensures |UpdatedCart(cart, sold, name, delta)| == |cart| - 1
  {
    var r := UpdatedCart(cart, sold, name, delta);
    assert FindLine(cart, name) == Some(i);
    assert r == cart[..i] + cart[i + 1..];
    forall k | 0 <= k < |r| ensures r[k].name != name {
      if k < i { assert r[k] == cart[k]; } else { assert r[k] == cart[k + 1]; }
    }
  }

  /** On an existing line with a positive new quantity, the quantity at the same index becomes
      the new one exactly when it fits the cap next to what is sold; otherwise nothing changes,
      for increments and decrements alike. */
  lemma UpdateWrites(cart: seq<OrderItem>, sold: map<string, int>, name: string, delta: int, i: nat)
    requires i < |cart| && cart[i].name == name && cart[i].qty + delta > 0
    requires CartValid(cart)
    ensures var r := UpdatedCart(cart, sold, name, delta);
      if SoldOf(sold, name) + cart[i].qty + delta <= DailyCap then
        |r| == |cart| && r[i] == OrderItem(name, cart[i].qty + delta, cart[i].price) &&
        forall k :: 0 <= k < |cart| && k != i ==> r[k] == cart[k]
      else r == cart
  {
    assert FindLine(cart, name) == Some(i);
  }

  /** A product without a line gets a line `(name, 1)` at the end when `delta` is positive and
      one more fits the cap, however large `delta` is; otherwise the cart is unchanged. */
  lemma UpdateAppends(cart: seq<OrderItem>, sold: map<string, int>, name: string, delta: int)
    requires !HasItemNamed(cart, name)
    ensures UpdatedCart(cart, sold, name, delta)
         == if delta > 0 && SoldOf(sold, name) + 1 <= DailyCap then cart + [OrderItem(name, 1, 0)] else cart
  {
  }

  /** Lines for other products and their order are untouched. */
  lemma UpdateKeepsOthers(cart: seq<OrderItem>, sold: map<string, int>, name: string, delta: int)
    ensures Filter(UpdatedCart(cart, sold, name, delta), NotNamed(name)) == Filter(cart, NotNamed(name))
  {
    var p := NotNamed(name);
    var r := UpdatedCart(cart, sold, name, delta);
    match FindLine(cart, name)
    case Some(i) =>
      var newQty := cart[i].qty + delta;
      if newQty <= 0 {
        assert r == cart[..i] + cart[i + 1..];
        FilterRemoveAt(cart, i, p);
      } else if SoldOf(sold, name) + newQty <= DailyCap {
        assert r == cart[i := cart[i].(qty := newQty)];
        FilterReplaceAt(cart, i, cart[i].(qty := newQty), p);
      } else {
        assert r == cart;
      }
    case None =>
      if delta > 0 && SoldOf(sold, name) + 1 <= DailyCap {
        assert r == cart + [OrderItem(name, 1)];
        FilterSnocDropped(cart, OrderItem(name, 1), p);
      } else {
        assert r == cart;
      }
  }

  /** `updateCartQty` keeps the cart valid. */
  lemma UpdatePreservesValid(cart: seq<OrderItem>, sold: map<string, int>, name: string, delta: int)
    requires CartValid(cart)
    ensures CartValid(UpdatedCart(cart, sold, name, delta))
  {
    var r := UpdatedCart(cart, sold, name, delta);
    match FindLine(cart, name)
    case Some(i) =>
      var newQty := cart[i].qty + delta;
      if newQty <= 0 {
        assert r == cart[..i] + cart[i + 1..];
        RemoveLineKeeps(cart, sold, i);
      } else if SoldOf(sold, name) + newQty <= DailyCap {
        assert r == cart[i := cart[i].(qty := newQty)];
        WriteLineKeepsValid(cart, i, newQty);
      } else {
        assert r == cart;
      }
    case None =>
      if delta > 0 && SoldOf(sold, name) + 1 <= DailyCap {
        assert r == cart + [OrderItem(name, 1)];
        AppendLineKeepsValid(cart, name);
      } else {
        assert r == cart;
      }
  }

  /** With the sold map held fixed, `updateCartQty` never takes a line past the daily cap. */
  lemma UpdatePreservesCap(cart: seq<OrderItem>, sold: map<string, int>, name: string, delta: int)
    requires WithinCap(cart, sold)
    ensures WithinCap(UpdatedCart(cart, sold, name, delta), sold)
  {
    var r := UpdatedCart(cart, sold, name, delta);
    match FindLine(cart, name)
    case Some(i) =>
      var newQty := cart[i].qty + delta;
      if newQty <= 0 {
        assert r == cart[..i] + cart[i + 1..];
        RemoveLineKeeps(cart, sold, i);
      } else if SoldOf(sold, name) + newQty <= DailyCap {
        assert r == cart[i := cart[i].(qty := newQty)];
        WriteLineKeepsCap(cart, sold, i, newQty);
      } else {
        assert r == cart;
      }
    case None =>
      if delta > 0 && SoldOf(sold, name) + 1 <= DailyCap {
        assert r == cart + [OrderItem(name, 1)];
        AppendLineKeepsCap(cart, sold, name);
      } else {
        assert r == cart;
      }
  }

  /** In a valid cart the quantity summed over the lines named like line `i` is that line's. */
  lemma {:induction false} CartQtyNamedLine(cart: seq<OrderItem>, i: nat)
    requires CartValid(cart) && i < |cart|
    ensures QtyNamed(cart, cart[i].name) == cart[i].qty
  {
    var n := cart[i].name;
    InitLast(cart);
    assert CartValid(Init(cart)) by {
      forall k | 0 <= k < |Init(cart)| ensures Init(cart)[k] == cart[k] { }
    }
    if i == |cart| - 1 {
      assert !HasItemNamed(Init(cart), n) by {
        forall k | 0 <= k < |Init(cart)| ensures Init(cart)[k].name != n {
          assert Init(cart)[k] == cart[k];
        }
      }
      QtyNamedAbsent(Init(cart), n);
    } else {
      assert Init(cart)[i] == cart[i];
      CartQtyNamedLine(Init(cart), i);
      assert Last(cart).name != n;
    }
  }

  /** The cap is the literal 20, not the product's `maxDailyQty`: for a product whose own daily
      quantity were 5, with 4 sold, a request for 2 more adds one piece to a cart without a
      line, and a second such request takes the line to 3: 7 pieces against the product's 5. */
  lemma CapIgnoresMaxDailyQty()
    ensures UpdatedCart([], map["A" := 4], "A", 2) == [OrderItem("A", 1, 0)]
    ensures UpdatedCart([OrderItem("A", 1, 0)], map["A" := 4], "A", 2) == [OrderItem("A", 3, 0)]
  {
    assert FindLine([OrderItem("A", 1, 0)], "A") == Some(0);
  }

  // ---- Submission ----

  /** The order `submitOrder` builds: the cart's lines as they are, the selected date, the
      given customer and slot, status "pending". No field and no slot is checked. */
  function NewOrder(cart: seq<OrderItem>, date: string, name: string, email: string, slot: string, timestamp: int): (o: BakeryOrder)
    ensures o.status == "pending" && !o.IsCompleted() && o.id == ""
    ensures o.items == cart && o.pickupDate == date && o.pickupTime == slot
    ensures o.customerName == name && o.email == email
  {
    BakeryOrder(customerName := name, email := email, pickupTime := slot, items := cart,
                pickupDate := date, status := "pending", timestamp := timestamp)
  }

  /** Cart lines carry price 0, so a submitted order's `totalPrice` is 0. */
  lemma SubmittedTotalIsZero(cart: seq<OrderItem>, date: string, name: string, email: string, slot: string, timestamp: int)
    requires CartValid(cart)
    ensures NewOrder(cart, date, name, email, slot, timestamp).TotalPrice() == 0
  {
    TotalPriceZeroPrices(cart);
  }

  /** Once the written order arrives, the slot holds one more order: nothing stops a fourth
      order in a full slot. */
  lemma SubmittedFillsSlot(orders: seq<BakeryOrder>, cart: seq<OrderItem>, date: string, name: string, email: string, slot: string, timestamp: int)
    ensures SlotCount(orders + [NewOrder(cart, date, name, email, slot, timestamp)], date, slot) == SlotCount(orders, date, slot) + 1
    ensures SlotFull(orders, date, slot) ==> SlotCount(orders + [NewOrder(cart, date, name, email, slot, timestamp)], date, slot) > MaxOrdersPerSlot
  {
    SlotCountSnoc(orders, NewOrder(cart, date, name, email, slot, timestamp), date, slot);
  }

  /** Once the written order arrives, each cart line's quantity is sold on the date; a cart
      that fitted the cap against the old sold map keeps every product within the cap. */
  lemma SubmittedSold(orders: seq<BakeryOrder>, cart: seq<OrderItem>, date: string, name: string, email: string, slot: string, timestamp: int, i: nat)
    requires CartValid(cart) && WithinCap(cart, SoldMap(orders, date)) && i < |cart|
    ensures var after := SoldMap(orders + [NewOrder(cart, date, name, email, slot, timestamp)], date);
      SoldOf(after, cart[i].name) == SoldOf(SoldMap(orders, date), cart[i].name) + cart[i].qty &&
      SoldOf(after, cart[i].name) <= DailyCap
  {
    SoldMapAdds(orders, NewOrder(cart, date, name, email, slot, timestamp), date, cart[i].name);
    CartQtyNamedLine(cart, i);
  }

  // ---- Staff actions ----

  /** The store's `updateOrderStatus(orderId, "ready")`, as it shows in the next snapshot:
      every order with the id is marked "ready" and nothing else changes. */
  function MarkedReady(orders: seq<BakeryOrder>, id: string): (r: seq<BakeryOrder>)
    ensures |r| == |orders|
    ensures forall i :: 0 <= i < |r| ==>
      r[i] == if orders[i].id == id then orders[i].(status := "ready") else orders[i]
  {
    if orders == [] then []
    else
      var o := Last(orders);
      MarkedReady(Init(orders), id) + [if o.id == id then o.(status := "ready") else o]
  }

  /** Marking an order ready changes no day's total and never raises its pending count. */
  lemma {:induction false} MarkedReadyStats(orders: seq<BakeryOrder>, id: string, date: string)
    ensures DailyStats(MarkedReady(orders, id), date).0 == DailyStats(orders, date).0
    ensures DailyStats(MarkedReady(orders, id), date).1 <= DailyStats(orders, date).1
  {
    if orders != [] {
      var o := Last(orders);
      var m := if o.id == id then o.(status := "ready") else o;
      MarkedReadyStats(Init(orders), id, date);
      InitLast(orders);
      DailyStatsSnoc(Init(orders), o, date);
      DailyStatsSnoc(MarkedReady(Init(orders), id), m, date);
    }
  }

  /** Marking ready an order that is not cancelled leaves every day's sold lines as they were. */
  lemma {:induction false} MarkedReadyDayItems(orders: seq<BakeryOrder>, id: string, date: string)
    requires forall i :: 0 <= i < |orders| && orders[i].id == id ==> orders[i].status != "cancelled"
    ensures Flatten(DayOrders(MarkedReady(orders, id), date)) == Flatten(DayOrders(orders, date))
  {
    if orders != [] {
      var o := Last(orders);
      var m := if o.id == id then o.(status := "ready") else o;
      var p := CountsTowardDay(date);
      var a := MarkedReady(Init(orders), id);
      assert MarkedReady(orders, id) == a + [m];
      assert forall i :: 0 <= i < |Init(orders)| ==> Init(orders)[i] == orders[i];
      MarkedReadyDayItems(Init(orders), id, date);
      InitOfSnoc(a, m);
      InitLast(orders);
      assert Filter(a + [m], p) == Filter(a, p) + (if p(m) then [m] else []);
      assert Filter(orders, p) == Filter(Init(orders), p) + (if p(o) then [o] else []);
      assert p(m) == p(o) && m.items == o.items;
      if p(o) {
        FlattenSnoc(Filter(a, p), m);
        FlattenSnoc(Filter(Init(orders), p), o);
      } else {
        assert Filter(a + [m], p) == Filter(a, p);
        assert Filter(orders, p) == Filter(Init(orders), p);
      }
    }
  }

  /** Marking ready an order that is not cancelled leaves every day's sold map as it was. */
  lemma MarkedReadyKeepsSold(orders: seq<BakeryOrder>, id: string, date: string)
    requires forall i :: 0 <= i < |orders| && orders[i].id == id ==> orders[i].status != "cancelled"
    ensures SoldMap(MarkedReady(orders, id), date) == SoldMap(orders, date)
  {
    MarkedReadyDayItems(orders, id, date);
  }

  /** A cancelled order marked ready counts toward its day's sales again. */
  lemma MarkedReadyRevivesCancelled(orders: seq<BakeryOrder>, o: BakeryOrder, n: string)
    requires o.status == "cancelled"
    requires forall i :: 0 <= i < |orders| ==> orders[i].id != o.id
    ensures SoldOf(SoldMap(orders + [o], o.pickupDate), n) == SoldOf(SoldMap(orders, o.pickupDate), n)
    ensures SoldOf(SoldMap(MarkedReady(orders + [o], o.id), o.pickupDate), n)
         == SoldOf(SoldMap(orders + [o], o.pickupDate), n) + QtyNamed(o.items, n)
  {
    SoldMapIgnores(orders, o, o.pickupDate);
    var m := o.(status := "ready");
    var r := MarkedReady(orders + [o], o.id);
    assert r == orders + [m] by {
      forall i | 0 <= i < |r| ensures r[i] == (orders + [m])[i] {
        if i < |orders| { assert (orders + [o])[i] == orders[i]; }
      }
    }
    SoldMapAdds(orders, m, o.pickupDate, n);
  }

  /** The session state machine of the current view-model. */
  class BakeryViewModel {
    var orders: seq<BakeryOrder>
    var cart: seq<OrderItem>
    var selectedDate: string
    var soldQtyMap: map<string, int>

    /** The sold map is always the one derived from the snapshot and the date, and the
        cart is valid. */
    ghost predicate Valid()
      reads this
    {
      CartValid(cart) && soldQtyMap == SoldMap(orders, selectedDate)
    }

    /** A new view-model: no orders, an empty cart and sold map, and today's date. */
    constructor (today: string)
      ensures Valid()
      ensures orders == [] && cart == [] && selectedDate == today && soldQtyMap == map[]
    {
      orders := [];
      cart := [];
      selectedDate := today;
      soldQtyMap := map[];
    }

    /** A snapshot from the store replaces the orders and the sold map is recomputed. */
    method ReceiveSnapshot(list: seq<BakeryOrder>)
      requires Valid()
      modifies this
      ensures Valid()
      ensures orders == list && selectedDate == old(selectedDate) && cart == old(cart)
      ensures soldQtyMap == SoldMap(list, selectedDate)
    {
      orders := list;
      RecalculateInventory();
    }

    /** `updateDate`: select a date and recompute the sold map for it. */
    method UpdateDate(date: string)
      requires Valid()
      modifies this
      ensures Valid()
      ensures selectedDate == date && orders == old(orders) && cart == old(cart)
      ensures soldQtyMap == SoldMap(orders, date)
    {
      selectedDate := date;
      RecalculateInventory();
    }

    /** `recalculateInventory`: sum the quantities per name over the selected date's orders
        that are not cancelled. */
    method RecalculateInventory()
      modifies this`soldQtyMap
      ensures soldQtyMap == SoldMap(orders, selectedDate)
    {
      var targetDate := selectedDate;
      var dayOrders := DayOrders(orders, targetDate);
      var m: map<string, int> := map[];
      var i := 0;
      while i < |dayOrders|
        invariant 0 <= i <= |dayOrders|
        invariant m == Tally(map[], Flatten(dayOrders[..i]))
      {
        var items := dayOrders[i].items;
        ghost var start := m;
        var j := 0;
        while j < |items|
          invariant 0 <= j <= |items|
          invariant m == Tally(start, items[..j])
        {
          var item := items[j];
          var current := if item.name in m then m[item.name] else 0;
          TallyStep(start, items, j, m);
          m := m[item.name := current + item.qty];
          j := j + 1;
        }
        OrderStep(dayOrders, i, start, m);
        i := i + 1;
      }
      assert dayOrders[..i] == dayOrders;
      soldQtyMap := m;
    }

    /** `updateCartQty`. */
    method UpdateCartQty(product: Product, delta: int)
      requires Valid()
      modifies this`cart
      ensures Valid()
      ensures cart == UpdatedCart(old(cart), soldQtyMap, product.name, delta)
    {
      var currentList := cart;
      var existing := FindLine(currentList, product.name);
      if existing.Some? {
        var index := existing.value;
        // `remove(existing)` and `indexOf(existing)` both find this line: no earlier line is equal to it
        assert forall j :: 0 <= j < index ==> currentList[j] != currentList[index];
        var newQty := currentList[index].qty + delta;
        if newQty <= 0 {
          currentList := currentList[..index] + currentList[index + 1..];
        } else {
          var sold := SoldOf(soldQtyMap, product.name);
          var limit := DailyCap;
          if sold + newQty <= limit {
            currentList := currentList[index := currentList[index].(qty := newQty)];
          }
        }
      } else if delta > 0 {
        var sold := SoldOf(soldQtyMap, product.name);
        var limit := DailyCap;
        if sold + 1 <= limit {
          currentList := currentList + [OrderItem(product.name, 1)];
        }
      }
      UpdatePreservesValid(cart, soldQtyMap, product.name, delta);
      cart := currentList;
    }

    /** `isSlotFull`: the slot on the selected date holds at least three orders that are not
        cancelled. */
    function IsSlotFull(timeSlot: string): (full: bool)
      reads this
      ensures full <==> SlotCount(orders, selectedDate, timeSlot) >= 3
    {
      SlotFull(orders, selectedDate, timeSlot)
    }

    /** `submitOrder`: the order is built from the cart; the cart is emptied and `onSuccess`
        runs only when the store write succeeds. The orders change only when the store sends
        the next snapshot. */
    method SubmitOrder(name: string, email: string, timeSlot: string, timestamp: int, writeSucceeds: bool)
      returns (newOrder: BakeryOrder, onSuccessRan: bool)
      requires Valid()
      modifies this`cart
      ensures Valid()
      ensures newOrder == NewOrder(old(cart), selectedDate, name, email, timeSlot, timestamp)
      ensures onSuccessRan == writeSucceeds
      ensures cart == if writeSucceeds then [] else old(cart)
    {
      newOrder := NewOrder(cart, selectedDate, name, email, timeSlot, timestamp);
      onSuccessRan := false;
      if writeSucceeds {
        cart := [];
        onSuccessRan := true;
      }
    }

    /** `getDailyStats` on the selected date. */
    function GetDailyStats(): (r: (nat, nat))
      reads this
      ensures r.1 <= r.0
      ensures r == DailyStats(orders, selectedDate)
    {
      DailyStats(orders, selectedDate)
    }
  }
}

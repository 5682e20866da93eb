/** The bakery's records: a catalog product, a line of an order (or of the cart) and an order.
    Every field has the default the records declare, so they can be built by naming only
    some fields. The order's creation time is a plain number supplied by the caller. */
module BakeryModel {
  import opened Collections

  /** A catalog product. `iconName` is the fourth positional field; the catalog stores the
      product's category there. `qty` is a scratch field the cart screens never read. */
  datatype Product = Product(
    id: string := "",
    name: string := "",
    price: int := 0,
    iconName: string := "bread",
    maxDailyQty: int := 20,
    qty: int := 0)

  /** A line of an order or of the cart: a product name, a quantity and a unit price. */
  datatype OrderItem = OrderItem(name: string := "", qty: int := 0, price: int := 0)

  /** An order as the store keeps it. `status` is a free string:
      "pending", "ready", "completed" or "cancelled". */
  datatype BakeryOrder = BakeryOrder(
    id: string := "",
    customerName: string := "",
    email: string := "",
    pickupTime: string := "",
    pickupDate: string := "",
    items: seq<OrderItem> := [],
    status: string := "pending",
    timestamp: int := 0)
  {
    /** The `totalPrice` getter: the sum of price times quantity over the order's lines. */
    function TotalPrice(): int
    {
      ItemsTotal(items)
    }

    /** The `isCompleted` getter. */
    predicate IsCompleted()
    {
      status == "completed"
    }

    /** The `isCompleted` setter: it ignores the value and leaves the order as it was. */
    function SetIsCompleted(value: bool): (r: BakeryOrder)
      ensures r.IsCompleted() == IsCompleted()
      ensures r == this
    {
      this
    }
  }

  /** `sumOf { it.price * it.qty }`. */
  function ItemsTotal(items: seq<OrderItem>): int
  {
    if items == [] then 0 else ItemsTotal(Init(items)) + Last(items).price * Last(items).qty
  }

  /** Sum of all quantities: `sumOf { it.qty }`. */
  function TotalQty(items: seq<OrderItem>): int
  {
    if items == [] then 0 else TotalQty(Init(items)) + Last(items).qty
  }

  /** Sum of the quantities of the lines named `n`. */
  function QtyNamed(items: seq<OrderItem>, n: string): int
  {
    if items == [] then 0
    else QtyNamed(Init(items), n) + (if Last(items).name == n then Last(items).qty else 0)
  }

  /** Some line is named `n`. */
  predicate HasItemNamed(items: seq<OrderItem>, n: string)
  {
    exists i :: 0 <= i < |items| && items[i].name == n
  }

  lemma HasItemNamedSnoc(a: seq<OrderItem>, x: OrderItem, n: string)
    ensures HasItemNamed(a + [x], n) <==> HasItemNamed(a, n) || x.name == n
  {
    var s := a + [x];
    assert s[|a|] == x;
    assert forall j :: 0 <= j < |a| ==> s[j] == a[j];
  }

  /** `flatMap { it.items }`: all lines of all orders, order by order. */
  function Flatten(orders: seq<BakeryOrder>): seq<OrderItem>
  {
    if orders == [] then [] else Flatten(Init(orders)) + Last(orders).items
  }

  /** `find { it.name == n }`, as the index of the first line named `n`. */
  function FindLine(items: seq<OrderItem>, n: string): (r: Option<nat>)
    ensures r.Some? ==> r.value < |items| && items[r.value].name == n
    ensures r.Some? ==> forall j :: 0 <= j < r.value ==> items[j].name != n
    ensures r.None? <==> !HasItemNamed(items, n)
  {
    if items == [] then None
    else if items[0].name == n then Some(0)
    else
      match FindLine(items[1..], n)
      case None =>
        assert forall j :: 1 <= j < |items| ==> items[j] == items[1..][j - 1];
        None
      case Some(k) => Some(k + 1)
  }

  /** Appending a line leaves the first line named `n` where it was when there is one. */
  lemma FindLineSnocOld(a: seq<OrderItem>, x: OrderItem, n: string)
    requires HasItemNamed(a, n)
    ensures FindLine(a + [x], n) == FindLine(a, n)
  {
    var s := a + [x];
    var v := FindLine(a, n).value;
    assert s[v] == a[v];
    assert HasItemNamed(s, n);
    var u := FindLine(s, n).value;
    assert u <= v;
    assert forall j :: 0 <= j < u ==> a[j] == s[j];
    assert a[u] == s[u];
    assert v <= u;
  }

  /** Appending the first line named `n` makes it the line `find` returns. */
  lemma FindLineSnocNew(a: seq<OrderItem>, x: OrderItem, n: string)
    requires !HasItemNamed(a, n) && x.name == n
    ensures FindLine(a + [x], n) == Some(|a|)
  {
    var s := a + [x];
    assert s[|a|] == x;
    assert HasItemNamed(s, n);
    var rs := FindLine(s, n);
    assert forall j :: 0 <= j < |a| ==> s[j] == a[j];
  }

  // Order predicates used by the screens' filters.

  function OnDate(date: string): BakeryOrder -> bool
  {
    (o: BakeryOrder) => o.pickupDate == date
  }

  function IsPendingOrder(): BakeryOrder -> bool
  {
    (o: BakeryOrder) => o.status == "pending"
  }

  function NotPendingOrder(): BakeryOrder -> bool
  {
    (o: BakeryOrder) => o.status != "pending"
  }

  // Lemmas about the records.

  /** The declared defaults: a daily cap of 20, lines priced 0, orders created "pending". */
  lemma Defaults()
    ensures Product().maxDailyQty == 20 && Product().iconName == "bread" && Product().qty == 0
    ensures OrderItem().price == 0 && OrderItem("x", 1).price == 0
    ensures BakeryOrder().status == "pending" && BakeryOrder().items == []
  {
  }

  /** `totalPrice` of an order without lines is 0. */
  lemma TotalPriceEmpty(o: BakeryOrder)
    requires o.items == []
    ensures o.TotalPrice() == 0
  {
  }

  lemma {:induction false} ItemsTotalConcat(a: seq<OrderItem>, b: seq<OrderItem>)
    ensures ItemsTotal(a + b) == ItemsTotal(a) + ItemsTotal(b)
  {
    if b == [] {
      assert a + b == a;
    } else {
      InitOfSnoc(a + Init(b), Last(b));
      InitLast(b);
      assert a + b == (a + Init(b)) + [Last(b)];
      ItemsTotalConcat(a, Init(b));
    }
  }

  /** `totalPrice` is the sum over the lines: each line contributes its price times its quantity. */
  lemma TotalPriceSpec(o: BakeryOrder, it: OrderItem)
    ensures o.(items := o.items + [it]).TotalPrice() == o.TotalPrice() + it.price * it.qty
    ensures o.(items := [it] + o.items).TotalPrice() == it.price * it.qty + o.TotalPrice()
  {
    InitOfSnoc(o.items, it);
    ItemsTotalConcat([it], o.items);
    InitOfSnoc([], it);
    assert [] + [it] == [it];
  }

  /** `totalPrice` is not negative when no price and no quantity is. */
  lemma {:induction false} TotalPriceNonNegative(items: seq<OrderItem>)
    requires forall i :: 0 <= i < |items| ==> items[i].price >= 0 && items[i].qty >= 0
    ensures ItemsTotal(items) >= 0
  {
    if items != [] {
      TotalPriceNonNegative(Init(items));
      assert Last(items) == items[|items| - 1];
    }
  }

  /** Lines priced 0 make a 0 total, whatever their quantities. */
  lemma {:induction false} TotalPriceZeroPrices(items: seq<OrderItem>)
    requires forall i :: 0 <= i < |items| ==> items[i].price == 0
    ensures ItemsTotal(items) == 0
  {
    if items != [] {
      TotalPriceZeroPrices(Init(items));
      assert Last(items) == items[|items| - 1];
    }
  }

  /** An order is completed exactly when its status is "completed"; "ready" is not completed,
      and assigning `isCompleted` does not change that. */
  lemma IsCompletedSpec(o: BakeryOrder, value: bool)
    ensures o.IsCompleted() <==> o.status == "completed"
    ensures o.(status := "ready").IsCompleted() == false
    ensures o.SetIsCompleted(value).IsCompleted() <==> o.status == "completed"
    ensures o.SetIsCompleted(value) == o
  {
  }

  lemma {:induction false} QtyNamedConcat(a: seq<OrderItem>, b: seq<OrderItem>, n: string)
    ensures QtyNamed(a + b, n) == QtyNamed(a, n) + QtyNamed(b, n)
  {
    if b == [] {
      assert a + b == a;
    } else {
      InitOfSnoc(a + Init(b), Last(b));
      InitLast(b);
      assert a + b == (a + Init(b)) + [Last(b)];
      QtyNamedConcat(a, Init(b), n);
    }
  }

  lemma {:induction false} TotalQtyConcat(a: seq<OrderItem>, b: seq<OrderItem>)
    ensures TotalQty(a + b) == TotalQty(a) + TotalQty(b)
  {
    if b == [] {
      assert a + b == a;
    } else {
      InitOfSnoc(a + Init(b), Last(b));
      InitLast(b);
      assert a + b == (a + Init(b)) + [Last(b)];
      TotalQtyConcat(a, Init(b));
    }
  }

  /** No line named `n` means no quantity for `n`. */
  lemma {:induction false} QtyNamedAbsent(items: seq<OrderItem>, n: string)
    requires !HasItemNamed(items, n)
    ensures QtyNamed(items, n) == 0
  {
    if items != [] {
      assert Last(items) == items[|items| - 1];
      assert !HasItemNamed(Init(items), n) by {
        forall i | 0 <= i < |Init(items)| ensures Init(items)[i] == items[i] { }
      }
      QtyNamedAbsent(Init(items), n);
    }
  }

  lemma FlattenSnoc(orders: seq<BakeryOrder>, o: BakeryOrder)
    ensures Flatten(orders + [o]) == Flatten(orders) + o.items
  {
    InitOfSnoc(orders, o);
  }

  lemma {:induction false} FlattenConcat(a: seq<BakeryOrder>, b: seq<BakeryOrder>)
    ensures Flatten(a + b) == Flatten(a) + Flatten(b)
  {
    if b == [] {
      assert a + b == a;
    } else {
      InitOfSnoc(a + Init(b), Last(b));
      InitLast(b);
      assert a + b == (a + Init(b)) + [Last(b)];
      FlattenConcat(a, Init(b));
    }
  }

  /** A line is among the flattened lines exactly when it is a line of one of the orders. */
  lemma {:induction false} FlattenMember(orders: seq<BakeryOrder>, it: OrderItem)
    ensures it in Flatten(orders) <==> exists k :: 0 <= k < |orders| && it in orders[k].items
  {
    if orders != [] {
      FlattenMember(Init(orders), it);
      InitLast(orders);
      if it in Flatten(orders) {
        if it in Last(orders).items {
          assert it in orders[|orders| - 1].items;
        } else {
          var k :| 0 <= k < |Init(orders)| && it in Init(orders)[k].items;
          assert orders[k] == Init(orders)[k];
        }
      }
      if exists k :: 0 <= k < |orders| && it in orders[k].items {
        var k :| 0 <= k < |orders| && it in orders[k].items;
        if k < |orders| - 1 {
          assert orders[k] == Init(orders)[k];
        }
      }
    }
  }
}

/** Two places where the code does something its authors evidently did not mean, each shown on
    a concrete input, next to a corrected definition with the intended property proved. */
module Findings {
  import opened Collections
  import opened BakeryModel
  import opened ViewModel
  import opened StaffScreen
  import opened CustomerScreen
  import opened Components

  // ---- The dashboard's price table misses three breads ----

  /** The three breads whose names have no pair in the dashboard's table are priced 0. */
  lemma UnpricedBread(name: string)
    requires name == "核桃麵包" || name == "歐克麵包" || name == "椰香麵包"
    ensures PriceOf(PriceList, name) == 0
  {
    PriceOfAbsent(PriceList, name);
  }

  lemma CatalogBread(i: nat)
    requires i < |Breads|
    ensures Catalog()[i] == Breads[i]
  {
  }

  lemma WalnutListed()
    ensures Catalog()[11].name == "核桃麵包" && Catalog()[11].price == 20
  {
    CatalogBread(11);
  }

  lemma EuropeanListed()
    ensures Catalog()[12].name == "歐克麵包" && Catalog()[12].price == 40
  {
    CatalogBread(12);
  }

  lemma CoconutListed()
    ensures Catalog()[15].name == "椰香麵包" && Catalog()[15].price == 35
  {
    CatalogBread(15);
  }

  /** Three breads of the catalog have no pair in the dashboard's table, whose keys for them
      are "核桃", "歐克" and "椰香"; they are priced 0, though the catalog prices them. */
  lemma PriceTableMissesBreads()
    ensures Catalog()[11].name == "核桃麵包" && Catalog()[11].price == 20
    ensures Catalog()[12].name == "歐克麵包" && Catalog()[12].price == 40
    ensures Catalog()[15].name == "椰香麵包" && Catalog()[15].price == 35
    ensures PriceOf(PriceList, "核桃麵包") == 0
    ensures PriceOf(PriceList, "歐克麵包") == 0
    ensures PriceOf(PriceList, "椰香麵包") == 0
  {
    WalnutListed();
    EuropeanListed();
    CoconutListed();
    UnpricedBread("核桃麵包");
    UnpricedBread("歐克麵包");
    UnpricedBread("椰香麵包");
  }

  /** An order of one walnut bread at 20 counts nothing toward the estimated revenue. */
  lemma WalnutOrderEarnsNothing()
    ensures TotalRevenue([BakeryOrder(items := [OrderItem("核桃麵包", 1)])]) == 0
  {
    var o := BakeryOrder(items := [OrderItem("核桃麵包", 1)]);
    FlattenSnoc([], o);
    assert [] + [o] == [o];
    RevenueSnoc(PriceList, [], OrderItem("核桃麵包", 1));
    assert [] + [OrderItem("核桃麵包", 1)] == [OrderItem("核桃麵包", 1)];
    PriceTableMissesBreads();
  }

  /** The table the dashboard evidently meant: every catalog name with its catalog price. */
  function CatalogPrices(): (t: seq<(string, int)>)
    ensures |t| == |Catalog()|
    ensures forall i :: 0 <= i < |t| ==> t[i] == (Catalog()[i].name, Catalog()[i].price)
  {
    seq(|Catalog()|, i requires 0 <= i < |Catalog()| => (Catalog()[i].name, Catalog()[i].price))
  }

  /** The estimated revenue priced from the catalog. */
  function CatalogRevenue(orders: seq<BakeryOrder>): int
  {
    Revenue(CatalogPrices(), Flatten(orders))
  }

  /** Each catalog product is priced at its catalog price. */
  lemma CatalogPricesSpec(i: nat)
    requires i < |Catalog()|
    ensures PriceOf(CatalogPrices(), Catalog()[i].name) == Catalog()[i].price
  {
    CatalogNamesDistinct();
    var t := CatalogPrices();
    assert forall j :: i < j < |t| ==> t[j].0 != Catalog()[i].name;
    PriceOfListed(t, Catalog()[i].name, i);
  }

  /** Appending a line of a catalog product adds its catalog price times its quantity, so the
      walnut bread order earns 20. */
  lemma CatalogRevenueSnoc(orders: seq<BakeryOrder>, o: BakeryOrder, i: nat, q: int)
    requires i < |Catalog()|
    ensures CatalogRevenue(orders + [o.(items := o.items + [OrderItem(Catalog()[i].name, q)])]) ==
      CatalogRevenue(orders + [o]) + Catalog()[i].price * q
    ensures CatalogRevenue([BakeryOrder(items := [OrderItem("核桃麵包", 1)])]) == 20
  {
    var it := OrderItem(Catalog()[i].name, q);
    FlattenSnoc(orders, o.(items := o.items + [it]));
    FlattenSnoc(orders, o);
    assert Flatten(orders) + (o.items + [it]) == (Flatten(orders) + o.items) + [it];
    RevenueSnoc(CatalogPrices(), Flatten(orders) + o.items, it);
    CatalogPricesSpec(i);
    var w := BakeryOrder(items := [OrderItem("核桃麵包", 1)]);
    FlattenSnoc([], w);
    assert [] + [w] == [w];
    RevenueSnoc(CatalogPrices(), [], OrderItem("核桃麵包", 1));
    assert [] + [OrderItem("核桃麵包", 1)] == [OrderItem("核桃麵包", 1)];
    CatalogBread(11);
    CatalogPricesSpec(11);
  }

  // ---- A decrement is checked against the cap ----

  /** A cart of five red-bean breads, filled while fewer were sold, on a date where 18 are
      sold by now: the card's "−" is enabled, and pressing it leaves the cart as it was. */
  lemma DecrementBlocked()
    ensures var cart := [OrderItem("紅豆麵包", 5)];
      var sold := map["紅豆麵包" := 18];
      Controls(Catalog()[16], CartQtyOf(cart, "紅豆麵包"), SoldOf(sold, "紅豆麵包")) == Stepper(true, false) &&
      Catalog()[16].name == "紅豆麵包" &&
      UpdatedCart(cart, sold, "紅豆麵包", -1) == cart
  {
    var cart := [OrderItem("紅豆麵包", 5)];
    assert FindLine(cart, "紅豆麵包") == Some(0);
    CatalogBread(16);
  }

  /** `updateCartQty` with the cap applied to increases only. */
  function UpdatedCartFixed(cart: seq<OrderItem>, sold: map<string, int>, name: string, delta: int): seq<OrderItem>
  {
    match FindLine(cart, name)
    case Some(i) =>
      var newQty := cart[i].qty + delta;
      if newQty <= 0 then cart[..i] + cart[i + 1..]
      else if delta <= 0 || SoldOf(sold, name) + newQty <= DailyCap then cart[i := cart[i].(qty := newQty)]
      else cart
    case None =>
      if delta > 0 && SoldOf(sold, name) + 1 <= DailyCap then cart + [OrderItem(name, 1)]
      else cart
  }

  /** Increases behave as before. */
  lemma FixedAgreesOnIncrease(cart: seq<OrderItem>, sold: map<string, int>, name: string, delta: int)
    requires delta > 0
    ensures UpdatedCartFixed(cart, sold, name, delta) == UpdatedCart(cart, sold, name, delta)
  {
  }

  /** A "−" on a product in the cart always takes one piece out, whatever is sold. */
  lemma FixedDecrementTakesOne(cart: seq<OrderItem>, sold: map<string, int>, name: string)
    requires CartValid(cart) && HasItemNamed(cart, name)
    ensures TotalQty(UpdatedCartFixed(cart, sold, name, -1)) == TotalQty(cart) - 1
    ensures QtyNamed(UpdatedCartFixed(cart, sold, name, -1), name) == QtyNamed(cart, name) - 1
  {
    var i := FindLine(cart, name).value;
    CartQtyNamedLine(cart, i);
    var r := UpdatedCartFixed(cart, sold, name, -1);
    FixedPreservesValid(cart, sold, name, -1);
    if cart[i].qty == 1 {
      assert r == cart[..i] + cart[i + 1..];
      TotalQtyRemove(cart, i);
      assert !HasItemNamed(r, name) by {
        forall k | 0 <= k < |r| ensures r[k].name != name {
          if k < i { assert r[k] == cart[k]; } else { assert r[k] == cart[k + 1]; }
        }
      }
      QtyNamedAbsent(r, name);
    } else {
      assert r == cart[i := cart[i].(qty := cart[i].qty - 1)];
      TotalQtyUpdate(cart, i, cart[i].(qty := cart[i].qty - 1));
      assert r[i].name == name;
      CartQtyNamedLine(r, i);
    }
  }

  /** The corrected update keeps the cart valid. */
  lemma FixedPreservesValid(cart: seq<OrderItem>, sold: map<string, int>, name: string, delta: int)
    requires CartValid(cart)
    ensures CartValid(UpdatedCartFixed(cart, sold, name, delta))
  {
    var r := UpdatedCartFixed(cart, sold, name, delta);
    match FindLine(cart, name)
    case Some(i) =>
      var newQty := cart[i].qty + delta;
      if newQty <= 0 {
        assert r == cart[..i] + cart[i + 1..];
        RemoveLineKeeps(cart, sold, i);
      } else if delta <= 0 || SoldOf(sold, name) + newQty <= DailyCap {
        assert r == cart[i := cart[i].(qty := newQty)];
        WriteLineKeepsValid(cart, i, newQty);
      } else {
        assert r == cart;
      }
    case None =>
      if delta > 0 && SoldOf(sold, name) + 1 <= DailyCap {
        assert r == cart + [OrderItem(name, 1)];
        AppendLineKeepsValid(cart, name);
      } else {
        assert r == cart;
      }
  }

  /** With the sold map held fixed, the corrected update keeps every line within the cap. */
  lemma FixedPreservesCap(cart: seq<OrderItem>, sold: map<string, int>, name: string, delta: int)
    requires WithinCap(cart, sold)
    ensures WithinCap(UpdatedCartFixed(cart, sold, name, delta), sold)
  {
    var r := UpdatedCartFixed(cart, sold, name, delta);
    match FindLine(cart, name)
    case Some(i) =>
      var newQty := cart[i].qty + delta;
      if newQty <= 0 {
        assert r == cart[..i] + cart[i + 1..];
        RemoveLineKeeps(cart, sold, i);
      } else if delta <= 0 || SoldOf(sold, name) + newQty <= DailyCap {
        assert r == cart[i := cart[i].(qty := newQty)];
        if delta <= 0 {
          assert SoldOf(sold, cart[i].name) + cart[i].qty <= DailyCap;
        }
        WriteLineKeepsCap(cart, sold, i, newQty);
      } else {
        assert r == cart;
      }
    case None =>
      if delta > 0 && SoldOf(sold, name) + 1 <= DailyCap {
        assert r == cart + [OrderItem(name, 1)];
        AppendLineKeepsCap(cart, sold, name);
      } else {
        assert r == cart;
      }
  }
}

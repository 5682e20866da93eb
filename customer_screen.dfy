/** The customer screen's derived data: the catalog and its category filter, what a product
    card shows, the checkout button, slot and confirm buttons, the hot-sales ranking, the
    customer's own orders and the date selector's labels. */
module CustomerScreen {
  import opened Collections
  import opened Ranking
  import opened BakeryModel
  import opened ViewModel
  import StaffScreen
  import opened Components

  // ---- Catalog ----

  /** The bread category of the catalog: products 1 to 22. The fourth field holds the
      category the screen filters on. */
  const Breads: seq<Product> := [
    Product("1", "瑪麗媽媽經典", 200, "麵包"),
    Product("2", "陽光百果", 150, "麵包"),
    Product("3", "黑五寶", 40, "麵包"),
    Product("4", "裸麥南瓜", 45, "麵包"),
    Product("5", "法國起司堡", 60, "麵包"),
    Product("6", "天然酵母乳酪", 35, "麵包"),
    Product("7", "維也納麵包", 30, "麵包"),
    Product("8", "法國起司球", 18, "麵包"),
    Product("9", "蔓越莓乳酪", 25, "麵包"),
    Product("10", "黑橄欖乳酪", 25, "麵包"),
    Product("11", "巧克力葡萄乾", 20, "麵包"),
    Product("12", "核桃麵包", 20, "麵包"),
    Product("13", "歐克麵包", 40, "麵包"),
    Product("14", "布里歐莓", 120, "麵包"),
    Product("15", "小波羅(5入)", 50, "麵包"),
    Product("16", "椰香麵包", 35, "麵包"),
    Product("17", "紅豆麵包", 30, "麵包"),
    Product("18", "墨西哥巧克力", 30, "麵包"),
    Product("19", "爆漿餐包(8入)", 70, "麵包"),
    Product("20", "法國魔杖", 55, "麵包"),
    Product("21", "德國小香腸(4入)", 50, "麵包"),
    Product("22", "法式香蒜", 40, "麵包")]

  /** The rest of the catalog: toast, desserts, cookies, drinks and more cookies, products 23 to 44. */
  const OtherProducts: seq<Product> := [
    Product("23", "不脹氣吐司", 45, "吐司"),
    Product("24", "鮮奶吐司", 45, "吐司"),
    Product("25", "全麥吐司", 60, "吐司"),
    Product("26", "蛋糕吐司", 70, "吐司"),
    Product("27", "葡萄乾吐司", 75, "吐司"),
    Product("28", "火腿起司吐司", 100, "吐司"),
    Product("29", "輕乳酪(小)", 35, "甜點"),
    Product("30", "檸檬塔", 70, "甜點"),
    Product("31", "布朗尼", 30, "甜點"),
    Product("32", "德式布丁", 40, "甜點"),
    Product("33", "黃金乳酪", 35, "甜點"),
    Product("34", "丹麥菊花", 60, "甜點"),
    Product("35", "丹麥巧克力", 60, "甜點"),
    Product("36", "燕麥餅乾", 60, "餅乾"),
    Product("37", "杏仁巧克力", 80, "餅乾"),
    Product("38", "核桃酥", 80, "餅乾"),
    Product("39", "芝麻蘇", 80, "餅乾"),
    Product("40", "英式伯爵紅茶", 80, "飲料"),
    Product("41", "義式咖啡", 80, "飲料"),
    Product("42", "南瓜子瓦片", 90, "餅乾"),
    Product("43", "杏仁瓦片", 90, "餅乾"),
    Product("44", "牛奶餅乾", 80, "餅乾")]

  /** The catalog in display order. */
  function Catalog(): seq<Product>
  {
    Breads + OtherProducts
  }

  /** The category tabs; the first shows every product. */
  const Categories: seq<string> := ["全部", "麵包", "吐司", "甜點", "餅乾", "飲料"]

  lemma BreadNamesDistinct()
    ensures forall i, j :: 0 <= i < j < |Breads| ==> Breads[i].name != Breads[j].name
  {
    EarlyBreadNamesDistinct();
    LateBreadNamesDistinct();
  }

  lemma EarlyBreadNamesDistinct()
    ensures forall i, j :: 0 <= i < 11 && i < j < |Breads| ==> Breads[i].name != Breads[j].name
  {
  }

  lemma LateBreadNamesDistinct()
    ensures forall i, j :: 11 <= i < j < |Breads| ==> Breads[i].name != Breads[j].name
  {
  }

  lemma OtherNamesDistinct()
    ensures forall i, j :: 0 <= i < j < |OtherProducts| ==> OtherProducts[i].name != OtherProducts[j].name
  {
  }

  lemma BreadNamesNotOther()
    ensures forall i, j :: 0 <= i < |Breads| && 0 <= j < |OtherProducts| ==> Breads[i].name != OtherProducts[j].name
  {
    BreadNamesNotEarlyOther();
    BreadNamesNotLateOther();
  }

  lemma BreadNamesNotEarlyOther()
    ensures forall i, j :: 0 <= i < |Breads| && 0 <= j < 11 ==> Breads[i].name != OtherProducts[j].name
  {
  }

  lemma BreadNamesNotLateOther()
    ensures forall i, j :: 0 <= i < |Breads| && 11 <= j < |OtherProducts| ==> Breads[i].name != OtherProducts[j].name
  {
  }

  /** The 44 catalog products have pairwise distinct names, which keying the cart and the sold
      map by name relies on; so the products themselves are pairwise distinct. */
  lemma CatalogNamesDistinct()
    ensures |Catalog()| == 44
    ensures forall i, j :: 0 <= i < j < |Catalog()| ==> Catalog()[i].name != Catalog()[j].name
    ensures forall i, j :: 0 <= i < j < |Catalog()| ==> Catalog()[i] != Catalog()[j]
  {
    BreadNamesDistinct();
    OtherNamesDistinct();
    BreadNamesNotOther();
    var c := Catalog();
    forall i, j | 0 <= i < j < |c| ensures c[i].name != c[j].name {
      if i >= |Breads| {
        assert c[i] == OtherProducts[i - |Breads|] && c[j] == OtherProducts[j - |Breads|];
      } else if j >= |Breads| {
        assert c[i] == Breads[i] && c[j] == OtherProducts[j - |Breads|];
      } else {
        assert c[i] == Breads[i] && c[j] == Breads[j];
      }
    }
  }

  /** Every bread is in the bread tab; every other product is in one of the four other tabs. */
  lemma CatalogCategories()
    ensures forall i :: 0 <= i < |Breads| ==> Breads[i].iconName == "麵包"
    ensures forall i :: 0 <= i < |OtherProducts| ==> OtherProducts[i].iconName in Categories[2..]
  {
  }

  /** Every product of the catalog is in exactly one tab other than "全部". */
  lemma CatalogInOneCategory(i: nat)
    requires i < |Catalog()|
    ensures Catalog()[i].iconName in Categories && Catalog()[i].iconName != "全部"
  {
    CatalogCategories();
    if i >= |Breads| {
      assert Catalog()[i] == OtherProducts[i - |Breads|];
    }
  }

  // ---- Category tab ----

  function InCategory(category: string): Product -> bool
  {
    (p: Product) => p.iconName == category
  }

  /** `displayedProducts`: every product for "全部", otherwise the products of the tab. */
  function DisplayedProducts(products: seq<Product>, category: string): seq<Product>
  {
    if category == "全部" then products else Filter(products, InCategory(category))
  }

  /** "全部" shows the whole list; another tab shows exactly its products, in list order. */
  lemma DisplayedProductsSpec(products: seq<Product>, category: string, p: Product)
    ensures category == "全部" ==> DisplayedProducts(products, category) == products
    ensures category != "全部" ==>
      (p in DisplayedProducts(products, category) <==> p in products && p.iconName == category)
    ensures |DisplayedProducts(products, category)| <= |products|
  {
    FilterMember(products, InCategory(category), p);
  }

  /** Choosing a catalog product's own tab shows it. */
  lemma CatalogProductShown(i: nat)
    requires i < |Catalog()|
    ensures Catalog()[i] in DisplayedProducts(Catalog(), Catalog()[i].iconName)
  {
    CatalogInOneCategory(i);
    FilterMember(Catalog(), InCategory(Catalog()[i].iconName), Catalog()[i]);
  }

  // ---- Product card inputs and checkout ----

  /** `cart.find { it.name == product.name }?.qty ?: 0`. */
  function CartQtyOf(cart: seq<OrderItem>, name: string): (q: int)
    ensures !HasItemNamed(cart, name) ==> q == 0
  {
    match FindLine(cart, name)
    case Some(k) => cart[k].qty
    case None => 0
  }

  /** In a valid cart the card's count is the cart's quantity for the name, and it is positive
      exactly when the cart has a line for the product. */
  lemma CartQtyOfSpec(cart: seq<OrderItem>, name: string)
    requires CartValid(cart)
    ensures CartQtyOf(cart, name) == QtyNamed(cart, name)
    ensures CartQtyOf(cart, name) > 0 <==> HasItemNamed(cart, name)
  {
    match FindLine(cart, name)
    case Some(k) =>
      CartQtyNamedLine(cart, k);
    case None =>
      QtyNamedAbsent(cart, name);
  }

  /** The card's sold count, `soldMap[product.name] ?: 0`, is the quantity of the product
      in the selected day's orders that are not cancelled. */
  lemma SoldQtySpec(orders: seq<BakeryOrder>, date: string, p: Product)
    ensures SoldOf(SoldMap(orders, date), p.name) == QtyNamed(Flatten(DayOrders(orders, date)), p.name)
  {
    SoldMapSpec(orders, date, p.name);
  }

  /** For a product with the default daily quantity of 20, a valid cart and the sold map,
      the button that sends +1 is enabled exactly when the view-model's update would change the
      cart: the screen's per-product limit and the view-model's literal cap agree. */
  lemma IncrementMatchesCart(p: Product, cart: seq<OrderItem>, sold: map<string, int>)
    requires p.maxDailyQty == DailyCap
    requires CartValid(cart)
    ensures var c := Controls(p, CartQtyOf(cart, p.name), SoldOf(sold, p.name));
      IncrementEnabled(c) <==> UpdatedCart(cart, sold, p.name, 1) != cart
  {
    match FindLine(cart, p.name)
    case Some(i) =>
      var r := UpdatedCart(cart, sold, p.name, 1);
      if SoldOf(sold, p.name) + cart[i].qty + 1 <= DailyCap {
        assert r[i].qty != cart[i].qty;
      }
    case None =>
      var r := UpdatedCart(cart, sold, p.name, 1);
      if SoldOf(sold, p.name) + 1 <= DailyCap {
        assert |r| == |cart| + 1;
      }
  }

  /** While the cart fits the cap next to the sold map, the always-enabled "−" of a product in
      the cart does change the cart. */
  lemma DecrementWithinCap(p: Product, cart: seq<OrderItem>, sold: map<string, int>)
    requires CartValid(cart) && WithinCap(cart, sold) && HasItemNamed(cart, p.name)
    ensures var c := Controls(p, CartQtyOf(cart, p.name), SoldOf(sold, p.name));
      c.Stepper? && c.minusEnabled
    ensures UpdatedCart(cart, sold, p.name, -1) != cart
  {
    var i := FindLine(cart, p.name).value;
    var r := UpdatedCart(cart, sold, p.name, -1);
    if cart[i].qty == 1 {
      assert |r| == |cart| - 1;
    } else {
      assert r[i].qty != cart[i].qty;
    }
  }

  /** The checkout button shows when the cart has a line. */
  predicate CheckoutShown(cart: seq<OrderItem>)
  {
    |cart| > 0
  }

  /** The checkout button's count, `cart.sumOf { it.qty }`. */
  function CheckoutCount(cart: seq<OrderItem>): int
  {
    TotalQty(cart)
  }

  lemma {:induction false} TotalQtyAtLeastLines(cart: seq<OrderItem>)
    requires forall i :: 0 <= i < |cart| ==> cart[i].qty >= 1
    ensures TotalQty(cart) >= |cart|
  {
    if cart != [] {
      assert Last(cart) == cart[|cart| - 1];
      assert forall i :: 0 <= i < |Init(cart)| ==> Init(cart)[i] == cart[i];
      TotalQtyAtLeastLines(Init(cart));
    }
  }

  /** In a valid cart the count is at least the number of lines, so a shown button counts at
      least one piece, and an empty cart counts none. */
  lemma CheckoutCountSpec(cart: seq<OrderItem>)
    requires CartValid(cart)
    ensures CheckoutCount(cart) >= |cart|
    ensures CheckoutShown(cart) ==> CheckoutCount(cart) >= 1
    ensures !CheckoutShown(cart) ==> CheckoutCount(cart) == 0
  {
    TotalQtyAtLeastLines(cart);
  }

  lemma TotalQtySingle(c: OrderItem)
    ensures TotalQty([c]) == c.qty
  {
    InitOfSnoc([], c);
    assert [] + [c] == [c];
  }

  lemma TotalQtyUpdate(cart: seq<OrderItem>, i: nat, c: OrderItem)
    requires i < |cart|
    ensures TotalQty(cart[i := c]) == TotalQty(cart) - cart[i].qty + c.qty
  {
    SplitAt(cart, i);
    ReplaceSplit(cart, i, c);
    TotalQtyAround(cart[..i], cart[i], cart[i + 1..]);
    TotalQtyAround(cart[..i], c, cart[i + 1..]);
  }

  lemma TotalQtyAround(a: seq<OrderItem>, c: OrderItem, b: seq<OrderItem>)
    ensures TotalQty(a + ([c] + b)) == TotalQty(a) + c.qty + TotalQty(b)
  {
    TotalQtyConcat(a, [c] + b);
    TotalQtyConcat([c], b);
    TotalQtySingle(c);
  }

  lemma TotalQtyRemove(cart: seq<OrderItem>, i: nat)
    requires i < |cart|
    ensures TotalQty(cart[..i] + cart[i + 1..]) == TotalQty(cart) - cart[i].qty
  {
    SplitAt(cart, i);
    TotalQtyAround(cart[..i], cart[i], cart[i + 1..]);
    TotalQtyConcat(cart[..i], cart[i + 1..]);
  }

  /** A press of "+" or "−" that changes the cart moves the checkout count by exactly one. */
  lemma CheckoutCountStep(cart: seq<OrderItem>, sold: map<string, int>, name: string, delta: int)
    requires CartValid(cart) && (delta == 1 || delta == -1)
    ensures var r := UpdatedCart(cart, sold, name, delta);
      CheckoutCount(r) == CheckoutCount(cart) + (if r == cart then 0 else delta)
  {
    var r := UpdatedCart(cart, sold, name, delta);
    match FindLine(cart, name)
    case Some(i) =>
      var newQty := cart[i].qty + delta;
      if newQty <= 0 {
        assert r == cart[..i] + cart[i + 1..];
        TotalQtyRemove(cart, i);
        assert |r| != |cart|;
      } else if SoldOf(sold, name) + newQty <= DailyCap {
        var c := cart[i].(qty := newQty);
        assert r == cart[i := c];
        TotalQtyUpdate(cart, i, c);
        assert r[i] != cart[i];
      } else {
        assert r == cart;
      }
    case None =>
      if delta > 0 && SoldOf(sold, name) + 1 <= DailyCap {
        assert r == cart + [OrderItem(name, 1)];
        InitOfSnoc(cart, OrderItem(name, 1));
        assert |r| != |cart|;
      } else {
        assert r == cart;
      }
  }

  // ---- Checkout step ----

  /** A slot button is enabled when the view-model reports the slot as not full. */
  predicate SlotButtonEnabled(orders: seq<BakeryOrder>, date: string, slot: string)
  {
    !SlotFull(orders, date, slot)
  }

  /** The confirm button: a slot is selected and name and email are filled in. */
  predicate ConfirmEnabled(selectedTime: Option<string>, name: string, email: string)
  {
    selectedTime.Some? && |name| > 0 && |email| > 0
  }

  /** A slot button is enabled exactly while fewer than three orders that are not cancelled
      hold the slot on the date. The confirm button does not look at the slot's state again:
      a slot chosen while free and filled since still submits, and the arriving order takes
      the slot past its capacity. */
  lemma CheckoutButtonsSpec(orders: seq<BakeryOrder>, cart: seq<OrderItem>, date: string, name: string, email: string, slot: string, timestamp: int)
    ensures SlotButtonEnabled(orders, date, slot) <==> SlotCount(orders, date, slot) < MaxOrdersPerSlot
    ensures ConfirmEnabled(Some(slot), name, email) <==> |name| > 0 && |email| > 0
    ensures !ConfirmEnabled(None, name, email)
    ensures !ConfirmEnabled(Some(slot), "", email) && !ConfirmEnabled(Some(slot), name, "")
    ensures !SlotButtonEnabled(orders, date, slot) ==>
      SlotCount(orders + [NewOrder(cart, date, name, email, slot, timestamp)], date, slot) > MaxOrdersPerSlot
  {
    SubmittedFillsSlot(orders, cart, date, name, email, slot, timestamp);
  }

  // ---- Hot sales ----

  /** `products.map { it to (soldMap[it.name] ?: 0) }`. */
  function WithSold(products: seq<Product>, sold: map<string, int>): (r: seq<(Product, int)>)
    ensures |r| == |products|
    ensures forall i :: 0 <= i < |r| ==> r[i] == (products[i], SoldOf(sold, products[i].name))
  {
    seq(|products|, i requires 0 <= i < |products| => (products[i], SoldOf(sold, products[i].name)))
  }

  /** The hot-sales list: the five best sellers, ties in catalog order. */
  function HotSales(products: seq<Product>, sold: map<string, int>): seq<(Product, int)>
  {
    Take(SortDesc(WithSold(products, sold)), 5)
  }

  /** The list has `min(5, products)` entries, each a listed product with its sold count or 0;
      counts do not increase down the list and none is below a count left out. */
  lemma HotSalesSpec(products: seq<Product>, sold: map<string, int>)
    ensures |HotSales(products, sold)| == Min(5, |products|)
    ensures SortedDesc(HotSales(products, sold))
    ensures forall i :: 0 <= i < |HotSales(products, sold)| ==>
      HotSales(products, sold)[i].0 in products &&
      HotSales(products, sold)[i].1 == SoldOf(sold, HotSales(products, sold)[i].0.name)
    ensures forall i, j :: 0 <= i < |HotSales(products, sold)| <= j < |products| ==>
      HotSales(products, sold)[i].1 >= SortDesc(WithSold(products, sold))[j].1
  {
    var w := WithSold(products, sold);
    var r := SortDesc(w);
    forall i | 0 <= i < |r| ensures r[i].0 in products && r[i].1 == SoldOf(sold, r[i].0.name) {
      MemberOfMultiset(r, w, r[i]);
      var j :| 0 <= j < |w| && w[j] == r[i];
    }
  }

  /** Products with equal counts keep their catalog order. */
  lemma HotSalesTies(products: seq<Product>, sold: map<string, int>, k: int)
    ensures Filter(SortDesc(WithSold(products, sold)), WithCount(k)) == Filter(WithSold(products, sold), WithCount(k))
  {
    SortDescStable(WithSold(products, sold), k);
  }

  /** `indexOfFirst { it.first == product } + 1`. */
  function Rank(top: seq<(Product, int)>, p: Product): int
  {
    IndexOfFirst(top, p) + 1
  }

  /** With pairwise distinct products, as in the catalog, each entry's rank is its position plus one. */
  lemma HotSalesRank(products: seq<Product>, sold: map<string, int>, i: nat)
    requires forall a, b :: 0 <= a < b < |products| ==> products[a] != products[b]
    requires i < |HotSales(products, sold)|
    ensures Rank(HotSales(products, sold), HotSales(products, sold)[i].0) == i + 1
  {
    var w := WithSold(products, sold);
    assert DistinctFirsts(w);
    SortDescDistinct(w);
    var top := HotSales(products, sold);
    assert DistinctFirsts(top);
    IndexOfFirstDistinct(top, i);
  }

  /** The catalog's ranks are positions plus one. */
  lemma CatalogHotSalesRank(sold: map<string, int>, i: nat)
    requires i < |HotSales(Catalog(), sold)|
    ensures Rank(HotSales(Catalog(), sold), HotSales(Catalog(), sold)[i].0) == i + 1
  {
    CatalogNamesDistinct();
    HotSalesRank(Catalog(), sold, i);
  }

  // ---- Order history ----

  function WithEmail(email: string): BakeryOrder -> bool
  {
    (o: BakeryOrder) => o.email == email
  }

  /** `myOrders`: the orders placed with the current email, in input order. */
  function MyOrders(allOrders: seq<BakeryOrder>, email: string): seq<BakeryOrder>
  {
    Filter(allOrders, WithEmail(email))
  }

  /** An order is listed exactly when its email is the current one; the list keeps the store's
      order, so orders arriving later are listed after the earlier ones. */
  lemma MyOrdersSpec(allOrders: seq<BakeryOrder>, later: seq<BakeryOrder>, email: string, o: BakeryOrder)
    ensures o in MyOrders(allOrders, email) <==> o in allOrders && o.email == email
    ensures MyOrders(allOrders + later, email) == MyOrders(allOrders, email) + MyOrders(later, email)
  {
    FilterMember(allOrders, WithEmail(email), o);
    FilterConcat(allOrders, later, WithEmail(email));
  }

  /** `isReady`: anything but "pending" is shown as ready for pickup. */
  predicate IsReadyShown(o: BakeryOrder)
  {
    o.status != "pending"
  }

  /** An order is shown as ready exactly when the staff screen lists it under the finished tab:
      marked "ready", "completed" or even "cancelled". */
  lemma IsReadyShownSpec(orders: seq<BakeryOrder>, o: BakeryOrder)
    requires o in orders
    ensures IsReadyShown(o) <==> o in StaffScreen.CompletedOrders(orders)
    ensures IsReadyShown(o.(status := "ready")) && IsReadyShown(o.(status := "cancelled"))
    ensures !IsReadyShown(o.(status := "pending"))
  {
    FilterMember(orders, NotPendingOrder(), o);
  }

  // ---- Date labels ----

  /** `replace("-", "/")`. */
  function ReplaceDashes(s: string): (r: string)
    ensures |r| == |s|
    ensures forall i :: 0 <= i < |r| ==> r[i] == (if s[i] == '-' then '/' else s[i])
  {
    seq(|s|, i requires 0 <= i < |s| => if s[i] == '-' then '/' else s[i])
  }

  /** `date.substring(5).replace("-", "/")`; `substring(5)` throws on a string shorter than 5,
      modelled as `None`. */
  function DateLabel(date: string): Option<string>
  {
    if |date| < 5 then None else Some(ReplaceDashes(date[5..]))
  }

  predicate IsDigit(c: char)
  {
    '0' <= c <= '9'
  }

  /** A `yyyy-MM-dd` date. */
  predicate IsIsoDate(d: string)
  {
    |d| == 10 && d[4] == '-' && d[7] == '-' &&
    forall i :: 0 <= i < 10 && i != 4 && i != 7 ==> IsDigit(d[i])
  }

  /** A `yyyy-MM-dd` date is labelled `MM/dd`; every label is free of dashes. */
  lemma DateLabelSpec(date: string)
    ensures IsIsoDate(date) ==> DateLabel(date) == Some([date[5], date[6], '/', date[8], date[9]])
    ensures DateLabel(date).Some? <==> |date| >= 5
    ensures DateLabel(date).Some? ==> |DateLabel(date).value| == |date| - 5 && '-' !in DateLabel(date).value
  {
    if IsIsoDate(date) {
      assert IsDigit(date[5]) && IsDigit(date[6]) && IsDigit(date[8]) && IsDigit(date[9]);
      var l := DateLabel(date).value;
      assert l == [date[5], date[6], '/', date[8], date[9]];
    }
  }
}

/** The shared screen components: the stock arithmetic behind a product card's buttons and
    the keyword rules that choose an icon for a product name. */
module Components {
  import opened Collections
  import opened BakeryModel

  // ---- Product card ----

  /** `remaining = maxDailyQty - soldQty`. */
  function Remaining(p: Product, soldQty: int): int
  {
    p.maxDailyQty - soldQty
  }

  /** `isSoldOut = remaining <= 0`. */
  predicate IsSoldOut(p: Product, soldQty: int)
  {
    Remaining(p, soldQty) <= 0
  }

  /** The card's right-hand side: a "−"/"+" stepper while the cart holds the product,
      otherwise a single add button. */
  datatype CardControls = Stepper(minusEnabled: bool, plusEnabled: bool) | AddButton(enabled: bool)

  /** The controls a card shows and which of them are enabled.
      A product is sold out once today's sales reach its daily quantity; "+" is enabled while
      one more piece fits next to the sold ones and those already in the cart; "−" is always
      enabled; the add button is enabled while one piece fits. */
  function Controls(p: Product, cartQty: int, soldQty: int): (c: CardControls)
    ensures IsSoldOut(p, soldQty) <==> soldQty >= p.maxDailyQty
    ensures c.Stepper? <==> cartQty > 0
    ensures c.Stepper? ==> c.minusEnabled
    ensures c.Stepper? ==> (c.plusEnabled <==> soldQty + cartQty + 1 <= p.maxDailyQty)
    ensures c.AddButton? ==> (c.enabled <==> soldQty + 1 <= p.maxDailyQty)
  {
    if cartQty > 0 then Stepper(true, Remaining(p, soldQty) > cartQty)
    else AddButton(!IsSoldOut(p, soldQty))
  }

  /** The button that sends +1: "+" on a stepper, the add button otherwise. */
  predicate IncrementEnabled(c: CardControls)
  {
    if c.Stepper? then c.plusEnabled else c.enabled
  }

  // ---- Icons ----

  /** The Material icons a product name can be shown with. */
  datatype BakeryIcon =
    | LocalCafe | Menu | Adjust | Star | Restaurant | FavoriteBorder | Brightness5 | Spa | BakeryDining

  /** `getBakeryIcon`: the first keyword rule the name matches chooses the icon. */
  function GetBakeryIcon(name: string): BakeryIcon
  {
    if Contains(name, "咖啡") || Contains(name, "紅茶") then LocalCafe
    else if Contains(name, "吐司") then Menu
    else if Contains(name, "餅乾") || Contains(name, "瓦片") || Contains(name, "酥") then Adjust
    else if Contains(name, "蛋糕") || Contains(name, "塔") || Contains(name, "布丁") || Contains(name, "布朗尼") then Star
    else if Contains(name, "香腸") || Contains(name, "火腿") || Contains(name, "肉鬆") || Contains(name, "起司") then Restaurant
    else if Contains(name, "紅豆") || Contains(name, "芋頭") then FavoriteBorder
    else if Contains(name, "菠蘿") then Brightness5
    else if Contains(name, "蔥花") || Contains(name, "蒜") then Spa
    else BakeryDining
  }

  /** The rules as data, in the order they are tried: keywords and the icon they choose. */
  const IconRules: seq<(seq<string>, BakeryIcon)> := [
    (["咖啡", "紅茶"], LocalCafe),
    (["吐司"], Menu),
    (["餅乾", "瓦片", "酥"], Adjust),
    (["蛋糕", "塔", "布丁", "布朗尼"], Star),
    (["香腸", "火腿", "肉鬆", "起司"], Restaurant),
    (["紅豆", "芋頭"], FavoriteBorder),
    (["菠蘿"], Brightness5),
    (["蔥花", "蒜"], Spa)
  ]

  /** The name contains one of the keywords. */
  predicate MatchesAny(name: string, keywords: seq<string>)
  {
    exists k :: 0 <= k < |keywords| && Contains(name, keywords[k])
  }

  /** The index of the first rule the name matches, if any. */
  function FirstRule(rules: seq<(seq<string>, BakeryIcon)>, name: string): (r: Option<nat>)
    ensures r.Some? ==> r.value < |rules| && MatchesAny(name, rules[r.value].0)
    ensures r.Some? ==> forall j :: 0 <= j < r.value ==> !MatchesAny(name, rules[j].0)
    ensures r.None? <==> forall j :: 0 <= j < |rules| ==> !MatchesAny(name, rules[j].0)
  {
    if rules == [] then None
    else if MatchesAny(name, rules[0].0) then Some(0)
    else
      match FirstRule(rules[1..], name)
      case None =>
        assert forall j :: 1 <= j < |rules| ==> rules[j] == rules[1..][j - 1];
        None
      case Some(k) =>
        assert forall j :: 1 <= j <= k ==> rules[j] == rules[1..][j - 1];
        Some(k + 1)
  }

  /** The icon of the first matching rule, `BakeryDining` when none matches. */
  function RuleIcon(rules: seq<(seq<string>, BakeryIcon)>, name: string): BakeryIcon
  {
    match FirstRule(rules, name)
    case Some(k) => rules[k].1
    case None => BakeryDining
  }

  lemma MatchesAnyOne(name: string, a: string)
    ensures MatchesAny(name, [a]) <==> Contains(name, a)
  {
    if Contains(name, a) {
      assert Contains(name, [a][0]);
    }
  }

  lemma MatchesAnyTwo(name: string, a: string, b: string)
    ensures MatchesAny(name, [a, b]) <==> Contains(name, a) || Contains(name, b)
  {
    if Contains(name, a) {
      assert Contains(name, [a, b][0]);
    }
    if Contains(name, b) {
      assert Contains(name, [a, b][1]);
    }
  }

  lemma MatchesAnyThree(name: string, a: string, b: string, c: string)
    ensures MatchesAny(name, [a, b, c]) <==> Contains(name, a) || Contains(name, b) || Contains(name, c)
  {
    if Contains(name, a) {
      assert Contains(name, [a, b, c][0]);
    }
    if Contains(name, b) {
      assert Contains(name, [a, b, c][1]);
    }
    if Contains(name, c) {
      assert Contains(name, [a, b, c][2]);
    }
  }

  lemma MatchesAnyFour(name: string, a: string, b: string, c: string, d: string)
    ensures MatchesAny(name, [a, b, c, d]) <==>
      Contains(name, a) || Contains(name, b) || Contains(name, c) || Contains(name, d)
  {
    if Contains(name, a) {
      assert Contains(name, [a, b, c, d][0]);
    }
    if Contains(name, b) {
      assert Contains(name, [a, b, c, d][1]);
    }
    if Contains(name, c) {
      assert Contains(name, [a, b, c, d][2]);
    }
    if Contains(name, d) {
      assert Contains(name, [a, b, c, d][3]);
    }
  }

  /** `getBakeryIcon` is first-match over the rule table: the icon of the earliest rule one of
      whose keywords the name contains, and `BakeryDining` for a name that contains none. */
  lemma GetBakeryIconIsFirstMatch(name: string)
    ensures GetBakeryIcon(name) == RuleIcon(IconRules, name)
  {
    MatchesAnyTwo(name, "咖啡", "紅茶");
    MatchesAnyOne(name, "吐司");
    MatchesAnyThree(name, "餅乾", "瓦片", "酥");
    MatchesAnyFour(name, "蛋糕", "塔", "布丁", "布朗尼");
    MatchesAnyFour(name, "香腸", "火腿", "肉鬆", "起司");
    MatchesAnyTwo(name, "紅豆", "芋頭");
    MatchesAnyOne(name, "菠蘿");
    MatchesAnyTwo(name, "蔥花", "蒜");
    var r := FirstRule(IconRules, name);
    if MatchesAny(name, IconRules[0].0) {
      assert r == Some(0);
    } else if MatchesAny(name, IconRules[1].0) {
      assert r == Some(1);
    } else if MatchesAny(name, IconRules[2].0) {
      assert r == Some(2);
    } else if MatchesAny(name, IconRules[3].0) {
      assert r == Some(3);
    } else if MatchesAny(name, IconRules[4].0) {
      assert r == Some(4);
    } else if MatchesAny(name, IconRules[5].0) {
      assert r == Some(5);
    } else if MatchesAny(name, IconRules[6].0) {
      assert r == Some(6);
    } else if MatchesAny(name, IconRules[7].0) {
      assert r == Some(7);
    } else {
      assert r == None;
    }
  }

  /** The classifier is total and falls back to `BakeryDining` exactly for the names that
      contain no keyword of any rule. */
  lemma GetBakeryIconDefault(name: string)
    ensures GetBakeryIcon(name) == BakeryDining <==>
      forall j :: 0 <= j < |IconRules| ==> !MatchesAny(name, IconRules[j].0)
  {
    GetBakeryIconIsFirstMatch(name);
    var r := FirstRule(IconRules, name);
    if r.Some? {
      assert IconRules[r.value].1 != BakeryDining;
    }
  }

  /** The first matching rule wins: "火腿起司吐司" contains keywords of the Restaurant rule
      but gets the toast icon, "蛋糕吐司" holds a cake keyword and also gets the toast icon,
      and the tea rule is tried before all others. */
  lemma GetBakeryIconExamples()
    ensures Contains("火腿起司吐司", "火腿") && Contains("火腿起司吐司", "起司")
    ensures GetBakeryIcon("火腿起司吐司") == Menu
    ensures Contains("蛋糕吐司", "蛋糕") && GetBakeryIcon("蛋糕吐司") == Menu
    ensures GetBakeryIcon("英式伯爵紅茶") == LocalCafe
    ensures GetBakeryIcon("紅豆麵包") == FavoriteBorder
    ensures GetBakeryIcon("瑪麗媽媽經典") == BakeryDining
  {
    HamToastIcon();
    CakeToastIcon();
    ContainsAt("英式伯爵紅茶", "紅茶", 4);
    RedBeanIcon();
    PlainNameNoKeyword();
    GetBakeryIconDefault("瑪麗媽媽經典");
  }

  lemma HamToastIcon()
    ensures Contains("火腿起司吐司", "火腿") && Contains("火腿起司吐司", "起司")
    ensures GetBakeryIcon("火腿起司吐司") == Menu
  {
    ContainsAt("火腿起司吐司", "火腿", 0);
    ContainsAt("火腿起司吐司", "起司", 2);
    ContainsAt("火腿起司吐司", "吐司", 4);
    NotContainsFirst("火腿起司吐司", "咖啡");
    NotContainsFirst("火腿起司吐司", "紅茶");
  }

  lemma CakeToastIcon()
    ensures Contains("蛋糕吐司", "蛋糕") && GetBakeryIcon("蛋糕吐司") == Menu
  {
    ContainsAt("蛋糕吐司", "蛋糕", 0);
    ContainsAt("蛋糕吐司", "吐司", 2);
    NotContainsFirst("蛋糕吐司", "咖啡");
    NotContainsFirst("蛋糕吐司", "紅茶");
  }

  lemma RedBeanIcon()
    ensures GetBakeryIcon("紅豆麵包") == FavoriteBorder
  {
    ContainsAt("紅豆麵包", "紅豆", 0);
    RedBeanRulesBefore();
  }

  lemma RedBeanRulesBefore()
    ensures !Contains("紅豆麵包", "咖啡") && !Contains("紅豆麵包", "紅茶") && !Contains("紅豆麵包", "吐司")
    ensures !Contains("紅豆麵包", "餅乾") && !Contains("紅豆麵包", "瓦片") && !Contains("紅豆麵包", "酥")
    ensures !Contains("紅豆麵包", "蛋糕") && !Contains("紅豆麵包", "塔") && !Contains("紅豆麵包", "布丁")
    ensures !Contains("紅豆麵包", "布朗尼") && !Contains("紅豆麵包", "香腸") && !Contains("紅豆麵包", "火腿")
    ensures !Contains("紅豆麵包", "肉鬆") && !Contains("紅豆麵包", "起司")
  {
    RedBeanNoDrinkOrToast();
    RedBeanNoSweet();
    RedBeanNoSavoury();
  }

  lemma RedBeanNoDrinkOrToast()
    ensures !Contains("紅豆麵包", "咖啡") && !Contains("紅豆麵包", "紅茶") && !Contains("紅豆麵包", "吐司")
  {
    var s := "紅豆麵包";
    NotContainsFirst(s, "咖啡");
    assert s[..2][1] == '豆' && "紅茶"[1] == '茶';
    NotContainsFirst(s[1..], "紅茶");
    NotContainsFirst(s, "吐司");
  }

  lemma RedBeanNoSweet()
    ensures !Contains("紅豆麵包", "餅乾") && !Contains("紅豆麵包", "瓦片") && !Contains("紅豆麵包", "酥")
    ensures !Contains("紅豆麵包", "蛋糕") && !Contains("紅豆麵包", "塔") && !Contains("紅豆麵包", "布丁")
  {
    var s := "紅豆麵包";
    NotContainsFirst(s, "餅乾");
    NotContainsFirst(s, "瓦片");
    NotContainsFirst(s, "酥");
    NotContainsFirst(s, "蛋糕");
    NotContainsFirst(s, "塔");
    NotContainsFirst(s, "布丁");
  }

  lemma RedBeanNoSavoury()
    ensures !Contains("紅豆麵包", "布朗尼") && !Contains("紅豆麵包", "香腸") && !Contains("紅豆麵包", "火腿")
    ensures !Contains("紅豆麵包", "肉鬆") && !Contains("紅豆麵包", "起司")
  {
    var s := "紅豆麵包";
    NotContainsFirst(s, "布朗尼");
    NotContainsFirst(s, "香腸");
    NotContainsFirst(s, "火腿");
    NotContainsFirst(s, "肉鬆");
    NotContainsFirst(s, "起司");
  }

  lemma PlainNameNoKeyword()
    ensures forall j :: 0 <= j < |IconRules| ==> !MatchesAny("瑪麗媽媽經典", IconRules[j].0)
  {
    var s := "瑪麗媽媽經典";
    forall j, k | 0 <= j < |IconRules| && 0 <= k < |IconRules[j].0|
      ensures !Contains(s, IconRules[j].0[k])
    {
      var w := IconRules[j].0[k];
      assert |w| > 0 && w[0] !in s;
      NotContainsFirst(s, w);
    }
  }
}

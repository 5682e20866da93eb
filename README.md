# Maria MAMA bakery: order intake and bookkeeping

A Dafny model of the ordering logic of the "瑪利MAMA" bakery Android app. The app covers:

- the session view-model: the order snapshot, the selected pickup date, the per-product sold map, the cart with its daily cap, slot capacity, order submission and daily statistics;
- the staff screen: the day's orders and counts, the task list of a pickup slot, the pending/finished split, per-name summaries ranked by quantity, the estimated revenue and the top three;
- the customer screen: the catalog and its category tabs, each product card's quantities and buttons, checkout, the slot and confirm buttons, the hot-sales top five, the customer's own orders and the `MM/dd` date labels;
- the shared components: the stock arithmetic of the product card and the keyword rules that choose an icon;
- the records: `Product`, `OrderItem`, `BakeryOrder` with `totalPrice` and `isCompleted`;
- the earlier single-activity revision: an uncapped `addToCart`, a slot check that ignores the date, and its task list and task icons.

Modules and files:

| file | module | contents |
|---|---|---|
| collections.dfy | `Collections` | `Option`, Kotlin's `filter`/`count` as `Filter`/`Count`, `String.contains` as `Contains` |
| ranking.dfy | `Ranking` | the stable `sortedByDescending { it.second }` as `SortDesc`, `take`, `indexOfFirst` |
| data_class.dfy | `BakeryModel` | the records, line sums, `find` by name, `flatMap { it.items }` |
| view_model.dfy | `ViewModel` | the sold map, slots, statistics, the cart update, the built order, the `BakeryViewModel` class |
| staff_screen.dfy | `StaffScreen` | the staff screen's lists, summaries, revenue and top three |
| components.dfy | `Components` | product card controls and the icon classifier |
| customer_screen.dfy | `CustomerScreen` | catalog, tabs, card inputs, checkout, hot sales, own orders, date labels |
| main_activity.dfy | `LegacyApp` | the earlier revision |
| findings.dfy | `Findings` | two defects shown on concrete inputs, with corrected definitions |

The view-model is a class whose methods assign its fields. Each method's `ensures` ties the new state to a function of the old one: `SoldMap`, `UpdatedCart` or `NewOrder`. The properties of the app are proved about those functions. Everything on the screens is pure, so it is modelled as functions and lemmas.

These choices follow the code:

- The cart cap is the literal 20 (`DailyCap`), not the product's `maxDailyQty`. A product whose own quantity is lower is still capped at 20 (`ViewModel.CapIgnoresMaxDailyQty`).
- A new cart line always starts at quantity 1, whatever `delta` is.
- `Product` has no `category` field. The catalog passes the category as the fourth positional argument, which is `iconName`, so the category tabs filter on `iconName`.
- `mapOf` keeps the last value given for a key. The dashboard's price table is a sequence of pairs whose lookup returns the last matching pair's price.
- Statuses are free strings.

Outside inputs become parameters or are left out:

- The calendar gives today's date as a parameter.
- `Timestamp.now()` gives the timestamp as a parameter.
- The store write's outcome is a `writeSucceeds` flag.
- A store change reaches the view-model as a whole new snapshot (`ReceiveSnapshot`).

## Model

| member | source | states |
|---|---|---|
| BakeryModel.Defaults | app/src/main/java/com/example/mariaapp/model/DataClass.kt:6-37 | a product's daily quantity defaults to 20 and its `iconName` to "bread"; a line's price defaults to 0; an order starts "pending" with no lines |
| BakeryModel.TotalPriceEmpty | app/src/main/java/com/example/mariaapp/model/DataClass.kt:41-42 | an order without lines has `totalPrice` 0 |
| BakeryModel.TotalPriceSpec | app/src/main/java/com/example/mariaapp/model/DataClass.kt:41-42 | each line adds its price times its quantity to `totalPrice`, whether it is placed first or last |
| BakeryModel.TotalPriceNonNegative | app/src/main/java/com/example/mariaapp/model/DataClass.kt:42 | `totalPrice` is not negative when no price and no quantity is |
| BakeryModel.IsCompletedSpec | app/src/main/java/com/example/mariaapp/model/DataClass.kt:46-50 | an order is completed exactly when its status is "completed"; a "ready" order is not; the setter returns the order unchanged, every field included |
| BakeryModel.FindLine | app/src/main/java/com/example/mariaapp/viewmodel/BakeryViewModel.kt:104 | `find` by name returns the first line with the name, and nothing exactly when no line has it |
| BakeryModel.FlattenMember | app/src/main/java/com/example/mariaapp/view/StaffScreen.kt:238-239 | a line is among all lines of the orders exactly when it is a line of one of them |
| ViewModel.TallySpec | app/src/main/java/com/example/mariaapp/viewmodel/BakeryViewModel.kt:88-94 | the nested loop adds each name's summed quantity to the map; a name has an entry exactly when it had one or some line carries it |
| ViewModel.SoldMapSpec | app/src/main/java/com/example/mariaapp/viewmodel/BakeryViewModel.kt:82-96 | each name's sold quantity is its summed quantity over the date's non-cancelled orders; a name has an entry exactly when such an order carries it |
| ViewModel.SoldMapEmpty | app/src/main/java/com/example/mariaapp/viewmodel/BakeryViewModel.kt:85-95 | the sold map is empty exactly when the date's non-cancelled orders have no lines |
| ViewModel.SoldMapIgnores | app/src/main/java/com/example/mariaapp/viewmodel/BakeryViewModel.kt:85 | an order for another date, or one that is cancelled, changes no sold quantity |
| ViewModel.SoldMapAdds | app/src/main/java/com/example/mariaapp/viewmodel/BakeryViewModel.kt:85-94 | a non-cancelled order for the date adds its quantities of each name |
| ViewModel.SlotCountSnoc | app/src/main/java/com/example/mariaapp/viewmodel/BakeryViewModel.kt:135-143 | an arriving order adds one to a slot exactly when it is for that date and time and is not cancelled, so a full slot stays full |
| ViewModel.DailyStats | app/src/main/java/com/example/mariaapp/viewmodel/BakeryViewModel.kt:202-208 | pending is at most total, and total is at most the number of orders |
| ViewModel.DailyStatsSnoc | app/src/main/java/com/example/mariaapp/viewmodel/BakeryViewModel.kt:202-208 | an order on the date adds one to the total whatever its status, and one to pending exactly when it is "pending" |
| ViewModel.UpdateRemoves | app/src/main/java/com/example/mariaapp/viewmodel/BakeryViewModel.kt:106-109 | a line whose new quantity is 0 or less is removed: the cart is one line shorter and has no line for the name |
| ViewModel.UpdateWrites | app/src/main/java/com/example/mariaapp/viewmodel/BakeryViewModel.kt:110-119 | a positive new quantity is written at the same index, other lines unchanged, exactly when sold plus new quantity is at most 20; otherwise the cart is unchanged, for decrements too |
| ViewModel.UpdateAppends | app/src/main/java/com/example/mariaapp/viewmodel/BakeryViewModel.kt:121-128 | a product without a line gets `(name, 1)` at the end when delta is positive and sold plus one is at most 20, whatever the size of delta; otherwise nothing changes |
| ViewModel.UpdateKeepsOthers | app/src/main/java/com/example/mariaapp/viewmodel/BakeryViewModel.kt:102-131 | the lines of other products, and their order, are unchanged |
| ViewModel.UpdatePreservesValid | app/src/main/java/com/example/mariaapp/viewmodel/BakeryViewModel.kt:102-131 | every line keeps quantity at least 1 and price 0, and names stay distinct |
| ViewModel.UpdatePreservesCap | app/src/main/java/com/example/mariaapp/viewmodel/BakeryViewModel.kt:112-127 | with the sold map fixed, no line is taken past sold plus quantity 20 |
| ViewModel.CartQtyNamedLine | app/src/main/java/com/example/mariaapp/viewmodel/BakeryViewModel.kt:104 | in a valid cart, the quantity summed over the name of line i is line i's quantity |
| ViewModel.CapIgnoresMaxDailyQty | app/src/main/java/com/example/mariaapp/viewmodel/BakeryViewModel.kt:113-127 | the cap is 20, not the product's own quantity: two requests of +2 give 1 and then 3 pieces |
| ViewModel.NewOrder | app/src/main/java/com/example/mariaapp/viewmodel/BakeryViewModel.kt:152-159 | the built order carries the cart's lines, the selected date, the name, email and slot, no id, and status "pending", so it is not completed |
| ViewModel.SubmittedTotalIsZero | app/src/main/java/com/example/mariaapp/viewmodel/BakeryViewModel.kt:152-159 | cart lines are priced 0, so a submitted order's `totalPrice` is 0 |
| ViewModel.SubmittedFillsSlot | app/src/main/java/com/example/mariaapp/viewmodel/BakeryViewModel.kt:145-170 | no slot check: once the order arrives its slot holds one more, past capacity if the slot was full |
| ViewModel.SubmittedSold | app/src/main/java/com/example/mariaapp/viewmodel/BakeryViewModel.kt:145-170 | once the order arrives, each line's quantity is added to its sold quantity, which stays within 20 when the cart fitted the cap |
| ViewModel.MarkedReady | app/src/main/java/com/example/mariaapp/model/BakeryRepository.kt:32-34 | every order with the id gets status "ready" and every other order is unchanged |
| ViewModel.MarkedReadyStats | app/src/main/java/com/example/mariaapp/viewmodel/BakeryViewModel.kt:174-178 | marking ready keeps every day's total and never raises its pending count |
| ViewModel.MarkedReadyKeepsSold | app/src/main/java/com/example/mariaapp/viewmodel/BakeryViewModel.kt:174-178 | marking ready an order that is not cancelled leaves every sold map as it was |
| ViewModel.MarkedReadyRevivesCancelled | app/src/main/java/com/example/mariaapp/viewmodel/BakeryViewModel.kt:174-178 | in a snapshot where no other order carries its id, a cancelled order adds nothing to its day's sales, and once marked ready it adds its quantity of every name |
| ViewModel.BakeryViewModel.constructor | app/src/main/java/com/example/mariaapp/viewmodel/BakeryViewModel.kt:24-46 | a session starts with no orders, an empty cart and sold map, and today's date |
| ViewModel.BakeryViewModel.ReceiveSnapshot | app/src/main/java/com/example/mariaapp/viewmodel/BakeryViewModel.kt:66-73 | a snapshot replaces the orders and the sold map is recomputed for the selected date; the cart and date stay |
| ViewModel.BakeryViewModel.UpdateDate | app/src/main/java/com/example/mariaapp/viewmodel/BakeryViewModel.kt:76-79 | the date becomes d and the sold map is recomputed for d; the orders and the cart stay |
| ViewModel.BakeryViewModel.RecalculateInventory | app/src/main/java/com/example/mariaapp/viewmodel/BakeryViewModel.kt:82-96 | the nested loops leave the sold map of the orders and the selected date |
| ViewModel.BakeryViewModel.UpdateCartQty | app/src/main/java/com/example/mariaapp/viewmodel/BakeryViewModel.kt:102-131 | the cart becomes `UpdatedCart` of the old cart, the sold map, the name and delta, and stays valid |
| ViewModel.BakeryViewModel.IsSlotFull | app/src/main/java/com/example/mariaapp/viewmodel/BakeryViewModel.kt:135-143 | full exactly when at least 3 non-cancelled orders hold the slot on the selected date |
| ViewModel.BakeryViewModel.SubmitOrder | app/src/main/java/com/example/mariaapp/viewmodel/BakeryViewModel.kt:145-170 | the order is built from the cart and the selected date; the cart is emptied and `onSuccess` runs exactly when the write succeeds; otherwise the cart stays |
| ViewModel.BakeryViewModel.GetDailyStats | app/src/main/java/com/example/mariaapp/viewmodel/BakeryViewModel.kt:202-208 | total and pending of the selected date, pending at most total |
| StaffScreen.PendingCount | app/src/main/java/com/example/mariaapp/view/StaffScreen.kt:68-69 | the pending count is at most the total count |
| StaffScreen.SelectedDateOrdersSpec | app/src/main/java/com/example/mariaapp/view/StaffScreen.kt:65-69 | an order is in the day view exactly when it is for the date; the header's counts are the view-model's daily statistics |
| StaffScreen.CurrentTasksSpec | app/src/main/java/com/example/mariaapp/view/StaffScreen.kt:158-162 | tasks are exactly the pending orders of the date and slot; they are the day view filtered in order, and number at most the pending count |
| StaffScreen.PartitionSpec | app/src/main/java/com/example/mariaapp/view/StaffScreen.kt:234-235 | the two tabs' sizes add up to the number of orders and their multisets add up to the input; "ready", "completed" and "cancelled" land in the finished tab |
| StaffScreen.AddLine | app/src/main/java/com/example/mariaapp/view/StaffScreen.kt:240-241 | one grouped line adds an entry at the end for a new name and keeps the names already grouped |
| StaffScreen.GroupSumsNames | app/src/main/java/com/example/mariaapp/view/StaffScreen.kt:238-241 | the grouped list has an entry for a name exactly when some line carries it |
| StaffScreen.GroupSumsDistinct | app/src/main/java/com/example/mariaapp/view/StaffScreen.kt:240 | each name is grouped once |
| StaffScreen.GroupSumsValues | app/src/main/java/com/example/mariaapp/view/StaffScreen.kt:240-241 | each entry carries its name's summed quantity |
| StaffScreen.GroupSumsOrder | app/src/main/java/com/example/mariaapp/view/StaffScreen.kt:240 | grouped names keep the order in which they first occur among the lines |
| StaffScreen.GroupSumsTotal | app/src/main/java/com/example/mariaapp/view/StaffScreen.kt:237-242 | the grouped quantities add up to the quantity of all lines |
| StaffScreen.SummarySpec | app/src/main/java/com/example/mariaapp/view/StaffScreen.kt:237-244 | the summary is non-increasing, lists each name once, lists exactly the names of the lines with their summed quantities, and its total is the total quantity |
| StaffScreen.SummaryTies | app/src/main/java/com/example/mariaapp/view/StaffScreen.kt:240-243 | names with equal quantities keep first-occurrence order |
| StaffScreen.SummaryQtySpec | app/src/main/java/com/example/mariaapp/view/StaffScreen.kt:237-244 | the summary shows for a name its quantity over all lines, 0 when the name does not occur |
| StaffScreen.SummarySplit | app/src/main/java/com/example/mariaapp/view/StaffScreen.kt:234-247 | for each name, the pending summary's quantity plus the finished summary's is the name's quantity over all the orders |
| StaffScreen.PriceOfAbsent | app/src/main/java/com/example/mariaapp/view/StaffScreen.kt:368 | a name missing from the table is priced 0 |
| StaffScreen.PriceOfListed | app/src/main/java/com/example/mariaapp/view/StaffScreen.kt:352-364 | a name is priced at its last pair in the table |
| StaffScreen.RevenueSnoc | app/src/main/java/com/example/mariaapp/view/StaffScreen.kt:367-370 | each line adds its table price times its quantity; a name missing from the table adds nothing |
| StaffScreen.RevenueConcat | app/src/main/java/com/example/mariaapp/view/StaffScreen.kt:367-370 | the revenue of joined lines is the sum of their revenues |
| StaffScreen.RevenueIgnoresLinePrice | app/src/main/java/com/example/mariaapp/view/StaffScreen.kt:367-370 | the revenue ignores the lines' own prices |
| StaffScreen.TotalRevenueNonNegative | app/src/main/java/com/example/mariaapp/view/StaffScreen.kt:352-370 | with quantities not negative, the estimate is not negative |
| StaffScreen.TopProductsSpec | app/src/main/java/com/example/mariaapp/view/StaffScreen.kt:373-379 | the top list holds the first min(3, number of distinct names) summary entries, and none ranks below an entry left out |
| Components.Controls | app/src/main/java/com/example/mariaapp/view/Components.kt:54-94 | sold out exactly when sold reaches the daily quantity; with the product in the cart, "−" is enabled and "+" is enabled exactly when sold plus cart plus one fits; otherwise the add button is enabled exactly when sold plus one fits |
| Components.FirstRule | app/src/main/java/com/example/mariaapp/view/Components.kt:26-43 | the first rule matched, with no earlier rule matched; nothing exactly when no rule matches |
| Components.GetBakeryIconIsFirstMatch | app/src/main/java/com/example/mariaapp/view/Components.kt:25-43 | the icon is that of the first keyword rule the name matches, `BakeryDining` when none does |
| Components.GetBakeryIconDefault | app/src/main/java/com/example/mariaapp/view/Components.kt:41-42 | `BakeryDining` is given exactly to the names that contain no keyword |
| Components.GetBakeryIconExamples | app/src/main/java/com/example/mariaapp/view/Components.kt:28-42 | "火腿起司吐司" contains the Restaurant keywords but gets the toast icon; "蛋糕吐司" gets the toast icon; tea gets the drink icon; "紅豆麵包" gets the heart; a plain name gets the default |
| CustomerScreen.CatalogNamesDistinct | app/src/main/java/com/example/mariaapp/view/CustomerScreen.kt:72-123 | the catalog has 44 products with pairwise distinct names |
| CustomerScreen.CatalogInOneCategory | app/src/main/java/com/example/mariaapp/view/CustomerScreen.kt:65-123 | every catalog product is in one of the tabs other than "全部" |
| CustomerScreen.DisplayedProductsSpec | app/src/main/java/com/example/mariaapp/view/CustomerScreen.kt:125-129 | "全部" shows every product; another tab shows exactly the products of its category, in catalog order |
| CustomerScreen.CatalogProductShown | app/src/main/java/com/example/mariaapp/view/CustomerScreen.kt:125-129 | every catalog product is shown under its own tab |
| CustomerScreen.CartQtyOfSpec | app/src/main/java/com/example/mariaapp/view/CustomerScreen.kt:187 | a card's cart quantity is the cart's quantity for the name, positive exactly when the cart has a line for it |
| CustomerScreen.SoldQtySpec | app/src/main/java/com/example/mariaapp/view/CustomerScreen.kt:188 | a card's sold quantity is the product's quantity in the day's non-cancelled orders, 0 when none |
| CustomerScreen.IncrementMatchesCart | app/src/main/java/com/example/mariaapp/view/CustomerScreen.kt:187-195 | for a product with the default daily quantity, the +1 button is enabled exactly when pressing it changes the cart |
| CustomerScreen.DecrementWithinCap | app/src/main/java/com/example/mariaapp/view/CustomerScreen.kt:187-195 | while the cart fits the cap, the enabled "−" does change the cart |
| CustomerScreen.CheckoutCountSpec | app/src/main/java/com/example/mariaapp/view/CustomerScreen.kt:200-206 | the checkout count, which sums the line quantities, is at least the number of lines; a shown button counts at least one piece, an empty cart none |
| CustomerScreen.CheckoutCountStep | app/src/main/java/com/example/mariaapp/view/CustomerScreen.kt:200-206 | a +1 or −1 press that changes the cart moves the count by exactly one |
| CustomerScreen.CheckoutButtonsSpec | app/src/main/java/com/example/mariaapp/view/CustomerScreen.kt:233-287 | a slot button is enabled exactly while fewer than 3 orders hold the slot; confirm is enabled exactly when a slot is chosen and name and email are both filled, so it is disabled with no slot, an empty name or an empty email; submitting to a slot that filled since it was chosen takes it past capacity |
| CustomerScreen.WithSold | app/src/main/java/com/example/mariaapp/view/CustomerScreen.kt:407 | one entry per product, in catalog order, with its sold count or 0 |
| CustomerScreen.HotSalesSpec | app/src/main/java/com/example/mariaapp/view/CustomerScreen.kt:406-408 | min(5, number of products) entries, non-increasing, each a product with its sold count, none below a count left out |
| CustomerScreen.HotSalesTies | app/src/main/java/com/example/mariaapp/view/CustomerScreen.kt:407-408 | products with equal counts keep catalog order |
| CustomerScreen.HotSalesRank | app/src/main/java/com/example/mariaapp/view/CustomerScreen.kt:426 | with distinct products, each entry's rank is its position plus one |
| CustomerScreen.CatalogHotSalesRank | app/src/main/java/com/example/mariaapp/view/CustomerScreen.kt:426 | for the catalog, each entry's rank is its position plus one |
| CustomerScreen.MyOrdersSpec | app/src/main/java/com/example/mariaapp/view/CustomerScreen.kt:451 | exactly the orders with the current email, in the store's order |
| CustomerScreen.IsReadyShownSpec | app/src/main/java/com/example/mariaapp/view/CustomerScreen.kt:470 | an order shows as ready exactly when it is in the staff's finished tab, so "ready" and "cancelled" show as ready and "pending" does not |
| CustomerScreen.ReplaceDashes | app/src/main/java/com/example/mariaapp/view/CustomerScreen.kt:504 | every '-' becomes '/' and every other character stays |
| CustomerScreen.DateLabelSpec | app/src/main/java/com/example/mariaapp/view/CustomerScreen.kt:504 | a `yyyy-MM-dd` date is labelled `MM/dd`; a label exists exactly for strings of at least 5 characters and holds no '-' |
| LegacyApp.AddToExistingLine | app/src/main/java/com/example/mariaapp/MainActivity.kt:110-113 | an existing line gets one more piece at the same index, and no other line changes |
| LegacyApp.AddNewLine | app/src/main/java/com/example/mariaapp/MainActivity.kt:114-117 | a product not in the cart gets `(name, 1)` at the end, with no cap |
| LegacyApp.AddPreservesValid | app/src/main/java/com/example/mariaapp/MainActivity.kt:108-118 | quantities stay positive and names distinct |
| LegacyApp.AddCountsOne | app/src/main/java/com/example/mariaapp/MainActivity.kt:108-118 | every press adds exactly one piece to the cart, without limit |
| LegacyApp.SlotCountIgnoresDate | app/src/main/java/com/example/mariaapp/MainActivity.kt:121-126 | an order adds one to its slot's count exactly when it holds the slot and is not cancelled, whatever its date |
| LegacyApp.NewOrder | app/src/main/java/com/example/mariaapp/MainActivity.kt:130-136 | the built order carries the cart, today's date, name, slot and "pending" |
| LegacyApp.DailyStats | app/src/main/java/com/example/mariaapp/MainActivity.kt:156-160 | total is every order held, of any date, and pending is at most total; with `DailyStatsSnoc` and the empty snapshot this fixes both counts |
| LegacyApp.DailyStatsSnoc | app/src/main/java/com/example/mariaapp/MainActivity.kt:155-159 | an arriving order adds one to the total whatever its date or status, and one to pending exactly when its status is "pending" |
| LegacyApp.BakeryViewModel.AddToCart | app/src/main/java/com/example/mariaapp/MainActivity.kt:108-118 | the cart becomes `AddedToCart` of the old one: valid carts stay valid and the count rises by one |
| LegacyApp.BakeryViewModel.IsSlotFull | app/src/main/java/com/example/mariaapp/MainActivity.kt:121-126 | full exactly when at least 3 non-cancelled orders of any date hold the slot |
| LegacyApp.BakeryViewModel.SubmitOrder | app/src/main/java/com/example/mariaapp/MainActivity.kt:129-143 | the order is built from the cart and today's date; the cart is emptied and `onSuccess` runs only when the write succeeds |
| LegacyApp.BakeryViewModel.GetDailyStats | app/src/main/java/com/example/mariaapp/MainActivity.kt:156-160 | it equals `DailyStats` of the held orders: total is the number of orders, and pending the number whose status is "pending", by `DailyStatsSnoc` |
| LegacyApp.CurrentTasksSpec | app/src/main/java/com/example/mariaapp/MainActivity.kt:403 | tasks are exactly the pending orders of the block, of any date and in input order, and at most its slot count |
| LegacyApp.TaskIconOf | app/src/main/java/com/example/mariaapp/MainActivity.kt:454-458 | Brightness5 exactly when the name contains 菠蘿, FiberManualRecord exactly when it contains 紅豆 but not 菠蘿, otherwise BakeryDining |
| LegacyApp.MenuTaskIcons | app/src/main/java/com/example/mariaapp/MainActivity.kt:212-216 | the three menu products get the pineapple, red-bean and default icons, and a name with both keywords gets the pineapple icon |
| Findings.PriceTableMissesBreads | app/src/main/java/com/example/mariaapp/view/StaffScreen.kt:355-356 | 核桃麵包, 歐克麵包 and 椰香麵包 have catalog prices 20, 40 and 35, but the dashboard's table prices them 0 |
| Findings.WalnutOrderEarnsNothing | app/src/main/java/com/example/mariaapp/view/StaffScreen.kt:367-370 | an order of one 核桃麵包 adds nothing to the estimated revenue |
| Findings.CatalogPricesSpec | app/src/main/java/com/example/mariaapp/view/CustomerScreen.kt:72-123 | the corrected table prices every catalog product at its catalog price |
| Findings.CatalogRevenueSnoc | app/src/main/java/com/example/mariaapp/view/StaffScreen.kt:367-370 | with the corrected table, a catalog line adds its catalog price times its quantity, so the 核桃麵包 order earns 20 |
| Findings.DecrementBlocked | app/src/main/java/com/example/mariaapp/viewmodel/BakeryViewModel.kt:110-119 | with 5 red-bean breads in the cart and 18 sold, "−" is enabled but leaves the cart unchanged |
| Findings.FixedAgreesOnIncrease | app/src/main/java/com/example/mariaapp/viewmodel/BakeryViewModel.kt:102-131 | the corrected update behaves as the code on increases |
| Findings.FixedDecrementTakesOne | app/src/main/java/com/example/mariaapp/view/Components.kt:78-81 | with the corrected update, "−" on a product in the cart always takes one piece out, whatever is sold |
| Findings.FixedPreservesValid | app/src/main/java/com/example/mariaapp/viewmodel/BakeryViewModel.kt:102-131 | the corrected update keeps the cart valid |
| Findings.FixedPreservesCap | app/src/main/java/com/example/mariaapp/viewmodel/BakeryViewModel.kt:112-127 | the corrected update keeps a cart within the cap |

## Left out

- The store's `callbackFlow`, `add` and `update` are not modelled. A snapshot is an atomic replacement of the orders, a write is a success flag, and a status update is the function `MarkedReady`.
- Coroutines, `viewModelScope`, `StateFlow` and the snapshot listener's threading are left out. Every operation is atomic.
- SharedPreferences (`initSharedPrefs`, `getSavedUser` and the prefs write in `submitOrder`) is a key-value collaborator, not part of the ordering logic.
- E-mail is left out: `sendEmailNotification`, the staff screen's mail body, and `GMailSender.kt`'s SMTP transport and its stored account details. It is string formatting around network I/O.
- `markOrderAsReady` in both view-models only forwards a request to the store. The store's effect is `ViewModel.MarkedReady`.
- The clock and calendar are parameters: `getTodayDate`, `Timestamp.now()` and the seven-day date lists. The imperative date-list loop is not modelled.
- The dashboard's progress-bar ratios are left out: floating point, display only.
- Compose layout, colours, `remember` state, Toasts and Android Intents are left out.
- The staff screen's date label (StaffScreen.kt:116) is the same expression as the customer's and is modelled once, as `CustomerScreen.DateLabel`.
- `selectedTime!!` at checkout is not modelled as a failure: the confirm button is enabled only with a slot chosen.
- DateLabelSpec: Kotlin's `substring(5)` throws on a string shorter than 5 characters. The model returns `None` there.
- Integers are unbounded. Kotlin's 32-bit `Int` overflow in quantities and revenue sums is not modelled.
- Kotlin's `groupBy` builds a `LinkedHashMap`. `GroupSums` models its key order and summed values as a list of pairs.
- The view-model's cap is fixed at 20, so a product's `maxDailyQty` is not used. This departs from a product-specific cap; `CapIgnoresMaxDailyQty` shows the difference.

## Findings

| source | as written | input that shows it | evidently intended | confidence | as-written member | corrected member |
|---|---|---|---|---|---|---|
| app/src/main/java/com/example/mariaapp/view/StaffScreen.kt:355-356 | the dashboard's price table has keys "核桃", "歐克" and "椰香", while the catalog names are "核桃麵包", "歐克麵包" and "椰香麵包", so those lines are priced 0 | an order of one 核桃麵包 (catalog price 20): estimated revenue 0 | every catalog product priced at its catalog price: revenue 20 | medium, not executed | Findings.WalnutOrderEarnsNothing | Findings.CatalogRevenueSnoc |
| app/src/main/java/com/example/mariaapp/viewmodel/BakeryViewModel.kt:110-119 | a decrement that leaves a positive quantity is checked against the cap like an increment | a cart of 5 紅豆麵包 and a sold map of 18 for it (after another date is selected or others order): "−" is enabled and the cart stays at 5 | the cap checked only for increases, so "−" always takes one piece out | medium, not executed | Findings.DecrementBlocked | Findings.FixedDecrementTakesOne |

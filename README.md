# Phone store, modelled in Dafny

This project models the in-memory core of a text-menu phone shop written in
Kotlin (`Main.kt`). The shop has two stores. Each store has a fixed
three-phone catalog, a sales-statistics table and a repair service that can
be used once. The model covers:

- the store's catalog and the lookup of a phone by its exact model name;
- `buyPhone`, which adds one sale to the model's entry in the statistics
  table, an insertion-ordered map from model name to (count, total);
- `showStatistics`, which lists that table in insertion order;
- `repairPhone`, a one-way flag set only by the answer "да";
- one turn of each of the two menu loops: the top menu's store selection
  and the store menu's dispatch on actions 1 to 5.

Files:

- `wrappers.dfy`: `Option`, which stands for Kotlin's nullable values.
- `ordered_map.dfy`: module `OrderedMaps`. `mutableMapOf` (a LinkedHashMap)
  is modelled as a sequence of entries whose keys are distinct. `Put` is
  proved to keep a key where it is when its value is overwritten, and to
  append a new key at the end.
- `store.dfy`: module `Shop`. It holds `Phone`, `Tally` (count, total), the
  pure specification functions (`Find`, `Purchase`, `PurchaseAll`,
  `RepairTransition`, `RepairRun`) with their lemmas, and the class `Store`.
  The class keeps the source's mutable fields: `salesStatistics` is
  reassigned by `BuyPhone`, and `hasUsedRepairService` is flipped by
  `RepairPhone`. Its invariant `Valid()` says that every key of the table is
  a catalog model bought at least once, and that its total is its count
  times the catalog price.
- `application.dfy`: module `App`. It holds the input classifications and
  the class `Application` with its two stores, one method per menu turn, and
  a scenario method that runs a fresh store through purchases and repairs.

Prices and totals are integer cents: 999.99 is 99999, 899.99 is 89999 and
699.99 is 69999. User input arrives as parameters. A line read from standard
input is an `Option<string>`, where None stands for end of input. A number
parsed with `toIntOrNull` is an `Option<int>`, where None stands for a
missing line or one `toIntOrNull` cannot read as an Int. What the program prints is returned as data:
the phone listing, a `StatisticsReport`, a `RepairOutcome` or a
`MenuResult`.

## Model

| member | source | states |
|---|---|---|
| Shop.Store.constructor | Main.kt:13-23 | A new store has the catalog "iPhone 14" (99999), "Samsung Galaxy S22" (89999), "Google Pixel 7" (69999) in that order, an empty sales table and an unset repair flag |
| Shop.InitialCatalogLookup | Main.kt:18-23 | Each catalog phone is found by its own model name, and the lookup is case-sensitive ("iphone 14" is not found) |
| Shop.Find | Main.kt:38 | The result is None exactly when no catalog phone has the name; otherwise it is the first phone whose model equals the name |
| OrderedMaps.Get | Main.kt:40 | A lookup in the sales table is None exactly when the key is absent; otherwise the table holds that key with that value |
| OrderedMaps.GetOrDefault | Main.kt:40 | `getOrDefault` gives the default for an absent key and the stored value otherwise |
| OrderedMaps.Put | Main.kt:40 | After `m[k] = v`, `k` maps to `v`; an existing key keeps its position and a new key is appended at the end |
| OrderedMaps.PutKeepsOthers | Main.kt:40 | Writing one key leaves the value of every other key unchanged |
| OrderedMaps.PutKeepsKeysDistinct | Main.kt:15 | Writing a key keeps the map's keys distinct |
| Shop.Purchase | Main.kt:37-47 | A buy of a model that is not in the catalog leaves the table unchanged. Otherwise the model's entry goes from (c, t) to (c+1, t+price), starting from (0, 0) when absent, and the key order is kept or the new key is appended |
| Shop.PurchaseKeepsOthers | Main.kt:40-42 | A buy changes no entry except the bought model's |
| Shop.PurchaseNeverLowers | Main.kt:40-42 | A buy never removes an entry and never lowers a count or a total |
| Shop.PurchasePreservesInvariant | Main.kt:37-47 | A buy keeps the invariant: keys distinct, each key a catalog model with count at least 1 and total equal to count times its price |
| Shop.UnknownModelUntouched | Main.kt:38-45 | Over any sequence of buys, a model that is not in the catalog never gets an entry and its lookup never changes |
| Shop.OthersBoughtUntouched | Main.kt:40-42 | Buys of other models leave a model's entry as it was |
| Shop.TallyAfterPurchases | Main.kt:38-42 | After any sequence of buys in which a catalog model occurs n > 0 times, its entry has gained exactly n in count and n times its price in total |
| Shop.RepeatedPurchase | Main.kt:38-42 | From a fresh store, k buys of a catalog model give count k and total k times its price, stated both as repeated addition and as the product |
| Shop.RevenueIsProduct | Main.kt:41 | Adding the price once per sale k times gives k times the price |
| Shop.EntryIsTallied | Main.kt:30-32 | Under the invariant, every listed entry is a catalog model with count at least 1 and total equal to count times price |
| Shop.Store.ShowPhones | Main.kt:64-69 | The listing is the catalog, in catalog order |
| Shop.Store.BuyPhone | Main.kt:37-47 | Returns the phone found (None when not found), changes only the sales table, sets it to `Purchase` of the old table, and keeps `Valid()` |
| Shop.Store.ShowStatistics | Main.kt:25-35 | The "nothing sold" report is given exactly when the table is empty; otherwise there is one line per entry, in table order, each with count at least 1 and total equal to count times its price |
| Shop.RepairTransition | Main.kt:49-61 | The flag ends set exactly when it was set or the answer is exactly "да"; the outcome is "already used" exactly when the flag was set, and "repaired" exactly when it was unset and the answer is "да" |
| Shop.RepairAtMostOnce | Main.kt:49-61 | Over any sequence of calls, the flag ends set exactly when it started set or some answer was "да"; a repair happens at most once, and every later call reports "already used" |
| Shop.StaysUsed | Main.kt:59-60 | Once the flag is set, every further call leaves it set and reports "already used" |
| Shop.Store.RepairPhone | Main.kt:49-62 | The prompt is shown and a line read exactly when the flag was unset; the new flag and the outcome are those of `RepairTransition` |
| App.ClassifyStoreChoice | Main.kt:87-94 | 0 exits; 1 to the store count selects index number - 1; a missing line, one that is not an Int, or an out-of-range number is invalid, and the three cases are exclusive |
| App.ActionNumber | Main.kt:112-116 | Each menu action has a number from 1 to 5 |
| App.ClassifyAction | Main.kt:118-132 | An input names an action exactly when it is 1 to 5, and then the action is the one with that number; anything else is invalid |
| App.ActionNumbersRoundTrip | Main.kt:118-132 | Each action is chosen by its own number and by no other |
| App.AcceptedModel | Main.kt:122-127 | A model name is accepted exactly when the line is present and not empty |
| App.Application.constructor | Main.kt:80 | The application has exactly two distinct, fresh stores, "Город A" and "Город B", each in its initial state, and its invariant holds: both stores are valid |
| App.Application.ShowStores | Main.kt:102-107 | The store list is numbered from 1, in list order |
| App.Application.SelectStore | Main.kt:86-94 | Input 0 quits; a number in 1..size enters `stores[number - 1]`; anything else retries |
| App.Application.StoreMenuStep | Main.kt:109-135 | Actions 1 to 5 show phones, buy, show statistics, repair or return. A buy reaches `BuyPhone` only with a present, non-empty model name. Only a buy changes the sales table and only a repair changes the flag. Action 5 returns, and anything else is reported as an invalid choice with nothing changed. The store must be one of the application's, and every store stays valid |

## Left out

- All printing and reading of lines (Main.kt:26-132), including the prompt texts, `greetUser` (Main.kt:98-100) and `main` (Main.kt:2-5). Read lines are parameters and printed output is returned as data.
- The `while (true)` loops of `run` and `storeMenu` (Main.kt:84, Main.kt:110). Each is modelled as one turn (`SelectStore`, `StoreMenuStep`), because the session runs until the user enters 0 and, at end of input, never ends: `readLine()` then gives null, which both menus treat as an invalid choice.
- `toIntOrNull` (Main.kt:87, Main.kt:118). It is Kotlin library parsing, so the menus take its result as an `Option<int>`.
- `Double` prices and totals (Main.kt:7, Main.kt:41). They are integer cents, so sums are exact; floating-point rounding is not modelled.
- The abstract `Phone`, `Smartphone` and `UserInterface` (Main.kt:7-10, Main.kt:73-76). They carry no behaviour and are one `Phone` datatype and plain methods here.
- Shop.Store.BuyPhone: the count is an unbounded `nat`. Kotlin's `Int` would wrap after 2147483647 buys of one model, which is not modelled.
- `Phone.price` is a `var` in the source, but nothing assigns it after construction. It is immutable here, so the proofs rest on the price never changing.

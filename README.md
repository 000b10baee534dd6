# Gilded Rose inventory: the daily update engine, in Dafny

This project models the per-item update engine of a small Gilded Rose
inventory written in JavaScript (AngularJS). Each item has a `sellInValue`
(days left to sell it) and a `qualityValue`. Once per simulated day
`update()` first moves sellIn. With no argument it drops by one day while
above its floor `minSellIn`. An explicit `numOfDays` larger than sellIn
clamps it to the floor; any other explicit count is subtracted as given
when sellIn is above the floor, and does nothing at or below it.
It then recomputes quality. That step uses a default degrade amount, two
optional per-item hooks (`enhanceBy` and `degradeBy`) and a floor
`minQuality`. Five presets (Aged Brie, Sulfuras, Backstage Pass, Conjured
Shield, Regular Shield) configure the hooks.

The model follows the code as written, including its JavaScript coercions:

- `x || 1` and `x || 0` treat an absent value and `0` alike (`JsValues.JsOr`).
- `enhanceByValue` starts at `0`, not `null`. So an item without a
  `degradeBy` hook, and without an `enhanceBy` hook or with one that
  returns a number, always reaches the "both non-null" branch while its
  quality is positive. That branch
  logs an error and leaves quality alone. The same happens with a
  `degradeBy` hook whose result has no `setQualityTo` and gives a non-null
  amount. The header comment of `inventoryItemFactory.js` (lines 41-44)
  promises default degradation for items without hooks; the code never
  delivers it.
- A `degradeBy` result is dereferenced without a null check. The Backstage
  Pass hook returns `undefined` on every day but the concert day, so its
  update throws a TypeError whenever quality is positive and the sellIn
  after that day's advance is not 0 (from sellIn 1 a default-day update
  lands on 0 and sets quality to 0 instead).
- The degrade amount is a product of factors, not a quotient as the
  comments at lines 13 and 23 say.
- `create` never returns the item it builds. It reads `config.qualityValue`
  without a check and the misspelt `config.qualityVaue`. So it throws on
  every preset, and building the inventory list throws at its first item.

The usual Gilded Rose rules, and the source's own comments (the header at
`inventoryItemFactory.js` lines 41-44, the bounds noted at lines 147-150),
differ from the code in these places, and the model follows the code. Aged Brie never gains
quality. Quality is not capped at 50. Conjured and Regular Shield never
degrade. An explicit `numOfDays` that does not overshoot sellIn can take
sellIn below its floor.

Files:

- `wrappers.dfy`: `Option`.
- `js_values.dfy`: `||` defaults, numbers that may be `null`, `undefined` or
  `NaN`, and `String.prototype.trim`.
- `inventory_item_factory.dfy`: `create` and the item prototype. It holds
  the pure rules `NextSellIn`, `NextQuality`, `NextState` and `AfterDays`.
  It also holds the class `InventoryItem`, whose methods update
  `sellInValue` and `qualityValue` in place and are proved to follow those
  rules.
- `inventory_factory.dfy`: the presets, their hooks and the inventory order.

## Model

| member | source | states |
|---|---|---|
| JsValues.JsOr | modules/main/factories/inventoryItemFactory.js:70 | JavaScript `or`-defaulting: absent and 0 both give the fallback, any other number is kept |
| JsValues.TrimStart | modules/main/factories/inventoryItemFactory.js:172 | the result is a suffix of the input; every dropped character is white space; the result does not start with white space |
| JsValues.TrimEnd | modules/main/factories/inventoryItemFactory.js:172 | the result is a prefix of the input; every dropped character is white space; the result does not end with white space |
| JsValues.Trim | modules/main/factories/inventoryItemFactory.js:172 | `trim()` gives the empty string exactly when the input is white space only |
| InventoryItemFactory.IsString | modules/main/factories/inventoryItemFactory.js:162-164 | true of every string value (primitive or String object), false of every other value |
| InventoryItemFactory.IsStringEmpty | modules/main/factories/inventoryItemFactory.js:171-173 | true exactly for a string made only of white space (the empty string included) |
| InventoryItemFactory.Create | modules/main/factories/inventoryItemFactory.js:61-76 | returns null exactly when the name is not a string or is blank; with a valid name it throws at the `qualityValue` read exactly when that block is absent, else at the `qualityVaue` read exactly when the misspelt block is absent, and reaches its end (returning undefined) exactly when both are present; never returns the item |
| InventoryItemFactory.SettingsOf | modules/main/factories/inventoryItemFactory.js:69-74 | the degradation factor is never 0: it is 1 when absent or 0 and the given number otherwise; `minSellIn` and `minQuality` are copied unchanged; both hooks are those of the `qualityValue` block, or absent when there is no block |
| InventoryItemFactory.InventoryItem.constructor | modules/main/factories/inventoryItemFactory.js:62-75 | the new item's name and settings are those of the configuration; sellIn and quality are the given seeds |
| InventoryItemFactory.NextSellIn | modules/main/factories/inventoryItemFactory.js:88-98 | an explicit count greater than sellIn clamps sellIn to the floor (`minSellIn`, or 0 when absent or 0); an explicit count not greater than sellIn is subtracted exactly when sellIn is above the floor (possibly going below it), and sellIn stays put at or below the floor; with no count sellIn drops by exactly 1 when above the floor and stays put otherwise, so the floor is kept; with floor 0 and a non-negative count the result is never negative |
| InventoryItemFactory.DefaultDegradeAmount | modules/main/factories/inventoryItemFactory.js:106-112 | the default amount is the item's factor, doubled when sellIn is 0 |
| InventoryItemFactory.EnhanceValue | modules/main/factories/inventoryItemFactory.js:108-118 | with no `enhanceBy` hook the enhance value is 0, not null; with a hook it is the hook's value at the current sellIn |
| InventoryItemFactory.DirectiveAmount | modules/main/factories/inventoryItemFactory.js:127-129 | a relative directive multiplies its factor by the item's degradation factor (not doubled at sellIn 0); a non-relative one uses its factor verbatim; only a non-relative directive can give a null amount |
| InventoryItemFactory.ApplyValues | modules/main/factories/inventoryItemFactory.js:133-141 | both values non-null: quality unchanged and the conflict is logged; enhance only: quality grows by the enhance value; degrade only: quality drops by a numeric amount while it stays positive, else it becomes the floor; a null amount keeps quality; an undefined or NaN amount sends it to the floor |
| InventoryItemFactory.NextQuality | modules/main/factories/inventoryItemFactory.js:103-145 | quality at or below 0 is left unchanged; a TypeError happens exactly when quality is positive and the `degradeBy` hook returns undefined; a TypeError or a logged conflict leaves quality unchanged |
| InventoryItemFactory.NextState | modules/main/factories/inventoryItemFactory.js:84-87 | the new sellIn is NextSellIn of the old one; the new quality is NextQuality's at that advanced sellIn, so it is kept when it was at or below 0, and when the quality step throws or logs a conflict |
| InventoryItemFactory.InventoryItem.UpdateSellInValue | modules/main/factories/inventoryItemFactory.js:88-98 | the new sellIn is NextSellIn of the old one; quality is untouched; the new sellIn is returned |
| InventoryItemFactory.InventoryItem.UpdateQualityValue | modules/main/factories/inventoryItemFactory.js:103-145 | the new quality and the outcome are NextQuality of the settings, the current sellIn and the old quality; sellIn is untouched |
| InventoryItemFactory.InventoryItem.Update | modules/main/factories/inventoryItemFactory.js:84-87 | sellIn is advanced first; quality is then recomputed from the advanced sellIn |
| InventoryItemFactory.PinnedQualityIgnoresEnhance | modules/main/factories/inventoryItemFactory.js:120-125 | a `setQualityTo` directive, 0 included, sets quality to exactly that value whatever the enhance hook returns |
| InventoryItemFactory.ConflictLeavesQuality | modules/main/factories/inventoryItemFactory.js:133-134 | non-null enhance and degrade values leave quality unchanged and log the conflict |
| InventoryItemFactory.NoHooksMeansConflict | modules/main/factories/inventoryItemFactory.js:106-134 | an item with neither hook and positive quality always takes the conflict branch |
| InventoryItemFactory.DefaultDegradeBranch | modules/main/factories/inventoryItemFactory.js:106-141 | with a null enhance value and no degrade hook, quality drops by the factor (twice the factor at sellIn 0) if the result stays positive, else becomes `minQuality` (0 when absent or 0) |
| InventoryItemFactory.DirectiveDegradeBranch | modules/main/factories/inventoryItemFactory.js:120-141 | with a null enhance value, a numeric directive factor replaces the amount, multiplied by the item's factor when relative; same positive-or-floor result |
| InventoryItemFactory.NonNumericFactorBranch | modules/main/factories/inventoryItemFactory.js:120-141 | with a null enhance value, a directive factor of `null` keeps quality and one of `undefined` (or NaN) sends quality to `minQuality` (0 when absent or 0) |
| InventoryItemFactory.EnhancementIsUncapped | modules/main/factories/inventoryItemFactory.js:133-136 | enhancement adds the hook value exactly, with no cap |
| InventoryItemFactory.DoublingSeesAdvancedSellIn | modules/main/factories/inventoryItemFactory.js:84-112 | the update that takes sellIn from 1 to 0 already degrades at the doubled rate |
| InventoryItemFactory.DefaultDaysStopAtFloor | modules/main/factories/inventoryItemFactory.js:88-98 | after n default-day updates from at or above the floor, sellIn is max(floor, sellIn − n) |
| InventoryItemFactory.NonPositiveQualityIsFinal | modules/main/factories/inventoryItemFactory.js:103-145 | quality at or below 0 stays the same through any number of updates |
| InventoryItemFactory.QualityFrozenWithoutDegradeHook | modules/main/factories/inventoryItemFactory.js:103-145 | with no degrade hook and an enhance hook that never returns null (or none), quality never changes |
| JsValues.JsNumber.Times | modules/main/factories/inventoryItemFactory.js:128 | `x * k`: a number is multiplied, `null` gives 0, `undefined` and NaN give NaN |
| JsValues.JsNumber.SubtractedFrom | modules/main/factories/inventoryItemFactory.js:137-138 | `q - x`: a number is subtracted, `null` leaves q, `undefined` and NaN give NaN |
| InventoryFactory.AgedBrieEnhanceBy | modules/main/factories/inventoryFactory.js:8-10 | returns 1 whatever the sellIn |
| InventoryFactory.SulfurasEnhanceBy | modules/main/factories/inventoryFactory.js:19-21 | returns 0 whatever the sellIn |
| InventoryFactory.BackstagePassEnhanceBy | modules/main/factories/inventoryFactory.js:28-37 | returns 3 exactly when sellIn ≤ 5, 2 exactly when 6 ≤ sellIn ≤ 10, null exactly when sellIn > 10 |
| InventoryFactory.BackstagePassDegradeBy | modules/main/factories/inventoryFactory.js:38-46 | returns an object exactly when sellIn is 0, and that object sets quality to 0 |
| InventoryFactory.PresetConfig | modules/main/factories/inventoryFactory.js:5-57 | every preset has a non-blank string name; only Conjured Shield sets a degradation factor (2); only Sulfuras sets `minSellIn` (1); the two shields have no `qualityValue` block; none sets `minQuality` or the misspelt `qualityVaue` |
| InventoryFactory.InventoryOrder | modules/main/factories/inventoryFactory.js:59-65 | the constant `Inventory` (line 65) holds the five presets once each, in the order Aged Brie, Sulfuras, Backstage Pass, Conjured Shield, Regular Shield |
| InventoryFactory.CreateThrowsOnEveryPreset | modules/main/factories/inventoryFactory.js:59-63 | every preset name is valid, and `create` throws on every preset: at `qualityValue` for the two shields, at `qualityVaue` for the others |
| InventoryFactory.AgedBrieEnhancesByOne | modules/main/factories/inventoryFactory.js:5-12 | Aged Brie's enhance value is 1 at every sellIn |
| InventoryFactory.SulfurasEnhancesByZero | modules/main/factories/inventoryFactory.js:14-23 | Sulfuras's enhance value is 0 at every sellIn and its sellIn floor is 1 |
| InventoryFactory.BackstagePassEnhanceTable | modules/main/factories/inventoryFactory.js:28-37 | 3 for sellIn ≤ 5, 2 for 6 ≤ sellIn ≤ 10, null above 10 |
| InventoryFactory.BackstagePassDirectiveOnlyOnConcertDay | modules/main/factories/inventoryFactory.js:38-46 | the degrade hook returns an object exactly when sellIn is 0, and that object sets quality to 0 |
| InventoryFactory.BackstagePassWorthlessOnConcertDay | modules/main/factories/inventoryFactory.js:38-46 | the update that brings sellIn to 0 sets a positive quality to 0 |
| InventoryFactory.BackstagePassThrowsBeforeAndAfterConcert | modules/main/factories/inventoryFactory.js:38-46 | any other update with positive quality throws, after sellIn has moved and before quality changes |
| InventoryFactory.ConjuredDegradesTwiceAsFast | modules/main/factories/inventoryFactory.js:50-57 | Conjured Shield's default degrade amount is twice Regular Shield's at every sellIn |
| InventoryFactory.PresetQualityNeverChanges | modules/main/factories/inventoryFactory.js:5-57 | Aged Brie, Sulfuras and both shields keep their quality through any number of updates |
| InventoryFactory.SulfurasNeverReachesZero | modules/main/factories/inventoryFactory.js:14-23 | from sellIn ≥ 1, n updates leave Sulfuras at sellIn max(1, sellIn − n) with its quality unchanged |

## Left out

- `resetValues` and `randomNum` use `Math.random` and floating point. The constructor takes the seeded sellIn and quality as inputs instead, and no bound on them is claimed. As written, `randomNum(min, max)` gives values up to max + 1. `MAX_QUALITY_VALUE` and `MAX_SELL_IN_VALUE` are used only there.
- `$log.error` is not modelled as output. It appears as the `NullForBadName` outcome of `Create` and the `ConflictLogged` outcome of a quality update.
- `isFunction` reflection: a hook is present (`Some`) or absent (`None`). A non-function value in a hook position is not modelled.
- Angular module registration and dependency injection, in both factory files.
- The controller in `modules/main/controllers/gildedRoseCtrl.js` only loops over the inventory calling `update()` or `resetValues()`. `AfterDays` models repeated `update()` calls on one item.
- SettingsOf: reads both hooks from `qualityValue` and treats a missing block as no hooks. As written, line 73 throws on a missing block and line 74 reads `degradeBy` from the misspelt `qualityVaue`; `Create` models that. No item could otherwise exist to apply the engine to.
- InventoryItemFactory.InventoryItem.constructor: builds the item `create` lays out, with the hooks of SettingsOf. As written, `create` never returns this item.
- Hooks are called as methods, with `this` bound to the item (lines 117 and 121). They are modelled as pure functions of sellIn (`int -> Option<...>`), so a hook that reads or changes the item's fields is not modelled; every preset hook ignores `this`.
- JavaScript numbers are IEEE doubles; the model uses unbounded integers, so precision loss above 2^53 (and fractional values) is not modelled.
- `numOfDays` is either a number or omitted (`undefined`). An explicit `null` compares as 0 in `null > sellIn`; that is not modelled.
- Values outside integers, `null` and `undefined` are not modelled. This covers fractional numbers and strings in numeric fields, and non-boolean `isRelative` values (other than absent, which is false). String objects and string primitives are both treated as strings.
- `isLegendary` on the Sulfuras configuration is read by nothing and is not modelled.
- The inventory list is modelled as the list of presets. As written it is never built, because the first `create` call throws (`CreateThrowsOnEveryPreset`).

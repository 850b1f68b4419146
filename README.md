# Cookie Tycoon economy engine, in Dafny

This project models the economy engine of the Cookie Tycoon clicker game and proves
properties of it. It covers:

- the `cookies` balance and the ordered list of `Upgrade` records kept by the `App` component;
- the derived rates: cookies per second and cookies per click;
- the tick, the click and the purchase;
- the cost growth rule: price = floor(baseCost * 1.15^owned);
- the all-time total of cookies earned;
- saving, and the load that merges saved entries over the catalog;
- the 14-entry upgrade catalog and its constants;
- the tier and suffix selection of the number formatter.

Layout, one module per file:

- `numeric.dfy` (`Numeric`): `Math.abs` and `Math.pow` over exact reals.
- `types.dfy` (`Types`): the records of `types.ts`, and the id lookup that `find` performs.
- `constants.dfy` (`Constants`): the constants and `INITIAL_UPGRADES`.
- `formatters.dfy` (`Formatters`): `formatNumber`, as a method with its loop, and the floor step of `formatNumberExact`.
- `economy.dfy` (`Economy`): pure functions for the initial list, the rates, the cost rule, the purchase updater and the all-time total, with lemmas about them.
- `persistence.dfy` (`Persistence`): the save payload and the load merge.
- `app.dfy` (`App`): class `Game`. Its fields `balance` and `upgrades` are the two pieces of React state. Its methods are the callbacks that replace that state.

The arithmetic is exact. The source runs on IEEE doubles, so results can differ. For example,
`Math.floor(100 * 1.15)` is 114 in JavaScript but 115 here.

Where the program's own comments and its code disagree, the model follows the code:

- The load merge only maps and then calls `.filter(Boolean)`. The filter never removes
  anything, because `{...template, ...savedUpg}` is always an object, and objects are truthy.
  So saved entries whose id the catalog no longer has are kept (`Persistence.StaleEntryKept`),
  and catalog entries missing from the save are not added back
  (`Persistence.MergeDoesNotRestoreMissing`). The comment at `App.tsx:56` says only that the
  filter removes upgrades that no longer exist in `INITIAL_UPGRADES`.
- `Persistence.Reconcile` is a reconciling merge of this model's own design, kept apart from
  the load. It drops stale ids, which is what that comment promises. It also brings back
  missing catalog entries fresh and follows catalog order; those two parts are the model's
  choice and no comment asks for them. Nothing else in the model uses it.
- The formatter stops at tier `units.length - 1 = 10`. So its largest suffix is `"No"`, and
  `"Dc"` is never chosen.
- A tick credits the nominal interval, one second's worth of `cookiesPerSecond`. The actual
  elapsed time is not measured.

## Model

| member | source | states |
|---|---|---|
| `Types.FindIndex` | App.tsx:107 | gives the index of the first entry with the id, no earlier entry has it, and gives None exactly when no entry has it |
| `Numeric.Abs` | utils/formatters.ts:3 | `Math.abs`: never negative; `TierZeroIffSmall` and `FormatNumber` state the formatter's guards in terms of it |
| `Numeric.Pow` | App.tsx:117 | `Math.pow` with a natural exponent: positive for a positive base and at least 1 for a base of at least 1; `CostNeverDecreases` and `ScaleIsDivision` build on it |
| `Constants.InitialUpgrades` | constants.ts:7-136 | the catalog has 14 entries with pairwise distinct ids, and every base cost and base effect value is strictly positive |
| `Constants.CatalogPricesWhole` | constants.ts:13-131 | every base cost is a whole number, so a fresh price floor(baseCost * 1.15^0) equals baseCost |
| `Constants.CatalogPartition` | constants.ts:8-135 | entries 1-7 are 'cps' and entries 8-14 are 'click'; no other effect type occurs |
| `Constants.ClassIsStrictlyIncreasing` | constants.ts:9-135 | within each effect class, any earlier entry is strictly cheaper and strictly weaker than any later one |
| `Constants.TickIsOneSecond` | constants.ts:3-5 | GAME_TICK_INTERVAL / 1000 is exactly 1, the growth factor exceeds 1, and the click reward is 1 |
| `Formatters.FormatNumber` | utils/formatters.ts:2-14 | below magnitude 1000 the number is left unscaled; otherwise the tier is between 1 and 10, the value is the number divided by 1000 that many times, the suffix is units[tier-1] (never empty, never "Dc"), and below tier 10 the value's magnitude is in [1, 1000) |
| `Formatters.TierFrom` | utils/formatters.ts:9-12 | the loop stops at a tier between its start and 10, and it advances at least once when the magnitude is at least 1000 and the tier is below 10 |
| `Formatters.TierZeroIffSmall` | utils/formatters.ts:3-5 | no division happens exactly when the magnitude is below 1000 |
| `Formatters.TierMonotone` | utils/formatters.ts:9-12 | a larger magnitude never gets a smaller tier |
| `Formatters.ScaleIsDivision` | utils/formatters.ts:8-11 | the loop's scaled value times 1000^i gives back the number, and it has the sign of the number |
| `Formatters.SuffixNeverEmptyNorDc` | utils/formatters.ts:6-13 | every suffix the loop can pick is non-empty and differs from "Dc", so for every real number the empty-string fallback is never used |
| `Formatters.Tier` | utils/formatters.ts:7-12 | how many times the loop divides by 1000; `TierZeroIffSmall`, `TierMonotone` and the contract of `TierFrom` state that it is 0 exactly below 1000, at most 10, and monotone in the magnitude |
| `Formatters.Scale` | utils/formatters.ts:8-11 | the loop's value after i divisions; `ScaleIsDivision` states that it times 1000^i is the number and that it keeps the number's sign |
| `Formatters.FloorForExact` | utils/formatters.ts:16-18 | formatNumberExact renders an integer not above the number and greater than the number minus 1 |
| `Economy.Instantiate` | App.tsx:12-16 | one catalog entry as the game first holds it; `InitialStateConsistent` states that it keeps every template field, with owned 0 and price equal to base cost |
| `Economy.FreshUpgrades` | App.tsx:11-17 | the initial list; `InitialStateConsistent` states what it holds and `FreshRates` and `FreshTotalIsBalance` what it earns |
| `Economy.InitialStateConsistent` | App.tsx:10-17 | the initial list holds every catalog entry once, in catalog order, with the template's base cost, effect type and base effect value, owned 0 and price equal to base cost; with balance 0 it satisfies the engine invariant |
| `Economy.CostAt` | App.tsx:117 | the price after n units, floor(baseCost * 1.15^n); `CostNeverDecreases` states that it never falls as n grows and `CatalogPricesWhole` that it is the base cost at n = 0 |
| `Economy.CostNeverDecreases` | App.tsx:117 | with a non-negative base cost, the price for n+1 owned is at least the price for n |
| `Economy.CookiesPerSecond` | App.tsx:21-25 | the per-second rate, the summed effect of the 'cps' entries; `RatesPartitionEffects`, `RatesBounded`, `FreshRates` and `PurchaseRaisesOneRate` state its meaning |
| `Economy.CookiesPerClick` | App.tsx:27-32 | the click reward plus the summed effect of the 'click' entries; the same lemmas as for `CookiesPerSecond` state its meaning |
| `Economy.Filter` | App.tsx:23 | the entries of one effect type, in list order; `FilterConcat` and `FilterOfOne` state that it distributes over concatenation and keeps exactly the entries of that type |
| `Economy.TotalEffect` | App.tsx:24 | the reduce's sum of owned * baseEffectValue; `TotalEffectConcat` states that it adds over concatenation and `TotalEffectByClass` that the two filtered sums make up the whole |
| `Economy.RatesPartitionEffects` | App.tsx:21-32 | cookies per second plus cookies per click is 1 plus the summed effect of all entries, so each entry counts toward exactly one rate |
| `Economy.RatesBounded` | App.tsx:21-32 | with non-negative effect values, cookies per second is at least 0 and cookies per click is at least the click reward |
| `Economy.FreshRates` | App.tsx:21-32 | a fresh list yields 0 cookies per second and exactly the click reward per click |
| `Economy.EffectPointUpdate` | App.tsx:22-30 | replacing one entry changes a rate by the new entry's share minus the old entry's share |
| `Economy.Bought` | App.tsx:114-118 | the entry after one more unit is bought; `PurchaseUpdatesOnlyTarget` states that only owned (one more) and the price (for the new count) change, and `BoughtContribution` that its class's rate rises by its effect value |
| `Economy.Affordable` | App.tsx:107-108 | the guard of a purchase: the id is found and the balance covers its price; `App.Game.Purchase` states that a purchase happens exactly when it holds |
| `Economy.ApplyPurchase` | App.tsx:111-121 | the list updater of a purchase; `PurchaseFrame`, `PurchaseUpdatesOnlyTarget`, `PurchasePreservesConsistency`, `PurchaseRaisesOneRate` and `PurchaseKeepsTotalEarned` state what it changes and keeps |
| `Economy.PurchaseFrame` | App.tsx:111-121 | a purchase keeps length, order and ids, leaves entries with other ids unchanged, adds one to owned for every entry with the id, and never lowers an owned count |
| `Economy.PurchaseUpdatesOnlyTarget` | App.tsx:111-121 | with distinct ids, the purchase changes only the entry `find` returned: owned goes up by 1 and the price becomes floor(baseCost * 1.15^(owned+1)); all its other fields are kept |
| `Economy.PurchasePreservesConsistency` | App.tsx:106-122 | an affordable purchase takes a consistent state to a consistent one: the balance stays non-negative, ids stay distinct, and price = floor(baseCost * 1.15^owned) keeps holding |
| `Economy.PurchaseRaisesOneRate` | App.tsx:21-32 | buying a 'cps' upgrade raises cookies per second by its effect value and leaves cookies per click unchanged; buying a 'click' upgrade does the converse |
| `Economy.PastCosts` | App.tsx:130-132 | the inner loop's sum, the prices of the first n units; `App.Game.TotalCookiesEarnedAllTime` proves that loop equal to it |
| `Economy.Spent` | App.tsx:125-134 | the outer reduce's sum over the list; `SpentPointUpdate` states how it changes when one entry is replaced |
| `Economy.TotalEarned` | App.tsx:124-136 | the all-time total, balance plus spent; `PurchaseKeepsTotalEarned` and `FreshTotalIsBalance` state its meaning |
| `Economy.SpentPointUpdate` | App.tsx:125-134 | replacing one entry changes the spent sum by the new entry's past costs minus the old entry's |
| `Economy.PurchaseKeepsTotalEarned` | App.tsx:124-136 | when the target's price follows the growth rule, a successful purchase leaves the all-time total unchanged |
| `Economy.FreshTotalIsBalance` | App.tsx:124-136 | with nothing owned, the all-time total is the balance |
| `Economy.CursorScenario` | App.tsx:106-122 | from balance 15 on a fresh list, buying the cursor is affordable, leaves 0 cookies and one cursor owned, and prices the next cursor at 17; `App.CursorScenarioOnGame` plays the same purchase through `App.Game.Purchase` |
| `Economy.ClickScenario` | App.tsx:27-32 | a fresh list yields 1 per click, and after buying one reinforcedFinger it yields 2 |
| `Persistence.MergeEntry` | App.tsx:51-55 | one spread `{...template, ...savedUpg}`; `MergeShape` states which fields come from where |
| `Persistence.MergeAll` | App.tsx:50-56 | the map and the no-op filter; `MergeShape`, `MergeDoesNotRestoreMissing` and `StaleEntryKept` state what it keeps |
| `Persistence.Spread` | App.tsx:52-55 | one field of `{...template, ...savedUpg}`; `MergeShape` states that a saved value wins and a missing one is the template's |
| `Persistence.MergeShape` | App.tsx:50-56 | the merge yields one entry per saved entry, with the same ids in saved order; saved fields win; missing fields come from the template with the same id; an entry with an unknown id is kept unchanged |
| `Persistence.MergeDoesNotRestoreMissing` | App.tsx:50-57 | a catalog id the save does not mention is not in the merged list |
| `Persistence.Complete` | App.tsx:57 | an entry becomes an upgrade record only when every field is present, and that record saves back to the entry |
| `Persistence.CompleteAll` | App.tsx:57 | the list becomes records exactly when every merged entry is complete, and the records then save back to the merged entries |
| `Persistence.Saved` | App.tsx:74 | `JSON.stringify` of one record, every field written; `SavedMergesToItself` states that the merge gives it back unchanged and `Complete` that it completes back to the record |
| `Persistence.SaveUpgrades` | App.tsx:74 | the written list, one entry per record in list order; `CompleteSaved` states that it completes back to the list it came from |
| `Persistence.SaveGame` | App.tsx:73-74 | the payload written under the two keys; `SaveLoadRoundTrip` states that loading it gives back the state |
| `Persistence.LoadedBalance` | App.tsx:36-40 | the balance after load; `App.Game.Load` and `SaveLoadRoundTrip` state its cases |
| `Persistence.LoadedUpgrades` | App.tsx:37-66 | the upgrades after load; `SaveLoadRoundTrip`, `StaleEntryKept`, `PartialEntryResetsList` and `App.Game.Load` state its cases |
| `Persistence.PartialEntryResetsList` | App.tsx:50-57 | a catalog id saved without its count makes the whole loaded list the fresh one, the complete grandma entry included |
| `Persistence.SaveLoadRoundTrip` | App.tsx:36-74 | loading what save wrote gives back the balance and the whole upgrade list, whatever the current state and the catalog |
| `Persistence.StaleEntryKept` | App.tsx:50-57 | a saved upgrade whose id is not in the catalog survives the load, so the loaded list has 15 entries, not 14 |
| `Persistence.Reconcile` | App.tsx:56 | the reconciling merge of this model's own design, kept apart from the load; `ReconcileFollowsCatalog` states what it yields |
| `Persistence.ReconcileFollowsCatalog` | App.tsx:56 | the reconciling merge drops every saved id the catalog lacks, as this comment says the filter does; beyond the comment, it yields the catalog's ids in catalog order, brings back missing catalog entries fresh, and keeps saved counts and prices |
| `App.Game.constructor` | App.tsx:10-17 | the game starts with 0 cookies and the fresh catalog list, and satisfies the invariant |
| `App.Game.Tick` | App.tsx:83-85 | a tick adds exactly cookies per second times GAME_TICK_INTERVAL / 1000, which is one second's worth; upgrades are unchanged and the invariant is kept |
| `App.Game.Click` | App.tsx:89-91 | a click adds exactly cookies per click, returns what it added, and leaves upgrades unchanged |
| `App.Game.Purchase` | App.tsx:106-122 | with an unknown id or a short balance nothing changes; otherwise the old price is charged and the list is updated; the balance never goes negative; the invariant and the all-time total are kept |
| `App.Game.TotalCookiesEarnedAllTime` | App.tsx:124-136 | the nested loops return the balance plus the sum, over all upgrades, of floor(baseCost * 1.15^i) for every i below owned |
| `App.Game.Save` | App.tsx:72-76 | the payload holds the balance and the full records; loading it gives back both |
| `App.Game.Load` | App.tsx:35-68 | the balance is taken from the cookies key when it has a value and is kept otherwise, whatever happens to the upgrades; a missing upgrades key keeps the upgrades; a parse failure resets them to the fresh list; otherwise they become the merged list |

## Left out

- The presentation layer:
  - the components `CookieDisplay`, `UpgradeCard`, `FloatingNumber` and `StatsDisplay`;
  - the JSX at `App.tsx:138-194`;
  - the floating-number feedback at `App.tsx:92-104`, whose ids come from `Date.now()` and `Math.random()`.
- The display-only fields `name`, `icon` and `description` of `Upgrade` and of the catalog. They take no part in the economy, and the merge handles them like any other template field.
- Timers and React machinery: `setInterval`/`clearInterval`, the 5-second save cadence, and `lastSaveTime`. Each callback is modelled as one atomic step. This abstracts away the stale-closure gap between the guard and the update in `handleBuyUpgrade`.
- `localStorage`, `JSON.parse`, `JSON.stringify`, `parseFloat` and `toString` are abstract.
  - A save is the record itself.
  - The cookies key is an optional real. A `NaN` from `parseFloat` is not represented.
  - The upgrades key is absent, unparsable, or a list of entries. Each entry is an id plus optional fields.
  - `null` values, non-integer or negative counts, and effect types other than 'cps' and 'click' are not represented.
- `App.Game.Load`: a merged entry can still lack a field. The template never supplies `owned` or `currentCost`, so this happens for a catalog id saved without one of those two. It also happens for an unknown id saved without one of its fields, since spreading `undefined` adds nothing and the saved object is copied as it is. The source then stores every merged object, the partial one with `undefined` fields whose arithmetic yields `NaN`. The model cannot represent such a record, so it falls back to the fresh list for the whole load, and the complete entries of that save are lost too (`Persistence.PartialEntryResetsList`).
- `Persistence.Complete`: the cast `as Upgrade[]` at `App.tsx:57` is a type assertion that checks nothing and keeps every merged object. This stand-in builds a record only from an entry with every field and gives None for a partial one.
- `Persistence.CompleteAll`: where one merged entry is partial, it gives None for the whole list, while the source keeps every object.
- `Persistence.LoadedUpgrades`: on that None it returns the fresh list, where the source stores the merged objects as they are.
- The `console.error` call on a parse failure (`App.tsx:59`) is output only; the model keeps just the fallback to the fresh list.
- `Economy.CostAt`: computed over exact rationals. JavaScript's double `Math.pow` and `Math.floor` can differ; see the example above. Concrete costs are stated only where the exact product is not an integer (15 * 1.15 = 17.25).
- Rates and totals are exact real sums. The source's double sums depend on the order of the reduce; these do not.
- The string rendering of the formatter: `toFixed(0)`, `toFixed(1)` and `toLocaleString`. Only the tier, the suffix and the scaled value are modelled.
- `Formatters.FormatNumber` on `NaN`: over reals there is no NaN. In the source, `NaN` fails `Math.abs(num) < 1000` and the loop guard, so it returns through `units[-1] || ''` with the empty suffix. A `NaN` balance can arise after a load that stored a partial entry.
- Accrual by measured elapsed time is not in the source, so no elapsed-time accrual or additivity of accrual is modelled.

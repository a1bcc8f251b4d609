# Coin melt-value page, modelled in Dafny

The page lists gold and silver coins from a bundled catalog and shows each
coin's melt value: the fine metal it contains, times the number held, times
the live spot price per gram. The number held is edited per row and kept in
the browser's storage under the key `"<metal>::<name>"`. The two spot prices
per troy ounce are fetched on start-up and on demand, and the price per gram
is derived from them with 31.1034768 grams per troy ounce.

The model covers the page's bookkeeping and valuation in `app.js`:

- `quantity.dfy` (module `Quantity`): a quantity as a JavaScript number
  (finite or not), JavaScript's `parseInt(…, 10)`, and the normalisation the
  quantity input applies (`Math.max(0, parseInt(value || "0", 10))`).
- `keys.dfy` (module `Keys`): the coin key and its inverse for the two metals.
- `store.dfy` (module `Store`): the stored quantity map at the level of the
  JSON value its text parses to, `loadQtyMap`, `saveQtyMap` and the input
  handler's load-set-save write-back.
- `coins.dfy` (module `Coins`): catalog entries, coins, and the quantity
  overlay `loadCoins` applies.
- `valuation.dfy` (module `Valuation`): the `spot` record, the melt value and
  the null-or-amount display rule.
- `presentation.dfy` (module `Presentation`): a render pass as a value, with
  the silver table, the gold table and the header prices.
- `page.dfy` (module `Page`): class `PriceTracker` holding the coin list, the
  `spot` record and the store, with `loadCoins`, the input handler,
  `refreshPrices` and `main` as methods whose contracts say what changes.

Three facts about `app.js` that the model keeps:

- `refreshPrices` awaits the gold price before it requests the silver price,
  and no field of `spot` changes unless both succeed.
- Text without leading digits (".5", "abc") normalises to NaN, not 0. A NaN
  quantity is shown and valued as 1, and it is saved as `null`, which reads
  back as 1.
- The stored map can therefore hold `null` as well as finite numbers.

## Model

| member | source | states |
|---|---|---|
| `Quantity.EffectiveQty` | app.js:66 | a finite quantity is used as it is, and anything else as 1 |
| `Quantity.TrimStart` | app.js:106 | `parseInt` drops exactly the leading run of white space: the result is a suffix of the input, everything removed is white space, and the result does not start with white space |
| `Quantity.DigitRun` | app.js:106 | `parseInt` reads the longest run of decimal digits: every character in the run is a digit and the next one is not |
| `Quantity.ParseInt` | app.js:106 | no contract of its own: `Quantity.ParseIntShape` states what `parseInt(…, 10)` gives for every input |
| `Quantity.NormalizeQty` | app.js:106 | a normalised quantity is either NaN or a non-negative whole number |
| `Quantity.ParseIntShape` | app.js:106 | for every input split as white space, sign, digits and a non-digit rest, `parseInt` gives the signed value of the digits, and NaN exactly when there are no digits |
| `Quantity.NormalizeDecimal` | app.js:106 | the decimal spelling of any count reads back as that count, whatever white space precedes it and whatever non-digit text follows it ("3.9" gives 3, "2abc" gives 2) |
| `Quantity.NormalizeNegative` | app.js:106 | a negative entry is clamped to 0 |
| `Quantity.NormalizeNoDigits` | app.js:106 | non-empty text with no digit after the white space and the sign normalises to NaN, not 0 |
| `Quantity.NormalizeZeroExamples` | app.js:106 | the empty field gives 0 and "-4" gives 0 |
| `Quantity.NormalizeFractionExample` | app.js:106 | "3.9" gives 3 |
| `Quantity.NormalizeSuffixExample` | app.js:106 | "2abc" gives 2 |
| `Quantity.NormalizeSpaceExample` | app.js:106 | " 12" gives 12 |
| `Quantity.NormalizeNaNExamples` | app.js:106 | "abc" and "-" give NaN |
| `Keys.CoinKey` | app.js:26-28 | the key is the metal, then "::", then the name; `Keys.KeyRoundTrip` and `Keys.KeyInjective` show that it identifies a gold or silver coin |
| `Keys.KeyRoundTrip` | app.js:26-28 | for a gold or silver coin the key splits back into exactly its metal and name |
| `Keys.KeyInjective` | app.js:26-28 | two gold-or-silver coins share a key if and only if they share metal and name |
| `Keys.KeyCollidesForOtherMetals` | app.js:26-28 | for other metal strings the key is not injective: ("a::b", "c") and ("a", "b::c") collide |
| `Store.Save` | app.js:21-23 | the saved value is a JSON object that loads back as the saved map |
| `Store.LoadQtyMap` | app.js:13-19 | the loaded map is either empty or exactly the map whose object the store holds |
| `Store.SaveLoadRoundTrip` | app.js:13-23 | a saved map loads back unchanged |
| `Store.UnusableStoreLoadsEmpty` | app.js:13-19 | a missing, unparseable or non-object store loads as the empty map |
| `Store.StoreAfterEdit` | app.js:112-114 | the write-back sets the edited key to the new quantity, adds no other key, and leaves every other key's value unchanged |
| `Store.LoadQtyMapAsWritten` | app.js:13-19 | as written, the load yields `null` exactly when the store holds `null`, and otherwise the same map as the corrected load |
| `Store.StoreAfterEditAsWritten` | app.js:112-114 | as written, the write-back leaves a `null` or non-object store as it was, and otherwise agrees with the corrected write-back |
| `Store.EditLostOnNonObjectStore` | app.js:112-114 | as written, a store that holds `null` or a non-object value is left as it was by an edit; the corrected write-back saves the edited quantity |
| `Store.EditAgreesOnUsableStore` | app.js:112-114 | on a missing, unparseable or object store the written and corrected write-backs are the same |
| `Coins.Overlay` | app.js:63-67 | the loaded list keeps the catalog's length, order, names, metals and fine grams, and each quantity is the stored value under the coin's key when finite, else 1 |
| `Coins.UnusableStoreGivesOne` | app.js:63-67 | with a missing, corrupt or non-object store every coin loads with quantity 1 |
| `Coins.SharedKeySharesQty` | app.js:63-67 | coins with the same metal and name load with the same quantity |
| `Coins.EditThenReload` | app.js:63-67 | after an edit stores q under a key, a reload gives every coin with that key q's effective value and every other coin its previous quantity |
| `Coins.OverlayAsWritten` | app.js:63-67 | as written, `loadCoins` fails exactly when the store holds `null` and the catalog is not empty, and otherwise gives the corrected overlay |
| `Coins.NullStoreAbortsLoad` | app.js:13-19 | as written, a stored `null` makes `loadCoins` throw for a non-empty catalog; the corrected load gives quantity 1 |
| `Coins.EditLostAcrossReload` | app.js:112-114 | as written, an edit on a `null` store is not saved and the next load fails again, and an edit on a non-object store is not saved and the next load shows 1; the corrected write-back and load show the edited quantity |
| `Coins.OverlayAgreesOffNull` | app.js:63-67 | on every store other than `null` the written and corrected loads agree |
| `Valuation.Quote` | app.js:142-146 | a refreshed metal holds the fetched price per troy ounce and a price per gram that times 31.1034768 is that price |
| `Valuation.PerGramFor` | app.js:79 | only gold and silver have a price per gram, each read from its own metal's entry of `spot` |
| `Valuation.Melt` | app.js:79-84 | melt is null exactly when the metal has no price per gram, and 0 at quantity 0; `Valuation.MeltOfQuote` gives its amount |
| `Valuation.Money` | app.js:35-38 | null prints as the dash and every amount prints as itself |
| `Valuation.MeltNullIffUnpriced` | app.js:79-84 | melt is null exactly when the metal has no price per gram, and a null melt prints as the dash, never as 0 |
| `Valuation.UnpricedHasNoMelt` | app.js:30-33 | before the first refresh every melt prints as the dash |
| `Valuation.OtherMetalNeverValued` | app.js:79 | a coin of a metal other than gold or silver never has a melt value |
| `Valuation.MeltOfQuote` | app.js:82-83 | with a quoted metal, melt is fine grams times effective quantity times price per troy ounce over 31.1034768 |
| `Valuation.MeltOfQuotes` | app.js:138-146 | after a successful refresh each gold or silver coin is valued at its own metal's fetched price |
| `Valuation.MeltScalesWithQty` | app.js:81-83 | with a known price, a coin's melt at quantity k is k times its melt at quantity 1 |
| `Presentation.FilterMetal` | app.js:124-130 | a metal's table is no longer than the list and holds only coins of that metal |
| `Presentation.MakeRow` | app.js:78-101 | a row shows the coin's name, fine grams and effective quantity, carries the coin's key, and shows the dash for melt exactly when the metal has no price per gram |
| `Presentation.Rows` | app.js:124-130 | one row per listed coin, in order, each built by `makeRow` |
| `Presentation.Render` | app.js:124-135 | the silver table and then the gold table hold one `makeRow` row per coin of that metal, in order, and each header price shows the dash exactly when it is null |
| `Presentation.FilterAppend` | app.js:124-130 | the tables keep catalog order: filtering distributes over concatenation |
| `Presentation.FilterMembership` | app.js:124-130 | a coin is in a metal's table exactly when it is in the list with that metal |
| `Presentation.PartitionCount` | app.js:124-130 | the two tables together are never longer than the list, and are exactly as long when every coin is gold or silver |
| `Presentation.RenderUnpriced` | app.js:132-135 | with no prices every melt cell and every header price shows the dash |
| `Presentation.RowsOfQuotedMetal` | app.js:100 | each row of a quoted metal shows fine grams times quantity times price per troy ounce over 31.1034768 |
| `Presentation.RenderPriced` | app.js:124-135 | after a successful refresh every row shows its melt amount and the headers show each metal's price per troy ounce and per gram |
| `Page.PriceTracker.constructor` | app.js:30-33 | the page starts with no coins, both metals unpriced, and the store left by earlier sessions |
| `Page.PriceTracker.LoadCoins` | app.js:58-68 | a failed catalog fetch propagates and changes nothing; otherwise the overlaid list replaces the coins, the store is only read, and every coin shows what a reload would give |
| `Page.PriceTracker.EditQty` | app.js:105-118 | the edited coin alone takes the normalised quantity, the store changes in exactly that coin's key, and when the key is unique the page stays in step with the store |
| `Page.PriceTracker.RefreshPrices` | app.js:138-146 | a failure of either fetch propagates and leaves `spot` unchanged; success sets both metals from the fetched prices |
| `Page.PriceTracker.Start` | app.js:152-168 | start-up loads the catalog and then refreshes; a load failure stops it with no prices fetched, and a refresh failure leaves `spot` as it was; the error returned, which `main` alerts, is the first fetch that failed |
| `Page.EditSurvivesReload` | app.js:112-114 | after an edit, a reload gives the edited coin, and every coin with its metal and name, the effective normalised quantity |
| `Page.EditOfCountSurvivesReload` | app.js:105-118 | typing a count's decimal spelling and reloading restores exactly that count |

## Findings

| source | as written | input that shows it | evidently intended | confidence | as-written member | corrected member |
|---|---|---|---|---|---|---|
| app.js:13-19, app.js:63-67 | `loadQtyMap` returns whatever `JSON.parse` yields, and `loadCoins` indexes it with `qtyMap[coinKey(c)]` | stored text `null` with a non-empty catalog: the lookup throws a TypeError, `loadCoins` and so start-up fail | an unusable store reads as the empty map and every coin gets quantity 1 | medium, not executed | `Coins.NullStoreAbortsLoad` | `Coins.UnusableStoreGivesOne` |
| app.js:112-114 | the handler assigns `qtyMap[coinKey(c)] = newQty` on the unchecked parse result and saves it | stored text `5`: the assignment is dropped, `5` is saved again and a reload shows quantity 1. Stored text `null`: the assignment throws before saving, and the next load fails as in the row above | the edit is saved into a fresh map and a reload shows it | medium, not executed | `Coins.EditLostAcrossReload` | `Coins.EditThenReload` |

The class `Page.PriceTracker` uses the corrected load and write-back.

## Left out

- Fetching: `fetch`, the status check, `res.json()`, the `typeof data.price` check in `fetchSpot` and the endpoint URLs (app.js:46-61) are network I/O. A fetch enters the model only as an outcome: a price or catalog, or a failure message.
- Storage and JSON: `localStorage`, `JSON.parse` and `JSON.stringify` are replaced by the `Stored` value. Map values are reduced to "finite number" or "not a finite number". A stored number that is not an integer, or negative, is kept as a real number, as the code would use it.
- Catalog fields beyond name, metal and fine grams, and entries whose fine grams are missing or not numbers, are not modelled.
- `Intl.NumberFormat`, the currency selector and `toFixed` (app.js:35-43) are locale and floating-point formatting. Only the null/NaN-to-dash rule is kept, in `Display`.
- DOM building, `innerHTML`, event wiring, the re-render after each change, the last-updated timestamp, `alert` and `console` are UI plumbing. `Presentation.Render` gives what a render pass would show for a given coin list and `spot`.
- Floating point: prices, grams and quantities are real numbers. Rounding of the division and multiplications is not modelled. Neither is `parseInt` overflowing to Infinity on very long digit strings.
- Strings are sequences of Unicode scalar values, not UTF-16 code units. The browser's cleaning of a number input's value is not modelled: the handler accepts any text.
- Overlapping refreshes racing on `spot` are concurrency and are not modelled. Each refresh runs to completion on its own.

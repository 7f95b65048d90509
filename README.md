# Irisun TV screen: pricing and quote engine

This project models the pricing core of the Irisun precious-metals TV screen
in Dafny. The core has three parts.

- **Catalog reconciler** (`organizeAndSortCommodities`). It indexes the
  merchant's commodity list by key, with the last entry for a key winning.
  It then emits the six required rows (gold 9999, 880, 875, 775, 750 and the
  silver kilobar) in their fixed order. Each row is the supplied entry with
  the required row's label forced on, or the required row itself when no
  entry has that key.
- **Price formula**. It routes a metal to the gold or silver spot record,
  turns a purity token into a fraction, applies the weight-class multiplier,
  and computes the buy and sell prices of a row. It also builds the row's
  display text.
- **Quote store**. This is the `market-data` handler of the TV screen. It
  merges each feed message over the stored record for its symbol, sets
  `bidChanged` to "up", "down" or null, and ignores messages that have no
  symbol.

Modules, one per file:

- `Wrappers`: `Option` and `Result`.
- `Text`: ASCII case mapping.
- `Commodities`: the commodity record and the six required rows.
- `Catalog`: the reconciler.
- `Pricing`: routing, purity, multipliers and the price formula.
- `Display`: the row text.
- `Table`: the priced rows.
- `MarketData`: the quote store.

Numbers are Dafny `real`, which is exact rational arithmetic standing in for
JavaScript doubles. A field that a JavaScript record lacks is `None`. A
missing `purity` or `weight` is the text "undefined". This is what the
template literals and the multiplier lookup produce for it, so the model
behaves the same. The `label` field is called `labelText`, because `label`
is a reserved word in Dafny.

`Catalog.Reconcile` keeps the source's form: a loop fills the lookup map in
place, and then a pure merge runs over the required rows. Its contract ties
the result to the ghost specification `Catalog.ReconcileOf`, and the lemmas
state their properties about that specification. The quote store is a pure
updater, `MarketData.ApplyUpdate`. The class `MarketData.MarketFeed` holds
the component state that `setMarketData` replaces on each event.

Four behaviours of the code are easy to miss:

- A supplied entry without a `metal` makes `.toLowerCase()` throw, so the
  reconciler does not always return rows. The model returns `Failure(j)` for
  the first such entry `j` (`Catalog.ReconcileFailure`).
- A feed message with a symbol but no bid is not rejected. Its fields are
  merged. For a symbol that already has a numeric bid, the flag becomes
  "down" even though the stored bid is unchanged, because `undefined > y` is
  false (`MarketData.MissingBidReadsAsDown`).
- Gold 9999 sold per gram, with no premiums or charges, priced from a bid of
  2000 and an ask of 2005, comes to about 236.22 buy and 236.81 sell
  (`Pricing.PriceExample`).
- Besides silver sold by "KG", a silver entry whose purity is the text
  "kilobar" also gets the key `silver-kilobar` (`Catalog.KeyMatchesDefault`).

## Model

| member | source | states |
|---|---|---|
| Catalog.KeyOf | src/components/CommodityTable.jsx:147-155 | an entry has a key exactly when it has a metal; a missing metal is where the source throws |
| Catalog.KeyMatchesDefault | src/components/CommodityTable.jsx:148-155 | an entry's key is required row i's id iff its lower-cased metal is gold and its purity is exactly row i's purity, or, for the kilobar row, its metal is silver and its weight is "KG" (any purity) or its purity is "kilobar"; purity is not case-folded |
| Catalog.Index | src/components/CommodityTable.jsx:144-157 | the table the `forEach` builds: on failure an index of an entry without a metal, on success every entry stored under its own key |
| Catalog.Pick | src/components/CommodityTable.jsx:160-174 | an output row always carries the required row's label; every other field is the stored entry's when the table holds the row's id, and otherwise the row is the required row unchanged |
| Catalog.Merge | src/components/CommodityTable.jsx:160-174 | six rows in the required order, each with its required label, and row i differs from required row i only when the table holds row i's id |
| Catalog.ReconcileOf | src/components/CommodityTable.jsx:69-177 | the reconciler fails iff some entry lacks a metal, at the first one; otherwise it gives six rows with the required labels |
| Catalog.Reconcile | src/components/CommodityTable.jsx:69-177 | the loop that fills the lookup map, then the merge, computes exactly the reconciled list: six rows on success, and on failure an index of an entry without a metal |
| Catalog.IndexFailure | src/components/CommodityTable.jsx:145-157 | building the lookup table fails iff some entry lacks a metal, and it fails at the first such entry |
| Catalog.IndexKeys | src/components/CommodityTable.jsx:145-157 | every entry in the lookup table is stored under its own key |
| Catalog.IndexDomain | src/components/CommodityTable.jsx:145-157 | the table holds a key iff some supplied entry has that key |
| Catalog.IndexLastWins | src/components/CommodityTable.jsx:145-157 | when several entries share a key, the last one in the list is the one stored |
| Catalog.IndexPrefixFailure | src/components/CommodityTable.jsx:145-157 | once an entry throws, later entries do not change the outcome |
| Catalog.ReconcileShape | src/components/CommodityTable.jsx:71-141 | every successful result has six rows, and row i has the key and the label of required row i, whatever was supplied |
| Catalog.ReconcileFailure | src/components/CommodityTable.jsx:145-157 | the reconciler throws iff some entry lacks a metal, and it throws at the first one |
| Catalog.ReconcileEmpty | src/components/CommodityTable.jsx:71-141 | an empty list gives the six required rows verbatim, with every charge and premium 0 |
| Catalog.ReconcileMatched | src/components/CommodityTable.jsx:160-169 | row i is the last entry with row i's key, with all of its fields kept except the label, which is row i's label (absent for 880, 775 and the kilobar) |
| Catalog.ReconcileUnmatched | src/components/CommodityTable.jsx:170-173 | when no entry has row i's key, row i is required row i verbatim |
| Catalog.UnmatchedDropped | src/components/CommodityTable.jsx:145-174 | an entry whose key is not a required id appears in no output row, under any label |
| Catalog.ReconcileIdempotent | src/components/CommodityTable.jsx:69-177 | reconciling an already reconciled list returns the same list |
| Catalog.KeyOfDefaults | src/components/CommodityTable.jsx:71-141 | each required row's key is its own id |
| Commodities.DefaultsShape | src/components/CommodityTable.jsx:71-141 | there are six required rows, each carrying its id, with zero charges and premiums and distinct ids |
| Commodities.Template | src/components/CommodityTable.jsx:72-83 | a required row has unit 1 and every charge and premium 0 |
| Pricing.QuoteFor | src/components/CommodityTable.jsx:16-33 | gold, "gold kilobar" and "gold ten tola" read the gold bid and ask, silver reads the silver quote, and any other metal gets 0 and 0; an unparsed value counts as 0 |
| Pricing.QuoteIndependence | src/components/CommodityTable.jsx:16-33 | a metal's quote does not depend on the other metal's spot record, and an unmapped metal is priced at 0 whatever the feed holds |
| Pricing.NumDigits | src/components/CommodityTable.jsx:38 | the digit count d of p satisfies 10^(d-1) <= p < 10^d, which is the length of p's decimal rendering for p below 10^21 |
| Pricing.PurityPower | src/components/CommodityTable.jsx:36-39 | 0 (falsy) gives 1; any positive whole number, read as p / 10^(digit count), gives a fraction in [0.1, 1) |
| Pricing.DigitValue | src/components/CommodityTable.jsx:273 | a token has a value iff it is a non-empty string of decimal digits; the value is below 10^(length), at least 10^(length-1) when the first digit is not 0, and ends in the token's last digit |
| Pricing.DigitValueIsPositional | src/components/CommodityTable.jsx:273 | the value of a digit token is its positional decimal reading, most significant digit first |
| Pricing.LeadingZeroDropped | src/components/CommodityTable.jsx:273 | a digit token starting with "0" has the same value as the token without that zero |
| Pricing.PurityNumber | src/components/CommodityTable.jsx:273 | parseFloat of the purity, or 0: an all-digit token gives its positional value, with as many digits as the token less leading zeros; any other token gives 0 |
| Pricing.Purity9999 | src/components/CommodityTable.jsx:273-274 | the purity "9999" prices at 0.9999 |
| Pricing.Purity880 | src/components/CommodityTable.jsx:273-274 | the purity "880" prices at 0.88 |
| Pricing.PurityLeadingZero | src/components/CommodityTable.jsx:273-274 | "0999" prices at 0.999, the same as "999", because parsing drops the leading zero |
| Pricing.PurityUnparseable | src/components/CommodityTable.jsx:273-274 | a token parseFloat cannot read ("", "k24", "undefined") gives 1 |
| Pricing.WeightMultiplier | src/components/CommodityTable.jsx:264-271 | every multiplier is at least 1 |
| Pricing.WeightTable | src/components/CommodityTable.jsx:264-271 | GM is 1, KG 1000, TTB 116.64, TOLA 11.664 and OZ 31.1034768; any other weight gives 1; the multiplier is 1 iff the weight is GM or unknown |
| Pricing.PerGram | src/components/CommodityTable.jsx:282-283 | a per-ounce value v converts to r with r * 31.103 = v * 3.674; it is non-negative for non-negative v and zero exactly for zero v |
| Pricing.PriceRow | src/components/CommodityTable.jsx:273-291 | each side is exactly its charge when its premium-adjusted quote or the unit is 0, and never below its charge when both are non-negative |
| Pricing.PriceOf | src/components/CommodityTable.jsx:252-291 | a row is priced from the gold bid and ask when its lower-cased metal is a gold metal, from the silver ones for silver, and from a zero quote for any other metal |
| Pricing.LinePriceOfZero | src/components/CommodityTable.jsx:286-291 | a zero converted quote leaves only the charge |
| Pricing.LinePriceScales | src/components/CommodityTable.jsx:286-291 | scaling the multiplier or the unit by n scales the price before the charge by n |
| Pricing.LinePriceMonotone | src/components/CommodityTable.jsx:286-291 | a higher converted quote never lowers a side's price when the multiplier, unit and purity are non-negative |
| Pricing.LinePriceFloor | src/components/CommodityTable.jsx:286-291 | a zero quote or unit leaves only the charge; a non-negative quote and unit never go below it |
| Pricing.ZeroQuoteGivesCharges | src/components/CommodityTable.jsx:280-291 | with bid, ask and both premiums 0, the buy price is the buy charge and the sell price is the sell charge |
| Pricing.UnmappedMetalGivesCharges | src/components/CommodityTable.jsx:252-291 | a metal that no quote covers, with no premiums, is priced at its charges alone |
| Pricing.PriceMonotone | src/components/CommodityTable.jsx:280-291 | a higher bid never lowers the buy price and a higher ask never lowers the sell price, when the unit is non-negative |
| Pricing.KilogramIsThousandGrams | src/components/CommodityTable.jsx:264-291 | the same line sold by KG costs 1000 times its GM price, before charges |
| Pricing.PriceExample | src/components/CommodityTable.jsx:280-291 | gold 9999 per gram at bid 2000 and ask 2005 prices at 2000 / 31.103 * 3.674 * 0.9999, between 236.22 and 236.23, and sells between 236.81 and 236.82 |
| Table.PriceRows | src/components/CommodityTable.jsx:251-291 | one price pair for each reconciled row |
| Table.ReconciledRowsHaveMetal | src/components/CommodityTable.jsx:160-174 | every reconciled row has a metal, so every row can be priced and labelled |
| Table.NoFeedPricesAtCharges | src/components/CommodityTable.jsx:23-29 | with no spot data, a row without premiums is priced at its charges |
| Table.NoDataPricesAtZero | src/components/CommodityTable.jsx:71-141 | with no catalog and no spot data, every required row prices at 0 buy and 0 sell |
| Display.MetalName | src/components/CommodityTable.jsx:51-52 | the metal name keeps its length, its first letter is upper-cased and the rest are lower-cased |
| Display.FormatCommodityDisplay | src/components/CommodityTable.jsx:47-66 | silver sold by "KG" reads the kilobar template with the unit; any other row begins with the capitalised metal, " - " and the purity, and text follows the purity exactly when the row is gold with a non-empty label, that text being the label in parentheses |
| Display.DisplayIgnoresMetalCase | src/components/CommodityTable.jsx:51-61 | the row text does not depend on the letter case of the metal |
| Display.LabelOnlyForGold | src/components/CommodityTable.jsx:55-58 | the label of a non-gold row never changes its text |
| Display.GoldDisplay | src/components/CommodityTable.jsx:51-65 | a "gold" row reads "Gold - " and the purity, plus " (label)" when the label is non-empty |
| Display.DefaultDisplays | src/components/CommodityTable.jsx:47-66 | the required rows read "Gold - 9999 (24k)", "Gold - 880", "Gold - 875 (21k)", "Gold - 775", "Gold - 750 (18k)" and the kilobar text |
| MarketData.SymbolOf | src/pages/tvscreenView.jsx:119 | a message has a symbol iff it exists and its symbol field is a non-empty string, and then the symbol is that string |
| MarketData.Above | src/pages/tvscreenView.jsx:127 | a value that compares as greater is never equal to the other value |
| MarketData.Direction | src/pages/tvscreenView.jsx:125-130 | the flag is "up" iff a record exists and the new bid is above the stored bid; "down" iff a record exists and the bid differs but is not above; null iff there is no record or the bid is the same |
| MarketData.ApplyUpdate | src/pages/tvscreenView.jsx:118-136 | a message without a symbol leaves the store unchanged; otherwise the symbol is added to the keys and every other symbol's record is unchanged |
| MarketData.UpdatedRecord | src/pages/tvscreenView.jsx:122-125 | fields in the message overwrite the stored ones, stored fields missing from the message are kept, and the flag is always present |
| MarketData.FirstSight | src/pages/tvscreenView.jsx:125-130 | the first update for a symbol stores the message with a null flag |
| MarketData.BidDirection | src/pages/tvscreenView.jsx:126-130 | for a stored symbol, a new numeric bid above the stored one gives "up", one below gives "down", and an equal one gives null |
| MarketData.MalformedIgnored | src/pages/tvscreenView.jsx:119-135 | a missing message, or one with no symbol or an empty symbol, leaves the store exactly as it was |
| MarketData.MissingBidReadsAsDown | src/pages/tvscreenView.jsx:122-130 | a message without a bid for a symbol with a numeric stored bid keeps that bid but gives "down" |
| MarketData.UpdateKeepsWellFormed | src/pages/tvscreenView.jsx:120-132 | every stored record keeps its own symbol and a flag that is "up", "down" or null |
| MarketData.NoStaleDirection | src/pages/tvscreenView.jsx:126-130 | re-sending the current bid gives null, not an earlier "up" or "down" |
| MarketData.GoldScenario | src/pages/tvscreenView.jsx:118-132 | GOLD at 2000, then 2010, then 2010 again gives null, then "up", then null |
| MarketData.MarketFeed.constructor | src/pages/tvscreenView.jsx:23 | the store starts empty and well formed |
| MarketData.MarketFeed.OnMarketData | src/pages/tvscreenView.jsx:118-136 | each `market-data` event replaces the store with the updated store and keeps it well formed |

## Left out

- The socket connection, the `request-data` emit, and the connect, disconnect and error handlers (src/pages/tvscreenView.jsx:101-117, 137-148). These are network I/O.
- The bootstrap fetches (src/pages/tvscreenView.jsx:44-98). These are network I/O. Their results reach the model as its parameters.
- The clock interval and the locale date and time formatting (src/pages/tvscreenView.jsx:150-187). These are a timer and host locale APIs.
- JSX, MUI styling, table rendering and the image carousel. These are UI.
- `formatValue` rounding with `toFixed(2)` / `Math.round` (src/components/CommodityTable.jsx:42-44). This is IEEE-double and string behaviour. Prices are exact reals, and no bit-exact JavaScript result is claimed.
- The spread values that `updateMarketData` receives, and the spot-rate context that turns `marketData` into `goldData` / `silverData`. That context is not part of this model, so the gold and silver spot records are parameters.
- Pricing.DigitValue: models `parseFloat` only on all-digit purity tokens. A token with a numeric prefix, a decimal point, a sign or leading blanks (such as "24k", "99.9", "+999", "-5" or " 999") is treated as unparseable and gives 1. In the source "24k" reads as 24 (purity 0.24), "+999" as 999 (0.999) and "-5" as -5 (-0.05). As a result, non-integer and signed purities are not modelled.
- Pricing.PurityNumber: a token with a numeric prefix reads as 0 here, not as the prefix's value, for the reason given for `Pricing.DigitValue`.
- Pricing.NumDigits: from 10^21 up, JavaScript's `toString` switches to exponent form ("1e+21"), so the source divides by 10 to the length of that text. The model always divides by 10^(digit count), so `Pricing.PurityPower` gives a value in [0.1, 1) where the source would give a much larger one.
- Pricing.QuoteFor: spot bid and ask are taken as already parsed. `None` stands for NaN, and string parsing is not modelled.
- Pricing.WeightMultiplier: a weight named after an `Object.prototype` member (such as "constructor") yields a function value in the source and then a NaN price. The model gives 1.
- Pricing.PriceRow: `unit` is taken as a real number. A missing or non-numeric unit gives NaN in the source.
- Text.ToLower: case mapping covers ASCII letters only. Non-ASCII `toLowerCase` / `toUpperCase` mappings are not modelled.
- Display.FormatCommodityDisplay: the text of the unit number is a parameter `unitText`, because JavaScript number-to-string conversion is not modelled. The mis-decoded dash is kept as an opaque three-character constant.
- Catalog.Reconcile: the supplied list is always a list. A non-list (`forEach` of undefined) or a `null` entry, both of which throw in the source, is not modelled. Records carry only the fields the core reads, plus `id`.
- MarketData.Above: a comparison involving a string value is taken as false. JavaScript would coerce it numerically or compare lexicographically.
- MarketData.ApplyUpdate: a symbol named after an `Object.prototype` member (such as "constructor", "toString" or "__proto__") finds an inherited value in `prevData` on first sight. The source then compares bids against it, so a numeric bid gets "down"; the model treats the symbol as unseen and gives null.
- MarketData.SymbolOf: a truthy non-string symbol (a non-zero number) is treated as no symbol. The source would store the record under the number's decimal rendering. Records hold numbers, strings and null only.
- React's batching and the order in which events are delivered. The model applies updates one at a time, in the order given.

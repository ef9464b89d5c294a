# Cloud ordering portal: order pricing and client-side capacity rules

This project models the pricing core of a cloud-resource ordering portal and proves properties of it.
Users order a bundle made of one computation instance (a RAM tier), an amount of storage in TB, and
an amount of data transfer in GB. The client prices this bundle and decides whether the order form
may be submitted.

- `js_values.dfy` (module `JsValues`): the JavaScript conventions the code relies on. These are
  the `||` and `??` defaults, record fields that may be `undefined` or `null`, and the `NaN` that an
  `undefined` operand produces in a sum.
- `tariffs.dfy` (module `Tariffs`): the computation, storage and data-transfer tariff records,
  the cloud status (order count and storage sum), a uniform view of the three RAM tiers, and the
  pricing errors.
- `utility.dfy` (module `Utility`): the shared pricing functions.
  - A three-tier RAM lookup. It matches strictly, the first match wins, and a missing minimum
    storage counts as 0.
  - A linear storage price.
  - A three-band data-transfer price. The band overage is amortised over the base tier, and
    above a hard 5000 GB ceiling the data price is 0.
  - A total that enforces the tier's minimum storage first.

  The banded formula is proved equal to an independent marginal-rate reading of the tariff. From
  that, the price is proved monotone up to the ceiling.
- `layout_pricing.dfy` (module `LayoutPricing`): the order form's own copy of the total. It has
  its own RAM `if` chain and its own data-transfer formula, throws a distinct error for each
  missing tariff record, and has no ceiling. Its chain and formula are proved to match the shared
  ones. The total is proved to agree with the shared copy at and below the ceiling, and to keep
  charging the banded price above it.
- `layout_state.dfy` (module `LayoutState`): the rules the React components hold as state.
  - Class `CloudAvailability`: the page's RAM and storage availability flags, with the effects
    that update them.
  - Class `NewOrderForm`: the form's minimum storage, displayed total, error and dialog state,
    with the minimum-storage effect, the price effect and the submit handler.
  - The submit button's disabled condition.

Money and multipliers are `real`. RAM, storage and data amounts are `int`. The pricing calls, the
minimum-storage effect and the disabled condition parse the fields with `parseInt`. The submit
handler instead tests the raw field text and compares it unparsed with the minimum, relying on
JavaScript's coercion; the model reads that field as the same integer (see "## Left out"). A `[0]` lookup into a tariff list is an `Option` of the record.
`None` covers both an empty list and an undefined first element. A form field is `None` when it
holds the empty string and `Some(v)` when its text parses to `v`.

Some behaviour one might expect of such a portal is absent from the code, and the model follows
the code:

- Above the 5000 GB ceiling the code does not fail. The shared copy prices data transfer at 0,
  and the form's copy has no ceiling at all.
- The per-order minimum storage of the storage tariff is not enforced by either pricing copy.
- No server-side admission check appears in the files examined: they contain no server-side
  order creation. The server's `deleteOrders` (server/dao-cloud.js:160-175) filters on the order
  id alone. The client does handle a server refusal of an order (Layout.jsx:500-502), which is
  not modelled.

## Model

| member | source | states |
|---|---|---|
| `Utility.ComputeComputationPrice` | client/src/components/Utility.js:11-36 | with no record the result is `undefined`; with no tier matching the RAM it throws `InvalidRamSize(ram)`; otherwise it is the first strictly matching tier's price, with that tier's minimum storage and `|| 0` applied |
| `Utility.RamTierLookup` | client/src/components/Utility.js:18-30 | each tier's own RAM size returns that tier's price and defaulted minimum, unless an earlier tier has the same size |
| `Utility.FirstTierWins` | client/src/components/Utility.js:18-24 | when tiers 1 and 2 have the same size, tier 1's price is used |
| `Utility.ComputeStoragePrice` | client/src/components/Utility.js:38-43 | the storage price is defined exactly when a storage record exists |
| `Utility.StoragePriceIsLinear` | client/src/components/Utility.js:42-42 | the storage price is 0 for no storage, additive, and scales with the amount |
| `Utility.ComputeDataTransferPrice` | client/src/components/Utility.js:45-69 | the data price is defined exactly when a record exists; above the ceiling it is 0, not an error |
| `Utility.BandedPriceIsMarginal` | client/src/components/Utility.js:54-66 | the source's band guards and formulas equal a marginal-rate tariff: a flat base price, then band-1 GBs at `basePrice*mul1/baseTier`, then the GBs beyond band 1 at `basePrice*mul2/baseTier` |
| `Utility.Band1IsMarginal` | client/src/components/Utility.js:60-62 | inside band 1 the band-1 formula is the base price plus the band-1 GBs at the band-1 rate |
| `Utility.Band2IsMarginal` | client/src/components/Utility.js:63-66 | beyond band 1 the band-2 formula is the base price plus all of band 1 at the band-1 rate plus the rest at the band-2 rate |
| `Utility.BaseBandIsMarginal` | client/src/components/Utility.js:54-54 | up to the base tier the flat base price is what the marginal-rate reading charges |
| `Utility.BaseBandIsFlat` | client/src/components/Utility.js:54-67 | any amount up to and including the base tier, 0 included, costs exactly the base price |
| `Utility.Band1Formula` | client/src/components/Utility.js:60-62 | inside band 1 the price is base plus the overage divided by the base tier (not the band width) times `basePrice*mul1` |
| `Utility.Band2Formula` | client/src/components/Utility.js:63-66 | beyond band 1 the price is base, plus band 1 at its full width, plus the remainder divided by the base tier times `basePrice*mul2` |
| `Utility.BandsMeet` | client/src/components/Utility.js:60-66 | the band-1 formula gives the base price at the base tier, and the band-1 and band-2 formulas agree at the end of band 1 |
| `Utility.EndOfBand1` | client/src/components/Utility.js:60-62 | at exactly base tier plus band width the price is base plus the whole of band 1, with nothing from band 2 |
| `Utility.Band1ChargeMonotone` | client/src/components/Utility.js:61-64 | with a well-formed tariff the band-1 part of the charge never decreases as the request grows |
| `Utility.Band2ChargeMonotone` | client/src/components/Utility.js:65-65 | with a well-formed tariff the band-2 part of the charge never decreases as the request grows |
| `Utility.MarginalPriceMonotone` | client/src/components/Utility.js:54-66 | the marginal-rate reading of the tariff never decreases as the request grows |
| `Utility.DataPriceMonotone` | client/src/components/Utility.js:54-67 | with a positive base tier, a non-negative band width, and non-negative price and multipliers, the data price never decreases in `dataGb` up to the ceiling |
| `Utility.BandedPriceAtLeastBase` | client/src/components/Utility.js:54-66 | with a well-formed tariff the banded price is never below the base price |
| `Utility.CeilingIsNotAnError` | client/src/components/Utility.js:58-58 | exactly 5000 GB is priced normally; 5001 GB yields a data price of 0 |
| `Utility.ComputePrice` | client/src/components/Utility.js:72-82 | with no computation record the total fails with a TypeError. It throws `InvalidRamSize(ram)` exactly when no tier matches, and `StorageTooLow` with the tier's minimum exactly when the storage is below it. It succeeds exactly when a tier matches and the storage meets its minimum. A successful total is `NaN` exactly when the storage or data record is missing |
| `Utility.FailureIndependentOfData` | client/src/components/Utility.js:73-75 | a failing total fails identically for every data-transfer amount |
| `Utility.TotalIsSumOfComponents` | client/src/components/Utility.js:72-81 | when a tier matches and the storage meets its minimum, with all records present, the total succeeds and is computation price + storage price + data price |
| `Utility.WorkedExamples` | client/src/components/Utility.js:72-82 | for a 16 GB tier at 10, storage at 2 per TB and bands of 10 GB and 20 GB at base price 1 with multipliers 0.8 and 0.5, 16 GB / 1 TB / 10 GB costs 13 and 16 GB / 1 TB / 30 GB costs 14.6 |
| `LayoutPricing.TierQuote` | client/src/components/Layout.jsx:52-63 | no quote exactly when no tier size equals the RAM; otherwise the first strictly matching tier's price, with its minimum after `|| 0` |
| `LayoutPricing.TierQuoteIsShared` | client/src/components/Layout.jsx:52-63 | the form's `if` chain fails exactly when the shared `switch` throws, and otherwise returns the same quote |
| `LayoutPricing.DataPriceIsBanded` | client/src/components/Layout.jsx:79-95 | the form's data formula equals the shared banded price for every amount |
| `LayoutPricing.ComputePrice` | client/src/components/Layout.jsx:43-100 | each error fires exactly under its own condition: no computation record; no matching tier; storage below the tier minimum; then a missing storage record; then a missing data record. It succeeds exactly when all these checks pass, with the matched tier's price + storage × price + the banded data price |
| `LayoutPricing.StorageCheckComesFirst` | client/src/components/Layout.jsx:65-77 | storage below the tier minimum fails with "Storage too low", whatever storage and data records exist (it is checked before either is read) |
| `LayoutPricing.AgreesWithSharedBelowCeiling` | client/src/components/Layout.jsx:85-97 | with all records present and at most 5000 GB, the form's copy and the shared copy give the same price or the same error |
| `LayoutPricing.NoCeilingAboveMax` | client/src/components/Layout.jsx:87-95 | above 5000 GB the form's copy charges the shared total plus the banded data price, which is the band-2 formula once past band 1 |
| `LayoutPricing.MissingRecordsDiffer` | client/src/components/Layout.jsx:49-71 | a missing computation record is a TypeError in the shared copy but "No computation service available" here; a missing storage record is `NaN` there but "No storage service available" here |
| `LayoutPricing.TotalNonNegative` | client/src/components/Layout.jsx:97-99 | with non-negative prices, a well-formed band tariff and non-negative storage, the total is never negative |
| `LayoutState.RamAvailability` | client/src/components/Layout.jsx:832-839 | the RAM flag keeps its previous value when the instance cap is falsy or the instance count is undefined |
| `LayoutState.StorageAvailability` | client/src/components/Layout.jsx:842-850 | storage is available whenever the global cap is falsy or the storage sum is undefined |
| `LayoutState.CloudAvailability.constructor` | client/src/components/Layout.jsx:759-760 | both availability flags start out true |
| `LayoutState.CloudAvailability.CheckRam` | client/src/components/Layout.jsx:832-839 | the RAM flag becomes its availability rule applied to the previous flag; the storage flag is untouched |
| `LayoutState.CloudAvailability.CheckStorage` | client/src/components/Layout.jsx:842-851 | the storage flag becomes the storage rule for the current selection; the RAM flag is untouched |
| `LayoutState.RamAvailableIffBelowCap` | client/src/components/Layout.jsx:833-834 | with a truthy cap and a known count, an instance is available exactly when `usedComputation < maxInstances` |
| `LayoutState.FewerOrdersKeepRamAvailable` | client/src/components/Layout.jsx:834-834 | lowering the order count never turns RAM availability off |
| `LayoutState.StorageAvailableIffFits` | client/src/components/Layout.jsx:846-848 | with a truthy cap and a known sum, storage is available exactly when `usedStorage + selected <= maxGlobalStorage` |
| `LayoutState.NoOrdersStorageCheck` | client/src/components/Layout.jsx:846-847 | a `null` storage sum (no orders) still passes the `!== undefined` guard and counts as 0 |
| `LayoutState.EmptySelectionCountsAsOne` | client/src/components/Layout.jsx:846-848 | with a truthy cap and a defined storage sum, an empty storage field is available exactly when `usedStorage + 1 <= maxGlobalStorage` (the `selectedStorage || 1` default) |
| `LayoutState.ZeroCapMeansNoLimit` | client/src/components/Layout.jsx:833-846 | a cap of 0 is falsy and skips the check: the RAM flag keeps its previous value and storage is available, whatever the usage |
| `LayoutState.LessStorageKeepsAvailability` | client/src/components/Layout.jsx:847-848 | less storage in use or a smaller selection never turns storage availability off |
| `LayoutState.FormMinStorage` | client/src/components/Layout.jsx:450-459 | the form minimum is 1 with no record or no matching tier; otherwise it is the first matching tier's minimum with `?? 1` |
| `LayoutState.FormMinimumVsPricingMinimum` | client/src/components/Layout.jsx:454-456 | for a matched tier with a missing minimum, the form shows 1 while pricing uses 0; with a stored minimum the two agree |
| `LayoutState.FormMinimumCoversPricing` | client/src/components/Layout.jsx:450-459 | storage at or above the form minimum never makes the form's pricing fail with "Storage too low" |
| `LayoutState.DisplayedPrice` | client/src/components/Layout.jsx:464-477 | the displayed total is 0 when a field is empty, when no tier matches or the storage is below its minimum, or when a tariff record is missing. Otherwise it is the matched tier's price + storage × price + the banded data price, with no ceiling |
| `LayoutState.DisplayedPriceNonNegative` | client/src/components/Layout.jsx:464-477 | with non-negative tariffs and storage selection the displayed total is never negative |
| `LayoutState.SubmitCheck` | client/src/components/Layout.jsx:520-528 | "fill in all fields" exactly when a field is empty. The form is accepted exactly when all fields are filled and storage is at least the minimum. The storage message carries the minimum and the RAM |
| `LayoutState.EnabledFilledFormIsAccepted` | client/src/components/Layout.jsx:619-619 | when the button is enabled and every field is filled, submission passes validation |
| `LayoutState.AcceptedFormPassesStorageRule` | client/src/components/Layout.jsx:525-528 | an accepted submission never has storage that the button's `storage < minStorage` test refuses |
| `LayoutState.SubmitDisabled` | client/src/components/Layout.jsx:619-619 | no available RAM, no available storage, or loading disables the button. An empty storage field alone does not (`parseInt` gives `NaN`, and `NaN < minStorage` is false). Conversely, with both capacities available, not loading and the storage field empty or at least the minimum, the button is enabled. An enabled button with a filled storage field has storage at least the minimum |
| `LayoutState.AcceptedSubmissionMeetsTierMinimum` | client/src/components/Layout.jsx:525-528 | a submission accepted against the selected RAM's form minimum is never priced as "Storage too low" |
| `LayoutState.NewOrderForm.constructor` | client/src/components/Layout.jsx:416-423 | the form starts with minimum storage 1, total 0, no error, the dialog closed and not loading |
| `LayoutState.NewOrderForm.UpdateMinStorage` | client/src/components/Layout.jsx:447-461 | with a RAM selected, the minimum becomes the form minimum for it; with the field empty it is kept |
| `LayoutState.NewOrderForm.UpdateTotalPrice` | client/src/components/Layout.jsx:464-477 | the total becomes the displayed price for the current selection |
| `LayoutState.NewOrderForm.HandleSubmit` | client/src/components/Layout.jsx:515-531 | the error becomes the validation result. On acceptance, loading starts and the dialog opens. On refusal, both keep their previous values |

## Left out

- The server (`server/dao-cloud.js`) is not modelled. The order count and the storage sum exist there only as SQL; here they are inputs (the cloud status). Its `deleteOrders` (server/dao-cloud.js:160-175) filters on the order id alone; it is not modelled.
- HTTP wrappers, routing, session and TOTP state, and all rendering are not modelled. This covers progress bars, `toFixed(2)` formatting and the display-only counters.
- `confirmOrder`, the asynchronous order creation and its success or failure messages, the success message that the submit handler clears (`setSuccess(null)`, Layout.jsx:518), and the `setTimeout` delays are not modelled because they are I/O and timing.
- React effect scheduling is not modelled. Each effect is a method the caller invokes with the current props; which dependency change triggers it is not captured.
- The default selections set when tariffs arrive or on logout are UI initialisation and are not modelled.
- `parseInt` and JavaScript's string-to-number coercion are not modelled: every field is read as its parsed integer. The submit handler tests the raw text for emptiness (Layout.jsx:520) and compares it unparsed with the minimum (Layout.jsx:525). A fractional text such as "2.5" would compare as 2.5 there but as 2 in the disabled condition; the model does not capture that.
- The client's handling of a server refusal ("Not enough resources for this order!", Layout.jsx:500-502) is part of `confirmOrder` and is not modelled.
- A field holding the number 0 (falsy in JavaScript) is treated like one holding the text "0", that is, as filled.
- All arithmetic is exact: IEEE-754 rounding is not modelled.
- Utility.ComputeDataTransferPrice: requires a non-zero base tier, because dividing by a zero base tier yields `Infinity` or `NaN` in JavaScript, which the model does not represent. The same applies to `Utility.ComputePrice`, `LayoutPricing.ComputePrice` and the form members that call them. The requirement also excludes some zero-base-tier inputs on which the source never divides: no computation record, "Invalid RAM size", "Storage too low", a missing storage record in the form's copy, a request above 5000 GB in the shared copy, and an amount that falls in neither band, which costs just the base price.
- Tariff prices are numbers. A `null` price, which JavaScript would coerce to 0 in a sum, is not modelled.
- An atomic server-side admission check, a ceiling that fails as an error, and owner-only cancellation are not modelled, because none of them appears in the files examined.

# Quote computation engine of an installer's offer tool

This project models, in Dafny, the arithmetic core of a browser application that an electrical installer uses to price work and write offers. Five source files are covered.

- **src/app.jsx** covers several parts of the photovoltaic side.
  - Per-kW price curve: `pricePerKWFromCurve`.
  - Size suggestions: `suggestSizes` and `buildOptionsAround`, the S/M/L picker.
  - Maintenance price, shared by `buildMaintOffer` and `MaintenanceForm`.
  - Installation estimate shown by `OfferView` (`stima`): discount, VAT, incentives, energy split and payback.
  - The `OfferSummary` figures.
  - Offer reference counter: `nextOfferRef`.
  - Merge of stored settings with the shipped defaults: `loadSettings`.
  - Administrator form: `normalizePricing`, `normalizeCurve`, the kW-size list text and `AdminPanel.update`.
- **src/ai/AIWizard.jsx** is the service wizard.
  - `num` and `labelOf`.
  - The completeness check `allStepsAnswered`.
  - The two near-identical pricers: `computePreviewFromAnswers` and the live `preview` memo.
  - The mini-cart with its two ways of adding an item. It also supports removal by id and by position, clearing, and the totals.
  - `generateOffer` and its `nextRef` reference.
- **src/ai/CatalogEditor.jsx**: the deep path setter `setVal`, `asStr` and the numeric input filter.
- **src/ai/wizardTree.js**: the question tree, a constant.
- **src/lib/energy.js**: the self-consumption helpers.

JavaScript values are modelled explicitly, because the engine's edge cases come from them.

- A stored value is a `Json` datatype, and `undefined` is `None`.
- A number is `Num`, either `NaN` or a finite real.
- `Number`, `parseFloat`, `String(n)`, truthiness, `??` and `||` each have their own function, and lemmas state their laws.
- Arithmetic uses exact reals: IEEE rounding is not modelled.

## Module layout

The first three modules are shared. The rest follow the source files.

| Module | What it models |
|---|---|
| `Wrappers` | Option and Result |
| `JsNumbers` | JavaScript number semantics |
| `JsValues` | JavaScript value semantics |
| `Pricing` | curve, size suggestions, maintenance, installation estimate, summary |
| `Sorting` | the sorts those rely on |
| `SizeOptions` | `buildOptionsAround`, a method with loops |
| `OfferRef` | `nextOfferRef`, a class over a stored counter |
| `SettingsDefaults` | the shipped defaults |
| `Settings` | `loadSettings` |
| `PvSizesText` | the kW-size list text |
| `AdminForm` | the administrator form's pure parts |
| `Admin` | the administrator panel, a class |
| `WizardTree` | the question tree |
| `WizardAnswers` | `num`, `labelOf` and `allStepsAnswered`; the last is a loop method |
| `WizardPreview` | both preview pricers, as methods proved equal to reference functions |
| `PreviewCopies` | how the two pricers agree and where they part |
| `WizardCart` | the items and the totals |
| `WizardOffer` | the offer `generateOffer` builds |
| `WizardSession` | the wizard's state, a class |
| `CatalogEditor` | `setVal`, a loop method |
| `Energy` | the self-consumption helpers |

Four behaviours of the code that a reader might not expect. The model follows the code in each.

- **Degenerate curve.** A curve with equal thresholds gives NaN, from zero divided by zero (`Pricing.CurvePrice`). Charging the price at the minimum threshold would be the sensible result.
- **Payback with no benefit.** The payback is 0 rather than undefined when there is no yearly benefit (`Pricing.OfferSummary`).
- **Tie in `buildOptionsAround`.** A size equally far from the target on both sides resolves to the smaller size (`SizeOptions.NearestIsMid`), because the scan keeps the first strict minimum.
- **Environment figures saved as text.** The admin panel's working copy turns `co2GridKgPerKWh` and `co2PerTreeKgPerYear` into text (src/app.jsx:723-724), and the save handler (src/app.jsx:1292-1304) never turns them back into numbers. They stay text in the settings and in storage (`Admin.SavedOthersKept`). The offer summary still reads them correctly, because `*` and `/` convert the text (`SettingsDefaults.SummaryWithTextEnvironment`).

Five identifiers the code uses are declared nowhere. Evaluating one throws a `ReferenceError`, with these consequences:

- `pricePerKWFromCurcurve` (src/app.jsx:1082) is called on every render of the admin panel. The panel throws on its first render, and with no error boundary the admin page cannot be shown (`Admin.CurvePreviewThrows`).
- `municipalInceptives` (src/app.jsx:767) is read by `normalizePricing`, which the save button calls before storing anything. Every save throws, and neither the settings nor storage change (`AdminForm.PricingReadThrows`, `Admin.SaveThrows`).
- `curcurveMinKW` (src/app.jsx:779) is read by `normalizeCurve`, the next step of the same save, which therefore throws too (`AdminForm.CurveReadThrows`).
- `setCurcurveMinKW` (src/app.jsx:1029) is called when the minimum-threshold field loses focus. That throws, and the text stays as typed (`Admin.BlurMinKWThrows`).
- `removeItem(i)` (src/ai/AIWizard.jsx:688) is what "Rimuovi" in the selected-items table calls. Every click throws, and the cart is unchanged (`WizardCart.RemoveRowThrows`).

Each is modelled as written, and then with the name the code evidently means: `pricePerKWFromCurve`, `municipalIncentive`, `curveMinKW`, `setCurveMinKW`, and removal by position. The rest of the model uses those corrected readings: `Admin.AdminPanel.Save`, `AdminForm.NormalizeCurve`, `Admin.AdminPanel.BlurCurve` and `WizardSession.Wizard.RemoveItemAt`. The table under "## Findings" lists the five.

## Model

| member | source | states |
|---|---|---|
| JsNumbers.TrimStart | src/ai/AIWizard.jsx:62 | what `trimStart` leaves is no longer than its input and does not start with white space |
| JsNumbers.TrimStartSuffix | src/ai/AIWizard.jsx:62 | the part `trimStart` leaves is a suffix of the input |
| JsNumbers.TrimEnd | src/ai/AIWizard.jsx:62 | what `trimEnd` leaves is a prefix of the input and does not end with white space |
| JsNumbers.TrimNoSpace | src/ai/AIWizard.jsx:62 | trimming text without white space changes nothing |
| JsNumbers.LeadingDigits | src/app.jsx:116 | the digit run that starts a literal is all digits and is followed by a non-digit or the end |
| JsNumbers.ParseFloat | src/app.jsx:116-120 | `parseFloat` gives a number exactly when the text, after leading white space, starts with a decimal literal |
| JsNumbers.StringToNumber | src/ai/AIWizard.jsx:103 | `Number` of blank text is 0 |
| JsNumbers.ParseInt | src/app.jsx:779-781 | a number from `parseInt` is always whole |
| JsNumbers.NumberAgreesWithParseFloat | src/ai/AIWizard.jsx:103 | on text without white space that `Number` reads, `parseFloat` reads the same number |
| JsNumbers.NumberRejectsTrailingText | src/ai/AIWizard.jsx:103 | "12,5" gives 12 to `parseFloat` and NaN to `Number`; empty text gives 0 to `Number` and NaN to `parseFloat` |
| JsNumbers.EmptyUnreadable | src/ai/AIWizard.jsx:40-43 | the decimal-comma parse of empty text is NaN |
| JsNumbers.FirstCommaToDot | src/ai/AIWizard.jsx:41 | `replace(",", ".")` keeps the length of the text |
| JsNumbers.FirstCommaToDotSpec | src/ai/AIWizard.jsx:41 | only the first comma becomes a point and everything else is kept; without a comma the text is unchanged |
| JsNumbers.FirstCommaToDotOnlyOnce | src/ai/AIWizard.jsx:41 | "1,2,3" becomes "1.2,3": later commas stay |
| JsNumbers.NoLiteralStart | src/app.jsx:756 | text whose first character is neither white space, a digit, a point nor a sign parses to NaN |
| JsNumbers.LetterStartUnreadable | src/ai/AIWizard.jsx:40-43 | text starting with a letter or `[` is NaN to both `parseFloat` and the decimal-comma parse |
| JsNumbers.NatToStringDigits | src/app.jsx:903 | the decimal digits printed for a whole number are digits, start with a digit and read back as the number |
| JsNumbers.FracToStringDigits | src/app.jsx:903 | the printed fraction digits are digits and read back as the fraction |
| JsNumbers.ScanPlain | src/app.jsx:756 | digits, optionally a point and more digits, are scanned whole as their value |
| JsNumbers.UnsignedRoundTrip | src/app.jsx:903 | a printed non-negative number is scanned back whole as itself |
| JsNumbers.WholeLiteral | src/app.jsx:756 | text that is exactly one literal reads as its value under both `parseFloat` and `Number` |
| JsNumbers.ParsePlain | src/app.jsx:756 | plain decimal text reads as its value under both `parseFloat` and `Number` |
| JsNumbers.NumberToStringRoundTrip | src/app.jsx:898-903 | `parseFloat(String(n))` and `Number(String(n))` give back n for every number with at most 20 fraction digits |
| JsNumbers.ParseIntOfPrinted | src/app.jsx:1028-1029 | `parseInt(String(n))` of a non-negative number is its whole part |
| JsNumbers.ParseIntOfPlain | src/app.jsx:779 | `parseInt` of plain decimal text is the value of its integer digits |
| JsNumbers.IntegersRepresentable | src/app.jsx:1029 | every whole number is printed exactly |
| JsNumbers.ZeroPrints | src/app.jsx:20 | `String(0)` is "0", the text the counter falls back to when nothing is stored |
| JsValues.Member | src/app.jsx:115 | a property read yields a value only from an object holding that key |
| JsValues.Split | src/app.jsx:788 | `split` returns at least one piece and no piece holds the separator |
| JsValues.JoinSplit | src/app.jsx:788 | joining the pieces of a split with the separator gives the text back |
| JsValues.SplitJoin | src/ai/CatalogEditor.jsx:21 | splitting pieces that hold no separator, joined by it, gives the pieces back |
| JsValues.SplitAtFirst | src/ai/CatalogEditor.jsx:21 | a split cuts at the first separator and goes on with the rest |
| JsValues.KeepOnly | src/ai/CatalogEditor.jsx:58 | the filter keeps only allowed characters, never lengthens the text, and leaves text made of allowed characters unchanged |
| JsValues.KeepOnlyIdempotent | src/ai/CatalogEditor.jsx:58 | filtering twice is filtering once |
| JsValues.KeepOnlyCounts | src/ai/CatalogEditor.jsx:58 | every allowed character occurs as often after the filter as before |
| JsValues.UndefinedUnreadable | src/ai/AIWizard.jsx:40-43 | `num` cannot read undefined or null: both parse to NaN, so the fallback is used |
| JsValues.ParseDecimalOfNumber | src/ai/AIWizard.jsx:40-43 | the decimal-comma parse of a stored number gives that number back |
| JsValues.Identifier | src/app.jsx:767 | an identifier evaluates to its binding exactly when it is declared, and otherwise throws a `ReferenceError` naming it |
| JsValues.PrintedHasNoComma | src/ai/AIWizard.jsx:41 | a printed number holds no comma, so the comma rewrite does not touch it |
| JsValues.ParseDecimalAgreesWithNumber | src/ai/AIWizard.jsx:103 | on comma-free text that `Number` reads, `num`'s parse and `Number` agree |
| JsValues.DecimalCommaDiverges | src/ai/AIWizard.jsx:247 | "12,5" is 12.5 to the decimal-comma parse and NaN to `Number` |
| JsValues.DecimalCommaRejected | src/ai/AIWizard.jsx:103 | `Number("12,5")` is NaN |
| JsValues.DecimalCommaReads | src/ai/AIWizard.jsx:40-43 | the decimal-comma parse reads "12,5" as 12.5 |
| JsValues.PlainTwelveAndAHalf | src/ai/AIWizard.jsx:41 | `parseFloat("12.5")` is 12.5 |
| JsValues.CommaRewriteExample | src/ai/AIWizard.jsx:41 | the rewrite turns "12,5" into "12.5" |
| Energy.NonNegative | src/lib/energy.js:11-12 | `Math.max(0, Number(v) or 0)` is never negative; it is the number when that is positive and 0 for a negative, zero, missing or unreadable value |
| Energy.NumberOrZero | src/lib/energy.js:50-51 | `Number(v)` falling back to 0 keeps every readable number, negative ones too, and gives 0 for NaN |
| Energy.Autoconsumata | src/lib/energy.js:13-16 | the clamped estimate is NaN exactly when the coverage factor is, and otherwise lies in [0, min(pv, load)] |
| Energy.CalcAutoconsumataKWh | src/lib/energy.js:10-17 | the self-consumed kWh lie in [0, min(production, consumption)] of the normalised inputs, and are a number exactly when the selected factor is |
| Energy.EstimateUsedWhenItFits | src/lib/energy.js:13-16 | with a factor in [0, 1], the result is load × factor whenever that fits within the production |
| Energy.DefaultCoverage | src/lib/energy.js:10-16 | with the default factors the result is min(load × 0.75, pv) with a heat pump and min(load × 0.65, pv) without |
| Energy.ExplicitKWh | src/lib/energy.js:32 | an explicit figure is used exactly when it is a number (JSON numbers are never NaN) |
| Energy.Clamp | src/lib/energy.js:34 | the clamp lands in [lo, hi], keeps a value inside, and gives the nearer end outside |
| Energy.UsedByLoad | src/lib/energy.js:31-37 | the used kWh lie in [0, min(load, pv)]; an explicit figure is clamped to that range, otherwise the estimate of `calcAutoconsumataKWh` is used |
| Energy.CalcSelfConsumptionPctByLoad | src/lib/energy.js:27-40 | the percentage lies in [0, 100], is 0 when the load is 0, and is used / load × 100 otherwise |
| Energy.UsedOfLoad | src/lib/energy.js:53-59 | the used kWh are non-negative and at most the (non-negative) load; an explicit figure is clamped to [0, load] only, the estimate is max(0, min(load, pv)) |
| Energy.CalcSelfConsumptionPct | src/lib/energy.js:49-61 | the percentage lies in [0, 100], is 0 whenever the load is ≤ 0, and is used / load × 100 otherwise |
| Energy.ExplicitFigureNotCappedByProduction | src/lib/energy.js:34-55 | for 3000 kWh consumed, 1000 produced and 2000 declared, the two helpers disagree: 200/3 against 100/3 |
| Energy.EstimateIsSmallerOfLoadAndProduction | src/lib/energy.js:57-58 | without an explicit figure the percentage is min(load, pv) / load × 100 |
| Energy.Round | src/lib/energy.test.js:19 | `Math.round` gives the integer within one half below and strictly less than one half above |
| Energy.EnergyTestCases | src/lib/energy.test.js:5-20 | the four test cases: (4000, 5000) → 100, (3000, 5000, 5000) → 100, (0, 5000, 1000) → 0, (6000, 4000) → 67 after rounding |
| Pricing.CurveField | src/app.jsx:116-119 | a curve figure is the comma-tolerant reading of the field when that is a nonzero number, and the fallback when it is missing, unreadable or zero; it is never zero |
| Pricing.ReadCurve | src/app.jsx:116-119 | none of the four figures read from a curve is zero |
| Pricing.CurvePrice | src/app.jsx:120-122 | the interpolation is NaN exactly when minKW equals maxKW (zero divided by zero) |
| Pricing.PricePerKWFromCurve | src/app.jsx:114-123 | 0 without a curve; otherwise the size, read with the comma-tolerant parse and 0 when unreadable, priced on the read curve |
| Pricing.CurveInterpolates | src/app.jsx:120-122 | on a curve with minKW < maxKW the price is the linear interpolation at the clamped size and lies between the two end prices |
| Pricing.CurveEnds | src/app.jsx:120-122 | any size ≤ minKW pays priceAtMin and any size ≥ maxKW pays priceAtMax |
| Pricing.InvertedCurve | src/app.jsx:120-122 | with minKW > maxKW every size pays priceAtMin |
| Pricing.StoredFieldRead | src/app.jsx:116-119 | a whole nonzero number stored in a curve field is read as it is |
| Pricing.ReadDefaultCurve | src/app.jsx:42-47 | the default curve reads as 8 kW, 200 kW, 2000 CHF and 1000 CHF |
| Pricing.DefaultCurveAt104 | src/app.jsx:114-123 | on the default curve, 104 kW costs 1500 CHF per kW |
| Pricing.PricedAtWholeSize | src/app.jsx:120 | a whole size given as a number is priced at that size |
| Pricing.ZeroFieldFallsBack | src/app.jsx:116-119 | a curve field stored as 0 reads as its default, because of the `or` fallback |
| Pricing.MissingFieldFallsBack | src/app.jsx:116-119 | a missing curve field reads as its default |
| Pricing.TargetKW | src/app.jsx:179 | the target size is never negative, and is kWh / 1000 for a positive consumption |
| Pricing.SuggestSizes | src/app.jsx:178-188 | at most three catalog sizes (min(3, count)), drawn from the catalog, ordered by distance then size, and none left out is nearer than one kept |
| Pricing.NearestFirst | src/app.jsx:182-186 | a prefix of a by-distance ordering is a sub-multiset, stays ordered, and no dropped size comes before a kept one |
| Pricing.DefaultSelectedKW | src/app.jsx:209 | a picked size is kept; otherwise the second suggestion when it is nonzero, else the first, else 0, and always 0 or a suggestion |
| Pricing.Panels | src/app.jsx:223 | the panel count is never negative: the typed number when positive, 0 for negative or unreadable text |
| Pricing.Maintenance | src/app.jsx:222-226 | net = panels × price per panel, vat = net × rate / 100, gross = net × (1 + rate / 100), with NaN spreading from an unreadable price or rate; `MaintenanceForm` at src/app.jsx:624-627 uses the same arithmetic |
| Pricing.MaintenanceGrossCoversNet | src/app.jsx:224-226 | with a non-negative price and rate the net is non-negative and the gross is at least the net |
| Pricing.DecimalOrZero | src/app.jsx:1388-1412 | `parseFloat(...)` with a fallback of 0 is the comma-tolerant reading when readable and 0 otherwise |
| Pricing.EstimateKW | src/app.jsx:1389 | the selected size when it reads as a nonzero number, else the second suggested size, else 0 |
| Pricing.UnitPrice | src/app.jsx:1390-1395 | the price per kW comes from the curve when curve pricing is enabled, else from the flat system price |
| Pricing.EstimateOf | src/app.jsx:1396-1421 | the net total is NaN or non-negative, the grid energy is non-negative, production is kW × 1000, the yearly benefit is the self-consumed plus the exported value |
| Pricing.InstallEstimate | src/app.jsx:1385-1421 | the estimate of an installation offer, with the same bounds, for the size and unit price the offer reads |
| Pricing.EstimateBreakdown | src/app.jsx:1396-1406 | VAT is charged on subtotal − discount; the total before incentives is that plus VAT; each incentive is kW × its rate; the net total is max(0, total − incentives) |
| Pricing.EstimateWithoutPrice | src/app.jsx:1396-1406 | a NaN unit price, as a degenerate curve gives, makes the subtotal, the VAT and the net total NaN |
| Pricing.DiscountBounded | src/app.jsx:1397 | within the input's range of 0 to 30 %, the discount lies between 0 and 30 % of a non-negative subtotal |
| Pricing.EnergySplit | src/app.jsx:1408-1421 | with a share between 0 and 100 %, the self-consumed and the exported energy add up to the production, and the benefit is their value |
| Pricing.OfferSummary | src/app.jsx:1334-1343 | payback × benefit = net total when the benefit is positive, payback is 0 when there is no benefit, and it is never negative for a non-negative net |
| Pricing.SummaryDefaults | src/app.jsx:1338-1342 | without an environment group, CO2 is production × 0.12 kg and the trees are that / 21 |
| SettingsDefaults.SummaryWithDefaultEnvironment | src/app.jsx:1339-1342 | a snapshot with no environment group reads `DEFAULT_SETTINGS.environment`: CO2 is production × 0.12 kg and the trees are that / 21 |
| SettingsDefaults.SummaryWithTextEnvironment | src/app.jsx:1339-1342 | an environment group holding the saved texts "0.12" and "21" gives the same summary as the numbers |
| SettingsDefaults.SummaryOfFigures | src/app.jsx:1339-1342 | a present environment group whose two figures read as 0.12 and 21 gives the default summary |
| SettingsDefaults.GridFigureRead | src/app.jsx:1341 | a stored CO2 text "0.12" is read through its 0.12 fallback and `*` as 0.12 |
| SettingsDefaults.TreeFigureRead | src/app.jsx:1342 | a stored tree text "21" is read through its 21 fallback and `/` as 21 |
| SettingsDefaults.GridTextReads | src/app.jsx:723 | the text "0.12" the form shows reads back as 0.12 under `Number` |
| SettingsDefaults.TreeTextReads | src/app.jsx:724 | the text "21" the form shows reads back as 21 under `Number` |
| Pricing.DiscountInput | src/app.jsx:1537-1541 | the discount input lands in [0, 30]: a value in range is kept, larger values give 30, smaller values 0, unreadable text 0 |
| Sorting.InsertAsc | src/app.jsx:505 | inserting one size keeps the same elements plus that size |
| Sorting.InsertAscSorted | src/app.jsx:505 | inserting into an ascending list keeps it ascending |
| Sorting.SortAsc | src/app.jsx:505 | the numeric sort returns a permutation of its input, in ascending order |
| Sorting.InsertByDist | src/app.jsx:184 | the stable insertion keeps the same elements plus the inserted one |
| Sorting.SortByDist | src/app.jsx:181-184 | sorting by distance is a permutation of the input |
| Sorting.InsertByDistSorted | src/app.jsx:184 | inserting into a list ordered by distance keeps it ordered |
| Sorting.SortByDistSorted | src/app.jsx:181-184 | the result is ordered by distance from the target |
| Sorting.InsertByDistThenSize | src/app.jsx:184 | inserting a size no larger than the rest keeps the order by distance, ties smaller first |
| Sorting.SortByDistThenSize | src/app.jsx:180-184 | starting from ascending sizes, the stable sort orders by distance and breaks ties toward the smaller size |
| SizeOptions.Below | src/app.jsx:515 | the filter keeps exactly the sizes below M |
| SizeOptions.Above | src/app.jsx:516 | the filter keeps exactly the sizes above M |
| SizeOptions.BelowAscending | src/app.jsx:505-515 | filtering a sorted list keeps it sorted |
| SizeOptions.AboveAscending | src/app.jsx:505-516 | filtering a sorted list keeps it sorted |
| SizeOptions.DedupeFrom | src/app.jsx:521 | keeping first occurrences gives a duplicate-free list with the same elements, in order |
| SizeOptions.Dedupe3 | src/app.jsx:521 | de-duplicating [S, M, L] gives one to three distinct sizes, exactly {S, M, L} |
| SizeOptions.SortedDistinct | src/app.jsx:528 | sorting a duplicate-free list makes it strictly ascending |
| SizeOptions.NearestIndex | src/app.jsx:508-512 | the scan stops at the first index of minimal distance to the target |
| SizeOptions.SmallPick | src/app.jsx:518 | S is a catalog size; when a smaller size exists it is the largest size below M |
| SizeOptions.LargePick | src/app.jsx:519 | L is a catalog size; when a larger size exists it is the smallest size above M |
| SizeOptions.Backfill | src/app.jsx:522-527 | backfilling appends, in catalog order, the first catalog sizes not yet offered until there are three; the options stay distinct, keep what was there and hold only catalog sizes, and there are three of them or the whole catalog |
| SizeOptions.NewInOrderMembers | src/app.jsx:522-527 | the sizes the scan can add are exactly the catalog sizes not yet offered, each once |
| SizeOptions.NewInOrderAppend | src/app.jsx:522-527 | scanning a catalog in two parts adds the first part's new sizes, then the second part's sizes that neither had |
| SizeOptions.FirstNearestUnique | src/app.jsx:507-511 | only one index is the first of minimal distance |
| SizeOptions.AroundExample | src/app.jsx:504-529 | sizes 1, 2, 3, 4 and 10 kW around a 10 kW target give the options 1, 4 and 10 |
| SizeOptions.BackfillExample | src/app.jsx:522-527 | offering 4 and 10 from 1, 2, 3, 4 and 10 fills the free place with 1, the first size not offered |
| SizeOptions.PicksExample | src/app.jsx:518-519 | around 10 of 1, 2, 3, 4 and 10, S is 4 and, with nothing larger, L falls back to 4 |
| SizeOptions.DedupeExample | src/app.jsx:521 | de-duplicating 4, 10 and 4 gives 4 and 10 |
| SizeOptions.SortExample | src/app.jsx:528 | sorting 4, 10 and 1 gives 1, 4 and 10 |
| SizeOptions.OptionCount | src/app.jsx:521-527 | the number of options is three, or the number of distinct sizes when the catalog has fewer |
| SizeOptions.SortedOptions | src/app.jsx:528 | the sorted options are strictly ascending and are the same sizes |
| SizeOptions.Neighbours | src/app.jsx:515-519 | for every size below (above) M, an offered size lies between it and M |
| SizeOptions.NearestIsMid | src/app.jsx:508-513 | M is at least as near the target as every size, and an equally near size is not smaller |
| SizeOptions.BuildOptionsAround | src/app.jsx:504-530 | an empty list gives no options and mid 0; otherwise mid is the nearest size (ties to the smaller) and is offered; the options are strictly ascending catalog sizes, min(3, distinct sizes) of them, include the nearest neighbours on each side of mid, and are exactly S, M and L filled up in catalog order and sorted |
| OfferRef.OfferCounter.constructor | src/app.jsx:19 | the counter starts from what the storage slot holds |
| OfferRef.OfferCounter.Next | src/app.jsx:18-25 | the slot is overwritten with the new stamp written as a string, and the reference is FV- and that stamp |
| OfferRef.StampAfter | src/app.jsx:21-22 | the stamp is never before the clock, always after a readable last stamp, and equals the clock exactly when the clock is ahead or the last stamp is unreadable |
| OfferRef.EmptySlotReadsZero | src/app.jsx:20 | a missing or empty slot reads as stamp 0 |
| OfferRef.StoredStampReads | src/app.jsx:20-23 | a stamp written to the slot reads back as itself |
| OfferRef.WholeStamp | src/app.jsx:20-22 | whole clock readings over a whole last stamp give a whole, writable stamp |
| OfferRef.SuccessiveStampsIncrease | src/app.jsx:18-25 | numbering twice gives a strictly larger second stamp, whatever the second clock reading |
| OfferRef.RefsDistinct | src/app.jsx:24 | different stamps give different references |
| OfferRef.NextTwice | src/app.jsx:18-25 | two references numbered in a row on one counter differ, and the slot then holds a whole readable stamp |
| Settings.MergeGroup | src/app.jsx:92 | a merged group has the default keys and the stored group's keys, and no others |
| Settings.Merge | src/app.jsx:89-98 | the merged settings have the default top-level keys and the stored ones, and no others |
| Settings.LoadSettings | src/app.jsx:83-103 | nothing stored, unparsable text or a stored null give the defaults; any other stored value is merged over them |
| Settings.DefaultTopKeys | src/app.jsx:28-81 | the defaults have exactly the top-level keys the merge rebuilds |
| Settings.LoadedComplete | src/app.jsx:83-103 | whatever is stored, every group comes out an object with every default key, and all default top-level keys are present |
| Settings.MergeComplete | src/app.jsx:89-98 | any stored object merges to complete settings |
| Settings.DefaultsComplete | src/app.jsx:28-81 | the shipped defaults are complete |
| Settings.GroupKeysMerged | src/app.jsx:92-96 | inside a stored group, a stored key wins and a missing key takes its default |
| Settings.FalsyGroupDefaults | src/app.jsx:92-96 | a missing or falsy group comes out as its defaults |
| Settings.TopLevelKept | src/app.jsx:90-91 | a stored top-level key outside the groups and the size list is kept as stored |
| Settings.PvSizesRule | src/app.jsx:96 | the stored size list is kept when truthy, else the default list |
| Settings.CompleteGroupKept | src/app.jsx:92-96 | a group that already has every default key comes out of the merge unchanged |
| Settings.LoadAfterSave | src/app.jsx:83-105 | saving settings and loading them gives them back exactly when they are complete |
| Settings.CompleteMergeFixed | src/app.jsx:89-98 | merging complete settings changes nothing |
| Settings.LoadIdempotent | src/app.jsx:83-105 | reloading what was loaded gives the same settings |
| Settings.DefaultsRoundTrip | src/app.jsx:83-105 | the defaults survive a save and a load unchanged |
| PvSizesText.WordLength | src/app.jsx:982 | the leading word is separator-free and ends at a separator or at the end of the text |
| PvSizesText.SeparatorLength | src/app.jsx:982 | the leading separator run is all separators and ends at a non-separator or at the end |
| PvSizesText.Pieces | src/app.jsx:982 | splitting always gives at least one piece |
| PvSizesText.SizesFrom | src/app.jsx:983-984 | reading the pieces keeps only positive numbers, at most one per piece |
| PvSizesText.SizesOfText | src/app.jsx:981-984 | every size read from the field is positive |
| PvSizesText.Printed | src/app.jsx:986 | each size is written as its number text |
| PvSizesText.SizesJson | src/app.jsx:985 | the saved list holds the sizes as numbers, in order |
| PvSizesText.InitialTextOfSizes | src/app.jsx:728-730 | a stored list of numbers opens as its sizes joined with a comma and a space |
| PvSizesText.WordLengthExactly | src/app.jsx:982 | a word followed by a separator or the end is exactly the leading word |
| PvSizesText.JoinStartsWith | src/app.jsx:986 | a joined list starts with its first piece |
| PvSizesText.PiecesOfJoin | src/app.jsx:982-986 | splitting non-empty separator-free words joined by a comma and a space gives the words back |
| PvSizesText.PrintedWord | src/app.jsx:986 | a positive size prints as a non-empty word with no separator |
| PvSizesText.SizesOfPrinted | src/app.jsx:983-986 | reading back printed positive sizes gives the sizes |
| PvSizesText.FirstPrintedReads | src/app.jsx:983 | a printed positive size parses back to itself |
| PvSizesText.EmptyTextNoSizes | src/app.jsx:981-984 | an empty field holds no size |
| PvSizesText.SizesTextRoundTrip | src/app.jsx:981-986 | the joined text of positive sizes reads back as the same sizes |
| PvSizesText.BlurIdempotent | src/app.jsx:980-987 | leaving the field a second time changes neither the sizes nor the text |
| PvSizesText.DecimalCommaSplits | src/app.jsx:982-984 | a decimal comma is a separator here, so 12,5 reads as the two sizes 12 and 5 |
| PvSizesText.TwoPieces | src/app.jsx:982 | 12,5 splits into 12 and 5 |
| PvSizesText.PieceTwelve | src/app.jsx:983 | the piece 12 reads as 12 |
| PvSizesText.PieceFive | src/app.jsx:983 | the piece 5 reads as 5 |
| PvSizesText.TypedText | src/app.jsx:976-979 | a typed text is kept exactly when every character is a digit, point, comma, semicolon or white space; otherwise the field keeps its text |
| AdminForm.InputText | src/app.jsx:716-724 | a stored number shows as its number text, a missing or null figure as empty text, a string as itself |
| AdminForm.InputTextReadsBack | src/app.jsx:716-724 | a stored figure shown as text reads back as the same figure |
| AdminForm.AsInputs | src/app.jsx:713-726 | the form's copy of a group has the listed figures replaced by their text and every other key as stored |
| AdminForm.TypedDecimal | src/app.jsx:895 | a decimal field keeps a typed text exactly when it is all digits, points and commas, else keeps its text |
| AdminForm.TypedInteger | src/app.jsx:1025 | a kW field of the curve keeps a typed text exactly when it is all digits, else keeps its text |
| AdminForm.BlurredPercent | src/app.jsx:1182-1183 | a self-consumption share after the field is left lies in 0 to 100; a readable share in range is kept and an unreadable one takes the field's default |
| AdminForm.BlurPercentSaved | src/app.jsx:1182-1188 | the text a share field shows after it is left reads as that share, and saving keeps it |
| AdminForm.BlurDecimalKeepsValue | src/app.jsx:897-904 | leaving a decimal field never changes the figure its text reads as |
| AdminForm.BlurIntegerKeepsValue | src/app.jsx:1027-1029 | leaving a kW field never changes the whole number its text reads as |
| AdminForm.DigitsOnlyNonNegative | src/app.jsx:1025-1028 | a digits-only kW text never reads as a negative number |
| AdminForm.EmptyNoInteger | src/app.jsx:1028 | an empty kW text is unreadable |
| AdminForm.DecimalTextNotNegative | src/app.jsx:895-898 | what a decimal field accepts never reads as a negative figure |
| AdminForm.ScanUnsignedNotNegative | src/app.jsx:756 | an unsigned number read from a text is never negative |
| AdminForm.FracValueNotNegative | src/app.jsx:756 | the fractional digits add a non-negative amount |
| AdminForm.ParseField | src/app.jsx:755-758 | a readable text gives its number, an unreadable one the fallback |
| AdminForm.ClampPercent | src/app.jsx:770 | the result lies in 0 to 100; a share in range is kept, above 100 gives 100, unreadable or negative gives 0 |
| AdminForm.KeyNamesDistinct | src/app.jsx:759-772 | the export price and the incentives are written under keys no price uses |
| AdminForm.IncentiveValue | src/app.jsx:765-767 | a readable incentive text gives its number, else the fallback |
| AdminForm.Incentives | src/app.jsx:764-768 | the incentives have exactly the three keys, each read from its text with the saved or shipped figure as fallback |
| AdminForm.NormalizedEntryAt | src/app.jsx:753-774 | every key of the normalised pricing reads as the entry the normalisation writes for it |
| AdminForm.NormalizedPrice | src/app.jsx:759-762 | each price takes the figure its text reads as, or the saved figure when the text is unreadable |
| AdminForm.NormalizedPercent | src/app.jsx:770-771 | each self-consumption share is clamped into 0 to 100, with 0 for an unreadable text, and a share in range is kept |
| AdminForm.PercentEntry | src/app.jsx:770-771 | a share is written as its clamped reading |
| AdminForm.NormalizedExport | src/app.jsx:772 | the export price falls back to the saved one, or to 0.05 |
| AdminForm.NormalizedIncentives | src/app.jsx:764-768 | the incentives are rebuilt from their three texts |
| AdminForm.NormalizedOthersKept | src/app.jsx:754 | every key the normalisation does not write is kept |
| AdminForm.PricingOpenSave | src/app.jsx:713-774 | opening the form and saving it without an edit leaves a well-formed pricing group exactly as it was |
| AdminForm.SameMembersSame | src/app.jsx:754 | two objects with the same members are equal |
| AdminForm.KeptOnOpenSave | src/app.jsx:713-774 | key by key, opening and saving a well-formed pricing group keeps every member |
| AdminForm.FormFigureReads | src/app.jsx:716-722 | a price shown in the form reads back as the stored price |
| AdminForm.IncentivesOpenSave | src/app.jsx:740-768 | opening and saving readable incentives keeps them exactly |
| AdminForm.PrintedIncentiveKept | src/app.jsx:740-767 | an incentive shown as its number text is saved as that number |
| AdminForm.IncentiveTextShown | src/app.jsx:740-748 | a stored incentive opens as its number text |
| AdminForm.CurveKeysDistinct | src/app.jsx:778-782 | the curve keys that share a length are different |
| AdminForm.CurveObjectFields | src/app.jsx:778-782 | the stored curve has exactly the four keys, each holding its figure |
| AdminForm.CurveObjectRead | src/app.jsx:116-119 | a stored curve with nonzero, printable figures reads back as itself |
| AdminForm.NormalizedCurve | src/app.jsx:777-784 | the thresholds are whole readings of their texts or 8 and 200; the prices are decimal readings or 2000 and 1000; none is zero |
| AdminForm.FigureRead | src/app.jsx:116-119 | a nonzero stored figure is read as it is |
| AdminForm.SavedCurveRead | src/app.jsx:777-784 | the curve the form saves is the curve the pricer reads |
| AdminForm.CurveOpenSave | src/app.jsx:734-784 | opening and saving a curve keeps its prices and cuts its thresholds to whole kW |
| AdminForm.KeptFigure | src/app.jsx:756-772 | a stored figure that prints and reads back exactly, with a percentage inside 0 to 100, is saved unchanged after opening the form |
| AdminForm.KeptIncentives | src/app.jsx:764-768 | stored incentives with exactly the three keys and printable numbers are saved unchanged after opening the form |
| AdminForm.KeptOther | src/app.jsx:754 | a pricing key the form does not edit is saved as it was |
| AdminForm.IncentiveKept | src/app.jsx:740-767 | an incentive opened as its printed number text is rebuilt as the same number |
| AdminForm.MisspeltUndeclared | src/app.jsx:713-748 | none of `municipalInceptives`, `curcurveMinKW`, `setCurcurveMinKW` and `pricePerKWFromCurcurve` is among the names the panel declares |
| AdminForm.NormalizePricingReading | src/app.jsx:753-774 | normalising the pricing succeeds exactly when the identifier the municipal incentive is read through is declared |
| AdminForm.PricingReadThrows | src/app.jsx:767 | as written, every normalisation of the pricing throws a `ReferenceError` for `municipalInceptives` |
| AdminForm.PricingReadNormalizes | src/app.jsx:753-774 | read through `municipalIncentive`, the normalisation is the one `NormalizePricing` describes |
| AdminForm.NormalizeCurveReading | src/app.jsx:777-784 | normalising the curve succeeds exactly when the identifier the minimum threshold is read through is declared |
| AdminForm.CurveReadThrows | src/app.jsx:779 | as written, every normalisation of the curve throws a `ReferenceError` for `curcurveMinKW` |
| AdminForm.CurveReadNormalizes | src/app.jsx:777-784 | read through `curveMinKW`, the normalisation is the one `NormalizeCurve` describes |
| Admin.Head3 | src/app.jsx:788 | the write uses the first three path segments, and all of them when there are at most three |
| Admin.UpdateSucceeds | src/app.jsx:786-793 | the update succeeds exactly when every object it writes into is there |
| Admin.UpdateIsPathWrite | src/app.jsx:786-793 | where it succeeds, the update is the path write of the catalog editor on the first three segments |
| Admin.UpdateReadBack | src/app.jsx:786-793 | after an update the value reads back at the path, and every other top-level key is kept |
| Admin.GroupFieldUpdate | src/app.jsx:786-793 | a field written inside a settings group always succeeds and keeps the settings complete |
| Admin.FigureTextWritten | src/app.jsx:895 | typing puts the text in its field and keeps the group's other fields and the other groups |
| Admin.BlurredFigureReads | src/app.jsx:897-904 | leaving a figure field never changes what saving reads from it |
| Admin.ShownTextReads | src/app.jsx:716-724 | a field reads as the number its shown text reads as |
| Admin.WithCurveText | src/app.jsx:734-737 | setting one curve text changes that text only |
| Admin.WithIncentiveText | src/app.jsx:740-748 | setting one incentive text changes that text only |
| Admin.SavedSizes | src/app.jsx:1294-1299 | saving stores the sizes the text reads as, all positive |
| Admin.SavedCurve | src/app.jsx:1300-1302 | saving stores the curve switch and the normalised curve |
| Admin.SavedPricingAt | src/app.jsx:1300-1302 | the saved pricing group is the normalised pricing with the switch and the curve |
| Admin.SavedCurveAt | src/app.jsx:1302 | the saved curve is the normalised curve |
| Admin.SavedSwitchAt | src/app.jsx:1301 | the saved switch is the panel's switch |
| Admin.DefaultPricingKeys | src/app.jsx:39-60 | the shipped pricing keys are those the normalisation writes plus the switch and the curve |
| Admin.SavedPricingKeys | src/app.jsx:753-774 | normalising keeps every key of the pricing group, provided each price has a saved figure |
| Admin.EntryPresent | src/app.jsx:753-774 | each such key gets an entry |
| Admin.SavedPricingComplete | src/app.jsx:1300-1302 | the saved pricing group holds every shipped pricing key |
| Admin.SavedOthersKept | src/app.jsx:1296-1303 | saving leaves every top-level key but the sizes and the pricing alone, so the environment figures stay the text the form made of them |
| Admin.SavedComplete | src/app.jsx:1292-1305 | saving complete settings gives complete settings |
| Admin.SavedSizesUsable | src/app.jsx:1294-1299 | the saved size list is present and truthy, so loading keeps it |
| Admin.SavedGroup | src/app.jsx:1292-1305 | each group of the saved settings is complete |
| Admin.SavedReloads | src/app.jsx:1292-1305 | what the panel saves from complete settings loads back unchanged |
| Admin.InitialLocalShape | src/app.jsx:713-726 | the working copy has the keys of the settings, and only the pricing and environment figures become text |
| Admin.AdminPanel.constructor | src/app.jsx:712-748 | the panel opens on the settings, their working copy, the size text, the curve switch and texts and the incentive texts |
| Admin.AdminPanel.Update | src/app.jsx:786-793 | the working copy becomes the written copy where the write succeeds, and is unchanged where it would throw |
| Admin.AdminPanel.TypeFigure | src/app.jsx:892-896 | the text is taken only when it is all digits, points and commas |
| Admin.AdminPanel.BlurFigure | src/app.jsx:897-905 | the field is rewritten as its reading, or left as it is when unreadable |
| Admin.AdminPanel.BlurShare | src/app.jsx:1180-1190 | the share field is rewritten as its clamped reading, or its default |
| Admin.AdminPanel.TypePvSizes | src/app.jsx:976-979 | the size text follows the accepted-characters rule |
| Admin.AdminPanel.BlurPvSizes | src/app.jsx:980-987 | the sizes read from the text go into the working copy and the text is rewritten as them |
| Admin.AdminPanel.SetCurveEnabled | src/app.jsx:1011-1015 | sets the curve switch |
| Admin.AdminPanel.TypeCurve | src/app.jsx:1022-1026 | a curve text takes a typed text by its field's rule, and only that text changes |
| Admin.AdminPanel.BlurCurve | src/app.jsx:1027-1030 | leaving a curve field rewrites only its text |
| Admin.SaveReading | src/app.jsx:1292-1305 | saving succeeds exactly when both identifiers it reads are declared |
| Admin.SaveThrows | src/app.jsx:1292-1305 | as written, every save throws a `ReferenceError` for `municipalInceptives`, read at line 767, before anything is stored |
| Admin.SaveReadingSaves | src/app.jsx:1292-1305 | with the declared names, saving stores what `Admin.Saved` describes |
| Admin.BlurMinKWCalling | src/app.jsx:1027-1030 | leaving the minimum-threshold field succeeds exactly when the setter it calls is declared |
| Admin.BlurMinKWThrows | src/app.jsx:1029 | as written, leaving the field throws a `ReferenceError` for `setCurcurveMinKW` |
| Admin.BlurMinKWRewrites | src/app.jsx:1027-1030 | through `setCurveMinKW`, leaving the field rewrites its text as `BlurCurve("minKW")` does |
| Admin.CurvePreviewCalling | src/app.jsx:1080-1084 | the curve preview renders exactly when the function it calls for 50 kW is declared |
| Admin.CurvePreviewThrows | src/app.jsx:1082 | as written, every render of the panel throws a `ReferenceError` for `pricePerKWFromCurcurve` |
| Admin.CurvePreviewPrices | src/app.jsx:1080-1084 | through `pricePerKWFromCurve`, the preview shows the curve price per kW at 8, 50 and 200 kW of the curve as typed |
| Admin.PreviewPriceAt | src/app.jsx:1081-1083 | a preview price at a whole number of kW is the curve price there of the curve as typed |
| Admin.AdminPanel.TypeIncentive | src/app.jsx:1107-1111 | an incentive text takes a typed decimal text, and only that text changes |
| Admin.AdminPanel.BlurIncentive | src/app.jsx:1112-1115 | leaving an incentive field rewrites only its text as its reading |
| Admin.AdminPanel.Save | src/app.jsx:1292-1305 | the settings become what the panel holds, read back from its texts, and that is what is stored |
| Admin.AdminPanel.Cancel | src/app.jsx:1309 | the working copy becomes what storage loads |
| Admin.AdminPanel.RestoreDefaults | src/app.jsx:1310-1318 | the settings, and what is stored, become the defaults |
| WizardTree.CategoryKeys | src/ai/wizardTree.js:5-180 | the keys of the categories, one per category and in order |
| WizardTree.FindCategory | src/ai/AIWizard.jsx:48-51 | `find` gives a category exactly when one has the key, and then the first such category |
| WizardTree.EveryCategoryEndsWithQuantity | src/ai/wizardTree.js:40-176 | every category of the tree ends with the numeric `quantita` step |
| WizardTree.CategoryKeysAreHandled | src/ai/wizardTree.js:7-172 | the category keys are exactly luce, prese_interruttori, wallbox, telefonia, videosorveglianza, domotica, riparazioni and altro, in that order and each once |
| WizardTree.StepPositions | src/ai/wizardTree.js:11-38 | luce's steps are tipoLuce, ambiente, stile; wallbox's second step is tipoWB; the other priced categories start with a choice |
| WizardTree.ChoiceKeysDistinct | src/ai/wizardTree.js:14-19 | within every step the choice keys are distinct |
| WizardTree.OnlyAltroHasText | src/ai/wizardTree.js:172-177 | a category has a free-text step exactly when it is altro |
| WizardAnswers.NumFallsBackOnlyOnNaN | src/ai/AIWizard.jsx:40-43 | `num(v, d)` is d when the decimal-comma parse is NaN and the parsed number otherwise, so a typed 0 stays 0 |
| WizardAnswers.NumOfStoredNumber | src/ai/AIWizard.jsx:40-43 | `num` of a stored number is that number |
| WizardAnswers.NumOfNothing | src/ai/AIWizard.jsx:40-43 | `num` of undefined or null is the fallback |
| WizardAnswers.NumOfNumberRule | src/ai/AIWizard.jsx:247 | `num` of a number held in state is the number, or the fallback for NaN |
| WizardAnswers.Quantity | src/ai/AIWizard.jsx:88 | the quantity `Math.max(1, num(quantita, 1))` is at least 1 |
| WizardAnswers.QuantityRule | src/ai/AIWizard.jsx:236 | the quantity is the typed count when it reads as at least 1, and 1 when it is missing, unreadable or smaller |
| WizardAnswers.LabelOfChoice | src/ai/AIWizard.jsx:72-75 | with distinct keys, the key of a choice is shown as that choice's label |
| WizardAnswers.LabelOfOther | src/ai/AIWizard.jsx:72-75 | a key that matches no choice is shown as itself |
| WizardAnswers.Shown | src/ai/AIWizard.jsx:111 | `filter(Boolean)` keeps at most the parts it was given |
| WizardAnswers.FalsyPartsDropped | src/ai/AIWizard.jsx:111 | a falsy part is dropped and the parts around it are kept in order |
| WizardAnswers.ShownCons | src/ai/AIWizard.jsx:111 | the filter works part by part: the first part's fate does not depend on the rest |
| WizardAnswers.WithQuantity | src/ai/AIWizard.jsx:190 | " × qty" is appended exactly when the quantity exceeds 1 |
| WizardAnswers.AllStepsAnswered | src/ai/AIWizard.jsx:54-69 | the loop answers true exactly when a category is selected and every step has an answer: a non-blank value for a number, non-blank text for a text step, a truthy key for a choice |
| WizardAnswers.ZeroCountsAsAnswered | src/ai/AIWizard.jsx:60 | a number step answered with 0 or "0" counts as answered, while an empty choice key does not |
| WizardAnswers.ZeroNotBlank | src/ai/AIWizard.jsx:60 | "0" is not blank once trimmed |
| WizardAnswers.BlankNotAnswered | src/ai/AIWizard.jsx:60 | a number step answered with white space only is unanswered |
| WizardAnswers.MissingAnswerBlocks | src/ai/AIWizard.jsx:57-59 | a step with no answer at all keeps the category incomplete |
| WizardAnswers.CalloutTriState | src/ai/AIWizard.jsx:86 | an explicit true applies the call-out and an explicit false does not; unset falls back to `autoApplyCallout`; any other set value counts by its truthiness |
| WizardPreview.MemberOfOrEmpty | src/ai/AIWizard.jsx:99-100 | reading a key through `x or {}` gives the same value as reading it from x itself, so the fallback object only guards the property access |
| WizardPreview.SumOfOne | src/ai/AIWizard.jsx:116-118 | a unit figure made of one catalog value is that value read as a number (NaN-propagating in the offer copy, NaN-to-0 in the preview copy) |
| WizardPreview.SumOfTwo | src/ai/AIWizard.jsx:103-104 | a unit figure made of two catalog values is the sum of both values read as numbers, in each copy's own number reading |
| WizardPreview.ComputePreviewFromAnswers | src/ai/AIWizard.jsx:78-205 | the offer-side computation returns exactly the reference preview of the answers: null without a category or for an unknown category key, and otherwise the priced line of that category's unit |
| WizardPreview.PriceUnitA | src/ai/AIWizard.jsx:81-88 | the rates are read from the settings (VAT, hourly rate, travel rate, call-out fee, auto call-out flag, default one-way minutes), the quantity is at least 1, the travel minutes default to twice the one-way time and the call-out follows the tri-state answer; the line is the reference priced line for those inputs |
| WizardPreview.LineTotalsA | src/ai/AIWizard.jsx:178-204 | labour, net per unit, travel, call-out, subtotal, VAT and total are the reference priced line, and the description gains a ` × qty` suffix only when the quantity exceeds 1 |
| WizardPreview.CategoryUnitA | src/ai/AIWizard.jsx:94-176 | the unit for a category is found exactly for the eight handled keys, and no unit is found for any other key |
| WizardPreview.LightUnitA | src/ai/AIWizard.jsx:95-113 | the light unit's minutes are the type's minutes plus the context's extra minutes, its materials the style price plus the context's extra price, and its description names type, context and style, as the reference unit does |
| WizardPreview.EntryUnitA | src/ai/AIWizard.jsx:114-166 | for sockets, telephony, video surveillance, home automation and repairs the unit is the chosen entry's minutes and base material price and its description joins the category's title with the chosen answer's label, blank parts dropped, as the reference unit does |
| WizardPreview.WallboxUnitA | src/ai/AIWizard.jsx:122-134 | the wallbox unit's materials are the type's price plus the distance band's price, and its description names power, type and distance, as the reference unit does |
| WizardPreview.CustomUnitA | src/ai/AIWizard.jsx:167-173 | the custom unit reads the catalog's custom entry and describes itself by the trimmed free text, or by a fixed fallback when that is empty, as the reference unit does |
| WizardPreview.LuceFiguresA | src/ai/AIWizard.jsx:99-104 | the light unit's minutes are entry minutes plus context extra minutes and its materials are style price plus context extra price, each read with NaN propagation |
| WizardPreview.WallboxFiguresA | src/ai/AIWizard.jsx:126-130 | the wallbox unit's minutes are the entry's minutes and its materials are type price plus distance band price, each read with NaN propagation |
| WizardPreview.SimpleFiguresA | src/ai/AIWizard.jsx:116-118 | for every category other than light and wallbox the unit's figures are the entry's minutes and its base material price |
| WizardPreview.PreviewBNone | src/ai/AIWizard.jsx:231-308 | the live preview is null without an active category, for an unknown category, and when the chosen catalog entry is missing |
| WizardPreview.PreviewBSome | src/ai/AIWizard.jsx:236-332 | otherwise the live preview is the priced line of the category's unit, with quantity at least 1, the rates read from the AI configuration and the travel minutes read with fallback 0 |
| WizardPreview.PreviewMemo | src/ai/AIWizard.jsx:230-333 | the memoised preview computes exactly the reference live preview of the active category, answers, catalog, configuration, travel minutes, call-out choice and VAT |
| WizardPreview.PriceUnitB | src/ai/AIWizard.jsx:310-332 | labour per unit, net per unit, travel (never negative minutes), call-out, subtotal, VAT and total are the reference priced line for the unit |
| WizardPreview.CategoryUnitB | src/ai/AIWizard.jsx:241-308 | a unit is found exactly for a handled category whose catalog entry exists, the custom category needing no entry |
| WizardPreview.LightUnitB | src/ai/AIWizard.jsx:241-253 | the light unit exists exactly when the catalog has the chosen light type, and is then the reference light unit |
| WizardPreview.WallboxUnitB | src/ai/AIWizard.jsx:261-271 | the wallbox unit exists exactly when the catalog has the chosen power, and is then the reference wallbox unit |
| WizardPreview.WallboxUnitOfB | src/ai/AIWizard.jsx:265-271 | the reference wallbox unit has the entry's minutes, type price plus distance band as materials, and a description naming power, type label and distance |
| WizardPreview.EntryUnitB | src/ai/AIWizard.jsx:254-299 | for sockets and the four simple categories the unit exists exactly when the catalog has the chosen entry, and is then the reference unit |
| WizardPreview.CustomUnitB | src/ai/AIWizard.jsx:300-305 | the custom category always yields the reference custom unit, whether or not the catalog has a custom entry |
| WizardPreview.LuceFiguresB | src/ai/AIWizard.jsx:247-252 | the light unit's minutes are entry minutes plus context extra minutes and its materials style price plus context extra price, unreadable figures counting 0 |
| WizardPreview.LightUnitOfB | src/ai/AIWizard.jsx:245-253 | the reference light unit's minutes, materials and description are the figures and text of the chosen light type, style and context |
| WizardPreview.LuceDescriptionB | src/ai/AIWizard.jsx:253 | the light description is `Luce · label (context, style label)`, each label falling back to the raw answer |
| WizardPreview.WallboxFiguresB | src/ai/AIWizard.jsx:267-270 | the wallbox unit's minutes are the entry's minutes and its materials type price plus distance band, unreadable figures counting 0 |
| WizardPreview.SimpleFiguresB | src/ai/AIWizard.jsx:258-304 | for categories other than light and wallbox the unit's figures are the entry's minutes and base material price |
| PreviewCopies.FigureCopiesAgree | src/ai/AIWizard.jsx:40-43 | on a catalog figure with no decimal comma and a plain number or numeric text, `Number(x ?? 0)` and `num(x)` read the same number |
| PreviewCopies.AddAgrees | src/ai/AIWizard.jsx:103-104 | adding two finite numbers in the NaN-propagating arithmetic gives their real sum |
| PreviewCopies.NumericFiguresAgree | src/ai/AIWizard.jsx:99-104 | when every figure of a unit is numeric, both copies read every figure alike |
| PreviewCopies.OneAgrees | src/ai/AIWizard.jsx:116-118 | a one-value figure that both copies read alike gives the same unit figure in both |
| PreviewCopies.TwoAgree | src/ai/AIWizard.jsx:103-104 | a two-value figure whose values both copies read alike gives the same sum in both |
| PreviewCopies.UnitsAgree | src/ai/AIWizard.jsx:94-176 | when both copies read a unit's figures alike, the offer copy's unit minutes and materials equal the memo copy's |
| PreviewCopies.PreviewASome | src/ai/AIWizard.jsx:78-205 | for a handled category, the offer-side preview is the priced line of that category's unit under the rates read from the settings |
| PreviewCopies.HourlyAgrees | src/ai/AIWizard.jsx:82 | a numeric hourly rate is read the same by `Number(... ?? 0)` and by `num(..., 0)` |
| PreviewCopies.PricedAgree | src/ai/AIWizard.jsx:178-180 | with equal unit minutes, materials and hourly rate, both copies give the same quantity, unit labour and net unit price |
| PreviewCopies.LaborAgrees | src/ai/AIWizard.jsx:178 | minutes ÷ 60 × hourly rate computed with NaN propagation is the real product when both inputs are numbers |
| PreviewCopies.CopiesAgreeOnNetPerUnit | src/ai/AIWizard.jsx:78-333 | for a category both copies price, with numeric catalog figures and a numeric hourly rate, `computePreviewFromAnswers` and the preview memo agree on quantity, unit minutes, unit materials, unit labour and net unit price |
| PreviewCopies.DecimalCommaFigure | src/ai/AIWizard.jsx:40-43 | the figure "12,5" is NaN to `Number` but 12.5 to `num` |
| PreviewCopies.NaNMinutesSpread | src/ai/AIWizard.jsx:178-188 | NaN unit minutes make the unit labour, net price, subtotal and total of the offer-side line NaN |
| PreviewCopies.DecimalCommaUnitA | src/ai/AIWizard.jsx:114-173 | an entry whose minutes are written "12,5" gives the offer-side unit NaN minutes |
| PreviewCopies.DecimalCommaUnitB | src/ai/AIWizard.jsx:254-305 | the same entry gives the memo's unit 12.5 minutes |
| PreviewCopies.DecimalCommaMinutesDiverge | src/ai/AIWizard.jsx:78-333 | an entry with minutes "12,5" makes the whole offer-side line NaN while the memo prices 12.5 minutes |
| PreviewCopies.MissingEntryDiverges | src/ai/AIWizard.jsx:78-333 | without a catalog entry for the chosen answer the memo shows nothing, while `computePreviewFromAnswers` still prices a line from zero minutes and zero materials |
| PreviewCopies.ZeroFigures | src/ai/AIWizard.jsx:99-104 | a figure made only of missing values sums to 0 in the offer copy |
| PreviewCopies.TreeCategoriesPriced | src/ai/AIWizard.jsx:94-173 | every category of the wizard tree gets an offer-side preview, never null |
| PreviewCopies.UnknownCategoryUnpriced | src/ai/AIWizard.jsx:174-175 | a category whose key is not one of the eight handled keys gets no preview |
| PreviewCopies.CustomDescriptions | src/ai/AIWizard.jsx:78-333 | for the custom category both copies price a line; with free text both say `Altro · text`, without it the offer copy says `Altro (personalizzato)` and the memo falls back to the catalog label or `Intervento` |
| PreviewCopies.CustomDescriptionA | src/ai/AIWizard.jsx:167-173 | the custom category's offer-side description is `Altro · text`, or `Altro (personalizzato)` for blank text, with the quantity suffix |
| PreviewCopies.CustomDescriptionB | src/ai/AIWizard.jsx:300-305 | the custom category's memo description is `Altro · text`, or `Altro · ` followed by the catalog label or `Intervento` |
| PreviewCopies.AltroHandled | src/ai/AIWizard.jsx:167 | the custom category key is one of the handled keys |
| WizardCart.NumberOr | src/ai/AIWizard.jsx:399-406 | `Number(x or d)` on a property that is a number or undefined keeps a non-zero number and gives d for undefined, 0 and NaN |
| WizardCart.ListedOf | src/ai/AIWizard.jsx:210-225 | an item added with "Aggiungi alla lista" copies the line's description, quantity, net, materials and labour per unit, subtotal, total and VAT, and carries no id |
| WizardCart.AddedOf | src/ai/AIWizard.jsx:340-349 | an item added from the live preview carries its id, the active category, the description, quantity, minutes, materials, labour and net per unit of the preview line |
| WizardCart.RemoveByIdCounts | src/ai/AIWizard.jsx:354-356 | removing by id drops every item whose id equals the given one and keeps every other item as often as it was there |
| WizardCart.RemoveByIdKeepsOrder | src/ai/AIWizard.jsx:354-356 | removing by id is the order-preserving filter of the items whose id differs |
| WizardCart.KeptByIdCons | src/ai/AIWizard.jsx:355 | the filter keeps the first item exactly when its id differs, then filters the rest |
| WizardCart.RemovingAListedItemRemovesAllListed | src/ai/AIWizard.jsx:638 | pressing "Rimuovi" on a listed item, which has no id, leaves only items added from the preview: every listed item goes |
| WizardCart.TwoListedItemsBothRemoved | src/ai/AIWizard.jsx:638 | with two listed items, removing the first by its id empties the cart |
| WizardCart.RemoveAt | src/ai/AIWizard.jsx:688 | removing by position shortens the cart by one for a valid position and leaves it unchanged otherwise |
| WizardCart.RemoveAtSpec | src/ai/AIWizard.jsx:688 | removing position i keeps the items before i, shifts the ones after it down by one, and removes exactly one copy of the item at i |
| WizardCart.RemoveAtKeepsOtherListed | src/ai/AIWizard.jsx:688 | with two listed items, removing the first by position keeps the second |
| WizardCart.RemoveRowIn | src/ai/AIWizard.jsx:688 | the click on "Rimuovi" in the list succeeds exactly when `removeItem` is declared |
| WizardCart.RemoveRowThrows | src/ai/AIWizard.jsx:688 | as written, every click throws a `ReferenceError` for `removeItem` and the cart is not changed |
| WizardCart.RemoveRowRemoves | src/ai/AIWizard.jsx:688 | with `removeItem` declared as removal by position, the click removes the item at that position |
| WizardCart.AddAssoc | src/ai/AIWizard.jsx:363-366 | NaN-propagating addition is associative, so the running sum can be regrouped |
| WizardCart.ItemsSubtotalConcat | src/ai/AIWizard.jsx:363-366 | the items subtotal of two lists joined is the sum of their subtotals |
| WizardCart.ZeroRight | src/ai/AIWizard.jsx:363-366 | adding 0 leaves a number or NaN unchanged |
| WizardCart.NaNLineSpoilsSubtotal | src/ai/AIWizard.jsx:363-366 | one item with a NaN net price makes the whole items subtotal NaN |
| WizardCart.MoreItemsAddOnlyTheirLines | src/ai/AIWizard.jsx:363-374 | appending items adds only their lines to the net total and changes neither travel nor call-out |
| WizardCart.EmptyCartTotals | src/ai/AIWizard.jsx:363-374 | an empty cart has items subtotal 0 and a net of travel plus call-out |
| WizardCart.GrossAddsVat | src/ai/AIWizard.jsx:372-374 | the gross total is the net plus net × VAT ÷ 100, and is NaN when the VAT is |
| WizardCart.SingleAddedItemMatchesPreview | src/ai/AIWizard.jsx:336-374 | a cart holding only the item made from the preview line has that line's subtotal as its net total |
| WizardCart.LineAgrees | src/ai/AIWizard.jsx:316 | the cart's running sum for one line equals the preview's subtotal formula on numbers |
| WizardOffer.Pad2 | src/ai/AIWizard.jsx:10 | `padStart(2, "0")` puts a 0 before a one-digit number and leaves longer numbers alone |
| WizardOffer.Pad2Digits | src/ai/AIWizard.jsx:10 | a month or day below 100 pads to exactly two digits that read back as that number |
| WizardOffer.Upper | src/ai/AIWizard.jsx:11 | upper-casing keeps the length and upper-cases each ASCII letter in place |
| WizardOffer.NextRefShape | src/ai/AIWizard.jsx:8-12 | for a four-digit year the reference is `SRV-`, eight digits that read back as year, month and day, a dash, and at most six characters of the identifier, none of them a lower-case letter |
| WizardOffer.YearDigits | src/ai/AIWizard.jsx:10 | a four-digit year prints as four digits that read back as the year |
| WizardOffer.ListedBreakdownLost | src/ai/AIWizard.jsx:401-402 | as written, every listed item shows zero materials and zero labour in the offer, whatever it carries |
| WizardOffer.ListedBreakdownExample | src/ai/AIWizard.jsx:397-407 | a listed item with 30 CHF materials and 50 CHF labour per unit shows 0 and 0 as written and 30 and 50 once each shape is read under its own names |
| WizardOffer.LineKeepsBreakdown | src/ai/AIWizard.jsx:397-407 | the corrected line keeps the materials and labour of either item shape, zero or NaN reading 0, and differs from the line as written only on listed items |
| WizardOffer.LineFallbacks | src/ai/AIWizard.jsx:397-407 | whichever breakdown is read, a line's quantity is the item's when non-zero and 1 otherwise, its VAT is 0, its unit net falls back to materials plus labour only when the item's is falsy, its subtotal to net × quantity only without a stored subtotal, and its total to 0 |
| WizardOffer.LineHasNoNaN | src/ai/AIWizard.jsx:397-407 | no figure of an offer line, as written or corrected, is NaN, since every read falls back to a number |
| WizardOffer.ListedLineAsWritten | src/ai/AIWizard.jsx:400-402 | on a listed item the line as written is the corrected line with materials and labour zeroed and the unit net falling back to 0 |
| WizardOffer.LineFromHasNoNaN | src/ai/AIWizard.jsx:399-406 | whatever the breakdown reads give, every figure of the line is a number |
| WizardOffer.FinOr | src/ai/AIWizard.jsx:399 | `Number(x or d)` is a number whenever the fallback is |
| WizardOffer.OfferLines | src/ai/AIWizard.jsx:396-407 | the offer has one line per cart item, in order, each the line as written of that item |
| WizardOffer.IntendedOfferLines | src/ai/AIWizard.jsx:396-407 | with the breakdown corrected, the offer has one line per cart item, in order, each the corrected line of that item |
| WizardOffer.OfferTotalsReadable | src/ai/AIWizard.jsx:425-433 | the offer's totals are numbers; they equal the cart's travel, call-out, net and gross where those are numbers and are 0 where the cart shows NaN, and the VAT rate is recorded as read |
| WizardOffer.VatReadingsAgree | src/ai/AIWizard.jsx:392 | reading the VAT rate with `?? 0` when saving gives the same number as reading it with or-0 when pricing |
| WizardOffer.CustomerFieldsFilled | src/ai/AIWizard.jsx:415-423 | each customer field is kept when truthy and is the empty string otherwise |
| WizardOffer.BuildOffer | src/ai/AIWizard.jsx:386-442 | the offer as written is refused, with the empty-cart message, exactly when the cart is empty |
| WizardOffer.BuiltOfferContents | src/ai/AIWizard.jsx:396-442 | a saved offer has one line as written per cart item in order, the cart's totals, the identifier, reference and time given, and is a draft service offer from the wizard |
| WizardOffer.BuildOfferIntended | src/ai/AIWizard.jsx:386-442 | the corrected offer is refused, with the empty-cart message, exactly when the cart is empty |
| WizardOffer.IntendedOfferDiffers | src/ai/AIWizard.jsx:396-442 | the offer as written and the corrected one agree on every field and on every added item's line; a listed item's line differs only in materials and labour, zeroed, and in the unit net falling back to 0 |
| WizardSession.TypedDigits | src/ai/AIWizard.jsx:518 | a numeric input keeps only digits |
| WizardSession.DigitsRead | src/ai/AIWizard.jsx:557 | a string of digits reads as its decimal value under `Number` (the empty one as 0), and under the decimal-comma parse as its value or NaN when empty |
| WizardSession.TravelTypedIsWholeMinutes | src/ai/AIWizard.jsx:555-558 | the travel field always holds the value of the digits typed, a whole number of minutes, never negative and never NaN |
| WizardSession.TypedNumberReads | src/ai/AIWizard.jsx:515-519 | a numeric answer reads back under `num` as the value of the digits typed, or as the fallback when none were typed |
| WizardSession.TypedNumberAnswers | src/ai/AIWizard.jsx:515-519 | a number step counts as answered exactly when some digit was typed |
| WizardSession.QuantityClearedToOne | src/ai/AIWizard.jsx:351 | after an item is added the cleared quantity reads as 1 and a category ending with a quantity step is incomplete again |
| WizardSession.FreshCategoryIncomplete | src/ai/AIWizard.jsx:466-469 | a category just selected has no answer, so it is not complete |
| WizardSession.AnswersAfterAdd | src/ai/AIWizard.jsx:337-351 | with a preview, `quantita` becomes "" and every other answer is kept; without one the answers are unchanged |
| WizardSession.Wizard.constructor | src/ai/AIWizard.jsx:27-38 | the wizard starts with no category, no answers, an empty cart, twice the default one-way travel minutes, the administrator's call-out default and an empty customer |
| WizardSession.Wizard.SelectCategory | src/ai/AIWizard.jsx:466-469 | selecting a category sets it and forgets every answer |
| WizardSession.Wizard.LeaveCategory | src/ai/AIWizard.jsx:482 | going back clears the category and keeps the answers |
| WizardSession.Wizard.Choose | src/ai/AIWizard.jsx:502-504 | a choice records the choice's key under the step's key and changes no other answer |
| WizardSession.Wizard.TypeNumber | src/ai/AIWizard.jsx:515-519 | a number field records the digits typed under the step's key and changes no other answer |
| WizardSession.Wizard.TypeText | src/ai/AIWizard.jsx:527-529 | a text field records the text as typed under the step's key and changes no other answer |
| WizardSession.Wizard.SetApplyCallout | src/ai/AIWizard.jsx:542 | the checkbox sets the call-out switch |
| WizardSession.Wizard.TypeTravel | src/ai/AIWizard.jsx:555-558 | the travel field becomes the typed digits' value, a number that is never negative |
| WizardSession.Wizard.AddCurrentToList | src/ai/AIWizard.jsx:207-227 | the cart gains exactly the listed item of the offer-side preview, with its meta, and nothing when there is no preview |
| WizardSession.Wizard.HandleAddItem | src/ai/AIWizard.jsx:336-352 | the cart gains exactly the item made from the live preview and the quantity is cleared; without a preview nothing changes |
| WizardSession.Wizard.Append | src/ai/AIWizard.jsx:338-351 | once the preview is read, the item is appended and the quantity cleared, or nothing changes for no preview |
| WizardSession.Wizard.HandleRemoveItem | src/ai/AIWizard.jsx:354-356 | the cart becomes the items whose id differs from the given one |
| WizardSession.Wizard.RemoveItemAt | src/ai/AIWizard.jsx:688 | the cart loses exactly the item at the given position |
| WizardSession.Wizard.HandleClearCart | src/ai/AIWizard.jsx:358-360 | clearing the cart empties it |
| WizardSession.Wizard.GenerateOffer | src/ai/AIWizard.jsx:386-442 | the offer as written, built from the cart, its totals, the settings and the customer, with the reference `nextRef` makes; it is refused exactly when the cart is empty |
| CatalogEditor.ChildFields | src/ai/CatalogEditor.jsx:26-27 | the walk descends into an existing object and replaces a missing, null or non-object entry by an empty object |
| CatalogEditor.SetVal | src/ai/CatalogEditor.jsx:20-31 | the loop over the segments and the write at the end produce exactly the catalog `SetPath` describes for `path.split(".")` |
| CatalogEditor.GetAfterSet | src/ai/CatalogEditor.jsx:24-29 | after the write, reading back along the same segments yields the new value |
| CatalogEditor.OtherKeysUnchanged | src/ai/CatalogEditor.jsx:21-29 | the top-level keys are the old ones plus the first segment, and every other top-level entry is unchanged |
| CatalogEditor.DivergingPathUnchanged | src/ai/CatalogEditor.jsx:21-29 | a read whose first segment differs from the written one sees the catalog as it was |
| CatalogEditor.OffPathUnchanged | src/ai/CatalogEditor.jsx:21-29 | at any depth, a read that leaves the written path finds what the catalog held below the object the walk reached there |
| CatalogEditor.IntermediateKept | src/ai/CatalogEditor.jsx:24-27 | an object on the path keeps its other contents next to the written entry |
| CatalogEditor.ScalarOnPrefixDiscarded | src/ai/CatalogEditor.jsx:26 | a scalar, null or missing entry on the path's prefix is replaced by an object that holds only the rest of the path |
| CatalogEditor.AsStr | src/ai/CatalogEditor.jsx:34 | numbers become their decimal text, null and undefined the empty string, and strings stay as they are |
| CatalogEditor.AsStrRoundTrip | src/ai/CatalogEditor.jsx:34-59 | the text `asStr` shows for a stored number reads back, under the comma-tolerant parse, as that number |
| CatalogEditor.NumInputFilter | src/ai/CatalogEditor.jsx:58 | the numeric input stores only the characters 0-9 . , - |
| CatalogEditor.NumInputKeepsComma | src/ai/CatalogEditor.jsx:58-59 | the filter keeps "12,5" as it is, so a catalog figure may be stored with a decimal comma |

## Left out

- Outside effects are not modelled: localStorage, sessionStorage, IndexedDB (`saveOfferToDB`, and its refusal of offers without `offerRef`), `alert`, routing, `openOffer` and the `try`/`catch` around `generateOffer`.
- The clock, `crypto.randomUUID` and `Math.random` are parameters. The stored counter of `nextOfferRef` is a field, and the date and random suffix of `nextRef` are arguments.
- React rendering, the password gate and lock groups, PDF and print export, and the configuration files are not modelled: they are rendering or plumbing.
- `currency` and `number` are not modelled, because they format through `Intl`.
- IEEE-754 rounding is not modelled: amounts are exact reals.
  - `String(n)` is modelled for numbers with at most 20 fractional digits.
  - Printing never produces exponent notation or `Infinity`.
  - A division by zero that would give `Infinity` is collapsed into NaN.
- JsNumbers.Trim: white space is the space, tab, line feed, carriage return, vertical tab, form feed and no-break space. The other Unicode space characters and line terminators that JavaScript's `trim` also removes are not included.
- WizardOffer.Upper: upper-cases ASCII letters only. The identifier it applies to holds only ASCII letters and digits.
- WizardOffer.NextRefShape: states the shape for four-digit years only. The year is a `nat` given as a parameter.
- The `!settings` guard of the wizard, which renders an error panel, is not modelled: the settings are always given.
- WizardPreview.TrimmedText: a `descrizione` answer that is not a string reads as empty. The source would throw on `.trim()`.
- A stored settings value that is a top-level string or array is treated as an object without keys.
- MergeGroup: a truthy group stored as a string or an array is treated as a group without keys. src/app.jsx:92-97 spreads it by index, so `{...d, ..."ab"}` gains the keys "0" and "1". Only settings edited outside the app can hold such a group.
- ScanLiteral: reads decimal literals only: an optional sign, digits, and an optional fraction. Exponents (`1e3`), `Infinity` and the `0x`, `0o` and `0b` prefixes are not read. The form filters admit only digits, '.', ',', '-', ';' and white space, so such text reaches the parsers only from values edited outside the app. The next three lines are what this means for each parser.
- ParseFloat: `parseFloat("1e3")` is 1000 in JavaScript and 1 here, and `parseFloat("Infinity")` is Infinity in JavaScript and NaN here.
- StringToNumber: `Number("1e3")` is 1000, `Number("0x10")` is 16 and `Number("Infinity")` is Infinity in JavaScript. All three are NaN here.
- ParseInt: `parseInt` is called without a radix, so `parseInt("0x10")` reads hexadecimal and is 16 in JavaScript. Here it reads the leading "0" and is 0.
- CatalogEditor.SetVal: an array sitting on the path is replaced by `{}`, like every other non-object. The source would write into the array's copy as into an object.
- Listed items do not carry the unit minutes, so their offer line shows 0 minutes, as the source does.
- `setCustomer` is never called by the wizard, so the customer stays `{}`. The model keeps the field and its reading.
- `handleAddItem` is not wired to any button in the rendered markup. It is modelled as `WizardSession.Wizard.HandleAddItem` all the same.
- The remaining pieces of src/app.jsx are not part of this model: the theme toggle, the offer list, navigation and rendering.
- src/lib/db.js, src/lib/format.js and src/pdf are not part of this model.

## Findings

| source | as written | input that shows it | evidently intended | confidence | as-written member | corrected member |
|---|---|---|---|---|---|---|
| src/ai/AIWizard.jsx:638 | the mini-cart's "Rimuovi" removes `items.filter(i => i.id !== it.id)`, but items added with "Aggiungi alla lista" carry no id, so `it.id` is undefined and every id-less item goes | a cart of two listed items; pressing "Rimuovi" on the first empties the cart | remove only the row pressed, by position, as the list below means to | not executed | WizardCart.TwoListedItemsBothRemoved | WizardCart.RemoveAtSpec |
| src/ai/AIWizard.jsx:401-402 | the offer lines read `it.materialsUnit` and `it.laborPerUnitCHF`, but listed items store `materialsPerUnit` and `laborPerUnit`, so their breakdown reads 0 | a listed item with 30 CHF of materials and 50 CHF of labour per unit shows 0 and 0 in the saved offer | read each item shape under its own property names | not executed | WizardOffer.ListedBreakdownExample | WizardOffer.BuildOfferIntended |
| src/app.jsx:1082 | the 50 kW price of the curve preview calls `pricePerKWFromCurcurve`, which is declared nowhere | opening the admin panel: its first render throws a `ReferenceError`, so the panel is never shown | call `pricePerKWFromCurve`, as the 8 and 200 kW prices do | not executed | Admin.CurvePreviewThrows | Admin.CurvePreviewPrices |
| src/app.jsx:767 | `normalizePricing` reads the municipal incentive as `municipalInceptives`, which is declared nowhere | pressing "Salva": the save throws before anything is stored | read the state `municipalIncentive` | not executed | Admin.SaveThrows | Admin.SaveReadingSaves |
| src/app.jsx:779 | `normalizeCurve` reads the minimum threshold as `curcurveMinKW`, which is declared nowhere | pressing "Salva" once the line above is corrected: the save still throws | read the state `curveMinKW` | not executed | AdminForm.CurveReadThrows | AdminForm.CurveReadNormalizes |
| src/app.jsx:1029 | leaving the minimum-threshold field calls `setCurcurveMinKW`, which is declared nowhere | typing "12" into the field and moving away: the handler throws and the text is not rewritten | call `setCurveMinKW` | not executed | Admin.BlurMinKWThrows | Admin.BlurMinKWRewrites |
| src/ai/AIWizard.jsx:688 | "Rimuovi" in the selected-items table calls `removeItem(i)`, which is declared nowhere | a cart of one item; pressing "Rimuovi" on it throws and the cart keeps the item | remove the item at position `i` | not executed | WizardCart.RemoveRowThrows | WizardCart.RemoveRowRemoves |

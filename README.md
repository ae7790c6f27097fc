# QuickQuote estimator model

QuickQuote is a renovation cost estimator. The user picks:

- a project type;
- a quality tier;
- a location;
- a room size.

It then computes labor and material costs from a rate table and rounds them
to cents. From those costs it derives marked-up, taxed and discounted totals
and a confidence range. The quote state around that pipeline holds:
- a short history of saved quotes;
- a list of material favorites;
- the materials added to the current quote.

This Dafny project models that core and proves what the code promises about
it.

Modules:

| module | file | models |
|---|---|---|
| `Wrappers` | wrappers.dfy | `Option` and `Result` |
| `JsNumber` | js_number.dfy | JavaScript numbers (finite, NaN, ±Infinity), `Math.min`, `Math.max` |
| `Money` | money.dfy | `round2` and whole-cent amounts |
| `NumberText` | number_text.dfy | the `[^\d.]` sanitiser, `Number()` of the cleaned text, `trim`, `parseFloat` |
| `Calc` | calc.dfy | `computeEstimate` of QuickQuote/src/lib/calc.js |
| `Hooks` | hooks.dfy | `useEstimate`, `useClampedNumber`, `useSelectableOptions` of QuickQuote/src/lib/hooks.js |
| `Materials` | materials.dfy | the favorites and material-addition list operations |
| `Totals` | totals.dfy | the derived-totals chain and `sqftForCalc` |
| `QuoteState` | quote_state.dfy | the QuickQuote estimator's state: history, `loadQuote`, the `Estimator` class |
| `LegacyEstimator` | legacy_estimator.dfy | the older component src/QuickQuoteEstimator.jsx |

Design choices:

- **Amounts.** Amounts are exact reals, and `round2(x)` is `floor(100·x + 1/2) / 100`. This is `Math.round` rounding half toward +∞.
- **Rate table.** The table is a parameter. `Calc.SampleRates` holds the values the test suite pins down.
- **Pure code.** Pure code becomes functions.
- **State.** State that the components replace through React setters becomes classes:
  - `Hooks.ClampedNumber`
  - `Hooks.SelectableOptions`
  - `QuoteState.Estimator`
  - `LegacyEstimator.Legacy`

  Each method is specified by the functions it applies.
- **Fresh ids.** `makeId` produces fresh ids. The model takes them as parameters.
- **Timestamps.** `Date.now()` produces timestamps. The model takes them as parameters too.

## Model

| member | source | states |
|---|---|---|
| JsNumber.Min | QuickQuote/src/lib/hooks.js:37 | `Math.min` is NaN exactly when an argument is NaN, otherwise it is one of the arguments and below both |
| JsNumber.Max | QuickQuote/src/lib/hooks.js:37 | `Math.max` is NaN exactly when an argument is NaN, otherwise it is one of the arguments and above both |
| JsNumber.Scale | QuickQuote/src/QuickQuoteEstimator.jsx:87 | multiplying by a positive constant keeps finiteness and scales the value |
| JsNumber.LessEqTransitive | QuickQuote/src/lib/hooks.js:37 | the order used by the clamp is transitive |
| Money.Round2 | QuickQuote/src/lib/calc.js:41-43 | the result is whole cents and within half a cent of the input, with the half rounding up |
| Money.Round2Number | QuickQuote/src/QuickQuoteEstimator.jsx:31-35 | a non-finite input gives 0, a finite one its `round2` |
| Money.Round2OfCents | QuickQuote/src/lib/calc.js:41-43 | rounding a cent amount leaves it unchanged |
| Money.Round2HalfUp | QuickQuote/src/lib/calc.js:42 | exactly half a cent rounds up (`Math.round` semantics) |
| Money.Round2Monotone | QuickQuote/src/lib/calc.js:41-43 | rounding preserves order |
| Money.FloorMonotone | QuickQuote/src/lib/calc.js:42 | `Math.floor` preserves order |
| Money.Round2ShiftCents | QuickQuote/src/lib/calc.js:41-43 | adding whole cents before or after rounding gives the same result |
| Money.CentsAdd | QuickQuote/src/lib/calc.js:32 | sums and differences of cent amounts are cent amounts |
| Money.FloorOfInt | QuickQuote/src/lib/calc.js:42 | the floor of an integer is that integer |
| Money.ZeroIsCents | QuickQuote/src/lib/hooks.js:19 | the zero of a failed estimate is whole cents |
| NumberText.Clean | QuickQuote/src/lib/hooks.js:34 | only digits and dots survive, and the text never grows |
| NumberText.CleanKeepsNumericText | QuickQuote/src/lib/hooks.js:34 | text of digits and dots passes unchanged |
| NumberText.CleanConcat | QuickQuote/src/lib/hooks.js:34 | the sanitiser works character by character, keeping order |
| NumberText.CleanIdempotent | QuickQuote/src/lib/hooks.js:34 | cleaning twice is cleaning once |
| NumberText.CleanEmpty | QuickQuote/src/lib/hooks.js:34 | the sanitiser leaves nothing exactly when the text has no digit and no dot, so every other character is removed |
| NumberText.DigitValue | QuickQuote/src/lib/hooks.js:35 | a digit's value is below 10 |
| NumberText.DigitChar | QuickQuote/src/lib/hooks.js:35 | a value below 10 has a digit character with that value |
| NumberText.Shift10 | QuickQuote/src/QuickQuoteEstimator.jsx:323 | a shift by whole decimal places; a non-negative `m` stays non-negative (its value is given by `Shift10Left` and `Shift10Right`) |
| NumberText.Shift10Cancel | QuickQuote/src/lib/hooks.js:35 | shifting left by `e` places and back right by `e` gives the value back |
| NumberText.Shift10Outer | QuickQuote/src/lib/hooks.js:35 | a factor of ten in front cancels one place of a right shift |
| NumberText.Shift10Left | QuickQuote/src/QuickQuoteEstimator.jsx:323 | a shift left by `e` places is multiplication by `10^e` |
| NumberText.Shift10Right | QuickQuote/src/lib/hooks.js:35 | a shift right by `k` places times `10^k` gives the value back |
| NumberText.DigitsValueBound | QuickQuote/src/lib/hooks.js:35 | `n` digits are worth less than `10^n` |
| NumberText.DigitsValueConcat | QuickQuote/src/lib/hooks.js:35 | the value of `a + b` is the value of `a` times `10^|b|` plus the value of `b` |
| NumberText.NatToDigits | QuickQuote/src/lib/hooks.js:35 | a natural number's decimal form is a non-empty digit string |
| NumberText.DigitsValueOfNat | QuickQuote/src/lib/hooks.js:35 | reading back a number's decimal form gives the number |
| NumberText.DotIndex | QuickQuote/src/lib/hooks.js:35 | the only dot of a one-dot string is at the returned position |
| NumberText.NoDots | QuickQuote/src/lib/hooks.js:35 | a dot count of 0 means no character is a dot |
| NumberText.DigitsHaveNoDots | QuickQuote/src/lib/hooks.js:35 | digit strings have no dots |
| NumberText.DotCount | QuickQuote/src/lib/hooks.js:35 | the number of dots is at most the length of the text |
| NumberText.DotCountConcat | QuickQuote/src/lib/hooks.js:35 | the dots of a concatenation are those of its parts |
| NumberText.DecimalNumber | QuickQuote/src/lib/hooks.js:35 | `Number` of digit/dot text is NaN exactly for two or more dots or a lone dot; otherwise it is finite and ≥ 0 ("" is 0) |
| NumberText.DecimalNumberDotted | QuickQuote/src/lib/hooks.js:35 | digits, a dot and digits (not both runs empty) read as the mantissa of the two runs |
| NumberText.DecimalNumberSample | QuickQuote/src/lib/hooks.js:35 | "12.5" reads as 12.5 |
| NumberText.NumberOfCleaned | QuickQuote/src/lib/hooks.js:34-35 | `Number(cleaned)` is NaN exactly when the cleaned text has two or more dots or is ".", otherwise finite and ≥ 0 |
| NumberText.NumberOfCleanedDigits | QuickQuote/src/lib/hooks.js:34-35 | text whose cleaned form is a digit run (possibly empty) reads as that run's value |
| NumberText.NumberOfCleanedNat | QuickQuote/src/lib/hooks.js:34-35 | typing a natural number's digits yields that number |
| NumberText.TrimStart | QuickQuote/src/QuickQuoteEstimator.jsx:340 | only leading white space is dropped, all of it |
| NumberText.TrimEnd | QuickQuote/src/QuickQuoteEstimator.jsx:340 | only trailing white space is dropped, all of it |
| NumberText.Trim | QuickQuote/src/QuickQuoteEstimator.jsx:340 | the trimmed text neither starts nor ends with white space |
| NumberText.TrimBlank | QuickQuote/src/QuickQuoteEstimator.jsx:340-342 | the trimmed name is empty exactly when the text is all white space |
| NumberText.DigitRun | QuickQuote/src/QuickQuoteEstimator.jsx:323 | the digit run at the head is all digits and maximal |
| NumberText.DigitRunOfDigits | QuickQuote/src/QuickQuoteEstimator.jsx:323 | the run stops exactly where a non-digit follows the digits |
| NumberText.ExponentValue | QuickQuote/src/QuickQuoteEstimator.jsx:323 | a non-zero exponent needs at least two characters starting with `e` or `E`, and a negative one a `-` after it |
| NumberText.DecimalLiteral | QuickQuote/src/QuickQuoteEstimator.jsx:323 | the literal at the head is NaN or a finite value ≥ 0, never infinite, and NaN when the text starts with neither a digit nor a dot |
| NumberText.Mantissa | QuickQuote/src/lib/hooks.js:35 | `int.frac` is not negative (its value is given by `MantissaValue`) |
| NumberText.MantissaValue | QuickQuote/src/lib/hooks.js:35 | `int.frac` times `10^|frac|` is the value of the digits `int frac` |
| NumberText.DecimalLiteralOfDigits | QuickQuote/src/QuickQuoteEstimator.jsx:323 | digits followed by a non-numeric tail read as their integer value |
| NumberText.MantissaWhole | QuickQuote/src/QuickQuoteEstimator.jsx:323 | with no fraction digits the mantissa is the integer digits' value |
| NumberText.ParseFloatNatPrefix | QuickQuote/src/QuickQuoteEstimator.jsx:323 | `parseFloat` reads the number at the head and ignores trailing junk |
| NumberText.ParseFloatVersusNumber | QuickQuote/src/QuickQuoteEstimator.jsx:323-325 | `parseFloat` and `Number` agree on digit text but differ on "" (NaN against 0) |
| NumberText.ParseFloatEmpty | QuickQuote/src/QuickQuoteEstimator.jsx:323 | `parseFloat("")` is NaN while `Number("")` is 0 |
| NumberText.ParseFloat | QuickQuote/src/QuickQuoteEstimator.jsx:323 | text whose first non-space character cannot start a number is NaN; a negative result (finite or −Infinity) needs a leading `-` after the white space |
| Calc.Message | QuickQuote/src/lib/calc.js:12-15 | each error's message is non-empty |
| Calc.QualityMultiplier | QuickQuote/src/lib/calc.js:18 | a quality in the table gives its multiplier, any other gives 1 |
| Calc.LocationMultiplier | QuickQuote/src/lib/calc.js:21-25 | a missing location gives 1, a bare number is used as it is, an object gives its `multiplier` or 1 |
| Calc.LocationCurrency | QuickQuote/src/lib/calc.js:35-36 | only an object entry can give anything but "USD", and it gives its own `currency` member |
| Calc.ComputeEstimate | QuickQuote/src/lib/calc.js:10-38 | fails exactly on a non-finite or non-positive size, or an unknown project. The size error takes precedence. On success labor, material and total are whole cents and total = labor + material |
| Calc.EstimateBreakdown | QuickQuote/src/lib/calc.js:17-36 | labor = round2(rate·s·q·l), material likewise, total = round2(labor + material), currency from the location |
| Calc.LenientDefaults | QuickQuote/src/lib/calc.js:18-36 | an unknown quality or location gives multiplier 1 (and "USD"); an object entry without `multiplier` gives 1 |
| Calc.EstimateAccuracy | QuickQuote/src/lib/calc.js:27-32 | the total is within ±0.01 of the unrounded labor + material |
| Calc.RawCostMonotone | QuickQuote/src/lib/calc.js:27-31 | with non-negative factors the raw cost grows with the size |
| Calc.MulMonotone | QuickQuote/src/lib/calc.js:27-31 | multiplying by a non-negative factor preserves order |
| Calc.EstimateMonotoneInSize | QuickQuote/src/lib/calc.js:10-32 | with non-negative rates a larger room never has a smaller labor, material or total |
| Calc.EntryShapeAffectsOnlyCurrency | QuickQuote/src/lib/calc.js:22-36 | a bare multiplier and an object with the same multiplier give equal amounts; only the currency differs ("USD" against the object's `currency`) |
| Calc.RawCostByLocation | QuickQuote/src/lib/calc.js:30-31 | the raw cost is linear in the location multiplier |
| Calc.LocationScaling | QuickQuote/src/lib/calc.js:22-32 | when no rounding occurs, the total is the base total times the location multiplier |
| Calc.SampleEstimates | QuickQuote/src/__tests__/calc.test.js:6-48 | 2500/4000/6500 USD; Ghana 5200 GHS; Flooring High 1650/2625/4275; sizes 0, −5, NaN and an unknown project fail with the right error |
| Hooks.UseEstimate | QuickQuote/src/lib/hooks.js:13-21 | error is "" exactly on success. On failure the amounts are 0 and the currency "USD". The amounts are cents and total = labor + material |
| Hooks.UseEstimateCarriesResult | QuickQuote/src/lib/hooks.js:16-19 | success passes the estimate's fields through, failure the thrown message |
| Hooks.UseEstimateSamples | QuickQuote/src/__tests__/hooks.estimate.test.jsx:20-34 | size 0 gives "Invalid room size"; UnknownThing gives "Unknown project type"; Ghana gives no error and GHS |
| Hooks.ClampInput | QuickQuote/src/lib/hooks.js:32-41 | an unparsable text gives `min`; a parse inside the bounds is kept as it is; with ordered bounds a parse at or above `max` gives `max` and one at or below `min` gives `min` |
| Hooks.ClampInRange | QuickQuote/src/lib/hooks.js:36-40 | with ordered bounds the stored value lies in [min, max] for every input |
| Hooks.ClampFinite | QuickQuote/src/lib/hooks.js:36-40 | with finite bounds the stored value is finite and inside them |
| Hooks.ClampSamplesBounds | src/__tests__/hooks.clamp.test.jsx:18-32 | "0" gives 1 and "100001" gives 100000 |
| Hooks.ClampSampleLetters | src/__tests__/hooks.clamp.test.jsx:34-40 | "abc" cleans to "", which is 0, which clamps to 1 |
| Hooks.ClampSampleMixed | src/__tests__/hooks.clamp.test.jsx:42-48 | "12abc34" gives 1234 |
| Hooks.NumberSampleMixed | src/__tests__/hooks.clamp.test.jsx:42-48 | `Number` of the cleaned "12abc34" is 1234 |
| Hooks.ClampSampleSign | QuickQuote/src/lib/hooks.js:34-40 | "-5" loses its sign and gives 5 |
| Hooks.NumberSampleSign | QuickQuote/src/lib/hooks.js:34-35 | `Number` of the cleaned "-5" is 5 |
| Hooks.CleanSample | src/__tests__/hooks.clamp.test.jsx:42-48 | the sanitiser turns "12abc34" into "1234" and "-5" into "5" |
| Hooks.ClampSamplesUnparsable | QuickQuote/src/lib/hooks.js:38-40 | "1.2.3" and "." give `min` |
| Hooks.DigitsValueSample | src/__tests__/hooks.clamp.test.jsx:30-47 | "100001" and "1234" read as those numbers |
| Hooks.ClampedNumber.constructor | QuickQuote/src/lib/hooks.js:29-30 | the cell starts at the initial value with the given bounds |
| Hooks.ClampedNumber.WithDefaults | QuickQuote/src/lib/hooks.js:29 | the defaults are 0, −Infinity and +Infinity |
| Hooks.ClampedNumber.OnChange | QuickQuote/src/lib/hooks.js:32-41 | stores `ClampInput` of the text, which lies within ordered bounds |
| Hooks.ClampedNumber.SetValue | QuickQuote/src/lib/hooks.js:30-43 | stores any value without clamping |
| Hooks.OnKeyDown | QuickQuote/src/lib/hooks.js:95-126 | every selected index is a valid option index |
| Hooks.ArrowsWrap | QuickQuote/src/lib/hooks.js:99-106 | forward arrows go to (idx+1) mod n, backward arrows to (idx−1) mod n, and both move focus |
| Hooks.ArrowsInverse | QuickQuote/src/lib/hooks.js:99-106 | a backward arrow undoes a forward one, and the other way round |
| Hooks.PressNext | QuickQuote/src/lib/hooks.js:103-106 | repeated forward presses stay within the options |
| Hooks.PressNextCycles | QuickQuote/src/lib/hooks.js:103-106 | k ≤ n forward presses move k places, wrapping once, so n presses return to the start |
| Hooks.OtherKeys | QuickQuote/src/lib/hooks.js:107-119 | Home selects 0 and End the last, with focus; Enter and Space select idx without focus; every other key is ignored (both directions) |
| Hooks.KeyDownSample | src/__tests__/optionButtons.test.jsx:26-34 | from Medium, ArrowRight selects High and ArrowLeft selects Low |
| Hooks.ButtonTabIndex | QuickQuote/src/lib/hooks.js:130 | the tab index is 0 exactly when selected, otherwise −1 |
| Hooks.RovingTabStop | QuickQuote/src/lib/hooks.js:128-131 | with distinct options at most one button is a tab stop, and none when the value is not an option |
| Hooks.SelectableOptions.constructor | QuickQuote/src/lib/hooks.js:87-88 | the refs start empty |
| Hooks.SelectableOptions.SetRef | QuickQuote/src/lib/hooks.js:129 | the ref callback writes only its own slot |
| Hooks.SelectableOptions.FocusTarget | QuickQuote/src/lib/hooks.js:90-93 | there is a focus target exactly when the slot holds a mounted element |
| Hooks.SelectableOptions.KeyDown | QuickQuote/src/lib/hooks.js:95-126 | `onChange` gets the chosen option exactly when the default action is prevented; focus moves only for the navigation keys |
| Materials.DefaultFavorites | QuickQuote/src/QuickQuoteEstimator.jsx:23-29 | five favorites, and the first one's id is the initial selection |
| Materials.Filter | QuickQuote/src/QuickQuoteEstimator.jsx:319 | an element is kept exactly when it was present and passes the test |
| Materials.FilterConcat | QuickQuote/src/QuickQuoteEstimator.jsx:319 | filtering keeps the order, so it distributes over concatenation |
| Materials.FilterKeepsAll | QuickQuote/src/QuickQuoteEstimator.jsx:319 | when every element passes, filtering changes nothing |
| Materials.RemoveEntry | QuickQuote/src/QuickQuoteEstimator.jsx:318-320 | exactly the additions with other `entryId`s are kept |
| Materials.RemoveEntryKeepsOthers | QuickQuote/src/QuickQuoteEstimator.jsx:318-320 | with no match nothing changes, and the rest keep their order |
| Materials.UpdateEntries | QuickQuote/src/QuickQuoteEstimator.jsx:325-337 | the length is kept; the matching entries are transformed and the others left alone |
| Materials.EntryCost | QuickQuote/src/QuickQuoteEstimator.jsx:323-328 | the edited cost is `round2` of the `parseFloat` value when that is finite, and 0 otherwise |
| Materials.WithCost | QuickQuote/src/QuickQuoteEstimator.jsx:322-331 | only the matching entries change, and only their cost; the length is kept |
| Materials.WithName | QuickQuote/src/QuickQuoteEstimator.jsx:333-337 | only the matching entries change, and only their name; the length is kept |
| Materials.EditsKeepEntries | QuickQuote/src/QuickQuoteEstimator.jsx:322-337 | edits keep every entry id, catalogue id and the other field |
| Materials.RemoveAfterEdit | QuickQuote/src/QuickQuoteEstimator.jsx:318-331 | removing an entry after editing it gives the same list as removing it unedited |
| Materials.SumCostsConcat | QuickQuote/src/QuickQuoteEstimator.jsx:92 | the `reduce` sum is additive over concatenation |
| Materials.SumCosts | QuickQuote/src/QuickQuoteEstimator.jsx:92 | the `reduce` sum is 0 for no additions and the cost itself for one |
| Materials.SumCostsNonNegative | QuickQuote/src/QuickQuoteEstimator.jsx:92 | with no negative cost the sum is not negative |
| Materials.RemoveEntrySum | QuickQuote/src/QuickQuoteEstimator.jsx:318-320 | removing an entry lowers the extras sum by exactly the removed costs |
| Materials.FindFavorite | QuickQuote/src/QuickQuoteEstimator.jsx:310 | the first favorite with that id, and `None` exactly when there is none |
| Materials.AddFromFavorite | QuickQuote/src/QuickQuoteEstimator.jsx:308-316 | an empty or unknown selection changes nothing. Otherwise exactly one entry is appended, copying the favorite's id and name, with cost `round2(cost)` |
| Materials.NewFavorite | QuickQuote/src/QuickQuoteEstimator.jsx:339-344 | a favorite is made exactly when the trimmed name is non-blank and `parseFloat(cost)` is finite. It has the trimmed name and the rounded cost |
| Materials.NewFavoriteRejectsBlank | QuickQuote/src/QuickQuoteEstimator.jsx:340-342 | an all-white-space name is always rejected |
| Materials.RemoveFavorite | QuickQuote/src/QuickQuoteEstimator.jsx:350-352 | exactly the favorites with other ids are kept |
| Materials.FixedSelection | QuickQuote/src/QuickQuoteEstimator.jsx:147-156 | "" when the list is empty; a selection that exists is kept; an absent one becomes the first favorite's id |
| Materials.FixedSelectionStable | QuickQuote/src/QuickQuoteEstimator.jsx:147-156 | the effect reaches its fixed point in one step |
| Materials.NewFavoriteStaysSelected | QuickQuote/src/QuickQuoteEstimator.jsx:147-156 | a favorite just added and selected survives the fixup |
| Materials.RemoveSelectedFavorite | QuickQuote/src/QuickQuoteEstimator.jsx:147-156 | removing the selected favorite moves the selection to the first one left, or to "" |
| Totals.DefaultPercentages | QuickQuote/src/QuickQuoteEstimator.jsx:61-83 | markups 15 and 10, overhead 10, discount and tax 0 |
| Totals.UncertaintyPct | QuickQuote/src/QuickQuoteEstimator.jsx:108 | the band is between 10% and 20% |
| Totals.UncertaintyOrder | QuickQuote/src/QuickQuoteEstimator.jsx:108 | High is the narrowest band, Low the widest, and every other tier is 0.15 |
| Totals.ExtrasTotal | QuickQuote/src/QuickQuoteEstimator.jsx:91-94 | the extras total is whole cents, and 0 without additions |
| Totals.DeriveTotals | QuickQuote/src/QuickQuoteEstimator.jsx:91-110 | every derived amount, from the extras through rangeHigh, is whole cents; the extras and the band come from the additions and the quality; the range brackets the grand total (reversed when it is negative) |
| Totals.Round2OfCentsSum | QuickQuote/src/QuickQuoteEstimator.jsx:98-105 | rounding a sum of cent amounts gives the sum |
| Totals.ZeroAdjustments | QuickQuote/src/QuickQuoteEstimator.jsx:91-106 | with all percentages 0: grandTotal = baseCost = labor + material + extras and markupDelta = 0; with no extras grandTotal = round2(labor + material) |
| Totals.ZeroShare | QuickQuote/src/QuickQuoteEstimator.jsx:99-104 | a 0% share rounds to 0 and adds or subtracts nothing |
| Totals.BandAbove | QuickQuote/src/QuickQuoteEstimator.jsx:109-110 | for a non-negative cent amount round2(g(1−u)) ≤ g ≤ round2(g(1+u)) |
| Totals.BandBelow | QuickQuote/src/QuickQuoteEstimator.jsx:109-110 | for a negative cent amount the two ends swap |
| Totals.Band | QuickQuote/src/QuickQuoteEstimator.jsx:104-110 | rangeLow ≤ grandTotal ≤ rangeHigh when grandTotal ≥ 0, and the reverse when it is negative |
| Totals.GrowMonotone | QuickQuote/src/QuickQuoteEstimator.jsx:96-97 | a non-negative markup never lowers a non-negative amount |
| Totals.MarkupDeltaNonNegative | QuickQuote/src/QuickQuoteEstimator.jsx:95-106 | with labor ≥ 0, adjustedMaterial ≥ 0 and markups ≥ 0, subtotal ≥ baseCost and markupDelta ≥ 0 |
| Totals.SqftForCalc | QuickQuote/src/QuickQuoteEstimator.jsx:87 | "sqm" multiplies by 10.7639, keeping finiteness; any other unit passes the size through |
| Totals.UnitKeepsValidity | QuickQuote/src/QuickQuoteEstimator.jsx:87-89 | switching units never changes whether the size is accepted |
| Totals.EstimateThroughTotals | QuickQuote/src/QuickQuoteEstimator.jsx:89-104 | a successful estimate with zero percentages and no extras has grandTotal equal to its total |
| Totals.FailedEstimateTotals | QuickQuote/src/QuickQuoteEstimator.jsx:89-110 | while the estimate fails (zero amounts) and there are no extras, every total is 0 |
| Totals.DefaultTotalsSample | QuickQuote/src/QuickQuoteEstimator.jsx:61-104 | 2500/4000 with the default percentages gives 8002.50 |
| QuoteState.MakeEntry | QuickQuote/src/QuickQuoteEstimator.jsx:227-248 | the entry records the base and final amounts and the currency of the current view |
| QuoteState.PushHistory | QuickQuote/src/QuickQuoteEstimator.jsx:249-250 | the new entry goes first, the old ones follow in order, and the length is min(old + 1, 5) |
| QuoteState.Reverse | QuickQuote/src/QuickQuoteEstimator.jsx:249 | reversal mirrors the indices |
| QuoteState.SaveAll | QuickQuote/src/QuickQuoteEstimator.jsx:225-251 | after a run of saves the history has min(old + saves, 5) entries, with the last save first |
| QuoteState.SaveAllNewestFirst | QuickQuote/src/QuickQuoteEstimator.jsx:225-251 | after any run of saves the history is the newest five, newest first, followed by what is left of the old history |
| QuoteState.AsRecord | QuickQuote/src/QuickQuoteEstimator.jsx:354-368 | a saved entry is loaded with its own project, currency and size |
| QuoteState.PickText | QuickQuote/src/QuickQuoteEstimator.jsx:356-361 | a text field is taken exactly when present and accepted |
| QuoteState.PickAmount | QuickQuote/src/QuickQuoteEstimator.jsx:363-367 | a numeric field is taken, rounded, exactly when finite |
| QuoteState.ApplyQuote | QuickQuote/src/QuickQuoteEstimator.jsx:354-368 | an absent record changes nothing. Each field is applied on its own, exactly when valid: role, project, quality or location in the table, unit sqft/sqm, a three-letter currency; each of the five percentages (labor and material markup, overhead, discount, tax) is taken rounded to cents exactly when finite. A valid form stays valid |
| QuoteState.LoadedSize | QuickQuote/src/QuickQuoteEstimator.jsx:361 | a finite size is taken as it is, with no clamp; otherwise the size is kept |
| QuoteState.EmptyRecord | QuickQuote/src/QuickQuoteEstimator.jsx:354-368 | a record with no role and a NaN size; it is a fixture for `EmptyRecordChangesNothing` and models no line of its own |
| QuoteState.EmptyRecordChangesNothing | QuickQuote/src/QuickQuoteEstimator.jsx:354-368 | a record with no valid field changes neither form nor size |
| QuoteState.LoadSavedQuote | QuickQuote/src/QuickQuoteEstimator.jsx:225-251 | loading a saved quote restores the form it came from (the currency selector takes the estimate's three-letter currency) and the size |
| QuoteState.LoadTwice | QuickQuote/src/QuickQuoteEstimator.jsx:354-368 | loading the same record twice is loading it once |
| QuoteState.Estimator.constructor | QuickQuote/src/QuickQuoteEstimator.jsx:56-83 | the initial state: Homeowner, sqft, Auto, size 100 in [1, 100000], the default favorites with the first one selected, and empty lists |
| QuoteState.Estimator.SqftForCalcNow | QuickQuote/src/QuickQuoteEstimator.jsx:87 | the converted size is finite exactly when the stored size is, and is the stored size unless the unit is "sqm" |
| QuoteState.Estimator.View | QuickQuote/src/QuickQuoteEstimator.jsx:87-89 | the view has no error exactly when the estimate for the converted size succeeds |
| QuoteState.Estimator.CurrentTotals | QuickQuote/src/QuickQuoteEstimator.jsx:91-110 | the current totals are whole cents |
| QuoteState.Estimator.CurrentEntry | QuickQuote/src/QuickQuoteEstimator.jsx:227-248 | the entry records the grand total and the stored size |
| QuoteState.Estimator.HandleSizeChange | QuickQuote/src/QuickQuoteEstimator.jsx:68 | the size becomes the clamped parse, always finite and within [1, 100000] |
| QuoteState.Estimator.SaveQuote | QuickQuote/src/QuickQuoteEstimator.jsx:225-251 | nothing changes while there is an error; otherwise the current entry is pushed |
| QuoteState.Estimator.AddMaterialFromFavorite | QuickQuote/src/QuickQuoteEstimator.jsx:308-316 | the additions become `AddFromFavorite` of the current selection |
| QuoteState.Estimator.RemoveMaterialAddition | QuickQuote/src/QuickQuoteEstimator.jsx:318-320 | the additions become `RemoveEntry` |
| QuoteState.Estimator.UpdateMaterialAdditionCost | QuickQuote/src/QuickQuoteEstimator.jsx:322-331 | the additions become `WithCost` |
| QuoteState.Estimator.UpdateMaterialAdditionName | QuickQuote/src/QuickQuoteEstimator.jsx:333-337 | the additions become `WithName` |
| QuoteState.Estimator.AddFavorite | QuickQuote/src/QuickQuoteEstimator.jsx:339-348 | rejected inputs change nothing. Otherwise the favorite is appended and selected and both inputs are cleared. A settled selection stays settled |
| QuoteState.Estimator.RemoveFavorite | QuickQuote/src/QuickQuoteEstimator.jsx:350-352 | the favorites become `Materials.RemoveFavorite` |
| QuoteState.Estimator.SyncFavoriteSelection | QuickQuote/src/QuickQuoteEstimator.jsx:147-156 | the selection becomes `FixedSelection` and is settled; an already settled selection is kept |
| QuoteState.Estimator.LoadQuote | QuickQuote/src/QuickQuoteEstimator.jsx:354-368 | the form becomes `ApplyQuote` and the size `LoadedSize`; a valid form stays valid |
| QuoteState.Estimator.SetNewFavoriteName | QuickQuote/src/QuickQuoteEstimator.jsx:665 | stores the typed name |
| QuoteState.Estimator.SetNewFavoriteCost | QuickQuote/src/QuickQuoteEstimator.jsx:674 | stores the typed cost |
| QuoteState.Estimator.SetFavoriteSelection | QuickQuote/src/QuickQuoteEstimator.jsx:638 | stores the chosen id |
| LegacyEstimator.GetLocationMeta | src/QuickQuoteEstimator.jsx:7-16 | a bare number gives that multiplier, in USD exactly for "US" and in GHS otherwise. An object entry is returned unchanged. A missing entry gives 1 in USD |
| LegacyEstimator.MetaMultiplierAgrees | src/QuickQuoteEstimator.jsx:7-16 | with a missing multiplier read as 1, the multiplier is the calculator's |
| LegacyEstimator.CurrencyDisagreement | src/QuickQuoteEstimator.jsx:9-13 | the currency differs from the calculator's exactly for a bare-number entry outside "US": GHS here, USD there |
| LegacyEstimator.LegacySqft | src/QuickQuoteEstimator.jsx:49-53 | the stored size is finite. It is 0 exactly when the cleaned text does not parse. A parse below 1 stores 1, one above 100000 stores 100000, and one in between is stored as it is |
| LegacyEstimator.SqftHandlersCompared | src/QuickQuoteEstimator.jsx:49-53 | on parsable text it agrees with `useClampedNumber`; on unparsable text it stores 0 where the hook stores 1 |
| LegacyEstimator.LegacyEstimate | src/QuickQuoteEstimator.jsx:37-46 | `err` is "" exactly on success. On failure the amounts are zeros. The amounts are cents and total = labor + material |
| LegacyEstimator.LegacyMatchesUseEstimate | src/QuickQuoteEstimator.jsx:37-46 | apart from the currency, the amounts and the message match `useEstimate` |
| LegacyEstimator.UnparsableSizeShowsError | src/QuickQuoteEstimator.jsx:37-53 | unparsable size text ends in "Invalid room size" |
| LegacyEstimator.LegacySqftUnparsable | src/QuickQuoteEstimator.jsx:52 | "1.2.3" and "." store 0 |
| LegacyEstimator.LegacySqftLetters | src/QuickQuoteEstimator.jsx:50-52 | "abc" stores 1 |
| LegacyEstimator.Legacy.constructor | src/QuickQuoteEstimator.jsx:27-32 | the size starts at 100 with no error |
| LegacyEstimator.Legacy.Currency | src/QuickQuoteEstimator.jsx:34 | a missing location shows USD; any currency other than USD and GHS comes from an object entry |
| LegacyEstimator.Legacy.HandleSqftChange | src/QuickQuoteEstimator.jsx:49-53 | the size becomes `LegacySqft` of the text |
| LegacyEstimator.Legacy.Estimate | src/QuickQuoteEstimator.jsx:37-46 | returns the wrapper's amounts and sets `err`, clearing it exactly on success |

## Left out

- **Floating point.** `Number.EPSILON` in `round2` and all IEEE-754 effects are left out. Amounts are exact reals.
- **Overflow.** `Number()` and `parseFloat` of huge literals overflow to Infinity; this is not modelled.
- **Currency formatting.** `makeCurrencyFormatter`, `useCurrencyFormatter`, `formatCurrencyFallback`, `currencyFormatter` and every `fmt.format` call go through `Intl.NumberFormat`. Its locale data is outside the model.
- **PDF export.** `usePdfExporter`, `exportPdf` and the `pdfMaterials`, `pdfClient` and `pdfTotals` memos are calls into jsPDF.
- **Persistence and browser I/O.** The model leaves out:
  - localStorage reads and writes (history, favorites, draft);
  - `saveDraft`, `clearDraft` and the draft loader;
  - the URL `replaceState` effect.
- **Ids and timestamps.** `makeId` and `Date.now` are replaced by parameters.
- **The currency override.** `currencyMode` is passed to `useEstimate` as a fifth argument that the hook ignores. So it affects no amount; it is kept only as a form field that `loadQuote` sets. `usePreferredCurrency` is left out.
- **Rendering and other files.** Left out:
  - the service worker (QuickQuote/public/sw.js);
  - BreakdownChart, the OptionButtons markup, App, main;
  - the build and end-to-end configuration;
  - the client fields and their setters;
  - the plain form setters (role, project, quality, location, unit, percentages).
- **Rate table.** rates.json is not part of this model. The table is a parameter, and `Calc.SampleRates` holds only the values the tests pin down.
- **Non-string input.** `String(raw)` of a non-string value in `onChange` is not modelled: the input is always text.
- **JavaScript semantics not modelled.**
  - Map lookups do not see JavaScript prototype keys.
  - A `null` entry in a table or record counts as missing.
  - `Number(null)` is 0 in `loadQuote`; a missing number is NaN here.
  - String length counts characters, not UTF-16 code units.
- **Key handling.** `focusIndex` calling `el.focus()` is reduced to naming the element that receives focus.
- **Loading stored lists.** Stored favorites and draft additions are filtered and rounded when loaded. This is part of the persistence code, which is left out.
- NumberText.ParseFloat: the contract says when the result is NaN and when it can be negative. The value of a literal with a fraction or an exponent is stated only through the definition and the `Shift10Left`, `Shift10Right` and `MantissaValue` lemmas; `ParseFloatNatPrefix` pins the whole-number case.
- **Legacy fallback message.** The legacy wrapper's `'Invalid inputs'` fallback cannot occur: both thrown messages are non-empty (`Calc.Message`).
- **Legacy calculator.** The older component imports `./lib/calc`. The file modelled is QuickQuote/src/lib/calc.js, whose header names itself src/lib/calc.js.
- QuoteState.SaveAllNewestFirst: stated for a history of at most five entries. A longer history loaded from storage keeps its extra entries until the first save.
- QuoteState.Estimator.SyncFavoriteSelection: React runs this fixup as an effect after any change to the favorites. In the model it is a separate method, which the caller invokes after `AddFavorite` or `RemoveFavorite`.
- **Clamp edge case.** A non-finite parse falls back to the minimum only in the hook (QuickQuote/src/lib/hooks.js:39). The older component's handler stores 0 instead (src/QuickQuoteEstimator.jsx:52). The model follows each file's code (`LegacyEstimator.SqftHandlersCompared`).

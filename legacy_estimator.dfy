/** The older estimator component, src/QuickQuoteEstimator.jsx: its own
    location lookup, its own size handler and a try/catch wrapper around the
    calculator of QuickQuote/src/lib/calc.js (the module it imports as
    `./lib/calc`). */
module LegacyEstimator {
  import opened Wrappers
  import opened JsNumber
  import opened Money
  import opened NumberText
  import opened Calc
  import opened Hooks

  /** What `getLocationMeta` returns: an object with a multiplier and a
      currency, either of which an object entry may lack. */
  datatype LocationMeta = LocationMeta(multiplier: Option<real>, currency: Option<string>)

  /** `getLocationMeta(location)`: a bare number gets "USD" for "US" and
      "GHS" for every other location; an object entry is returned as it is;
      a missing entry gives multiplier 1 in USD. */
  function GetLocationMeta(rates: RateTable, location: string): (m: LocationMeta)
    ensures location !in rates.locationMultipliers ==> m == LocationMeta(Some(1.0), Some("USD"))
    ensures location in rates.locationMultipliers && rates.locationMultipliers[location].Flat? ==>
      m.multiplier == Some(rates.locationMultipliers[location].multiplier)
      && m.currency == Some(if location == "US" then "USD" else "GHS")
    ensures location in rates.locationMultipliers && rates.locationMultipliers[location].Rich? ==>
      m == LocationMeta(rates.locationMultipliers[location].richMultiplier, rates.locationMultipliers[location].currency)
  {
    if location !in rates.locationMultipliers then LocationMeta(Some(1.0), Some("USD"))
    else match rates.locationMultipliers[location]
      case Flat(k) => LocationMeta(Some(k), Some(if location == "US" then "USD" else "GHS"))
      case Rich(k, c) => LocationMeta(k, c)
  }

  /** Both components scale by the same multiplier, once a missing one is
      read as 1 as the calculator does. */
  lemma MetaMultiplierAgrees(rates: RateTable, location: string)
    ensures var m := GetLocationMeta(rates, location).multiplier;
      (if m.Some? then m.value else 1.0) == LocationMultiplier(rates, location)
  {
  }

  /** The two components disagree on the currency exactly for a bare-number
      entry at a location other than "US": this one shows GHS, the
      calculator reports USD. */
  lemma CurrencyDisagreement(rates: RateTable, location: string)
    ensures GetLocationMeta(rates, location).currency != LocationCurrency(rates, location)
      <==> location in rates.locationMultipliers && rates.locationMultipliers[location].Flat? && location != "US"
    ensures GetLocationMeta(rates, location).currency != LocationCurrency(rates, location) ==>
      GetLocationMeta(rates, location).currency == Some("GHS") && LocationCurrency(rates, location) == Some("USD")
  {
  }

  /** `handleSqftChange`: a finite parse of the cleaned text is clamped to
      [1, 100000]; an unparsable one stores 0. */
  function LegacySqft(raw: string): (r: Number)
    ensures IsFinite(r)
    ensures r.value == 0.0 <==> !IsFinite(NumberOfCleaned(raw))
    ensures r.value != 0.0 ==> 1.0 <= r.value <= 100000.0
    ensures IsFinite(NumberOfCleaned(raw)) && NumberOfCleaned(raw).value < 1.0 ==> r == Finite(1.0)
    ensures IsFinite(NumberOfCleaned(raw)) && NumberOfCleaned(raw).value > 100000.0 ==> r == Finite(100000.0)
    ensures IsFinite(NumberOfCleaned(raw)) && 1.0 <= NumberOfCleaned(raw).value <= 100000.0 ==> r == NumberOfCleaned(raw)
  {
    var n := NumberOfCleaned(raw);
    if IsFinite(n) then Max(Finite(1.0), Min(n, Finite(100000.0))) else Finite(0.0)
  }

  /** This handler and the one of `useClampedNumber` agree whenever the text
      parses; when it does not, this one stores 0 and the hook stores its
      minimum 1. */
  lemma SqftHandlersCompared(raw: string)
    ensures IsFinite(NumberOfCleaned(raw)) ==> LegacySqft(raw) == ClampInput(raw, Finite(1.0), Finite(100000.0))
    ensures !IsFinite(NumberOfCleaned(raw)) ==>
      LegacySqft(raw) == Finite(0.0) && ClampInput(raw, Finite(1.0), Finite(100000.0)) == Finite(1.0)
  {
  }

  /** What the estimate memo returns, with the `err` it sets. */
  datatype LegacyView = LegacyView(labor: real, material: real, total: real, err: string)

  /** The try/catch wrapper: the estimate's amounts with `err` cleared, or
      zeros with the thrown message. */
  function LegacyEstimate(rates: RateTable, sqft: Number, projectType: string, quality: string, location: string)
    : (v: LegacyView)
    ensures v.err == "" <==> ComputeEstimate(rates, sqft, projectType, quality, location).Success?
    ensures v.err != "" ==> v.labor == 0.0 && v.material == 0.0 && v.total == 0.0
    ensures IsCents(v.labor) && IsCents(v.material) && v.total == v.labor + v.material
  {
    match ComputeEstimate(rates, sqft, projectType, quality, location)
    case Success(e) => LegacyView(e.labor, e.material, e.total, "")
    case Failure(fault) => LegacyView(0.0, 0.0, 0.0, Message(fault))
  }

  /** Apart from the currency, this wrapper shows what `useEstimate` shows. */
  lemma LegacyMatchesUseEstimate(rates: RateTable, sqft: Number, projectType: string, quality: string, location: string)
    ensures var l := LegacyEstimate(rates, sqft, projectType, quality, location);
      var u := UseEstimate(rates, sqft, projectType, quality, location);
      l.labor == u.labor && l.material == u.material && l.total == u.total && l.err == u.error
  {
  }

  /** Text that does not parse leaves 0 in the size, which the calculator
      then rejects: the screen shows "Invalid room size". */
  lemma UnparsableSizeShowsError(rates: RateTable, raw: string, projectType: string, quality: string, location: string)
    requires !IsFinite(NumberOfCleaned(raw))
    ensures LegacyEstimate(rates, LegacySqft(raw), projectType, quality, location).err == "Invalid room size"
  {
  }

  /** Cleaned text that `Number` cannot parse stores 0 here. */
  lemma LegacySqftUnparsable()
    ensures LegacySqft("1.2.3") == Finite(0.0)
    ensures LegacySqft(".") == Finite(0.0)
  {
    assert Clean("1.2.3") == "1.2.3";
    assert DotCount("1.2.3") == 2;
    assert Clean(".") == ".";
  }

  /** Text with no digits at all cleans to "", which is 0 and clamps to 1. */
  lemma LegacySqftLetters()
    ensures LegacySqft("abc") == Finite(1.0)
  {
    assert Clean("abc") == "";
  }

  /** The component's state. */
  class Legacy {
    const rates: RateTable
    var projectType: string
    var quality: string
    var location: string
    var sqft: Number
    var err: string

    constructor (rates: RateTable, projectType: string, quality: string, location: string)
      ensures this.rates == rates && this.projectType == projectType && this.quality == quality
      ensures this.location == location && sqft == Finite(100.0) && err == ""
    {
      this.rates := rates;
      this.projectType := projectType;
      this.quality := quality;
      this.location := location;
      sqft := Finite(100.0);
      err := "";
    }

    /** The currency shown, from `getLocationMeta`. */
    function Currency(): (c: Option<string>)
      reads this
      ensures location !in rates.locationMultipliers ==> c == Some("USD")
      ensures c != Some("USD") && c != Some("GHS") ==>
        location in rates.locationMultipliers && rates.locationMultipliers[location].Rich?
    {
      GetLocationMeta(rates, location).currency
    }

    method HandleSqftChange(raw: string)
      modifies this`sqft
      ensures sqft == LegacySqft(raw)
    {
      var n := NumberOfCleaned(raw);
      if IsFinite(n) {
        sqft := Max(Finite(1.0), Min(n, Finite(100000.0)));
      } else {
        sqft := Finite(0.0);
      }
    }

    /** The estimate memo: returns the amounts and sets `err`. */
    method Estimate() returns (labor: real, material: real, total: real)
      modifies this`err
      ensures var v := LegacyEstimate(rates, sqft, projectType, quality, location);
        labor == v.labor && material == v.material && total == v.total && err == v.err
      ensures err == "" <==> ComputeEstimate(rates, sqft, projectType, quality, location).Success?
    {
      var r := ComputeEstimate(rates, sqft, projectType, quality, location);
      if r.Success? {
        err := "";
        labor, material, total := r.value.labor, r.value.material, r.value.total;
      } else {
        err := Message(r.error);
        labor, material, total := 0.0, 0.0, 0.0;
      }
    }
  }
}

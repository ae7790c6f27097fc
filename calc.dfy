/** The estimate engine of QuickQuote/src/lib/calc.js: validate the room
    size, look up per-square-foot rates, apply the quality and location
    multipliers, and round labor and material to cents before their sum is
    rounded again. The rate table (rates.json) is a parameter. */
module Calc {
  import opened Wrappers
  import opened JsNumber
  import opened Money

  datatype ProjectRates = ProjectRates(laborPerSqFt: real, materialPerSqFt: real)

  /** A location entry is either a bare multiplier or an object whose
      `multiplier` and `currency` members may each be missing. */
  datatype LocationEntry =
    | Flat(multiplier: real)
    | Rich(richMultiplier: Option<real>, currency: Option<string>)

  datatype RateTable = RateTable(
    projects: map<string, ProjectRates>,
    qualityMultipliers: map<string, real>,
    locationMultipliers: map<string, LocationEntry>)

  datatype EstimateError = InvalidRoomSize | UnknownProjectType

  /** The message of the thrown `Error`. */
  function Message(e: EstimateError): (m: string)
    ensures m != ""
  {
    match e
    case InvalidRoomSize => "Invalid room size"
    case UnknownProjectType => "Unknown project type"
  }

  /** `{ labor, material, total, currency }`; `currency` is absent when an
      object location entry has no `currency` member. */
  datatype Estimate = Estimate(labor: real, material: real, total: real, currency: Option<string>)

  /** `rates.qualityMultipliers[quality] ?? 1` */
  function QualityMultiplier(rates: RateTable, quality: string): (q: real)
    ensures quality !in rates.qualityMultipliers ==> q == 1.0
    ensures quality in rates.qualityMultipliers ==> q == rates.qualityMultipliers[quality]
  {
    if quality in rates.qualityMultipliers then rates.qualityMultipliers[quality] else 1.0
  }

  /** The location multiplier: a bare number is used as it is, an object's
      `multiplier ?? 1`, and a missing entry gives 1. */
  function LocationMultiplier(rates: RateTable, location: string): (l: real)
    ensures location !in rates.locationMultipliers ==> l == 1.0
    ensures location in rates.locationMultipliers ==>
      l == match rates.locationMultipliers[location]
           case Flat(m) => m
           case Rich(m, _) => if m.Some? then m.value else 1.0
  {
    if location !in rates.locationMultipliers then 1.0
    else match rates.locationMultipliers[location]
      case Flat(m) => m
      case Rich(Some(m), _) => m
      case Rich(None, _) => 1.0
  }

  /** The currency: an object entry's `currency` member verbatim (even when
      absent), otherwise "USD". */
  function LocationCurrency(rates: RateTable, location: string): (c: Option<string>)
    ensures c != Some("USD") ==> location in rates.locationMultipliers && rates.locationMultipliers[location].Rich?
    ensures location in rates.locationMultipliers && rates.locationMultipliers[location].Rich? ==>
      c == rates.locationMultipliers[location].currency
  {
    if location in rates.locationMultipliers && rates.locationMultipliers[location].Rich? then
      rates.locationMultipliers[location].currency
    else Some("USD")
  }

  /** The unrounded cost `perSqFt * s * q * l` of one component. */
  function RawCost(perSqFt: real, s: real, q: real, l: real): real {
    perSqFt * s * q * l
  }

  predicate ValidSize(sqft: Number) {
    IsFinite(sqft) && sqft.value > 0.0
  }

  /** `computeEstimate(sqft, projectType, quality, location)`. The size check
      comes before the project lookup. */
  function ComputeEstimate(rates: RateTable, sqft: Number, projectType: string, quality: string, location: string)
    : (r: Result<Estimate, EstimateError>)
    ensures r.Failure? <==> !ValidSize(sqft) || projectType !in rates.projects
    ensures r.Failure? ==> r.error == if ValidSize(sqft) then UnknownProjectType else InvalidRoomSize
    ensures r.Success? ==>
      IsCents(r.value.labor) && IsCents(r.value.material) && IsCents(r.value.total)
      && r.value.total == r.value.labor + r.value.material
  {
    if !ValidSize(sqft) then Failure(InvalidRoomSize)
    else if projectType !in rates.projects then Failure(UnknownProjectType)
    else
      var s := sqft.value;
      var project := rates.projects[projectType];
      var qMul := QualityMultiplier(rates, quality);
      var lMul := LocationMultiplier(rates, location);
      var labor := Round2(RawCost(project.laborPerSqFt, s, qMul, lMul));
      var material := Round2(RawCost(project.materialPerSqFt, s, qMul, lMul));
      CentsAdd(labor, material);
      Round2OfCents(labor + material);
      Success(Estimate(labor, material, Round2(labor + material), LocationCurrency(rates, location)))
  }

  /** The labor and material amounts are the per-square-foot rates times the
      size and both multipliers, each rounded to cents; the total rounds the
      sum of the rounded parts; the currency is the location's. */
  lemma EstimateBreakdown(rates: RateTable, sqft: Number, projectType: string, quality: string, location: string)
    requires ValidSize(sqft) && projectType in rates.projects
    ensures var r := ComputeEstimate(rates, sqft, projectType, quality, location);
      var p := rates.projects[projectType];
      var q, l := QualityMultiplier(rates, quality), LocationMultiplier(rates, location);
      r.Success?
      && r.value.labor == Round2(RawCost(p.laborPerSqFt, sqft.value, q, l))
      && r.value.material == Round2(RawCost(p.materialPerSqFt, sqft.value, q, l))
      && r.value.total == Round2(r.value.labor + r.value.material)
      && r.value.currency == LocationCurrency(rates, location)
  {
  }

  /** Unknown quality tiers and locations are not errors: they give a
      multiplier of 1 and, for a location, the currency "USD"; an object
      entry without a multiplier also gives 1. */
  lemma LenientDefaults(rates: RateTable, quality: string, location: string)
    ensures quality !in rates.qualityMultipliers ==> QualityMultiplier(rates, quality) == 1.0
    ensures location !in rates.locationMultipliers ==>
      LocationMultiplier(rates, location) == 1.0 && LocationCurrency(rates, location) == Some("USD")
    ensures (location in rates.locationMultipliers && rates.locationMultipliers[location].Rich?
             && rates.locationMultipliers[location].richMultiplier.None?) ==>
      LocationMultiplier(rates, location) == 1.0
  {
  }

  /** The total is within one and a half cents of the unrounded cost. */
  lemma EstimateAccuracy(rates: RateTable, sqft: Number, projectType: string, quality: string, location: string)
    requires ValidSize(sqft) && projectType in rates.projects
    ensures var r := ComputeEstimate(rates, sqft, projectType, quality, location);
      var p := rates.projects[projectType];
      var q, l := QualityMultiplier(rates, quality), LocationMultiplier(rates, location);
      var exact := RawCost(p.laborPerSqFt, sqft.value, q, l) + RawCost(p.materialPerSqFt, sqft.value, q, l);
      r.Success? && exact - 0.01 < r.value.total <= exact + 0.01
  {
  }

  lemma RawCostMonotone(perSqFt: real, s1: real, s2: real, q: real, l: real)
    requires perSqFt >= 0.0 && q >= 0.0 && l >= 0.0 && s1 <= s2
    ensures RawCost(perSqFt, s1, q, l) <= RawCost(perSqFt, s2, q, l)
  {
    MulMonotone(perSqFt, s1, s2);
    MulMonotone(q, perSqFt * s1, perSqFt * s2);
    assert perSqFt * s1 * q <= perSqFt * s2 * q;
    MulMonotone(l, perSqFt * s1 * q, perSqFt * s2 * q);
    assert perSqFt * s1 * q * l <= perSqFt * s2 * q * l;
  }

  lemma MulMonotone(k: real, a: real, b: real)
    requires k >= 0.0 && a <= b
    ensures k * a <= k * b && a * k <= b * k
  {
    assert k * b - k * a == k * (b - a);
  }

  /** With non-negative rates and multipliers a larger room never costs less. */
  lemma EstimateMonotoneInSize(rates: RateTable, s1: real, s2: real, projectType: string, quality: string, location: string)
    requires 0.0 < s1 <= s2 && projectType in rates.projects
    requires rates.projects[projectType].laborPerSqFt >= 0.0 && rates.projects[projectType].materialPerSqFt >= 0.0
    requires QualityMultiplier(rates, quality) >= 0.0 && LocationMultiplier(rates, location) >= 0.0
    ensures var r1 := ComputeEstimate(rates, Finite(s1), projectType, quality, location);
      var r2 := ComputeEstimate(rates, Finite(s2), projectType, quality, location);
      r1.Success? && r2.Success?
      && r1.value.labor <= r2.value.labor && r1.value.material <= r2.value.material
      && r1.value.total <= r2.value.total
  {
    var p := rates.projects[projectType];
    var q, l := QualityMultiplier(rates, quality), LocationMultiplier(rates, location);
    RawCostMonotone(p.laborPerSqFt, s1, s2, q, l);
    RawCostMonotone(p.materialPerSqFt, s1, s2, q, l);
    Round2Monotone(RawCost(p.laborPerSqFt, s1, q, l), RawCost(p.laborPerSqFt, s2, q, l));
    Round2Monotone(RawCost(p.materialPerSqFt, s1, q, l), RawCost(p.materialPerSqFt, s2, q, l));
  }

  /** A bare multiplier and an object entry with the same multiplier give the
      same amounts; the shape of the entry decides only the currency. */
  lemma EntryShapeAffectsOnlyCurrency(rates: RateTable, sqft: Number, projectType: string, quality: string,
                                      location: string, m: real, c: Option<string>)
    requires ValidSize(sqft) && projectType in rates.projects
    ensures var flat := rates.(locationMultipliers := rates.locationMultipliers[location := Flat(m)]);
      var rich := rates.(locationMultipliers := rates.locationMultipliers[location := Rich(Some(m), c)]);
      var a := ComputeEstimate(flat, sqft, projectType, quality, location);
      var b := ComputeEstimate(rich, sqft, projectType, quality, location);
      a.Success? && b.Success?
      && a.value.(currency := b.value.currency) == b.value
      && a.value.currency == Some("USD") && b.value.currency == c
  {
    var flat := rates.(locationMultipliers := rates.locationMultipliers[location := Flat(m)]);
    var rich := rates.(locationMultipliers := rates.locationMultipliers[location := Rich(Some(m), c)]);
    assert LocationMultiplier(flat, location) == m == LocationMultiplier(rich, location);
    assert QualityMultiplier(flat, quality) == QualityMultiplier(rich, quality);
    assert LocationCurrency(flat, location) == Some("USD");
    assert LocationCurrency(rich, location) == c;
    EstimateBreakdown(flat, sqft, projectType, quality, location);
    EstimateBreakdown(rich, sqft, projectType, quality, location);
  }

  lemma RawCostByLocation(perSqFt: real, s: real, q: real, l: real)
    ensures RawCost(perSqFt, s, q, l) == l * RawCost(perSqFt, s, q, 1.0)
  {
  }

  /** When no rounding happens, the total scales linearly with the location
      multiplier, relative to a location whose multiplier is 1. */
  lemma LocationScaling(rates: RateTable, sqft: Number, projectType: string, quality: string, base: string, location: string)
    requires ValidSize(sqft) && projectType in rates.projects
    requires LocationMultiplier(rates, base) == 1.0
    requires var p := rates.projects[projectType];
      var q, l := QualityMultiplier(rates, quality), LocationMultiplier(rates, location);
      IsCents(RawCost(p.laborPerSqFt, sqft.value, q, 1.0)) && IsCents(RawCost(p.materialPerSqFt, sqft.value, q, 1.0))
      && IsCents(RawCost(p.laborPerSqFt, sqft.value, q, l)) && IsCents(RawCost(p.materialPerSqFt, sqft.value, q, l))
    ensures var b := ComputeEstimate(rates, sqft, projectType, quality, base);
      var r := ComputeEstimate(rates, sqft, projectType, quality, location);
      b.Success? && r.Success? && r.value.total == LocationMultiplier(rates, location) * b.value.total
  {
    var p := rates.projects[projectType];
    var s := sqft.value;
    var q, l := QualityMultiplier(rates, quality), LocationMultiplier(rates, location);
    var lab1, mat1 := RawCost(p.laborPerSqFt, s, q, 1.0), RawCost(p.materialPerSqFt, s, q, 1.0);
    RawCostByLocation(p.laborPerSqFt, s, q, l);
    RawCostByLocation(p.materialPerSqFt, s, q, l);
    Round2OfCents(lab1);
    Round2OfCents(mat1);
    Round2OfCents(RawCost(p.laborPerSqFt, s, q, l));
    Round2OfCents(RawCost(p.materialPerSqFt, s, q, l));
    EstimateBreakdown(rates, sqft, projectType, quality, base);
    EstimateBreakdown(rates, sqft, projectType, quality, location);
    assert l * lab1 + l * mat1 == l * (lab1 + mat1);
  }

  // -----------------------------------------------------------------------
  // The rates the test suite relies on

  /** A rate table holding the values the tests pin: Bathroom Remodel 25/40,
      Flooring 22/35, Medium 1, High 1.25, US a bare 1, Ghana 0.8 in GHS. */
  function SampleRates(): RateTable {
    RateTable(
      map["Bathroom Remodel" := ProjectRates(25.0, 40.0), "Flooring" := ProjectRates(22.0, 35.0)],
      map["Medium" := 1.0, "High" := 1.25],
      map["US" := Flat(1.0), "Ghana" := Rich(Some(0.8), Some("GHS"))])
  }

  lemma SampleEstimates()
    ensures ComputeEstimate(SampleRates(), Finite(100.0), "Bathroom Remodel", "Medium", "US")
      == Success(Estimate(2500.0, 4000.0, 6500.0, Some("USD")))
    ensures ComputeEstimate(SampleRates(), Finite(100.0), "Bathroom Remodel", "Medium", "Ghana")
      == Success(Estimate(2000.0, 3200.0, 5200.0, Some("GHS")))
    ensures ComputeEstimate(SampleRates(), Finite(60.0), "Flooring", "High", "US")
      == Success(Estimate(1650.0, 2625.0, 4275.0, Some("USD")))
    ensures ComputeEstimate(SampleRates(), Finite(0.0), "UnknownThing", "Low", "US") == Failure(InvalidRoomSize)
    ensures ComputeEstimate(SampleRates(), Finite(-5.0), "Flooring", "Low", "US") == Failure(InvalidRoomSize)
    ensures ComputeEstimate(SampleRates(), NaN, "Flooring", "Low", "US") == Failure(InvalidRoomSize)
    ensures ComputeEstimate(SampleRates(), Finite(50.0), "UnknownThing", "Low", "US") == Failure(UnknownProjectType)
  {
    var r := SampleRates();
    assert "Ghana" != "US";
    Round2OfCents(2500.0);
    Round2OfCents(4000.0);
    Round2OfCents(2000.0);
    Round2OfCents(3200.0);
    Round2OfCents(1650.0);
    Round2OfCents(2625.0);
    Round2OfCents(6500.0);
    Round2OfCents(5200.0);
    Round2OfCents(4275.0);
  }
}

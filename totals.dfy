/** The derived-totals chain of QuickQuote/src/QuickQuoteEstimator.jsx: from
    the estimate's labor and material, the material extras and the five
    percentages, each step rounded to cents, down to the grand total and the
    confidence range around it. */
module Totals {
  import opened Wrappers
  import opened JsNumber
  import opened Money
  import opened Calc
  import opened Materials

  /** The five percentage inputs of the form. */
  datatype Percentages = Percentages(
    laborMarkupPct: real, materialMarkupPct: real, overheadPct: real, discountPct: real, taxPct: real)

  /** The percentages a fresh estimator starts with. */
  function DefaultPercentages(): (p: Percentages)
    ensures p.laborMarkupPct == 15.0 && p.materialMarkupPct == 10.0 && p.overheadPct == 10.0
    ensures p.discountPct == 0.0 && p.taxPct == 0.0
  {
    Percentages(15.0, 10.0, 10.0, 0.0, 0.0)
  }

  predicate NoAdjustments(p: Percentages) {
    p.laborMarkupPct == 0.0 && p.materialMarkupPct == 0.0 && p.overheadPct == 0.0
    && p.discountPct == 0.0 && p.taxPct == 0.0
  }

  datatype DerivedTotals = DerivedTotals(
    materialExtrasTotal: real, adjustedMaterial: real, markupLabor: real, markupMaterial: real,
    subtotal: real, overheadAmt: real, subWithOverhead: real, discountAmt: real,
    taxBase: real, taxAmt: real, grandTotal: real, baseCost: real, markupDelta: real,
    uncertaintyPct: real, rangeLow: real, rangeHigh: real)

  /** Every amount of the chain (all fields but the band) is whole cents. */
  predicate AllCents(t: DerivedTotals) {
    IsCents(t.materialExtrasTotal) && IsCents(t.adjustedMaterial) && IsCents(t.markupLabor)
    && IsCents(t.markupMaterial) && IsCents(t.subtotal) && IsCents(t.overheadAmt)
    && IsCents(t.subWithOverhead) && IsCents(t.discountAmt) && IsCents(t.taxBase)
    && IsCents(t.taxAmt) && IsCents(t.grandTotal) && IsCents(t.baseCost) && IsCents(t.markupDelta)
    && IsCents(t.rangeLow) && IsCents(t.rangeHigh)
  }

  /** The half-width of the confidence band for a quality tier. */
  function UncertaintyPct(quality: string): (u: real)
    ensures 0.1 <= u <= 0.2
  {
    if quality == "Low" then 0.2 else if quality == "High" then 0.1 else 0.15
  }

  /** Cheaper work is the least certain: Low is the widest band, High the
      narrowest, and every other tier lies between. */
  lemma UncertaintyOrder(quality: string)
    ensures UncertaintyPct("High") <= UncertaintyPct(quality) <= UncertaintyPct("Low")
    ensures quality != "Low" && quality != "High" ==> UncertaintyPct(quality) == 0.15
  {
  }

  /** `materialExtrasTotal`: the rounded sum of the additions' costs. */
  function ExtrasTotal(adds: seq<MaterialAddition>): (r: real)
    ensures IsCents(r)
    ensures adds == [] ==> r == 0.0
  {
    Round2(SumCosts(adds))
  }

  /** `x * (1 + pct / 100)` */
  function Grow(x: real, pct: real): real {
    x * (1.0 + pct / 100.0)
  }

  /** `x * (pct / 100)` */
  function Share(x: real, pct: real): real {
    x * (pct / 100.0)
  }

  /** The rendered totals for an estimate's labor and material. */
  function DeriveTotals(labor: real, material: real, quality: string, p: Percentages, adds: seq<MaterialAddition>)
    : (t: DerivedTotals)
    ensures AllCents(t)
    ensures t.materialExtrasTotal == ExtrasTotal(adds) && t.uncertaintyPct == UncertaintyPct(quality)
    ensures t.grandTotal >= 0.0 ==> t.rangeLow <= t.grandTotal <= t.rangeHigh
    ensures t.grandTotal < 0.0 ==> t.rangeHigh <= t.grandTotal <= t.rangeLow
  {
    var extras := ExtrasTotal(adds);
    var adjustedMaterial := Round2(material + extras);
    var markupLabor := Round2(Grow(labor, p.laborMarkupPct));
    var markupMaterial := Round2(Grow(adjustedMaterial, p.materialMarkupPct));
    var subtotal := Round2(markupLabor + markupMaterial);
    var overheadAmt := Round2(Share(subtotal, p.overheadPct));
    var subWithOverhead := Round2(subtotal + overheadAmt);
    var discountAmt := Round2(Share(subWithOverhead, p.discountPct));
    var taxBase := Round2(subWithOverhead - discountAmt);
    var taxAmt := Round2(Share(taxBase, p.taxPct));
    var grandTotal := Round2(taxBase + taxAmt);
    var baseCost := Round2(labor + adjustedMaterial);
    var markupDelta := Round2(subtotal - baseCost);
    var u := UncertaintyPct(quality);
    Band(grandTotal, u);
    DerivedTotals(extras, adjustedMaterial, markupLabor, markupMaterial, subtotal, overheadAmt,
                  subWithOverhead, discountAmt, taxBase, taxAmt, grandTotal, baseCost, markupDelta,
                  u, Round2(grandTotal * (1.0 - u)), Round2(grandTotal * (1.0 + u)))
  }

  /** Rounding the sum of two cent amounts gives the sum itself. */
  lemma Round2OfCentsSum(a: real, b: real)
    requires IsCents(a) && IsCents(b)
    ensures Round2(a + b) == a + b
  {
    CentsAdd(a, b);
    Round2OfCents(a + b);
  }

  /** With every percentage 0 the chain adds nothing: the grand total is the
      base cost, labor plus material plus extras, the markup is 0, and with no
      extras the grand total is `round2(labor + material)`. */
  lemma ZeroAdjustments(labor: real, material: real, quality: string, p: Percentages, adds: seq<MaterialAddition>)
    requires NoAdjustments(p) && IsCents(labor) && IsCents(material)
    ensures var t := DeriveTotals(labor, material, quality, p, adds);
      t.grandTotal == t.baseCost == labor + material + t.materialExtrasTotal
      && t.subtotal == t.baseCost && t.markupDelta == 0.0
      && t.overheadAmt == 0.0 && t.discountAmt == 0.0 && t.taxAmt == 0.0
    ensures adds == [] ==> DeriveTotals(labor, material, quality, p, adds).grandTotal == Round2(labor + material)
  {
    var t := DeriveTotals(labor, material, quality, p, adds);
    var e := ExtrasTotal(adds);
    Round2OfCentsSum(material, e);
    assert t.adjustedMaterial == material + e;
    CentsAdd(material, e);
    assert Grow(labor, 0.0) == labor;
    Round2OfCents(labor);
    assert Grow(t.adjustedMaterial, 0.0) == t.adjustedMaterial;
    Round2OfCents(t.adjustedMaterial);
    Round2OfCentsSum(labor, t.adjustedMaterial);
    assert t.subtotal == labor + t.adjustedMaterial;
    ZeroShare(t.subtotal);
    ZeroShare(t.subWithOverhead);
    ZeroShare(t.taxBase);
    assert t.baseCost == t.subtotal;
    Round2OfCents(0.0);
    if adds == [] {
      Round2OfCentsSum(labor, material);
    }
  }

  lemma ZeroShare(x: real)
    ensures Round2(Share(x, 0.0)) == 0.0 && Round2(x + Round2(Share(x, 0.0))) == Round2(x)
    ensures Round2(x - Round2(Share(x, 0.0))) == Round2(x)
  {
    assert Share(x, 0.0) == 0.0;
    Round2OfCents(0.0);
  }

  /** Scaling a non-negative cent amount down and up by `u` and rounding
      brackets it. */
  lemma BandAbove(g: real, u: real)
    requires IsCents(g) && g >= 0.0 && u >= 0.0
    ensures Round2(g * (1.0 - u)) <= g <= Round2(g * (1.0 + u))
  {
    var d := g * u;
    MulMonotone(g, 0.0, u);
    assert g * (1.0 - u) == g - d;
    assert g * (1.0 + u) == g + d;
    Round2OfCents(g);
    Round2Monotone(g - d, g);
    Round2Monotone(g, g + d);
  }

  /** For a negative cent amount the two ends swap. */
  lemma BandBelow(g: real, u: real)
    requires IsCents(g) && g < 0.0 && u >= 0.0
    ensures Round2(g * (1.0 + u)) <= g <= Round2(g * (1.0 - u))
  {
    var d := g * u;
    MulMonotone(u, g, 0.0);
    assert u * g == d;
    assert g * (1.0 - u) == g - d;
    assert g * (1.0 + u) == g + d;
    Round2OfCents(g);
    Round2Monotone(g + d, g);
    Round2Monotone(g, g - d);
  }

  /** The confidence range brackets a cent amount: below and above it when
      it is not negative, the other way round when it is. */
  lemma Band(g: real, u: real)
    requires IsCents(g) && u >= 0.0
    ensures g >= 0.0 ==> Round2(g * (1.0 - u)) <= g <= Round2(g * (1.0 + u))
    ensures g < 0.0 ==> Round2(g * (1.0 + u)) <= g <= Round2(g * (1.0 - u))
  {
    if g >= 0.0 {
      BandAbove(g, u);
    } else {
      BandBelow(g, u);
    }
  }

  lemma GrowMonotone(x: real, pct: real)
    requires x >= 0.0 && pct >= 0.0
    ensures Grow(x, pct) >= x
  {
    assert Grow(x, pct) == x + x * (pct / 100.0);
    assert x * (pct / 100.0) >= 0.0;
  }

  /** Markups never lower the price: with non-negative labor, adjusted
      material and markup percentages, `markupDelta` is not negative. */
  lemma MarkupDeltaNonNegative(labor: real, material: real, quality: string, p: Percentages, adds: seq<MaterialAddition>)
    requires labor >= 0.0 && p.laborMarkupPct >= 0.0 && p.materialMarkupPct >= 0.0
    requires DeriveTotals(labor, material, quality, p, adds).adjustedMaterial >= 0.0
    ensures DeriveTotals(labor, material, quality, p, adds).markupDelta >= 0.0
    ensures DeriveTotals(labor, material, quality, p, adds).subtotal >= DeriveTotals(labor, material, quality, p, adds).baseCost
  {
    var t := DeriveTotals(labor, material, quality, p, adds);
    var am := t.adjustedMaterial;
    GrowMonotone(labor, p.laborMarkupPct);
    Round2Monotone(labor, Grow(labor, p.laborMarkupPct));
    GrowMonotone(am, p.materialMarkupPct);
    Round2Monotone(am, Grow(am, p.materialMarkupPct));
    Round2OfCents(am);
    // markupLabor >= round2(labor) and markupMaterial >= am
    Round2Monotone(Round2(labor) + am, t.markupLabor + t.markupMaterial);
    Round2ShiftCents(labor, am);
    Round2OfCentsSum(Round2(labor), am);
    assert t.subtotal >= t.baseCost;
    Round2Monotone(0.0, t.subtotal - t.baseCost);
    Round2OfCents(0.0);
  }

  /** `sqftForCalc`: square metres are converted at 10.7639 sq ft each; any
      other unit passes the size through. */
  function SqftForCalc(unit: string, size: Number): (r: Number)
    ensures unit != "sqm" ==> r == size
    ensures unit == "sqm" ==> (IsFinite(r) <==> IsFinite(size))
    ensures unit == "sqm" && IsFinite(size) ==> r.value == size.value * 10.7639
  {
    if unit == "sqm" then Scale(size, 10.7639) else size
  }

  /** Switching the unit never changes whether the size is accepted. */
  lemma UnitKeepsValidity(unit: string, size: Number)
    ensures ValidSize(SqftForCalc(unit, size)) <==> ValidSize(size)
  {
    if unit == "sqm" && IsFinite(size) {
      if size.value > 0.0 {
        assert size.value * 10.7639 > 0.0;
      } else {
        assert size.value * 10.7639 <= 0.0;
      }
    }
  }

  /** A successful estimate fed through the chain with zero percentages and
      no extras comes out unchanged as the grand total. */
  lemma EstimateThroughTotals(rates: RateTable, sqft: Number, projectType: string, quality: string,
                              location: string, p: Percentages)
    requires NoAdjustments(p)
    requires ComputeEstimate(rates, sqft, projectType, quality, location).Success?
    ensures var e := ComputeEstimate(rates, sqft, projectType, quality, location).value;
      DeriveTotals(e.labor, e.material, quality, p, []).grandTotal == e.total
  {
    var e := ComputeEstimate(rates, sqft, projectType, quality, location).value;
    ZeroAdjustments(e.labor, e.material, quality, p, []);
    Round2OfCentsSum(e.labor, e.material);
  }

  /** While the estimate has failed the view's amounts are 0, so without
      extras every total is 0 whatever the percentages. */
  lemma FailedEstimateTotals(quality: string, p: Percentages)
    ensures var t := DeriveTotals(0.0, 0.0, quality, p, []);
      t.grandTotal == 0.0 && t.baseCost == 0.0 && t.rangeLow == 0.0 && t.rangeHigh == 0.0
  {
    Round2OfCents(0.0);
    assert Grow(0.0, p.laborMarkupPct) == 0.0;
    assert Grow(0.0, p.materialMarkupPct) == 0.0;
    assert Share(0.0, p.overheadPct) == 0.0;
    assert Share(0.0, p.discountPct) == 0.0;
    assert Share(0.0, p.taxPct) == 0.0;
    var u := UncertaintyPct(quality);
    assert 0.0 * (1.0 - u) == 0.0 && 0.0 * (1.0 + u) == 0.0;
  }

  /** The examples of the calculator's tests carried through the default
      percentages: 2500 labor and 4000 material give a grand total of 8002.50. */
  lemma DefaultTotalsSample()
    ensures DeriveTotals(2500.0, 4000.0, "Medium", DefaultPercentages(), []).grandTotal == 8002.5
  {
    var t := DeriveTotals(2500.0, 4000.0, "Medium", DefaultPercentages(), []);
    Round2OfCents(4000.0);
    assert Grow(2500.0, 15.0) == 2875.0;
    Round2OfCents(2875.0);
    assert Grow(4000.0, 10.0) == 4400.0;
    Round2OfCents(4400.0);
    Round2OfCents(7275.0);
    assert Share(7275.0, 10.0) == 727.5;
    Round2OfCents(727.5);
    Round2OfCents(8002.5);
    assert t.subWithOverhead == 8002.5;
    assert Share(8002.5, 0.0) == 0.0;
    Round2OfCents(0.0);
    Round2OfCents(8002.5);
    assert t.taxBase == 8002.5;
  }
}

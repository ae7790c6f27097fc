/** The state of the QuickQuote estimator component
    (QuickQuote/src/QuickQuoteEstimator.jsx): the form, the clamped size
    cell, the saved-quote history, the material favorites and the material
    additions, with the handlers that replace them. */
module QuoteState {
  import opened Wrappers
  import opened JsNumber
  import opened Money
  import opened Calc
  import opened Hooks
  import opened Materials
  import opened Totals

  /** The form fields other than the size. */
  datatype Form = Form(
    role: string, projectType: string, quality: string, location: string,
    unit: string, currencyMode: string, pcts: Percentages)

  predicate IsRole(s: string) {
    s == "Homeowner" || s == "Contractor"
  }

  predicate IsUnit(s: string) {
    s == "sqft" || s == "sqm"
  }

  /** A truthy key of the rate table. */
  predicate IsKey<V>(s: string, table: map<string, V>) {
    s != "" && s in table
  }

  /** Every select holds an option that the loader would accept. */
  predicate ValidForm(rates: RateTable, f: Form) {
    IsRole(f.role) && IsKey(f.projectType, rates.projects)
    && IsKey(f.quality, rates.qualityMultipliers) && IsKey(f.location, rates.locationMultipliers)
    && IsUnit(f.unit) && (f.currencyMode == "Auto" || |f.currencyMode| == 3)
  }

  /** The percentages hold whole hundredths, as the loader stores them. */
  predicate CentPercentages(p: Percentages) {
    IsCents(p.laborMarkupPct) && IsCents(p.materialMarkupPct) && IsCents(p.overheadPct)
    && IsCents(p.discountPct) && IsCents(p.taxPct)
  }

  // -----------------------------------------------------------------------
  // History

  /** A saved quote, as `saveQuote` builds it. */
  datatype HistoryEntry = HistoryEntry(
    ts: int, role: string, projectType: string, quality: string, location: string, unit: string,
    size: Number, laborBase: real, laborFinal: real, materialBase: real, materialExtrasTotal: real,
    materialFinal: real, total: real, baseTotal: real, currency: Option<string>,
    laborMarkupPct: real, materialMarkupPct: real, overheadPct: real, discountPct: real, taxPct: real)

  /** The entry for the current form, size, estimate view and totals. */
  function MakeEntry(ts: int, f: Form, size: Number, v: EstimateView, t: DerivedTotals): (e: HistoryEntry)
    ensures e.total == t.grandTotal && e.baseTotal == v.total && e.currency == v.currency
    ensures e.laborBase == v.labor && e.laborFinal == t.markupLabor
    ensures e.materialBase == v.material && e.materialFinal == t.markupMaterial
  {
    HistoryEntry(ts, f.role, f.projectType, f.quality, f.location, f.unit, size,
                 v.labor, t.markupLabor, v.material, t.materialExtrasTotal, t.markupMaterial,
                 t.grandTotal, v.total, v.currency,
                 f.pcts.laborMarkupPct, f.pcts.materialMarkupPct, f.pcts.overheadPct,
                 f.pcts.discountPct, f.pcts.taxPct)
  }

  function HistoryLength(n: nat): nat {
    if n < 5 then n else 5
  }

  /** `[entry, ...history].slice(0, 5)`: newest first, the older entries in
      their order, at most five kept. */
  function PushHistory<E>(entry: E, h: seq<E>): (r: seq<E>)
    ensures |r| == HistoryLength(|h| + 1) && |r| <= 5
    ensures r[0] == entry
    ensures forall i :: 1 <= i < |r| ==> r[i] == h[i - 1]
  {
    ([entry] + h)[..HistoryLength(|h| + 1)]
  }

  function Reverse<E>(s: seq<E>): (r: seq<E>)
    ensures |r| == |s|
    ensures forall i :: 0 <= i < |s| ==> r[i] == s[|s| - 1 - i]
  {
    if s == [] then [] else [s[|s| - 1]] + Reverse(s[..|s| - 1])
  }

  /** The history after saving `es` in order. */
  function SaveAll<E>(h: seq<E>, es: seq<E>): (r: seq<E>)
    ensures |r| == if es == [] then |h| else HistoryLength(|h| + |es|)
    ensures es != [] ==> r[0] == es[|es| - 1]
  {
    if es == [] then h else PushHistory(es[|es| - 1], SaveAll(h, es[..|es| - 1]))
  }

  /** After any run of saves the history holds the newest five entries,
      newest first, followed by what is left of the old history. */
  lemma {:induction false} SaveAllNewestFirst<E>(h: seq<E>, es: seq<E>)
    requires |h| <= 5
    ensures SaveAll(h, es) == (Reverse(es) + h)[..HistoryLength(|es| + |h|)]
  {
    if es == [] {
      assert Reverse(es) + h == h;
    } else {
      var last := es[|es| - 1];
      var rest := es[..|es| - 1];
      SaveAllNewestFirst(h, rest);
      var m' := HistoryLength(|rest| + |h|);
      var m := HistoryLength(|es| + |h|);
      var a := Reverse(rest) + h;
      assert Reverse(es) + h == [last] + a;
      assert SaveAll(h, es) == ([last] + a[..m'])[..HistoryLength(m' + 1)];
      assert HistoryLength(m' + 1) == m;
      assert ([last] + a[..m'])[..m] == ([last] + a)[..m];
    }
  }

  // -----------------------------------------------------------------------
  // loadQuote

  /** The record `loadQuote` receives, as loose as stored data can be: a
      missing text field is `None` and a missing number is NaN. */
  datatype QuoteRecord = QuoteRecord(
    role: Option<string>, projectType: Option<string>, quality: Option<string>,
    location: Option<string>, unit: Option<string>, currency: Option<string>,
    size: Number, overheadPct: Number, taxPct: Number, discountPct: Number,
    laborMarkupPct: Number, materialMarkupPct: Number)

  /** A saved entry as `loadQuote` sees it. */
  function AsRecord(e: HistoryEntry): (q: QuoteRecord)
    ensures q.projectType == Some(e.projectType) && q.currency == e.currency && q.size == e.size
  {
    QuoteRecord(Some(e.role), Some(e.projectType), Some(e.quality), Some(e.location), Some(e.unit),
                e.currency, e.size, Finite(e.overheadPct), Finite(e.taxPct), Finite(e.discountPct),
                Finite(e.laborMarkupPct), Finite(e.materialMarkupPct))
  }

  /** A text field of the record, taken only when `ok` accepts it. */
  function PickText(current: string, candidate: Option<string>, ok: string -> bool): (r: string)
    ensures candidate.Some? && ok(candidate.value) ==> r == candidate.value
    ensures !(candidate.Some? && ok(candidate.value)) ==> r == current
  {
    if candidate.Some? && ok(candidate.value) then candidate.value else current
  }

  /** A numeric field, taken rounded to cents only when finite. */
  function PickAmount(current: real, candidate: Number): (r: real)
    ensures IsFinite(candidate) ==> r == Round2(candidate.value)
    ensures !IsFinite(candidate) ==> r == current
  {
    if IsFinite(candidate) then Round2(candidate.value) else current
  }

  /** `loadQuote(q)`: each field is applied on its own and only when valid;
      an absent record changes nothing. */
  function ApplyQuote(rates: RateTable, f: Form, q: Option<QuoteRecord>): (r: Form)
    ensures q.None? ==> r == f
    ensures ValidForm(rates, f) ==> ValidForm(rates, r)
    ensures q.Some? ==>
      (r.role == if q.value.role.Some? && IsRole(q.value.role.value) then q.value.role.value else f.role)
      && (r.projectType == if q.value.projectType.Some? && IsKey(q.value.projectType.value, rates.projects)
                           then q.value.projectType.value else f.projectType)
      && (r.quality == if q.value.quality.Some? && IsKey(q.value.quality.value, rates.qualityMultipliers)
                       then q.value.quality.value else f.quality)
      && (r.location == if q.value.location.Some? && IsKey(q.value.location.value, rates.locationMultipliers)
                        then q.value.location.value else f.location)
      && (r.unit == if q.value.unit.Some? && IsUnit(q.value.unit.value) then q.value.unit.value else f.unit)
      && (r.currencyMode == if q.value.currency.Some? && |q.value.currency.value| == 3
                            then q.value.currency.value else f.currencyMode)
    ensures q.Some? ==>
      r.pcts == Percentages(PickAmount(f.pcts.laborMarkupPct, q.value.laborMarkupPct),
                            PickAmount(f.pcts.materialMarkupPct, q.value.materialMarkupPct),
                            PickAmount(f.pcts.overheadPct, q.value.overheadPct),
                            PickAmount(f.pcts.discountPct, q.value.discountPct),
                            PickAmount(f.pcts.taxPct, q.value.taxPct))
  {
    match q
    case None => f
    case Some(rec) =>
      Form(PickText(f.role, rec.role, IsRole),
           PickText(f.projectType, rec.projectType, (s: string) => IsKey(s, rates.projects)),
           PickText(f.quality, rec.quality, (s: string) => IsKey(s, rates.qualityMultipliers)),
           PickText(f.location, rec.location, (s: string) => IsKey(s, rates.locationMultipliers)),
           PickText(f.unit, rec.unit, IsUnit),
           PickText(f.currencyMode, rec.currency, (s: string) => |s| == 3),
           Percentages(PickAmount(f.pcts.laborMarkupPct, rec.laborMarkupPct),
                       PickAmount(f.pcts.materialMarkupPct, rec.materialMarkupPct),
                       PickAmount(f.pcts.overheadPct, rec.overheadPct),
                       PickAmount(f.pcts.discountPct, rec.discountPct),
                       PickAmount(f.pcts.taxPct, rec.taxPct)))
  }

  /** The size `loadQuote` leaves: the record's when finite, stored without
      the clamp. */
  function LoadedSize(current: Number, q: Option<QuoteRecord>): (r: Number)
    ensures q.Some? && IsFinite(q.value.size) ==> r == q.value.size
    ensures !(q.Some? && IsFinite(q.value.size)) ==> r == current
  {
    if q.Some? && IsFinite(q.value.size) then q.value.size else current
  }

  /** A record with nothing usable in it. */
  function EmptyRecord(): (q: QuoteRecord)
    ensures q.role.None? && !IsFinite(q.size)
  {
    QuoteRecord(None, None, None, None, None, None, NaN, NaN, NaN, NaN, NaN, NaN)
  }

  /** Loading a record with no valid field changes neither the form nor the size. */
  lemma EmptyRecordChangesNothing(rates: RateTable, f: Form, size: Number)
    ensures ApplyQuote(rates, f, Some(EmptyRecord())) == f
    ensures LoadedSize(size, Some(EmptyRecord())) == size
  {
  }

  /** Saving and then loading a quote restores the form it was saved from,
      except that the currency selector takes the estimate's currency when it
      is a three-letter code; the size comes back as saved. */
  lemma LoadSavedQuote(rates: RateTable, f: Form, g: Form, size: Number, v: EstimateView, t: DerivedTotals,
                       ts: int, current: Number)
    requires ValidForm(rates, f) && CentPercentages(f.pcts) && IsFinite(size)
    ensures var q := Some(AsRecord(MakeEntry(ts, f, size, v, t)));
      ApplyQuote(rates, g, q)
        == f.(currencyMode := if v.currency.Some? && |v.currency.value| == 3 then v.currency.value
                              else g.currencyMode)
      && LoadedSize(current, q) == size
  {
    Round2OfCents(f.pcts.laborMarkupPct);
    Round2OfCents(f.pcts.materialMarkupPct);
    Round2OfCents(f.pcts.overheadPct);
    Round2OfCents(f.pcts.discountPct);
    Round2OfCents(f.pcts.taxPct);
  }

  /** Loading is idempotent: a second load of the same record changes nothing more. */
  lemma {:induction false} LoadTwice(rates: RateTable, f: Form, q: Option<QuoteRecord>, size: Number)
    ensures ApplyQuote(rates, ApplyQuote(rates, f, q), q) == ApplyQuote(rates, f, q)
    ensures LoadedSize(LoadedSize(size, q), q) == LoadedSize(size, q)
  {
  }

  // -----------------------------------------------------------------------
  // The component

  /** The estimator's state. The size is the `useClampedNumber(100,
      { min: 1, max: 100000 })` cell; everything else is a field replaced by
      the handlers below. */
  class Estimator {
    const rates: RateTable
    const size: ClampedNumber
    var form: Form
    var history: seq<HistoryEntry>
    var favorites: seq<Favorite>
    var favoriteSelection: string
    var newFavoriteName: string
    var newFavoriteCost: string
    var additions: seq<MaterialAddition>

    /** The size cell keeps the bounds it was created with. */
    predicate Valid()
      reads this, size
    {
      size.min == Finite(1.0) && size.max == Finite(100000.0)
    }

    /** The selection names a favorite, or is "" when there is none: what the
        selection effect restores. */
    predicate SelectionSettled()
      reads this
    {
      if favorites == [] then favoriteSelection == "" else FindFavorite(favorites, favoriteSelection).Some?
    }

    /** The initial state; the default project, quality and location come
        from the rate table and the environment, so they are parameters. */
    constructor (rates: RateTable, projectType: string, quality: string, location: string)
      ensures Valid() && fresh(size)
      ensures this.rates == rates && size.value == Finite(100.0)
      ensures form == Form("Homeowner", projectType, quality, location, "sqft", "Auto", DefaultPercentages())
      ensures history == [] && additions == [] && favorites == DefaultFavorites()
      ensures favoriteSelection == "drywall-sheet" && newFavoriteName == "" && newFavoriteCost == ""
      ensures SelectionSettled()
    {
      this.rates := rates;
      size := new ClampedNumber(Finite(100.0), Finite(1.0), Finite(100000.0));
      form := Form("Homeowner", projectType, quality, location, "sqft", "Auto", DefaultPercentages());
      history := [];
      favorites := DefaultFavorites();
      favoriteSelection := DefaultFavorites()[0].id;
      newFavoriteName := "";
      newFavoriteCost := "";
      additions := [];
    }

    /** `sqftForCalc` */
    function SqftForCalcNow(): (n: Number)
      reads this, size
      ensures IsFinite(n) <==> IsFinite(size.value)
      ensures form.unit != "sqm" ==> n == size.value
    {
      SqftForCalc(form.unit, size.value)
    }

    /** What `useEstimate` returns for the current state. */
    function View(): (v: EstimateView)
      reads this, size
      ensures v.error == "" <==> ComputeEstimate(rates, SqftForCalcNow(), form.projectType, form.quality, form.location).Success?
    {
      UseEstimate(rates, SqftForCalcNow(), form.projectType, form.quality, form.location)
    }

    /** The derived totals for the current state. */
    function CurrentTotals(): (t: DerivedTotals)
      reads this, size
      ensures AllCents(t)
    {
      DeriveTotals(View().labor, View().material, form.quality, form.pcts, additions)
    }

    /** The entry `saveQuote` would record at time `ts`. */
    function CurrentEntry(ts: int): (e: HistoryEntry)
      reads this, size
      ensures e.total == CurrentTotals().grandTotal && e.size == size.value
    {
      MakeEntry(ts, form, size.value, View(), CurrentTotals())
    }

    /** `handleSqftChange`: the size input's `onChange`. */
    method HandleSizeChange(raw: string)
      requires Valid()
      modifies size
      ensures Valid()
      ensures size.value == ClampInput(raw, Finite(1.0), Finite(100000.0))
      ensures IsFinite(size.value) && 1.0 <= size.value.value <= 100000.0
    {
      size.OnChange(raw);
    }

    /** `saveQuote()`: nothing while there is an error, otherwise the current
        entry goes in front of the history, which keeps at most five. */
    method SaveQuote(ts: int)
      modifies this`history
      ensures View().error != "" ==> history == old(history)
      ensures View().error == "" ==> history == PushHistory(CurrentEntry(ts), old(history))
    {
      if View().error != "" {
        return;
      }
      history := PushHistory(CurrentEntry(ts), history);
    }

    /** `addMaterialFromFavorite()`, with the fresh `entryId` supplied. */
    method AddMaterialFromFavorite(entryId: string)
      modifies this`additions
      ensures additions == AddFromFavorite(old(additions), favorites, favoriteSelection, entryId)
    {
      if favoriteSelection == "" {
        return;
      }
      var i := FindFavorite(favorites, favoriteSelection);
      if i.None? {
        return;
      }
      var fav := favorites[i.value];
      additions := additions + [MaterialAddition(entryId, fav.id, fav.name, Round2(fav.cost))];
    }

    /** `removeMaterialAddition(entryId)` */
    method RemoveMaterialAddition(entryId: string)
      modifies this`additions
      ensures additions == RemoveEntry(old(additions), entryId)
    {
      additions := RemoveEntry(additions, entryId);
    }

    /** `updateMaterialAdditionCost(entryId, raw)` */
    method UpdateMaterialAdditionCost(entryId: string, raw: string)
      modifies this`additions
      ensures additions == WithCost(old(additions), entryId, raw)
    {
      additions := WithCost(additions, entryId, raw);
    }

    /** `updateMaterialAdditionName(entryId, value)` */
    method UpdateMaterialAdditionName(entryId: string, name: string)
      modifies this`additions
      ensures additions == WithName(old(additions), entryId, name)
    {
      additions := WithName(additions, entryId, name);
    }

    /** `addFavorite()`, with the fresh id supplied: a valid name and cost
        append the favorite, select it and clear both inputs; otherwise
        nothing changes. */
    method AddFavorite(freshId: string)
      modifies this`favorites, this`favoriteSelection, this`newFavoriteName, this`newFavoriteCost
      ensures var nf := NewFavorite(old(newFavoriteName), old(newFavoriteCost), freshId);
        if nf.None? then
          favorites == old(favorites) && favoriteSelection == old(favoriteSelection)
          && newFavoriteName == old(newFavoriteName) && newFavoriteCost == old(newFavoriteCost)
        else
          favorites == old(favorites) + [nf.value] && favoriteSelection == freshId
          && newFavoriteName == "" && newFavoriteCost == ""
      ensures old(SelectionSettled()) ==> SelectionSettled()
    {
      var nf := NewFavorite(newFavoriteName, newFavoriteCost, freshId);
      if nf.None? {
        return;
      }
      favorites := favorites + [nf.value];
      newFavoriteName := "";
      newFavoriteCost := "";
      favoriteSelection := freshId;
      NewFavoriteStaysSelected(old(favorites), nf.value);
    }

    /** `removeFavorite(id)` */
    method RemoveFavorite(id: string)
      modifies this`favorites
      ensures favorites == Materials.RemoveFavorite(old(favorites), id)
    {
      favorites := Materials.RemoveFavorite(favorites, id);
    }

    /** The effect that repairs the selection after the favorites change. */
    method SyncFavoriteSelection()
      modifies this`favoriteSelection
      ensures favoriteSelection == FixedSelection(favorites, old(favoriteSelection))
      ensures SelectionSettled()
      ensures old(SelectionSettled()) ==> favoriteSelection == old(favoriteSelection)
    {
      if |favorites| == 0 {
        favoriteSelection := "";
      } else if FindFavorite(favorites, favoriteSelection).None? {
        favoriteSelection := favorites[0].id;
      }
    }

    /** `loadQuote(q)`: the form fields through `ApplyQuote`, and a finite
        size stored as it is, bypassing the clamp. */
    method LoadQuote(q: Option<QuoteRecord>)
      modifies this`form, size
      ensures form == ApplyQuote(rates, old(form), q)
      ensures size.value == LoadedSize(old(size.value), q)
      ensures ValidForm(rates, old(form)) ==> ValidForm(rates, form)
    {
      if q.None? {
        return;
      }
      form := ApplyQuote(rates, form, q);
      if IsFinite(q.value.size) {
        size.SetValue(q.value.size);
      }
    }

    /** The name input of a new favorite. */
    method SetNewFavoriteName(name: string)
      modifies this`newFavoriteName
      ensures newFavoriteName == name
    {
      newFavoriteName := name;
    }

    /** The cost input of a new favorite. */
    method SetNewFavoriteCost(cost: string)
      modifies this`newFavoriteCost
      ensures newFavoriteCost == cost
    {
      newFavoriteCost := cost;
    }

    /** The favorite selector. */
    method SetFavoriteSelection(id: string)
      modifies this`favoriteSelection
      ensures favoriteSelection == id
    {
      favoriteSelection := id;
    }
  }
}

/** The list logic behind the material favorites and the material additions
    of QuickQuote/src/QuickQuoteEstimator.jsx, as functions on sequences. The
    estimator's class applies them to its state. */
module Materials {
  import opened Wrappers
  import opened JsNumber
  import opened Money
  import opened NumberText

  /** A saved material: `{ id, name, cost }`. */
  datatype Favorite = Favorite(id: string, name: string, cost: real)

  /** A material added to the quote: `{ entryId, id, name, cost }`;
      `entryId` tells apart two additions of the same favorite. */
  datatype MaterialAddition = MaterialAddition(entryId: string, id: string, name: string, cost: real)

  /** `DEFAULT_MATERIAL_FAVORITES` */
  function DefaultFavorites(): (favs: seq<Favorite>)
    ensures |favs| == 5 && favs[0].id == "drywall-sheet"
  {
    [ Favorite("drywall-sheet", "Drywall Sheet (4x8)", 18.0),
      Favorite("lvp-box", "Luxury Vinyl Plank (box)", 62.0),
      Favorite("paint-gallon", "Interior Paint (gallon)", 42.0),
      Favorite("trim-pack", "Finish Trim Pack", 55.0),
      Favorite("led-kit", "LED Recessed Light Kit", 78.0) ]
  }

  // -----------------------------------------------------------------------
  // `Array.prototype.filter`

  function Filter<T(!new)>(s: seq<T>, keep: T -> bool): (r: seq<T>)
    ensures |r| <= |s|
    ensures forall x :: x in r <==> x in s && keep(x)
  {
    if s == [] then [] else (if keep(s[0]) then [s[0]] else []) + Filter(s[1..], keep)
  }

  /** Filtering keeps the order: it distributes over concatenation. */
  lemma {:induction false} FilterConcat<T(!new)>(a: seq<T>, b: seq<T>, keep: T -> bool)
    ensures Filter(a + b, keep) == Filter(a, keep) + Filter(b, keep)
  {
    if a == [] {
      assert a + b == b;
    } else {
      assert (a + b)[1..] == a[1..] + b;
      FilterConcat(a[1..], b, keep);
    }
  }

  lemma {:induction false} FilterKeepsAll<T(!new)>(s: seq<T>, keep: T -> bool)
    requires forall i :: 0 <= i < |s| ==> keep(s[i])
    ensures Filter(s, keep) == s
  {
    if s != [] {
      FilterKeepsAll(s[1..], keep);
    }
  }

  // -----------------------------------------------------------------------
  // Material additions

  /** `removeMaterialAddition(entryId)`: `prev.filter(item => item.entryId !== entryId)`. */
  function RemoveEntry(adds: seq<MaterialAddition>, entryId: string): (r: seq<MaterialAddition>)
    ensures forall x :: x in r <==> x in adds && x.entryId != entryId
  {
    Filter(adds, (x: MaterialAddition) => x.entryId != entryId)
  }

  /** Removing drops only the entries with that `entryId`: with none
      present nothing changes, and the order of the rest is kept. */
  lemma RemoveEntryKeepsOthers(adds: seq<MaterialAddition>, more: seq<MaterialAddition>, entryId: string)
    ensures (forall i :: 0 <= i < |adds| ==> adds[i].entryId != entryId) ==> RemoveEntry(adds, entryId) == adds
    ensures RemoveEntry(adds + more, entryId) == RemoveEntry(adds, entryId) + RemoveEntry(more, entryId)
  {
    var keep := (x: MaterialAddition) => x.entryId != entryId;
    if forall i :: 0 <= i < |adds| ==> adds[i].entryId != entryId {
      FilterKeepsAll(adds, keep);
    }
    FilterConcat(adds, more, keep);
  }

  /** `prev.map(item => item.entryId === entryId ? f(item) : item)` */
  function UpdateEntries(adds: seq<MaterialAddition>, entryId: string, f: MaterialAddition -> MaterialAddition)
    : (r: seq<MaterialAddition>)
    ensures |r| == |adds|
    ensures forall i :: 0 <= i < |adds| ==> r[i] == if adds[i].entryId == entryId then f(adds[i]) else adds[i]
  {
    if adds == [] then []
    else [if adds[0].entryId == entryId then f(adds[0]) else adds[0]] + UpdateEntries(adds[1..], entryId, f)
  }

  /** The cost an edited addition gets: `parseFloat(raw)` rounded to cents,
      or 0 when that is not finite. */
  function EntryCost(raw: string): (c: real)
    ensures IsCents(c)
    ensures !IsFinite(ParseFloat(raw)) ==> c == 0.0
    ensures IsFinite(ParseFloat(raw)) ==> c == Round2(ParseFloat(raw).value)
  {
    var v := ParseFloat(raw);
    if IsFinite(v) then Round2(v.value) else 0.0
  }

  /** `updateMaterialAdditionCost(entryId, raw)` */
  function WithCost(adds: seq<MaterialAddition>, entryId: string, raw: string): (r: seq<MaterialAddition>)
    ensures |r| == |adds|
    ensures forall i :: 0 <= i < |adds| ==>
      r[i] == if adds[i].entryId == entryId then adds[i].(cost := EntryCost(raw)) else adds[i]
  {
    UpdateEntries(adds, entryId, (x: MaterialAddition) => x.(cost := EntryCost(raw)))
  }

  /** `updateMaterialAdditionName(entryId, value)` */
  function WithName(adds: seq<MaterialAddition>, entryId: string, name: string): (r: seq<MaterialAddition>)
    ensures |r| == |adds|
    ensures forall i :: 0 <= i < |adds| ==>
      r[i] == if adds[i].entryId == entryId then adds[i].(name := name) else adds[i]
  {
    UpdateEntries(adds, entryId, (x: MaterialAddition) => x.(name := name))
  }

  /** An edit never changes which entries there are: the entry ids, their
      order and the catalogue ids stay as they were, and only the edited
      entries' cost differs. */
  lemma EditsKeepEntries(adds: seq<MaterialAddition>, entryId: string, raw: string, name: string)
    ensures forall i :: 0 <= i < |adds| ==>
      WithCost(adds, entryId, raw)[i].entryId == adds[i].entryId == WithName(adds, entryId, name)[i].entryId
      && WithCost(adds, entryId, raw)[i].id == adds[i].id == WithName(adds, entryId, name)[i].id
      && WithCost(adds, entryId, raw)[i].name == adds[i].name
      && WithName(adds, entryId, name)[i].cost == adds[i].cost
  {
  }

  /** Removing an entry after editing it is the same as removing it: an edit
      reaches no other entry. */
  lemma {:induction false} RemoveAfterEdit(adds: seq<MaterialAddition>, entryId: string, raw: string)
    ensures RemoveEntry(WithCost(adds, entryId, raw), entryId) == RemoveEntry(adds, entryId)
  {
    var keep := (x: MaterialAddition) => x.entryId != entryId;
    if adds != [] {
      var u := WithCost(adds, entryId, raw);
      assert u == [u[0]] + u[1..];
      assert adds == [adds[0]] + adds[1..];
      assert u[1..] == WithCost(adds[1..], entryId, raw);
      RemoveAfterEdit(adds[1..], entryId, raw);
      FilterConcat([u[0]], u[1..], keep);
      FilterConcat([adds[0]], adds[1..], keep);
    }
  }

  /** The sum of the additions' costs, left to right as `reduce` adds them. */
  function SumCosts(adds: seq<MaterialAddition>): (r: real)
    ensures adds == [] ==> r == 0.0
    ensures |adds| == 1 ==> r == adds[0].cost
  {
    if adds == [] then 0.0 else SumCosts(adds[..|adds| - 1]) + adds[|adds| - 1].cost
  }

  /** No negative cost, no negative sum. */
  lemma {:induction false} SumCostsNonNegative(adds: seq<MaterialAddition>)
    requires forall i :: 0 <= i < |adds| ==> adds[i].cost >= 0.0
    ensures SumCosts(adds) >= 0.0
  {
    if adds != [] {
      var init := adds[..|adds| - 1];
      assert forall i :: 0 <= i < |init| ==> init[i] == adds[i];
      SumCostsNonNegative(init);
    }
  }

  lemma {:induction false} SumCostsConcat(a: seq<MaterialAddition>, b: seq<MaterialAddition>)
    ensures SumCosts(a + b) == SumCosts(a) + SumCosts(b)
  {
    if b != [] {
      assert (a + b)[..|a + b| - 1] == a + b[..|b| - 1];
      SumCostsConcat(a, b[..|b| - 1]);
    } else {
      assert a + b == a;
    }
  }

  /** Removing an entry lowers the sum of costs by exactly the costs of the
      entries with that `entryId`. */
  lemma {:induction false} RemoveEntrySum(adds: seq<MaterialAddition>, entryId: string)
    ensures SumCosts(adds) == SumCosts(RemoveEntry(adds, entryId))
      + SumCosts(Filter(adds, (x: MaterialAddition) => x.entryId == entryId))
  {
    var keep := (x: MaterialAddition) => x.entryId != entryId;
    var drop := (x: MaterialAddition) => x.entryId == entryId;
    if adds != [] {
      assert adds == [adds[0]] + adds[1..];
      RemoveEntrySum(adds[1..], entryId);
      FilterConcat([adds[0]], adds[1..], keep);
      FilterConcat([adds[0]], adds[1..], drop);
      SumCostsConcat([adds[0]], adds[1..]);
      SumCostsConcat(Filter([adds[0]], keep), Filter(adds[1..], keep));
      SumCostsConcat(Filter([adds[0]], drop), Filter(adds[1..], drop));
      assert [adds[0]][1..] == [];
    }
  }

  // -----------------------------------------------------------------------
  // Favorites

  /** The position of the first favorite with this id, which `.find` returns
      and `.some` tests for, as an option. */
  function FindFavorite(favs: seq<Favorite>, id: string): (r: Option<nat>)
    ensures r.Some? ==> (r.value < |favs| && favs[r.value].id == id
                         && forall j :: 0 <= j < r.value ==> favs[j].id != id)
    ensures r.None? <==> forall j :: 0 <= j < |favs| ==> favs[j].id != id
  {
    if favs == [] then None
    else if favs[0].id == id then Some(0)
    else match FindFavorite(favs[1..], id)
      case None => None
      case Some(k) => Some(k + 1)
  }

  /** `addMaterialFromFavorite()`: with a selection that names a favorite,
      append one addition that copies the first such favorite's id and name,
      under a fresh `entryId`, with its cost rounded to cents; otherwise
      nothing changes. */
  function AddFromFavorite(adds: seq<MaterialAddition>, favs: seq<Favorite>, selection: string, entryId: string)
    : (r: seq<MaterialAddition>)
    ensures selection == "" || FindFavorite(favs, selection).None? ==> r == adds
    ensures selection != "" && FindFavorite(favs, selection).Some? ==>
      var f := favs[FindFavorite(favs, selection).value];
      r == adds + [MaterialAddition(entryId, f.id, f.name, Round2(f.cost))] && f.id == selection
  {
    if selection == "" then adds
    else match FindFavorite(favs, selection)
      case None => adds
      case Some(i) => adds + [MaterialAddition(entryId, favs[i].id, favs[i].name, Round2(favs[i].cost))]
  }

  /** The favorite `addFavorite()` would create from the two inputs: the
      trimmed name must not be blank and `parseFloat` of the cost must be
      finite. */
  function NewFavorite(name: string, costText: string, id: string): (r: Option<Favorite>)
    ensures r.Some? <==> Trim(name) != "" && IsFinite(ParseFloat(costText))
    ensures r.Some? ==> (r.value.id == id && r.value.name == Trim(name)
                         && r.value.cost == Round2(ParseFloat(costText).value))
  {
    var trimmed := Trim(name);
    var parsed := ParseFloat(costText);
    if trimmed == "" || !IsFinite(parsed) then None else Some(Favorite(id, trimmed, Round2(parsed.value)))
  }

  /** A blank or all-white-space name is always rejected. */
  lemma NewFavoriteRejectsBlank(name: string, costText: string, id: string)
    requires forall i :: 0 <= i < |name| ==> IsJsWhitespace(name[i])
    ensures NewFavorite(name, costText, id).None?
  {
    TrimBlank(name);
  }

  /** `removeFavorite(id)`: `prev.filter(item => item.id !== id)`. */
  function RemoveFavorite(favs: seq<Favorite>, id: string): (r: seq<Favorite>)
    ensures forall f :: f in r <==> f in favs && f.id != id
  {
    Filter(favs, (f: Favorite) => f.id != id)
  }

  /** The effect that repairs the selection after the favorites change: ""
      for an empty list, otherwise keep an id that is present and fall back
      to the first favorite's id. */
  function FixedSelection(favs: seq<Favorite>, selection: string): (r: string)
    ensures |favs| == 0 ==> r == ""
    ensures |favs| > 0 ==> FindFavorite(favs, r).Some?
    ensures FindFavorite(favs, selection).Some? ==> r == selection
    ensures |favs| > 0 && FindFavorite(favs, selection).None? ==> r == favs[0].id
  {
    if |favs| == 0 then ""
    else if FindFavorite(favs, selection).Some? then selection
    else favs[0].id
  }

  /** The repair reaches a fixed point at once, so the effect that runs again
      after setting the selection changes nothing more. */
  lemma FixedSelectionStable(favs: seq<Favorite>, selection: string)
    ensures FixedSelection(favs, FixedSelection(favs, selection)) == FixedSelection(favs, selection)
  {
  }

  /** A favorite just added and selected stays selected after the repair. */
  lemma NewFavoriteStaysSelected(favs: seq<Favorite>, f: Favorite)
    ensures FixedSelection(favs + [f], f.id) == f.id
  {
    assert (favs + [f])[|favs|].id == f.id;
  }

  /** Removing the selected favorite moves the selection to the first one
      left, or clears it when none is left. */
  lemma RemoveSelectedFavorite(favs: seq<Favorite>, id: string)
    ensures var rest := RemoveFavorite(favs, id);
      FixedSelection(rest, id) == if |rest| == 0 then "" else rest[0].id
  {
    var rest := RemoveFavorite(favs, id);
    if |rest| > 0 {
      assert rest[0] in rest;
    }
  }
}

/** The hooks of QuickQuote/src/lib/hooks.js: the error-catching estimate
    wrapper, the sanitising and clamping numeric input, and the keyboard
    handler of option groups with roving focus. */
module Hooks {
  import opened Wrappers
  import opened JsNumber
  import opened Money
  import opened NumberText
  import opened Calc

  // -----------------------------------------------------------------------
  // useEstimate

  /** What `useEstimate` returns, without the formatter. */
  datatype EstimateView = EstimateView(labor: real, material: real, total: real, currency: Option<string>, error: string)

  /** `useEstimate`: the estimate with an empty error, or zero amounts, "USD"
      and the thrown message when `computeEstimate` fails. */
  function UseEstimate(rates: RateTable, sqft: Number, projectType: string, quality: string, location: string)
    : (v: EstimateView)
    ensures v.error == "" <==> ComputeEstimate(rates, sqft, projectType, quality, location).Success?
    ensures v.error != "" ==> v.labor == 0.0 && v.material == 0.0 && v.total == 0.0 && v.currency == Some("USD")
    ensures IsCents(v.labor) && IsCents(v.material) && v.total == v.labor + v.material
  {
    match ComputeEstimate(rates, sqft, projectType, quality, location)
    case Success(e) => EstimateView(e.labor, e.material, e.total, e.currency, "")
    case Failure(err) => EstimateView(0.0, 0.0, 0.0, Some("USD"), Message(err))
  }

  /** On success the view carries the estimate's own fields; on failure, the
      error's message. */
  lemma UseEstimateCarriesResult(rates: RateTable, sqft: Number, projectType: string, quality: string, location: string)
    ensures var v := UseEstimate(rates, sqft, projectType, quality, location);
      match ComputeEstimate(rates, sqft, projectType, quality, location)
      case Success(e) => v.labor == e.labor && v.material == e.material && v.total == e.total && v.currency == e.currency
      case Failure(err) => v.error == Message(err)
  {
  }

  /** The three cases of the hook's tests. */
  lemma UseEstimateSamples()
    ensures UseEstimate(SampleRates(), Finite(0.0), "Painting", "Low", "US").error == "Invalid room size"
    ensures UseEstimate(SampleRates(), Finite(50.0), "UnknownThing", "Low", "US").error == "Unknown project type"
    ensures var v := UseEstimate(SampleRates(), Finite(100.0), "Bathroom Remodel", "Medium", "Ghana");
      v.error == "" && v.currency == Some("GHS")
  {
    SampleEstimates();
  }

  // -----------------------------------------------------------------------
  // useClampedNumber

  /** The value `onChange` stores for the typed text `raw`: sanitise, parse
      with `Number`, clamp a finite result with `Math.max(min, Math.min(n,
      max))`, and fall back to `min` otherwise. */
  function ClampInput(raw: string, min: Number, max: Number): (r: Number)
    ensures !IsFinite(NumberOfCleaned(raw)) ==> r == min
    ensures (IsFinite(NumberOfCleaned(raw)) && LessEq(min, NumberOfCleaned(raw))
             && LessEq(NumberOfCleaned(raw), max)) ==> r == NumberOfCleaned(raw)
    ensures (IsFinite(NumberOfCleaned(raw)) && !min.NaN? && !max.NaN? && LessEq(min, max)
             && LessEq(max, NumberOfCleaned(raw))) ==> r == max
    ensures (IsFinite(NumberOfCleaned(raw)) && !max.NaN? && LessEq(NumberOfCleaned(raw), min)) ==> r == min
  {
    var n := NumberOfCleaned(raw);
    if IsFinite(n) then Max(min, Min(n, max)) else min
  }

  /** Whatever the text, the stored value lies between ordered bounds. */
  lemma ClampInRange(raw: string, min: Number, max: Number)
    requires !min.NaN? && !max.NaN? && LessEq(min, max)
    ensures LessEq(min, ClampInput(raw, min, max)) && LessEq(ClampInput(raw, min, max), max)
  {
    var n := NumberOfCleaned(raw);
    if IsFinite(n) {
      var m := Min(n, max);
      if LessEq(min, m) {
        assert Max(min, m) == m;
      } else {
        assert Max(min, m) == min;
      }
    }
  }

  /** With finite bounds the stored value is a finite number inside them. */
  lemma ClampFinite(raw: string, lo: real, hi: real)
    requires lo <= hi
    ensures var r := ClampInput(raw, Finite(lo), Finite(hi));
      r.Finite? && lo <= r.value <= hi
  {
    ClampInRange(raw, Finite(lo), Finite(hi));
  }

  /** The bound cases of the clamp tests, with bounds 1 and 100000. */
  lemma ClampSamplesBounds()
    ensures ClampInput("0", Finite(1.0), Finite(100000.0)) == Finite(1.0)
    ensures ClampInput("100001", Finite(1.0), Finite(100000.0)) == Finite(100000.0)
  {
    CleanKeepsNumericText("0");
    CleanKeepsNumericText("100001");
    assert DigitsValue("0") == 0;
    DigitsValueSample();
    NumberOfCleanedDigits("0", "0");
    NumberOfCleanedDigits("100001", "100001");
  }

  /** `'abc'` cleans to the empty string, which `Number` reads as 0, so it
      clamps to `min`. */
  lemma ClampSampleLetters()
    ensures ClampInput("abc", Finite(1.0), Finite(100000.0)) == Finite(1.0)
  {
    assert Clean("abc") == "";
  }

  /** Only the digits of `'12abc34'` survive. */
  lemma ClampSampleMixed()
    ensures ClampInput("12abc34", Finite(1.0), Finite(100000.0)) == Finite(1234.0)
  {
    NumberSampleMixed();
  }

  lemma NumberSampleMixed()
    ensures NumberOfCleaned("12abc34") == Finite(1234.0)
  {
    CleanSample();
    DigitsValueSample();
    NumberOfCleanedDigits("12abc34", "1234");
  }

  /** A leading `-` is dropped, so `'-5'` gives 5. */
  lemma ClampSampleSign()
    ensures ClampInput("-5", Finite(1.0), Finite(100000.0)) == Finite(5.0)
  {
    NumberSampleSign();
  }

  lemma NumberSampleSign()
    ensures NumberOfCleaned("-5") == Finite(5.0)
  {
    CleanSample();
    assert DigitsValue("5") == 5;
    NumberOfCleanedDigits("-5", "5");
  }

  lemma CleanSample()
    ensures Clean("12abc34") == "1234" && Clean("-5") == "5"
  {
    assert "12abc34"[1..] == "2abc34" && "2abc34"[1..] == "abc34" && "abc34"[1..] == "bc34";
    assert "bc34"[1..] == "c34" && "c34"[1..] == "34" && "34"[1..] == "4" && "4"[1..] == "";
    assert "-5"[1..] == "5" && "5"[1..] == "";
    assert Clean("4") == "4";
    assert Clean("34") == "34";
    assert Clean("abc34") == "34";
    assert Clean("12abc34") == "1234";
  }

  /** Cleaned text that `Number` cannot parse gives `min`. */
  lemma ClampSamplesUnparsable()
    ensures ClampInput("1.2.3", Finite(1.0), Finite(100000.0)) == Finite(1.0)
    ensures ClampInput(".", Finite(1.0), Finite(100000.0)) == Finite(1.0)
  {
    assert Clean("1.2.3") == "1.2.3";
    assert DotCount("1.2.3") == 2;
    assert Clean(".") == ".";
  }

  lemma DigitsValueSample()
    ensures DigitsValue("100001") == 100001 && DigitsValue("1234") == 1234
  {
    assert "100001"[..5] == "10000" && "10000"[..4] == "1000" && "1000"[..3] == "100";
    assert "100"[..2] == "10" && "10"[..1] == "1";
    assert DigitsValue("1") == 1;
    assert DigitsValue("10") == 10;
    assert DigitsValue("100") == 100;
    assert DigitsValue("1000") == 1000;
    assert DigitsValue("10000") == 10000;
    assert "1234"[..3] == "123" && "123"[..2] == "12" && "12"[..1] == "1";
    assert DigitsValue("12") == 12;
    assert DigitsValue("123") == 123;
  }

  /** The state cell of `useClampedNumber`: `value` with its `setValue` and
      the `onChange` handler for fixed bounds. */
  class ClampedNumber {
    var value: Number
    const min: Number
    const max: Number

    /** `useClampedNumber(initial, { min, max })` */
    constructor (initial: Number, min: Number, max: Number)
      ensures value == initial && this.min == min && this.max == max
    {
      value := initial;
      this.min := min;
      this.max := max;
    }

    /** `useClampedNumber()`: initial value 0 and unbounded. */
    constructor WithDefaults()
      ensures value == Finite(0.0) && min == NegInf && max == PosInf
    {
      value := Finite(0.0);
      min := NegInf;
      max := PosInf;
    }

    /** `onChange`: store the sanitised, clamped value of the typed text. */
    method OnChange(raw: string)
      modifies this
      ensures value == ClampInput(raw, min, max)
      ensures !min.NaN? && !max.NaN? && LessEq(min, max) ==> LessEq(min, value) && LessEq(value, max)
    {
      var n := NumberOfCleaned(raw);
      if IsFinite(n) {
        value := Max(min, Min(n, max));
      } else {
        value := min;
      }
      if !min.NaN? && !max.NaN? && LessEq(min, max) {
        ClampInRange(raw, min, max);
      }
    }

    /** `setValue`: stores any value, bypassing the clamp. */
    method SetValue(v: Number)
      modifies this
      ensures value == v
    {
      value := v;
    }
  }

  // -----------------------------------------------------------------------
  // useSelectableOptions

  /** What a key press on the button at some index does: nothing, or select
      the option at `index` (calling `onChange` and `preventDefault`), moving
      focus there when `moveFocus` holds. */
  datatype KeyResult = Ignored | Choose(index: nat, moveFocus: bool)

  /** `onKeyDown(e, idx)` for a group of `count` options. */
  function OnKeyDown(key: string, idx: nat, count: nat): (r: KeyResult)
    requires idx < count
    ensures r.Choose? ==> r.index < count
  {
    var last := count - 1;
    if key == "ArrowLeft" || key == "ArrowUp" then Choose(if idx > 0 then idx - 1 else last, true)
    else if key == "ArrowRight" || key == "ArrowDown" then Choose(if idx < last then idx + 1 else 0, true)
    else if key == "Home" then Choose(0, true)
    else if key == "End" then Choose(last, true)
    else if key == "Enter" || key == " " then Choose(idx, false)
    else Ignored
  }

  predicate IsNextKey(key: string) {
    key == "ArrowRight" || key == "ArrowDown"
  }

  predicate IsPreviousKey(key: string) {
    key == "ArrowLeft" || key == "ArrowUp"
  }

  /** Forward arrows move one place on and wrap from the last option to the
      first; backward arrows move one place back and wrap from the first to
      the last. Both move focus. */
  lemma ArrowsWrap(key: string, idx: nat, count: nat)
    requires idx < count
    ensures IsNextKey(key) ==> OnKeyDown(key, idx, count) == Choose((idx + 1) % count, true)
    ensures IsPreviousKey(key) ==> OnKeyDown(key, idx, count) == Choose((idx + count - 1) % count, true)
  {
    if idx + 1 == count {
      assert (idx + 1) % count == 0;
    } else {
      assert (idx + 1) % count == idx + 1;
    }
    if idx == 0 {
      assert (idx + count - 1) % count == count - 1;
    } else {
      assert (idx + count - 1) % count == idx - 1;
    }
  }

  /** A backward arrow undoes a forward arrow and the other way round. */
  lemma ArrowsInverse(idx: nat, count: nat)
    requires idx < count
    ensures OnKeyDown("ArrowLeft", OnKeyDown("ArrowRight", idx, count).index, count).index == idx
    ensures OnKeyDown("ArrowRight", OnKeyDown("ArrowLeft", idx, count).index, count).index == idx
  {
  }

  /** The index reached by pressing a forward arrow `k` times from `idx`. */
  function PressNext(idx: nat, count: nat, k: nat): (r: nat)
    requires idx < count
    ensures r < count
  {
    if k == 0 then idx else OnKeyDown("ArrowRight", PressNext(idx, count, k - 1), count).index
  }

  /** Up to a full round, `k` forward presses move `k` places on, wrapping
      past the last option once; so `count` presses come back to the start. */
  lemma {:induction false} PressNextCycles(idx: nat, count: nat, k: nat)
    requires idx < count && k <= count
    ensures PressNext(idx, count, k) == if idx + k < count then idx + k else idx + k - count
  {
    if k > 0 {
      PressNextCycles(idx, count, k - 1);
    }
  }

  /** Home and End select the first and the last option and move focus;
      Enter and Space select the focused option without moving focus; every
      other key is ignored. */
  lemma OtherKeys(key: string, idx: nat, count: nat)
    requires idx < count
    ensures key == "Home" ==> OnKeyDown(key, idx, count) == Choose(0, true)
    ensures key == "End" ==> OnKeyDown(key, idx, count) == Choose(count - 1, true)
    ensures key == "Enter" || key == " " ==> OnKeyDown(key, idx, count) == Choose(idx, false)
    ensures OnKeyDown(key, idx, count) == Ignored <==>
      !(IsNextKey(key) || IsPreviousKey(key) || key == "Home" || key == "End" || key == "Enter" || key == " ")
  {
  }

  /** The arrow test: on Medium of Low/Medium/High, ArrowRight selects High and
      ArrowLeft selects Low. */
  lemma KeyDownSample()
    ensures var options := ["Low", "Medium", "High"];
      options[OnKeyDown("ArrowRight", 1, 3).index] == "High"
      && options[OnKeyDown("ArrowLeft", 1, 3).index] == "Low"
  {
  }

  /** `tabIndex` of a button in the group. */
  function ButtonTabIndex(selected: bool): (t: int)
    ensures t == 0 || t == -1
    ensures t == 0 <==> selected
  {
    if selected then 0 else -1
  }

  /** With distinct options the selected one is the group's only tab stop;
      when the value is none of the options the group has no tab stop. */
  lemma RovingTabStop(options: seq<string>, value: string)
    requires forall i, j :: 0 <= i < j < |options| ==> options[i] != options[j]
    ensures forall i, j :: (0 <= i < |options| && 0 <= j < |options|
      && ButtonTabIndex(options[i] == value) == 0 && ButtonTabIndex(options[j] == value) == 0) ==> i == j
    ensures value !in options ==> forall i :: 0 <= i < |options| ==> ButtonTabIndex(options[i] == value) == -1
  {
  }

  type ElementId = nat

  /** `useSelectableOptions(options, value, onChange)`: the options and the
      `refs.current` array that the buttons' ref callbacks fill in; a slot
      holds `None` while its button is unmounted. */
  class SelectableOptions {
    const options: seq<string>
    var refs: map<nat, Option<ElementId>>

    constructor (options: seq<string>)
      ensures this.options == options && refs == map[]
    {
      this.options := options;
      refs := map[];
    }

    /** The ref callback of the button at `idx`: `refs.current[idx] = el`. */
    method SetRef(idx: nat, el: Option<ElementId>)
      modifies this
      ensures refs == old(refs)[idx := el]
    {
      refs := refs[idx := el];
    }

    /** The element `focusIndex(idx)` focuses, if that slot holds one. */
    function FocusTarget(idx: nat): (r: Option<ElementId>)
      reads this
      ensures r.Some? <==> idx in refs && refs[idx].Some?
    {
      if idx in refs then refs[idx] else None
    }

    /** A key press on the button at `idx`: which option is passed to
        `onChange`, which element receives focus, and whether the default
        action is prevented. */
    method KeyDown(key: string, idx: nat) returns (selected: Option<string>, focus: Option<ElementId>, preventDefault: bool)
      requires idx < |options|
      ensures preventDefault <==> selected.Some?
      ensures OnKeyDown(key, idx, |options|).Ignored? ==> selected.None? && focus.None?
      ensures OnKeyDown(key, idx, |options|).Choose? ==>
        var c := OnKeyDown(key, idx, |options|);
        selected == Some(options[c.index]) && focus == if c.moveFocus then FocusTarget(c.index) else None
    {
      match OnKeyDown(key, idx, |options|)
      case Ignored =>
        selected, focus, preventDefault := None, None, false;
      case Choose(next, moveFocus) =>
        selected := Some(options[next]);
        focus := if moveFocus then FocusTarget(next) else None;
        preventDefault := true;
    }
  }
}

/** The settings screen (src/components/SettingsModal.tsx). It edits a local
    copy of the settings; every control replaces that copy with a new record
    in which only its own field differs, and only the "Guardar" button hands
    the copy to the caller. */
module SettingsModal {
  import opened Types

  const MIN_FREQUENCY: real := 1.0
  const MAX_FREQUENCY: real := 60.0

  // ---------------------------------------------------------------------------
  // Brand list

  /** `list.filter(b => b !== brand)`. */
  function Without(list: seq<string>, brand: string): (r: seq<string>)
    ensures brand !in r
    ensures forall x :: x in r <==> x in list && x != brand
    ensures |r| <= |list|
  {
    if list == [] then []
    else if list[0] == brand then Without(list[1..], brand)
    else [list[0]] + Without(list[1..], brand)
  }

  /** `toggleBrand`: a preferred brand is dropped (every occurrence), any
      other brand is appended at the end. */
  function ToggleBrand(list: seq<string>, brand: string): (r: seq<string>)
    ensures brand in r <==> brand !in list
    ensures forall x :: x != brand ==> (x in r <==> x in list)
    ensures brand !in list ==> r == list + [brand]
  {
    if brand in list then Without(list, brand) else list + [brand]
  }

  /** `a` can be obtained from `b` by deleting elements: the elements of `a`
      appear in `b` in the same relative order. */
  ghost predicate IsSubsequence(a: seq<string>, b: seq<string>)
  {
    if a == [] then true
    else if b == [] then false
    else (a[0] == b[0] && IsSubsequence(a[1..], b[1..])) || IsSubsequence(a, b[1..])
  }

  /** Dropping a brand keeps the relative order of everything else ... */
  lemma {:induction false} WithoutKeepsOrder(list: seq<string>, brand: string)
    ensures IsSubsequence(Without(list, brand), list)
  {
    if list != [] {
      WithoutKeepsOrder(list[1..], brand);
      var rest := Without(list[1..], brand);
      if list[0] != brand {
        assert Without(list, brand) == [list[0]] + rest;
        assert ([list[0]] + rest)[1..] == rest;
      } else if rest != [] {
        assert Without(list, brand) == rest;
      }
    }
  }

  /** ... and removes exactly the occurrences of that brand, no other element. */
  lemma {:induction false} WithoutCounts(list: seq<string>, brand: string)
    ensures multiset(Without(list, brand)) == multiset(list)[brand := 0]
  {
    if list == [] {
    } else {
      WithoutCounts(list[1..], brand);
      assert list == [list[0]] + list[1..];
      assert multiset(list) == multiset{list[0]} + multiset(list[1..]);
    }
  }

  /** A list that does not mention the brand passes the filter unchanged. */
  lemma {:induction false} WithoutAbsent(list: seq<string>, brand: string)
    requires brand !in list
    ensures Without(list, brand) == list
  {
    if list != [] {
      WithoutAbsent(list[1..], brand);
      assert [list[0]] + list[1..] == list;
    }
  }

  /** Filtering distributes over concatenation. */
  lemma {:induction false} WithoutConcat(a: seq<string>, b: seq<string>, brand: string)
    ensures Without(a + b, brand) == Without(a, brand) + Without(b, brand)
  {
    if a == [] {
      assert a + b == b;
    } else {
      assert (a + b)[0] == a[0];
      assert (a + b)[1..] == a[1..] + b;
      WithoutConcat(a[1..], b, brand);
    }
  }

  /** Toggling a brand that is not selected, then toggling it again, gives
      back the original list. */
  lemma ToggleTwiceRestores(list: seq<string>, brand: string)
    requires brand !in list
    ensures ToggleBrand(ToggleBrand(list, brand), brand) == list
  {
    WithoutConcat(list, [brand], brand);
    WithoutAbsent(list, brand);
    assert Without([brand], brand) == [];
  }

  /** Toggling a selected brand twice does not restore the list: the brand
      comes back once, at the end, after the other brands in their order. */
  lemma ToggleTwiceMovesToEnd(list: seq<string>, brand: string)
    requires brand in list
    ensures ToggleBrand(ToggleBrand(list, brand), brand) == Without(list, brand) + [brand]
  {
  }

  // ---------------------------------------------------------------------------
  // Frequency stepper

  /** The "-" button: `Math.max(1, checkFrequency - 1)`. */
  function Decrement(frequency: real): (r: real)
    ensures r >= MIN_FREQUENCY
    ensures frequency >= MIN_FREQUENCY ==> r <= frequency
    ensures r == frequency - 1.0 || (r == MIN_FREQUENCY && frequency - 1.0 < MIN_FREQUENCY)
  {
    if frequency - 1.0 > MIN_FREQUENCY then frequency - 1.0 else MIN_FREQUENCY
  }

  /** The "+" button: `Math.min(60, checkFrequency + 1)`. */
  function Increment(frequency: real): (r: real)
    ensures r <= MAX_FREQUENCY
    ensures frequency <= MAX_FREQUENCY ==> r >= frequency
    ensures r == frequency + 1.0 || (r == MAX_FREQUENCY && frequency + 1.0 > MAX_FREQUENCY)
  {
    if frequency + 1.0 < MAX_FREQUENCY then frequency + 1.0 else MAX_FREQUENCY
  }

  /** Any number of presses of either button keeps a frequency in [1, 60] there. */
  lemma {:induction false} StepperKeepsRange(frequency: real, presses: seq<bool>)
    requires MIN_FREQUENCY <= frequency <= MAX_FREQUENCY
    ensures MIN_FREQUENCY <= PressAll(frequency, presses) <= MAX_FREQUENCY
    decreases presses
  {
    if presses != [] {
      var next := if presses[0] then Increment(frequency) else Decrement(frequency);
      StepperKeepsRange(next, presses[1..]);
    }
  }

  /** The frequency after pressing "+" (true) or "-" (false) in order. */
  function PressAll(frequency: real, presses: seq<bool>): real
    decreases presses
  {
    if presses == [] then frequency
    else PressAll(if presses[0] then Increment(frequency) else Decrement(frequency), presses[1..])
  }

  // ---------------------------------------------------------------------------
  // Per-field controls

  /** One user action on the form. */
  datatype Control =
    | ApiKeyInput(text: string)
    | TrafficBox(checked: bool)
    | WeatherBox(checked: bool)
    | CafesBox(checked: bool)
    | FrequencyDown
    | FrequencyUp
    | BrandButton(brand: string)

  datatype Field = ApiKeyField | TrafficField | WeatherField | CafesField | FrequencyField | BrandsField

  /** The settings field a control is bound to. */
  function FieldOf(control: Control): Field
  {
    match control
    case ApiKeyInput(_) => ApiKeyField
    case TrafficBox(_) => TrafficField
    case WeatherBox(_) => WeatherField
    case CafesBox(_) => CafesField
    case FrequencyDown => FrequencyField
    case FrequencyUp => FrequencyField
    case BrandButton(_) => BrandsField
  }

  /** `a` and `b` agree on every field except possibly `f`. The screen has
      no voice control, so `voiceEnabled` always agrees. */
  predicate SameExcept(a: AppSettings, b: AppSettings, f: Field)
  {
    && a.voiceEnabled == b.voiceEnabled
    && (f == ApiKeyField || a.apiKey == b.apiKey)
    && (f == TrafficField || a.showTraffic == b.showTraffic)
    && (f == WeatherField || a.showWeather == b.showWeather)
    && (f == CafesField || a.showCafes == b.showCafes)
    && (f == FrequencyField || a.checkFrequency == b.checkFrequency)
    && (f == BrandsField || a.gasBrands == b.gasBrands)
  }

  /** The local copy after one control's change handler. */
  function Apply(local: AppSettings, control: Control): (r: AppSettings)
    ensures SameExcept(local, r, FieldOf(control))
    ensures control.ApiKeyInput? ==> r.apiKey == control.text
    ensures control.TrafficBox? ==> r.showTraffic == control.checked
    ensures control.WeatherBox? ==> r.showWeather == control.checked
    ensures control.CafesBox? ==> r.showCafes == control.checked
    ensures control.FrequencyDown? ==> r.checkFrequency == Decrement(local.checkFrequency)
    ensures control.FrequencyUp? ==> r.checkFrequency == Increment(local.checkFrequency)
    ensures control.BrandButton? ==> r.gasBrands == ToggleBrand(local.gasBrands, control.brand)
  {
    match control
    case ApiKeyInput(text) => local.(apiKey := text)
    case TrafficBox(checked) => local.(showTraffic := checked)
    case WeatherBox(checked) => local.(showWeather := checked)
    case CafesBox(checked) => local.(showCafes := checked)
    case FrequencyDown => local.(checkFrequency := Decrement(local.checkFrequency))
    case FrequencyUp => local.(checkFrequency := Increment(local.checkFrequency))
    case BrandButton(brand) => local.(gasBrands := ToggleBrand(local.gasBrands, brand))
  }

  // ---------------------------------------------------------------------------
  // Closing the screen

  datatype Button = Cancel | Save

  /** A call the screen makes on its owner. */
  datatype Callback = OnSave(settings: AppSettings) | OnClose

  /** The owner callbacks a button press makes, in order. */
  function Press(button: Button, local: AppSettings): (calls: seq<Callback>)
    ensures |calls| > 0 && calls[|calls| - 1] == OnClose
    ensures button == Cancel ==> forall i :: 0 <= i < |calls| ==> !calls[i].OnSave?
    ensures button == Save ==> calls[0] == OnSave(local)
  {
    match button
    case Cancel => [OnClose]
    case Save => [OnSave(local), OnClose]
  }
}

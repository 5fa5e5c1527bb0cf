/**
 * The second step of recording a drink: a small state machine over the form
 * fields (strength, brand, amount, unit, companions, feeling), the values
 * derived from them, and the record a save writes.
 */
module EntryForm {
  import opened Optional
  import opened Calendar
  import opened Text
  import opened Data

  /** The title of the catch-all entry at the end of every preset list. */
  const OtherTitle: string := "기타"

  // ---------------------------------------------------------------------
  // Preset tables.

  datatype AlcoholPreset = AlcoholPreset(title: string, percent: real, brand: Option<string>)

  /**
   * The shape every brand preset list has: named brands with a positive
   * strength, each titled by its brand, and a final brandless "other" entry
   * whose strength is the current one, or the first brand's when that is 0.
   */
  predicate IsPresetList(ps: seq<AlcoholPreset>, alcoholPercent: real) {
    && |ps| >= 2
    && (forall i :: 0 <= i < |ps| - 1 ==>
          ps[i].brand == Some(ps[i].title) && ps[i].title != OtherTitle && ps[i].percent > 0.0)
    && ps[|ps| - 1].title == OtherTitle
    && ps[|ps| - 1].brand.None?
    && ps[|ps| - 1].percent == (if alcoholPercent == 0.0 then ps[0].percent else alcoholPercent)
  }

  /** The brand presets of a kind; only soju, beer and fruit soju have them. */
  function Presets(t: AlcoholType, alcoholPercent: real): (r: Option<seq<AlcoholPreset>>)
    ensures r.Some? <==> t == Soju || t == Beer || t == FruitSoju
    ensures r.Some? ==> IsPresetList(r.value, alcoholPercent)
  {
    match t
    case Soju =>
      Some([
        AlcoholPreset("처음처럼", 16.0, Some("처음처럼")),
        AlcoholPreset("참이슬", 16.0, Some("참이슬")),
        AlcoholPreset("참이슬 오리지널", 20.1, Some("참이슬 오리지널")),
        AlcoholPreset("진로", 16.0, Some("진로")),
        AlcoholPreset("새로", 16.0, Some("새로")),
        AlcoholPreset(OtherTitle, if alcoholPercent == 0.0 then 16.0 else alcoholPercent, None)])
    case Beer =>
      Some([
        AlcoholPreset("카스 프레시", 4.5, Some("카스 프레시")),
        AlcoholPreset("카스 라이트", 4.0, Some("카스 라이트")),
        AlcoholPreset("테라", 4.6, Some("테라")),
        AlcoholPreset("테라 라이트", 4.0, Some("테라 라이트")),
        AlcoholPreset("켈리", 4.5, Some("켈리")),
        AlcoholPreset("크러쉬", 4.5, Some("크러쉬")),
        AlcoholPreset(OtherTitle, if alcoholPercent == 0.0 then 4.5 else alcoholPercent, None)])
    case FruitSoju =>
      Some([
        AlcoholPreset("새로 다래", 12.0, Some("새로 다래")),
        AlcoholPreset("새로 살구", 12.0, Some("새로 살구")),
        AlcoholPreset("자몽에 이슬", 13.0, Some("자몽에 이슬")),
        AlcoholPreset("청포도에 이슬", 13.0, Some("청포도에 이슬")),
        AlcoholPreset(OtherTitle, if alcoholPercent == 0.0 then 12.0 else alcoholPercent, None)])
    case _ => None
  }

  /** No two brand presets of a list share a title, so a selected title names one preset. */
  lemma PresetTitlesDistinct(t: AlcoholType, alcoholPercent: real)
    ensures var r := Presets(t, alcoholPercent);
              r.Some? ==> forall i, j :: 0 <= i < j < |r.value| ==> r.value[i].title != r.value[j].title
  {
  }

  datatype UnitPreset = UnitPreset(title: string, ml: real, isOther: bool)

  predicate IsWholeNumber(x: real) {
    x.Floor as real == x
  }

  /**
   * The shape every unit preset list has: fixed units of a positive, whole
   * number of mL, then the final "other" unit, whose volume is the current
   * one, or the first unit's when that is 0.
   */
  predicate IsUnitList(us: seq<UnitPreset>, unitML: real) {
    && |us| >= 2
    && (forall i :: 0 <= i < |us| - 1 ==>
          !us[i].isOther && us[i].title != OtherTitle && us[i].ml > 0.0 && IsWholeNumber(us[i].ml))
    && us[|us| - 1].isOther
    && us[|us| - 1].title == OtherTitle
    && us[|us| - 1].ml == (if unitML == 0.0 then us[0].ml else unitML)
  }

  /** The closing "other" unit: the current volume, or `fallback` while that is 0. */
  function OtherUnit(fallback: real, unitML: real): UnitPreset {
    UnitPreset(OtherTitle, if unitML == 0.0 then fallback else unitML, true)
  }

  /** The serving sizes offered for a kind; every kind has some. */
  function UnitPresets(t: AlcoholType, unitML: real): (r: seq<UnitPreset>)
    ensures IsUnitList(r, unitML)
  {
    match t
    case Soju | FruitSoju =>
      [UnitPreset("병", 360.0, false), UnitPreset("잔", 50.0, false), UnitPreset("페트", 400.0, false),
       UnitPreset("종이컵", 140.0, false), OtherUnit(360.0, unitML)]
    case Beer =>
      [UnitPreset("잔", 225.0, false), UnitPreset("큰잔", 355.0, false), UnitPreset("500cc", 500.0, false),
       UnitPreset("1000cc", 1000.0, false), OtherUnit(225.0, unitML)]
    case Somac => [UnitPreset("잔", 225.0, false), OtherUnit(225.0, unitML)]
    case Wine => [UnitPreset("잔", 100.0, false), OtherUnit(100.0, unitML)]
    case Liquor => [UnitPreset("샷 잔", 30.0, false), UnitPreset("온더락 잔", 370.0, false), OtherUnit(30.0, unitML)]
    case Highball => [UnitPreset("글라스", 240.0, false), OtherUnit(240.0, unitML)]
    case Etc => [UnitPreset("소주잔", 50.0, false), UnitPreset("맥주잔", 225.0, false), OtherUnit(50.0, unitML)]
  }

  /** No two unit presets of a list share a title, so a selected title names one unit. */
  lemma UnitTitlesDistinct(t: AlcoholType, unitML: real)
    ensures var r := UnitPresets(t, unitML);
              forall i, j :: 0 <= i < j < |r| ==> r[i].title != r[j].title
  {
  }

  /** The strength assumed for kinds without brand presets: somac, wine and liquor. */
  function DefaultPercent(t: AlcoholType): (p: real)
    ensures p != 0.0 <==> t == Somac || t == Wine || t == Liquor
    ensures p >= 0.0
  {
    match t
    case Somac => 7.6
    case Wine => 12.0
    case Liquor => 40.0
    case _ => 0.0
  }

  /** Brand presets and a default strength never come together. */
  lemma PresetsOrDefault(t: AlcoholType, alcoholPercent: real)
    ensures Presets(t, alcoholPercent).Some? ==> DefaultPercent(t) == 0.0
  {
  }

  // ---------------------------------------------------------------------
  // The form.

  datatype Form = Form(
    alcoholType: AlcoholType,
    alcoholPercent: real,
    brand: Option<string>,
    selectedPresetTitle: Option<string>,
    manualBrandText: string,
    unitCount: real,
    unitName: string,
    unitML: real,
    selectedUnitTitle: Option<string>,
    isUnitMLExpanded: bool,
    manualUnitNameText: string,
    manualUnitMLText: string,
    isSaving: bool,
    showSaveAlert: bool,
    selectedPeople: set<Person>,
    selectedFeeling: Option<Feeling>)

  /** The form as step 1 hands it over: a kind, maybe a strength and a brand, nothing else filled in. */
  function NewForm(t: AlcoholType, alcoholPercent: real := 0.0, brand: Option<string> := None): (f: Form)
    ensures f.alcoholType == t && f.alcoholPercent == alcoholPercent && f.brand == brand
    ensures f.selectedPresetTitle.None? && f.selectedUnitTitle.None? && f.unitCount == 0.0 && f.unitML == 0.0
    ensures f.selectedPeople == {} && f.selectedFeeling.None? && !f.isSaving && !f.showSaveAlert
  {
    Form(t, alcoholPercent, brand, None, "", 0.0, "", 0.0, None, false, "", "", false, false, {}, None)
  }

  // ---------------------------------------------------------------------
  // Derived values.

  /** The strength in use: the entered one, or the kind's default when it is 0. */
  function EffectivePercent(f: Form): (p: real)
    ensures p == (if f.alcoholPercent != 0.0 then f.alcoholPercent else DefaultPercent(f.alcoholType))
  {
    var d := DefaultPercent(f.alcoholType);
    if f.alcoholPercent == 0.0 && d != 0.0 then d else f.alcoholPercent
  }

  /** Some strength is known, entered or by default. */
  predicate HasPercent(f: Form) {
    f.alcoholPercent != 0.0 || DefaultPercent(f.alcoholType) != 0.0
  }

  lemma HasPercentIffNonzero(f: Form)
    ensures HasPercent(f) <==> EffectivePercent(f) != 0.0
  {
  }

  /**
   * Step 1 is done once a strength is in use, and, for kinds with brand
   * presets, one of them was picked.
   */
  predicate IsStep1Ready(f: Form): (ready: bool)
    ensures ready <==>
              EffectivePercent(f) != 0.0
              && (f.selectedPresetTitle.Some? || !(f.alcoholType in {Soju, Beer, FruitSoju}))
  {
    var hasPercent := f.alcoholPercent != 0.0 || DefaultPercent(f.alcoholType) != 0.0;
    if Presets(f.alcoholType, f.alcoholPercent).Some? then f.selectedPresetTitle.Some? && hasPercent
    else hasPercent
  }

  /** Step 2 opens only once a strength is in use. */
  predicate ShouldShowStep2(f: Form): (shown: bool)
    ensures shown ==> EffectivePercent(f) != 0.0
  {
    IsStep1Ready(f)
  }

  /** Step 3 needs both a strength in use and a positive amount. */
  predicate ShouldShowStep3(f: Form): (shown: bool)
    ensures shown ==> EffectivePercent(f) != 0.0 && f.unitCount > 0.0
  {
    ShouldShowStep2(f) && f.unitCount > 0.0
  }

  /** The steps open in order: step 3 shows only with step 2, and only with an amount. */
  lemma Step3NeedsStep2(f: Form)
    ensures ShouldShowStep3(f) ==> ShouldShowStep2(f) && f.unitCount > 0.0
  {
  }

  /** Pure alcohol in one unit, in mL: the volume at the strength in use. */
  function AlcoholPerUnit(f: Form): (a: real)
    ensures a == f.unitML * EffectivePercent(f) / 100.0
    ensures f.unitML >= 0.0 && EffectivePercent(f) >= 0.0 ==> a >= 0.0
  {
    f.unitML * (EffectivePercent(f) / 100.0)
  }

  /** Pure alcohol of the whole entry, in mL: the per-unit amount times the units. */
  function TotalPureAlcohol(f: Form): (t: real)
    ensures t == f.unitCount * AlcoholPerUnit(f)
    ensures f.unitCount >= 0.0 && f.unitML >= 0.0 && EffectivePercent(f) >= 0.0 ==> t >= 0.0
  {
    f.unitCount * f.unitML * (EffectivePercent(f) / 100.0)
  }

  /** A bottle of 16% soju holds 57.6 mL of alcohol; two of them 115.2 mL. */
  lemma TwoBottlesOfSoju()
    ensures var f := NewForm(Soju, 16.0).(unitCount := 2.0, unitML := 360.0);
              AlcoholPerUnit(f) == 57.6 && TotalPureAlcohol(f) == 115.2
  {
  }

  /** A glass of wine with no strength entered is counted at the 12% default. */
  lemma WineUsesDefault()
    ensures var f := NewForm(Wine).(unitCount := 1.0, unitML := 100.0);
              EffectivePercent(f) == 12.0 && TotalPureAlcohol(f) == 12.0
  {
  }

  // ---------------------------------------------------------------------
  // Numeric text fields.

  /** What a numeric field makes of its text: blank, a number, or nothing usable. */
  datatype FieldValue = Cleared | Parsed(value: real) | Invalid

  /** Commas become points, surrounding whitespace and newlines go, then the text is parsed. */
  function ReadNumber(text: string): (v: FieldValue)
    ensures v.Cleared? <==> AllBlank(CommasToDots(text), true)
    ensures v.Parsed? ==> ParseDecimal(NormalizeNumber(text)) == Some(v.value)
    ensures !v.Cleared? ==> (v.Parsed? <==> ParseDecimal(NormalizeNumber(text)).Some?)
  {
    var s := NormalizeNumber(text);
    if |s| == 0 then Cleared
    else match ParseDecimal(s)
      case Some(x) => Parsed(x)
      case None => Invalid
  }

  lemma ReadFormatWhole(x: real)
    ensures ReadNumber(FormatWhole(x)) == Parsed(RoundedToWhole(x))
  {
    FormatWholeIsNumeral(x);
    NormalizeNumeral(FormatWhole(x));
    ParseFormatWhole(x);
  }

  lemma ReadFormatOneDecimal(x: real)
    ensures ReadNumber(FormatOneDecimal(x)) == Parsed(RoundedToTenths(x))
  {
    FormatOneDecimalIsNumeral(x);
    NormalizeNumeral(FormatOneDecimal(x));
    ParseFormatOneDecimal(x);
  }

  /** A value entered through a field: blank gives `cleared`, junk keeps `current`. */
  function Apply(v: FieldValue, current: real, cleared: real): (r: real)
    ensures v.Parsed? ==> r == v.value
    ensures v.Cleared? ==> r == cleared
    ensures v.Invalid? ==> r == current
  {
    match v
    case Cleared => cleared
    case Parsed(x) => x
    case Invalid => current
  }

  /** The strength field's text: the default while none is entered, else the entered one, with one decimal. */
  function PercentText(f: Form): (s: string)
    ensures s == "" <==> EffectivePercent(f) == 0.0
  {
    FormatOneDecimalIsNumeral(EffectivePercent(f));
    if f.alcoholPercent == 0.0 && DefaultPercent(f.alcoholType) != 0.0 then FormatOneDecimal(DefaultPercent(f.alcoholType))
    else if f.alcoholPercent == 0.0 then ""
    else FormatOneDecimal(f.alcoholPercent)
  }

  /** Typing into the strength field: blank resets it to 0, junk leaves it alone. */
  function PercentTextEdited(f: Form, text: string): (g: Form)
    ensures g == f.(alcoholPercent := g.alcoholPercent)
    ensures ReadNumber(text).Parsed? ==> g.alcoholPercent == ReadNumber(text).value
    ensures ReadNumber(text).Cleared? ==> g.alcoholPercent == 0.0
    ensures ReadNumber(text).Invalid? ==> g == f
  {
    f.(alcoholPercent := Apply(ReadNumber(text), f.alcoholPercent, 0.0))
  }

  /** Committing the strength field as shown stores the effective strength, to one decimal. */
  lemma PercentFieldRoundTrip(f: Form)
    ensures PercentTextEdited(f, PercentText(f)).alcoholPercent
              == (if EffectivePercent(f) == 0.0 then 0.0 else RoundedToTenths(EffectivePercent(f)))
  {
    if EffectivePercent(f) != 0.0 {
      ReadFormatOneDecimal(EffectivePercent(f));
    }
  }

  lemma CommasExample()
    ensures CommasToDots(" 16,5") == " 16.5"
  {
  }

  lemma TrimExample()
    ensures Trim(" 16.5", true) == "16.5"
  {
    var s := " 16.5";
    assert IsBlank(s[0], true) && !IsBlank(s[1], true);
    var rest := s[1..];
    assert !IsBlank(rest[|rest| - 1], true);
    TrimIsSlice(s, true, 1, 0);
    assert s[1..5] == "16.5";
  }

  lemma NormalizeExample()
    ensures NormalizeNumber(" 16,5") == "16.5"
  {
    CommasExample();
    TrimExample();
  }

  lemma ParseExample()
    ensures ParseDecimal("16.5") == Some(16.5)
  {
    assert DotIndex("16.5") == 2;
    assert DigitsValue("16") == 16;
  }

  /** A comma works as the decimal point and surrounding blanks are ignored. */
  lemma CommaDecimalAccepted(f: Form)
    ensures PercentTextEdited(f, " 16,5").alcoholPercent == 16.5
  {
    NormalizeExample();
    ParseExample();
  }

  /** Typing into the amount field: blank resets it to 0, junk leaves it alone. */
  function UnitCountTextEdited(f: Form, text: string): (g: Form)
    ensures g == f.(unitCount := g.unitCount)
    ensures ReadNumber(text).Parsed? ==> g.unitCount == ReadNumber(text).value
    ensures ReadNumber(text).Cleared? ==> g.unitCount == 0.0
    ensures ReadNumber(text).Invalid? ==> g == f
  {
    f.(unitCount := Apply(ReadNumber(text), f.unitCount, 0.0))
  }

  /** The "+0.5" button. */
  function AddHalfUnit(f: Form): (g: Form)
    ensures g == f.(unitCount := g.unitCount) && g.unitCount - f.unitCount == 0.5
  {
    f.(unitCount := f.unitCount + 0.5)
  }

  /** Starting from nothing, n taps on "+0.5" give n halves. */
  lemma {:induction false} HalfUnitTaps(f: Form, n: nat)
    ensures TapHalf(f, n).unitCount == f.unitCount + (n as real) * 0.5
    ensures TapHalf(f, n) == f.(unitCount := TapHalf(f, n).unitCount)
  {
    if n > 0 {
      HalfUnitTaps(f, n - 1);
    }
  }

  function TapHalf(f: Form, n: nat): Form {
    if n == 0 then f else AddHalfUnit(TapHalf(f, n - 1))
  }

  /** `parseManualUnitML`: the manual volume field, where blank means "no value". */
  function ParseManualUnitML(text: string): (r: Option<real>)
    ensures r.Some? <==> ReadNumber(text).Parsed?
    ensures r.Some? ==> r.value == ReadNumber(text).value
  {
    match ReadNumber(text)
    case Parsed(x) => Some(x)
    case _ => None
  }

  /** Typing into the manual volume field: only a number changes the volume. */
  function ManualUnitMLEdited(f: Form, text: string): (g: Form)
    ensures g == f.(manualUnitMLText := text, unitML := g.unitML)
    ensures g.unitML == ParseManualUnitML(text).GetOr(f.unitML)
  {
    f.(manualUnitMLText := text, unitML := Apply(ReadNumber(text), f.unitML, f.unitML))
  }

  /** Typing into the manual unit name field; a blank name reads as "other". */
  function ManualUnitNameEdited(f: Form, text: string): (g: Form)
    ensures g == f.(manualUnitNameText := text, unitName := g.unitName)
    ensures AllBlank(text, true) <==> g.unitName == OtherTitle && Trim(text, true) != OtherTitle
    ensures !AllBlank(text, true) ==> g.unitName == Trim(text, true)
  {
    var trimmed := Trim(text, true);
    f.(manualUnitNameText := text, unitName := if |trimmed| == 0 then OtherTitle else trimmed)
  }

  /** Typing a brand by hand; a blank brand is no brand. */
  function ManualBrandEdited(f: Form, text: string): (g: Form)
    ensures g == f.(manualBrandText := text, brand := g.brand)
    ensures g.brand.None? <==> AllBlank(text, true)
    ensures g.brand.Some? ==> g.brand.value == Trim(text, true)
  {
    var trimmed := Trim(text, true);
    f.(manualBrandText := text, brand := if |trimmed| == 0 then None else Some(trimmed))
  }

  // ---------------------------------------------------------------------
  // Preset taps.

  /** Tapping brand preset `i`: it becomes the selection and sets strength and brand. */
  function SelectPreset(f: Form, i: nat): (g: Form)
    requires Presets(f.alcoholType, f.alcoholPercent).Some?
    requires i < |Presets(f.alcoholType, f.alcoholPercent).value|
    ensures var p := Presets(f.alcoholType, f.alcoholPercent).value[i];
              && g.selectedPresetTitle == Some(p.title)
              && g.alcoholPercent == p.percent
              && g.brand == (if f.alcoholType == Somac then None else p.brand)
              && g.manualBrandText == (if p.brand.Some? then p.brand.value else f.manualBrandText)
    ensures g == f.(selectedPresetTitle := g.selectedPresetTitle, alcoholPercent := g.alcoholPercent,
                    brand := g.brand, manualBrandText := g.manualBrandText)
  {
    var p := Presets(f.alcoholType, f.alcoholPercent).value[i];
    f.(selectedPresetTitle := Some(p.title),
       brand := if f.alcoholType == Somac then None else p.brand,
       alcoholPercent := p.percent,
       manualBrandText := if p.brand.Some? then p.brand.value else f.manualBrandText)
  }

  /** Whichever preset is tapped, step 1 is then complete. */
  lemma SelectPresetReadiesStep1(f: Form, i: nat)
    requires Presets(f.alcoholType, f.alcoholPercent).Some?
    requires i < |Presets(f.alcoholType, f.alcoholPercent).value|
    ensures IsStep1Ready(SelectPreset(f, i))
  {
    var ps := Presets(f.alcoholType, f.alcoholPercent).value;
    var g := SelectPreset(f, i);
    assert ps[0].percent > 0.0;
    assert g.alcoholPercent != 0.0;
    assert Presets(g.alcoholType, g.alcoholPercent).Some?;
  }

  /** Text shown in the manual volume field for a volume: empty for 0, else a whole number. */
  function MLText(ml: real): string {
    if ml == 0.0 then "" else FormatWhole(ml)
  }

  /** Tapping unit preset `i`: it sets the volume, the unit name and the manual fields. */
  function SelectUnitPreset(f: Form, i: nat): (g: Form)
    requires i < |UnitPresets(f.alcoholType, f.unitML)|
    ensures var u := UnitPresets(f.alcoholType, f.unitML)[i];
              && g.selectedUnitTitle == Some(u.title)
              && g.unitML == u.ml
              && g.isUnitMLExpanded == u.isOther
              && g.manualUnitMLText == MLText(u.ml)
              && (u.isOther ==> g.unitName == (if f.manualUnitNameText == "" then OtherTitle else f.manualUnitNameText)
                                && g.manualUnitNameText == f.manualUnitNameText)
              && (!u.isOther ==> g.unitName == u.title && g.manualUnitNameText == u.title)
    ensures g == f.(selectedUnitTitle := g.selectedUnitTitle, unitML := g.unitML, unitName := g.unitName,
                    isUnitMLExpanded := g.isUnitMLExpanded, manualUnitNameText := g.manualUnitNameText,
                    manualUnitMLText := g.manualUnitMLText)
  {
    var u := UnitPresets(f.alcoholType, f.unitML)[i];
    var h := f.(selectedUnitTitle := Some(u.title), unitML := u.ml);
    if u.isOther then
      h.(unitName := if h.manualUnitNameText == "" then OtherTitle else h.manualUnitNameText,
         isUnitMLExpanded := true,
         manualUnitMLText := if h.unitML == 0.0 then "" else FormatWhole(h.unitML))
    else
      h.(unitName := u.title,
         isUnitMLExpanded := false,
         manualUnitNameText := u.title,
         manualUnitMLText := FormatWhole(u.ml))
  }

  /** A whole number of mL shown in the manual field reads back as exactly that volume. */
  lemma MLTextReadsBack(ml: real)
    requires ml != 0.0 && IsWholeNumber(ml)
    ensures ParseManualUnitML(MLText(ml)) == Some(ml)
  {
    ReadFormatWhole(ml);
    RoundedWhole(ml.Floor);
  }

  /** After tapping a fixed unit, the manual volume field reads back as the selected volume. */
  lemma SelectUnitPresetConsistent(f: Form, i: nat)
    requires i < |UnitPresets(f.alcoholType, f.unitML)| - 1
    ensures var g := SelectUnitPreset(f, i);
              ParseManualUnitML(g.manualUnitMLText) == Some(g.unitML)
  {
    var u := UnitPresets(f.alcoholType, f.unitML)[i];
    MLTextReadsBack(u.ml);
  }

  // ---------------------------------------------------------------------
  // Lifecycle.

  /** Selects the kind's first unit and fills the unit fields from it. */
  function InitializeStep2Defaults(f: Form): (g: Form)
    ensures var u := UnitPresets(f.alcoholType, f.unitML)[0];
              && g.selectedUnitTitle == Some(u.title)
              && g.unitName == u.title
              && g.unitML == u.ml
              && g.manualUnitNameText == u.title
              && !g.isUnitMLExpanded
    ensures g == f.(selectedUnitTitle := g.selectedUnitTitle, unitML := g.unitML, unitName := g.unitName,
                    isUnitMLExpanded := g.isUnitMLExpanded, manualUnitNameText := g.manualUnitNameText,
                    manualUnitMLText := g.manualUnitMLText)
  {
    var first := UnitPresets(f.alcoholType, f.unitML)[0];
    var h := f.(selectedUnitTitle := Some(first.title), unitName := first.title, unitML := first.ml);
    var h2 := if first.isOther then h.(isUnitMLExpanded := true, manualUnitNameText := "")
              else h.(isUnitMLExpanded := false, manualUnitNameText := first.title);
    h2.(manualUnitMLText := if h2.unitML == 0.0 then "" else FormatWhole(h2.unitML))
  }

  /** The defaults leave the manual volume field and the volume in agreement. */
  lemma Step2DefaultsConsistent(f: Form)
    ensures var g := InitializeStep2Defaults(f);
              ParseManualUnitML(g.manualUnitMLText) == Some(g.unitML) && g.unitML > 0.0
  {
    MLTextReadsBack(UnitPresets(f.alcoholType, f.unitML)[0].ml);
  }

  /** Fills in the default strength when none was entered; somac drops its brand. */
  function ApplyDefaultPercent(f: Form): (g: Form)
    ensures g.alcoholPercent == EffectivePercent(f)
    ensures f.alcoholType == Somac ==> g.brand.None?
    ensures g == f.(alcoholPercent := g.alcoholPercent, brand := g.brand)
  {
    var h := f.(alcoholPercent := EffectivePercent(f));
    if f.alcoholType == Somac then h.(brand := None) else h
  }

  /** Step 2 appearing: the default strength is written in and the unit defaults chosen if none is. */
  function OnStep2Shown(f: Form): (g: Form)
    ensures g.alcoholPercent == EffectivePercent(f)
    ensures f.alcoholType == Somac ==> g.brand.None?
    ensures f.alcoholType != Somac ==> g.brand == f.brand
    ensures f.selectedUnitTitle.Some? ==> g == f.(alcoholPercent := g.alcoholPercent, brand := g.brand)
    ensures f.selectedUnitTitle.None? ==>
              var u := UnitPresets(f.alcoholType, f.unitML)[0];
              g.selectedUnitTitle == Some(u.title) && g.unitName == u.title && g.unitML == u.ml
    ensures g == f.(alcoholPercent := g.alcoholPercent, brand := g.brand,
                    selectedUnitTitle := g.selectedUnitTitle, unitML := g.unitML, unitName := g.unitName,
                    isUnitMLExpanded := g.isUnitMLExpanded, manualUnitNameText := g.manualUnitNameText,
                    manualUnitMLText := g.manualUnitMLText)
    ensures g.selectedUnitTitle.Some?
  {
    var h := ApplyDefaultPercent(f);
    if h.selectedUnitTitle.None? then InitializeStep2Defaults(h) else h
  }

  /** The form appearing: kinds without presets get their default strength, and the unit defaults are chosen. */
  function OnAppear(f: Form): (g: Form)
    ensures Presets(f.alcoholType, f.alcoholPercent).None? ==> g.alcoholPercent == EffectivePercent(f)
    ensures Presets(f.alcoholType, f.alcoholPercent).Some? ==> g.alcoholPercent == f.alcoholPercent
    ensures Presets(f.alcoholType, f.alcoholPercent).None? && f.alcoholType == Somac ==> g.brand.None?
    ensures Presets(f.alcoholType, f.alcoholPercent).Some? || f.alcoholType != Somac ==> g.brand == f.brand
    ensures f.selectedUnitTitle.Some? ==> g == f.(alcoholPercent := g.alcoholPercent, brand := g.brand)
    ensures f.selectedUnitTitle.None? ==>
              var u := UnitPresets(f.alcoholType, f.unitML)[0];
              g.selectedUnitTitle == Some(u.title) && g.unitName == u.title && g.unitML == u.ml
    ensures g == f.(alcoholPercent := g.alcoholPercent, brand := g.brand,
                    selectedUnitTitle := g.selectedUnitTitle, unitML := g.unitML, unitName := g.unitName,
                    isUnitMLExpanded := g.isUnitMLExpanded, manualUnitNameText := g.manualUnitNameText,
                    manualUnitMLText := g.manualUnitMLText)
    ensures g.selectedUnitTitle.Some?
  {
    var h := if Presets(f.alcoholType, f.alcoholPercent).None? then ApplyDefaultPercent(f) else f;
    if h.selectedUnitTitle.None? then InitializeStep2Defaults(h) else h
  }

  /** Writing in the default never changes the strength in use. */
  lemma LifecyclePreservesStrength(f: Form)
    ensures EffectivePercent(OnStep2Shown(f)) == EffectivePercent(f)
    ensures EffectivePercent(OnAppear(f)) == EffectivePercent(f)
  {
  }

  /** Opening a fresh form selects the first unit, with a usable volume. */
  lemma FreshFormHasUnit(t: AlcoholType, p: real)
    ensures var g := OnAppear(NewForm(t, p));
              g.selectedUnitTitle == Some(UnitPresets(t, 0.0)[0].title)
              && g.unitML == UnitPresets(t, 0.0)[0].ml && g.unitML > 0.0
  {
  }

  // ---------------------------------------------------------------------
  // Companions and feeling.

  /** Tapping a feeling: the selected one is cleared, any other becomes the selection. */
  function ToggleFeeling(selected: Option<Feeling>, tapped: Feeling): (r: Option<Feeling>)
    ensures r == Some(tapped) <==> selected != Some(tapped)
    ensures r.None? <==> selected == Some(tapped)
  {
    if selected == Some(tapped) then None else Some(tapped)
  }

  /** Tapping the same feeling twice returns to no feeling or to it, whatever was selected before. */
  lemma ToggleFeelingTwice(selected: Option<Feeling>, tapped: Feeling)
    ensures ToggleFeeling(ToggleFeeling(selected, tapped), tapped)
              == (if selected == Some(tapped) then Some(tapped) else None)
  {
  }

  /** Tapping a person flips that person's selection and nobody else's. */
  function TogglePerson(selected: set<Person>, p: Person): (r: set<Person>)
    ensures p in r <==> p !in selected
    ensures forall q :: q != p ==> (q in r <==> q in selected)
  {
    if p in selected then selected - {p} else selected + {p}
  }

  lemma TogglePersonTwice(selected: set<Person>, p: Person)
    ensures TogglePerson(TogglePerson(selected, p), p) == selected
  {
  }

  function TapFeeling(f: Form, tapped: Feeling): (g: Form)
    ensures g == f.(selectedFeeling := ToggleFeeling(f.selectedFeeling, tapped))
  {
    f.(selectedFeeling := if f.selectedFeeling == Some(tapped) then None else Some(tapped))
  }

  function TapPerson(f: Form, p: Person): (g: Form)
    ensures g == f.(selectedPeople := TogglePerson(f.selectedPeople, p))
  {
    f.(selectedPeople := if p in f.selectedPeople then f.selectedPeople - {p} else f.selectedPeople + {p})
  }

  // ---------------------------------------------------------------------
  // Saving.

  /** The save button: shown with step 2, enabled with an amount and no save running. */
  predicate SaveEnabled(f: Form) {
    ShouldShowStep2(f) && !(f.unitCount <= 0.0 || f.isSaving)
  }

  /** The selected people as a list, each once, in no particular order. */
  method PeopleList(s: set<Person>) returns (xs: seq<Person>)
    ensures |xs| == |s|
    ensures forall p :: p in xs <==> p in s
    ensures forall i, j :: 0 <= i < j < |xs| ==> xs[i] != xs[j]
  {
    xs := [];
    var rest := s;
    while rest != {}
      invariant rest <= s
      invariant |xs| + |rest| == |s|
      invariant forall p :: p in xs <==> p in s && p !in rest
      invariant forall i, j :: 0 <= i < j < |xs| ==> xs[i] != xs[j]
      decreases |rest|
    {
      var p :| p in rest;
      xs := xs + [p];
      rest := rest - {p};
    }
  }

  /**
   * The record a save creates, stamped `now`, and the form marked as saving.
   * The record carries the effective strength and is not yet synced.
   */
  method SaveData(f: Form, id: Uuid, now: Moment) returns (g: Form, r: DrinkRecord)
    ensures g == f.(isSaving := true)
    ensures r.id == Some(id) && r.timestamp == Some(now)
    ensures r.alcoholType == Some(f.alcoholType)
    ensures r.alcoholPercent == Some(EffectivePercent(f))
    ensures r.units == Some(f.unitCount) && r.unitML == Some(f.unitML) && r.unitName == Some(f.unitName)
    ensures r.alcoholPerUnit == Some(AlcoholPerUnit(f))
    ensures r.brand == f.brand && r.memo.None? && r.feeling == f.selectedFeeling
    ensures r.healthKitSynced == Some(false)
    ensures r.people.Some? && |r.people.value| == |f.selectedPeople|
    ensures forall p :: p in PeopleOf(r) <==> p in f.selectedPeople
  {
    g := f.(isSaving := true);
    var percentToSave := if f.alcoholPercent == 0.0 && DefaultPercent(f.alcoholType) != 0.0
                         then DefaultPercent(f.alcoholType) else f.alcoholPercent;
    var people := PeopleList(f.selectedPeople);
    r := NewDrinkRecord(id, now, Some(percentToSave), Some(f.unitCount), Some(f.unitML), Some(f.unitName),
                        Some(AlcoholPerUnit(f)), Some(f.alcoholType), Some(people), f.brand,
                        healthKitSynced := Some(false), feeling := f.selectedFeeling);
  }

  /** The stored record holds exactly the alcohol the form showed as its total. */
  lemma SavedAlcoholMatchesForm(f: Form, r: DrinkRecord)
    requires r.alcoholPercent == Some(EffectivePercent(f))
    requires r.units == Some(f.unitCount) && r.unitML == Some(f.unitML)
    ensures PureAlcohol(r) == TotalPureAlcohol(f)
  {
  }

  /** A save asks HealthKit to store the units only when there are some. */
  predicate HealthSyncAttempted(f: Form) {
    f.unitCount > 0.0
  }

  /**
   * The record after the background HealthKit step: marked synced exactly
   * when a sync was attempted, authorised and stored.
   */
  function AfterHealthSync(r: DrinkRecord, attempted: bool, authorized: bool, stored: bool): (s: DrinkRecord)
    ensures s == r.(healthKitSynced := s.healthKitSynced)
    ensures attempted && authorized && stored ==> s.healthKitSynced == Some(true)
    ensures !(attempted && authorized && stored) ==> s == r
  {
    if attempted && authorized && stored then r.(healthKitSynced := Some(true)) else r
  }

  /** The save finishing: the spinner stops and the confirmation shows. */
  function SaveFinished(f: Form): (g: Form)
    ensures !g.isSaving && g.showSaveAlert
    ensures g == f.(isSaving := g.isSaving, showSaveAlert := g.showSaveAlert)
  {
    f.(isSaving := false, showSaveAlert := true)
  }

  /**
   * The button only enables a save with a positive amount, so every save
   * tries to sync; and while the save runs, the button stays disabled.
   */
  lemma SaveGuards(f: Form, id: Uuid, now: Moment)
    ensures SaveEnabled(f) ==> HealthSyncAttempted(f)
    ensures !SaveEnabled(f.(isSaving := true))
    ensures f.unitCount <= 0.0 ==> !SaveEnabled(f)
  {
  }

  /** Without an amount, the record stays unsynced whatever HealthKit answers. */
  lemma NoUnitsNoSync(f: Form, r: DrinkRecord, authorized: bool, stored: bool)
    requires f.unitCount <= 0.0 && r.healthKitSynced == Some(false)
    ensures AfterHealthSync(r, HealthSyncAttempted(f), authorized, stored).healthKitSynced == Some(false)
  {
  }
}

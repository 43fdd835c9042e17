/** The daily-target form: one input per macro and four preset buttons. */
module MacroTargets {
  import opened Wrappers
  import opened JsMath
  import opened Nutrition

  /** The key of one macro in the targets record. */
  datatype MacroField = Calories | Protein | Carbs | Fat

  /** The value stored under a key. */
  function Get(t: Macros, field: MacroField): real {
    match field
    case Calories => t.calories
    case Protein => t.protein
    case Carbs => t.carbs
    case Fat => t.fat
  }

  /** `{ ...targets, [macro]: value }`: one key replaced, every other key copied. */
  function WithField(t: Macros, field: MacroField, value: real): (r: Macros)
    ensures Get(r, field) == value
    ensures forall other :: other != field ==> Get(r, other) == Get(t, other)
  {
    match field
    case Calories => t.(calories := value)
    case Protein => t.(protein := value)
    case Carbs => t.(carbs := value)
    case Fat => t.(fat := value)
  }

  /** Two records with the same value under every key are the same record. */
  lemma FieldsDetermine(a: Macros, b: Macros)
    requires forall field :: Get(a, field) == Get(b, field)
    ensures a == b
  {
    assert Get(a, Calories) == Get(b, Calories) && Get(a, Protein) == Get(b, Protein);
    assert Get(a, Carbs) == Get(b, Carbs) && Get(a, Fat) == Get(b, Fat);
  }

  /**
   * `handleInputChange`: the typed text, parsed (`None` when it does not parse), replaces
   * one key; text that does not parse and a typed zero both store `0`.
   */
  function HandleInputChange(targets: Macros, field: MacroField, parsed: Option<real>): (r: Macros)
    ensures Get(r, field) == ParsedOrZero(parsed)
    ensures forall other :: other != field ==> Get(r, other) == Get(targets, other)
    ensures parsed.None? ==> Get(r, field) == 0.0
  {
    WithField(targets, field, ParsedOrZero(parsed))
  }

  /** Typing the value a key already holds leaves the targets as they were. */
  lemma RetypingIsNoChange(targets: Macros, field: MacroField)
    ensures HandleInputChange(targets, field, Some(Get(targets, field))) == targets
  {
    var r := HandleInputChange(targets, field, Some(Get(targets, field)));
    forall other
      ensures Get(r, other) == Get(targets, other)
    {
    }
    FieldsDetermine(r, targets);
  }

  /** Only the last edit of a key counts. */
  lemma LastEditWins(targets: Macros, field: MacroField, first: Option<real>, second: Option<real>)
    ensures HandleInputChange(HandleInputChange(targets, field, first), field, second)
      == HandleInputChange(targets, field, second)
  {
    var a := HandleInputChange(HandleInputChange(targets, field, first), field, second);
    var b := HandleInputChange(targets, field, second);
    forall other
      ensures Get(a, other) == Get(b, other)
    {
    }
    FieldsDetermine(a, b);
  }

  /** Edits of two different keys commute. */
  lemma EditsCommute(targets: Macros, f: MacroField, x: Option<real>, g: MacroField, y: Option<real>)
    requires f != g
    ensures HandleInputChange(HandleInputChange(targets, f, x), g, y)
      == HandleInputChange(HandleInputChange(targets, g, y), f, x)
  {
    var a := HandleInputChange(HandleInputChange(targets, f, x), g, y);
    var b := HandleInputChange(HandleInputChange(targets, g, y), f, x);
    forall other
      ensures Get(a, other) == Get(b, other)
    {
    }
    FieldsDetermine(a, b);
  }

  /** A preset button: its label, its subtitle and the targets it sets. */
  datatype Preset = Preset(name: string, description: string, targets: Macros)

  const WeightLoss := Preset("Weight Loss", "Moderate calorie deficit", Macros(1500.0, 120.0, 100.0, 60.0))
  const Maintenance := Preset("Maintenance", "Balanced nutrition", Macros(2000.0, 100.0, 150.0, 70.0))
  const MuscleGain := Preset("Muscle Gain", "Higher protein & calories", Macros(2500.0, 150.0, 200.0, 85.0))
  const Athletic := Preset("Athletic", "High performance", Macros(3000.0, 180.0, 300.0, 100.0))

  /** `presetTargets`, in button order. */
  const Presets: seq<Preset> := [WeightLoss, Maintenance, MuscleGain, Athletic]

  /** `handlePresetSelect`: every key is replaced by the preset's value. */
  function HandlePresetSelect(targets: Macros, preset: Preset): Macros {
    preset.targets
  }

  /**
   * A preset replaces the targets outright: the result does not depend on the targets
   * before, and choosing the same preset again changes nothing.
   */
  lemma PresetIgnoresPrevious(before: Macros, other: Macros, preset: Preset)
    ensures HandlePresetSelect(before, preset) == HandlePresetSelect(other, preset)
    ensures HandlePresetSelect(HandlePresetSelect(before, preset), preset) == HandlePresetSelect(before, preset)
  {
  }

  /** The energy of a macro split at 4 kcal per gram of protein and carbs, 9 per gram of fat. */
  function MacroEnergy(t: Macros): real {
    4.0 * t.protein + 4.0 * t.carbs + 9.0 * t.fat
  }

  /**
   * The four presets: calorie targets rise from 1500 to 3000 in steps of 500, protein targets
   * are 120, 100, 150 and 180 g, every value is
   * positive, and no preset's macros carry more energy than its calorie target.
   */
  lemma PresetsShape()
    ensures |Presets| == 4
    ensures forall i :: 0 <= i < 4 ==> Presets[i].targets.calories == 1500.0 + 500.0 * i as real
    ensures Presets[0].targets.protein == 120.0 && Presets[1].targets.protein == 100.0
    ensures Presets[2].targets.protein == 150.0 && Presets[3].targets.protein == 180.0
    ensures forall i :: 0 <= i < 4 ==> forall field :: Get(Presets[i].targets, field) > 0.0
    ensures forall i :: 0 <= i < 4 ==> MacroEnergy(Presets[i].targets) <= Presets[i].targets.calories
    ensures forall i, j :: 0 <= i < j < 4 ==> Presets[i].name != Presets[j].name
  {
  }

  /** Choosing a preset and then editing one key keeps the preset's other three values. */
  lemma PresetThenEdit(targets: Macros, i: nat, field: MacroField, parsed: Option<real>)
    requires i < |Presets|
    ensures var r := HandleInputChange(HandlePresetSelect(targets, Presets[i]), field, parsed);
      forall other :: other != field ==> Get(r, other) == Get(Presets[i].targets, other)
  {
  }
}

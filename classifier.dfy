/** Fixed-threshold classification of a reading: the colour functions
    (`getColorByTemperature`, ... of `SensorData`) and `getEnvironmentEmoji`. */
module Classifier {
  import opened Wrappers
  import opened Readings
  import opened Decimal
  import opened Strings

  /** The four display modes (`currentMode`, `currentSensorType`). */
  datatype Mode = Temperature | Humidity | Illuminance | PH

  function ModeName(m: Mode): string
  {
    match m
    case Temperature => "temperature"
    case Humidity => "humidity"
    case Illuminance => "illuminance"
    case PH => "ph"
  }

  /** The mode a `data-type` / sensor-type string names, if any. */
  function ParseMode(s: string): (r: Option<Mode>)
    ensures r.Some? ==> ModeName(r.value) == s
    ensures r.None? ==> forall m :: ModeName(m) != s
  {
    if s == "temperature" then Some(Temperature)
    else if s == "humidity" then Some(Humidity)
    else if s == "illuminance" then Some(Illuminance)
    else if s == "ph" then Some(PH)
    else None
  }

  datatype Tier = Low | Mid | High

  /** `BABYLON.Color3(r, g, b)`. */
  datatype Color = Color3(r: real, g: real, b: real)

  /** The palette: one colour per mode and tier. */
  function Palette(m: Mode, t: Tier): Color
  {
    match (m, t)
    case (Temperature, High) => Color3(1.0, 0.0, 0.0)
    case (Temperature, Mid) => Color3(1.0, 0.4, 0.4)
    case (Temperature, Low) => Color3(1.0, 0.7, 0.7)
    case (Humidity, High) => Color3(0.0, 0.0, 1.0)
    case (Humidity, Mid) => Color3(0.4, 0.4, 1.0)
    case (Humidity, Low) => Color3(0.7, 0.7, 1.0)
    case (Illuminance, High) => Color3(1.0, 1.0, 0.0)
    case (Illuminance, Mid) => Color3(1.0, 1.0, 0.4)
    case (Illuminance, Low) => Color3(1.0, 1.0, 0.7)
    case (PH, High) => Color3(0.0, 0.3, 0.1)
    case (PH, Mid) => Color3(0.6, 1.0, 0.8)
    case (PH, Low) => Color3(0.5, 0.6, 0.3)
  }

  /** The label glyphs: one emoji per mode and tier. */
  function Glyph(m: Mode, t: Tier): string
  {
    match (m, t)
    case (Temperature, High) => "🔥"
    case (Humidity, High) => "💦"
    case (Illuminance, High) => "☀️"
    case (PH, High) => "🤢"
    case (_, Mid) => "😊"
    case (Temperature, Low) => "🥶"
    case (Humidity, Low) => "💧"
    case (Illuminance, Low) => "🔅"
    case (PH, Low) => "🍋"
  }

  // ---------------------------------------------------------------- colours

  function ColorByTemperature(temp: real): (c: Color)
    ensures c == Palette(Temperature, High) <==> temp >= 27.0
    ensures c == Palette(Temperature, Mid) <==> 24.0 <= temp < 27.0
    ensures c == Palette(Temperature, Low) <==> temp < 24.0
  {
    if temp >= 27.0 then Color3(1.0, 0.0, 0.0)
    else if temp >= 24.0 then Color3(1.0, 0.4, 0.4)
    else Color3(1.0, 0.7, 0.7)
  }

  function ColorByHumidity(humidity: real): (c: Color)
    ensures c == Palette(Humidity, High) <==> humidity >= 70.0
    ensures c == Palette(Humidity, Mid) <==> 50.0 <= humidity < 70.0
    ensures c == Palette(Humidity, Low) <==> humidity < 50.0
  {
    if humidity >= 70.0 then Color3(0.0, 0.0, 1.0)
    else if humidity >= 50.0 then Color3(0.4, 0.4, 1.0)
    else Color3(0.7, 0.7, 1.0)
  }

  function ColorByIlluminance(illuminance: real): (c: Color)
    ensures c == Palette(Illuminance, High) <==> illuminance >= 800.0
    ensures c == Palette(Illuminance, Mid) <==> 500.0 <= illuminance < 800.0
    ensures c == Palette(Illuminance, Low) <==> illuminance < 500.0
  {
    if illuminance >= 800.0 then Color3(1.0, 1.0, 0.0)
    else if illuminance >= 500.0 then Color3(1.0, 1.0, 0.4)
    else Color3(1.0, 1.0, 0.7)
  }

  /** `getColorByPH(parseFloat(ph))`; a missing value parses to NaN, for which both
      comparisons are false. High is strictly above 6.5. */
  function ColorByPH(ph: Option<real>): (c: Color)
    ensures c == Palette(PH, High) <==> ph.Some? && ph.value > 6.5
    ensures c == Palette(PH, Mid) <==> ph.Some? && 6.0 <= ph.value <= 6.5
    ensures c == Palette(PH, Low) <==> ph.None? || ph.value < 6.0
  {
    if ph.Some? && ph.value > 6.5 then Color3(0.0, 0.3, 0.1)
    else if ph.Some? && ph.value >= 6.0 then Color3(0.6, 1.0, 0.8)
    else Color3(0.5, 0.6, 0.3)
  }

  /** The colour the current mode gives a reading (the `switch (currentMode)` of
      `updateSelectedCubeInfo` and `updateCubeColor`). */
  function ColorOf(m: Mode, r: Reading): Color
  {
    match m
    case Temperature => ColorByTemperature(r.temperature)
    case Humidity => ColorByHumidity(r.humidity)
    case Illuminance => ColorByIlluminance(r.lux)
    case PH => ColorByPH(r.pH)
  }

  // ---------------------------------------------------------------- JavaScript comparison

  /** The values `getEnvironmentEmoji` is called with: a number, `undefined`, or a string. */
  datatype JsValue = Number(x: real) | Undefined | Text(s: string)

  function Pow10(k: nat): (p: real)
    ensures p >= 1.0
  {
    if k == 0 then 1.0 else 10.0 * Pow10(k - 1)
  }

  predicate IsDecimalNumeral(s: string)
  {
    && (forall i :: 0 <= i < |s| ==> IsDigit(s[i]) || s[i] == '.')
    && (exists i :: 0 <= i < |s| && IsDigit(s[i]))
    && (forall i, j :: 0 <= i < j < |s| && s[i] == '.' ==> s[j] != '.')
  }

  /** The number JavaScript's `ToNumber` gives a string, for plain decimal numerals
      ("12", "12.5", ".5") and the empty string (0); every other text is NaN (`None`). */
  function TextToNumber(s: string): (r: Option<real>)
    ensures r.Some? ==> s == "" || IsDecimalNumeral(s)
  {
    if s == "" then Some(0.0)
    else if IsDecimalNumeral(s) then
      match IndexOf(s, ".")
      case None =>
        IndexOfMeaning(s, ".");
        assert AllDigits(s) by {
          forall k | 0 <= k < |s| ensures IsDigit(s[k]) {
            assert !OccursAt(s, ".", k);
            assert s[k..k + 1] == [s[k]];
          }
        }
        Some(DigitsValue(s) as real)
      case Some(i) =>
        var whole, frac := s[..i], s[i + 1..];
        assert AllDigits(whole) && AllDigits(frac) by {
          forall k | 0 <= k < |frac| ensures IsDigit(frac[k]) {
            assert s[i] == '.' && frac[k] == s[i + 1 + k];
          }
        }
        Some(DigitsValue(whole) as real + DigitsValue(frac) as real / Pow10(|frac|))
    else None
  }

  function ToNumber(v: JsValue): Option<real>
  {
    match v
    case Number(x) => Some(x)
    case Undefined => None
    case Text(s) => TextToNumber(s)
  }

  /** JavaScript `v >= k` for a numeric `k`: false whenever `v` converts to NaN. */
  predicate AtLeast(v: JsValue, k: real)
  {
    ToNumber(v).Some? && ToNumber(v).value >= k
  }

  /** A text holding a parenthesis is not a numeral, so it compares as NaN. */
  lemma TextWithParenIsNaN(s: string)
    requires '(' in s
    ensures ToNumber(Text(s)) == None
  {
    var i :| 0 <= i < |s| && s[i] == '(';
    assert !IsDecimalNumeral(s);
  }

  // ---------------------------------------------------------------- emoji

  /** `getEnvironmentEmoji(value, type)`. Unlike `getColorByPH`, its pH High test
      is `>= 6.5`; an unknown type gives the empty string. */
  function EnvironmentEmoji(value: JsValue, kind: string): (e: string)
    ensures ParseMode(kind).None? ==> e == ""
  {
    if kind == "temperature" then
      if AtLeast(value, 27.0) then "🔥" else if AtLeast(value, 24.0) then "😊" else "🥶"
    else if kind == "humidity" then
      if AtLeast(value, 70.0) then "💦" else if AtLeast(value, 50.0) then "😊" else "💧"
    else if kind == "illuminance" then
      if AtLeast(value, 800.0) then "☀️" else if AtLeast(value, 500.0) then "😊" else "🔅"
    else if kind == "ph" then
      if AtLeast(value, 6.5) then "🤢" else if AtLeast(value, 6.0) then "😊" else "🍋"
    else ""
  }

  /** The tier each type's emoji names: High from its upper threshold on,
      Mid from its lower one, Low below, each compared as JavaScript's `>=`
      compares the value with a number. */
  lemma EnvironmentEmojiTiers(value: JsValue, kind: string)
    ensures kind == "temperature" ==>
              (EnvironmentEmoji(value, kind) == Glyph(Temperature, High) <==> AtLeast(value, 27.0))
              && (EnvironmentEmoji(value, kind) == Glyph(Temperature, Mid) <==> !AtLeast(value, 27.0) && AtLeast(value, 24.0))
              && (EnvironmentEmoji(value, kind) == Glyph(Temperature, Low) <==> !AtLeast(value, 24.0))
    ensures kind == "humidity" ==>
              (EnvironmentEmoji(value, kind) == Glyph(Humidity, High) <==> AtLeast(value, 70.0))
              && (EnvironmentEmoji(value, kind) == Glyph(Humidity, Mid) <==> !AtLeast(value, 70.0) && AtLeast(value, 50.0))
              && (EnvironmentEmoji(value, kind) == Glyph(Humidity, Low) <==> !AtLeast(value, 50.0))
    ensures kind == "illuminance" ==>
              (EnvironmentEmoji(value, kind) == Glyph(Illuminance, High) <==> AtLeast(value, 800.0))
              && (EnvironmentEmoji(value, kind) == Glyph(Illuminance, Mid) <==> !AtLeast(value, 800.0) && AtLeast(value, 500.0))
              && (EnvironmentEmoji(value, kind) == Glyph(Illuminance, Low) <==> !AtLeast(value, 500.0))
    ensures kind == "ph" ==>
              (EnvironmentEmoji(value, kind) == Glyph(PH, High) <==> AtLeast(value, 6.5))
              && (EnvironmentEmoji(value, kind) == Glyph(PH, Mid) <==> !AtLeast(value, 6.5) && AtLeast(value, 6.0))
              && (EnvironmentEmoji(value, kind) == Glyph(PH, Low) <==> !AtLeast(value, 6.0))
  {
  }

  // ---------------------------------------------------------------- agreement

  /** The colour of a plain number in mode `m` (pH as a present value). */
  function NumberColor(m: Mode, x: real): Color
  {
    match m
    case Temperature => ColorByTemperature(x)
    case Humidity => ColorByHumidity(x)
    case Illuminance => ColorByIlluminance(x)
    case PH => ColorByPH(Some(x))
  }

  /** For temperature, humidity and illuminance the cube colour and the label
      emoji of a number always name the same tier. */
  lemma ColorAndEmojiAgree(m: Mode, x: real, t: Tier)
    requires m != PH
    ensures NumberColor(m, x) == Palette(m, t) <==> EnvironmentEmoji(Number(x), ModeName(m)) == Glyph(m, t)
  {
    EnvironmentEmojiTiers(Number(x), ModeName(m));
  }

  /** For pH the colour and the emoji name the same tier for every value except
      6.5, where the colour is Mid and the emoji High. */
  lemma PhColorAndEmojiDisagreeOnlyAt65(x: real)
    ensures (forall t :: NumberColor(PH, x) == Palette(PH, t) <==> EnvironmentEmoji(Number(x), "ph") == Glyph(PH, t))
            <==> x != 6.5
    ensures x == 6.5 ==> NumberColor(PH, x) == Palette(PH, Mid) && EnvironmentEmoji(Number(x), "ph") == Glyph(PH, High)
  {
    EnvironmentEmojiTiers(Number(x), "ph");
    if x == 6.5 {
      assert !(NumberColor(PH, x) == Palette(PH, High) <==> EnvironmentEmoji(Number(x), "ph") == Glyph(PH, High));
    }
  }
}

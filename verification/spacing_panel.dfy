/**
 * The spacing control panel: a spacing configuration edited through preset
 * buttons, sliders and numeric text fields, each edit saved at once.
 */
module SpacingPanel {
  import opened Options

  /** A spacing in dp; every value this panel writes is a whole number of dp. */
  type Dp = int

  /** `SpacingConfig`: 24 spacings, with the data class's defaults. */
  datatype SpacingConfig = SpacingConfig(
    defaultMarginHorizontal: Dp, defaultMarginVertical: Dp,
    defaultPaddingHorizontal: Dp, defaultPaddingVertical: Dp,
    gateMarginHorizontal: Dp, gateMarginVertical: Dp,
    gatePaddingHorizontal: Dp, gatePaddingVertical: Dp,
    cardMarginHorizontal: Dp, cardMarginVertical: Dp,
    cardPaddingHorizontal: Dp, cardPaddingVertical: Dp,
    headerMarginHorizontal: Dp, headerMarginVertical: Dp,
    headerPaddingHorizontal: Dp, headerPaddingVertical: Dp,
    quickSettingsTileMarginHorizontal: Dp, quickSettingsTileMarginVertical: Dp,
    quickSettingsTilePaddingHorizontal: Dp, quickSettingsTilePaddingVertical: Dp,
    statusBarElementMarginHorizontal: Dp, statusBarElementMarginVertical: Dp,
    statusBarElementPaddingHorizontal: Dp, statusBarElementPaddingVertical: Dp)

  /** `SpacingConfig()` with every argument left at its default. */
  const DefaultConfig := SpacingConfig(16, 16, 16, 16, 24, 12, 16, 8, 8, 8, 12, 12,
                                       16, 8, 16, 16, 4, 4, 8, 8, 8, 4, 4, 2)

  /** The four preset buttons. */
  datatype Preset = Compact | Default | Comfortable | Spacious

  /** `Presets.compact`, `Presets.default`, `Presets.comfortable`, `Presets.spacious`. */
  function PresetConfig(p: Preset): SpacingConfig {
    match p
    case Compact => SpacingConfig(8, 4, 8, 4, 12, 6, 8, 4, 4, 4, 6, 6, 8, 4, 8, 8, 2, 2, 4, 4, 4, 2, 2, 1)
    case Default => SpacingConfig(16, 16, 16, 16, 24, 12, 16, 8, 8, 8, 12, 12, 16, 8, 16, 16, 4, 4, 8, 8, 8, 4, 4, 2)
    case Comfortable => SpacingConfig(24, 12, 20, 10, 32, 16, 20, 10, 12, 10, 16, 14, 20, 10, 20, 20, 6, 6, 10, 10, 10, 6, 6, 3)
    case Spacious => SpacingConfig(32, 16, 24, 12, 40, 20, 24, 12, 16, 12, 20, 16, 24, 12, 24, 24, 8, 8, 12, 12, 12, 8, 8, 4)
  }

  /** The default preset is the data class's own defaults. */
  lemma DefaultPresetIsDefaults()
    ensures PresetConfig(Default) == DefaultConfig
  {
  }

  /** The eight fields that have a control on the panel. */
  datatype Field =
    | DefaultMarginH | DefaultMarginV | DefaultPaddingH | DefaultPaddingV
    | GateMarginH | GateMarginV | CardPaddingH | HeaderPaddingV

  /** The current value of a controlled field. */
  function Get(c: SpacingConfig, f: Field): Dp {
    match f
    case DefaultMarginH => c.defaultMarginHorizontal
    case DefaultMarginV => c.defaultMarginVertical
    case DefaultPaddingH => c.defaultPaddingHorizontal
    case DefaultPaddingV => c.defaultPaddingVertical
    case GateMarginH => c.gateMarginHorizontal
    case GateMarginV => c.gateMarginVertical
    case CardPaddingH => c.cardPaddingHorizontal
    case HeaderPaddingV => c.headerPaddingVertical
  }

  /** `spacing.copy(<field> = v)`, the update a control hands to `saveSpacing`. */
  function With(c: SpacingConfig, f: Field, v: Dp): (d: SpacingConfig)
    ensures Get(d, f) == v
    ensures forall g: Field | g != f :: Get(d, g) == Get(c, g)
  {
    match f
    case DefaultMarginH => c.(defaultMarginHorizontal := v)
    case DefaultMarginV => c.(defaultMarginVertical := v)
    case DefaultPaddingH => c.(defaultPaddingHorizontal := v)
    case DefaultPaddingV => c.(defaultPaddingVertical := v)
    case GateMarginH => c.(gateMarginHorizontal := v)
    case GateMarginV => c.(gateMarginVertical := v)
    case CardPaddingH => c.(cardPaddingHorizontal := v)
    case HeaderPaddingV => c.(headerPaddingVertical := v)
  }

  /** Writing back the old value restores the whole configuration: a copy touches no other field, controlled or not. */
  lemma WithTouchesOnlyItsField(c: SpacingConfig, f: Field, v: Dp)
    ensures With(With(c, f, v), f, Get(c, f)) == c
    ensures With(c, f, Get(c, f)) == c
  {
  }

  /** Two copies of different fields commute. */
  lemma WithCommutes(c: SpacingConfig, f: Field, g: Field, v: Dp, w: Dp)
    requires f != g
    ensures With(With(c, f, v), g, w) == With(With(c, g, w), f, v)
  {
  }

  /** Kotlin's `Int` range. */
  const IntMin: int := -0x8000_0000
  const IntMax: int := 0x7FFF_FFFF

  predicate IsDigit(c: char) {
    '0' <= c <= '9'
  }

  predicate AllDigits(s: string) {
    forall i | 0 <= i < |s| :: IsDigit(s[i])
  }

  /** The number a string of decimal digits spells. */
  function DigitsValue(s: string): (n: nat)
    requires AllDigits(s)
    decreases |s|
  {
    if s == [] then 0 else 10 * DigitsValue(s[..|s| - 1]) + (s[|s| - 1] as int - '0' as int)
  }

  /** `String.toIntOrNull()`: an optional sign and at least one decimal digit, whose value fits in an `Int`. */
  function ToIntOrNull(text: string): (r: Option<int>)
    ensures r.Some? ==> IntMin <= r.value <= IntMax
    ensures r.Some? ==> |text| > 0 && (IsDigit(text[0]) || text[0] == '-' || text[0] == '+')
    ensures r.Some? ==> Spells(text, r.value)
  {
    if |text| == 0 then None
    else
      var start := if text[0] == '-' || text[0] == '+' then 1 else 0;
      if start == |text| || !AllDigits(text[start..]) then None
      else
        var magnitude: int := DigitsValue(text[start..]);
        var v := if text[0] == '-' then -magnitude else magnitude;
        if IntMin <= v <= IntMax then Some(v) else None
  }

  /** The decimal digits of `n`, without leading zeros. */
  function NatDigits(n: nat): (s: string)
    ensures |s| > 0 && AllDigits(s)
    decreases n
  {
    if n < 10 then [('0' as int + n) as char]
    else NatDigits(n / 10) + [('0' as int + n % 10) as char]
  }

  /** `Int.toString()`. */
  function IntToString(n: int): (s: string)
    ensures |s| > 0
  {
    if n < 0 then "-" + NatDigits(-n) else NatDigits(n)
  }

  /** The digits of `n` spell `n`. */
  lemma {:induction false} NatDigitsRoundTrip(n: nat)
    ensures DigitsValue(NatDigits(n)) == n
    decreases n
  {
    if n >= 10 {
      NatDigitsRoundTrip(n / 10);
      var s := NatDigits(n);
      assert s[..|s| - 1] == NatDigits(n / 10);
    }
  }

  /** Parsing what `toString` prints gives back every `Int`. */
  lemma ParsePrintRoundTrip(n: int)
    requires IntMin <= n <= IntMax
    ensures ToIntOrNull(IntToString(n)) == Some(n)
  {
    var s := IntToString(n);
    if n < 0 {
      NatDigitsRoundTrip(-n);
      assert s[1..] == NatDigits(-n);
    } else {
      NatDigitsRoundTrip(n);
      assert s[0] != '-' && s[0] != '+';
      assert s[0..] == s;
    }
  }

  /**
   * `text` spells `v`: at least one decimal digit, after an optional `+` or `-`,
   * with the sign applied to the digits' value.
   */
  predicate Spells(text: string, v: int) {
    || (|text| > 0 && AllDigits(text) && v == DigitsValue(text))
    || (|text| > 1 && text[0] == '+' && AllDigits(text[1..]) && v == DigitsValue(text[1..]))
    || (|text| > 1 && text[0] == '-' && AllDigits(text[1..]) && -v == DigitsValue(text[1..]))
  }

  /** `toIntOrNull` gives `v` exactly when the text spells `v` and `v` fits in an `Int`; a negative result comes from a leading minus. */
  lemma ParsedIsSignedDigits(text: string, v: int)
    ensures ToIntOrNull(text) == Some(v) <==> Spells(text, v) && IntMin <= v <= IntMax
    ensures ToIntOrNull(text) == Some(v) && v < 0 ==> text[0] == '-'
  {
    if |text| > 0 && IsDigit(text[0]) {
      assert text[0..] == text;
    }
  }

  /** Text that is empty, a lone sign, or holds a character other than a digit after the sign, is not a number, and the field shows 0. */
  lemma NotANumber(text: string)
    requires
      || |text| == 0
      || text == "-" || text == "+"
      || (IsDigit(text[0]) && !AllDigits(text))
      || ((text[0] == '-' || text[0] == '+') && !AllDigits(text[1..]))
    ensures ToIntOrNull(text) == None
    ensures TextFieldValue(text) == 0
  {
    if |text| > 0 && IsDigit(text[0]) {
      assert text[0..] == text;
    }
  }

  /** `coerceIn(lo, hi)`. */
  function Clamp(v: int, lo: int, hi: int): (r: int)
    requires lo <= hi
    ensures lo <= r <= hi
    ensures lo <= v <= hi ==> r == v
    ensures v < lo ==> r == lo
    ensures v > hi ==> r == hi
  {
    if v < lo then lo else if v > hi then hi else v
  }

  /** The text field's result: the parsed number, 0 when it does not parse, forced into 0..32 dp. */
  function TextFieldValue(text: string): (d: Dp)
    ensures 0 <= d <= 32
    ensures ToIntOrNull(text).None? ==> d == 0
    ensures ToIntOrNull(text).Some? ==> d == Clamp(ToIntOrNull(text).value, 0, 32)
  {
    var parsed := ToIntOrNull(text);
    Clamp(if parsed.Some? then parsed.value else 0, 0, 32)
  }

  /** Every value the text field can hold is shown as text that re-parses to itself. */
  lemma TextFieldShowsItsValue(d: Dp)
    requires 0 <= d <= 32
    ensures TextFieldValue(IntToString(d)) == d
  {
    ParsePrintRoundTrip(d);
  }

  /** A number beyond the `Int` range, with or without a sign, does not parse, so the field falls back to 0, not 32 or 0 by clamping. */
  lemma HugeNumberFallsBackToZero(text: string)
    requires
      || (|text| > 0 && AllDigits(text) && DigitsValue(text) > IntMax)
      || (|text| > 1 && text[0] == '+' && AllDigits(text[1..]) && DigitsValue(text[1..]) > IntMax)
      || (|text| > 1 && text[0] == '-' && AllDigits(text[1..]) && DigitsValue(text[1..]) > -IntMin)
    ensures ToIntOrNull(text) == None
    ensures TextFieldValue(text) == 0
  {
    if IsDigit(text[0]) {
      assert text[0..] == text;
    }
  }

  /** `roundToInt()` on a slider position, rounding halves up. */
  function SliderValue(x: real): (d: Dp)
    requires 0.0 <= x <= 32.0
    ensures 0 <= d <= 32
    ensures x - 0.5 < d as real <= x + 0.5
  {
    (x + 0.5).Floor
  }

  /**
   * The panel's state: the configuration shown, the copy in preferences, and the
   * configurations handed to the optional change callback, oldest first.
   */
  class Panel {
    var spacing: SpacingConfig
    var persisted: SpacingConfig
    var delivered: seq<SpacingConfig>
    const hasCallback: bool

    /** What the panel shows is what preferences hold. */
    predicate Saved()
      reads this
    {
      spacing == persisted
    }

    /** The panel opens on the configuration read from preferences. */
    constructor (stored: SpacingConfig, hasCallback: bool)
      ensures spacing == stored && persisted == stored && delivered == []
      ensures this.hasCallback == hasCallback && Saved()
    {
      spacing := stored;
      persisted := stored;
      delivered := [];
      this.hasCallback := hasCallback;
    }

    /** `saveSpacing`: show, persist and forward the same configuration, unchanged. */
    method SaveSpacing(newConfig: SpacingConfig)
      modifies this
      ensures spacing == newConfig && persisted == newConfig && Saved()
      ensures delivered == old(delivered) + (if hasCallback then [newConfig] else [])
    {
      spacing := newConfig;
      persisted := newConfig;
      if hasCallback {
        delivered := delivered + [newConfig];
      }
    }

    /** A preset button: the preset is stored verbatim, with no clamping. */
    method ApplyPreset(p: Preset)
      modifies this
      ensures spacing == PresetConfig(p) && Saved()
      ensures delivered == old(delivered) + (if hasCallback then [PresetConfig(p)] else [])
    {
      SaveSpacing(PresetConfig(p));
    }

    /** Typing `text` into the field of `f`. */
    method EditText(f: Field, text: string)
      modifies this
      ensures spacing == With(old(spacing), f, TextFieldValue(text)) && Saved()
      ensures 0 <= Get(spacing, f) <= 32
      ensures delivered == old(delivered) + (if hasCallback then [spacing] else [])
    {
      SaveSpacing(With(spacing, f, TextFieldValue(text)));
    }

    /** Dragging the slider of `f` to position `x`. */
    method Slide(f: Field, x: real)
      requires 0.0 <= x <= 32.0
      modifies this
      ensures spacing == With(old(spacing), f, SliderValue(x)) && Saved()
      ensures 0 <= Get(spacing, f) <= 32
      ensures delivered == old(delivered) + (if hasCallback then [spacing] else [])
    {
      SaveSpacing(With(spacing, f, SliderValue(x)));
    }
  }

  /** The spacious preset puts 40 dp in the gate margin, a value no control on the panel can enter. */
  lemma SpaciousExceedsControls(text: string, x: real)
    requires 0.0 <= x <= 32.0
    ensures Get(PresetConfig(Spacious), GateMarginH) == 40
    ensures TextFieldValue(text) < 40 && SliderValue(x) < 40
  {
  }
}

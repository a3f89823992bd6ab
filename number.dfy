/** The integration's number entities: the pad hue (1..360) and a phone profile's mode (1..8).
    Both start at 1 and store the truncated value they are set to. */
module Number {
  import opened Host
  import opened ThemeConst
  import opened Switch

  /** Python's `int(x)` on a finite float: truncation toward zero. */
  function TruncToInt(value: real): (n: int)
    ensures 0.0 <= value ==> n as real <= value < n as real + 1.0
    ensures value < 0.0 ==> n as real - 1.0 < value <= n as real
  {
    if 0.0 <= value then value.Floor else -((-value).Floor)
  }

  /** A whole value is stored unchanged. */
  lemma TruncToIntWhole(k: int)
    ensures TruncToInt(k as real) == k
  {
  }

  /** Truncation is symmetric about zero, so that -2.5 is stored as -2 (flooring would give -3). */
  lemma TruncToIntOdd(value: real)
    ensures TruncToInt(-value) == -TruncToInt(value)
  {
  }

  /** A theme number: its entity id, its range and step, and its current value. */
  class ThemeNumber {
    const entityId: string
    const minValue: int
    const maxValue: int
    const step: int
    var nativeValue: int

    /** The pad's hue, slider 1..360. */
    constructor PadHue()
      ensures entityId == NUMBER_THEME_PAD_HUE
      ensures minValue == 1 && maxValue == 360 && step == 1 && nativeValue == 1
    {
      entityId := NUMBER_THEME_PAD_HUE;
      minValue, maxValue, step := 1, 360, 1;
      nativeValue := 1;
    }

    /** A phone profile's mode, slider 1..8, at the first free suffix of its prefix. */
    constructor PhoneMode(states: States)
      ensures IsProbedId(states, NUMBER_THEME_PHONE_MODE_PREFIX, entityId) && entityId !in states
      ensures minValue == 1 && maxValue == 8 && step == 1 && nativeValue == 1
    {
      var count := FirstFreeIndex(states, NUMBER_THEME_PHONE_MODE_PREFIX);
      entityId := NUMBER_THEME_PHONE_MODE_PREFIX + NatToDecimal(count);
      minValue, maxValue, step := 1, 8, 1;
      nativeValue := 1;
    }

    /** Stores the value truncated to an integer; the setter itself does not clamp to the range. */
    method SetNativeValue(value: real)
      modifies this
      ensures nativeValue == TruncToInt(value)
    {
      nativeValue := TruncToInt(value);
    }
  }

  /** The numbers created for a config entry: the hue number for a pad entry, one mode number for
      a phone entry, none otherwise. */
  method SetupNumbers(entry: ConfigEntry, states: States) returns (numbers: seq<ThemeNumber>)
    ensures IsPad(entry) ==> |numbers| == 1 && numbers[0].entityId == NUMBER_THEME_PAD_HUE && numbers[0].maxValue == 360
    ensures IsPhone(entry) ==>
      |numbers| == 1 && IsProbedId(states, NUMBER_THEME_PHONE_MODE_PREFIX, numbers[0].entityId) && numbers[0].maxValue == 8
    ensures !IsPad(entry) && !IsPhone(entry) ==> numbers == []
    ensures forall k :: 0 <= k < |numbers| ==> fresh(numbers[k]) && numbers[k].nativeValue == 1
  {
    if IsPad(entry) {
      var hue := new ThemeNumber.PadHue();
      numbers := [hue];
    } else if IsPhone(entry) {
      var mode := new ThemeNumber.PhoneMode(states);
      numbers := [mode];
    } else {
      numbers := [];
    }
  }
}

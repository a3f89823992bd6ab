/** The parts of the home-automation host that the integration reads and writes: the entity state
    store, config entries, the service writes the rules issue, and the decimal entity ids of phone
    profiles. */
module Host {
  import opened ThemeConst

  datatype Option<+T> = None | Some(value: T)

  /** A latitude or longitude attribute, passed through without interpretation. */
  type Coord = real

  /** One entity in the state store: its state string, the host's numeric reading of that string
      (`int(float(state))`, None when the string is not numeric) and its location attributes. */
  datatype EntityState = EntityState(
    state: string,
    number: Option<int>,
    latitude: Option<Coord>,
    longitude: Option<Coord>)

  /** A snapshot of the state store, keyed by entity id; an absent key is an entity that does not exist. */
  type States = map<string, EntityState>

  /** The data of a config entry; a missing key of the entry's data dictionary is None. */
  datatype EntryData = EntryData(integrationType: Option<string>, locationSourceId: Option<string>)

  datatype ConfigEntry = ConfigEntry(entryId: string, data: EntryData)

  predicate IsPad(e: ConfigEntry) { e.data.integrationType == Some(INTEGRATION_TYPE_PAD) }

  predicate IsPhone(e: ConfigEntry) { e.data.integrationType == Some(INTEGRATION_TYPE_PHONE) }

  /** A service call issued by a rule: `select.select_option` or `number.set_value`. */
  datatype Write =
    | SelectOption(entityId: string, option: string)
    | SetValue(entityId: string, value: int)

  // ---------------------------------------------------------------------------------------------
  // Decimal rendering of entity id suffixes

  function DigitChar(d: nat): (c: char)
    requires d < 10
    ensures '0' <= c <= '9'
  {
    (48 + d) as char
  }

  /** `str(n)` for a natural number: its shortest decimal spelling. */
  function NatToDecimal(n: nat): (s: string)
    ensures 1 <= |s|
    ensures forall k :: 0 <= k < |s| ==> '0' <= s[k] <= '9'
    ensures n < 10 <==> |s| == 1
  {
    if n < 10 then [DigitChar(n)] else NatToDecimal(n / 10) + [DigitChar(n % 10)]
  }

  /** `str(v)` for an integer, with a leading minus sign when negative. */
  function IntToDecimal(v: int): (s: string)
    ensures 1 <= |s|
    ensures v < 0 <==> s[0] == '-'
  {
    if v < 0 then "-" + NatToDecimal(-v) else NatToDecimal(v)
  }

  /** Different numbers have different decimal spellings. */
  lemma {:induction false} NatToDecimalInjective(a: nat, b: nat)
    requires NatToDecimal(a) == NatToDecimal(b)
    ensures a == b
  {
    if 10 <= a && 10 <= b {
      var sa, sb := NatToDecimal(a / 10), NatToDecimal(b / 10);
      assert sa + [DigitChar(a % 10)] == sb + [DigitChar(b % 10)];
      assert |sa| == |sb|;
      assert sa == (sa + [DigitChar(a % 10)])[..|sa|];
      assert sb == (sb + [DigitChar(b % 10)])[..|sb|];
      assert DigitChar(a % 10) == NatToDecimal(a)[|sa|] == NatToDecimal(b)[|sb|] == DigitChar(b % 10);
      NatToDecimalInjective(a / 10, b / 10);
    }
  }

  /** An id built from a prefix and an index determines the index. */
  lemma PrefixedIdInjective(prefix: string, a: nat, b: nat)
    requires prefix + NatToDecimal(a) == prefix + NatToDecimal(b)
    ensures a == b
  {
    assert NatToDecimal(a) == (prefix + NatToDecimal(a))[|prefix|..];
    assert NatToDecimal(b) == (prefix + NatToDecimal(b))[|prefix|..];
    NatToDecimalInjective(a, b);
  }

  function PhoneFullSwitchId(i: nat): string { SWITCH_THEME_PHONE_FULL_PREFIX + NatToDecimal(i) }

  function PhoneModeSwitchId(i: nat): string { SWITCH_THEME_PHONE_MODE_PREFIX + NatToDecimal(i) }

  function PhoneModeNumberId(i: nat): string { NUMBER_THEME_PHONE_MODE_PREFIX + NatToDecimal(i) }

  /** Phone mode number ids of different positions differ, and none of them is a switch id, the
      pad selector's id or the pad hue number's id. */
  lemma PhoneModeNumberIdDistinct(i: nat, j: nat)
    ensures PhoneModeNumberId(i) == PhoneModeNumberId(j) ==> i == j
    ensures PhoneModeNumberId(i) != PhoneModeSwitchId(j)
    ensures PhoneModeNumberId(i) != SWITCH_THEME_PAD_MODE && PhoneModeNumberId(i) != SWITCH_THEME_PAD_HUE
    ensures PhoneModeNumberId(i) != SELECT_THEME_PAD_MODE && PhoneModeNumberId(i) != NUMBER_THEME_PAD_HUE
  {
    if PhoneModeNumberId(i) == PhoneModeNumberId(j) {
      PrefixedIdInjective(NUMBER_THEME_PHONE_MODE_PREFIX, i, j);
    }
    assert PhoneModeNumberId(i)[0] == 'n' && PhoneModeSwitchId(j)[0] == 's';
    assert PhoneModeNumberId(i)[14] == 'h' && NUMBER_THEME_PAD_HUE[14] == 'a';
  }

  /** The pad selector's id is no phone entity's id. */
  lemma PadSelectIdNotPhone(j: nat)
    ensures SELECT_THEME_PAD_MODE != PhoneModeSwitchId(j) && SELECT_THEME_PAD_MODE != PhoneModeNumberId(j)
  {
    assert SELECT_THEME_PAD_MODE[1] == 'e' && PhoneModeSwitchId(j)[1] == 'w';
    assert PhoneModeNumberId(j)[0] == 'n';
  }

  // ---------------------------------------------------------------------------------------------
  // Delivery of service writes to the entities

  /** The host delivers a write to the entity it names, whose setter stores the value and publishes
      it as the entity's new state; a write to an entity that does not exist has no effect.  The
      selector's options are display words, so the published option has no numeric reading. */
  function ApplyWrite(states: States, w: Write): (r: States)
    ensures r.Keys == states.Keys
    ensures forall id :: id in states && id != w.entityId ==> r[id] == states[id]
    ensures forall id :: id in states ==>
      r[id].latitude == states[id].latitude && r[id].longitude == states[id].longitude
    ensures w.entityId in states && w.SetValue? ==> r[w.entityId].number == Some(w.value)
    ensures w.entityId in states && w.SelectOption? ==> r[w.entityId].state == w.option
  {
    if w.entityId !in states then states
    else
      var e := states[w.entityId];
      match w
      case SelectOption(_, option) => states[w.entityId := e.(state := option, number := None)]
      case SetValue(_, v) => states[w.entityId := e.(state := IntToDecimal(v), number := Some(v))]
  }

  /** Writes delivered in the order they were issued. */
  function ApplyWrites(states: States, ws: seq<Write>): (r: States)
    ensures r.Keys == states.Keys
    ensures forall id :: id in states ==>
      r[id].latitude == states[id].latitude && r[id].longitude == states[id].longitude
    decreases |ws|
  {
    if ws == [] then states else ApplyWrites(ApplyWrite(states, ws[0]), ws[1..])
  }

  /** Delivering one write. */
  lemma ApplyWritesSingle(states: States, w: Write)
    ensures ApplyWrites(states, [w]) == ApplyWrite(states, w)
  {
    assert [w][1..] == [];
  }

  /** Delivering two batches one after the other is delivering their concatenation. */
  lemma {:induction false} ApplyWritesAppend(states: States, a: seq<Write>, b: seq<Write>)
    ensures ApplyWrites(states, a + b) == ApplyWrites(ApplyWrites(states, a), b)
    decreases |a|
  {
    if a == [] {
      assert a + b == b;
    } else {
      assert (a + b)[0] == a[0] && (a + b)[1..] == a[1..] + b;
      assert ApplyWrites(states, a + b) == ApplyWrites(ApplyWrite(states, a[0]), a[1..] + b);
      ApplyWritesAppend(ApplyWrite(states, a[0]), a[1..], b);
    }
  }

  /** Regrouping batches of writes. */
  lemma WritesAssoc(a: seq<Write>, b: seq<Write>, c: seq<Write>)
    ensures a + (b + c) == (a + b) + c
  {
  }

  /** An entity no write names is left exactly as it was. */
  lemma {:induction false} ApplyWritesUntouched(states: States, ws: seq<Write>, id: string)
    requires id in states
    requires forall k :: 0 <= k < |ws| ==> ws[k].entityId != id
    ensures ApplyWrites(states, ws)[id] == states[id]
    decreases |ws|
  {
    if ws != [] {
      var next := ApplyWrite(states, ws[0]);
      assert next[id] == states[id];
      ApplyWritesUntouched(next, ws[1..], id);
    }
  }
}

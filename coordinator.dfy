/** The three theme rules run by the timers.  Each rule reads one snapshot of the state store and
    returns the service writes it issues, in order; the pure functions below are the reference each
    rule is proved against, and CoordinatorProperties proves what they promise. */
module Coordinator {
  import opened Host
  import opened ThemeConst
  import opened Utils

  /** Why a rule left a profile alone on this tick. */
  datatype SkipReason = NoPadEntry | EntityMissing | SwitchOff | NoLocation

  /** What a rule decides for one profile on one tick: skip it, keep its current value, write a new
      value, or raise (the numeric state did not parse), which the enclosing `try` catches. */
  datatype Outcome<T> = Skipped(reason: SkipReason) | Kept | Applied(target: T) | Raised

  // ---------------------------------------------------------------------------------------------
  // Hue rotation

  /** The next hue: one more, wrapping to 1 past 360. */
  function HueNext(current: int): (next: int)
    ensures next == current + 1 || next == 1
    ensures next == 1 <==> current + 1 > 360 || current == 0
    ensures current >= 0 ==> 1 <= next <= 360
  {
    if current + 1 > 360 then 1 else current + 1
  }

  /** The writes of one hue tick: none unless both hue entities exist and the hue switch is on;
      then the hue number's next value, or an exception if its state is not numeric. */
  function HueWrites(states: States): (ws: seq<Write>)
    ensures |ws| <= 1
    ensures ws != [] <==>
      SWITCH_THEME_PAD_HUE in states && NUMBER_THEME_PAD_HUE in states
      && states[SWITCH_THEME_PAD_HUE].state == STATE_ON && states[NUMBER_THEME_PAD_HUE].number.Some?
    ensures ws != [] ==> ws[0] == SetValue(NUMBER_THEME_PAD_HUE, HueNext(states[NUMBER_THEME_PAD_HUE].number.value))
  {
    if SWITCH_THEME_PAD_HUE !in states || NUMBER_THEME_PAD_HUE !in states then []
    else if states[SWITCH_THEME_PAD_HUE].state != STATE_ON then []
    else match states[NUMBER_THEME_PAD_HUE].number
      case None => []
      case Some(current) => [SetValue(NUMBER_THEME_PAD_HUE, HueNext(current))]
  }

  /** One run of the hue callback. */
  method UpdateHueLogic(states: States) returns (writes: seq<Write>)
    ensures writes == HueWrites(states)
    ensures writes != [] ==> writes == [SetValue(NUMBER_THEME_PAD_HUE, writes[0].value)]
    ensures writes != [] && states[NUMBER_THEME_PAD_HUE].number.value >= 0 ==> 1 <= writes[0].value <= 360
  {
    writes := [];
    if SWITCH_THEME_PAD_HUE !in states || NUMBER_THEME_PAD_HUE !in states {
      return;
    }
    var hueSwitch, hueNumber := states[SWITCH_THEME_PAD_HUE], states[NUMBER_THEME_PAD_HUE];
    if hueSwitch.state == STATE_ON {
      match hueNumber.number {
        case None =>
          // int(float(state)) raises; the callback's handler swallows it
        case Some(current) =>
          var newHue := current + 1;
          if newHue > 360 {
            newHue := 1;
          }
          writes := [SetValue(NUMBER_THEME_PAD_HUE, newHue)];
      }
    }
  }

  // ---------------------------------------------------------------------------------------------
  // Pad theme

  /** The first pad entry in entry order, if any. */
  function FirstPadEntry(entries: seq<ConfigEntry>): (r: Option<ConfigEntry>)
    ensures r.None? <==> forall k :: 0 <= k < |entries| ==> !IsPad(entries[k])
    ensures r.Some? ==> exists k :: (0 <= k < |entries| && entries[k] == r.value && IsPad(entries[k])
      && forall j :: 0 <= j < k ==> !IsPad(entries[j]))
  {
    if entries == [] then None
    else if IsPad(entries[0]) then Some(entries[0])
    else
      var r := FirstPadEntry(entries[1..]);
      assert forall k :: 1 <= k < |entries| ==> entries[k] == entries[1..][k - 1];
      r
  }

  /** The selector option that matches day or night. */
  function PadTarget(day: bool): string {
    if day then PAD_MODE_COLOR else PAD_MODE_BLACK
  }

  predicate PadEntitiesPresent(states: States) {
    && SWITCH_THEME_PAD_MODE in states && SELECT_THEME_PAD_MODE in states
    && SWITCH_THEME_PAD_HUE in states && NUMBER_THEME_PAD_HUE in states
  }

  /** The pad rule's decision: only the first pad entry counts; all four pad entities must exist,
      the mode switch must be on and the entry's location must resolve; then the selector is moved
      to the option of the current day/night state unless it is already there. */
  function PadOutcome(entries: seq<ConfigEntry>, states: States, oracle: SunOracle): Outcome<string> {
    match FirstPadEntry(entries)
    case None => Skipped(NoPadEntry)
    case Some(pad) =>
      if !PadEntitiesPresent(states) then Skipped(EntityMissing)
      else if states[SWITCH_THEME_PAD_MODE].state != STATE_ON then Skipped(SwitchOff)
      else
        var location := GetLocationFromEntity(states, pad.data.locationSourceId);
        if location.0.None? || location.1.None? then Skipped(NoLocation)
        else
          var target := PadTarget(IsDaytime(oracle, location.0.value, location.1.value));
          if states[SELECT_THEME_PAD_MODE].state == target then Kept else Applied(target)
  }

  function PadWrites(entries: seq<ConfigEntry>, states: States, oracle: SunOracle): (ws: seq<Write>)
    ensures |ws| <= 1
  {
    match PadOutcome(entries, states, oracle)
    case Applied(option) => [SelectOption(SELECT_THEME_PAD_MODE, option)]
    case _ => []
  }

  /** One run of the pad rule. */
  method UpdatePadThemeLogic(entries: seq<ConfigEntry>, states: States, oracle: SunOracle)
    returns (writes: seq<Write>)
    ensures writes == PadWrites(entries, states, oracle)
    ensures (forall k :: 0 <= k < |entries| ==> !IsPad(entries[k])) ==> writes == []
    ensures !PadEntitiesPresent(states) ==> writes == []
    ensures PadEntitiesPresent(states) && states[SWITCH_THEME_PAD_MODE].state != STATE_ON ==> writes == []
    ensures FirstPadEntry(entries).Some? ==>
      var location := GetLocationFromEntity(states, FirstPadEntry(entries).value.data.locationSourceId);
      location.0.None? || location.1.None? ==> writes == []
    ensures forall w :: w in writes ==>
      w.SelectOption? && w.entityId == SELECT_THEME_PAD_MODE && w.option in PAD_MODE_OPTIONS
      && w.option != states[SELECT_THEME_PAD_MODE].state
  {
    writes := [];
    var padEntry: Option<ConfigEntry> := None;
    var k := 0;
    while k < |entries|
      invariant 0 <= k <= |entries|
      invariant forall j :: 0 <= j < k ==> !IsPad(entries[j])
    {
      if IsPad(entries[k]) {
        padEntry := Some(entries[k]);
        break;
      }
      k := k + 1;
    }
    assert padEntry == FirstPadEntry(entries);
    if padEntry.None? {
      return;
    }
    if !(SWITCH_THEME_PAD_MODE in states && SELECT_THEME_PAD_MODE in states
         && SWITCH_THEME_PAD_HUE in states && NUMBER_THEME_PAD_HUE in states) {
      return;
    }
    var modeSwitch, modeSelect := states[SWITCH_THEME_PAD_MODE], states[SELECT_THEME_PAD_MODE];
    if modeSwitch.state == STATE_ON {
      var (latitude, longitude) := GetLocationFromEntity(states, padEntry.value.data.locationSourceId);
      if latitude.Some? && longitude.Some? {
        var isDay := IsDaytime(oracle, latitude.value, longitude.value);
        if isDay && modeSelect.state != PAD_MODE_COLOR {
          writes := [SelectOption(SELECT_THEME_PAD_MODE, PAD_MODE_COLOR)];
        } else if !isDay && modeSelect.state != PAD_MODE_BLACK {
          writes := [SelectOption(SELECT_THEME_PAD_MODE, PAD_MODE_BLACK)];
        }
      }
    }
  }

  // ---------------------------------------------------------------------------------------------
  // Phone theme

  /** The day variants of the four visual families. */
  predicate IsDayMode(mode: int) { mode == 1 || mode == 3 || mode == 5 || mode == 7 }

  /** The night variants of the four visual families. */
  predicate IsNightMode(mode: int) { mode == 2 || mode == 4 || mode == 6 || mode == 8 }

  /** The other member of a mode's pair (1,2), (3,4), (5,6), (7,8). */
  function Partner(mode: int): int {
    if IsDayMode(mode) then mode + 1 else mode - 1
  }

  /** The day variants are the odd modes of 1..8 and the night variants the even ones; partners
      swap the two and are each other's partner. */
  lemma ModeParity(mode: int)
    ensures IsDayMode(mode) <==> 1 <= mode <= 8 && mode % 2 == 1
    ensures IsNightMode(mode) <==> 1 <= mode <= 8 && mode % 2 == 0
    ensures IsDayMode(mode) ==> IsNightMode(Partner(mode)) && Partner(Partner(mode)) == mode
    ensures IsNightMode(mode) ==> IsDayMode(Partner(mode)) && Partner(Partner(mode)) == mode
  {
  }

  /** The phone mode table: by day a night mode moves to its day partner, by night a day mode
      moves to its night partner; every other value, including values outside 1..8, has no
      transition. */
  function PhoneTransition(mode: int, day: bool): (r: Option<int>)
    ensures r.Some? <==> (if day then IsNightMode(mode) else IsDayMode(mode))
    ensures r.Some? ==> r.value == Partner(mode) && 1 <= r.value <= 8
  {
    if day && IsNightMode(mode) then Some(mode - 1)
    else if !day && IsDayMode(mode) then Some(mode + 1)
    else None
  }

  /** A transition never leaves the mode's pair (1,2), (3,4), (5,6) or (7,8), and lands on the
      odd ("day") member by day and on the even ("night") member by night. */
  lemma PhoneTransitionStaysInPair(mode: int, day: bool)
    requires PhoneTransition(mode, day).Some?
    ensures var next := PhoneTransition(mode, day).value;
      (next + 1) / 2 == (mode + 1) / 2 && (day <==> next % 2 == 1)
  {
  }

  /** Applying the table twice is applying it once: the mode it lands on has no transition. */
  lemma PhoneTransitionSettles(mode: int, day: bool)
    requires PhoneTransition(mode, day).Some?
    ensures PhoneTransition(PhoneTransition(mode, day).value, day).None?
  {
  }

  /** The decision for the phone profile at 1-based position `i`: its switch and number are the
      ones suffixed with `i`. */
  function ProfileStep(states: States, oracle: SunOracle, i: nat, entry: ConfigEntry): Outcome<int> {
    var switchId, numberId := PhoneModeSwitchId(i), PhoneModeNumberId(i);
    if switchId !in states || numberId !in states then Skipped(EntityMissing)
    else if states[switchId].state != STATE_ON then Skipped(SwitchOff)
    else
      var location := GetLocationFromEntity(states, entry.data.locationSourceId);
      if location.0.None? || location.1.None? then Skipped(NoLocation)
      else
        var day := IsDaytime(oracle, location.0.value, location.1.value);
        match states[numberId].number
        case None => Raised
        case Some(mode) =>
          match PhoneTransition(mode, day)
          case None => Kept
          case Some(next) => Applied(next)
  }

  /** The write a profile's outcome contributes: one `number.set_value` when a transition applies. */
  function StepWrites(o: Outcome<int>, numberId: string): (ws: seq<Write>)
    ensures |ws| <= 1
    ensures ws != [] <==> o.Applied?
  {
    if o.Applied? then [SetValue(numberId, o.target)] else []
  }

  /** The writes for the phone profiles `phones`, the first of which sits at position `i`.  A
      raise ends the whole loop, so the profiles after it are not visited. */
  function PhoneRun(states: States, oracle: SunOracle, phones: seq<ConfigEntry>, i: nat): seq<Write>
    decreases |phones|
  {
    if phones == [] then []
    else
      var o := ProfileStep(states, oracle, i, phones[0]);
      if o.Raised? then []
      else StepWrites(o, PhoneModeNumberId(i)) + PhoneRun(states, oracle, phones[1..], i + 1)
  }

  /** The phone entries, in entry order: exactly the entries of phone type. */
  function PhoneEntries(entries: seq<ConfigEntry>): (r: seq<ConfigEntry>)
    ensures |r| <= |entries|
    ensures forall e :: e in r <==> e in entries && IsPhone(e)
  {
    if entries == [] then []
    else
      var init := PhoneEntries(entries[..|entries| - 1]);
      var last := entries[|entries| - 1];
      assert entries == entries[..|entries| - 1] + [last];
      if IsPhone(last) then init + [last] else init
  }

  /** The filter keeps entry order: a lone entry is kept exactly when it is a phone entry, and
      filtering a concatenation concatenates the filtered parts. */
  lemma {:induction false} PhoneEntriesAppend(a: seq<ConfigEntry>, b: seq<ConfigEntry>)
    ensures PhoneEntries(a + b) == PhoneEntries(a) + PhoneEntries(b)
    ensures |b| == 1 ==> PhoneEntries(b) == if IsPhone(b[0]) then b else []
    decreases |b|
  {
    if b == [] {
      assert a + b == a;
    } else {
      var init, last := b[..|b| - 1], b[|b| - 1];
      assert (a + b)[..|a + b| - 1] == a + init;
      assert (a + b)[|a + b| - 1] == last;
      PhoneEntriesAppend(a, init);
      var kept := if IsPhone(last) then [last] else [];
      assert PhoneEntries(b) == PhoneEntries(init) + kept;
      assert PhoneEntries(a + b) == (PhoneEntries(a) + PhoneEntries(init)) + kept;
      if |b| == 1 {
        assert init == [];
      }
    }
  }

  function PhoneWrites(entries: seq<ConfigEntry>, states: States, oracle: SunOracle): seq<Write> {
    PhoneRun(states, oracle, PhoneEntries(entries), 1)
  }

  /** The body of the phone loop for the profile at position `i`: its writes, and whether parsing
      its mode state raised. */
  method UpdatePhoneProfile(states: States, oracle: SunOracle, i: nat, entry: ConfigEntry)
    returns (writes: seq<Write>, raised: bool)
    ensures raised <==> ProfileStep(states, oracle, i, entry).Raised?
    ensures writes == StepWrites(ProfileStep(states, oracle, i, entry), PhoneModeNumberId(i))
  {
    writes, raised := [], false;
    var modeSwitchId, modeNumberId := PhoneModeSwitchId(i), PhoneModeNumberId(i);
    if modeSwitchId !in states || modeNumberId !in states {
      return;
    }
    var modeSwitch, modeNumber := states[modeSwitchId], states[modeNumberId];
    if modeSwitch.state == STATE_ON {
      var (latitude, longitude) := GetLocationFromEntity(states, entry.data.locationSourceId);
      if latitude.Some? && longitude.Some? {
        var isDay := IsDaytime(oracle, latitude.value, longitude.value);
        match modeNumber.number {
          case None =>
            // int(float(state)) raises
            raised := true;
          case Some(currentMode) =>
            if isDay {
              if currentMode == 2 {
                writes := [SetValue(modeNumberId, 1)];
              } else if currentMode == 4 {
                writes := [SetValue(modeNumberId, 3)];
              } else if currentMode == 6 {
                writes := [SetValue(modeNumberId, 5)];
              } else if currentMode == 8 {
                writes := [SetValue(modeNumberId, 7)];
              }
            } else {
              if currentMode == 1 {
                writes := [SetValue(modeNumberId, 2)];
              } else if currentMode == 3 {
                writes := [SetValue(modeNumberId, 4)];
              } else if currentMode == 5 {
                writes := [SetValue(modeNumberId, 6)];
              } else if currentMode == 7 {
                writes := [SetValue(modeNumberId, 8)];
              }
            }
        }
      }
    }
  }

  /** The loop that gathers the phone entries by appending. */
  method CollectPhoneEntries(entries: seq<ConfigEntry>) returns (phoneEntries: seq<ConfigEntry>)
    ensures phoneEntries == PhoneEntries(entries)
  {
    phoneEntries := [];
    var k := 0;
    while k < |entries|
      invariant 0 <= k <= |entries|
      invariant phoneEntries == PhoneEntries(entries[..k])
    {
      assert entries[..k + 1][..k] == entries[..k];
      if IsPhone(entries[k]) {
        phoneEntries := phoneEntries + [entries[k]];
      }
      k := k + 1;
    }
    assert entries[..|entries|] == entries;
  }

  /** One run of the phone rule: collect the phone entries, then visit them by 1-based position;
      one `try` encloses the whole loop, so a raise ends it. */
  method UpdatePhoneThemeLogic(entries: seq<ConfigEntry>, states: States, oracle: SunOracle)
    returns (writes: seq<Write>)
    ensures writes == PhoneWrites(entries, states, oracle)
  {
    var phoneEntries := CollectPhoneEntries(entries);
    writes := [];
    if phoneEntries == [] {
      return;
    }
    writes := VisitPhoneProfiles(states, oracle, phoneEntries);
  }

  /** The loop over the phone entries by 1-based position, inside the `try`: a raise ends it. */
  method VisitPhoneProfiles(states: States, oracle: SunOracle, phones: seq<ConfigEntry>)
    returns (writes: seq<Write>)
    ensures writes == PhoneRun(states, oracle, phones, 1)
  {
    writes := [];
    var i, rest := 1, phones;
    while rest != []
      invariant i == |phones| - |rest| + 1
      invariant writes + PhoneRun(states, oracle, rest, i) == PhoneRun(states, oracle, phones, 1)
      decreases |rest|
    {
      var profileWrites, raised := UpdatePhoneProfile(states, oracle, i, rest[0]);
      if raised {
        // the handler around the whole loop catches the exception
        assert writes + [] == writes;
        break;
      }
      ghost var later := PhoneRun(states, oracle, rest[1..], i + 1);
      WritesAssoc(writes, profileWrites, later);
      writes := writes + profileWrites;
      i, rest := i + 1, rest[1..];
    }
    assert rest == [] ==> writes + PhoneRun(states, oracle, rest, i) == writes;
  }

  /** One unfolding of PhoneRun. */
  lemma PhoneRunStep(states: States, oracle: SunOracle, phones: seq<ConfigEntry>, i: nat)
    requires phones != []
    ensures var o := ProfileStep(states, oracle, i, phones[0]);
      PhoneRun(states, oracle, phones, i)
      == if o.Raised? then [] else StepWrites(o, PhoneModeNumberId(i)) + PhoneRun(states, oracle, phones[1..], i + 1)
  {
  }

  // ---------------------------------------------------------------------------------------------
  // The theme callback

  /** One run of the theme callback: the pad rule, then the phone rule, against the same
      snapshot (each rule catches its own exceptions).  Each service write is awaited, but whether
      it has reached the state store before the next read is up to the host;
      `LiveRunIsSnapshotRun` shows that reading the store after each delivered write gives the
      same writes as reading this one snapshot. */
  method UpdateThemeLogic(entries: seq<ConfigEntry>, states: States, oracle: SunOracle)
    returns (writes: seq<Write>)
    ensures writes == PadWrites(entries, states, oracle) + PhoneWrites(entries, states, oracle)
  {
    var padWrites := UpdatePadThemeLogic(entries, states, oracle);
    var phoneWrites := UpdatePhoneThemeLogic(entries, states, oracle);
    writes := padWrites + phoneWrites;
  }
}

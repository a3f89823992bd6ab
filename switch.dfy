/** The integration's switches: enable flags that start on, restore their last published state,
    and, for phone profiles, take the first free numeric suffix as their entity id. */
module Switch {
  import opened Host
  import opened ThemeConst

  // ---------------------------------------------------------------------------------------------
  // Probing for the first free suffix

  /** `n` is the least index from 1 whose id `prefix + n` does not exist. */
  ghost predicate IsFirstFree(states: States, prefix: string, n: nat) {
    && 1 <= n
    && prefix + NatToDecimal(n) !in states
    && forall j :: 1 <= j < n ==> prefix + NatToDecimal(j) in states
  }

  /** An id that the suffix probe can return for `prefix`. */
  ghost predicate IsProbedId(states: States, prefix: string, id: string) {
    exists n :: IsFirstFree(states, prefix, n) && id == prefix + NatToDecimal(n)
  }

  /** The first free index is unique: the probe's answer is determined by the states. */
  lemma FirstFreeUnique(states: States, prefix: string, n: nat, m: nat)
    requires IsFirstFree(states, prefix, n) && IsFirstFree(states, prefix, m)
    ensures n == m
  {
  }

  /** The ids `prefix + 1` .. `prefix + n`. */
  ghost function ProbedIds(prefix: string, n: nat): set<string> {
    if n == 0 then {} else ProbedIds(prefix, n - 1) + {prefix + NatToDecimal(n)}
  }

  /** Different indices give different ids. */
  lemma PrefixedIdsDiffer(prefix: string, a: nat, b: nat)
    ensures prefix + NatToDecimal(a) == prefix + NatToDecimal(b) ==> a == b
  {
    if prefix + NatToDecimal(a) == prefix + NatToDecimal(b) {
      PrefixedIdInjective(prefix, a, b);
    }
  }

  /** The id for index `n` is none of the ids for the indices below it. */
  lemma {:induction false} NotProbedYet(prefix: string, n: nat, m: nat)
    requires m < n
    ensures prefix + NatToDecimal(n) !in ProbedIds(prefix, m)
  {
    if m > 0 {
      NotProbedYet(prefix, n, m - 1);
      PrefixedIdsDiffer(prefix, n, m);
    }
  }

  /** The ids `prefix + 1` .. `prefix + n` are `n` different ids. */
  lemma {:induction false} ProbedIdsSize(prefix: string, n: nat)
    ensures |ProbedIds(prefix, n)| == n
  {
    if n > 0 {
      ProbedIdsSize(prefix, n - 1);
      NotProbedYet(prefix, n, n - 1);
    }
  }

  /** A subset of a finite set is no larger than it. */
  lemma SubsetSize<T>(a: set<T>, b: set<T>)
    requires a <= b
    ensures |a| <= |b|
  {
    assert b == a + (b - a);
    assert a * (b - a) == {};
  }

  /** Counts up from 1 while `prefix + count` exists.  Every probed id that exists is a different
      key of the finite state store, so the loop ends after at most as many steps as there are
      entities. */
  method FirstFreeIndex(states: States, prefix: string) returns (count: nat)
    ensures IsFirstFree(states, prefix, count)
    ensures count <= |states| + 1
  {
    count := 1;
    while prefix + NatToDecimal(count) in states
      invariant 1 <= count
      invariant ProbedIds(prefix, count - 1) <= states.Keys
      invariant forall j :: 1 <= j < count ==> prefix + NatToDecimal(j) in states
      invariant count - 1 <= |states.Keys|
      decreases |states.Keys| - (count - 1)
    {
      ProbedIdsSize(prefix, count);
      SubsetSize(ProbedIds(prefix, count), states.Keys);
      count := count + 1;
    }
    assert |states.Keys| == |states|;
  }

  // ---------------------------------------------------------------------------------------------
  // The switch entity

  /** The state string the host publishes for a switch. */
  function PublishedState(isOn: bool): (s: string)
    ensures s == STATE_ON <==> isOn
  {
    if isOn then STATE_ON else "off"
  }

  /** The on/off flag after restoring: a last state that exists decides it (on exactly when it is
      "on"); without one the flag keeps its current value. */
  function RestoredIsOn(lastState: Option<string>, current: bool): (isOn: bool)
    ensures lastState.None? ==> isOn == current
    ensures lastState.Some? ==> (isOn <==> lastState.value == STATE_ON)
  {
    match lastState
    case None => current
    case Some(s) => s == STATE_ON
  }

  /** Restoring from the state a switch published gives back its flag, whatever the flag of the
      new switch was. */
  lemma RestorePublishedRoundTrip(isOn: bool, current: bool)
    ensures RestoredIsOn(Some(PublishedState(isOn)), current) == isOn
  {
  }

  /** Restoring twice from the same last state is restoring once. */
  lemma RestoreIdempotent(lastState: Option<string>, current: bool)
    ensures RestoredIsOn(lastState, RestoredIsOn(lastState, current)) == RestoredIsOn(lastState, current)
  {
  }

  /** A theme switch: a fixed entity id and an on/off flag, which starts on. */
  class ThemeSwitch {
    const entityId: string
    var isOn: bool

    /** The pad's full-screen switch. */
    constructor PadFull()
      ensures entityId == SWITCH_THEME_PAD_FULL && isOn
    {
      entityId := SWITCH_THEME_PAD_FULL;
      isOn := true;
    }

    /** The switch enabling the pad's mode rule. */
    constructor PadMode()
      ensures entityId == SWITCH_THEME_PAD_MODE && isOn
    {
      entityId := SWITCH_THEME_PAD_MODE;
      isOn := true;
    }

    /** The switch enabling the pad's hue rule. */
    constructor PadHue()
      ensures entityId == SWITCH_THEME_PAD_HUE && isOn
    {
      entityId := SWITCH_THEME_PAD_HUE;
      isOn := true;
    }

    /** A phone profile's full-screen switch, at the first free suffix of its prefix. */
    constructor PhoneFull(states: States)
      ensures IsProbedId(states, SWITCH_THEME_PHONE_FULL_PREFIX, entityId) && isOn
      ensures entityId !in states
    {
      var count := FirstFreeIndex(states, SWITCH_THEME_PHONE_FULL_PREFIX);
      entityId := SWITCH_THEME_PHONE_FULL_PREFIX + NatToDecimal(count);
      isOn := true;
    }

    /** A phone profile's mode-enable switch, at the first free suffix of its prefix. */
    constructor PhoneMode(states: States)
      ensures IsProbedId(states, SWITCH_THEME_PHONE_MODE_PREFIX, entityId) && isOn
      ensures entityId !in states
    {
      var count := FirstFreeIndex(states, SWITCH_THEME_PHONE_MODE_PREFIX);
      entityId := SWITCH_THEME_PHONE_MODE_PREFIX + NatToDecimal(count);
      isOn := true;
    }

    /** The state the host publishes for this switch. */
    function State(): (s: string)
      reads this
      ensures s == STATE_ON <==> isOn
    {
      PublishedState(isOn)
    }

    /** Called when the entity is added: takes the flag from the last stored state, if any. */
    method Restore(lastState: Option<string>)
      modifies this
      ensures isOn == RestoredIsOn(lastState, old(isOn))
    {
      if lastState.Some? {
        isOn := lastState.value == STATE_ON;
      }
    }

    method TurnOn()
      modifies this
      ensures isOn
    {
      isOn := true;
    }

    method TurnOff()
      modifies this
      ensures !isOn
    {
      isOn := false;
    }
  }

  /** The switches created for a config entry: the three pad switches for a pad entry, the two
      phone switches for a phone entry, none otherwise.  Both phone switches probe the same
      snapshot, since neither is added before both are built. */
  method SetupSwitches(entry: ConfigEntry, states: States) returns (switches: seq<ThemeSwitch>)
    ensures IsPad(entry) ==>
      && |switches| == 3
      && switches[0].entityId == SWITCH_THEME_PAD_FULL
      && switches[1].entityId == SWITCH_THEME_PAD_MODE
      && switches[2].entityId == SWITCH_THEME_PAD_HUE
    ensures IsPhone(entry) ==>
      && |switches| == 2
      && IsProbedId(states, SWITCH_THEME_PHONE_FULL_PREFIX, switches[0].entityId)
      && IsProbedId(states, SWITCH_THEME_PHONE_MODE_PREFIX, switches[1].entityId)
    ensures !IsPad(entry) && !IsPhone(entry) ==> switches == []
    ensures forall k :: 0 <= k < |switches| ==> fresh(switches[k]) && switches[k].isOn
  {
    if IsPad(entry) {
      var full := new ThemeSwitch.PadFull();
      var mode := new ThemeSwitch.PadMode();
      var hue := new ThemeSwitch.PadHue();
      switches := [full, mode, hue];
    } else if IsPhone(entry) {
      var full := new ThemeSwitch.PhoneFull(states);
      var mode := new ThemeSwitch.PhoneMode(states);
      switches := [full, mode];
    } else {
      switches := [];
    }
  }
}

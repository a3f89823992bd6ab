/** What the three theme rules promise across calls and ticks: the hue cycle, the pad rule's use of
    the first pad entry, the day/night target it establishes and its idempotence, and for the phone
    rule the pair partner it writes, one write per profile, per-profile isolation of skips, the
    abort after a raise, and idempotence of a theme tick once its writes are delivered. */
module CoordinatorProperties {
  import opened Host
  import opened ThemeConst
  import opened Utils
  import opened Coordinator

  // ---------------------------------------------------------------------------------------------
  // Hue

  /** The hue after `k` minute ticks. */
  function HueAfter(hue: int, k: nat): int
    decreases k
  {
    if k == 0 then hue else HueAfter(HueNext(hue), k - 1)
  }

  /** From a hue in 1..360, `k` ticks move it `k` places round the colour wheel. */
  lemma {:induction false} HueAfterRotates(hue: int, k: nat)
    requires 1 <= hue <= 360
    ensures HueAfter(hue, k) == (hue - 1 + k) % 360 + 1
    decreases k
  {
    if k > 0 {
      var next := HueNext(hue);
      assert next == hue % 360 + 1;
      HueAfterRotates(next, k - 1);
      assert (next - 1 + (k - 1)) % 360 == (hue % 360 + k - 1) % 360 == (hue - 1 + k) % 360;
    }
  }

  /** A hue in 1..360 comes back to itself exactly after whole turns of 360 ticks; in particular
      360 ticks from 1 return to 1. */
  lemma HueFullCycle(hue: int, k: nat)
    requires 1 <= hue <= 360
    ensures HueAfter(hue, k) == hue <==> k % 360 == 0
  {
    HueAfterRotates(hue, k);
    assert (hue - 1 + k) % 360 == ((hue - 1) + k % 360) % 360;
  }

  /** The state store after `k` hue ticks whose writes are each delivered before the next tick. */
  function HueTicks(states: States, k: nat): States
    decreases k
  {
    if k == 0 then states else HueTicks(ApplyWrites(states, HueWrites(states)), k - 1)
  }

  /** While the hue switch stays on and the hue number is numeric, delivered ticks advance the
      hue number exactly as HueAfter does and touch no other entity. */
  lemma {:induction false} HueTicksFollowHueAfter(states: States, k: nat)
    requires SWITCH_THEME_PAD_HUE in states && states[SWITCH_THEME_PAD_HUE].state == STATE_ON
    requires NUMBER_THEME_PAD_HUE in states && states[NUMBER_THEME_PAD_HUE].number.Some?
    ensures HueTicks(states, k).Keys == states.Keys
    ensures HueTicks(states, k)[NUMBER_THEME_PAD_HUE].number == Some(HueAfter(states[NUMBER_THEME_PAD_HUE].number.value, k))
    ensures forall id :: id in states && id != NUMBER_THEME_PAD_HUE ==> HueTicks(states, k)[id] == states[id]
    decreases k
  {
    if k > 0 {
      var ws := HueWrites(states);
      var hue := states[NUMBER_THEME_PAD_HUE].number.value;
      assert ws == [SetValue(NUMBER_THEME_PAD_HUE, HueNext(hue))];
      var next := ApplyWrites(states, ws);
      ApplyWritesSingle(states, ws[0]);
      HueTicksFollowHueAfter(next, k - 1);
    }
  }

  /** With the hue switch on, delivered ticks return a hue in 1..360 to its value exactly after
      whole turns of 360 ticks. */
  lemma HueTicksCycle(states: States, k: nat)
    requires SWITCH_THEME_PAD_HUE in states && states[SWITCH_THEME_PAD_HUE].state == STATE_ON
    requires NUMBER_THEME_PAD_HUE in states && states[NUMBER_THEME_PAD_HUE].number.Some?
    requires 1 <= states[NUMBER_THEME_PAD_HUE].number.value <= 360
    ensures NUMBER_THEME_PAD_HUE in HueTicks(states, k)
    ensures HueTicks(states, k)[NUMBER_THEME_PAD_HUE].number == states[NUMBER_THEME_PAD_HUE].number <==> k % 360 == 0
  {
    HueTicksFollowHueAfter(states, k);
    HueFullCycle(states[NUMBER_THEME_PAD_HUE].number.value, k);
  }

  // ---------------------------------------------------------------------------------------------
  // Pad

  /** Only the first pad entry in entry order is consulted: whatever follows it is irrelevant. */
  lemma PadUsesFirstPadEntryOnly(pre: seq<ConfigEntry>, pad: ConfigEntry, post: seq<ConfigEntry>,
                                 states: States, oracle: SunOracle)
    requires forall k :: 0 <= k < |pre| ==> !IsPad(pre[k])
    requires IsPad(pad)
    ensures PadWrites(pre + [pad] + post, states, oracle) == PadWrites([pad], states, oracle)
  {
    var entries := pre + [pad] + post;
    assert entries[|pre|] == pad;
    var first := FirstPadEntry(entries);
    var k :| 0 <= k < |entries| && entries[k] == first.value && IsPad(entries[k])
      && forall j :: 0 <= j < k ==> !IsPad(entries[j]);
    assert forall j :: 0 <= j < |pre| ==> entries[j] == pre[j];
    assert first == Some(pad);
  }

  /** The pad outcome depends only on which entities exist, their location attributes and the four
      pad entities. */
  lemma PadOutcomeFrame(entries: seq<ConfigEntry>, s: States, t: States, oracle: SunOracle)
    requires s.Keys == t.Keys
    requires forall id :: id in s ==> s[id].latitude == t[id].latitude && s[id].longitude == t[id].longitude
    requires forall id :: id in s && id in {SWITCH_THEME_PAD_MODE, SELECT_THEME_PAD_MODE} ==> s[id] == t[id]
    ensures PadOutcome(entries, s, oracle) == PadOutcome(entries, t, oracle)
  {
    if FirstPadEntry(entries).Some? {
      LocationIgnoresStates(s, t, FirstPadEntry(entries).value.data.locationSourceId);
    }
  }

  /** Once gated through, the pad rule leaves the selector on the option of the current day/night
      state, and writes exactly when the selector was not already on it. */
  lemma PadReachesDayNightOption(entries: seq<ConfigEntry>, states: States, oracle: SunOracle,
                                 latitude: Coord, longitude: Coord)
    requires FirstPadEntry(entries).Some?
    requires PadEntitiesPresent(states) && states[SWITCH_THEME_PAD_MODE].state == STATE_ON
    requires GetLocationFromEntity(states, FirstPadEntry(entries).value.data.locationSourceId)
             == (Some(latitude), Some(longitude))
    ensures var target := if IsDaytime(oracle, latitude, longitude) then PAD_MODE_COLOR else PAD_MODE_BLACK;
      && ApplyWrites(states, PadWrites(entries, states, oracle))[SELECT_THEME_PAD_MODE].state == target
      && (PadWrites(entries, states, oracle) == [] <==> states[SELECT_THEME_PAD_MODE].state == target)
  {
    var ws := PadWrites(entries, states, oracle);
    if ws != [] {
      ApplyWritesSingle(states, ws[0]);
    }
  }

  /** Delivering the pad rule's write and running it again writes nothing. */
  lemma PadIdempotent(entries: seq<ConfigEntry>, states: States, oracle: SunOracle)
    ensures PadWrites(entries, ApplyWrites(states, PadWrites(entries, states, oracle)), oracle) == []
  {
    var ws := PadWrites(entries, states, oracle);
    var after := ApplyWrites(states, ws);
    if ws != [] {
      ApplyWritesSingle(states, ws[0]);
      var pad := FirstPadEntry(entries).value;
      LocationIgnoresStates(states, after, pad.data.locationSourceId);
      assert after[SWITCH_THEME_PAD_MODE] == states[SWITCH_THEME_PAD_MODE];
      assert PadOutcome(entries, after, oracle) == Kept;
    }
  }

  // ---------------------------------------------------------------------------------------------
  // Phone

  /** What an applied step found: the profile's number exists with a numeric value, and the mode
      written is that value's pair partner, inside 1..8. */
  lemma ProfileStepApplied(states: States, oracle: SunOracle, i: nat, e: ConfigEntry)
    requires ProfileStep(states, oracle, i, e).Applied?
    ensures PhoneModeNumberId(i) in states && states[PhoneModeNumberId(i)].number.Some?
    ensures var n := ProfileStep(states, oracle, i, e).target;
      n == Partner(states[PhoneModeNumberId(i)].number.value) && 1 <= n <= 8
  {
  }

  /** Every write is a `number.set_value` on the mode number of some position in `lo..hi-1`. */
  ghost predicate TargetsIn(ws: seq<Write>, lo: nat, hi: nat) {
    forall k :: 0 <= k < |ws| ==>
      ws[k].SetValue? && exists j :: lo <= j < hi && ws[k].entityId == PhoneModeNumberId(j)
  }

  /** Every write sets an existing numeric entity to the pair partner of its value, inside 1..8. */
  ghost predicate PartnerWrites(states: States, ws: seq<Write>) {
    forall k :: 0 <= k < |ws| ==>
      && ws[k].SetValue?
      && ws[k].entityId in states && states[ws[k].entityId].number.Some?
      && ws[k].value == Partner(states[ws[k].entityId].number.value)
      && 1 <= ws[k].value <= 8
  }

  /** No two writes name the same entity. */
  ghost predicate DistinctTargets(ws: seq<Write>) {
    forall k1, k2 :: 0 <= k1 < k2 < |ws| ==> ws[k1].entityId != ws[k2].entityId
  }

  /** The phone loop writes at most once per visited profile, and only to the mode numbers of the
      visited positions. */
  lemma {:induction false} PhoneRunTargets(states: States, oracle: SunOracle, phones: seq<ConfigEntry>, i: nat)
    ensures |PhoneRun(states, oracle, phones, i)| <= |phones|
    ensures TargetsIn(PhoneRun(states, oracle, phones, i), i, i + |phones|)
    decreases |phones|
  {
    if phones != [] {
      PhoneRunStep(states, oracle, phones, i);
      var o := ProfileStep(states, oracle, i, phones[0]);
      if !o.Raised? {
        var head, tail := StepWrites(o, PhoneModeNumberId(i)), PhoneRun(states, oracle, phones[1..], i + 1);
        PhoneRunTargets(states, oracle, phones[1..], i + 1);
        var ws := head + tail;
        forall k | 0 <= k < |ws|
          ensures ws[k].SetValue? && exists j :: i <= j < i + |phones| && ws[k].entityId == PhoneModeNumberId(j)
        {
          if k < |head| {
            assert ws[k].entityId == PhoneModeNumberId(i);
          } else {
            assert ws[k] == tail[k - |head|];
          }
        }
      }
    }
  }

  /** Every phone write carries the pair partner of the mode it found, inside 1..8. */
  lemma {:induction false} PhoneRunPartners(states: States, oracle: SunOracle, phones: seq<ConfigEntry>, i: nat)
    ensures PartnerWrites(states, PhoneRun(states, oracle, phones, i))
    decreases |phones|
  {
    if phones != [] {
      PhoneRunStep(states, oracle, phones, i);
      var o := ProfileStep(states, oracle, i, phones[0]);
      if !o.Raised? {
        var head, tail := StepWrites(o, PhoneModeNumberId(i)), PhoneRun(states, oracle, phones[1..], i + 1);
        PhoneRunPartners(states, oracle, phones[1..], i + 1);
        if o.Applied? {
          ProfileStepApplied(states, oracle, i, phones[0]);
        }
        var ws := head + tail;
        forall k | 0 <= k < |ws|
          ensures ws[k].SetValue? && ws[k].entityId in states && states[ws[k].entityId].number.Some?
          ensures ws[k].value == Partner(states[ws[k].entityId].number.value) && 1 <= ws[k].value <= 8
        {
          if k >= |head| {
            assert ws[k] == tail[k - |head|];
          }
        }
      }
    }
  }

  /** No write names `id`. */
  ghost predicate Avoids(ws: seq<Write>, id: string) {
    forall k :: 0 <= k < |ws| ==> ws[k].entityId != id
  }

  /** The writes of the profiles after position `i` never name profile `i`'s number. */
  lemma TailAvoidsNumber(states: States, oracle: SunOracle, rest: seq<ConfigEntry>, i: nat)
    ensures Avoids(PhoneRun(states, oracle, rest, i + 1), PhoneModeNumberId(i))
  {
    var tail := PhoneRun(states, oracle, rest, i + 1);
    PhoneRunTargets(states, oracle, rest, i + 1);
    forall k | 0 <= k < |tail| ensures tail[k].entityId != PhoneModeNumberId(i) {
      var j :| i + 1 <= j < i + 1 + |rest| && tail[k].entityId == PhoneModeNumberId(j);
      PhoneModeNumberIdDistinct(i, j);
    }
  }

  /** No two phone writes name the same number, so a profile gets at most one write per tick. */
  lemma {:induction false} PhoneRunDistinct(states: States, oracle: SunOracle, phones: seq<ConfigEntry>, i: nat)
    ensures DistinctTargets(PhoneRun(states, oracle, phones, i))
    decreases |phones|
  {
    if phones != [] {
      PhoneRunStep(states, oracle, phones, i);
      var o := ProfileStep(states, oracle, i, phones[0]);
      if !o.Raised? {
        var head, tail := StepWrites(o, PhoneModeNumberId(i)), PhoneRun(states, oracle, phones[1..], i + 1);
        PhoneRunDistinct(states, oracle, phones[1..], i + 1);
        TailAvoidsNumber(states, oracle, phones[1..], i);
        var ws := head + tail;
        forall k1, k2 | 0 <= k1 < k2 < |ws| ensures ws[k1].entityId != ws[k2].entityId {
          assert ws[k2] == tail[k2 - |head|];
          if k1 >= |head| {
            assert ws[k1] == tail[k1 - |head|];
          }
        }
      }
    }
  }

  /** Every phone write is a `number.set_value` on the mode number of a visited position, with the
      pair partner of the value it finds there, in 1..8; no two writes name the same number. */
  lemma PhoneRunWrites(states: States, oracle: SunOracle, phones: seq<ConfigEntry>, i: nat)
    ensures var ws := PhoneRun(states, oracle, phones, i);
      && |ws| <= |phones|
      && (forall k :: 0 <= k < |ws| ==>
            && ws[k].SetValue?
            && (exists j :: i <= j < i + |phones| && ws[k].entityId == PhoneModeNumberId(j))
            && ws[k].entityId in states && states[ws[k].entityId].number.Some?
            && ws[k].value == Partner(states[ws[k].entityId].number.value)
            && 1 <= ws[k].value <= 8)
      && (forall k1, k2 :: 0 <= k1 < k2 < |ws| ==> ws[k1].entityId != ws[k2].entityId)
  {
    PhoneRunTargets(states, oracle, phones, i);
    PhoneRunPartners(states, oracle, phones, i);
    PhoneRunDistinct(states, oracle, phones, i);
  }

  /** The profiles at positions from `i` on see the same entities in `s` and in `t`. */
  ghost predicate SameFrom(s: States, t: States, i: nat) {
    && s.Keys == t.Keys
    && (forall id :: id in s ==> s[id].latitude == t[id].latitude && s[id].longitude == t[id].longitude)
    && (forall j :: i <= j && PhoneModeSwitchId(j) in s ==> s[PhoneModeSwitchId(j)] == t[PhoneModeSwitchId(j)])
    && (forall j :: i <= j && PhoneModeNumberId(j) in s ==> s[PhoneModeNumberId(j)] == t[PhoneModeNumberId(j)])
  }

  /** A profile's outcome depends only on its own switch and number and the location attributes,
      so changes elsewhere do not affect the profiles from `i` on. */
  lemma {:induction false} PhoneRunFrame(s: States, t: States, oracle: SunOracle, phones: seq<ConfigEntry>, i: nat)
    requires SameFrom(s, t, i)
    ensures PhoneRun(s, oracle, phones, i) == PhoneRun(t, oracle, phones, i)
    decreases |phones|
  {
    if phones != [] {
      ProfileStepFrame(s, t, oracle, i, phones[0]);
      PhoneRunStep(s, oracle, phones, i);
      PhoneRunStep(t, oracle, phones, i);
      PhoneRunFrame(s, t, oracle, phones[1..], i + 1);
    }
  }

  /** One profile's outcome is the same in two states that agree from its position on. */
  lemma ProfileStepFrame(s: States, t: States, oracle: SunOracle, i: nat, e: ConfigEntry)
    requires SameFrom(s, t, i)
    ensures ProfileStep(s, oracle, i, e) == ProfileStep(t, oracle, i, e)
  {
    LocationIgnoresStates(s, t, e.data.locationSourceId);
  }

  /** Whether some phone profile of `phones` (the first at position `i`) raises, looked at one
      profile at a time. */
  ghost predicate RaisesIn(states: States, oracle: SunOracle, phones: seq<ConfigEntry>, i: nat)
    decreases |phones|
  {
    phones != [] && (ProfileStep(states, oracle, i, phones[0]).Raised? || RaisesIn(states, oracle, phones[1..], i + 1))
  }

  /** When the loop raises, the position of a profile that raises. */
  lemma {:induction false} RaisingPosition(states: States, oracle: SunOracle, phones: seq<ConfigEntry>, i: nat)
    returns (k: nat)
    requires RaisesIn(states, oracle, phones, i)
    ensures k < |phones| && ProfileStep(states, oracle, i + k, phones[k]).Raised?
    decreases |phones|
  {
    if ProfileStep(states, oracle, i, phones[0]).Raised? {
      k := 0;
    } else {
      var j := RaisingPosition(states, oracle, phones[1..], i + 1);
      k := j + 1;
      assert phones[k] == phones[1..][j];
    }
  }

  /** A profile that raises at some position makes the loop raise. */
  lemma {:induction false} RaisesAtPosition(states: States, oracle: SunOracle, phones: seq<ConfigEntry>, i: nat, k: nat)
    requires k < |phones| && ProfileStep(states, oracle, i + k, phones[k]).Raised?
    ensures RaisesIn(states, oracle, phones, i)
    decreases k
  {
    if k > 0 {
      assert phones[1..][k - 1] == phones[k];
      RaisesAtPosition(states, oracle, phones[1..], i + 1, k - 1);
    }
  }

  /** `RaisesIn` holds exactly when the profile at some position raises. */
  lemma RaisesSomeProfile(states: States, oracle: SunOracle, phones: seq<ConfigEntry>, i: nat)
    ensures RaisesIn(states, oracle, phones, i)
        <==> exists k :: 0 <= k < |phones| && ProfileStep(states, oracle, i + k, phones[k]).Raised?
  {
    if RaisesIn(states, oracle, phones, i) {
      var k := RaisingPosition(states, oracle, phones, i);
    }
    if exists k :: 0 <= k < |phones| && ProfileStep(states, oracle, i + k, phones[k]).Raised? {
      var k :| 0 <= k < |phones| && ProfileStep(states, oracle, i + k, phones[k]).Raised?;
      RaisesAtPosition(states, oracle, phones, i, k);
    }
  }

  /** The loop over `pre + post` when nothing in `pre` raises: the writes of `pre` followed by
      those of `post` at the shifted positions. */
  lemma {:induction false} PhoneRunAppend(states: States, oracle: SunOracle, pre: seq<ConfigEntry>,
                                          post: seq<ConfigEntry>, i: nat)
    requires !RaisesIn(states, oracle, pre, i)
    ensures PhoneRun(states, oracle, pre + post, i)
        == PhoneRun(states, oracle, pre, i) + PhoneRun(states, oracle, post, i + |pre|)
    decreases |pre|
  {
    if pre == [] {
      assert pre + post == post;
    } else {
      var o := ProfileStep(states, oracle, i, pre[0]);
      var w := StepWrites(o, PhoneModeNumberId(i));
      var mid, last := PhoneRun(states, oracle, pre[1..], i + 1), PhoneRun(states, oracle, post, i + |pre|);
      calc {
        PhoneRun(states, oracle, pre + post, i);
      == { ConsAppend(pre, post); PhoneRunStep(states, oracle, pre + post, i); }
        w + PhoneRun(states, oracle, pre[1..] + post, i + 1);
      == { PhoneRunAppend(states, oracle, pre[1..], post, i + 1); }
        w + (mid + last);
      == { WritesAssoc(w, mid, last); }
        (w + mid) + last;
      == { PhoneRunStep(states, oracle, pre, i); }
        PhoneRun(states, oracle, pre, i) + last;
      }
    }
  }

  lemma ConsAppend(pre: seq<ConfigEntry>, post: seq<ConfigEntry>)
    requires pre != []
    ensures (pre + post)[0] == pre[0] && (pre + post)[1..] == pre[1..] + post
  {
  }

  /** The loop over `pre + post` when some profile of `pre` raises: `post` is never reached. */
  lemma {:induction false} PhoneRunAppendRaised(states: States, oracle: SunOracle, pre: seq<ConfigEntry>,
                                                post: seq<ConfigEntry>, i: nat)
    requires RaisesIn(states, oracle, pre, i)
    ensures PhoneRun(states, oracle, pre + post, i) == PhoneRun(states, oracle, pre, i)
    decreases |pre|
  {
    var all := pre + post;
    assert all[0] == pre[0] && all[1..] == pre[1..] + post;
    if !ProfileStep(states, oracle, i, pre[0]).Raised? {
      PhoneRunAppendRaised(states, oracle, pre[1..], post, i + 1);
    }
  }

  /** A profile that is skipped (missing entity, switch off, no location) contributes no write
      and the loop carries on with the next profile. */
  lemma PhoneSkipIsIsolated(states: States, oracle: SunOracle, pre: seq<ConfigEntry>, e: ConfigEntry,
                            post: seq<ConfigEntry>)
    requires !RaisesIn(states, oracle, pre, 1)
    requires ProfileStep(states, oracle, 1 + |pre|, e).Skipped?
    ensures PhoneRun(states, oracle, pre + [e] + post, 1)
            == PhoneRun(states, oracle, pre, 1) + PhoneRun(states, oracle, post, 2 + |pre|)
  {
    var rest := [e] + post;
    assert pre + [e] + post == pre + rest;
    assert rest[0] == e && rest[1..] == post;
    PhoneRunAppend(states, oracle, pre, rest, 1);
    PhoneRunStep(states, oracle, rest, 1 + |pre|);
  }

  /** A profile whose mode state does not parse ends the loop: no later profile is written,
      whatever it is. */
  lemma PhoneRaiseAbortsRest(states: States, oracle: SunOracle, pre: seq<ConfigEntry>, e: ConfigEntry,
                             post: seq<ConfigEntry>)
    requires ProfileStep(states, oracle, 1 + |pre|, e).Raised?
    ensures PhoneRun(states, oracle, pre + [e] + post, 1) == PhoneRun(states, oracle, pre, 1)
  {
    var rest := [e] + post;
    assert pre + [e] + post == pre + rest;
    assert rest[0] == e;
    if RaisesIn(states, oracle, pre, 1) {
      PhoneRunAppendRaised(states, oracle, pre, rest, 1);
    } else {
      PhoneRunAppend(states, oracle, pre, rest, 1);
      PhoneRunStep(states, oracle, rest, 1 + |pre|);
    }
  }

  /** A profile's switch and number are found by its position in the list of phone entries, not by
      the suffix its entities were created with: when the entities at its position are gone (an
      earlier phone entry was removed), the profile is skipped even though its own entities, at
      another suffix, call for a transition. */
  lemma PhoneLookupByPosition(states: States, oracle: SunOracle, e: ConfigEntry, suffix: nat)
    requires PhoneModeSwitchId(1) !in states
    requires ProfileStep(states, oracle, suffix, e).Applied?
    ensures suffix != 1
    ensures PhoneRun(states, oracle, [e], 1) == []
  {
    PhoneRunStep(states, oracle, [e], 1);
    assert [e][1..] == [];
  }

  /** The mode number a step reads after its own write has been delivered. */
  function NumberAfterStep(states: States, o: Outcome<int>, numberId: string): Option<int>
    requires numberId in states
  {
    if o.Applied? then Some(o.target) else states[numberId].number
  }

  /** Delivering a step's write changes only that profile's number, which then reads the written
      mode. */
  lemma HeadWriteFrame(states: States, o: Outcome<int>, i: nat)
    ensures var s1 := ApplyWrites(states, StepWrites(o, PhoneModeNumberId(i)));
      && SameFrom(states, s1, i + 1)
      && (PhoneModeSwitchId(i) in states ==> s1[PhoneModeSwitchId(i)] == states[PhoneModeSwitchId(i)])
      && (PhoneModeNumberId(i) in states ==>
            s1[PhoneModeNumberId(i)].number == NumberAfterStep(states, o, PhoneModeNumberId(i)))
  {
    var numberId := PhoneModeNumberId(i);
    var head := StepWrites(o, numberId);
    var s1 := ApplyWrites(states, head);
    if head != [] {
      ApplyWritesSingle(states, head[0]);
    }
    forall id | id in states && id != numberId ensures s1[id] == states[id] { }
    forall j | i + 1 <= j ensures PhoneModeNumberId(j) != numberId && PhoneModeSwitchId(j) != numberId {
      PhoneModeNumberIdDistinct(i, j);
      PhoneModeNumberIdDistinct(j, i);
    }
    PhoneModeNumberIdDistinct(i, i);
  }

  /** The writes of the profiles after position `i` leave profile `i`'s switch and number alone. */
  lemma TailLeavesHead(s1: States, oracle: SunOracle, rest: seq<ConfigEntry>, i: nat)
    ensures var after := ApplyWrites(s1, PhoneRun(s1, oracle, rest, i + 1));
      && (PhoneModeSwitchId(i) in s1 ==> after[PhoneModeSwitchId(i)] == s1[PhoneModeSwitchId(i)])
      && (PhoneModeNumberId(i) in s1 ==> after[PhoneModeNumberId(i)] == s1[PhoneModeNumberId(i)])
  {
    var tail := PhoneRun(s1, oracle, rest, i + 1);
    var numberId, switchId := PhoneModeNumberId(i), PhoneModeSwitchId(i);
    PhoneRunTargets(s1, oracle, rest, i + 1);
    forall k | 0 <= k < |tail| ensures tail[k].entityId != numberId && tail[k].entityId != switchId {
      var j :| i + 1 <= j < i + 1 + |rest| && tail[k].entityId == PhoneModeNumberId(j);
      PhoneModeNumberIdDistinct(j, i);
    }
    if switchId in s1 {
      ApplyWritesUntouched(s1, tail, switchId);
    }
    if numberId in s1 {
      ApplyWritesUntouched(s1, tail, numberId);
    }
  }

  /** A profile whose own write has been delivered (same switch and location, the number reading
      the written mode) neither raises nor calls for another transition. */
  lemma StepSettles(states: States, t: States, oracle: SunOracle, i: nat, e: ConfigEntry)
    requires !ProfileStep(states, oracle, i, e).Raised?
    requires t.Keys == states.Keys
    requires forall id :: id in states ==>
      t[id].latitude == states[id].latitude && t[id].longitude == states[id].longitude
    requires PhoneModeSwitchId(i) in states ==> t[PhoneModeSwitchId(i)] == states[PhoneModeSwitchId(i)]
    requires PhoneModeNumberId(i) in states ==>
      t[PhoneModeNumberId(i)].number == NumberAfterStep(states, ProfileStep(states, oracle, i, e), PhoneModeNumberId(i))
    ensures !ProfileStep(t, oracle, i, e).Raised? && !ProfileStep(t, oracle, i, e).Applied?
  {
    LocationIgnoresStates(states, t, e.data.locationSourceId);
  }

  /** Delivering the phone rule's writes and running it again writes nothing. */
  lemma {:induction false} PhoneRunSettles(states: States, oracle: SunOracle, phones: seq<ConfigEntry>, i: nat)
    ensures PhoneRun(ApplyWrites(states, PhoneRun(states, oracle, phones, i)), oracle, phones, i) == []
    decreases |phones|
  {
    if phones == [] {
      return;
    }
    var e, rest := phones[0], phones[1..];
    var o := ProfileStep(states, oracle, i, e);
    PhoneRunStep(states, oracle, phones, i);
    if o.Raised? {
      return;
    }
    var head := StepWrites(o, PhoneModeNumberId(i));
    var s1 := ApplyWrites(states, head);
    HeadWriteFrame(states, o, i);
    PhoneRunFrame(states, s1, oracle, rest, i + 1);
    var tail := PhoneRun(s1, oracle, rest, i + 1);
    ApplyWritesAppend(states, head, tail);
    var after := ApplyWrites(s1, tail);
    PhoneRunSettles(s1, oracle, rest, i + 1);
    TailLeavesHead(s1, oracle, rest, i);
    StepSettles(states, after, oracle, i, e);
    PhoneRunStep(after, oracle, phones, i);
  }


  /** The pad write touches only the selector, which is no phone entity. */
  lemma PadWriteFrame(entries: seq<ConfigEntry>, states: States, oracle: SunOracle)
    ensures SameFrom(states, ApplyWrites(states, PadWrites(entries, states, oracle)), 1)
  {
    var padWrites := PadWrites(entries, states, oracle);
    var s1 := ApplyWrites(states, padWrites);
    if padWrites != [] {
      ApplyWritesSingle(states, padWrites[0]);
    }
    forall j ensures PhoneModeSwitchId(j) != SELECT_THEME_PAD_MODE && PhoneModeNumberId(j) != SELECT_THEME_PAD_MODE {
      PadSelectIdNotPhone(j);
    }
  }

  /** The phone writes leave the pad mode switch and the pad selector alone. */
  lemma PhoneLeavesPad(s1: States, oracle: SunOracle, phones: seq<ConfigEntry>)
    ensures var after := ApplyWrites(s1, PhoneRun(s1, oracle, phones, 1));
      forall id :: id in s1 && id in {SWITCH_THEME_PAD_MODE, SELECT_THEME_PAD_MODE} ==> s1[id] == after[id]
  {
    var phoneWrites := PhoneRun(s1, oracle, phones, 1);
    PhoneRunTargets(s1, oracle, phones, 1);
    forall k | 0 <= k < |phoneWrites|
      ensures phoneWrites[k].entityId != SWITCH_THEME_PAD_MODE && phoneWrites[k].entityId != SELECT_THEME_PAD_MODE
    {
      var j :| 1 <= j < 1 + |phones| && phoneWrites[k].entityId == PhoneModeNumberId(j);
      PhoneModeNumberIdDistinct(j, j);
    }
    if SWITCH_THEME_PAD_MODE in s1 {
      ApplyWritesUntouched(s1, phoneWrites, SWITCH_THEME_PAD_MODE);
    }
    if SELECT_THEME_PAD_MODE in s1 {
      ApplyWritesUntouched(s1, phoneWrites, SELECT_THEME_PAD_MODE);
    }
  }

  /** A second theme tick, after the first tick's writes are delivered and with the same
      day/night answers, writes nothing. */
  lemma ThemeTickIdempotent(entries: seq<ConfigEntry>, states: States, oracle: SunOracle)
    ensures var ws := PadWrites(entries, states, oracle) + PhoneWrites(entries, states, oracle);
      var after := ApplyWrites(states, ws);
      PadWrites(entries, after, oracle) + PhoneWrites(entries, after, oracle) == []
  {
    var padWrites := PadWrites(entries, states, oracle);
    var phones := PhoneEntries(entries);
    var s1 := ApplyWrites(states, padWrites);
    PadWriteFrame(entries, states, oracle);
    PhoneRunFrame(states, s1, oracle, phones, 1);
    var phoneWrites := PhoneRun(s1, oracle, phones, 1);
    ApplyWritesAppend(states, padWrites, phoneWrites);
    var after := ApplyWrites(s1, phoneWrites);
    PhoneRunSettles(s1, oracle, phones, 1);
    PhoneLeavesPad(s1, oracle, phones);
    PadOutcomeFrame(entries, s1, after, oracle);
    PadIdempotent(entries, states, oracle);
  }

  // ---------------------------------------------------------------------------------------------
  // Reading one snapshot

  /** The phone loop read against the live store, when each awaited service write has been
      delivered before the next profile reads the store. */
  function LiveRun(states: States, oracle: SunOracle, phones: seq<ConfigEntry>, i: nat): seq<Write>
    decreases |phones|
  {
    if phones == [] then []
    else
      var o := ProfileStep(states, oracle, i, phones[0]);
      if o.Raised? then []
      else
        var head := StepWrites(o, PhoneModeNumberId(i));
        head + LiveRun(ApplyWrites(states, head), oracle, phones[1..], i + 1)
  }

  /** Each profile's write lands on its own number, which no later profile reads, so the loop
      over the live store issues the same writes as the loop over the snapshot taken at its start. */
  lemma {:induction false} LiveRunIsSnapshotRun(states: States, oracle: SunOracle, phones: seq<ConfigEntry>, i: nat)
    ensures LiveRun(states, oracle, phones, i) == PhoneRun(states, oracle, phones, i)
    decreases |phones|
  {
    if phones != [] {
      PhoneRunStep(states, oracle, phones, i);
      var o := ProfileStep(states, oracle, i, phones[0]);
      if !o.Raised? {
        var s1 := ApplyWrites(states, StepWrites(o, PhoneModeNumberId(i)));
        LiveRunIsSnapshotRun(s1, oracle, phones[1..], i + 1);
        HeadWriteFrame(states, o, i);
        PhoneRunFrame(states, s1, oracle, phones[1..], i + 1);
      }
    }
  }

  /** The theme callback awaits the pad rule's write before the phone rule reads the store; the
      writes are still those of both rules against the snapshot taken at the start of the tick. */
  lemma ThemeTickLiveReads(entries: seq<ConfigEntry>, states: States, oracle: SunOracle)
    ensures var padWrites := PadWrites(entries, states, oracle);
      padWrites + LiveRun(ApplyWrites(states, padWrites), oracle, PhoneEntries(entries), 1)
      == padWrites + PhoneWrites(entries, states, oracle)
  {
    var s1 := ApplyWrites(states, PadWrites(entries, states, oracle));
    LiveRunIsSnapshotRun(s1, oracle, PhoneEntries(entries), 1);
    PadWriteFrame(entries, states, oracle);
    PhoneRunFrame(states, s1, oracle, PhoneEntries(entries), 1);
  }
}

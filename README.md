# xiaoshi_theme — a verified model of the theme state machine

The xiaoshi_theme Home Assistant integration keeps a set of virtual "theme" entities in step with
day and night. A **pad** profile (at most one) owns the switches `switch.theme_pad_full`,
`switch.theme_pad_mode` and `switch.theme_pad_hue`, the selector `select.theme_pad_mode` (彩平图 by
day, 黑平图 by night) and the hue slider `number.theme_pad_hue` (1..360). Each **phone** profile
owns `switch.theme_phone_full_<i>`, `switch.theme_phone_mode_<i>` and `number.theme_phone_mode_<i>`
(1..8), where odd modes are the day variant and even modes the night variant of the pairs
(1,2), (3,4), (5,6), (7,8). A 5-minute timer runs the pad rule and then the phone rule; a 1-minute
timer advances the hue by one, wrapping past 360 to 1. Both run once when the coordinator starts.

The model, one module per source file:

- `ThemeConst` (const.dfy): the literal constants of `const.py`.
- `Host` (host.dfy): the host's state store as a snapshot `States` (entity id to state string,
  numeric reading and location attributes), config entries, the service writes a rule issues
  (`select.select_option`, `number.set_value`) and their delivery `ApplyWrites`, and the decimal
  suffix of phone entity ids with its injectivity.
- `Utils` (utils.dfy): the location resolver and the day/night classifier over a sunrise/sunset
  oracle that may fail, with the fail-safe answer "day".
- `Coordinator` (coordinator.dfy): the three rules as methods that read a snapshot and return
  the service writes they issue, in order, each proved equal to a pure reference function
  (`HueWrites`, `PadWrites`, `PhoneWrites`). The phone mode table is `PhoneTransition`.
- `CoordinatorProperties` (coordinator_properties.dfy): the hue cycle, the pad rule's first-entry
  choice, day/night target and idempotence, the phone rule's partner writes, one write per
  profile, skip isolation, abort after an unparseable mode, lookup by position, idempotence of a
  whole theme tick once its writes are delivered, and the equivalence of reading one snapshot
  with reading the live store once each awaited write has been delivered.
- `Switch`, `Number`, `Select` (switch.dfy, number.dfy, select.dfy): the entity classes whose
  fields the source updates in place, the first-free-suffix probe (`FirstFreeIndex`, a loop
  proved to terminate on a finite store) and the per-platform entity creation.
- `Integration` and `DomainStore` (integration.dfy, domain_store.dfy): the integration's shared
  dictionary of entries and timer-cancel handles. `Integration` gives setup, unload and reload
  as functions on a value with their lemmas; `DomainStore.DomainData` is the object updated in
  place, whose methods are proved to follow those functions and keep the invariant.

Behaviour of the code worth knowing:

- Only the switches restore their last state. The hue number, the phone mode numbers and the pad
  selector are not restore entities in the code, so they start again at 1 / 彩平图 on restart.
- The location resolver gives no location when either coordinate attribute is missing, not only
  when both are.
- A phone profile's entities are found by its 1-based position among the phone entries. The
  suffix its entities were created with comes from probing for the first free index. The two
  can differ once an earlier phone entry is removed (`PhoneLookupByPosition`).
- One `try` encloses the whole phone loop, so a mode state that does not parse as a number ends
  the loop for every later profile (`PhoneRaiseAbortsRest`). A missing entity, a switch that is
  off or a missing location skips only that profile (`PhoneSkipIsIsolated`).

## Model

| member | source | states |
|---|---|---|
| `Utils.IsDaytime` | custom_components/xiaoshi_theme/utils.py:17-32 | day exactly when sunrise ≤ now ≤ sunset when the computation succeeds; day when it fails |
| `Utils.GetLocationFromEntity` | custom_components/xiaoshi_theme/utils.py:34-49 | both coordinates or neither; a location exactly when the id is given, the entity exists and has both attributes; then those attribute values unchanged |
| `Utils.LocationIgnoresStates` | custom_components/xiaoshi_theme/utils.py:36-49 | the resolved location depends only on which entities exist and their location attributes, so state writes never change it |
| `Host.NatToDecimal` | custom_components/xiaoshi_theme/coordinator.py:210-211 | the suffix `str(i)` is a non-empty string of decimal digits, one digit exactly below 10 |
| `Host.IntToDecimal` | custom_components/xiaoshi_theme/number.py:68-71 | the published state of a number is a non-empty string starting with a minus sign exactly when the value is negative |
| `Host.NatToDecimalInjective` | custom_components/xiaoshi_theme/coordinator.py:210-211 | different indices have different decimal suffixes |
| `Host.PrefixedIdInjective` | custom_components/xiaoshi_theme/coordinator.py:210-211 | a prefixed phone entity id determines its index |
| `Host.PhoneModeNumberIdDistinct` | custom_components/xiaoshi_theme/const.py:15-29 | phone mode number ids of different positions differ and are never a switch id, the pad selector or the pad hue number |
| `Host.PadSelectIdNotPhone` | custom_components/xiaoshi_theme/const.py:17-29 | the pad selector's id is no phone entity's id |
| `Host.ApplyWrite` | custom_components/xiaoshi_theme/coordinator.py:80-83 | a delivered write changes only the entity it names (its value or option), keeps every entity and location attribute, and has no effect on an entity that does not exist |
| `Host.ApplyWrites` | custom_components/xiaoshi_theme/coordinator.py:244-304 | delivering writes in order keeps the set of entities and every location attribute |
| `Coordinator.HueNext` | custom_components/xiaoshi_theme/coordinator.py:74-76 | the next hue is current+1, except that it wraps to 1 exactly when current+1 passes 360; it lies in 1..360 from any current value ≥ 0 |
| `Coordinator.HueWrites` | custom_components/xiaoshi_theme/coordinator.py:61-86 | a hue tick writes exactly when both hue entities exist, the switch is "on" and the hue parses; then exactly one write of the next hue to `number.theme_pad_hue` |
| `Coordinator.UpdateHueLogic` | custom_components/xiaoshi_theme/coordinator.py:52-90 | the hue callback issues the writes of `HueWrites`: only `number.theme_pad_hue`, with a value in 1..360 from a hue ≥ 0 |
| `Coordinator.FirstPadEntry` | custom_components/xiaoshi_theme/coordinator.py:131-137 | none exactly when no entry is a pad; otherwise the pad entry with no pad entry before it |
| `Coordinator.UpdatePadThemeLogic` | custom_components/xiaoshi_theme/coordinator.py:125-188 | the pad rule issues the writes of `PadWrites`; none without a pad entry, with a missing pad entity, with the mode switch not "on" or when the first pad entry's location does not resolve; any write sets the selector to an option it does not already show |
| `Coordinator.PhoneTransition` | custom_components/xiaoshi_theme/coordinator.py:242-306 | a transition exactly for the night modes 2, 4, 6, 8 by day and the day modes 1, 3, 5, 7 by night, every other value (outside 1..8 included) staying put; the target is the mode's pair partner, in 1..8 |
| `Coordinator.ModeParity` | custom_components/xiaoshi_theme/coordinator.py:242-306 | the day modes are the odd values of 1..8 and the night modes the even ones; partners swap day and night and pairing twice gives the mode back |
| `Coordinator.PhoneTransitionStaysInPair` | custom_components/xiaoshi_theme/coordinator.py:242-306 | a transition stays within its pair {2k-1, 2k} and lands on an odd mode by day, an even one by night |
| `Coordinator.PhoneTransitionSettles` | custom_components/xiaoshi_theme/coordinator.py:242-306 | a mode just set has no further transition for the same half of the day |
| `Coordinator.StepWrites` | custom_components/xiaoshi_theme/coordinator.py:244-304 | a profile contributes at most one write, exactly when a transition applies |
| `Coordinator.PhoneEntries` | custom_components/xiaoshi_theme/coordinator.py:197-200 | the filter keeps at most as many entries as are configured, and an entry is kept exactly when it is configured and of phone type |
| `Coordinator.PhoneEntriesAppend` | custom_components/xiaoshi_theme/coordinator.py:197-200 | the filter keeps entry order and repeats: a lone entry is kept exactly when it is a phone entry, and filtering a concatenation concatenates the filtered parts, so a profile's 1-based position follows entry order |
| `Coordinator.CollectPhoneEntries` | custom_components/xiaoshi_theme/coordinator.py:197-200 | the appending loop gathers exactly `PhoneEntries`, in entry order |
| `Coordinator.UpdatePhoneProfile` | custom_components/xiaoshi_theme/coordinator.py:209-310 | one pass of the loop body issues the profile's step writes and raises exactly when its mode state does not parse |
| `Coordinator.UpdatePhoneThemeLogic` | custom_components/xiaoshi_theme/coordinator.py:191-314 | the phone rule issues the writes of `PhoneWrites`, visiting the phone entries by 1-based position and stopping at a raise |
| `Coordinator.VisitPhoneProfiles` | custom_components/xiaoshi_theme/coordinator.py:208-314 | the loop over 1-based positions issues exactly the writes of `PhoneRun` from position 1, stopping at the first raise |
| `Coordinator.PhoneRunStep` | custom_components/xiaoshi_theme/coordinator.py:209-314 | one iteration of the phone loop: a raise ends it, otherwise the profile's writes come before those of the rest |
| `Coordinator.UpdateThemeLogic` | custom_components/xiaoshi_theme/coordinator.py:33-49 | the theme callback issues the pad rule's writes followed by the phone rule's |
| `CoordinatorProperties.HueAfterRotates` | custom_components/xiaoshi_theme/coordinator.py:74-76 | from a hue in 1..360, k ticks give (hue − 1 + k) mod 360 + 1 |
| `CoordinatorProperties.HueFullCycle` | custom_components/xiaoshi_theme/coordinator.py:74-76 | a hue in 1..360 returns to itself exactly after a multiple of 360 ticks, so 360 ticks from 1 return to 1 |
| `CoordinatorProperties.HueTicksFollowHueAfter` | custom_components/xiaoshi_theme/coordinator.py:61-83 | with the switch on, delivered hue ticks advance the hue number as `HueAfter` does and change no other entity |
| `CoordinatorProperties.HueTicksCycle` | custom_components/xiaoshi_theme/coordinator.py:72-83 | on the live store, a hue in 1..360 comes back exactly after whole turns of 360 ticks |
| `CoordinatorProperties.PadUsesFirstPadEntryOnly` | custom_components/xiaoshi_theme/coordinator.py:131-135 | only the first pad entry is consulted: entries after it do not affect the pad writes |
| `CoordinatorProperties.PadOutcomeFrame` | custom_components/xiaoshi_theme/coordinator.py:141-165 | the pad decision depends only on the mode switch, the selector, which entities exist and their locations |
| `CoordinatorProperties.PadReachesDayNightOption` | custom_components/xiaoshi_theme/coordinator.py:155-180 | once gated through, the selector ends on 彩平图 by day and 黑平图 by night, and a write happens exactly when it was not already there |
| `CoordinatorProperties.PadIdempotent` | custom_components/xiaoshi_theme/coordinator.py:167-180 | after the pad rule's write is delivered, a second run writes nothing |
| `CoordinatorProperties.ProfileStepApplied` | custom_components/xiaoshi_theme/coordinator.py:238-306 | an applied phone step found a numeric mode and writes its pair partner, in 1..8 |
| `CoordinatorProperties.PhoneRunTargets` | custom_components/xiaoshi_theme/coordinator.py:209-304 | at most one write per visited profile, each a `number.set_value` on the mode number of a visited position |
| `CoordinatorProperties.TailAvoidsNumber` | custom_components/xiaoshi_theme/coordinator.py:209-304 | the profiles after a position never write that position's mode number |
| `CoordinatorProperties.PhoneRunPartners` | custom_components/xiaoshi_theme/coordinator.py:238-306 | every phone write sets an existing mode number to the pair partner of its value, in 1..8 |
| `CoordinatorProperties.PhoneRunDistinct` | custom_components/xiaoshi_theme/coordinator.py:209-306 | no two phone writes of one tick name the same number |
| `CoordinatorProperties.PhoneRunWrites` | custom_components/xiaoshi_theme/coordinator.py:209-306 | the three facts above together: targets, partner values in 1..8, distinct numbers |
| `CoordinatorProperties.ProfileStepFrame` | custom_components/xiaoshi_theme/coordinator.py:216-238 | one profile's outcome is the same in two states that have the same entities, the same location attributes and the same switches and numbers from its position on |
| `CoordinatorProperties.PhoneRunFrame` | custom_components/xiaoshi_theme/coordinator.py:216-238 | the loop from a position issues the same writes in two states that have the same entities, the same location attributes and the same switches and numbers from that position on |
| `CoordinatorProperties.RaisingPosition` | custom_components/xiaoshi_theme/coordinator.py:193-314 | when the loop raises, some position holds a profile whose mode state does not parse |
| `CoordinatorProperties.RaisesAtPosition` | custom_components/xiaoshi_theme/coordinator.py:193-314 | a profile at any position whose mode state does not parse makes the loop raise |
| `CoordinatorProperties.RaisesSomeProfile` | custom_components/xiaoshi_theme/coordinator.py:193-314 | the loop raises exactly when the profile at some position raises |
| `CoordinatorProperties.PhoneRunAppend` | custom_components/xiaoshi_theme/coordinator.py:209-311 | without a raise in a prefix, the loop's writes are the prefix's followed by the rest's at shifted positions |
| `CoordinatorProperties.PhoneRunAppendRaised` | custom_components/xiaoshi_theme/coordinator.py:193-314 | after a raise in a prefix, no later profile is visited |
| `CoordinatorProperties.PhoneSkipIsIsolated` | custom_components/xiaoshi_theme/coordinator.py:219-310 | a profile skipped for a missing entity, a switch that is not "on" or no location writes nothing and the loop carries on |
| `CoordinatorProperties.PhoneRaiseAbortsRest` | custom_components/xiaoshi_theme/coordinator.py:238-314 | an unparseable mode state ends the loop: no later profile is written, whatever it holds |
| `CoordinatorProperties.PhoneLookupByPosition` | custom_components/xiaoshi_theme/coordinator.py:209-221 | a profile is found by its position, not its creation suffix: with no entities at position 1 it is skipped although its own entities call for a transition |
| `CoordinatorProperties.HeadWriteFrame` | custom_components/xiaoshi_theme/coordinator.py:244-304 | a profile's write changes only its own number, which then reads the written mode |
| `CoordinatorProperties.TailLeavesHead` | custom_components/xiaoshi_theme/coordinator.py:209-304 | later profiles' writes leave an earlier profile's switch and number alone |
| `CoordinatorProperties.StepSettles` | custom_components/xiaoshi_theme/coordinator.py:238-306 | once its own write is delivered, a profile neither raises nor calls for another transition |
| `CoordinatorProperties.PhoneRunSettles` | custom_components/xiaoshi_theme/coordinator.py:209-306 | after the phone rule's writes are delivered, a second run writes nothing |
| `CoordinatorProperties.PadWriteFrame` | custom_components/xiaoshi_theme/coordinator.py:167-178 | the pad write touches no phone entity |
| `CoordinatorProperties.PhoneLeavesPad` | custom_components/xiaoshi_theme/coordinator.py:244-304 | the phone writes leave the pad mode switch and selector alone |
| `CoordinatorProperties.ThemeTickIdempotent` | custom_components/xiaoshi_theme/coordinator.py:41-45 | a second theme tick after the first tick's writes are delivered, with the same day/night answers, writes nothing |
| `CoordinatorProperties.LiveRunIsSnapshotRun` | custom_components/xiaoshi_theme/coordinator.py:209-311 | the loop reading the live store once each awaited write has been delivered issues the same writes as the loop over one snapshot |
| `CoordinatorProperties.ThemeTickLiveReads` | custom_components/xiaoshi_theme/coordinator.py:41-45 | the phone rule reading the store after the pad write is delivered issues the same writes as against the tick's snapshot |
| `Switch.FirstFreeUnique` | custom_components/xiaoshi_theme/switch.py:165-170 | the first free index is determined by the store |
| `Switch.FirstFreeIndex` | custom_components/xiaoshi_theme/switch.py:165-170 | the probe returns the least n ≥ 1 whose id is absent, with all of 1..n−1 present, and terminates within the store's size + 1 |
| `Switch.PublishedState` | custom_components/xiaoshi_theme/switch.py:84-92 | a switch publishes "on" exactly when it is on |
| `Switch.RestoredIsOn` | custom_components/xiaoshi_theme/switch.py:79-81 | a last state decides the flag (on exactly when it is "on"); without one the flag is unchanged |
| `Switch.RestorePublishedRoundTrip` | custom_components/xiaoshi_theme/switch.py:79-92 | restoring from the state a switch published gives back its flag |
| `Switch.RestoreIdempotent` | custom_components/xiaoshi_theme/switch.py:79-81 | restoring twice from one last state is restoring once |
| `Switch.ThemeSwitch.PadFull` | custom_components/xiaoshi_theme/switch.py:98-103 | id `switch.theme_pad_full`, starts on |
| `Switch.ThemeSwitch.PadMode` | custom_components/xiaoshi_theme/switch.py:115-120 | id `switch.theme_pad_mode`, starts on |
| `Switch.ThemeSwitch.PadHue` | custom_components/xiaoshi_theme/switch.py:132-137 | id `switch.theme_pad_hue`, starts on |
| `Switch.ThemeSwitch.PhoneFull` | custom_components/xiaoshi_theme/switch.py:149-170 | id at the first free suffix of `switch.theme_phone_full_`, an id not yet present, starts on |
| `Switch.ThemeSwitch.PhoneMode` | custom_components/xiaoshi_theme/switch.py:176-197 | id at the first free suffix of `switch.theme_phone_mode_`, an id not yet present, starts on |
| `Switch.ThemeSwitch.State` | custom_components/xiaoshi_theme/switch.py:84-92 | the published state is "on" exactly when the flag is on |
| `Switch.ThemeSwitch.Restore` | custom_components/xiaoshi_theme/switch.py:74-82 | the flag becomes `RestoredIsOn` of the last state and the old flag |
| `Switch.ThemeSwitch.TurnOn` | custom_components/xiaoshi_theme/switch.py:84-87 | the flag is on; the id is constant |
| `Switch.ThemeSwitch.TurnOff` | custom_components/xiaoshi_theme/switch.py:89-92 | the flag is off; the id is constant |
| `Switch.SetupSwitches` | custom_components/xiaoshi_theme/switch.py:28-59 | a pad entry gets exactly the three pad switches, a phone entry exactly two probed phone switches, any other type none; all fresh and on |
| `Number.TruncToInt` | custom_components/xiaoshi_theme/number.py:68-71 | `int(value)` truncates toward zero: the result is within one of the value, on the side of zero |
| `Number.TruncToIntWhole` | custom_components/xiaoshi_theme/number.py:68-71 | a whole value is stored unchanged |
| `Number.TruncToIntOdd` | custom_components/xiaoshi_theme/number.py:103-106 | truncation is symmetric about zero (not flooring) |
| `Number.ThemeNumber.PadHue` | custom_components/xiaoshi_theme/number.py:52-66 | id `number.theme_pad_hue`, range 1..360, step 1, value 1 |
| `Number.ThemeNumber.PhoneMode` | custom_components/xiaoshi_theme/number.py:77-101 | id at the first free suffix of `number.theme_phone_mode_`, range 1..8, step 1, value 1 |
| `Number.ThemeNumber.SetNativeValue` | custom_components/xiaoshi_theme/number.py:68-71 | stores the truncated value, with no clamping; range and id are constant |
| `Number.SetupNumbers` | custom_components/xiaoshi_theme/number.py:22-46 | a pad entry gets only the hue number, a phone entry only one probed mode number, any other type none; all fresh at 1 |
| `Select.PadModeSelect.constructor` | custom_components/xiaoshi_theme/select.py:45-59 | id `select.theme_pad_mode`, options exactly [彩平图, 黑平图], starts on 彩平图 |
| `Select.PadModeSelect.SelectOption` | custom_components/xiaoshi_theme/select.py:61-64 | shows the given option as given, without validation; id and options are constant |
| `Select.SetupSelects` | custom_components/xiaoshi_theme/select.py:22-36 | a selector on 彩平图 for a pad entry only |
| `Integration.KeyNameInjective` | custom_components/xiaoshi_theme/__init__.py:45-46 | with entry ids that are not reserved names, different keys are different strings |
| `Integration.InsertedFrame` | custom_components/xiaoshi_theme/__init__.py:24-25 | storing adds exactly the entry's key with its data and keeps every other key and the timer handles |
| `Integration.StartFrame` | custom_components/xiaoshi_theme/coordinator.py:101-115 | starting the coordinator stores two fresh handles under the timer keys and keeps every entry |
| `Integration.CountOneIffOnlyEntry` | custom_components/xiaoshi_theme/__init__.py:30 | after storing, the count of non-timer keys is 1 exactly when no other entry was stored |
| `Integration.SetupStoresEntry` | custom_components/xiaoshi_theme/__init__.py:22-36 | setup stores the entry's data under its id and keeps every other entry |
| `Integration.SetupStartsOnFirstEntry` | custom_components/xiaoshi_theme/__init__.py:29-34 | with no other entry, setup registers the theme and hue timers with fresh handles, stores them and runs both rules; otherwise timers and handles are unchanged |
| `Integration.SetupStartsIffCountIsOne` | custom_components/xiaoshi_theme/__init__.py:30-34 | setup is storing the entry followed by starting the coordinator (two new timer handles) exactly when the non-timer key count after storing is 1 |
| `Integration.SetupKeepsInv` | custom_components/xiaoshi_theme/__init__.py:22-36 | setup keeps timer keys present exactly while an entry is stored, with handles below the fresh one |
| `Integration.SetupKeepsTracked` | custom_components/xiaoshi_theme/__init__.py:22-36 | setting up a new entry keeps every running timer behind a stored handle |
| `Integration.UnloadWithoutPop` | custom_components/xiaoshi_theme/__init__.py:38-42 | a refused platform unload changes nothing but the event log; an unstored entry raises KeyError |
| `Integration.UnloadRemovesEntry` | custom_components/xiaoshi_theme/__init__.py:40-42 | a successful unload removes exactly the entry's key and keeps every other entry |
| `Integration.UnloadLastCancelsTimers` | custom_components/xiaoshi_theme/__init__.py:44-59 | unloading the last entry cancels each timer once, theme first, and leaves the dictionary empty and no timer running |
| `Integration.UnloadKeepsTimersWhileEntriesRemain` | custom_components/xiaoshi_theme/__init__.py:44-59 | while other entries remain, timers and handles are untouched |
| `Integration.UnloadKeepsInv` | custom_components/xiaoshi_theme/__init__.py:38-63 | unload keeps the dictionary invariant and every running timer behind a stored handle |
| `Integration.ReloadOnlyEntryRestartsTimers` | custom_components/xiaoshi_theme/__init__.py:65-75 | reloading the only entry cancels both timers and registers a new pair, which alone run afterwards |
| `Integration.ReloadAfterFailedUnloadLeaksTimers` | custom_components/xiaoshi_theme/__init__.py:65-75 | when the platform unload is refused, reload registers a second pair and overwrites the handles of the running pair, which can no longer be cancelled |
| `Integration.ReloadOneOfSeveralKeepsTimers` | custom_components/xiaoshi_theme/__init__.py:65-75 | reloading one of several entries stores its data again and leaves the timers alone |
| `DomainStore.DomainData.constructor` | custom_components/xiaoshi_theme/__init__.py:17-20 | the shared dictionary starts empty, with no timer running |
| `DomainStore.DomainData.SetupCoordinator` | custom_components/xiaoshi_theme/coordinator.py:92-122 | registers the theme timer then the hue timer, stores their handles, then runs the theme rule and the hue rule once |
| `DomainStore.DomainData.StoreEntry` | custom_components/xiaoshi_theme/__init__.py:24-27 | stores the entry's data under its id and forwards its platforms |
| `DomainStore.DomainData.SetupEntry` | custom_components/xiaoshi_theme/__init__.py:22-36 | follows `AfterSetup` in place, returns true and keeps the invariant |
| `DomainStore.DomainData.UnloadEntry` | custom_components/xiaoshi_theme/__init__.py:38-63 | follows `AfterUnload` in place and keeps the invariant |
| `DomainStore.DomainData.Reload` | custom_components/xiaoshi_theme/__init__.py:65-75 | unload then setup in place, as `AfterReload`, keeping the invariant |

## Left out

- The sunrise/sunset computation, time zones and the current instant: `is_daytime` consults an
  oracle that gives sunrise, now and sunset or fails.
- Parsing state strings with `int(float(state))`: an entity's numeric reading is an optional
  integer (None where the parse raises). Latitude and longitude are opaque reals passed through.
- `int(value)` on a NaN or infinite float, which raises; `TruncToInt` takes finite values.
- Async execution, the event loop and `async_track_time_interval`: timers are handles recorded
  with their period in an event log, and ticks are explicit calls of the rule methods.
- Service-call delivery is `ApplyWrites` on the snapshot. The host's enforcement of a number's
  min/max on `number.set_value` is not modelled.
- Logging, DeviceInfo, unique ids, display names and the friendly-name lookup for phone
  entities.
- The config flow. Its check that at most one pad entry exists is not needed by the proofs: the
  pad rule uses the first pad entry whatever follows (`PadUsesFirstPadEntryOnly`).
- The host's restore-state store beyond an optional last state for a switch.
- `Integration.KeyNameInjective`: entry ids equal to `update_remove`, `hue_update_remove` or
  `update_callback` are not modelled, because the dictionary keys are a datatype that keeps
  entries and timer keys apart; the host's entry ids are generated and never take those names.
- An entry without a location source id: the model resolves no location and skips that profile
  (or the pad rule), while the host's state lookup on a missing id would raise and end the phone
  loop. The config flow makes the id a required field, so stored entries always carry one.
- Platform forwarding and platform unload are events and a boolean answer; the entity objects
  they create are not linked to the dictionary.

/** Entry bookkeeping: the integration's shared dictionary of config entries and timer-cancel
    handles, and the setup, unload and reload of a config entry.  The timers themselves, the
    platform forwarding and the rule runs are recorded as events in the order they happen. */
module Integration {
  import opened Host
  import opened ThemeConst

  // ---------------------------------------------------------------------------------------------
  // The shared dictionary

  /** A key of the shared dictionary: a config entry's id, or one of the three reserved keys. */
  datatype Key = EntryKey(id: string) | UpdateRemove | HueUpdateRemove | UpdateCallback

  /** The string each key is in the dictionary. */
  function KeyName(k: Key): string {
    match k
    case EntryKey(id) => id
    case UpdateRemove => UPDATE_REMOVE
    case HueUpdateRemove => HUE_UPDATE_REMOVE
    case UpdateCallback => UPDATE_CALLBACK
  }

  predicate IsReservedName(id: string) {
    id == UPDATE_REMOVE || id == HUE_UPDATE_REMOVE || id == UPDATE_CALLBACK
  }

  /** Different keys are different strings, as long as no entry id is one of the reserved names:
      keeping the keys apart as a datatype loses nothing then. */
  lemma KeyNameInjective(a: Key, b: Key)
    requires a.EntryKey? ==> !IsReservedName(a.id)
    requires b.EntryKey? ==> !IsReservedName(b.id)
    ensures KeyName(a) == KeyName(b) <==> a == b
  {
    assert UPDATE_REMOVE[0] == 'u' && HUE_UPDATE_REMOVE[0] == 'h';
    assert UPDATE_REMOVE[7] == 'r' && UPDATE_CALLBACK[7] == 'c';
  }

  /** A value of the shared dictionary: an entry's data, or the cancel handle of a timer. */
  datatype Slot = EntrySlot(data: EntryData) | TimerSlot(handle: nat)

  type Dict = map<Key, Slot>

  /** What setup and unload do outside the dictionary. */
  datatype Event =
    | PlatformsForwarded(entryId: string)
    | PlatformsUnloaded(entryId: string)
    | Registered(key: Key, minutes: nat, handle: nat)
    | Cancelled(handle: nat)
    | RanThemeUpdate
    | RanHueUpdate

  /** What unloading an entry ends in: the host's platform-unload answer, or the KeyError raised
      when the platforms unloaded but the entry is not in the dictionary. */
  datatype UnloadResult = Unloaded(ok: bool) | KeyErrorRaised

  predicate IsTimerKey(k: Key) { k == UpdateRemove || k == HueUpdateRemove }

  /** The keys setup counts: all but the two timer keys. */
  function EntryKeys(m: Dict): set<Key> {
    m.Keys - {UpdateRemove, HueUpdateRemove}
  }

  /** The keys unload counts: all but the two timer keys and `update_callback`. */
  function RemainingKeys(m: Dict): set<Key> {
    m.Keys - {UpdateRemove, HueUpdateRemove, UpdateCallback}
  }

  /** The handles stored under the timer keys. */
  function TimerHandles(m: Dict): set<nat> {
    (if UpdateRemove in m && m[UpdateRemove].TimerSlot? then {m[UpdateRemove].handle} else {})
    + (if HueUpdateRemove in m && m[HueUpdateRemove].TimerSlot? then {m[HueUpdateRemove].handle} else {})
  }

  /** The cancellations unload performs: the theme timer's handle, then the hue timer's, each
      when stored. */
  function CancelEvents(m: Dict): seq<Event> {
    (if UpdateRemove in m && m[UpdateRemove].TimerSlot? then [Cancelled(m[UpdateRemove].handle)] else [])
    + (if HueUpdateRemove in m && m[HueUpdateRemove].TimerSlot? then [Cancelled(m[HueUpdateRemove].handle)] else [])
  }

  /** Timer keys hold handles and every other key holds an entry; `update_callback` is never
      stored; the two timer keys are present exactly while some entry is. */
  ghost predicate WellKeyed(m: Dict) {
    && (forall k :: k in m ==> (m[k].TimerSlot? <==> IsTimerKey(k)))
    && UpdateCallback !in m
    && (UpdateRemove in m <==> EntryKeys(m) != {})
    && (HueUpdateRemove in m <==> EntryKeys(m) != {})
  }

  /** The events of starting the coordinator with fresh handles `h` and `h + 1`: the theme timer,
      then the hue timer, then one theme run and one hue run. */
  function CoordinatorStart(h: nat): seq<Event> {
    [Registered(UpdateRemove, UPDATE_INTERVAL_MINUTES, h),
     Registered(HueUpdateRemove, HUE_UPDATE_INTERVAL_MINUTES, h + 1),
     RanThemeUpdate, RanHueUpdate]
  }

  // ---------------------------------------------------------------------------------------------
  // The operations on values

  /** The integration's state as a value: the shared dictionary, the event log, the next fresh
      timer handle and the host's running timers. */
  datatype Domain = Domain(data: Dict, events: seq<Event>, nextHandle: nat, running: set<nat>)

  /** The dictionary is well keyed and every handle, running or stored, lies below the fresh one. */
  ghost predicate Inv(s: Domain) {
    && WellKeyed(s.data)
    && (forall h :: h in s.running ==> h < s.nextHandle)
    && (forall h :: h in TimerHandles(s.data) ==> h < s.nextHandle)
  }

  /** Every running timer can be cancelled through a stored handle, and every stored handle is a
      running timer. */
  ghost predicate Tracked(s: Domain) {
    s.running == TimerHandles(s.data)
  }

  /** Starting the coordinator: the theme timer and then the hue timer are registered with fresh
      handles, which are stored under the two timer keys, and each rule runs once. */
  function AfterStart(s: Domain): Domain {
    var h := s.nextHandle;
    Domain(s.data[UpdateRemove := TimerSlot(h)][HueUpdateRemove := TimerSlot(h + 1)],
           s.events + CoordinatorStart(h), h + 2, s.running + {h, h + 1})
  }

  /** The entry's data stored under its id and its platforms forwarded. */
  function Inserted(s: Domain, entry: ConfigEntry): Domain {
    s.(data := s.data[EntryKey(entry.entryId) := EntrySlot(entry.data)],
       events := s.events + [PlatformsForwarded(entry.entryId)])
  }

  /** Setting up an entry: its data is stored, the platforms are forwarded, and the coordinator
      starts when no other entry was stored.  The handler counts the keys other than the two
      timer keys after storing and starts at a count of one; `CountOneIffOnlyEntry` shows the two
      conditions agree. */
  function AfterSetup(s: Domain, entry: ConfigEntry): Domain {
    var inserted := Inserted(s, entry);
    if EntryKeys(s.data) <= {EntryKey(entry.entryId)} then AfterStart(inserted) else inserted
  }

  /** Each stored timer handle cancelled and removed, the theme timer's first. */
  function AfterCancel(s: Domain): Domain {
    s.(data := s.data - {UpdateRemove, HueUpdateRemove},
       events := s.events + CancelEvents(s.data),
       running := s.running - TimerHandles(s.data))
  }

  /** Unloading an entry whose platforms the host unloads with answer `unloadOk`. */
  function AfterUnload(s: Domain, entry: ConfigEntry, unloadOk: bool): (Domain, UnloadResult) {
    var t := s.(events := s.events + [PlatformsUnloaded(entry.entryId)]);
    if !unloadOk then (t, Unloaded(false))
    else if EntryKey(entry.entryId) !in t.data then (t, KeyErrorRaised)
    else
      var popped := t.(data := t.data - {EntryKey(entry.entryId)});
      if RemainingKeys(popped.data) == {} then (AfterCancel(popped), Unloaded(true))
      else (popped, Unloaded(true))
  }

  /** Reloading: unload, then setup, whatever the unload answered; a KeyError from the unload
      propagates and skips the setup.  The second component says whether it was raised. */
  function AfterReload(s: Domain, entry: ConfigEntry, unloadOk: bool): (Domain, bool) {
    var u := AfterUnload(s, entry, unloadOk);
    if u.1 == KeyErrorRaised then (u.0, true) else (AfterSetup(u.0, entry), false)
  }

  // ---------------------------------------------------------------------------------------------
  // Setup

  /** Storing the entry adds exactly its key to the counted ones, keeps every other key's value
      and leaves the timer handles and the timers alone. */
  lemma InsertedFrame(s: Domain, entry: ConfigEntry)
    ensures var t := Inserted(s, entry);
      && t.data.Keys == s.data.Keys + {EntryKey(entry.entryId)}
      && t.data[EntryKey(entry.entryId)] == EntrySlot(entry.data)
      && EntryKeys(t.data) == EntryKeys(s.data) + {EntryKey(entry.entryId)}
      && (forall k :: k in s.data && k != EntryKey(entry.entryId) ==> t.data[k] == s.data[k])
      && TimerHandles(t.data) == TimerHandles(s.data)
  {
  }

  /** Starting the coordinator keeps every counted key and its value, and stores the two fresh
      handles, which then run. */
  lemma StartFrame(s: Domain)
    ensures var t := AfterStart(s);
      && t.data.Keys == s.data.Keys + {UpdateRemove, HueUpdateRemove}
      && EntryKeys(t.data) == EntryKeys(s.data)
      && (forall k :: k in s.data && !IsTimerKey(k) ==> t.data[k] == s.data[k])
      && TimerHandles(t.data) == {s.nextHandle, s.nextHandle + 1}
  {
  }

  /** A set holding two different members has at least two. */
  lemma TwoMembers<T>(s: set<T>, a: T, b: T)
    requires a in s && b in s && a != b
    ensures |s| >= 2
  {
    var rest := s - {a};
    assert s == rest + {a};
    assert b in rest;
  }

  /** After storing an entry exactly one key is counted when no other entry was present. */
  lemma CountOneIffOnlyEntry(m: Dict, k: Key, x: Slot)
    requires !IsTimerKey(k)
    ensures |EntryKeys(m[k := x])| == 1 <==> EntryKeys(m) <= {k}
  {
    var keys := EntryKeys(m[k := x]);
    assert k in keys;
    if EntryKeys(m) <= {k} {
      assert keys == {k};
    } else {
      var other :| other in EntryKeys(m) && other != k;
      assert other in keys;
      TwoMembers(keys, other, k);
    }
  }

  /** Setup stores the entry's data under its id and leaves every other entry as it was. */
  lemma SetupStoresEntry(s: Domain, entry: ConfigEntry)
    ensures var t := AfterSetup(s, entry);
      && EntryKey(entry.entryId) in t.data && t.data[EntryKey(entry.entryId)] == EntrySlot(entry.data)
      && EntryKeys(t.data) == EntryKeys(s.data) + {EntryKey(entry.entryId)}
      && forall k :: k in s.data && k != EntryKey(entry.entryId) && !IsTimerKey(k) ==> t.data[k] == s.data[k]
  {
    InsertedFrame(s, entry);
    StartFrame(Inserted(s, entry));
  }

  /** The coordinator starts exactly when no other entry is present: then both timers are
      registered with fresh handles, which are stored, and each rule runs once; otherwise neither
      the timers nor their handles change. */
  lemma SetupStartsOnFirstEntry(s: Domain, entry: ConfigEntry)
    ensures var t := AfterSetup(s, entry);
      EntryKeys(s.data) <= {EntryKey(entry.entryId)} ==>
        && t.events == s.events + [PlatformsForwarded(entry.entryId)] + CoordinatorStart(s.nextHandle)
        && t.data[UpdateRemove] == TimerSlot(s.nextHandle)
        && t.data[HueUpdateRemove] == TimerSlot(s.nextHandle + 1)
        && t.running == s.running + {s.nextHandle, s.nextHandle + 1}
    ensures var t := AfterSetup(s, entry);
      !(EntryKeys(s.data) <= {EntryKey(entry.entryId)}) ==>
        && t.events == s.events + [PlatformsForwarded(entry.entryId)]
        && TimerHandles(t.data) == TimerHandles(s.data)
        && t.running == s.running && t.nextHandle == s.nextHandle
  {
    InsertedFrame(s, entry);
    if EntryKeys(s.data) <= {EntryKey(entry.entryId)} {
      StartFrame(Inserted(s, entry));
    }
  }

  /** The coordinator starts (`AfterStart`, which takes two new timer handles) exactly when the
      count the handler takes after storing the entry, of the keys other than the two timer keys,
      is one. */
  lemma SetupStartsIffCountIsOne(s: Domain, entry: ConfigEntry)
    ensures AfterSetup(s, entry) == AfterStart(Inserted(s, entry))
        <==> |EntryKeys(Inserted(s, entry).data)| == 1
    ensures AfterSetup(s, entry).nextHandle == s.nextHandle + 2
        <==> |EntryKeys(Inserted(s, entry).data)| == 1
  {
    CountOneIffOnlyEntry(s.data, EntryKey(entry.entryId), EntrySlot(entry.data));
  }

  /** Storing an entry next to other entries keeps the dictionary well keyed. */
  lemma InsertWellKeyed(m: Dict, k: Key, x: Slot)
    requires WellKeyed(m) && !IsTimerKey(k) && k != UpdateCallback && x.EntrySlot?
    requires EntryKeys(m) != {}
    ensures WellKeyed(m[k := x])
  {
    assert EntryKeys(m) <= EntryKeys(m[k := x]);
  }

  /** Storing both timer handles next to some entry makes the dictionary well keyed. */
  lemma StartWellKeyed(m: Dict, h: nat)
    requires forall k :: k in m ==> (m[k].TimerSlot? <==> IsTimerKey(k))
    requires UpdateCallback !in m && EntryKeys(m) != {}
    ensures var started := m[UpdateRemove := TimerSlot(h)][HueUpdateRemove := TimerSlot(h + 1)];
      WellKeyed(started) && TimerHandles(started) == {h, h + 1}
  {
    var started := m[UpdateRemove := TimerSlot(h)][HueUpdateRemove := TimerSlot(h + 1)];
    assert EntryKeys(m) <= EntryKeys(started);
  }

  /** Starting the coordinator next to a stored entry and without stored handles keeps the
      invariant. */
  lemma StartKeepsInv(s: Domain)
    requires forall k :: k in s.data ==> (s.data[k].TimerSlot? <==> IsTimerKey(k))
    requires UpdateCallback !in s.data && EntryKeys(s.data) != {}
    requires forall h :: h in s.running ==> h < s.nextHandle
    ensures Inv(AfterStart(s))
  {
    StartWellKeyed(s.data, s.nextHandle);
  }

  /** Storing an entry next to other entries keeps the invariant. */
  lemma InsertKeepsInv(s: Domain, entry: ConfigEntry)
    requires Inv(s) && EntryKeys(s.data) != {}
    ensures Inv(Inserted(s, entry))
  {
    InsertWellKeyed(s.data, EntryKey(entry.entryId), EntrySlot(entry.data));
    InsertedFrame(s, entry);
  }

  /** Setup keeps the dictionary well keyed and bounded. */
  lemma SetupKeepsInv(s: Domain, entry: ConfigEntry)
    requires Inv(s)
    ensures Inv(AfterSetup(s, entry))
  {
    var k := EntryKey(entry.entryId);
    var i := Inserted(s, entry);
    if EntryKeys(s.data) <= {k} {
      InsertedFrame(s, entry);
      assert forall j :: j in i.data ==> (i.data[j].TimerSlot? <==> IsTimerKey(j));
      StartKeepsInv(i);
      assert AfterSetup(s, entry) == AfterStart(i);
    } else {
      InsertKeepsInv(s, entry);
      assert AfterSetup(s, entry) == i;
    }
  }

  /** Setting up a new entry keeps every running timer behind a stored handle. */
  lemma SetupKeepsTracked(s: Domain, entry: ConfigEntry)
    requires Inv(s) && Tracked(s) && EntryKey(entry.entryId) !in s.data
    ensures Tracked(AfterSetup(s, entry))
  {
    var i := Inserted(s, entry);
    InsertedFrame(s, entry);
    if EntryKeys(s.data) <= {EntryKey(entry.entryId)} {
      assert EntryKeys(s.data) == {};
      StartFrame(i);
    }
  }

  // ---------------------------------------------------------------------------------------------
  // Unload

  /** When the platforms refuse to unload, or the entry is not stored, only the unload event is
      recorded; the latter raises. */
  lemma UnloadWithoutPop(s: Domain, entry: ConfigEntry, unloadOk: bool)
    requires !unloadOk || EntryKey(entry.entryId) !in s.data
    ensures var (t, r) := AfterUnload(s, entry, unloadOk);
      && t == s.(events := s.events + [PlatformsUnloaded(entry.entryId)])
      && r == (if unloadOk then KeyErrorRaised else Unloaded(false))
  {
  }

  /** A successful unload removes exactly the entry's key from the counted ones. */
  lemma UnloadRemovesEntry(s: Domain, entry: ConfigEntry)
    requires EntryKey(entry.entryId) in s.data
    ensures var (t, r) := AfterUnload(s, entry, true);
      && r == Unloaded(true)
      && EntryKey(entry.entryId) !in t.data
      && EntryKeys(t.data) == EntryKeys(s.data) - {EntryKey(entry.entryId)}
      && forall k :: k in s.data && k != EntryKey(entry.entryId) && !IsTimerKey(k) ==> k in t.data && t.data[k] == s.data[k]
  {
  }

  /** Unloading the last entry cancels each of the two timers once, theme timer first, and leaves
      the dictionary empty and no timer running. */
  lemma UnloadLastCancelsTimers(s: Domain, entry: ConfigEntry)
    requires Inv(s) && Tracked(s) && EntryKeys(s.data) == {EntryKey(entry.entryId)}
    ensures var (t, r) := AfterUnload(s, entry, true);
      && r == Unloaded(true)
      && t.data == map[] && t.running == {}
      && t.events == s.events + [PlatformsUnloaded(entry.entryId),
                                 Cancelled(s.data[UpdateRemove].handle),
                                 Cancelled(s.data[HueUpdateRemove].handle)]
  {
    var popped := s.data - {EntryKey(entry.entryId)};
    assert s.data.Keys == {EntryKey(entry.entryId), UpdateRemove, HueUpdateRemove};
    assert RemainingKeys(popped) == {};
    assert popped - {UpdateRemove, HueUpdateRemove} == map[];
  }

  /** While other entries remain, unload leaves the timers and their handles alone. */
  lemma UnloadKeepsTimersWhileEntriesRemain(s: Domain, entry: ConfigEntry)
    requires Inv(s) && EntryKey(entry.entryId) in s.data
    requires EntryKeys(s.data) - {EntryKey(entry.entryId)} != {}
    ensures var (t, r) := AfterUnload(s, entry, true);
      && t.data == s.data - {EntryKey(entry.entryId)}
      && t.events == s.events + [PlatformsUnloaded(entry.entryId)]
      && t.running == s.running
      && TimerHandles(t.data) == TimerHandles(s.data)
  {
    var popped := s.data - {EntryKey(entry.entryId)};
    assert EntryKeys(popped) == EntryKeys(s.data) - {EntryKey(entry.entryId)};
  }

  /** Unload keeps the dictionary well keyed and bounded, and every running timer behind a
      stored handle. */
  lemma UnloadKeepsInv(s: Domain, entry: ConfigEntry, unloadOk: bool)
    requires Inv(s)
    ensures Inv(AfterUnload(s, entry, unloadOk).0)
    ensures Tracked(s) ==> Tracked(AfterUnload(s, entry, unloadOk).0)
  {
    if unloadOk && EntryKey(entry.entryId) in s.data {
      var popped := s.data - {EntryKey(entry.entryId)};
      assert EntryKeys(popped) == EntryKeys(s.data) - {EntryKey(entry.entryId)};
      if RemainingKeys(popped) == {} {
        assert EntryKeys(popped) == {};
        var cleared := popped - {UpdateRemove, HueUpdateRemove};
        assert EntryKeys(cleared) == {};
        assert TimerHandles(cleared) == {};
        assert AfterUnload(s, entry, unloadOk).0.data == cleared;
      } else {
        assert TimerHandles(popped) == TimerHandles(s.data);
        assert AfterUnload(s, entry, unloadOk).0.data == popped;
      }
    }
  }

  // ---------------------------------------------------------------------------------------------
  // Reload

  /** Reloading the only entry cancels both timers and registers a new pair, so exactly the new
      timers run afterwards. */
  lemma ReloadOnlyEntryRestartsTimers(s: Domain, entry: ConfigEntry)
    requires Inv(s) && Tracked(s) && EntryKeys(s.data) == {EntryKey(entry.entryId)}
    ensures var (t, raised) := AfterReload(s, entry, true);
      && !raised
      && t.data == map[EntryKey(entry.entryId) := EntrySlot(entry.data),
                       UpdateRemove := TimerSlot(s.nextHandle),
                       HueUpdateRemove := TimerSlot(s.nextHandle + 1)]
      && t.events == s.events + [PlatformsUnloaded(entry.entryId),
                                 Cancelled(s.data[UpdateRemove].handle),
                                 Cancelled(s.data[HueUpdateRemove].handle),
                                 PlatformsForwarded(entry.entryId)]
                              + CoordinatorStart(s.nextHandle)
      && t.running == {s.nextHandle, s.nextHandle + 1}
      && Tracked(t)
  {
    UnloadLastCancelsTimers(s, entry);
    var u := AfterUnload(s, entry, true).0;
    assert u.data == map[] && u.running == {} && u.nextHandle == s.nextHandle;
    assert EntryKeys(u.data) == {};
    var i := Inserted(u, entry);
    assert i.data == map[EntryKey(entry.entryId) := EntrySlot(entry.data)];
    assert AfterReload(s, entry, true) == (AfterStart(i), false);
    StartFrame(i);
  }

  /** When the platforms refuse to unload, reloading the only entry still runs its setup, which
      registers a second pair of timers and overwrites the handles of the running pair: those
      timers keep running and no stored handle can cancel them any more. */
  lemma ReloadAfterFailedUnloadLeaksTimers(s: Domain, entry: ConfigEntry)
    requires Inv(s) && Tracked(s) && EntryKeys(s.data) == {EntryKey(entry.entryId)}
    ensures var (t, raised) := AfterReload(s, entry, false);
      && !raised
      && t.events == s.events + [PlatformsUnloaded(entry.entryId), PlatformsForwarded(entry.entryId)]
                              + CoordinatorStart(s.nextHandle)
      && TimerHandles(s.data) != {}
      && TimerHandles(s.data) <= t.running
      && TimerHandles(s.data) !! TimerHandles(t.data)
      && !Tracked(t)
  {
    var u := s.(events := s.events + [PlatformsUnloaded(entry.entryId)]);
    SetupStartsOnFirstEntry(u, entry);
    StartFrame(Inserted(u, entry));
    assert s.data[UpdateRemove].handle in TimerHandles(s.data);
  }

  /** Reloading one of several entries stores its data again and leaves the timers alone. */
  lemma ReloadOneOfSeveralKeepsTimers(s: Domain, entry: ConfigEntry)
    requires Inv(s) && EntryKey(entry.entryId) in s.data
    requires EntryKeys(s.data) - {EntryKey(entry.entryId)} != {}
    ensures var (t, raised) := AfterReload(s, entry, true);
      && !raised
      && t.data == s.data[EntryKey(entry.entryId) := EntrySlot(entry.data)]
      && t.events == s.events + [PlatformsUnloaded(entry.entryId), PlatformsForwarded(entry.entryId)]
      && t.running == s.running && t.nextHandle == s.nextHandle
  {
    UnloadKeepsTimersWhileEntriesRemain(s, entry);
    var u := AfterUnload(s, entry, true).0;
    SetupStartsOnFirstEntry(u, entry);
    assert !(EntryKeys(u.data) <= {EntryKey(entry.entryId)});
    assert u.data[EntryKey(entry.entryId) := EntrySlot(entry.data)]
        == s.data[EntryKey(entry.entryId) := EntrySlot(entry.data)];
  }
}

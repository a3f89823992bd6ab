/** The integration's shared dictionary as the object the host keeps, updated in place by the
    setup, unload and reload handlers; each handler is proved to do what its function in
    `Integration` says and to keep the invariant. */
module DomainStore {
  import opened Host
  import opened ThemeConst
  import opened Integration

  /** The integration's shared dictionary, the log of events, the next fresh timer handle and the
      host's running timers. */
  class DomainData {
    var data: Dict
    var events: seq<Event>
    var nextHandle: nat
    var running: set<nat>

    function State(): Domain
      reads this
    {
      Domain(data, events, nextHandle, running)
    }

    ghost predicate Valid()
      reads this
    {
      Inv(State())
    }

    /** The dictionary as the component's own setup leaves it: empty. */
    constructor ()
      ensures State() == Domain(map[], [], 0, {})
      ensures Valid() && Tracked(State())
    {
      data, events, nextHandle, running := map[], [], 0, {};
    }

    /** Registers the theme timer and then the hue timer, stores their cancel handles, and runs
        the theme rule and then the hue rule once. */
    method SetupCoordinator()
      modifies this
      ensures State() == AfterStart(old(State()))
    {
      var h := nextHandle;
      events := events + [Registered(UpdateRemove, UPDATE_INTERVAL_MINUTES, h)];
      running := running + {h};
      data := data[UpdateRemove := TimerSlot(h)];
      events := events + [Registered(HueUpdateRemove, HUE_UPDATE_INTERVAL_MINUTES, h + 1)];
      running := running + {h + 1};
      data := data[HueUpdateRemove := TimerSlot(h + 1)];
      nextHandle := h + 2;
      events := events + [RanThemeUpdate];
      events := events + [RanHueUpdate];
    }

    /** Stores the entry's data under its id and forwards its platforms. */
    method StoreEntry(entry: ConfigEntry)
      modifies this
      ensures State() == Inserted(old(State()), entry)
    {
      data := data[EntryKey(entry.entryId) := EntrySlot(entry.data)];
      events := events + [PlatformsForwarded(entry.entryId)];
    }

    method SetupEntry(entry: ConfigEntry) returns (ok: bool)
      requires Valid()
      modifies this
      ensures ok && State() == AfterSetup(old(State()), entry)
      ensures Valid()
    {
      ghost var before := State();
      SetupKeepsInv(before, entry);
      CountOneIffOnlyEntry(data, EntryKey(entry.entryId), EntrySlot(entry.data));
      StoreEntry(entry);
      if |EntryKeys(data)| == 1 {
        SetupCoordinator();
      }
      ok := true;
    }

    method UnloadEntry(entry: ConfigEntry, unloadOk: bool) returns (r: UnloadResult)
      requires Valid()
      modifies this
      ensures (State(), r) == AfterUnload(old(State()), entry, unloadOk)
      ensures Valid()
    {
      UnloadKeepsInv(State(), entry, unloadOk);
      events := events + [PlatformsUnloaded(entry.entryId)];
      if !unloadOk {
        return Unloaded(false);
      }
      if EntryKey(entry.entryId) !in data {
        return KeyErrorRaised;
      }
      data := data - {EntryKey(entry.entryId)};
      ghost var popped := State();
      if RemainingKeys(data) == {} {
        if UpdateRemove in data {
          var handle := data[UpdateRemove].handle;
          events := events + [Cancelled(handle)];
          running := running - {handle};
          data := data - {UpdateRemove};
        }
        if HueUpdateRemove in data {
          var handle := data[HueUpdateRemove].handle;
          events := events + [Cancelled(handle)];
          running := running - {handle};
          data := data - {HueUpdateRemove};
        }
        assert State() == AfterCancel(popped);
      }
      r := Unloaded(true);
    }

    method Reload(entry: ConfigEntry, unloadOk: bool) returns (raised: bool)
      requires Valid()
      modifies this
      ensures (State(), raised) == AfterReload(old(State()), entry, unloadOk)
      ensures Valid()
    {
      var r := UnloadEntry(entry, unloadOk);
      if r == KeyErrorRaised {
        return true;
      }
      var _ := SetupEntry(entry);
      raised := false;
    }
  }
}

/**
 * The integration's entry points: the per-entry bookkeeping in `hass.data`,
 * the update listener that works out which symbols a reconfiguration removed
 * and added, and the cleanup of the entity and device registries.
 */
module Integration {
  import opened Wrappers
  import opened Text
  import opened Config
  import opened Json
  import Sensor

  // ---------------------------------------------------------------------------
  // hass.data
  // ---------------------------------------------------------------------------

  type HassData = map<string, map<string, EntryData>>

  /** `hass.data` as far as this integration uses it: one dict per domain. */
  class Hass {
    var data: HassData

    constructor ()
      ensures data == map[]
    {
      data := map[];
    }
  }

  /** `hass.data.get(DOMAIN, {})` */
  function DomainData(d: HassData): map<string, EntryData> {
    if DOMAIN in d then d[DOMAIN] else map[]
  }

  /** `hass.data.setdefault(DOMAIN, {})[entryId] = data` */
  function Stored(d: HassData, entryId: string, data: EntryData): (r: HassData)
    ensures DomainData(r) == DomainData(d)[entryId := data]
    ensures forall k :: k in d && k != DOMAIN ==> k in r && r[k] == d[k]
    ensures r.Keys == d.Keys + {DOMAIN}
  {
    d[DOMAIN := DomainData(d)[entryId := data]]
  }

  /** `hass.data[DOMAIN].pop(entryId)`, which raises when either key is missing. */
  function Popped(d: HassData, entryId: string): (r: Result<HassData, PyError>)
    ensures r.Success? <==> DOMAIN in d && entryId in d[DOMAIN]
    ensures r.Failure? ==> r.error == KeyError(if DOMAIN !in d then DOMAIN else entryId)
    ensures r.Success? ==> DOMAIN in r.value
    ensures r.Success? ==> DomainData(r.value) == DomainData(d) - {entryId}
    ensures r.Success? ==> forall k :: k != DOMAIN ==> (k in r.value <==> k in d) && (k in d ==> r.value[k] == d[k])
  {
    if DOMAIN !in d then Failure(KeyError(DOMAIN))
    else if entryId !in d[DOMAIN] then Failure(KeyError(entryId))
    else Success(d[DOMAIN := d[DOMAIN] - {entryId}])
  }

  /** Unloading what setup stored gives back `hass.data` without that entry, whatever was there before. */
  lemma SetupThenUnload(d: HassData, entryId: string, data: EntryData)
    ensures Popped(Stored(d, entryId, data), entryId) == Success(d[DOMAIN := DomainData(d) - {entryId}])
  {
    var x := DomainData(d)[entryId := data];
    assert x - {entryId} == DomainData(d) - {entryId};
    assert d[DOMAIN := x][DOMAIN := x - {entryId}] == d[DOMAIN := x - {entryId}];
  }

  /** Setting up again after a successful unload stores what setting up alone would. */
  lemma StoredAfterPopped(d: HassData, entryId: string, data: EntryData)
    requires Popped(d, entryId).Success?
    ensures Stored(Popped(d, entryId).value, entryId, data) == Stored(d, entryId, data)
  {
    assert (d[DOMAIN] - {entryId})[entryId := data] == d[DOMAIN][entryId := data];
  }

  /** `async_setup` */
  method Setup(hass: Hass) returns (ok: bool)
    modifies hass
    ensures ok
    ensures hass.data == if DOMAIN in old(hass.data) then old(hass.data) else old(hass.data)[DOMAIN := map[]]
  {
    if DOMAIN !in hass.data {
      hass.data := hass.data[DOMAIN := map[]];
    }
    ok := true;
  }

  /** `async_setup_entry`: remember the entry's data under its id (forwarding to the sensor platform is the host's). */
  method SetupEntry(hass: Hass, entry: ConfigEntry) returns (ok: bool)
    modifies hass
    ensures ok
    ensures hass.data == Stored(old(hass.data), entry.entryId, entry.data)
  {
    hass.data := Stored(hass.data, entry.entryId, entry.data);
    ok := true;
  }

  /** `async_unload_entry`: forget the entry only when its platforms unloaded. */
  method UnloadEntry(hass: Hass, entry: ConfigEntry, platformsUnloaded: bool) returns (r: Result<bool, PyError>)
    modifies hass
    ensures !platformsUnloaded ==> r == Success(false) && hass.data == old(hass.data)
    ensures platformsUnloaded ==> match Popped(old(hass.data), entry.entryId)
                                  case Success(d) => r == Success(true) && hass.data == d
                                  case Failure(e) => r == Failure(e) && hass.data == old(hass.data)
  {
    if !platformsUnloaded {
      return Success(false);
    }
    var popped := Popped(hass.data, entry.entryId);
    if popped.Failure? {
      return Failure(popped.error);
    }
    hass.data := popped.value;
    r := Success(true);
  }

  /** `async_reload` as seen by `hass.data`: unload, then set up again from the entry's current data. */
  method Reload(hass: Hass, entry: ConfigEntry)
    modifies hass
    ensures hass.data == Stored(old(hass.data), entry.entryId, entry.data)
  {
    var unloaded := UnloadEntry(hass, entry, true);
    if unloaded.Success? {
      StoredAfterPopped(old(hass.data), entry.entryId, entry.data);
    }
    var _ := SetupEntry(hass, entry);
  }

  // ---------------------------------------------------------------------------
  // What a reconfiguration changed
  // ---------------------------------------------------------------------------

  /**
   * `old - new` and `new - old`: the symbols no longer tracked and the newly
   * tracked ones. Both are empty exactly when the set of symbols is unchanged.
   */
  function SymbolChanges(oldSymbols: set<string>, newSymbols: set<string>): (r: (set<string>, set<string>))
    ensures forall s :: s in r.0 <==> s in oldSymbols && s !in newSymbols
    ensures forall s :: s in r.1 <==> s in newSymbols && s !in oldSymbols
    ensures r.0 == {} && r.1 == {} <==> oldSymbols == newSymbols
  {
    (oldSymbols - newSymbols, newSymbols - oldSymbols)
  }

  // ---------------------------------------------------------------------------
  // Registries
  // ---------------------------------------------------------------------------

  datatype RegistryEntry = RegistryEntry(entityId: string, uniqueId: string, configEntryId: string, deviceId: Option<string>)

  /** The entity registry: entries by entity id. */
  class EntityRegistry {
    var entities: map<string, RegistryEntry>

    ghost predicate Valid()
      reads this
    {
      forall id :: id in entities ==> entities[id].entityId == id
    }
  }

  /** The device registry, by device id (no other device field is read). */
  class DeviceRegistry {
    var devices: set<string>
  }

  /** `symbol.lower() in unique_id.lower()` */
  predicate Matches(symbol: string, uniqueId: string) {
    Contains(Lower(uniqueId), Lower(symbol))
  }

  /** The symbols whose removal makes this entity match. */
  function MatchingSymbols(e: RegistryEntry, removed: set<string>): set<string> {
    set s | s in removed && Matches(s, e.uniqueId)
  }

  /** An entity is removed when it belongs to the entry and some removed symbol matches it. */
  predicate Selected(e: RegistryEntry, entryId: string, removed: set<string>) {
    e.configEntryId == entryId && exists s :: s in removed && Matches(s, e.uniqueId)
  }

  /** Some removed symbol matches exactly when the set of matching symbols is non-empty. */
  lemma MatchingSymbolsNonEmpty(e: RegistryEntry, removed: set<string>)
    ensures MatchingSymbols(e, removed) != {} <==> exists s :: s in removed && Matches(s, e.uniqueId)
  {
    if exists s :: s in removed && Matches(s, e.uniqueId) {
      var s :| s in removed && Matches(s, e.uniqueId);
      assert s in MatchingSymbols(e, removed);
    }
  }

  /** How many remove calls the entity receives: one per matching removed symbol. */
  function RemoveCallCount(e: RegistryEntry, entryId: string, removed: set<string>): (n: nat)
    ensures n == (if e.configEntryId == entryId then |MatchingSymbols(e, removed)| else 0)
    ensures n > 0 <==> Selected(e, entryId, removed)
  {
    MatchingSymbolsNonEmpty(e, removed);
    if e.configEntryId == entryId then |MatchingSymbols(e, removed)| else 0
  }

  /**
   * The match ignores case on both sides: upper-casing the symbol or the
   * unique id does not change which entities a symbol selects.
   */
  lemma MatchesIgnoresCase(symbol: string, uniqueId: string)
    ensures Matches(Upper(symbol), uniqueId) <==> Matches(symbol, uniqueId)
    ensures Matches(symbol, Upper(uniqueId)) <==> Matches(symbol, uniqueId)
  {
    LowerOfUpper(symbol);
    LowerOfUpper(uniqueId);
  }

  /** `if entity_entry.device_id:` (None and the empty string are both false). */
  predicate HasDevice(e: RegistryEntry) {
    e.deviceId.Some? && e.deviceId.value != ""
  }

  /** The devices of the selected entities among `ids`. */
  function DevicesOf(snapshot: map<string, RegistryEntry>, ids: set<string>, entryId: string, removed: set<string>): set<string> {
    set id | id in ids && id in snapshot && Selected(snapshot[id], entryId, removed) && HasDevice(snapshot[id])
           :: snapshot[id].deviceId.value
  }

  /** The registry once the selected entities among `ids` are gone. */
  function WithoutSelected(snapshot: map<string, RegistryEntry>, ids: set<string>, entryId: string, removed: set<string>)
    : map<string, RegistryEntry>
  {
    map id | id in snapshot && !(id in ids && Selected(snapshot[id], entryId, removed)) :: snapshot[id]
  }

  function Repeat(x: string, n: nat): (r: seq<string>)
    ensures |r| == n && forall i :: 0 <= i < n ==> r[i] == x
  {
    seq(n, _ => x)
  }

  lemma MultisetRepeatAppend(calls: seq<string>, x: string, n: nat)
    ensures forall y :: multiset(calls + Repeat(x, n))[y] == multiset(calls)[y] + (if y == x then n else 0)
    decreases n
  {
    assert multiset(Repeat(x, n)) == multiset{}[x := n] by {
      if n > 0 {
        assert Repeat(x, n) == Repeat(x, n - 1) + [x];
        MultisetRepeatAppend([], x, n - 1);
      }
    }
  }

  /**
   * The inner loop of `async_remove_entities` for one entity of this entry:
   * for each removed symbol that matches, remove the entity and, if it has a
   * device the device registry still knows, the device.
   */
  method RemoveMatches(entityRegistry: EntityRegistry, deviceRegistry: DeviceRegistry, e: RegistryEntry, removed: set<string>)
    returns (entityCalls: seq<string>, deviceCalls: seq<string>)
    modifies entityRegistry, deviceRegistry
    ensures var n := |MatchingSymbols(e, removed)|;
            && entityCalls == Repeat(e.entityId, n)
            && entityRegistry.entities == (if n > 0 then old(entityRegistry.entities) - {e.entityId} else old(entityRegistry.entities))
            && deviceCalls == (if n > 0 && HasDevice(e) && e.deviceId.value in old(deviceRegistry.devices)
                               then [e.deviceId.value] else [])
            && deviceRegistry.devices == old(deviceRegistry.devices) - (set d | d in deviceCalls)
  {
    entityCalls, deviceCalls := [], [];
    var rest := removed;
    while rest != {}
      invariant rest <= removed
      invariant var n := |MatchingSymbols(e, removed - rest)|;
                && entityCalls == Repeat(e.entityId, n)
                && entityRegistry.entities == (if n > 0 then old(entityRegistry.entities) - {e.entityId} else old(entityRegistry.entities))
                && deviceCalls == (if n > 0 && HasDevice(e) && e.deviceId.value in old(deviceRegistry.devices)
                                   then [e.deviceId.value] else [])
                && deviceRegistry.devices == old(deviceRegistry.devices) - (set d | d in deviceCalls)
      decreases rest
    {
      var s :| s in rest;
      ghost var before := MatchingSymbols(e, removed - rest);
      if Matches(s, e.uniqueId) {
        assert MatchingSymbols(e, removed - (rest - {s})) == before + {s};
        assert s !in before;
        entityCalls := entityCalls + [e.entityId];
        entityRegistry.entities := entityRegistry.entities - {e.entityId};
        if HasDevice(e) && e.deviceId.value in deviceRegistry.devices {
          deviceCalls := deviceCalls + [e.deviceId.value];
          deviceRegistry.devices := deviceRegistry.devices - {e.deviceId.value};
        }
      } else {
        assert MatchingSymbols(e, removed - (rest - {s})) == before;
      }
      rest := rest - {s};
    }
    assert removed - rest == removed;
  }

  lemma WithoutSelectedStep(snapshot: map<string, RegistryEntry>, done: set<string>, id: string, entryId: string, removed: set<string>)
    requires id in snapshot
    ensures WithoutSelected(snapshot, done + {id}, entryId, removed)
            == if Selected(snapshot[id], entryId, removed) then WithoutSelected(snapshot, done, entryId, removed) - {id}
               else WithoutSelected(snapshot, done, entryId, removed)
  {
  }

  lemma DevicesOfStep(snapshot: map<string, RegistryEntry>, done: set<string>, id: string, entryId: string, removed: set<string>)
    requires id in snapshot
    ensures var e := snapshot[id];
            DevicesOf(snapshot, done + {id}, entryId, removed)
            == DevicesOf(snapshot, done, entryId, removed)
               + (if Selected(e, entryId, removed) && HasDevice(e) then {e.deviceId.value} else {})
  {
  }

  /**
   * The state of the cleanup after the entities `done` have been visited:
   * the selected ones are gone with their devices, and each received one
   * remove call per matching removed symbol.
   */
  ghost predicate RemovalDone(snapshot: map<string, RegistryEntry>, done: set<string>, entryId: string, removed: set<string>,
                              oldDevices: set<string>, entities: map<string, RegistryEntry>, devices: set<string>,
                              entityCalls: seq<string>, deviceCalls: seq<string>)
  {
    && done <= snapshot.Keys
    && entities == WithoutSelected(snapshot, done, entryId, removed)
    && (forall id :: multiset(entityCalls)[id] == if id in done then RemoveCallCount(snapshot[id], entryId, removed) else 0)
    && devices == oldDevices - DevicesOf(snapshot, done, entryId, removed)
    && Distinct(deviceCalls)
    && (set d | d in deviceCalls) == oldDevices * DevicesOf(snapshot, done, entryId, removed)
  }

  /** Visiting one more entity keeps `RemovalDone`. */
  lemma RemovalStep(snapshot: map<string, RegistryEntry>, done: set<string>, id: string, entryId: string, removed: set<string>,
                    oldDevices: set<string>, entities: map<string, RegistryEntry>, devices: set<string>,
                    entityCalls: seq<string>, deviceCalls: seq<string>,
                    calls: seq<string>, devCalls: seq<string>, entities': map<string, RegistryEntry>, devices': set<string>)
    requires id in snapshot && id !in done && snapshot[id].entityId == id
    requires RemovalDone(snapshot, done, entryId, removed, oldDevices, entities, devices, entityCalls, deviceCalls)
    requires var e, n := snapshot[id], RemoveCallCount(snapshot[id], entryId, removed);
             && calls == Repeat(id, n)
             && entities' == (if n > 0 then entities - {id} else entities)
             && devCalls == (if n > 0 && HasDevice(e) && e.deviceId.value in devices then [e.deviceId.value] else [])
             && devices' == devices - (set d | d in devCalls)
    ensures RemovalDone(snapshot, done + {id}, entryId, removed, oldDevices, entities', devices',
                        entityCalls + calls, deviceCalls + devCalls)
  {
    WithoutSelectedStep(snapshot, done, id, entryId, removed);
    CallCountStep(snapshot, done, id, entryId, removed, entityCalls, calls);
    DeviceStep(snapshot, done, id, entryId, removed, oldDevices, devices, deviceCalls, devCalls, devices');
  }

  lemma CallCountStep(snapshot: map<string, RegistryEntry>, done: set<string>, id: string, entryId: string, removed: set<string>,
                      entityCalls: seq<string>, calls: seq<string>)
    requires id in snapshot && id !in done && done <= snapshot.Keys
    requires forall x :: multiset(entityCalls)[x] == if x in done then RemoveCallCount(snapshot[x], entryId, removed) else 0
    requires calls == Repeat(id, RemoveCallCount(snapshot[id], entryId, removed))
    ensures forall x :: multiset(entityCalls + calls)[x] ==
              if x in done + {id} then RemoveCallCount(snapshot[x], entryId, removed) else 0
  {
    MultisetRepeatAppend(entityCalls, id, |calls|);
  }

  lemma DeviceStep(snapshot: map<string, RegistryEntry>, done: set<string>, id: string, entryId: string, removed: set<string>,
                   oldDevices: set<string>, devices: set<string>, deviceCalls: seq<string>,
                   devCalls: seq<string>, devices': set<string>)
    requires id in snapshot
    requires devices == oldDevices - DevicesOf(snapshot, done, entryId, removed)
    requires Distinct(deviceCalls)
    requires (set d | d in deviceCalls) == oldDevices * DevicesOf(snapshot, done, entryId, removed)
    requires var e, n := snapshot[id], RemoveCallCount(snapshot[id], entryId, removed);
             && devCalls == (if n > 0 && HasDevice(e) && e.deviceId.value in devices then [e.deviceId.value] else [])
             && devices' == devices - (set d | d in devCalls)
    ensures devices' == oldDevices - DevicesOf(snapshot, done + {id}, entryId, removed)
    ensures Distinct(deviceCalls + devCalls)
    ensures (set d | d in deviceCalls + devCalls) == oldDevices * DevicesOf(snapshot, done + {id}, entryId, removed)
  {
    var e := snapshot[id];
    DevicesOfStep(snapshot, done, id, entryId, removed);
    assert (set d | d in deviceCalls + devCalls) == (set d | d in deviceCalls) + (set d | d in devCalls);
    if devCalls != [] {
      var dev := e.deviceId.value;
      assert dev in devices;
      assert dev !in DevicesOf(snapshot, done, entryId, removed);
      assert dev !in oldDevices * DevicesOf(snapshot, done, entryId, removed);
      assert dev !in (set d | d in deviceCalls);
    }
  }

  /**
   * `async_remove_entities`: every entity of this entry that some removed
   * symbol matches leaves the registry, with one remove call per matching
   * symbol; every other entity stays; the devices of removed entities go too.
   */
  method RemoveEntities(entityRegistry: EntityRegistry, deviceRegistry: DeviceRegistry, entryId: string, removed: set<string>)
    returns (entityCalls: seq<string>, deviceCalls: seq<string>)
    requires entityRegistry.Valid()
    modifies entityRegistry, deviceRegistry
    ensures entityRegistry.Valid()
    ensures entityRegistry.entities == WithoutSelected(old(entityRegistry.entities), old(entityRegistry.entities).Keys, entryId, removed)
    ensures forall id :: multiset(entityCalls)[id] ==
              if id in old(entityRegistry.entities) then RemoveCallCount(old(entityRegistry.entities)[id], entryId, removed) else 0
    ensures deviceRegistry.devices
              == old(deviceRegistry.devices) - DevicesOf(old(entityRegistry.entities), old(entityRegistry.entities).Keys, entryId, removed)
    ensures Distinct(deviceCalls)
    ensures (set d | d in deviceCalls)
              == old(deviceRegistry.devices) * DevicesOf(old(entityRegistry.entities), old(entityRegistry.entities).Keys, entryId, removed)
  {
    var snapshot := entityRegistry.entities;
    entityCalls, deviceCalls := [], [];
    var todo := snapshot.Keys;
    while todo != {}
      invariant todo <= snapshot.Keys
      invariant RemovalDone(snapshot, snapshot.Keys - todo, entryId, removed, old(deviceRegistry.devices),
                            entityRegistry.entities, deviceRegistry.devices, entityCalls, deviceCalls)
      decreases todo
    {
      var id :| id in todo;
      var e := snapshot[id];
      ghost var done := snapshot.Keys - todo;
      ghost var entities, devices := entityRegistry.entities, deviceRegistry.devices;
      var calls: seq<string>, devCalls: seq<string> := [], [];
      if e.configEntryId == entryId {
        calls, devCalls := RemoveMatches(entityRegistry, deviceRegistry, e, removed);
      }
      RemovalStep(snapshot, done, id, entryId, removed, old(deviceRegistry.devices), entities, devices,
                  entityCalls, deviceCalls, calls, devCalls, entityRegistry.entities, deviceRegistry.devices);
      entityCalls, deviceCalls := entityCalls + calls, deviceCalls + devCalls;
      todo := todo - {id};
      assert snapshot.Keys - todo == done + {id};
    }
    assert snapshot.Keys - todo == snapshot.Keys;
  }

  // ---------------------------------------------------------------------------
  // The update listener
  // ---------------------------------------------------------------------------

  /** Storing the same data twice is storing it once. */
  lemma StoredTwice(d: HassData, entryId: string, data: EntryData)
    ensures Stored(Stored(d, entryId, data), entryId, data) == Stored(d, entryId, data)
  {
    assert DomainData(d)[entryId := data][entryId := data] == DomainData(d)[entryId := data];
  }

  /**
   * The body of `update_listener` once the previous symbols are known: reload,
   * compare with the entry's current symbols, and clean up (then reload again)
   * only when some symbol was removed.
   */
  method ApplySymbolChanges(hass: Hass, entry: ConfigEntry, entityRegistry: EntityRegistry, deviceRegistry: DeviceRegistry,
                            oldSymbols: set<string>)
    returns (removed: set<string>, added: set<string>)
    requires entityRegistry.Valid()
    modifies hass, entityRegistry, deviceRegistry
    ensures (removed, added) == SymbolChanges(oldSymbols, SetOf(entry.data.cryptocurrencies))
    ensures hass.data == Stored(old(hass.data), entry.entryId, entry.data)
    ensures removed == {} ==> entityRegistry.entities == old(entityRegistry.entities)
                              && deviceRegistry.devices == old(deviceRegistry.devices)
    ensures removed != {} ==>
              && entityRegistry.entities
                 == WithoutSelected(old(entityRegistry.entities), old(entityRegistry.entities).Keys, entry.entryId, removed)
              && deviceRegistry.devices
                 == old(deviceRegistry.devices) - DevicesOf(old(entityRegistry.entities), old(entityRegistry.entities).Keys, entry.entryId, removed)
  {
    Reload(hass, entry);
    var newSymbols := SetOf(entry.data.cryptocurrencies);
    removed, added := SymbolChanges(oldSymbols, newSymbols).0, SymbolChanges(oldSymbols, newSymbols).1;
    if removed != {} {
      var _, _ := RemoveEntities(entityRegistry, deviceRegistry, entry.entryId, removed);
      Reload(hass, entry);
      StoredTwice(old(hass.data), entry.entryId, entry.data);
    }
  }

  /**
   * `update_listener` as written. The host calls update listeners after it
   * has replaced `entry.data`, and reloading does not change it, so both
   * reads see the new symbols: nothing is ever found removed or added, and
   * the registries are never cleaned.
   */
  method UpdateListenerAsWritten(hass: Hass, entry: ConfigEntry, entityRegistry: EntityRegistry, deviceRegistry: DeviceRegistry)
    returns (removed: set<string>, added: set<string>)
    requires entityRegistry.Valid()
    modifies hass, entityRegistry, deviceRegistry
    ensures removed == {} && added == {}
    ensures entityRegistry.entities == old(entityRegistry.entities) && deviceRegistry.devices == old(deviceRegistry.devices)
  {
    var oldSymbols := SetOf(entry.data.cryptocurrencies);
    removed, added := ApplySymbolChanges(hass, entry, entityRegistry, deviceRegistry, oldSymbols);
  }

  /**
   * The symbols the entry tracked before the options changed: the data setup
   * stored in `hass.data`, which the host's update does not touch (the
   * entry's current data when nothing was stored).
   */
  function PreviousSymbols(d: HassData, entry: EntryData, entryId: string): set<string> {
    if entryId in DomainData(d) then SetOf(DomainData(d)[entryId].cryptocurrencies) else SetOf(entry.cryptocurrencies)
  }

  /**
   * `update_listener` comparing against the previous symbols: the removed
   * symbols are those tracked before and not now, and their entities and
   * devices are cleaned up.
   */
  method UpdateListener(hass: Hass, entry: ConfigEntry, entityRegistry: EntityRegistry, deviceRegistry: DeviceRegistry)
    returns (removed: set<string>, added: set<string>)
    requires entityRegistry.Valid()
    modifies hass, entityRegistry, deviceRegistry
    ensures (removed, added) == SymbolChanges(PreviousSymbols(old(hass.data), entry.data, entry.entryId), SetOf(entry.data.cryptocurrencies))
    ensures hass.data == Stored(old(hass.data), entry.entryId, entry.data)
    ensures entityRegistry.entities
            == WithoutSelected(old(entityRegistry.entities), old(entityRegistry.entities).Keys, entry.entryId, removed)
    ensures deviceRegistry.devices
            == old(deviceRegistry.devices) - DevicesOf(old(entityRegistry.entities), old(entityRegistry.entities).Keys, entry.entryId, removed)
  {
    var oldSymbols := PreviousSymbols(hass.data, entry.data, entry.entryId);
    removed, added := ApplySymbolChanges(hass, entry, entityRegistry, deviceRegistry, oldSymbols);
    if removed == {} {
      assert WithoutSelected(old(entityRegistry.entities), old(entityRegistry.entities).Keys, entry.entryId, removed)
             == old(entityRegistry.entities);
    }
  }

  /**
   * Dropping ETH from a BTC+ETH entry: as written the listener compares the
   * new symbols with themselves and removes nothing; compared with what setup
   * stored, ETH is removed and its sensor's entity is selected for removal.
   */
  lemma DroppedSymbolExample(entityId: string)
    ensures var before := EntryData(Some("key"), ["BTC", "ETH"], "USD", DEFAULT_SCAN_INTERVAL, None);
            var after := before.(cryptocurrencies := ["BTC"]);
            var d := Stored(map[], "entry", before);
            && SymbolChanges(SetOf(after.cryptocurrencies), SetOf(after.cryptocurrencies)).0 == {}
            && SymbolChanges(PreviousSymbols(d, after, "entry"), SetOf(after.cryptocurrencies)).0 == {"ETH"}
            && Selected(RegistryEntry(entityId, Sensor.CoinUniqueId("ETH", "USD"), "entry", None), "entry", {"ETH"})
  {
    var before := EntryData(Some("key"), ["BTC", "ETH"], "USD", DEFAULT_SCAN_INTERVAL, None);
    assert SetOf(before.cryptocurrencies) == {"BTC", "ETH"};
    assert SetOf(["BTC"]) == {"BTC"};
    RemovedSymbolSelectsItsSensor("ETH", "USD", "entry", entityId, None, {"ETH"});
  }

  /** Removing a symbol selects the per-coin sensor created for it, whatever the display currency. */
  lemma RemovedSymbolSelectsItsSensor(symbol: string, currency: string, entryId: string, entityId: string,
                                      deviceId: Option<string>, removed: set<string>)
    requires symbol in removed
    ensures Selected(RegistryEntry(entityId, Sensor.CoinUniqueId(symbol, currency), entryId, deviceId), entryId, removed)
  {
    var prefix, suffix := DOMAIN + "_", "_value_" + currency;
    assert Sensor.CoinUniqueId(symbol, currency) == prefix + symbol + suffix;
    LowerConcat(prefix + symbol, suffix);
    LowerConcat(prefix, symbol);
    ContainsMiddle(Lower(prefix), Lower(symbol), Lower(suffix));
    assert Matches(symbol, Sensor.CoinUniqueId(symbol, currency));
  }

  /**
   * Matching is by substring: removing ETH also selects the entity of a
   * still-tracked ETHW.
   */
  lemma RemovalMatchesBySubstring(entryId: string)
    ensures Selected(RegistryEntry("sensor.ethw_value", Sensor.CoinUniqueId("ETHW", "USD"), entryId, None), entryId, {"ETH"})
  {
    assert Lower(Sensor.CoinUniqueId("ETHW", "USD")) == Lower(DOMAIN + "_") + Lower("ETH") + Lower("W_value_USD") by {
      LowerConcat(DOMAIN + "_" + "ETH", "W_value_USD");
      LowerConcat(DOMAIN + "_", "ETH");
      assert Sensor.CoinUniqueId("ETHW", "USD") == DOMAIN + "_" + "ETH" + "W_value_USD";
    }
    ContainsMiddle(Lower(DOMAIN + "_"), Lower("ETH"), Lower("W_value_USD"));
    assert Matches("ETH", Sensor.CoinUniqueId("ETHW", "USD"));
  }
}

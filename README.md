# CoinMarketCap integration for Home Assistant — a Dafny model

This project models the core of the `coinmarketcap` custom integration for Home Assistant:

- The data update coordinator. It fetches the latest quotes of the tracked symbols and turns the reply into a symbol → price map. A failed refresh keeps the previous data and marks the coordinator unsuccessful.
- The per-coin sensor (price × held amount, rounded to cents) and the total-portfolio sensor (the rounded sum of all holdings). This includes their names, unique ids, availability, unit and attributes.
- Sensor setup from a config entry. The first refresh must succeed, and setup then builds one sensor per symbol plus the total sensor.
- The config flow and the options flow. These are state machines over a set of selected symbols:
  - built-in choices;
  - custom symbols checked against the quotes endpoint;
  - the `no_cryptocurrencies`, `invalid_cryptocurrency`, `cannot_connect` and `unknown` errors;
  - entry creation, or rewriting the entry's symbol list.
- The integration's bookkeeping:
  - `hass.data[DOMAIN][entry_id]` on setup, unload and reload;
  - the update listener that compares the old and new symbol sets;
  - removal from the entity and device registries of every entity of this entry whose unique id contains a removed symbol (case-insensitively), together with its device.

## Modules

| file | module | contents |
|---|---|---|
| `wrappers.dfy` | `Wrappers` | `Option`, `Result` |
| `text.dfy` | `Text` | ASCII `upper`/`lower`, substring test, `",".join` and its inverse |
| `json.dfy` | `Json` | the JSON values a reply body holds, Python's `d[key]` and `key in d` with their errors, HTTP replies |
| `config.dfy` | `Config` | the constants, the entry's data, `list(set)` |
| `sensor.dfy` | `Sensor` | coordinator, sensors, setup of the sensor platform |
| `config_flow.dfy` | `ConfigFlow` | config and options flows |
| `integration.dfy` | `Integration` | `hass.data` bookkeeping, update listener, registry clean-up |

Some operations change state in place. Those are modelled as classes whose methods state the new state:

- the coordinator's data and success flag;
- the flows' selection set;
- the config entry's data;
- `hass.data`;
- the two registries.

The lemmas about them are stated over the pure functions that specify them. Values are real numbers. A price or amount is the exact decimal that Python's `Decimal(str(x))` would give. `Round2` rounds exactly to cents, half to even.

## Model

| member | source | states |
|---|---|---|
| `Config.ListOfSet` | custom_components/coinmarketcap/config_flow.py:57 | `list(set)` yields each element of the set exactly once and nothing else |
| `Text.SplitJoin` | custom_components/coinmarketcap/sensor.py:55 | the comma-joined `symbol` parameter determines the symbol list: splitting it at commas gives back the list, for a non-empty list in which no symbol contains a comma |
| `Text.Contains` | custom_components/coinmarketcap/__init__.py:70 | the substring test holds exactly when the needle occurs at some position of the haystack |
| `Text.ContainsMiddle` | custom_components/coinmarketcap/__init__.py:70 | a string always contains itself when embedded between any prefix and suffix |
| `Text.LowerOfUpper` | custom_components/coinmarketcap/__init__.py:70 | lower-casing an upper-cased symbol equals lower-casing the symbol, so the matching is case-insensitive |
| `Text.Upper` | custom_components/coinmarketcap/config_flow.py:83 | `upper()` keeps the length and maps each character to its upper-case form |
| `Text.Lower` | custom_components/coinmarketcap/__init__.py:70 | `lower()` keeps the length and maps each character to its lower-case form |
| `Text.Join` | custom_components/coinmarketcap/sensor.py:55 | the empty list joins to the empty string, and a single symbol joins to itself |
| `Text.UpperIsUpper` | custom_components/coinmarketcap/config_flow.py:83 | `upper()` always yields an upper-case string and leaves an upper-case one unchanged |
| `Json.Get` | custom_components/coinmarketcap/sensor.py:68 | `d[key]` succeeds exactly on an object that has the key, and yields its value; otherwise it raises |
| `Json.Path` | custom_components/coinmarketcap/sensor.py:68 | an empty chain yields the value itself, and a one-key chain is that single subscript. A chain whose first subscript fails raises that subscript's error. A `KeyError` always names one of the keys in the chain |
| `Json.PathConcat` | custom_components/coinmarketcap/sensor.py:68 | following a chain and then a second chain equals following their concatenation, and a failure in the first chain is the failure of the whole. With a one-key first chain, a successful first subscript continues down the rest of the chain |
| `Json.Has` | custom_components/coinmarketcap/config_flow.py:96 | `key in d` is defined exactly on objects, and is true exactly when the key is present |
| `Sensor.Round2` | custom_components/coinmarketcap/sensor.py:100 | `round(x, 2)` yields a whole number of cents at most half a cent from `x`, and leaves whole cents unchanged |
| `Sensor.RoundingOnceDiffersFromRoundingEachTerm` | custom_components/coinmarketcap/sensor.py:161-166 | the total is rounded once, so it can differ from the sum of the rounded coin states (0.004 + 0.004) |
| `Sensor.QuotePrice` | custom_components/coinmarketcap/sensor.py:68 | a symbol's price is read at `data.<symbol>.quote.<currency>.price`: a JSON null gives no price, a number gives that price |
| `Sensor.QuoteMap` | custom_components/coinmarketcap/sensor.py:67-70 | the refresh result has exactly the tracked symbols as keys, each with its own quote. It fails exactly when some symbol's lookup fails, and then with that lookup's error |
| `Sensor.FetchQuotes` | custom_components/coinmarketcap/sensor.py:52-72 | a request that raises or a status other than 200 fails the update. Success requires status 200 and every quote present, and yields the symbol → price map |
| `Sensor.Coordinator.Params` | custom_components/coinmarketcap/sensor.py:54-57 | the query converts into the configured currency, and its `symbol` parameter splits back into the tracked symbols |
| `Sensor.Coordinator.constructor` | custom_components/coinmarketcap/sensor.py:42-48 | a coordinator keeps the key, symbols, currency and interval it is given, and starts with no data and as successful |
| `Sensor.Coordinator.Refresh` | custom_components/coinmarketcap/sensor.py:50-72 | a successful refresh replaces the data and sets success; a failed one keeps the previous data and clears success |
| `Sensor.PriceOf` | custom_components/coinmarketcap/sensor.py:96 | `data.get(symbol)` has a price exactly when the symbol is in the data with a non-null price, and then it is that price |
| `Sensor.ExactTotal` | custom_components/coinmarketcap/sensor.py:161-165 | the exact sum of the holdings' worth is 0 when none of the held symbols has a price |
| `Sensor.AmountOf` | custom_components/coinmarketcap/sensor.py:30 | `coin_amounts.get(crypto, 0)`: a symbol without a holding counts 0, and one with a holding gets that holding |
| `Sensor.CoinState` | custom_components/coinmarketcap/sensor.py:93-102 | the coin state is unknown exactly when there is no price. Otherwise it is price × amount rounded to cents |
| `Sensor.CoinWithoutHoldingReadsZero` | custom_components/coinmarketcap/sensor.py:30 | a tracked coin with no holding reads 0 whenever it has a price |
| `Sensor.AmountOfAppend` | custom_components/coinmarketcap/sensor.py:24 | adding a holding for a new symbol changes that symbol's amount only |
| `Sensor.CoinWorthSumWithoutHoldings` | custom_components/coinmarketcap/sensor.py:30 | with no holdings, the per-coin worths sum to 0 |
| `Sensor.CoinWorthSumAppend` | custom_components/coinmarketcap/sensor.py:161-165 | a new holding adds exactly its own worth to the sum of the coin worths |
| `Sensor.TotalEqualsSumOfCoinWorths` | custom_components/coinmarketcap/sensor.py:158-166 | before rounding, the total-portfolio value equals the sum of the per-coin values. Holdings for symbols without a price add nothing |
| `Sensor.PortfolioExample` | custom_components/coinmarketcap/sensor.py:93-102 | BTC at 50000 with 0.5 held reads 25000.00; ETH with no holding reads 0; the total reads 25000.00 |
| `Sensor.CoinUniqueIdInjective` | custom_components/coinmarketcap/sensor.py:89-91 | two coin sensors of one currency share a unique id only if they track the same symbol |
| `Sensor.CoinUniqueIdIsNotTotal` | custom_components/coinmarketcap/sensor.py:153-156 | no coin sensor's unique id equals the total sensor's, unless the symbol is literally `total_portfolio` |
| `Sensor.Name` | custom_components/coinmarketcap/sensor.py:83-151 | a coin sensor is named `<symbol> Value`, and the total sensor `Total Portfolio Value` |
| `Sensor.UniqueId` | custom_components/coinmarketcap/sensor.py:88-156 | a coin sensor's unique id is `coinmarketcap_<symbol>_value_<currency>`, and the total sensor's `coinmarketcap_total_portfolio_value_<currency>`, in the coordinator's currency |
| `Sensor.Available` | custom_components/coinmarketcap/sensor.py:123-126 | a sensor is available exactly when the coordinator's last update succeeded |
| `Sensor.UnitOfMeasurement` | custom_components/coinmarketcap/sensor.py:104-107 | the unit is the coordinator's currency |
| `Sensor.State` | custom_components/coinmarketcap/sensor.py:93-102 | a coin sensor's state is its coin state. The total sensor's is the rounded exact total, which always exists |
| `Sensor.Keys` | custom_components/coinmarketcap/sensor.py:182 | the total sensor lists the held symbols in holding order |
| `Sensor.ExtraStateAttributes` | custom_components/coinmarketcap/sensor.py:114-121 | a coin sensor reports its symbol, amount and current raw price; the total sensor reports the held symbols |
| `Sensor.TotalValueState` | custom_components/coinmarketcap/sensor.py:158-166 | the accumulation loop computes the rounded exact total over the holdings, skipping coins without a price, and agrees with `State` |
| `Sensor.HoldingsOf` | custom_components/coinmarketcap/sensor.py:24 | `entry.data.get(CONF_COIN_AMOUNT, {})`: no holdings when the entry has none configured, and otherwise the configured ones |
| `Sensor.BuildSensors` | custom_components/coinmarketcap/sensor.py:29-35 | setup builds one coin sensor per tracked symbol, in order and with that symbol's holding, followed by the total sensor |
| `Sensor.SetupEntry` | custom_components/coinmarketcap/sensor.py:18-37 | setup fails exactly when the first refresh fails. Otherwise it adds the sensors `BuildSensors` describes over a fresh coordinator holding the first data |
| `Sensor.SetupUniqueIdsDistinct` | custom_components/coinmarketcap/sensor.py:29-35 | the sensors that setup creates for distinct upper-case symbols have pairwise distinct unique ids |
| `ConfigFlow.OfferedChoices` | custom_components/coinmarketcap/config_flow.py:65 | the form offers the ten built-in symbols with their names, plus every selected symbol outside them labelled by itself |
| `ConfigFlow.SubmitSelection` | custom_components/coinmarketcap/config_flow.py:42-63 | with `add_custom`, the submitted symbols are added and the flow goes to the custom step. Otherwise the config flow adds them and the options flow replaces the selection. The flow finishes exactly when the selection is non-empty |
| `ConfigFlow.CheckSymbol` | custom_components/coinmarketcap/config_flow.py:85-108 | a custom symbol is accepted exactly on status 200 with the symbol among the reply's `data` keys. A missing symbol gives `invalid_cryptocurrency`, another status gives `cannot_connect`. A request that raises, or a status-200 body with no `data` key or whose `data` is a number or null, gives `unknown` |
| `ConfigFlow.AddCustomSymbol` | custom_components/coinmarketcap/config_flow.py:82-108 | the upper-cased symbol is added exactly when its check passes; otherwise the selection is unchanged and the error is shown |
| `ConfigFlow.ConfigFlowSelectionOnlyGrows` | custom_components/coinmarketcap/config_flow.py:47-50 | over any run of submits, the config flow never drops a selected symbol |
| `ConfigFlow.TopSymbolsAreUpper` | custom_components/coinmarketcap/config_flow.py:13-17 | the built-in symbols are upper-case |
| `ConfigFlow.SelectionStaysUpperCase` | custom_components/coinmarketcap/config_flow.py:65-99 | if every selection submit picks from the offered choices, every selected symbol is upper-case in either flow |
| `Config.ConfigEntry.constructor` | custom_components/coinmarketcap/config_flow.py:53-61 | a config entry holds the id and the data it is created with |
| `ConfigFlow.CoinMarketCapConfigFlow.constructor` | custom_components/coinmarketcap/config_flow.py:22-24 | a flow starts with no API key and no symbols |
| `ConfigFlow.CoinMarketCapConfigFlow.StepUser` | custom_components/coinmarketcap/config_flow.py:26-37 | with no input, the flow shows the `user` form. A submitted key is stored and the selection form is shown |
| `ConfigFlow.CoinMarketCapConfigFlow.StepSelectCryptocurrencies` | custom_components/coinmarketcap/config_flow.py:39-77 | the selection follows `SubmitSelection`. On finishing, an entry titled `CoinMarketCap` is created, holding the key, the selection as a duplicate-free list, and the submitted currency and interval |
| `ConfigFlow.CoinMarketCapConfigFlow.StepAddCryptocurrency` | custom_components/coinmarketcap/config_flow.py:79-117 | the selection follows `AddCustomSymbol`. Success returns to the selection form; a failure re-shows the custom form with its error |
| `ConfigFlow.CoinMarketCapOptionsFlow.constructor` | custom_components/coinmarketcap/config_flow.py:125-127 | the options selection starts as the set of the entry's symbols |
| `ConfigFlow.CoinMarketCapOptionsFlow.StepInit` | custom_components/coinmarketcap/config_flow.py:129-161 | the selection follows `SubmitSelection` for the options flow. Only when it finishes is the entry's data rewritten, replacing only its symbol list, with the selection as a duplicate-free list |
| `ConfigFlow.CoinMarketCapOptionsFlow.StepAddCryptocurrency` | custom_components/coinmarketcap/config_flow.py:163-201 | same as the config flow's custom step, returning to `init`; the entry is not touched |
| `Integration.Hass.constructor` | custom_components/coinmarketcap/__init__.py:14-17 | before component setup, `hass.data` holds nothing for this domain |
| `Integration.Stored` | custom_components/coinmarketcap/__init__.py:21-22 | `setdefault` plus assignment stores the entry's data under its id and leaves every other key unchanged |
| `Integration.Popped` | custom_components/coinmarketcap/__init__.py:34 | `pop(entry_id)` succeeds exactly when the id is stored. It removes just that id and keeps the domain's dictionary, even when it becomes empty. Otherwise it raises `KeyError` naming the domain, when there is no domain dictionary, or else the entry id |
| `Integration.SetupThenUnload` | custom_components/coinmarketcap/__init__.py:19-36 | unloading right after setting up an entry leaves the domain's dictionary without that entry |
| `Integration.StoredAfterPopped` | custom_components/coinmarketcap/__init__.py:30-36 | unloading and then setting up again stores the same as setting up over the old state |
| `Integration.StoredTwice` | custom_components/coinmarketcap/__init__.py:81-82 | storing the same data twice equals storing it once, so the second reload changes nothing |
| `Integration.Setup` | custom_components/coinmarketcap/__init__.py:14-17 | component setup creates an empty domain dictionary if there is none, and succeeds |
| `Integration.SetupEntry` | custom_components/coinmarketcap/__init__.py:19-28 | entry setup stores the entry's data under its id and succeeds |
| `Integration.UnloadEntry` | custom_components/coinmarketcap/__init__.py:30-36 | if the platforms did not unload, the result is `False` and nothing changes. Otherwise the entry is popped, raising `KeyError` if it was not stored |
| `Integration.Reload` | custom_components/coinmarketcap/__init__.py:45 | reloading unloads and then sets up the entry, so afterwards the entry's current data is stored |
| `Integration.SymbolChanges` | custom_components/coinmarketcap/__init__.py:49-50 | the removed symbols are those in the old set only, and the added ones are those in the new set only. Both are empty exactly when the sets are equal |
| `Integration.RemoveCallCount` | custom_components/coinmarketcap/__init__.py:68-72 | an entity of the entry receives one remove call per removed symbol its unique id contains, and an entity of another entry none; so it is removed at least once exactly when it belongs to the entry and some removed symbol matches it, case-insensitively |
| `Integration.MatchesIgnoresCase` | custom_components/coinmarketcap/__init__.py:70 | upper-casing the symbol or the unique id does not change whether the symbol matches |
| `Integration.MultisetRepeatAppend` | custom_components/coinmarketcap/__init__.py:69-72 | removing one entity `n` times adds `n` calls for it and none for any other entity |
| `Integration.RemoveMatches` | custom_components/coinmarketcap/__init__.py:69-79 | the inner loop calls remove for the entity once per matching symbol. Its device is removed once, on the first match, if the device registry still has it |
| `Integration.WithoutSelectedStep` | custom_components/coinmarketcap/__init__.py:67-72 | visiting one more entity removes it from the registry exactly when it is selected |
| `Integration.DevicesOfStep` | custom_components/coinmarketcap/__init__.py:74-79 | visiting one more entity adds its device to the devices to remove exactly when it is selected and has a device |
| `Integration.RemovalStep` | custom_components/coinmarketcap/__init__.py:67-79 | one outer-loop iteration keeps the removal invariant: removed entities, call counts and removed devices all match the entities visited so far |
| `Integration.CallCountStep` | custom_components/coinmarketcap/__init__.py:69-72 | one iteration keeps the per-entity count of entity-removal calls |
| `Integration.DeviceStep` | custom_components/coinmarketcap/__init__.py:74-79 | one iteration keeps the removed-device set. Each device is removed from the registry at most once |
| `Integration.RemoveEntities` | custom_components/coinmarketcap/__init__.py:60-79 | afterwards, the registry holds every entity except those of the entry whose unique id matches a removed symbol. Each entity gets one remove call per matching symbol. The devices of the removed entities are gone, and each existing one was removed once |
| `Integration.ApplySymbolChanges` | custom_components/coinmarketcap/__init__.py:44-58 | after a reload, the removed and added symbols are the set differences against the entry's current symbols. The registries are cleaned exactly when something was removed |
| `Integration.UpdateListenerAsWritten` | custom_components/coinmarketcap/__init__.py:38-58 | as written, both reads see the already-updated entry, so nothing is ever removed or added and the registries never change |
| `Integration.UpdateListener` | custom_components/coinmarketcap/__init__.py:38-58 | comparing against the data stored at setup: the removed symbols are those tracked before and not now, and exactly their entities and devices are cleaned up |
| `Integration.DroppedSymbolExample` | custom_components/coinmarketcap/__init__.py:42-58 | when ETH is dropped from BTC+ETH, the as-written listener finds nothing removed, while the corrected one removes ETH and selects its sensor's entity |
| `Integration.RemovedSymbolSelectsItsSensor` | custom_components/coinmarketcap/__init__.py:67-72 | the per-coin sensor of every removed symbol is selected for removal |
| `Integration.RemovalMatchesBySubstring` | custom_components/coinmarketcap/__init__.py:70 | removing ETH also selects the entity of ETHW, because the match is by substring |

## Left out

- Float arithmetic. Prices, amounts and totals are exact reals. `Decimal(str(x))`, `float(...)` and Python's binary-float `round` are not modelled. `Sensor.Round2` rounds the exact value half to even, where Python rounds the nearest binary float.
- `Sensor.QuotePrice`: JSON strings, booleans and arrays are not modelled. A price leaf that is a JSON object fails the refresh in the model, while the source would store the object and fail later in the sensor state.
- `ConfigFlow.CheckSymbol`: a reply's `data` that is a JSON string or array is not modelled. There the source does not raise: `symbol in data["data"]` becomes a substring test or an element test, and the symbol is accepted or reported `invalid_cryptocurrency` accordingly. In the model, `data` is an object, a number or null, and the last two give `unknown`.
- HTTP: the URL, the API-key header and the client session are not modelled. A request is a parameter that is either a reply (status and JSON body) or an exception.
- `DataUpdateCoordinator` is host code and is not part of this model. Its scheduling, listeners, request coalescing and `async_request_refresh` are not modelled; `Refresh` models one `_async_update_data` call and its effect on `data` and `last_update_success`.
- The entity lifecycle hooks (`async_added_to_hass`, `async_update`) and the `icon` constant are not modelled. They only register listeners or return a fixed string.
- The `amount` attribute is the exact amount rather than its `str(Decimal)` rendering.
- `Text.Upper` and `Text.Lower` map ASCII letters only; Python's Unicode case mapping is not modelled.
- Form schemas, `voluptuous` validation and the defaults shown in the forms are not modelled. An input is the dictionary the validated form would yield.
- The platform forwarding (`async_forward_entry_setups`), platform unloading and the registration of the update listener are host calls, represented by parameters or not modelled.
- The host's registries are not part of this model, nor are their internal indexes and events. `Integration.RemoveEntities` iterates over a snapshot of the entities and treats removing an absent entity as a no-op. The source instead iterates the live `entity_registry.entities.values()` view (`__init__.py:65-72`) and calls `async_remove` once per matching symbol, without a `break`. With a dict-backed registry, that loop would raise once the dict changed size during iteration, and a second remove of the same entity would raise `KeyError`. The model does not capture either failure. The clean-up is never reached as written anyway (see Findings).
- `CONF_COIN_AMOUNT` is imported by the sensor platform but is not defined in `const.py`; the model assumes it names the optional `coin_amounts` dictionary of the entry data. No flow step writes holdings, so configured holdings are a parameter of the entry data.
- `Sensor.Coordinator.Params`: the split-back property is stated only for a non-empty list of symbols without commas; with a comma inside a symbol, the joined parameter is ambiguous.

Two behaviours of the code a reader may not expect:

- A tracked coin without a configured holding counts amount 0. It reads 0 when priced (`Sensor.CoinWithoutHoldingReadsZero`), not its raw price.
- Unique ids keep the symbol's case: `coinmarketcap_<SYMBOL>_value_<currency>`.

## Findings

| source | as written | input that shows it | evidently intended | confidence | as-written member | corrected member |
|---|---|---|---|---|---|---|
| custom_components/coinmarketcap/__init__.py:42-50 | `update_listener` reads `entry.data` before and after the reload. The host has already replaced `entry.data` when it calls the listener, and reloading does not change it, so the two sets are always equal and stale entities are never removed | an entry tracking BTC and ETH whose options flow saves BTC only: the removed set is empty | compare against the symbols stored in `hass.data[DOMAIN][entry_id]` at setup, read before the reload; the removed set is {ETH} and the ETH sensor's entity is cleaned up | medium, not executed | `Integration.UpdateListenerAsWritten` | `Integration.UpdateListener` |

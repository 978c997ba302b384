# Binary-sensor device conditions and the WAQI air-quality sensor

This project models two parts of Home Assistant and proves properties of them.

**Device conditions of the `binary_sensor` domain.** The listing,
capabilities and evaluation are modelled as the device-condition tests observe
them. The refusals at set-up are the model's own choice, because no test
refuses a condition.

- A device lists one condition per (entity, condition type) pair, entity by
  entity in registration order, each entity followed by the condition types of
  its device class. When each device class has one entity and the entities are
  registered in the order of DEVICE_CLASSES, as the listing test sets them up,
  the listing goes device class by device class.
- Every condition reports the same capabilities: one optional `for` field of
  kind `positive_time_period_dict`.
- An automation's condition is accepted at set-up. The model refuses it when
  its entity is unknown or its type does not exist for that entity's class.
  Both test automations are accepted, so these refusals are not observed by the
  tests.
- When an event fires, a condition holds when:
  - its entity has a state;
  - that state is the raw state the type asks for (`is_bat_low` asks for `on`,
    `is_not_bat_low` for `off`);
  - with a `for` duration, that state has not changed for at least that long.
- Automations are held by a host object. It has a state store whose
  `last_changed` moves only when a value changes, and a clock that can be set.
  Firing an event records one call for each automation that listens to it and
  whose condition holds.
- The two end-to-end scenarios of the tests are replayed on that host. Each
  scenario's postcondition is the full list of observations the test makes.

**The World Air Quality Index sensor.**

- A sensor is built from a station record returned by a search. Each of `uid`,
  `station.url` and `station.name` becomes None when a key is missing or a step
  is not a dict.
- The name is "WAQI " followed by the station name, else the url, else the uid.
- The state is the reading's `aqi`. The sensor is available iff it has a reading.
- The update chooses a lookup by number, by name, or none.
- The state attributes are built from a reading:
  - the attribution line, the time and the dominant pollutant;
  - each `iaqi` entry's `v` value, stored under its renamed key;
  - when a `KeyError` or `IndexError` is caught, the fallback dictionary
    holding only the attribution.
- Platform set-up keeps the stations whose uid, url or name appears in the
  filter, or all stations when there is no filter.

JSON values are a datatype with Python's semantics for subscription, `.get`,
iteration, truthiness and `str()`. Each of these operations gives a value or the
exception Python raises.

Modules:

- `Wrappers`: Option and Result.
- `DeviceCondition`: the registry, listing, capabilities, acceptance and
  evaluation.
- `AutomationHost`: the `Hass` class with its store, clock, automations and
  calls.
- `ConditionScenarios`: the two scenarios.
- `PyJson`: Python values built from JSON.
- `Waqi`: the sensor class, the attribute loop, set-up, and their properties.

## Model

| member | source | states |
|---|---|---|
| DeviceCondition.FindType | tests/components/binary_sensor/test_device_condition.py:117-123 | a condition type is found by name iff the class lists a type of that name, and the state found is that type's own |
| DeviceCondition.FindTypeUnique | tests/components/binary_sensor/test_device_condition.py:63-73 | with unique type names in a class, looking up a listed type's name gives that type's required state |
| DeviceCondition.EntityConditions | tests/components/binary_sensor/test_device_condition.py:63-73 | an entity contributes one entry per condition type of its class, in the class's order, each a device condition of this domain for the device and entity |
| DeviceCondition.ListConditionsLength | tests/components/binary_sensor/test_device_condition.py:63-75 | the listing has as many entries as the entities' classes have condition types in all |
| DeviceCondition.ListConditionsAt | tests/components/binary_sensor/test_device_condition.py:63-75 | the j-th condition type of the i-th entity sits at position (types of the entities before it) + j, so the order is entity by entity and then type by type |
| DeviceCondition.ListConditionsMembership | tests/components/binary_sensor/test_device_condition.py:63-75 | an entry is listed iff it is the entry of some entity of the device and some condition type of that entity's class |
| DeviceCondition.ListedShape | tests/components/binary_sensor/test_device_condition.py:64-70 | every listed entry has condition "device", this domain, the queried device id, no duration, and an entity of the device with a type of its class |
| DeviceCondition.ListingFollowsDeviceClasses | tests/components/binary_sensor/test_device_condition.py:53-75 | with one entity per device class, registered in the order of DEVICE_CLASSES, the listing is the test's expected list: class by class, then the class's types in order, each entry naming that class's entity |
| DeviceCondition.ListingFollowsClasses | tests/components/binary_sensor/test_device_condition.py:63-73 | entities given one per class, in the order of any sequence of classes, list their conditions class by class and then type by type |
| DeviceCondition.ListConditionsDistinct | tests/components/binary_sensor/test_device_condition.py:63-75 | with unique type names per class and distinct entities, no entry is listed twice |
| DeviceCondition.ListedCapabilities | tests/components/binary_sensor/test_device_condition.py:87-97 | every listed condition reports exactly the extra field `for`, optional, of kind `positive_time_period_dict` |
| DeviceCondition.CapabilitiesUniform | tests/components/binary_sensor/test_device_condition.py:92-97 | the capabilities are the same for every condition and hold one optional field |
| DeviceCondition.FromConfig | tests/components/binary_sensor/test_device_condition.py:116-124 | a condition is refused for an unknown entity iff the entity is not registered, and for an unknown type iff the class has no such type; an accepted condition keeps the entity and the duration and needs the state the type asks for |
| DeviceCondition.MismatchNeverHolds | tests/components/binary_sensor/test_device_condition.py:164-169 | a condition whose entity is in another state is false at every instant |
| DeviceCondition.NoDurationIsStateCheck | tests/components/binary_sensor/test_device_condition.py:159-169 | without `for` a condition holds iff its entity has exactly the required state |
| DeviceCondition.DurationGate | tests/components/binary_sensor/test_device_condition.py:194-201 | with `for`, a condition holds iff the state fits and has not changed for at least that many seconds |
| DeviceCondition.HoldsLater | tests/components/binary_sensor/test_device_condition.py:229-238 | once the state has lasted long enough, the condition stays true as the clock advances over the same store |
| DeviceCondition.DurationOnlyRestricts | tests/components/binary_sensor/test_device_condition.py:194-201 | a condition that holds with a duration also holds without it |
| DeviceCondition.BatteryPairComplementary | tests/components/binary_sensor/test_device_condition.py:116-142 | for a battery entity, `is_bat_low` (needs on) and `is_not_bat_low` (needs off) are accepted, are never true together, and with "on" only the first holds, with "off" only the second |
| AutomationHost.ChangedStateNotYetHeld | tests/components/binary_sensor/test_device_condition.py:229-232 | right after an entity's state changes, no condition on that entity with a positive duration holds at that instant |
| AutomationHost.NextState | tests/components/binary_sensor/test_device_condition.py:229-232 | writing a state keeps the entry, and its last-changed time, when the value is unchanged; otherwise the entry's last-changed time becomes the current time |
| AutomationHost.Fired | tests/components/binary_sensor/test_device_condition.py:159-169 | an event records at most one call per automation, each carrying the fired event's type |
| AutomationHost.FiredMembership | tests/components/binary_sensor/test_device_condition.py:159-169 | a call is recorded iff some automation listening to the event has a condition that holds, and the call carries its prefix |
| AutomationHost.FiredNothing | tests/components/binary_sensor/test_device_condition.py:219-232 | when no listening automation's condition holds, firing records nothing |
| AutomationHost.Hass.constructor | tests/components/binary_sensor/test_device_condition.py:100-105 | a fresh host has an empty store, no automations, no calls and the given clock |
| AutomationHost.Hass.SetState | tests/components/binary_sensor/test_device_condition.py:164-164 | writing a state updates only that entity, by the last-changed rule, and changes nothing else |
| AutomationHost.Hass.SetClock | tests/components/binary_sensor/test_device_condition.py:223-225 | moving the clock changes only the current time |
| AutomationHost.Hass.AddAutomation | tests/components/binary_sensor/test_device_condition.py:109-154 | setting up an automation appends it and changes nothing else |
| AutomationHost.Hass.FireEvent | tests/components/binary_sensor/test_device_condition.py:159-162 | firing appends exactly the calls `Fired` gives for the current store and time, and changes nothing else |
| ConditionScenarios.IfState | tests/components/binary_sensor/test_device_condition.py:100-169 | with the sensor "on": no call at first; `test_event1` records "is_on"; after the sensor turns "off", `test_event1` and `test_event2` together record only "is_off" for `test_event2` |
| ConditionScenarios.IfFiresOnForCondition | tests/components/binary_sensor/test_device_condition.py:172-239 | with `is_not_bat_low` for 5 seconds, no call while "on", none ten seconds later, none right after turning "off", and exactly one "is_off" call for `test_event1` ten seconds after that |
| PyJson.FindUnique | homeassistant/components/waqi/sensor.py:161-166 | in a dict decoded from JSON, looking up entry k's key gives entry k's value |
| PyJson.Position | homeassistant/components/waqi/sensor.py:164-164 | a list or string index is valid iff it lies in [-len, len), and a negative index counts from the end |
| PyJson.Subscript | homeassistant/components/waqi/sensor.py:158-158 | `d[key]` gives the stored value for a dict holding the key, KeyError for a dict without it, TypeError for anything that is not a dict |
| PyJson.JoinStringsUnfolds | homeassistant/components/waqi/sensor.py:153-156 | joining is the first part followed by the separator and each further part in turn |
| Waqi.SubscriptTwice | homeassistant/components/waqi/sensor.py:100-108 | a nested subscription fails only with KeyError or TypeError, the two exceptions the constructor catches |
| Waqi.StationUid | homeassistant/components/waqi/sensor.py:95-98 | the uid is the record's "uid", or None when the record has no such key or is not a dict |
| Waqi.StationUrl | homeassistant/components/waqi/sensor.py:100-103 | the url is the record's station url, or None when a key is missing or a step is not a dict |
| Waqi.StationName | homeassistant/components/waqi/sensor.py:105-108 | the name is the record's station name, or None when a key is missing or a step is not a dict |
| Waqi.SelectLookup | homeassistant/components/waqi/sensor.py:173-178 | the lookup is by number iff the uid is truthy (with that uid), by name iff the uid is falsy and the url truthy (with that url), and none iff both are falsy |
| Waqi.Handled | homeassistant/components/waqi/sensor.py:168-169 | KeyError and IndexError give the fallback dictionary with only the attribution; every other exception propagates |
| Waqi.WaqiSensor.constructor | homeassistant/components/waqi/sensor.py:92-110 | a new sensor holds the record's uid, url and name (None where absent) and no reading |
| Waqi.WaqiSensor.Name | homeassistant/components/waqi/sensor.py:113-117 | the name starts "WAQI "; it is followed by a non-empty string station name, else a non-empty string url, else the uid (its digits for an int, the string itself, True or False for a bool), and is "WAQI None" when all three are missing |
| Waqi.WaqiSensor.State | homeassistant/components/waqi/sensor.py:125-129 | without a reading the state is None, for a dict it is its "aqi" or None, and any other reading raises AttributeError |
| Waqi.WaqiSensor.DeviceStateAttributes | homeassistant/components/waqi/sensor.py:147-169 | the key-by-key loop over `iaqi` returns exactly `Attributes` of the reading, exception handling included |
| Waqi.WaqiSensor.Update | homeassistant/components/waqi/sensor.py:171-179 | the new reading is the answer of the selected lookup, or None without one, and uid, url and name are unchanged |
| Waqi.SetupPlatform | homeassistant/components/waqi/sensor.py:62-86 | one new sensor per station that passes the filter, in search order, the k-th describing the k-th kept station |
| Waqi.OverlayLastWriter | homeassistant/components/waqi/sensor.py:162-166 | after the writes, every written key is present, the last write of a key wins, and keys no write touches keep their values |
| Waqi.FillIaqiStep | homeassistant/components/waqi/sensor.py:162-166 | one turn of the loop reads entry k of the dict, propagates an exception from its "v", or stores that "v" under the renamed key and goes on |
| Waqi.FillIaqiOverlay | homeassistant/components/waqi/sensor.py:161-166 | over a well-formed `iaqi` the loop succeeds and makes exactly the writes of the entries, in order |
| Waqi.FillIaqiMissingValue | homeassistant/components/waqi/sensor.py:161-166 | the loop raises KeyError at the first entry (a dict) lacking "v" when every earlier entry has one |
| Waqi.AttributionNamesOk | homeassistant/components/waqi/sensor.py:155-155 | attributions whose dicts each have a string "name" give the list of those names |
| Waqi.AttributionStep | homeassistant/components/waqi/sensor.py:153-156 | for well-named attributions the comprehension and the join succeed, with ATTRIBUTION and each name joined by " and " |
| Waqi.AttributionNamesMissing | homeassistant/components/waqi/sensor.py:155-155 | the comprehension raises KeyError at the first attribution (a dict) lacking "name" |
| Waqi.AttributesOverlay | homeassistant/components/waqi/sensor.py:149-167 | a well-formed reading gives the attribution, time and dominant-pollutant dictionary overlaid with the `iaqi` writes |
| Waqi.AttributesWellFormed | homeassistant/components/waqi/sensor.py:149-167 | a well-formed reading's dictionary has exactly the keys attribution, time, dominentpol and the renamed `iaqi` keys; each of those keys holds its entry's "v" (the last entry wins), and attribution and time hold their values unless an `iaqi` key is renamed onto them |
| Waqi.IaqiOverlay | homeassistant/components/waqi/sensor.py:162-166 | the `iaqi` writes add exactly the renamed keys, and each renamed key holds the "v" of the last entry renamed to it |
| Waqi.MissingTimeFallback | homeassistant/components/waqi/sensor.py:158-169 | without a time, or with a time dict without "s", the result is exactly the fallback |
| Waqi.MissingIaqiFallback | homeassistant/components/waqi/sensor.py:161-169 | with a time but no `iaqi`, the result is exactly the fallback |
| Waqi.MissingValueFallback | homeassistant/components/waqi/sensor.py:161-169 | an `iaqi` entry without "v", after entries that have one, gives exactly the fallback |
| Waqi.UnnamedAttributionFallback | homeassistant/components/waqi/sensor.py:153-169 | an attribution dict without "name", after ones that have one, gives exactly the fallback |
| Waqi.AttributesEscapes | homeassistant/components/waqi/sensor.py:149-169 | for every reading, KeyError and IndexError never escape; the only exceptions that do are TypeError and AttributeError |
| Waqi.TimeNotDictRaises | homeassistant/components/waqi/sensor.py:158-169 | a time that is not a dict raises TypeError, which the handler does not catch |
| Waqi.AttributesWithoutDict | homeassistant/components/waqi/sensor.py:151-155 | without a reading there are no attributes (None); a reading that is not a dict raises AttributeError |
| Waqi.StateAndAvailability | homeassistant/components/waqi/sensor.py:125-134 | a sensor is available iff it has a reading; without one the state is None, and a state other than None implies availability |
| Waqi.KeepIff | homeassistant/components/waqi/sensor.py:77-81 | a station is kept iff there is no filter or its uid, url or name is an entry of the filter |
| Waqi.KeptMembership | homeassistant/components/waqi/sensor.py:72-82 | a station is among the kept ones iff a search returned it and it passes the filter |
| Waqi.KeptWithoutFilter | homeassistant/components/waqi/sensor.py:77-82 | without a filter every returned station is kept, in order |

## Left out

- The production `binary_sensor/device_condition.py` is not part of this model. The listing, capabilities and evaluation are modelled as the tests observe them.
- FromConfig: the refusals for an unknown entity (`UnresolvedEntity`) and an unknown type (`UnknownType`) are the model's own choice; no test refuses a condition.
- HoldsFor: the model uses `now - last_changed >= for`. The tests check only 0 and 10 seconds after the change against a 5-second `for`, so they cannot tell it from `>`. Home Assistant's state-condition helper, which is not part of this model, may compare strictly.
- DEVICE_CLASSES and ENTITY_CONDITIONS are parameters (a `Registry` value). The only fixed entries are the battery pair the scenarios use.
- Resolving a device id to its entities, and the device and entity registries, are inputs: the listing takes the device's entities, and acceptance takes a map from entity id to device class.
- The last-changed rule of `hass.states.async_set` belongs to the Home Assistant state machine and is not among the modelled files. The model moves it only on a change of value.
- The event loop, `async_block_till_done` and service calls are left out. A call is recorded synchronously as the action's prefix and the event type, and templates are not rendered.
- Times are whole seconds; datetime, time zones and sub-second periods are left out.
- ATTR_ATTRIBUTION ("attribution"), ATTR_TIME ("time") and ATTR_TEMPERATURE ("temperature") come from `homeassistant.const`, which is not part of this model. The values are Home Assistant's.
- The WAQI client (`search`, `get_station_by_number`, `get_station_by_name`), aiohttp sessions, the timeout, and PlatformNotReady on connection errors are left out:
  - search results are an input;
  - lookups are functions passed to `Update`.
- `async_add_entities(dev, True)`, including its update before adding, is left out; `SetupPlatform` returns the list.
- PLATFORM_SCHEMA, SCAN_INTERVAL, the icon, the unit of measurement and `unique_id` are configuration or constants and are not modelled.
- JSON floats are left out; numbers are integers.
- An object with a repeated key stands for no Python value: a dict decoded from JSON keeps the last value of a repeated key. The lemmas that need it assume unique keys (`UniqueKeys`); on a repeated key `Find` returns the first value and `Iterate` yields that key twice.
- Keep: values are compared structurally:
  - Python's `True == 1` is not modelled;
  - the TypeError that an unhashable uid, url or name raises when the set is built is not modelled.
- Attributes: keys are compared structurally, and Python's `True == 1` when two keys collide is not modelled.
- Name: the contract does not state the text produced through `Repr` in these cases:
  - a truthy name or url that is not a string (a number, a list or a dict);
  - a uid that is a list or a dict, used when the name and url are falsy.
  `Repr` does not escape quotes inside strings.

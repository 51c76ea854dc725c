# Powerwall 3 (Basic) integration — Dafny model

A model of the data path of the `powerwall3basic` Home Assistant integration, with proofs
about it. The integration polls a Tesla Powerwall 3 through the `pypowerwall` client and
republishes the readings as sensor and binary-sensor entities. Its logic is a small pure
pipeline, which this project models as total functions over small datatypes:

- **Raw-reading normalisation** (`api.py`, module `Api`). The aggregate-meters response becomes
  four `Meter` records. The device's `site` circuit becomes `grid`, and `instant_power` becomes
  `power`. The battery level and the grid status pass through Python truthiness checks. A zero
  therefore counts as "no data", and the grid status becomes a boolean only by comparison with 1.
- **All-or-nothing aggregation** (`coordinator.py`, module `Coordinator`). Setup requires a
  successful authentication. Each refresh builds a `SensorData` snapshot only when all three
  readings are present. It copies them field for field. Otherwise the refresh fails.
- **Entity tables** (`sensor.py`, `binary_sensor.py`, modules `Sensor`, `BinarySensor`,
  `EntityIds`, `Platforms`). A fixed table maps each entity key to one snapshot field. Each
  entity's unique id is `device_id + "_" + key`.

Python's semantics are written out in module `Python`:
- `Value` covers the decoded JSON the client hands over.
- `Truthy` is `if v:`.
- `GetItem` is `v[key]`. It raises `KeyError` or `TypeError`.
- `Result` says whether an expression returns or raises.

The client's four blocking calls (`connect`, `poll`, `level`, `grid_status`) are not modelled.
Their outcomes are inputs: a returned value or a raised exception. `level` and `grid_status`
deliver a number or `None` (`NumberOrNone`).

Behaviour of the code worth noting:
- A response that is a dict but lacks one of `battery`, `site`, `load`, `solar` makes
  `get_meters` raise `KeyError`, rather than return "no data". The same goes for a circuit entry
  missing one of its three fields (`Api.GetMeters`).
- A grid status of `0` yields "no data", not "disconnected". A refresh during which the device
  reports status 0 therefore fails as a whole (`Coordinator.ZeroGridStatusFailsRefresh`). The
  same holds for a battery level of 0 (`Coordinator.EmptyBatteryFailsRefresh`).
- When a client call raises, the task group raises before any result is inspected. A raised
  exception therefore takes precedence over a missing result (`Coordinator.UpdateData`).

A refresh is a Dafny function of its three inputs. Identical device responses therefore yield
identical snapshots by construction, and no separate lemma states it.

## Model

| member | source | states |
|---|---|---|
| Python.GetItem | custom_components/powerwall3basic/api.py:70-72 | subscripting returns the entry exactly when the value is a dict holding the key; otherwise it raises KeyError for a dict and TypeError for anything else |
| Python.FalsyNumbers | custom_components/powerwall3basic/api.py:52 | a number or None is falsy exactly when it is None, 0 or 0.0 |
| Api.ToMeter | custom_components/powerwall3basic/api.py:68-73 | succeeds exactly on a dict with `instant_power`, `energy_exported` and `energy_imported`; copies them unconverted, with `instant_power` as `power`; otherwise TypeError (not a dict) or KeyError for the first missing field in evaluation order |
| Api.ToMeterOfEntry | custom_components/powerwall3basic/api.py:68-73 | reading back the circuit entry built from a meter gives that meter |
| Api.GetMeters | custom_components/powerwall3basic/api.py:35-48 | "no data" exactly when the response is not a dict; a full `Meters` exactly when the dict is well formed, with `grid` read from `site` and the other circuits from their own entries; a dict missing `battery` raises KeyError("battery"), and any malformed dict raises rather than giving "no data"; a client exception propagates |
| Api.GetMetersOfResponse | custom_components/powerwall3basic/api.py:40-46 | reading back the response built from a `Meters` gives those meters |
| Api.GetBatteryLevel | custom_components/powerwall3basic/api.py:50-55 | "no data" exactly for None, 0 or 0.0; every other level is returned, as its numeric value, and is never 0; a client exception propagates |
| Api.IsGridConnected | custom_components/powerwall3basic/api.py:57-65 | "no data" exactly for None, 0 or 0.0; True exactly for 1 or 1.0; False exactly for every other number; a client exception propagates |
| Api.ZeroIsNoData | custom_components/powerwall3basic/api.py:52-65 | a zero battery level and a zero grid status read the same as missing ones |
| Coordinator.Setup | custom_components/powerwall3basic/coordinator.py:53-55 | setup succeeds exactly when authentication returns True; False raises UpdateFailed; a client exception escapes unchanged |
| Coordinator.UpdateData | custom_components/powerwall3basic/coordinator.py:57-77 | a snapshot is produced exactly when all three results are present; any raised call makes the task group raise; otherwise any missing result raises UpdateFailed; the snapshot's six fields equal the inputs unchanged |
| Coordinator.Refresh | custom_components/powerwall3basic/coordinator.py:58-77 | from the raw client outcomes: a snapshot exactly when the response is well formed and level and status are truthy; a malformed dict raises inside its task, so the refresh ends in ExceptionGroup, while with level and status returned and a response that is either well formed or not a dict, every failure is UpdateFailed; its meters are read from the matching entries (`grid` from `site`), its level is `float(level)`, and it shows the grid as connected exactly when the status equals 1 |
| Coordinator.RefreshPublishesReadings | custom_components/powerwall3basic/coordinator.py:70-76 | a refresh on a well-formed response with a non-zero level and status publishes exactly the reported meters, level and `status == 1` |
| Coordinator.EmptyBatteryFailsRefresh | custom_components/powerwall3basic/coordinator.py:67-68 | a battery level of 0 or 0.0 gives exactly the outcome of an absent (None) level, so every refresh with it fails |
| Coordinator.ZeroGridStatusFailsRefresh | custom_components/powerwall3basic/coordinator.py:67-68 | a grid status of 0 or 0.0 gives exactly the outcome of an absent (None) status, so every refresh with it fails instead of reporting "disconnected" |
| EntityIds.UniqueId | custom_components/powerwall3basic/sensor.py:178 | the id splits back into the device id, an underscore and the key |
| EntityIds.UniqueIdInjective | custom_components/powerwall3basic/sensor.py:178 | for one device, two ids are equal exactly when the keys are |
| EntityIds.UniqueIdAcrossDevices | custom_components/powerwall3basic/binary_sensor.py:72 | when neither key ends with an underscore followed by the other, two ids are equal exactly when both device ids and keys are |
| Sensor.SensorTableInjective | custom_components/powerwall3basic/sensor.py:31-142 | the table has 11 descriptions, pairwise distinct keys and pairwise distinct fields |
| Sensor.SensorReadings | custom_components/powerwall3basic/sensor.py:40-140 | each key reads its field: the four power sensors read `power` of battery, grid, load and solar; `battery_discharged`/`battery_charged` read the battery's exported/imported energy; `grid_exported`/`grid_imported` the grid's; `home_usage` reads the load's imported energy; `solar_generated` the solar exported energy; `battery_level` the level |
| Sensor.SensorEntities | custom_components/powerwall3basic/sensor.py:145-178 | one entity per description, in table order, with id `device_id + "_" + key`; the ids are pairwise distinct |
| Sensor.NativeValue | custom_components/powerwall3basic/sensor.py:180-183 | the value is the snapshot's battery level for the level sensor, and one of the three readings of the description's circuit for a meter sensor |
| BinarySensor.BinarySensorTable | custom_components/powerwall3basic/binary_sensor.py:30-38 | the table holds exactly one description, keyed `grid_connected`, reading the grid state |
| BinarySensor.BinarySensorEntities | custom_components/powerwall3basic/binary_sensor.py:41-72 | one entity per description, whose id is `device_id + "_grid_connected"` |
| BinarySensor.IsOn | custom_components/powerwall3basic/binary_sensor.py:74-77 | `is_on` is the snapshot's grid state, unchanged |
| Platforms.EntityKeysDistinct | custom_components/powerwall3basic/__init__.py:11 | the keys of all entities of both platforms are pairwise distinct |
| Platforms.EntityKeysSeparated | custom_components/powerwall3basic/__init__.py:11 | no entity key ends with an underscore followed by another entity key |
| Platforms.EntityIdsDistinct | custom_components/powerwall3basic/sensor.py:178 | two entities, of the same device or of two devices, share a unique id exactly when they are the same entity of the same device |

## Left out

- The `pypowerwall` client (`connect`, `poll`, `level`, `grid_status`) and the thread-pool dispatch are not modelled. They are an opaque external library, so their outcomes are inputs.
- The constructor of `PowerwallApi` is not modelled. It only passes host, password and fixed placeholder email and time zone to the client.
- The `asyncio.TaskGroup` fan-out and join is not modelled, because it is concurrency plumbing. The three results arrive already available.
- The members of the exception group are not modelled. They depend on which tasks fail before the others are cancelled, so the model raises a payload-free `ExceptionGroup`.
- The 10-second update interval, retry and stale-data policy and the first-refresh handling are not modelled. They belong to the host's `DataUpdateCoordinator`.
- `__init__.py` (config-entry setup, unload, platform forwarding) is host glue. Only its platform list is used, to combine the two entity tables.
- `entity.py` (`DeviceInfo` registration) is host metadata.
- Units, suggested units, device classes, state classes, display precision and translation keys are left out of the descriptions. They are presentational and have no behaviour.
- Python values other than `None`, int and float are not modelled for `level` and `grid_status`. The client returns only those.
- Dict keys other than strings are not modelled. Decoded JSON has only string keys.
- Python.ToFloat: ints convert exactly here, whereas Python's `float()` rounds ints beyond 2^53 and raises OverflowError beyond the float range; the client's `level(True)` delivers floats, so this does not arise for battery levels.
- Python floats are modelled as exact reals, so NaN and the infinities, which Python's JSON decoder accepts in a response, are not modelled.
- Sensor.NativeValue: for a meter sensor the contract only says the value is one of the circuit's three readings. Which reading each key shows is stated by `Sensor.SensorReadings`.

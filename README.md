# Enpal solar sensors for Home Assistant — a Dafny model

This project models the core of `custom_components/enpal/sensor.py`, the sensor platform of
the Enpal Home Assistant integration. It covers three parts.

- **Setting up a config entry** (`async_setup_entry`):
  - the options are merged into the stored configuration, and the three required keys
    (`enpal_host_ip`, `enpal_host_port`, `enpal_token`) are checked;
  - the (measurement, field) pair of the first record of every table the InfluxDB query
    returns is run through the fixed if/elif catalog;
  - one `EnpalSensor` is built per pair the catalog knows, in table order;
  - every registry entry of the config entry is removed, then the new sensors are added.
- **The sensor** (`EnpalSensor`): its unique id `enpal_<measurement>_<field>` and its refresh
  (`async_update`). A refresh writes the value, device class, unit, state class and extra
  state attributes, sets `last_reset` for energy counters, bands the battery icon, or takes
  the error path.
- **The battery icon banding**: a chain of independent `if`s in which the last check that
  holds wins.

Modules:
- `Options`: the `Option` type.
- `Config`: configuration values, the option merge and the required-key check.
- `Catalog`: the if/elif chain as a table of rows tested in source order, first match winning.
- `Sensor`: the `EnpalSensor` class, its unique id, the state-class rule, the start of the
  UTC day and the battery icon.
- `Setup`: query results, the resolver, the entity registry and the setup methods.

Representation choices:
- The rounded sensor value is integer hundredths (`round(v, 2) * 100`), so every band
  comparison is exact.
- Timestamps are integers (microseconds since the epoch). The local and UTC wall-clock times
  are inputs.
- The InfluxDB query of setup is a function parameter `query(ip, port, token)` that returns
  tables or an error. The query of a refresh is an input `FetchOutcome`: no table at all, a
  value, or an exception.
- The entity registry is the sequence of sensors registered for the config entry.
- `BuildSensors` and `RegisterSensors` take the if/elif chain as a table of rows, and
  `SetupEntry` passes the catalog to them.

Behaviours of the code that the model keeps as written:
- A battery level of 9.99 keeps the previous icon: the `>= 10` check (sensor.py:216) does not hold
  and no band check does either.
- A level of 99.5 gives `mdi:battery-outline`: the last band check (sensor.py:234) is `<= 99`, so
  only the `>= 10` check holds.
- The error path sets `_state = 'Error'` (sensor.py:241), and no write of a later successful
  refresh clears it.

## Model

| member | source | states |
|---|---|---|
| Config.Merge | custom_components/enpal/sensor.py:42-43 | the merged keys are the union of the stored keys and the options; every option overrides the stored value; every other stored value stays |
| Config.MissingKey | custom_components/enpal/sensor.py:45-53 | `None` exactly when all three required keys are present; otherwise the first missing key in the order ip, port, token, and that key is absent |
| Catalog.FirstMatch | custom_components/enpal/sensor.py:67-152 | the if/elif chain over a table of rows, the first row testing the pair winning; characterised by `FirstMatchIsFirst` |
| Catalog.Lookup | custom_components/enpal/sensor.py:67-152 | the chain over `CATALOG`, whose 31 rows are the branches in source order; characterised by `FirstMatchIsFirst`, `LookupWellFormed`, `SolarProductionWins` and `DuplicateBranchNeverFires` |
| Catalog.FirstMatchIsFirst | custom_components/enpal/sensor.py:67-152 | the chain gives `None` exactly when no branch tests the pair; otherwise it gives the metadata of a branch testing the pair, and no earlier branch tests it |
| Catalog.LookupWellFormed | custom_components/enpal/sensor.py:67-152 | a pair the catalog knows has a recognised measurement, a known device class and unit, and device class `energy` exactly for kWh and Wh |
| Catalog.UnknownMeasurementSkipped | custom_components/enpal/sensor.py:151-152 | a measurement outside inverter, powerSensor, battery, system and wallbox never gets a sensor |
| Catalog.SolarProductionWins | custom_components/enpal/sensor.py:67-69 | `("inverter", "Power.DC.Total")` resolves to `mdi:solar-power`, 'Enpal Solar Production Power', power, W |
| Catalog.DuplicateBranchNeverFires | custom_components/enpal/sensor.py:90-91 | no pair ever resolves to the metadata of the second `Power.DC.Total` branch |
| Sensor.UniqueIdInjective | custom_components/enpal/sensor.py:176 | for measurements without an underscore, equal unique ids mean equal pairs |
| Sensor.CatalogIdsDistinct | custom_components/enpal/sensor.py:176 | two distinct pairs the catalog knows give sensors distinct unique ids |
| Sensor.UniqueId | custom_components/enpal/sensor.py:176 | the unique id `enpal_<measurement>_<field>`; `UniqueIdInjective` and `CatalogIdsDistinct` show it tells catalog pairs apart, `UniqueIdAmbiguous` that it does not in general |
| Sensor.UniqueIdLayout | custom_components/enpal/sensor.py:176 | helper lemma for `UniqueIdInjective`: the id is `enpal_`, the measurement, `_` and the field, in that order |
| Sensor.UniqueIdAmbiguous | custom_components/enpal/sensor.py:176 | the pairs ("a_b", "c") and ("a", "b_c") share one id, so `UniqueIdInjective` needs its no-underscore condition |
| Sensor.StartOfDay | custom_components/enpal/sensor.py:209 | the result is a midnight, at or before the time and less than one day before it |
| Sensor.StateClassFor | custom_components/enpal/sensor.py:202-213 | the state class is `total_increasing` exactly for kWh and Wh, otherwise `measurement` |
| Sensor.ApplyBands | custom_components/enpal/sensor.py:218-235 | after the band checks from a given decile on, the icon is the band's icon when the level lies in a band at or above that decile, and the icon is unchanged otherwise |
| Sensor.BatteryIcon | custom_components/enpal/sensor.py:215-237 | below 10 the icon is kept; in a band 10-19 … 90-99 it is that band's icon; at exactly 100 it is `mdi:battery`; any other level from 10 up gives `mdi:battery-outline` |
| Sensor.BatteryIconExamples | custom_components/enpal/sensor.py:215-237 | 9.99 keeps the icon; 10 and 55.4 are banded; 100 is full; 19.5, 99.5 and 100.5 give the outline |
| Sensor.EnpalSensor.constructor | custom_components/enpal/sensor.py:166-177 | the sensor holds its construction arguments and the unique id; the attributes are empty; nothing is refreshed yet |
| Sensor.EnpalSensor.MarkFailed | custom_components/enpal/sensor.py:239-243 | the value becomes `None`, the state `'Error'`, and `last_check` is stamped; icon, device class, unit, state class and the other attributes are unchanged |
| Sensor.EnpalSensor.Refresh | custom_components/enpal/sensor.py:199-237 | the value is the level read; the device class and unit are the construction values; the state class follows the unit; `last_check`, `field` and `measurement` are stamped; `last_reset` is midnight UTC exactly for kWh and Wh; only the charge-level sensor's icon changes |
| Sensor.EnpalSensor.Stamp | custom_components/enpal/sensor.py:202-213 | the attributes are stamped, and for kWh or Wh `last_reset` is set and the state class becomes `total_increasing` |
| Sensor.EnpalSensor.BandIcon | custom_components/enpal/sensor.py:215-237 | the charge-level sensor's icon becomes the banded icon; any other sensor's icon is unchanged |
| Sensor.EnpalSensor.Update | custom_components/enpal/sensor.py:180-243 | an exception takes the error path; no table refreshes with value 0; a value refreshes with that value; the sensor stays consistent with its construction metadata |
| Setup.Resolve | custom_components/enpal/sensor.py:63-152 | the filter inside the table loop: never more requests than pairs; `ResolveSound`, `ResolveCount` and `ResolveConcat` pin down which requests, how many and in what order |
| Setup.ResolveSound | custom_components/enpal/sensor.py:57-152 | every request is for a pair that was read, and carries the metadata the chain gives that pair |
| Setup.CatalogRequestsWellFormed | custom_components/enpal/sensor.py:63-152 | every request resolved through the catalog carries the catalog's metadata, for a recognised measurement, with an energy device class exactly for kWh and Wh |
| Setup.ResolveSnoc | custom_components/enpal/sensor.py:63-152 | helper lemma for `BuildSensors`: one more table adds one request at the end if the chain knows its pair, and nothing otherwise |
| Setup.ResolveConcat | custom_components/enpal/sensor.py:63-152 | resolving a concatenation of tables resolves each part and keeps their order |
| Setup.ResolveCount | custom_components/enpal/sensor.py:57-152 | a known pair gets exactly as many sensors as there are tables reporting it (no deduplication); an unknown pair gets none |
| Setup.Without | custom_components/enpal/sensor.py:159 | removing an entity drops every occurrence of it and keeps every other entry |
| Setup.EntityRegistry.Remove | custom_components/enpal/sensor.py:159 | the entity leaves the registry; the other entries stay |
| Setup.EntityRegistry.AddEntities | custom_components/enpal/sensor.py:161 | the new sensors are registered after the existing entries |
| Setup.AddSensor | custom_components/enpal/sensor.py:57-58 | one new sensor, built with the request's metadata and the configured connection settings, is appended to the sensors built so far; it has the id `enpal_<measurement>_<field>` and the constructor's whole unrefreshed state |
| Setup.BuildSensors | custom_components/enpal/sensor.py:63-152 | the built sensors are new and correspond one to one, in order, to `Resolve` of `FirstPairs` (the pair of each table's first record), each with its pair's unique id and unrefreshed state; it fails exactly when some table has no first record |
| Setup.RemoveEntries | custom_components/enpal/sensor.py:154-159 | afterwards no registry entry of the config entry is left |
| Setup.ReplaceEntries | custom_components/enpal/sensor.py:154-161 | after removing every entry and adding the new sensors, the registry holds exactly the new sensors |
| Setup.BuiltIdsDistinct | custom_components/enpal/sensor.py:63-176 | sensors built for the catalog's requests have distinct unique ids whenever their pairs differ |
| Setup.RegisterSensors | custom_components/enpal/sensor.py:60-161 | a failed query or a table without records leaves the registry unchanged; otherwise the registry holds exactly new sensors for the resolved requests, in order, each with its pair's unique id and unrefreshed state |
| Setup.SetupEntry | custom_components/enpal/sensor.py:35-161 | the options are merged into the stored configuration; a missing key ends setup with the registry unchanged; a failed query ends setup with the registry unchanged; otherwise the registry holds exactly new sensors for the catalog's resolution of the tables' first pairs, each with its pair's unique id and unrefreshed state |

## Left out

- The InfluxDB client and the Flux query text in `get_tables` and `async_update` (sensor.py:23-32, 184-193) are foreign network calls. They are replaced by the `query` parameter of setup and the `FetchOutcome` input of a refresh.
- `round(float(value), 2)` and float conversion are left out: the value arrives as integer hundredths.
- An exception from a missing `_field`, `_measurement` or `_value` key is left out: records always carry their pair. A missing first record of a table is modelled.
- `datetime.now()` and `datetime.utcnow()` are wall-clock reads, so they are inputs. Calendar and time-zone arithmetic is reduced to whole days of microseconds.
- The Home Assistant framework is left out: `hass.data` lookup, `async_add_executor_job`, the entity registry API beyond the entries of this config entry, `update_before_add` on `async_add_entities`, and the `SCAN_INTERVAL` polling schedule. These are framework plumbing and concurrency.
- Logging calls, the unused imports and `VERSION` are left out. They have no effect on state.
- Sensor.EnpalSensor.Update: the refresh of one sensor is modelled alone. Several sensors refreshing concurrently are not modelled.
- Setup.RegisterSensors: registry entries are this config entry's sensors only. Entries of other config entries are not modelled.

/**
 * The static catalog of `custom_components/enpal/sensor.py`: the if/elif chain in
 * `async_setup_entry` that maps a (measurement, field) pair read from the store to
 * the icon, display name, device class and unit of the sensor created for it.
 */
module Catalog {
  import opened Options

  /** Presentation metadata for one known (measurement, field) pair. */
  datatype Descriptor = Descriptor(icon: string, name: string, deviceClass: string, unit: string)

  /** A (measurement, field) pair as the store reports it. */
  type Pair = (string, string)

  /** One branch of the chain: the pair it tests and the sensor metadata it adds. */
  datatype Row = Row(measurement: string, field: string, descriptor: Descriptor)

  /** The measurements the catalog recognises. */
  const MEASUREMENTS: set<string> := {"inverter", "powerSensor", "battery", "system", "wallbox"}

  const DEVICE_CLASSES: set<string> := {"power", "voltage", "current", "battery", "energy"}

  const UNITS: set<string> := {"W", "V", "A", "%", "kWh", "Wh"}

  /** The units of cumulative energy counters. */
  predicate IsEnergyUnit(unit: string) {
    unit == "kWh" || unit == "Wh"
  }

  /** Index of the second `("inverter", "Power.DC.Total")` branch. */
  const SHADOWED_ROW: nat := 11

  /**
   * The branches of the chain in the order they are tested, grouped by measurement
   * (inverter, powerSensor, battery, system, wallbox). Row 11 repeats the pair of
   * row 0 with other metadata, as the source does.
   */
  const CATALOG: seq<Row> := [
    Row("inverter", "Power.DC.Total",
        Descriptor("mdi:solar-power", "Enpal Solar Production Power", "power", "W")),
    Row("inverter", "Power.House.Total",
        Descriptor("mdi:home-lightning-bolt", "Enpal Power House Total", "power", "W")),
    Row("inverter", "Voltage.Phase.A",
        Descriptor("mdi:lightning-bolt", "Enpal Voltage Phase A", "voltage", "V")),
    Row("inverter", "Power.AC.Phase.A",
        Descriptor("mdi:lightning-bolt", "Enpal Power Phase A", "power", "W")),
    Row("inverter", "Voltage.Phase.B",
        Descriptor("mdi:lightning-bolt", "Enpal Voltage Phase B", "voltage", "V")),
    Row("inverter", "Power.AC.Phase.B",
        Descriptor("mdi:lightning-bolt", "Enpal Power Phase B", "power", "W")),
    Row("inverter", "Voltage.Phase.C",
        Descriptor("mdi:lightning-bolt", "Enpal Voltage Phase C", "voltage", "V")),
    Row("inverter", "Power.AC.Phase.C",
        Descriptor("mdi:lightning-bolt", "Enpal Power Phase C", "power", "W")),
    Row("inverter", "Power.DC.String.1",
        Descriptor("mdi:solar-power-variant-outline", "Enpal Power String 1", "power", "W")),
    Row("inverter", "Power.DC.String.2",
        Descriptor("mdi:solar-power-variant-outline", "Enpal Power String 2", "power", "W")),
    Row("inverter", "Power.DC.String.3",
        Descriptor("mdi:solar-power-variant-outline", "Enpal Power String 3", "power", "W")),
    Row("inverter", "Power.DC.Total",
        Descriptor("mdi:solar-power-variant-outline", "Enpal Power Total", "power", "W")),
    Row("inverter", "Power.Grid.Export",
        Descriptor("mdi:solar-power-variant-outline", "Enpal Grid Export", "power", "W")),
    Row("powerSensor", "Current.Phase.A",
        Descriptor("mdi:lightning-bolt", "Enpal Ampere Phase A", "current", "A")),
    Row("powerSensor", "Current.Phase.B",
        Descriptor("mdi:lightning-bolt", "Enpal Ampere Phase B", "current", "A")),
    Row("powerSensor", "Current.Phase.C",
        Descriptor("mdi:lightning-bolt", "Enpal Ampere Phase C", "current", "A")),
    Row("battery", "Power.Battery.Charge.Discharge",
        Descriptor("mdi:battery-charging", "Enpal Battery Power", "power", "W")),
    Row("battery", "Energy.Battery.Charge.Level",
        Descriptor("mdi:battery", "Enpal Battery Percent", "battery", "%")),
    Row("battery", "Energy.Battery.Charge.Day",
        Descriptor("mdi:battery-arrow-up", "Enpal Battery Charge Day", "energy", "kWh")),
    Row("battery", "Energy.Battery.Discharge.Day",
        Descriptor("mdi:battery-arrow-down", "Enpal Battery Discharge Day", "energy", "kWh")),
    Row("battery", "Energy.Battery.Charge.Total.Unit.1",
        Descriptor("mdi:battery-arrow-up", "Enpal Battery Charge Total", "energy", "kWh")),
    Row("battery", "Energy.Battery.Discharge.Total.Unit.1",
        Descriptor("mdi:battery-arrow-down", "Enpal Battery Discharge Total", "energy", "kWh")),
    Row("system", "Power.External.Total",
        Descriptor("mdi:home-lightning-bolt", "Enpal Power External Total", "power", "W")),
    Row("system", "Energy.Consumption.Total.Day",
        Descriptor("mdi:home-lightning-bolt", "Enpal Energy Consumption", "energy", "kWh")),
    Row("system", "Energy.External.Total.Out.Day",
        Descriptor("mdi:transmission-tower-export", "Enpal Energy External Out Day", "energy", "kWh")),
    Row("system", "Energy.External.Total.In.Day",
        Descriptor("mdi:transmission-tower-import", "Enpal Energy External In Day", "energy", "kWh")),
    Row("system", "Energy.Production.Total.Day",
        Descriptor("mdi:solar-power-variant", "Enpal Production Day", "energy", "kWh")),
    Row("system", "Energy.Storage.Level",
        Descriptor("mdi:battery-charging-high", "Enpal Battery Storage Level", "energy", "Wh")),
    Row("wallbox", "State.Wallbox.Connector.1.Charge",
        Descriptor("mdi:ev-station", "Wallbox Charge Percent", "battery", "%")),
    Row("wallbox", "Power.Wallbox.Connector.1.Charging",
        Descriptor("mdi:ev-station", "Wallbox Charging Power", "power", "W")),
    Row("wallbox", "Energy.Wallbox.Connector.1.Charged.Total",
        Descriptor("mdi:ev-station", "Wallbox Charging Total", "energy", "Wh"))
  ]

  /** Row `row` tests the pair (measurement, field). */
  predicate Tests(row: Row, measurement: string, field: string) {
    row.measurement == measurement && row.field == field
  }

  /**
   * The metadata of the first of `rows` that tests (measurement, field), or `None`
   * when none does: an if/elif chain, where the first branch that holds wins.
   */
  function FirstMatch(rows: seq<Row>, measurement: string, field: string): Option<Descriptor>
  {
    if rows == [] then None
    else if Tests(rows[0], measurement, field) then Some(rows[0].descriptor)
    else FirstMatch(rows[1..], measurement, field)
  }

  /** The catalog dispatch for one pair read from the store; `None` means "not adding". */
  function Lookup(measurement: string, field: string): (r: Option<Descriptor>)
  {
    FirstMatch(CATALOG, measurement, field)
  }

  /** Every row is well formed: a known measurement, device class and unit, and energy exactly for kWh/Wh. */
  lemma CatalogRowsWellFormed(i: int)
    requires 0 <= i < |CATALOG|
    ensures CATALOG[i].measurement in MEASUREMENTS
    ensures CATALOG[i].descriptor.deviceClass in DEVICE_CLASSES && CATALOG[i].descriptor.unit in UNITS
    ensures CATALOG[i].descriptor.deviceClass == "energy" <==> IsEnergyUnit(CATALOG[i].descriptor.unit)
  {
  }

  /**
   * The lookup gives the metadata of the FIRST row testing the pair, and `None`
   * exactly when no row tests it.
   */
  lemma {:induction false} FirstMatchIsFirst(rows: seq<Row>, measurement: string, field: string)
    ensures FirstMatch(rows, measurement, field).None?
        <==> forall i :: 0 <= i < |rows| ==> !Tests(rows[i], measurement, field)
    ensures FirstMatch(rows, measurement, field).Some? ==>
      exists i :: 0 <= i < |rows| && rows[i] == Row(measurement, field, FirstMatch(rows, measurement, field).value)
                  && forall j :: 0 <= j < i ==> !Tests(rows[j], measurement, field)
  {
    if rows != [] && !Tests(rows[0], measurement, field) {
      FirstMatchIsFirst(rows[1..], measurement, field);
      var r := FirstMatch(rows, measurement, field);
      if r.Some? {
        var i :| 0 <= i < |rows| - 1 && rows[1..][i] == Row(measurement, field, r.value)
                 && forall j :: 0 <= j < i ==> !Tests(rows[1..][j], measurement, field);
        assert rows[i + 1] == Row(measurement, field, r.value);
        assert forall j :: 0 <= j < i + 1 ==> !Tests(rows[j], measurement, field) by {
          forall j | 0 <= j < i + 1 ensures !Tests(rows[j], measurement, field) {
            if j > 0 {
              assert rows[j] == rows[1..][j - 1];
            }
          }
        }
      }
    }
  }

  /** What a known pair resolves to is a well-formed catalog entry of a known measurement. */
  lemma LookupWellFormed(measurement: string, field: string)
    ensures Lookup(measurement, field).Some? ==>
      var d := Lookup(measurement, field).value;
      && measurement in MEASUREMENTS
      && d.deviceClass in DEVICE_CLASSES && d.unit in UNITS
      && (d.deviceClass == "energy" <==> IsEnergyUnit(d.unit))
  {
    FirstMatchIsFirst(CATALOG, measurement, field);
    var r := Lookup(measurement, field);
    if r.Some? {
      var i :| 0 <= i < |CATALOG| && CATALOG[i] == Row(measurement, field, r.value);
      CatalogRowsWellFormed(i);
    }
  }

  /** A measurement the catalog does not recognise never gets a sensor. */
  lemma UnknownMeasurementSkipped(measurement: string, field: string)
    requires measurement !in MEASUREMENTS
    ensures Lookup(measurement, field) == None
  {
    LookupWellFormed(measurement, field);
  }

  /** `("inverter", "Power.DC.Total")` always resolves to the first branch of its group. */
  lemma SolarProductionWins()
    ensures Lookup("inverter", "Power.DC.Total")
         == Some(Descriptor("mdi:solar-power", "Enpal Solar Production Power", "power", "W"))
  {
    assert Tests(CATALOG[0], "inverter", "Power.DC.Total");
  }

  /** No other row carries the display name of the shadowed row. */
  lemma ShadowedNameUnique(i: int)
    requires 0 <= i < |CATALOG|
    requires CATALOG[i].descriptor.name == CATALOG[SHADOWED_ROW].descriptor.name
    ensures i == SHADOWED_ROW
  {
  }

  /** The second `Power.DC.Total` branch of the inverter group never fires. */
  lemma DuplicateBranchNeverFires(measurement: string, field: string)
    ensures Lookup(measurement, field) != Some(CATALOG[SHADOWED_ROW].descriptor)
  {
    if Tests(CATALOG[0], measurement, field) {
      assert Lookup(measurement, field) == Some(CATALOG[0].descriptor);
    } else {
      assert Tests(CATALOG[0], CATALOG[SHADOWED_ROW].measurement, CATALOG[SHADOWED_ROW].field);
      FirstMatchIsFirst(CATALOG, measurement, field);
      var r := Lookup(measurement, field);
      if r == Some(CATALOG[SHADOWED_ROW].descriptor) {
        var i :| 0 <= i < |CATALOG| && CATALOG[i] == Row(measurement, field, r.value)
                 && forall j :: 0 <= j < i ==> !Tests(CATALOG[j], measurement, field);
        ShadowedNameUnique(i);
      }
    }
  }
}

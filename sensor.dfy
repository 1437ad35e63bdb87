/**
 * `EnpalSensor` of `custom_components/enpal/sensor.py`: one entity bound to a
 * (measurement, field) pair, its unique id, and its periodic refresh.
 */
module Sensor {
  import opened Options
  import opened Config
  import opened Catalog

  /** A point in time, in microseconds since the epoch. */
  type Timestamp = int

  const MICROS_PER_DAY: int := 86_400_000_000

  /** The field whose sensor gets a battery icon banded by its value. */
  const BATTERY_LEVEL_FIELD := "Energy.Battery.Charge.Level"

  /** The keys of the sensor's extra state attributes: 'last_check', 'last_reset', 'field', 'measurement'. */
  datatype AttrKey = LastCheck | LastReset | FieldTag | MeasurementTag

  /** A value of the sensor's extra state attributes. */
  datatype AttrValue = Time(time: Timestamp) | Label(text: string)

  /**
   * What the store query of one refresh gives: no table at all, the rounded value
   * of the latest sample in hundredths (round(v, 2) * 100), or an exception.
   */
  datatype FetchOutcome = NoTables | Value(hundredths: int) | Failure

  /** The entity's unique id. */
  function UniqueId(measurement: string, field: string): string
  {
    "enpal_" + measurement + "_" + field
  }

  /** The id is the prefix, the measurement, an underscore and the field, in that order. */
  lemma UniqueIdLayout(measurement: string, field: string)
    ensures var id := UniqueId(measurement, field);
      && |id| == |measurement| + |field| + 7
      && id[..6] == "enpal_" && id[6..6 + |measurement|] == measurement
      && id[6 + |measurement|] == '_' && id[7 + |measurement|..] == field
  {
  }

  /** Two sensors whose measurements contain no underscore share an id only if they share a pair. */
  lemma UniqueIdInjective(m1: string, f1: string, m2: string, f2: string)
    requires '_' !in m1 && '_' !in m2
    requires UniqueId(m1, f1) == UniqueId(m2, f2)
    ensures m1 == m2 && f1 == f2
  {
    UniqueIdLayout(m1, f1);
    UniqueIdLayout(m2, f2);
  }

  /** Without the no-underscore condition the id is ambiguous: two different pairs share one. */
  lemma UniqueIdAmbiguous()
    ensures UniqueId("a_b", "c") == UniqueId("a", "b_c")
    ensures ("a_b", "c") != ("a", "b_c")
  {
  }

  /** No measurement the catalog recognises contains an underscore. */
  lemma KnownMeasurementHasNoUnderscore(measurement: string)
    requires measurement in MEASUREMENTS
    ensures '_' !in measurement
  {
  }

  /** Distinct catalog pairs give sensors distinct unique ids. */
  lemma CatalogIdsDistinct(m1: string, f1: string, m2: string, f2: string)
    requires Lookup(m1, f1).Some? && Lookup(m2, f2).Some?
    requires (m1, f1) != (m2, f2)
    ensures UniqueId(m1, f1) != UniqueId(m2, f2)
  {
    LookupWellFormed(m1, f1);
    LookupWellFormed(m2, f2);
    KnownMeasurementHasNoUnderscore(m1);
    KnownMeasurementHasNoUnderscore(m2);
    if UniqueId(m1, f1) == UniqueId(m2, f2) {
      UniqueIdInjective(m1, f1, m2, f2);
    }
  }

  /** 00:00:00 of the day of `t` (`replace(hour=0, minute=0, second=0, microsecond=0)`). */
  function StartOfDay(t: Timestamp): (midnight: Timestamp)
    ensures midnight % MICROS_PER_DAY == 0
    ensures midnight <= t < midnight + MICROS_PER_DAY
  {
    t - t % MICROS_PER_DAY
  }

  /** The state class a refresh leaves: a daily counter for energy units, a measurement otherwise. */
  function StateClassFor(unit: string): (stateClass: string)
    ensures stateClass in {"measurement", "total_increasing"}
    ensures stateClass == "total_increasing" <==> unit == "kWh" || unit == "Wh"
  {
    if IsEnergyUnit(unit) then "total_increasing" else "measurement"
  }

  /** The icon of the decile band `decile` (1 to 9). */
  function DecileIcon(decile: int): string
    requires 1 <= decile <= 9
  {
    ["mdi:battery-10", "mdi:battery-20", "mdi:battery-30", "mdi:battery-40", "mdi:battery-50",
     "mdi:battery-60", "mdi:battery-70", "mdi:battery-80", "mdi:battery-90"][decile - 1]
  }

  /** A level, in hundredths, inside one of the closed bands 10-19, ..., 90-99. */
  predicate InBand(level: int) {
    1000 <= level <= 9900 && level % 1000 <= 900
  }

  /**
   * The band checks for deciles `decile` to 9 applied in order over `icon`: each
   * check that holds overwrites the icon with its band's icon.
   */
  function ApplyBands(level: int, icon: string, decile: int): (result: string)
    requires 1 <= decile <= 10
    ensures InBand(level) && level / 1000 >= decile ==> result == DecileIcon(level / 1000)
    ensures !(InBand(level) && level / 1000 >= decile) ==> result == icon
    decreases 10 - decile
  {
    if decile == 10 then icon
    else
      var low := decile * 1000;
      ApplyBands(level, if level <= low + 900 && level >= low then DecileIcon(decile) else icon, decile + 1)
  }

  /**
   * The battery icon after a refresh of the charge level `level` (in hundredths):
   * independent checks applied in order, the last one that holds winning. Below
   * 10 the icon is kept, inside a band 10-19, ..., 90-99 it is that band's icon,
   * at exactly 100 the full battery, and every other level from 10 up (19.5,
   * 99.5, above 100) the empty outline.
   */
  function BatteryIcon(level: int, previous: string): (icon: string)
    ensures level < 1000 ==> icon == previous
    ensures InBand(level) ==> icon == DecileIcon(level / 1000)
    ensures level == 10000 ==> icon == "mdi:battery"
    ensures 1000 <= level && level != 10000 && !InBand(level) ==> icon == "mdi:battery-outline"
  {
    var icon := if level >= 1000 then "mdi:battery-outline" else previous;
    var icon := ApplyBands(level, icon, 1);
    if level == 10000 then "mdi:battery" else icon
  }

  /** Sample levels: 9.99 keeps the icon, 10.00 and 55.40 are banded, 19.50, 99.50 and 100.50 fall outside every band. */
  lemma BatteryIconExamples(previous: string)
    ensures BatteryIcon(999, previous) == previous
    ensures BatteryIcon(1000, previous) == "mdi:battery-10"
    ensures BatteryIcon(5540, previous) == "mdi:battery-50"
    ensures BatteryIcon(10000, previous) == "mdi:battery"
    ensures BatteryIcon(1950, previous) == "mdi:battery-outline"
    ensures BatteryIcon(9950, previous) == "mdi:battery-outline"
    ensures BatteryIcon(10050, previous) == "mdi:battery-outline"
  {
  }

  class EnpalSensor {
    const field: string
    const measurement: string
    const ip: ConfigValue
    const port: ConfigValue
    const token: ConfigValue
    const enpalDeviceClass: string
    const unit: string
    const name: string
    const uniqueId: string

    var icon: string
    var nativeValue: Option<int>
    var deviceClass: Option<string>
    var nativeUnit: Option<string>
    var stateClass: Option<string>
    /** The `_state` attribute the error path writes. */
    var state: Option<string>
    var attributes: map<AttrKey, AttrValue>

    /** What every refresh keeps true of the sensor. */
    ghost predicate Valid()
      reads this
    {
      && (deviceClass.Some? ==> deviceClass.value == enpalDeviceClass)
      && (nativeUnit.Some? ==> nativeUnit.value == unit)
      && (stateClass.Some? ==> stateClass.value == StateClassFor(unit))
      && (LastReset in attributes ==> IsEnergyUnit(unit))
      && (FieldTag in attributes ==> attributes[FieldTag] == Label(field))
      && (MeasurementTag in attributes ==> attributes[MeasurementTag] == Label(measurement))
    }

    /** The sensor as it is first built, before any refresh. */
    constructor (field: string, measurement: string, icon: string, name: string,
                 ip: ConfigValue, port: ConfigValue, token: ConfigValue,
                 deviceClass: string, unit: string)
      ensures Valid()
      ensures this.field == field && this.measurement == measurement
      ensures this.icon == icon && this.name == name
      ensures this.ip == ip && this.port == port && this.token == token
      ensures this.enpalDeviceClass == deviceClass && this.unit == unit
      ensures uniqueId == UniqueId(measurement, field)
      ensures nativeValue == None && this.deviceClass == None && nativeUnit == None
      ensures stateClass == None && state == None && attributes == map[]
    {
      this.field := field;
      this.measurement := measurement;
      this.ip := ip;
      this.port := port;
      this.token := token;
      this.enpalDeviceClass := deviceClass;
      this.unit := unit;
      this.icon := icon;
      this.name := name;
      this.uniqueId := UniqueId(measurement, field);
      this.attributes := map[];
      this.nativeValue := None;
      this.deviceClass := None;
      this.nativeUnit := None;
      this.stateClass := None;
      this.state := None;
    }

    /**
     * The pair and catalog metadata of a freshly built sensor. The icon is the
     * current one, so after a charge-level refresh this no longer gives the icon
     * the sensor was built with.
     */
    function BuiltBinding(): (Pair, Descriptor)
      reads this
    {
      ((measurement, field), Descriptor(icon, name, enpalDeviceClass, unit))
    }

    /**
     * The error path of a refresh: the value is nulled, the state marked and
     * `last_check` stamped with the local time `localNow`; nothing else changes.
     */
    method MarkFailed(localNow: Timestamp)
      requires Valid()
      modifies this
      ensures Valid()
      ensures nativeValue == None && state == Some("Error")
      ensures attributes == old(attributes)[LastCheck := Time(localNow)]
      ensures icon == old(icon) && deviceClass == old(deviceClass)
      ensures nativeUnit == old(nativeUnit) && stateClass == old(stateClass)
    {
      state := Some("Error");
      nativeValue := None;
      attributes := attributes[LastCheck := Time(localNow)];
    }

    /**
     * The success path of a refresh that read `level` (hundredths), at local time
     * `localNow` and UTC time `utcNow`: value, device class, unit and state class
     * are rewritten, the attributes stamped, `last_reset` set to the start of the
     * UTC day for energy units, and the charge-level sensor's icon banded.
     */
    method Refresh(level: int, localNow: Timestamp, utcNow: Timestamp)
      requires Valid()
      modifies this
      ensures Valid()
      ensures nativeValue == Some(level) && state == old(state)
      ensures deviceClass == Some(enpalDeviceClass) && nativeUnit == Some(unit)
      ensures stateClass == Some(StateClassFor(unit))
      ensures var stamped := old(attributes)[LastCheck := Time(localNow)]
                                            [FieldTag := Label(field)][MeasurementTag := Label(measurement)];
        attributes == if IsEnergyUnit(unit) then stamped[LastReset := Time(StartOfDay(utcNow))] else stamped
      ensures icon == if field == BATTERY_LEVEL_FIELD then BatteryIcon(level, old(icon)) else old(icon)
    {
      nativeValue := Some(level);
      deviceClass := Some(enpalDeviceClass);
      nativeUnit := Some(unit);
      stateClass := Some("measurement");
      Stamp(localNow, utcNow);
      BandIcon(level);
    }

    /**
     * The attribute step of a successful refresh: `last_check`, the field and the
     * measurement are stamped, and an energy counter gets `last_reset` at the start
     * of the UTC day and the `total_increasing` state class.
     */
    method Stamp(localNow: Timestamp, utcNow: Timestamp)
      requires nativeUnit == Some(unit) && stateClass == Some("measurement")
      modifies this`attributes, this`stateClass
      ensures stateClass == Some(StateClassFor(unit))
      ensures var stamped := old(attributes)[LastCheck := Time(localNow)]
                                            [FieldTag := Label(field)][MeasurementTag := Label(measurement)];
        attributes == if IsEnergyUnit(unit) then stamped[LastReset := Time(StartOfDay(utcNow))] else stamped
    {
      attributes := attributes[LastCheck := Time(localNow)];
      attributes := attributes[FieldTag := Label(field)];
      attributes := attributes[MeasurementTag := Label(measurement)];
      if nativeUnit == Some("kWh") {
        attributes := attributes[LastReset := Time(StartOfDay(utcNow))];
        stateClass := Some("total_increasing");
      }
      if nativeUnit == Some("Wh") {
        attributes := attributes[LastReset := Time(StartOfDay(utcNow))];
        stateClass := Some("total_increasing");
      }
    }

    /** The battery icon step of a successful refresh that read `level`; it changes only the icon. */
    method BandIcon(level: int)
      modifies this`icon
      ensures icon == if field == BATTERY_LEVEL_FIELD then BatteryIcon(level, old(icon)) else old(icon)
    {
      if field == BATTERY_LEVEL_FIELD {
        icon := BatteryIcon(level, icon);
      }
    }

    /**
     * One refresh given the query's outcome: a failure takes the error path, no
     * table reads as the value 0, and a value is taken as read.
     */
    method Update(outcome: FetchOutcome, localNow: Timestamp, utcNow: Timestamp)
      requires Valid()
      modifies this
      ensures Valid()
      ensures outcome.Failure? ==>
        && nativeValue == None && state == Some("Error")
        && attributes == old(attributes)[LastCheck := Time(localNow)]
        && icon == old(icon) && deviceClass == old(deviceClass)
        && nativeUnit == old(nativeUnit) && stateClass == old(stateClass)
      ensures !outcome.Failure? ==>
        var level := if outcome.Value? then outcome.hundredths else 0;
        var stamped := old(attributes)[LastCheck := Time(localNow)]
                                      [FieldTag := Label(field)][MeasurementTag := Label(measurement)];
        && nativeValue == Some(level) && state == old(state)
        && deviceClass == Some(enpalDeviceClass) && nativeUnit == Some(unit)
        && stateClass == Some(StateClassFor(unit))
        && attributes == (if IsEnergyUnit(unit) then stamped[LastReset := Time(StartOfDay(utcNow))] else stamped)
        && icon == (if field == BATTERY_LEVEL_FIELD then BatteryIcon(level, old(icon)) else old(icon))
    {
      match outcome {
        case Failure =>
          MarkFailed(localNow);
        case NoTables =>
          Refresh(0, localNow, utcNow);
        case Value(level) =>
          Refresh(level, localNow, utcNow);
      }
    }
  }
}

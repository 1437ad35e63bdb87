/**
 * `async_setup_entry` of `custom_components/enpal/sensor.py`: merge the options into
 * the stored configuration, check the required keys, read the first record of every
 * table the store returns, build one sensor per catalog match, then replace every
 * registry entry of the config entry with the new sensors.
 */
module Setup {
  import opened Options
  import opened Config
  import opened Catalog
  import opened Sensor

  /** The tags of one record of a query result table. */
  datatype Record = Record(measurement: string, field: string)

  datatype Table = Table(records: seq<Record>)

  /** What the store query made with (ip, port, token) returns, or the exception it raises. */
  datatype QueryResult = Tables(tables: seq<Table>) | QueryError

  /** How setup ends: a logged missing key, an exception escaping it, or the sensors registered. */
  datatype SetupOutcome = MissingConfig(key: string) | Raised | Completed

  /** A sensor creation request: the pair and the catalog metadata it resolved to. */
  type Request = (Pair, Descriptor)

  /** Every table has a first record to read the pair from. */
  predicate AllHaveRecords(tables: seq<Table>) {
    forall k :: 0 <= k < |tables| ==> |tables[k].records| > 0
  }

  /** The (measurement, field) pair of each table's first record. */
  function FirstPairs(tables: seq<Table>): (pairs: seq<Pair>)
    requires AllHaveRecords(tables)
  {
    seq(|tables|, k requires 0 <= k < |tables| =>
      (tables[k].records[0].measurement, tables[k].records[0].field))
  }

  /**
   * The resolver over the if/elif chain `rows` (the catalog, in setup): the pairs
   * in order, each one the chain knows paired with its metadata, every other one
   * dropped.
   */
  function Resolve(rows: seq<Row>, pairs: seq<Pair>): (requests: seq<Request>)
    ensures |requests| <= |pairs|
    decreases |pairs|
  {
    if pairs == [] then []
    else
      var last := pairs[|pairs| - 1];
      var front := Resolve(rows, pairs[..|pairs| - 1]);
      match FirstMatch(rows, last.0, last.1)
      case Some(d) => front + [(last, d)]
      case None => front
  }

  /** Every request pairs a pair that was read with the metadata the chain gives it. */
  lemma {:induction false} ResolveSound(rows: seq<Row>, pairs: seq<Pair>)
    ensures forall r :: r in Resolve(rows, pairs) ==>
      r.0 in pairs && FirstMatch(rows, r.0.0, r.0.1) == Some(r.1)
    decreases |pairs|
  {
    if pairs != [] {
      ResolveSound(rows, pairs[..|pairs| - 1]);
    }
  }

  /**
   * Through the catalog, every request carries the catalog's metadata for its pair,
   * of a recognised measurement, with an energy device class exactly for kWh and Wh.
   */
  lemma CatalogRequestsWellFormed(pairs: seq<Pair>)
    ensures forall r :: r in Resolve(CATALOG, pairs) ==>
      && r.0 in pairs
      && Lookup(r.0.0, r.0.1) == Some(r.1)
      && r.0.0 in MEASUREMENTS
      && (r.1.deviceClass == "energy" <==> IsEnergyUnit(r.1.unit))
  {
    ResolveSound(CATALOG, pairs);
    forall r | r in Resolve(CATALOG, pairs)
      ensures r.0.0 in MEASUREMENTS && (r.1.deviceClass == "energy" <==> IsEnergyUnit(r.1.unit))
    {
      LookupWellFormed(r.0.0, r.0.1);
    }
  }

  /** Resolving one more pair appends its request, if the catalog knows it. */
  lemma ResolveSnoc(rows: seq<Row>, pairs: seq<Pair>, pair: Pair)
    ensures Resolve(rows, pairs + [pair])
         == Resolve(rows, pairs) + (match FirstMatch(rows, pair.0, pair.1)
                              case Some(d) => [(pair, d)]
                              case None => [])
  {
    assert (pairs + [pair])[..|pairs|] == pairs;
  }

  /** The pairs of a list of requests, in order. */
  function RequestedPairs(requests: seq<Request>): (pairs: seq<Pair>)
    ensures |pairs| == |requests|
  {
    seq(|requests|, i requires 0 <= i < |requests| => requests[i].0)
  }

  /** Resolving a concatenation resolves each part and keeps their order. */
  lemma {:induction false} ResolveConcat(rows: seq<Row>, a: seq<Pair>, b: seq<Pair>)
    ensures Resolve(rows, a + b) == Resolve(rows, a) + Resolve(rows, b)
    decreases |b|
  {
    if b != [] {
      var front := b[..|b| - 1];
      assert (a + b)[..|a + b| - 1] == a + front;
      ResolveConcat(rows, a, front);
    } else {
      assert a + b == a;
    }
  }

  /**
   * Every known pair gets exactly as many sensors as there are tables reporting it
   * (no deduplication), and an unknown pair gets none.
   */
  lemma {:induction false} ResolveCount(rows: seq<Row>, pairs: seq<Pair>, pair: Pair)
    ensures multiset(RequestedPairs(Resolve(rows, pairs)))[pair]
         == if FirstMatch(rows, pair.0, pair.1).Some? then multiset(pairs)[pair] else 0
    decreases |pairs|
  {
    if pairs != [] {
      var last := pairs[|pairs| - 1];
      var front := pairs[..|pairs| - 1];
      assert pairs == front + [last];
      ResolveCount(rows, front, pair);
      var requests := Resolve(rows, front);
      match FirstMatch(rows, last.0, last.1)
      case Some(d) =>
        assert RequestedPairs(requests + [(last, d)]) == RequestedPairs(requests) + [last];
      case None =>
    }
  }

  /** The registry entries that belong to one config entry. */
  class EntityRegistry {
    var entries: seq<EnpalSensor>

    constructor (entries: seq<EnpalSensor>)
      ensures this.entries == entries
    {
      this.entries := entries;
    }

    /** `async_remove`: the entity leaves the registry, every other entry stays. */
    method Remove(entity: EnpalSensor)
      modifies this
      ensures entries == Without(old(entries), entity)
    {
      entries := Without(entries, entity);
    }

    /** `async_add_entities`: the new entities are registered after the existing ones. */
    method AddEntities(sensors: seq<EnpalSensor>)
      modifies this
      ensures entries == old(entries) + sensors
    {
      entries := entries + sensors;
    }
  }

  /** `entries` with every occurrence of `entity` dropped. */
  function Without(entries: seq<EnpalSensor>, entity: EnpalSensor): (rest: seq<EnpalSensor>)
    ensures multiset(rest) == multiset(entries)[entity := 0]
  {
    if entries == [] then []
    else
      assert entries == [entries[0]] + entries[1..];
      if entries[0] == entity then Without(entries[1..], entity)
      else [entries[0]] + Without(entries[1..], entity)
  }

  /** The stored configuration of the config entry (`hass.data[DOMAIN][entry_id]`). */
  class EntryData {
    var config: ConfigMap

    constructor (config: ConfigMap)
      ensures this.config == config
    {
      this.config := config;
    }
  }

  /** A new sensor built for `request` with the given connection settings. */
  ghost predicate BuiltFor(sensor: EnpalSensor, request: Request,
                           ip: ConfigValue, port: ConfigValue, token: ConfigValue)
    reads sensor
  {
    && sensor.Valid()
    && sensor.BuiltBinding() == request
    && sensor.ip == ip && sensor.port == port && sensor.token == token
    && sensor.uniqueId == UniqueId(request.0.0, request.0.1)
    && sensor.nativeValue == None && sensor.attributes == map[]
    && sensor.deviceClass == None && sensor.nativeUnit == None
    && sensor.stateClass == None && sensor.state == None
  }

  /**
   * Sensors built for the catalog's requests carry distinct unique ids whenever
   * their pairs differ.
   */
  lemma BuiltIdsDistinct(sensors: seq<EnpalSensor>, pairs: seq<Pair>,
                         ip: ConfigValue, port: ConfigValue, token: ConfigValue)
    requires |sensors| == |Resolve(CATALOG, pairs)|
    requires forall k :: 0 <= k < |sensors| ==>
      BuiltFor(sensors[k], Resolve(CATALOG, pairs)[k], ip, port, token)
    ensures forall i, j ::
      (&& 0 <= i < |sensors| && 0 <= j < |sensors|
       && (sensors[i].measurement, sensors[i].field) != (sensors[j].measurement, sensors[j].field))
      ==> sensors[i].uniqueId != sensors[j].uniqueId
  {
    var requests := Resolve(CATALOG, pairs);
    CatalogRequestsWellFormed(pairs);
    forall i, j | 0 <= i < |sensors| && 0 <= j < |sensors| &&
      (sensors[i].measurement, sensors[i].field) != (sensors[j].measurement, sensors[j].field)
      ensures sensors[i].uniqueId != sensors[j].uniqueId
    {
      assert requests[i] in requests && requests[j] in requests;
      CatalogIdsDistinct(sensors[i].measurement, sensors[i].field, sensors[j].measurement, sensors[j].field);
    }
  }

  /** `addSensor`: append a new sensor for `request` to the sensors built so far. */
  method AddSensor(sensors: seq<EnpalSensor>, ghost requests: seq<Request>, request: Request,
                   ip: ConfigValue, port: ConfigValue, token: ConfigValue)
    returns (extended: seq<EnpalSensor>)
    requires |sensors| == |requests|
    requires forall k :: 0 <= k < |sensors| ==> BuiltFor(sensors[k], requests[k], ip, port, token)
    ensures |extended| == |requests| + 1 && extended[..|sensors|] == sensors
    ensures fresh(extended[|sensors|])
    ensures forall k :: 0 <= k < |extended| ==> BuiltFor(extended[k], (requests + [request])[k], ip, port, token)
  {
    var ((measurement, field), d) := request;
    var sensor := new EnpalSensor(field, measurement, d.icon, d.name, ip, port, token, d.deviceClass, d.unit);
    extended := sensors + [sensor];
  }

  /**
   * The loop over the query's tables, with the if/elif chain given as the table
   * `rows`: one new sensor per table whose first record's pair the chain knows, in
   * table order; `ok` is false when a table has no first record to read (the
   * exception that ends setup).
   */
  method BuildSensors(rows: seq<Row>, tables: seq<Table>,
                      ip: ConfigValue, port: ConfigValue, token: ConfigValue)
    returns (ok: bool, sensors: seq<EnpalSensor>)
    ensures ok == AllHaveRecords(tables)
    ensures ok ==>
      var requests := Resolve(rows, FirstPairs(tables));
      && |sensors| == |requests|
      && forall k :: 0 <= k < |requests| ==>
           fresh(sensors[k]) && BuiltFor(sensors[k], requests[k], ip, port, token)
  {
    sensors := [];
    ghost var pairs: seq<Pair> := [];
    ghost var requests: seq<Request> := [];
    var i := 0;
    while i < |tables|
      invariant 0 <= i <= |tables| && |pairs| == i
      invariant forall k :: 0 <= k < i ==>
        |tables[k].records| > 0
        && pairs[k] == (tables[k].records[0].measurement, tables[k].records[0].field)
      invariant requests == Resolve(rows, pairs)
      invariant |sensors| == |requests|
      invariant forall k :: 0 <= k < |sensors| ==>
        fresh(sensors[k]) && BuiltFor(sensors[k], requests[k], ip, port, token)
    {
      if |tables[i].records| == 0 {
        return false, sensors;
      }
      var field := tables[i].records[0].field;
      var measurement := tables[i].records[0].measurement;
      ResolveSnoc(rows, pairs, (measurement, field));
      pairs := pairs + [(measurement, field)];
      var descriptor := FirstMatch(rows, measurement, field);
      match descriptor {
        case Some(d) =>
          sensors := AddSensor(sensors, requests, ((measurement, field), d), ip, port, token);
          requests := requests + [((measurement, field), d)];
        case None =>
      }
      i := i + 1;
    }
    assert pairs == FirstPairs(tables);
    return true, sensors;
  }

  /** The loop that removes every registry entry of the config entry, one by one. */
  method RemoveEntries(registry: EntityRegistry)
    modifies registry
    ensures registry.entries == []
  {
    var entries := registry.entries;
    var j := 0;
    while j < |entries|
      invariant 0 <= j <= |entries|
      invariant multiset(registry.entries) <= multiset(entries[j..])
    {
      assert entries[j..] == [entries[j]] + entries[j + 1..];
      registry.Remove(entries[j]);
      j := j + 1;
    }
    assert entries[j..] == [];
    assert |registry.entries| == |multiset(registry.entries)| == 0;
  }

  /** The registry step of setup: every entry of the config entry is removed, then `sensors` are added. */
  method ReplaceEntries(registry: EntityRegistry, sensors: seq<EnpalSensor>)
    modifies registry
    ensures registry.entries == sensors
  {
    RemoveEntries(registry);
    registry.AddEntities(sensors);
  }

  /**
   * The part of setup after the store query made with (ip, port, token) returned
   * `result`: a failed query or a table without records raises and leaves the
   * registry alone; otherwise every entry of the config entry is removed and the
   * new sensors, one per table whose pair the catalog knows, are registered.
   */
  method RegisterSensors(rows: seq<Row>, result: QueryResult, ip: ConfigValue, port: ConfigValue, token: ConfigValue,
                         registry: EntityRegistry)
    returns (outcome: SetupOutcome)
    modifies registry
    ensures result.QueryError? || !AllHaveRecords(result.tables) ==>
      outcome == Raised && registry.entries == old(registry.entries)
    ensures result.Tables? && AllHaveRecords(result.tables) ==>
      && outcome == Completed
      && var requests := Resolve(rows, FirstPairs(result.tables));
         && |registry.entries| == |requests|
         && forall k :: 0 <= k < |requests| ==>
              fresh(registry.entries[k]) && BuiltFor(registry.entries[k], requests[k], ip, port, token)
  {
    if result.QueryError? {
      return Raised;
    }
    var ok, toAdd := BuildSensors(rows, result.tables, ip, port, token);
    if !ok {
      return Raised;
    }
    ReplaceEntries(registry, toAdd);
    return Completed;
  }

  /**
   * One run of setup for the config entry whose stored configuration is `data`,
   * with `options` and `query` standing for the store query made with the
   * configured host, port and token.
   */
  method SetupEntry(data: EntryData, options: ConfigMap,
                    query: (ConfigValue, ConfigValue, ConfigValue) -> QueryResult,
                    registry: EntityRegistry)
    returns (outcome: SetupOutcome)
    modifies data, registry
    ensures data.config == Merge(old(data.config), options)
    ensures MissingKey(data.config).Some? ==>
      outcome == MissingConfig(MissingKey(data.config).value)
      && registry.entries == old(registry.entries)
    ensures MissingKey(data.config).None? ==>
      var ip, port, token := data.config[HOST_IP_KEY], data.config[HOST_PORT_KEY], data.config[TOKEN_KEY];
      var result := query(ip, port, token);
      if result.QueryError? || !AllHaveRecords(result.tables) then
        outcome == Raised && registry.entries == old(registry.entries)
      else
        && outcome == Completed
        && var requests := Resolve(CATALOG, FirstPairs(result.tables));
             && |registry.entries| == |requests|
             && forall k :: 0 <= k < |requests| ==>
                  fresh(registry.entries[k]) && BuiltFor(registry.entries[k], requests[k], ip, port, token)
  {
    data.config := Merge(data.config, options);
    var missing := MissingKey(data.config);
    if missing.Some? {
      return MissingConfig(missing.value);
    }
    var ip, port, token := data.config[HOST_IP_KEY], data.config[HOST_PORT_KEY], data.config[TOKEN_KEY];
    outcome := RegisterSensors(CATALOG, query(ip, port, token), ip, port, token, registry);
  }
}

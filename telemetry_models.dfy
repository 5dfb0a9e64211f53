/**
 * The API's declared payload models (src/models/telemetry.py): the field bounds of a reading,
 * the batch-size rules of the two batch formats, the precedence between them in the unified
 * payload, and the bounds on anomaly events and hourly KPIs. Each model's validation is a
 * predicate; `datetime.fromisoformat` is the parameter `parsesIso`, and the model library's own
 * datetime parsing (which takes a 'Z' suffix as it is) the parameter `parsesDatetime`.
 */
module TelemetryModels {
  import opened Wrappers
  import Models
  import Vehicle

  datatype Reading = Reading(
    vehicleId: string,
    timestamp: string,
    latitude: real,
    longitude: real,
    speedKph: real,
    fuelPercentage: real)

  /** `s.replace('Z', '+00:00')`: every 'Z' replaced, nothing else changed. */
  function ReplaceZ(s: string): (r: string)
    ensures 'Z' !in r
    ensures 'Z' !in s ==> r == s
    ensures |r| >= |s|
  {
    if s == [] then []
    else (if s[0] == 'Z' then "+00:00" else [s[0]]) + ReplaceZ(s[1..])
  }

  /** The reading's timestamp is accepted once its 'Z' suffix is rewritten as an offset. */
  predicate TimestampValid(ts: string, parsesIso: string -> bool) {
    parsesIso(ReplaceZ(ts))
  }

  /** The bounds of the reading's fields: latitude, longitude, a speed and a fuel percentage. */
  predicate FieldsInRange(r: Reading) {
    -90.0 <= r.latitude <= 90.0 && -180.0 <= r.longitude <= 180.0 &&
    r.speedKph >= 0.0 && 0.0 <= r.fuelPercentage <= 100.0
  }

  predicate ReadingValid(r: Reading, parsesIso: string -> bool) {
    FieldsInRange(r) && TimestampValid(r.timestamp, parsesIso)
  }

  /**
   * The documented example reading is valid whenever its time is; a latitude past 90, a
   * longitude past -180, a negative speed or a fuel level above 100 % is out of range.
   */
  lemma ReadingExample(parsesIso: string -> bool)
    requires TimestampValid("2025-09-04T12:01:00Z", parsesIso)
    ensures var r := Reading("V1", "2025-09-04T12:01:00Z", 22.57, 88.36, 42.0, 73.1);
      ReadingValid(r, parsesIso) && !FieldsInRange(r.(latitude := 90.5)) &&
      !FieldsInRange(r.(longitude := -180.5)) && !FieldsInRange(r.(speedKph := -1.0)) &&
      !FieldsInRange(r.(fuelPercentage := 100.1))
  {
  }

  predicate AllValid(rs: seq<Reading>, parsesIso: string -> bool) {
    forall i :: 0 <= i < |rs| ==> ReadingValid(rs[i], parsesIso)
  }

  const MaxLegacyBatch := 1000
  const MaxEngineBatch := 10000

  /** The legacy batch: between 1 and 1000 valid readings. */
  predicate LegacyBatchValid(readings: seq<Reading>, parsesIso: string -> bool) {
    1 <= |readings| <= MaxLegacyBatch && AllValid(readings, parsesIso)
  }

  datatype EnginePayload = EnginePayload(timestamp: string, batchSize: int, telemetryData: seq<Reading>)

  /**
   * The SimulationEngine payload: a parsable timestamp, a batch size in 1..10000, valid
   * readings, and exactly as many readings as the batch size says.
   */
  predicate EnginePayloadValid(p: EnginePayload, parsesIso: string -> bool) {
    TimestampValid(p.timestamp, parsesIso) &&
    1 <= p.batchSize <= MaxEngineBatch &&
    AllValid(p.telemetryData, parsesIso) &&
    |p.telemetryData| == p.batchSize
  }

  /** The unified payload: every field optional. */
  datatype UnifiedPayload = UnifiedPayload(
    readings: Option<seq<Reading>>,
    timestamp: Option<string>,
    batchSize: Option<int>,
    telemetryData: Option<seq<Reading>>)

  /** Readings present must be valid; a batch size and readings present together must agree. */
  predicate UnifiedValid(u: UnifiedPayload, parsesIso: string -> bool) {
    (u.readings.Some? ==> AllValid(u.readings.value, parsesIso)) &&
    (u.telemetryData.Some? ==> AllValid(u.telemetryData.value, parsesIso)) &&
    (u.telemetryData.Some? && u.batchSize.Some? ==> |u.telemetryData.value| == u.batchSize.value)
  }

  /** `get_telemetry_readings`: the SimulationEngine list when present, else the legacy list, else an error. */
  function GetTelemetryReadings(u: UnifiedPayload): Result<seq<Reading>> {
    if u.telemetryData.Some? then Ok(u.telemetryData.value)
    else if u.readings.Some? then Ok(u.readings.value)
    else Err("No telemetry data found in payload")
  }

  /** `get_format_type`, by the same precedence. */
  function GetFormatType(u: UnifiedPayload): string {
    if u.telemetryData.Some? then "simulation_engine"
    else if u.readings.Some? then "legacy"
    else "unknown"
  }

  /**
   * The format name and the readings agree: "unknown" exactly when there are no readings to
   * get, "simulation_engine" exactly when the SimulationEngine list is what is returned (even
   * when a legacy list is present too), and "legacy" exactly when the legacy list is.
   */
  lemma FormatMatchesReadings(u: UnifiedPayload)
    ensures GetFormatType(u) == "unknown" <==> GetTelemetryReadings(u).Err?
    ensures GetFormatType(u) == "simulation_engine" <==>
      u.telemetryData.Some? && GetTelemetryReadings(u) == Ok(u.telemetryData.value)
    ensures GetFormatType(u) == "legacy" <==>
      u.telemetryData.None? && u.readings.Some? && GetTelemetryReadings(u) == Ok(u.readings.value)
    ensures GetFormatType(u) in {"simulation_engine", "legacy", "unknown"}
  {
  }

  /** A valid SimulationEngine payload read through the unified model yields the same readings, as that format. */
  lemma EnginePayloadAsUnified(p: EnginePayload, parsesIso: string -> bool)
    requires EnginePayloadValid(p, parsesIso)
    ensures var u := UnifiedPayload(None, Some(p.timestamp), Some(p.batchSize), Some(p.telemetryData));
      UnifiedValid(u, parsesIso) && GetFormatType(u) == "simulation_engine" &&
      GetTelemetryReadings(u) == Ok(p.telemetryData)
  {
  }

  /**
   * The two batch limits nest: a valid legacy batch, sent with a parsable timestamp and its own
   * length as batch size, is a valid SimulationEngine payload, and a valid SimulationEngine
   * payload of at most 1000 readings is a valid legacy batch; 1001 readings are too many for
   * the legacy format.
   */
  lemma LegacyWithinEngine(readings: seq<Reading>, ts: string, parsesIso: string -> bool)
    requires TimestampValid(ts, parsesIso)
    ensures LegacyBatchValid(readings, parsesIso) ==>
      EnginePayloadValid(EnginePayload(ts, |readings|, readings), parsesIso)
    ensures EnginePayloadValid(EnginePayload(ts, |readings|, readings), parsesIso) && |readings| <= MaxLegacyBatch ==>
      LegacyBatchValid(readings, parsesIso)
    ensures |readings| == MaxLegacyBatch + 1 ==> !LegacyBatchValid(readings, parsesIso)
  {
  }

  /** A valid legacy batch read through the unified model is valid, of the legacy format, with the same readings. */
  lemma LegacyAsUnified(readings: seq<Reading>, parsesIso: string -> bool)
    requires LegacyBatchValid(readings, parsesIso)
    ensures var u := UnifiedPayload(Some(readings), None, None, None);
      UnifiedValid(u, parsesIso) && GetFormatType(u) == "legacy" && GetTelemetryReadings(u) == Ok(readings)
  {
  }

  /**
   * The unified payload rejects a SimulationEngine list whose batch size disagrees with it,
   * and accepts an empty payload, which then has no readings to get.
   */
  lemma UnifiedBatchSizeMustAgree(data: seq<Reading>, size: int, parsesIso: string -> bool)
    ensures size != |data| ==> !UnifiedValid(UnifiedPayload(None, None, Some(size), Some(data)), parsesIso)
    ensures UnifiedValid(UnifiedPayload(None, None, None, None), parsesIso) &&
            GetTelemetryReadings(UnifiedPayload(None, None, None, None)).Err?
  {
  }

  /** The event types an anomaly may carry. */
  datatype AnomalyEventType = FuelTheft | RouteDeviation | UnusualStop

  /** The enumeration parses from its value string. */
  function EventTypeOf(name: string): (t: Option<AnomalyEventType>)
    ensures t.Some? <==> name in {"FUEL_THEFT", "ROUTE_DEVIATION", "UNUSUAL_STOP"}
  {
    if name == "FUEL_THEFT" then Some(FuelTheft)
    else if name == "ROUTE_DEVIATION" then Some(RouteDeviation)
    else if name == "UNUSUAL_STOP" then Some(UnusualStop)
    else None
  }

  /**
   * An event as submitted. `details` is the key set of the `details` object, or None when the
   * field is missing or not an object; its values may be anything and are not modelled.
   */
  datatype AnomalyEvent = AnomalyEvent(vehicleId: string, timestamp: string, eventType: string,
                                       details: Option<set<string>>, confidenceScore: Option<real>)

  /** A known event type, a `details` object, and, when present, a confidence in [0, 1]. */
  predicate AnomalyEventValid(e: AnomalyEvent) {
    EventTypeOf(e.eventType).Some? && e.details.Some? &&
    (e.confidenceScore.Some? ==> 0.0 <= e.confidenceScore.value <= 1.0)
  }

  /** The keys of the details object the simulator attaches to a theft. */
  const TheftDetailKeys: set<string> := {"liters_stolen", "fuel_pct_before", "fuel_pct_after", "theft_percentage"}

  /**
   * The documented example event (a FUEL_THEFT with its four details and confidence 0.95) is
   * valid; without its details, with an unknown type or with a confidence above 1 it is not.
   */
  lemma AnomalyEventExample()
    ensures var e := AnomalyEvent("V1", "2025-09-04T12:01:00Z", "FUEL_THEFT", Some(TheftDetailKeys), Some(0.95));
      AnomalyEventValid(e) && !AnomalyEventValid(e.(details := None)) &&
      !AnomalyEventValid(e.(eventType := "fuel_theft")) && !AnomalyEventValid(e.(confidenceScore := Some(1.5)))
  {
  }

  datatype HourlyKpi = HourlyKpi(
    vehicleId: string,
    hourStart: string,
    utilizationPercentage: real,
    avgSpeedKph: real,
    distanceKm: real,
    idleTimeMinutes: real,
    fuelConsumedLiters: Option<real>)

  /** Utilisation in [0, 100]; speed, distance and idle time non-negative; fuel consumed, when present, too. */
  predicate HourlyKpiValid(k: HourlyKpi, parsesDatetime: string -> bool) {
    parsesDatetime(k.hourStart) &&
    0.0 <= k.utilizationPercentage <= 100.0 && k.avgSpeedKph >= 0.0 &&
    k.distanceKm >= 0.0 && k.idleTimeMinutes >= 0.0 &&
    (k.fuelConsumedLiters.Some? ==> k.fuelConsumedLiters.value >= 0.0)
  }

  /**
   * The documented example KPI, whose hour carries a 'Z' suffix, is valid whenever the datetime
   * parser accepts that hour; a utilisation above 100 % or a negative fuel figure is not.
   */
  lemma HourlyKpiExample(parsesDatetime: string -> bool)
    requires parsesDatetime("2025-09-04T12:00:00Z")
    ensures var k := HourlyKpi("V1", "2025-09-04T12:00:00Z", 85.5, 45.2, 38.7, 8.5, Some(9.68));
      HourlyKpiValid(k, parsesDatetime) &&
      !HourlyKpiValid(k.(utilizationPercentage := 100.5), parsesDatetime) &&
      !HourlyKpiValid(k.(fuelConsumedLiters := Some(-1.0)), parsesDatetime)
  {
  }

  // ---------------------------------------------------------------------------------------------
  // The simulator's output against these models

  /** A simulator reading as the API models see it, its time rendered by `stamp`. */
  function FromSimulator(r: Models.TelemetryReading, stamp: int -> string): Reading {
    Reading(r.vehicleId, stamp(r.timestamp), r.latitude, r.longitude, r.speedKph, r.fuelPercentage)
  }

  /**
   * Every reading a valid vehicle produces satisfies the speed and fuel bounds, so the API
   * accepts it exactly when its position is within latitude and longitude bounds (and its
   * timestamp parses).
   */
  lemma SimulatorReadingAccepted(c: Vehicle.Config, s: Vehicle.LiveState, ts: int, dt: int, d: Vehicle.Draws,
                                 stamp: int -> string, parsesIso: string -> bool)
    requires Vehicle.ConfigValid(c) && Vehicle.LiveValid(c, s) && dt > 0 && Vehicle.DrawsValid(d)
    requires TimestampValid(stamp(ts), parsesIso)
    ensures var r := Vehicle.Step(c, s, ts, dt, d).reading;
      ReadingValid(FromSimulator(r, stamp), parsesIso) <==>
      -90.0 <= r.latitude <= 90.0 && -180.0 <= r.longitude <= 180.0
  {
    Vehicle.ReadingInRange(c, s, ts, dt, d);
  }

  /** A simulator anomaly is a fuel theft with its details and without a confidence score, which the event model accepts. */
  lemma SimulatorAnomalyAccepted(c: Vehicle.Config, s: Vehicle.LiveState, ts: int, dt: int, d: Vehicle.Draws,
                                 stamp: int -> string)
    requires Vehicle.ConfigValid(c) && s.edge >= 0
    requires Vehicle.Step(c, s, ts, dt, d).anomaly.Some?
    ensures var e := Vehicle.Step(c, s, ts, dt, d).anomaly.value;
      AnomalyEventValid(AnomalyEvent(e.vehicleId, stamp(e.timestamp), e.eventType, Some(TheftDetailKeys), None)) &&
      EventTypeOf(e.eventType) == Some(FuelTheft)
  {
    Vehicle.StepAnomalyIsTheft(c, s, ts, dt, d);
  }

  /**
   * The payload the stream handler builds for a batch states the batch's own length, so it is a
   * valid SimulationEngine payload exactly when the batch is non-empty, holds at most 10000
   * readings and every reading is valid (given a parsable send time).
   */
  lemma StreamedBatchValid(batch: seq<Reading>, sentAt: string, parsesIso: string -> bool)
    requires TimestampValid(sentAt, parsesIso)
    ensures EnginePayloadValid(EnginePayload(sentAt, |batch|, batch), parsesIso) <==>
      1 <= |batch| <= MaxEngineBatch && AllValid(batch, parsesIso)
  {
  }

  /** The rewrite turns the simulator's 'Z' suffix into an explicit offset. */
  lemma ReplaceZSuffix(s: string)
    requires 'Z' !in s
    ensures ReplaceZ(s + "Z") == s + "+00:00"
  {
    if s != [] {
      assert (s + "Z")[1..] == s[1..] + "Z";
      ReplaceZSuffix(s[1..]);
      assert s == [s[0]] + s[1..];
    }
  }
}

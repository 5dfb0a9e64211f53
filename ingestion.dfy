/**
 * The in-memory ingestion service of the API (src/api/ingestion.py): format detection over a
 * decoded JSON payload, field defaults, duplicate filtering on the `vehicle_id_timestamp` key,
 * the batch counters, the window of recent payloads, the health decision and the reset.
 */
module Ingestion {
  import opened Wrappers

  /**
   * A decoded JSON value. Python's decoder keeps integers (`5`) and floats (`5.0`) apart, and so
   * does `str()`, so they are two kinds here. Objects are maps: the order of their keys is not
   * modelled.
   */
  datatype Json =
    | JNull
    | JBool(b: bool)
    | JInt(i: int)
    | JNum(n: real)
    | JStr(s: string)
    | JArr(items: seq<Json>)
    | JObj(fields: map<string, Json>)

  /**
   * Python's text conversions of JSON values, which the model does not spell out:
   * `float()` of a string and `str()` of any value.
   */
  datatype PyText = PyText(parseFloat: string -> Option<real>, render: Json -> string)

  /** `str()` of a string is that string. */
  ghost predicate PyTextValid(py: PyText) {
    forall s: string :: py.render(JStr(s)) == s
  }

  /** Python's `float()` of a JSON value: integers, floats and booleans convert, strings are parsed, the rest fail. */
  function ToFloat(v: Json, py: PyText): Option<real> {
    match v
    case JInt(i) => Some(i as real)
    case JNum(n) => Some(n)
    case JBool(b) => Some(if b then 1.0 else 0.0)
    case JStr(s) => py.parseFloat(s)
    case _ => None
  }

  /** `dict.get(key, default)`. */
  function Field(m: map<string, Json>, key: string, default: Json): Json {
    if key in m then m[key] else default
  }

  const NumericFields: seq<string> := ["latitude", "longitude", "speed_kph", "fuel_percentage"]

  /**
   * A reading as the extractor normalises it. The identity fields keep whatever JSON value the
   * payload held; the four numbers have been through `float()`.
   */
  datatype Reading = Reading(
    vehicleId: Json,
    timestamp: Json,
    latitude: real,
    longitude: real,
    speedKph: real,
    fuelPercentage: real)

  /**
   * One element of a payload made into a reading: a missing `vehicle_id` becomes "UNKNOWN", a
   * missing `timestamp` "" and a missing number 0.0. It fails exactly when the element is not an
   * object or one of its numeric fields is present and `float()` rejects it.
   */
  function Normalize(v: Json, py: PyText): (r: Option<Reading>)
    ensures r.Some? <==>
      v.JObj? && forall k :: k in NumericFields ==> ToFloat(Field(v.fields, k, JNum(0.0)), py).Some?
  {
    if !v.JObj? then None
    else
      var m := v.fields;
      var lat := ToFloat(Field(m, "latitude", JNum(0.0)), py);
      var lon := ToFloat(Field(m, "longitude", JNum(0.0)), py);
      var speed := ToFloat(Field(m, "speed_kph", JNum(0.0)), py);
      var fuel := ToFloat(Field(m, "fuel_percentage", JNum(0.0)), py);
      if lat.None? || lon.None? || speed.None? || fuel.None? then None
      else Some(Reading(Field(m, "vehicle_id", JStr("UNKNOWN")), Field(m, "timestamp", JStr("")),
                        lat.value, lon.value, speed.value, fuel.value))
  }

  /** Every element normalised, in order, or nothing when one of them fails. */
  function NormalizeAll(items: seq<Json>, py: PyText): Option<seq<Reading>> {
    if forall i :: 0 <= i < |items| ==> Normalize(items[i], py).Some?
    then Some(seq(|items|, i requires 0 <= i < |items| => Normalize(items[i], py).value))
    else None
  }

  /**
   * What a `for` loop over a JSON value hands to the per-element `.get`: the items of an array.
   * An empty object or string yields nothing; a non-empty one yields strings, on which `.get`
   * fails, and any other value cannot be iterated at all.
   */
  function ElementsOf(v: Json): Option<seq<Json>> {
    match v
    case JArr(items) => Some(items)
    case JObj(m) => if m == map[] then Some([]) else None
    case JStr(s) => if s == "" then Some([]) else None
    case _ => None
  }

  datatype Extracted = Extracted(readings: seq<Reading>, format: string)

  /** The outcome of any exception raised during extraction. */
  const Failed := Extracted([], "error")

  function FromElements(elems: Option<seq<Json>>, format: string, py: PyText): Extracted {
    if elems.None? then Failed
    else match NormalizeAll(elems.value, py)
      case Some(rs) => Extracted(rs, format)
      case None => Failed
  }

  /**
   * `extract_telemetry_readings`. The formats are tried in order: `telemetry_data` together with
   * `batch_size`, then `readings`, then a bare array, then `vehicle_id` together with `timestamp`.
   * Python's `in` on an array compares the key with its elements, so an array holding those key
   * strings takes a branch that then subscripts the array with a string and fails. A string
   * payload fails on every branch (subscript, `.get` or `.keys`), and `in` on a number, boolean or
   * null raises at once.
   */
  function Extract(payload: Json, py: PyText): (e: Extracted)
    ensures e.format in {"simulation_engine", "legacy", "raw_array", "single_reading", "unknown", "error"}
    ensures e.format == "unknown" || e.format == "error" ==> e.readings == []
    ensures e.format == "single_reading" ==> |e.readings| == 1
    ensures !payload.JObj? && !payload.JArr? ==> e == Failed
    ensures payload.JObj? ==>
      var m := payload.fields;
      ("telemetry_data" in m && "batch_size" in m ==> e.format in {"simulation_engine", "error"}) &&
      (!("telemetry_data" in m && "batch_size" in m) && "readings" in m ==> e.format in {"legacy", "error"}) &&
      ((!("telemetry_data" in m && "batch_size" in m) && "readings" !in m &&
        "vehicle_id" in m && "timestamp" in m) ==> e.format in {"single_reading", "error"}) &&
      ((!("telemetry_data" in m && "batch_size" in m) && "readings" !in m &&
        !("vehicle_id" in m && "timestamp" in m)) ==> e == Extracted([], "unknown"))
    ensures payload.JArr? ==> e.format in {"raw_array", "error"}
  {
    match payload
    case JObj(m) =>
      if "telemetry_data" in m && "batch_size" in m then
        FromElements(ElementsOf(m["telemetry_data"]), "simulation_engine", py)
      else if "readings" in m then
        FromElements(ElementsOf(m["readings"]), "legacy", py)
      else if "vehicle_id" in m && "timestamp" in m then
        match Normalize(payload, py)
        case Some(r) => Extracted([r], "single_reading")
        case None => Failed
      else Extracted([], "unknown")
    case JArr(items) =>
      if (JStr("telemetry_data") in items && JStr("batch_size") in items) || JStr("readings") in items
      then Failed
      else FromElements(Some(items), "raw_array", py)
    case _ => Failed
  }

  /**
   * The list formats keep one reading per element, in the payload's order, each the
   * normalisation of its element.
   */
  lemma ExtractKeepsOrder(payload: Json, py: PyText)
    ensures var e := Extract(payload, py);
      e.format == "simulation_engine" || e.format == "legacy" || e.format == "raw_array" ==>
      var items :=
        if e.format == "raw_array" then payload.items
        else if e.format == "legacy" then ElementsOf(payload.fields["readings"]).value
        else ElementsOf(payload.fields["telemetry_data"]).value;
      |e.readings| == |items| &&
      forall i :: 0 <= i < |items| ==> Normalize(items[i], py) == Some(e.readings[i])
  {
    var e := Extract(payload, py);
    if e.format == "simulation_engine" || e.format == "legacy" || e.format == "raw_array" {
      var elems :=
        if e.format == "raw_array" then Some(payload.items)
        else if e.format == "legacy" then ElementsOf(payload.fields["readings"])
        else ElementsOf(payload.fields["telemetry_data"]);
      assert e == FromElements(elems, e.format, py);
      assert NormalizeAll(elems.value, py) == Some(e.readings);
    }
  }

  /** The elements of a list format cannot all be read: the value is not iterable as a list, or one element fails. */
  predicate ElementsFail(elems: Option<seq<Json>>, py: PyText) {
    elems.None? || exists i :: 0 <= i < |elems.value| && Normalize(elems.value[i], py).None?
  }

  lemma FromElementsFails(elems: Option<seq<Json>>, format: string, py: PyText)
    requires format != "error"
    ensures FromElements(elems, format, py).format == "error" <==> ElementsFail(elems, py)
  {
  }

  /**
   * When extraction fails, branch by branch: a list format fails exactly when its elements
   * cannot all be normalised, a bare array also when it holds one of the key strings, and a
   * single reading exactly when the payload itself cannot be normalised; otherwise the single
   * reading is the normalised payload.
   */
  lemma ExtractFailsExactly(payload: Json, py: PyText)
    ensures payload.JObj? && "telemetry_data" in payload.fields && "batch_size" in payload.fields ==>
      (Extract(payload, py).format == "error" <==> ElementsFail(ElementsOf(payload.fields["telemetry_data"]), py))
    ensures payload.JObj? && !("telemetry_data" in payload.fields && "batch_size" in payload.fields) &&
            "readings" in payload.fields ==>
      (Extract(payload, py).format == "error" <==> ElementsFail(ElementsOf(payload.fields["readings"]), py))
    ensures payload.JObj? && !("telemetry_data" in payload.fields && "batch_size" in payload.fields) &&
            "readings" !in payload.fields && "vehicle_id" in payload.fields && "timestamp" in payload.fields ==>
      (Extract(payload, py).format == "error" <==> Normalize(payload, py).None?) &&
      (Extract(payload, py).format == "single_reading" ==> Extract(payload, py).readings == [Normalize(payload, py).value])
    ensures payload.JArr? ==>
      (Extract(payload, py).format == "error" <==>
        (JStr("telemetry_data") in payload.items && JStr("batch_size") in payload.items) ||
        JStr("readings") in payload.items || ElementsFail(Some(payload.items), py))
  {
    match payload
    case JObj(m) =>
      if "telemetry_data" in m && "batch_size" in m {
        FromElementsFails(ElementsOf(m["telemetry_data"]), "simulation_engine", py);
      } else if "readings" in m {
        FromElementsFails(ElementsOf(m["readings"]), "legacy", py);
      }
    case JArr(items) =>
      FromElementsFails(Some(items), "raw_array", py);
    case _ =>
  }

  /** An object without any of the fields becomes the all-defaults reading; fields that are present and numeric are kept. */
  lemma NormalizeDefaults(m: map<string, Json>, id: Json, ts: Json, lat: real, lon: real, speed: real, fuel: real, py: PyText)
    ensures Normalize(JObj(map[]), py) == Some(Reading(JStr("UNKNOWN"), JStr(""), 0.0, 0.0, 0.0, 0.0))
    ensures Normalize(JObj(map["vehicle_id" := id, "timestamp" := ts, "latitude" := JNum(lat),
                                "longitude" := JNum(lon), "speed_kph" := JNum(speed),
                                "fuel_percentage" := JNum(fuel)]), py) ==
            Some(Reading(id, ts, lat, lon, speed, fuel))
  {
  }

  /** The per-element loop of the extractor. */
  method NormalizeItems(items: seq<Json>, py: PyText) returns (rs: Option<seq<Reading>>)
    ensures rs == NormalizeAll(items, py)
  {
    var acc: seq<Reading> := [];
    for i := 0 to |items|
      invariant |acc| == i
      invariant forall k :: 0 <= k < i ==> Normalize(items[k], py) == Some(acc[k])
    {
      var r := Normalize(items[i], py);
      if r.None? {
        return None;
      }
      acc := acc + [r.value];
    }
    assert acc == seq(|items|, i requires 0 <= i < |items| => Normalize(items[i], py).value);
    return Some(acc);
  }

  method ReadElements(elems: Option<seq<Json>>, format: string, py: PyText) returns (readings: seq<Reading>, detected: string)
    ensures Extracted(readings, detected) == FromElements(elems, format, py)
  {
    if elems.None? {
      return [], "error";
    }
    var rs := NormalizeItems(elems.value, py);
    if rs.None? {
      return [], "error";
    }
    return rs.value, format;
  }

  /** The extractor, step by step, as the endpoint runs it. */
  method ExtractTelemetryReadings(payload: Json, py: PyText) returns (readings: seq<Reading>, format: string)
    ensures Extracted(readings, format) == Extract(payload, py)
  {
    match payload {
      case JObj(m) =>
        if "telemetry_data" in m && "batch_size" in m {
          readings, format := ReadElements(ElementsOf(m["telemetry_data"]), "simulation_engine", py);
        } else if "readings" in m {
          readings, format := ReadElements(ElementsOf(m["readings"]), "legacy", py);
        } else if "vehicle_id" in m && "timestamp" in m {
          var r := Normalize(payload, py);
          if r.None? {
            readings, format := [], "error";
          } else {
            readings, format := [r.value], "single_reading";
          }
        } else {
          readings, format := [], "unknown";
        }
      case JArr(items) =>
        if (JStr("telemetry_data") in items && JStr("batch_size") in items) || JStr("readings") in items {
          readings, format := [], "error";
        } else {
          readings, format := ReadElements(Some(items), "raw_array", py);
        }
      case _ =>
        readings, format := [], "error";
    }
  }

  // ---------------------------------------------------------------------------------------------
  // Duplicate filtering

  /** The duplicate key: `str(vehicle_id) + "_" + str(timestamp)`. */
  function Key(r: Reading, py: PyText): string {
    py.render(r.vehicleId) + "_" + py.render(r.timestamp)
  }

  function Keys(rs: seq<Reading>, py: PyText): set<string> {
    set i | 0 <= i < |rs| :: Key(rs[i], py)
  }

  predicate DistinctKeys(rs: seq<Reading>, py: PyText) {
    forall i, j :: 0 <= i < j < |rs| ==> Key(rs[i], py) != Key(rs[j], py)
  }

  lemma KeysAppend(rs: seq<Reading>, r: Reading, py: PyText)
    ensures Keys(rs + [r], py) == Keys(rs, py) + {Key(r, py)}
  {
    var both := rs + [r];
    forall k | k in Keys(both, py) ensures k in Keys(rs, py) + {Key(r, py)} {
      var i :| 0 <= i < |both| && k == Key(both[i], py);
      if i < |rs| {
        assert both[i] == rs[i];
      }
    }
    forall k | k in Keys(rs, py) ensures k in Keys(both, py) {
      var i :| 0 <= i < |rs| && k == Key(rs[i], py);
      assert both[i] == rs[i];
    }
    assert both[|rs|] == r;
  }

  /**
   * The readings the filter keeps: in input order, each reading whose key is neither in `seen`
   * nor the key of an earlier reading of the batch. This is the reference the filter loop is
   * proved against.
   */
  function Firsts(seen: set<string>, rs: seq<Reading>, py: PyText): (kept: seq<Reading>)
    ensures |kept| <= |rs|
  {
    if rs == [] then []
    else
      var n := |rs| - 1;
      Firsts(seen, rs[..n], py) +
        (if Key(rs[n], py) !in seen && Key(rs[n], py) !in Keys(rs[..n], py) then [rs[n]] else [])
  }

  /** Reading i is kept after the first i exactly when its key is neither seen nor earlier. */
  lemma FirstsNext(seen: set<string>, rs: seq<Reading>, i: nat, py: PyText)
    requires i < |rs|
    ensures Firsts(seen, rs[..i + 1], py) ==
      Firsts(seen, rs[..i], py) +
        (if Key(rs[i], py) !in seen && Key(rs[i], py) !in Keys(rs[..i], py) then [rs[i]] else [])
  {
    assert rs[..i + 1][..i] == rs[..i];
  }

  /**
   * The kept readings carry each key of the batch that was not already seen exactly once: their
   * keys are pairwise distinct, none is in `seen`, and together they are the batch's keys minus `seen`.
   */
  lemma {:induction false} FirstsKeys(seen: set<string>, rs: seq<Reading>, py: PyText)
    ensures Keys(Firsts(seen, rs, py), py) == Keys(rs, py) - seen
    ensures DistinctKeys(Firsts(seen, rs, py), py)
  {
    if rs != [] {
      var n := |rs| - 1;
      var prefix := rs[..n];
      FirstsKeys(seen, prefix, py);
      var kept := Firsts(seen, prefix, py);
      assert rs == prefix + [rs[n]];
      KeysAppend(prefix, rs[n], py);
      assert Keys(rs, py) == Keys(prefix, py) + {Key(rs[n], py)};
      if Key(rs[n], py) !in seen && Key(rs[n], py) !in Keys(prefix, py) {
        assert Firsts(seen, rs, py) == kept + [rs[n]];
        KeysAppend(kept, rs[n], py);
        var all := kept + [rs[n]];
        forall i, j | 0 <= i < j < |all| ensures Key(all[i], py) != Key(all[j], py) {
          if j == |kept| {
            assert Key(all[i], py) in Keys(kept, py) by { assert all[i] == kept[i]; }
          } else {
            assert all[i] == kept[i] && all[j] == kept[j];
          }
        }
      } else {
        assert Firsts(seen, rs, py) == kept;
      }
    }
  }

  /** A batch whose every key was already seen is all duplicates. */
  lemma {:induction false} FirstsOfSeen(seen: set<string>, rs: seq<Reading>, py: PyText)
    requires Keys(rs, py) <= seen
    ensures Firsts(seen, rs, py) == []
  {
    if rs != [] {
      var n := |rs| - 1;
      assert Keys(rs[..n], py) <= Keys(rs, py) by {
        forall k | k in Keys(rs[..n], py) ensures k in Keys(rs, py) {
          var i :| 0 <= i < n && k == Key(rs[..n][i], py);
          assert rs[..n][i] == rs[i];
        }
      }
      FirstsOfSeen(seen, rs[..n], py);
      assert Key(rs[n], py) in Keys(rs, py);
    }
  }

  /** A batch whose keys are distinct and all unseen is kept whole. */
  lemma {:induction false} FirstsOfFresh(seen: set<string>, rs: seq<Reading>, py: PyText)
    requires DistinctKeys(rs, py) && Keys(rs, py) !! seen
    ensures Firsts(seen, rs, py) == rs
  {
    if rs != [] {
      var n := |rs| - 1;
      var prefix := rs[..n];
      assert rs == prefix + [rs[n]];
      KeysAppend(prefix, rs[n], py);
      assert DistinctKeys(prefix, py) by {
        forall i, j | 0 <= i < j < |prefix| ensures Key(prefix[i], py) != Key(prefix[j], py) {
          assert prefix[i] == rs[i] && prefix[j] == rs[j];
        }
      }
      FirstsOfFresh(seen, prefix, py);
      forall i | 0 <= i < n ensures Key(prefix[i], py) != Key(rs[n], py) {
        assert prefix[i] == rs[i];
      }
      assert Key(rs[n], py) !in Keys(prefix, py);
    }
  }

  /**
   * The key is a plain concatenation, so two different (vehicle, timestamp) pairs can share it:
   * the second of these readings is dropped as a duplicate of the first.
   */
  lemma KeyCollision(py: PyText)
    requires PyTextValid(py)
    ensures var a := Reading(JStr("V_1"), JStr("T"), 0.0, 0.0, 0.0, 0.0);
            var b := Reading(JStr("V"), JStr("1_T"), 0.0, 0.0, 0.0, 0.0);
            a != b && Key(a, py) == Key(b, py) && Firsts({}, [a, b], py) == [a]
  {
    var a := Reading(JStr("V_1"), JStr("T"), 0.0, 0.0, 0.0, 0.0);
    var b := Reading(JStr("V"), JStr("1_T"), 0.0, 0.0, 0.0, 0.0);
    assert py.render(JStr("V_1")) == "V_1" && py.render(JStr("T")) == "T";
    assert py.render(JStr("V")) == "V" && py.render(JStr("1_T")) == "1_T";
    assert Key(a, py) == Key(b, py);
    assert [a, b][..1] == [a];
    assert [a][..0] == [];
    assert Key(a, py) in Keys([a], py) by { assert [a][0] == a; }
  }

  // ---------------------------------------------------------------------------------------------
  // The service state

  /** A stored reading: the reading with its processing metadata. */
  datatype Stored = Stored(
    reading: Reading,
    ingestionFormat: string,
    processedAt: int,
    batchId: nat,
    batchTimestamp: Option<Json>)

  /** One entry of the debugging window: when, the payload's keys (None for a non-object) and `len(str(payload))`. */
  datatype PayloadInfo = PayloadInfo(receivedAt: int, payloadKeys: Option<set<string>>, payloadSize: nat)

  const RecentLimit := 5
  const StaleAfterSeconds := 300
  const DegradedAfterErrors := 10

  /** The store and the metadata record. Times are clock readings in seconds. */
  datatype ServiceState = ServiceState(
    store: seq<Stored>,
    totalBatches: nat,
    simulationEngineBatches: nat,
    legacyBatches: nat,
    rawBatches: nat,
    totalReadings: nat,
    duplicateReadings: nat,
    processingErrors: nat,
    lastBatch: Option<int>,
    startTime: int,
    recent: seq<PayloadInfo>)

  function ReadingsOf(store: seq<Stored>): (rs: seq<Reading>)
    ensures |rs| == |store| && forall i :: 0 <= i < |store| ==> rs[i] == store[i].reading
  {
    seq(|store|, i requires 0 <= i < |store| => store[i].reading)
  }

  function StoreKeys(store: seq<Stored>, py: PyText): set<string> {
    Keys(ReadingsOf(store), py)
  }

  /**
   * What every reachable state satisfies: the window holds at most five entries, every batch
   * was counted under exactly one format, the reading counter is the store's size and no two
   * stored readings share a key.
   */
  predicate Consistent(s: ServiceState, py: PyText) {
    |s.recent| <= RecentLimit &&
    s.totalBatches == s.simulationEngineBatches + s.legacyBatches + s.rawBatches &&
    s.totalReadings == |s.store| &&
    DistinctKeys(ReadingsOf(s.store), py)
  }

  function Initial(startTime: int): ServiceState {
    ServiceState([], 0, 0, 0, 0, 0, 0, 0, None, startTime, [])
  }

  /** The window after one more payload: appended, then the oldest dropped when it holds more than five. */
  function Window(recent: seq<PayloadInfo>, info: PayloadInfo): (w: seq<PayloadInfo>)
    ensures |recent| <= RecentLimit ==> |w| <= RecentLimit
    ensures |w| > 0 && w[|w| - 1] == info
    ensures |recent| < RecentLimit ==> w == recent + [info]
    ensures |recent| == RecentLimit ==> w == recent[1..] + [info]
  {
    var appended := recent + [info];
    if |appended| > RecentLimit then appended[1..] else appended
  }

  function Info(payload: Json, now: int, py: PyText): PayloadInfo {
    PayloadInfo(now, if payload.JObj? then Some(payload.fields.Keys) else None, |py.render(payload)|)
  }

  /** One more batch, counted under its format; every format other than the two named ones counts as raw. */
  function CountBatch(s: ServiceState, format: string): (s': ServiceState)
    ensures s'.totalBatches == s.totalBatches + 1
    ensures s'.simulationEngineBatches + s'.legacyBatches + s'.rawBatches ==
            s.simulationEngineBatches + s.legacyBatches + s.rawBatches + 1
    ensures s'.simulationEngineBatches == s.simulationEngineBatches + (if format == "simulation_engine" then 1 else 0)
    ensures s'.legacyBatches == s.legacyBatches + (if format == "legacy" then 1 else 0)
    ensures s' == s.(totalBatches := s'.totalBatches, simulationEngineBatches := s'.simulationEngineBatches,
                     legacyBatches := s'.legacyBatches, rawBatches := s'.rawBatches)
  {
    var s1 := s.(totalBatches := s.totalBatches + 1);
    if format == "simulation_engine" then s1.(simulationEngineBatches := s.simulationEngineBatches + 1)
    else if format == "legacy" then s1.(legacyBatches := s.legacyBatches + 1)
    else s1.(rawBatches := s.rawBatches + 1)
  }

  /** `payload.get("timestamp")` for an object payload; None otherwise and for a null value. */
  function BatchTimestamp(payload: Json): Option<Json> {
    if payload.JObj? && "timestamp" in payload.fields && payload.fields["timestamp"] != JNull
    then Some(payload.fields["timestamp"])
    else None
  }

  function Enhance(kept: seq<Reading>, format: string, now: int, batchId: nat, ts: Option<Json>): (stored: seq<Stored>)
    ensures |stored| == |kept|
    ensures forall i :: 0 <= i < |kept| ==> stored[i] == Stored(kept[i], format, now, batchId, ts)
  {
    seq(|kept|, i requires 0 <= i < |kept| => Stored(kept[i], format, now, batchId, ts))
  }

  /** `process_telemetry_async`: every reading stored in order with its metadata, and counted. */
  function Process(s: ServiceState, kept: seq<Reading>, format: string, batchId: nat, ts: Option<Json>, now: int): ServiceState {
    s.(store := s.store + Enhance(kept, format, now, batchId, ts),
       totalReadings := s.totalReadings + |kept|,
       lastBatch := Some(now))
  }

  /** A request body: not UTF-8, not JSON (with the parser's message), or a decoded value. */
  datatype Body = NotUtf8(reason: string) | BadJson(reason: string) | Parsed(payload: Json)

  /** The endpoint's JSON response, without the processing time and the debugging fields. */
  datatype Response = Response(
    httpStatus: int,
    status: string,
    detail: string,
    processedCount: nat,
    duplicateCount: nat,
    errorCount: nat,
    formatDetected: Option<string>,
    batchTimestamp: Option<Json>)

  /**
   * The `/ingest` endpoint on one request, the background processing included. A body that is
   * not UTF-8 reaches the outer handler and counts as a processing error; one that is not JSON
   * is answered 400 and leaves the state alone. An empty extraction (an unknown format or a
   * failed one included) is `no_data` and counts nothing; otherwise the batch is counted, the
   * duplicates are counted, and the new readings, if any, are stored.
   */
  function IngestStep(s: ServiceState, body: Body, now: int, py: PyText): (ServiceState, Response) {
    match body
    case NotUtf8(reason) =>
      (s.(processingErrors := s.processingErrors + 1),
       Response(500, "error", reason, 0, 0, 1, None, None))
    case BadJson(reason) =>
      (s, Response(400, "json_error", "Invalid JSON: " + reason, 0, 0, 1, None, None))
    case Parsed(payload) =>
      var s1 := s.(recent := Window(s.recent, Info(payload, now, py)));
      var e := Extract(payload, py);
      if e.readings == [] then
        (s1, Response(200, "no_data", "No telemetry readings found in payload", 0, 0, 0, Some(e.format), None))
      else
        Admit(CountBatch(s1, e.format), e, BatchTimestamp(payload), now, py)
  }

  /** A non-empty extraction after it is counted: duplicates filtered and counted, the rest stored. */
  function Admit(s: ServiceState, e: Extracted, ts: Option<Json>, now: int, py: PyText): (ServiceState, Response) {
    var kept := Firsts(StoreKeys(s.store, py), e.readings, py);
    var dups := |e.readings| - |kept|;
    var s1 := s.(duplicateReadings := s.duplicateReadings + dups);
    if kept == [] then
      (s1, Response(200, "success", "All readings were duplicates", 0, dups, 0, Some(e.format), None))
    else
      (Process(s1, kept, e.format, s1.totalBatches, ts, now),
       Response(200, "success", "", |kept|, dups, 0, Some(e.format), ts))
  }

  lemma DistinctAppend(rs: seq<Reading>, more: seq<Reading>, py: PyText)
    requires DistinctKeys(rs, py) && DistinctKeys(more, py)
    requires Keys(more, py) !! Keys(rs, py)
    ensures DistinctKeys(rs + more, py)
  {
    var all := rs + more;
    forall i, j | 0 <= i < j < |all| ensures Key(all[i], py) != Key(all[j], py) {
      if j < |rs| {
        assert all[i] == rs[i] && all[j] == rs[j];
      } else if i >= |rs| {
        assert all[i] == more[i - |rs|] && all[j] == more[j - |rs|];
      } else {
        assert all[i] == rs[i] && all[j] == more[j - |rs|];
        assert Key(all[i], py) in Keys(rs, py);
        assert Key(all[j], py) in Keys(more, py);
      }
    }
  }

  /** Storing the kept readings leaves no two stored readings with the same key. */
  lemma ProcessKeepsKeysDistinct(s: ServiceState, rs: seq<Reading>, format: string, batchId: nat,
                                 ts: Option<Json>, now: int, py: PyText)
    requires DistinctKeys(ReadingsOf(s.store), py)
    ensures var kept := Firsts(StoreKeys(s.store, py), rs, py);
      DistinctKeys(ReadingsOf(Process(s, kept, format, batchId, ts, now).store), py)
  {
    var kept := Firsts(StoreKeys(s.store, py), rs, py);
    FirstsKeys(StoreKeys(s.store, py), rs, py);
    var s' := Process(s, kept, format, batchId, ts, now);
    assert ReadingsOf(s'.store) == ReadingsOf(s.store) + kept;
    DistinctAppend(ReadingsOf(s.store), kept, py);
  }

  /** Every request keeps the service consistent. */
  lemma IngestPreservesConsistent(s: ServiceState, body: Body, now: int, py: PyText)
    requires Consistent(s, py)
    ensures Consistent(IngestStep(s, body, now, py).0, py)
  {
    if body.Parsed? {
      var e := Extract(body.payload, py);
      if e.readings != [] {
        var kept := Firsts(StoreKeys(s.store, py), e.readings, py);
        if kept != [] {
          var s1 := s.(recent := Window(s.recent, Info(body.payload, now, py)));
          var s3 := CountBatch(s1, e.format);
          var s3' := s3.(duplicateReadings := s3.duplicateReadings + (|e.readings| - |kept|));
          assert s3'.store == s.store;
          ProcessKeepsKeysDistinct(s3', e.readings, e.format, s3'.totalBatches, BatchTimestamp(body.payload), now, py);
        }
      }
    }
  }

  /**
   * The accounting of one decoded payload: the batch counter moves exactly when the extraction
   * found readings; then every extracted reading is either processed or a duplicate, the processed
   * ones are appended to the store in order and no other reading is stored.
   */
  lemma IngestAccounting(s: ServiceState, payload: Json, now: int, py: PyText)
    ensures var (s', r) := IngestStep(s, Parsed(payload), now, py);
      var e := Extract(payload, py);
      (s'.totalBatches == s.totalBatches + 1 <==> e.readings != []) &&
      (s'.totalBatches == s.totalBatches || s'.totalBatches == s.totalBatches + 1) &&
      r.processedCount + r.duplicateCount == |e.readings| &&
      s'.duplicateReadings == s.duplicateReadings + r.duplicateCount &&
      |s'.store| == |s.store| + r.processedCount &&
      s'.store[..|s.store|] == s.store &&
      ReadingsOf(s'.store[|s.store|..]) == Firsts(StoreKeys(s.store, py), e.readings, py) &&
      s'.processingErrors == s.processingErrors
  {
    var e := Extract(payload, py);
    var s' := IngestStep(s, Parsed(payload), now, py).0;
    if e.readings != [] {
      var kept := Firsts(StoreKeys(s.store, py), e.readings, py);
      assert ReadingsOf(s'.store[|s.store|..]) == kept;
    } else {
      assert s'.store[|s.store|..] == [];
    }
  }

  /**
   * Delivering the same payload twice stores nothing the second time: every reading of the
   * second delivery is reported as a duplicate.
   */
  lemma RedeliveryIsAllDuplicates(s: ServiceState, payload: Json, now: int, later: int, py: PyText)
    ensures var s' := IngestStep(s, Parsed(payload), now, py).0;
      var (s'', r) := IngestStep(s', Parsed(payload), later, py);
      r.processedCount == 0 && s''.store == s'.store &&
      r.duplicateCount == |Extract(payload, py).readings|
  {
    IngestStoresKeys(s, payload, now, py);
    AllSeenAreDuplicates(IngestStep(s, Parsed(payload), now, py).0, payload, later, py);
  }

  /** After a payload is ingested, the store holds the key of every reading extracted from it. */
  lemma IngestStoresKeys(s: ServiceState, payload: Json, now: int, py: PyText)
    ensures Keys(Extract(payload, py).readings, py) <= StoreKeys(IngestStep(s, Parsed(payload), now, py).0.store, py)
  {
    hide IngestStep, Extract, Admit, Process, Firsts, Keys;
    var e := Extract(payload, py);
    var s' := IngestStep(s, Parsed(payload), now, py).0;
    var seen := StoreKeys(s.store, py);
    var kept := Firsts(seen, e.readings, py);
    IngestAppendsKept(s, payload, now, py);
    FirstsKeys(seen, e.readings, py);
    KeysOfConcat(ReadingsOf(s.store), kept, py);
    assert StoreKeys(s'.store, py) == seen + (Keys(e.readings, py) - seen);
  }

  /** A request stores, after what was there, exactly the readings the duplicate filter keeps. */
  lemma IngestAppendsKept(s: ServiceState, payload: Json, now: int, py: PyText)
    ensures ReadingsOf(IngestStep(s, Parsed(payload), now, py).0.store) ==
            ReadingsOf(s.store) + Firsts(StoreKeys(s.store, py), Extract(payload, py).readings, py)
  {
    hide Extract, Firsts, Window, Info, BatchTimestamp, StoreKeys, Keys, Enhance, ReadingsOf;
    var e := Extract(payload, py);
    var s' := IngestStep(s, Parsed(payload), now, py).0;
    var kept := Firsts(StoreKeys(s.store, py), e.readings, py);
    if e.readings == [] {
      assert s'.store == s.store;
      assert ReadingsOf(s.store) + [] == ReadingsOf(s.store);
    } else {
      var c := CountBatch(s.(recent := Window(s.recent, Info(payload, now, py))), e.format);
      assert c.store == s.store;
      assert s' == Admit(c, e, BatchTimestamp(payload), now, py).0;
      if kept == [] {
        assert s'.store == s.store;
        assert ReadingsOf(s.store) + [] == ReadingsOf(s.store);
      } else {
        var added := Enhance(kept, e.format, now, c.totalBatches, BatchTimestamp(payload));
        assert s'.store == s.store + added;
        assert ReadingsOf(added) == kept;
      }
    }
  }

  /** A payload whose every key is already stored stores nothing and is counted as all duplicates. */
  lemma AllSeenAreDuplicates(s: ServiceState, payload: Json, now: int, py: PyText)
    requires Keys(Extract(payload, py).readings, py) <= StoreKeys(s.store, py)
    ensures var (s', r) := IngestStep(s, Parsed(payload), now, py);
      r.processedCount == 0 && s'.store == s.store &&
      r.duplicateCount == |Extract(payload, py).readings|
  {
    FirstsOfSeen(StoreKeys(s.store, py), Extract(payload, py).readings, py);
  }

  lemma KeysOfConcat(a: seq<Reading>, b: seq<Reading>, py: PyText)
    ensures Keys(a + b, py) == Keys(a, py) + Keys(b, py)
  {
    var ab := a + b;
    forall k | k in Keys(ab, py) ensures k in Keys(a, py) + Keys(b, py) {
      var i :| 0 <= i < |ab| && k == Key(ab[i], py);
      if i < |a| {
        assert ab[i] == a[i];
      } else {
        assert ab[i] == b[i - |a|];
      }
    }
    forall k | k in Keys(a, py) + Keys(b, py) ensures k in Keys(ab, py) {
      if k in Keys(a, py) {
        var i :| 0 <= i < |a| && k == Key(a[i], py);
        assert ab[i] == a[i];
      } else {
        var i :| 0 <= i < |b| && k == Key(b[i], py);
        assert ab[i + |a|] == b[i];
      }
    }
  }

  // ---------------------------------------------------------------------------------------------
  // Health and reset

  /** A batch was stored less than five minutes before `now`. */
  predicate IsReceiving(s: ServiceState, now: int) {
    s.lastBatch.Some? && now - s.lastBatch.value < StaleAfterSeconds
  }

  /** The health decision, in order: degraded, waiting, healthy, stale. */
  function HealthStatus(s: ServiceState, now: int): (status: string)
    ensures status == "degraded" <==> s.processingErrors > DegradedAfterErrors
    ensures status == "waiting" <==> s.processingErrors <= DegradedAfterErrors && s.totalBatches == 0
    ensures status == "healthy" <==>
      s.processingErrors <= DegradedAfterErrors && s.totalBatches > 0 && IsReceiving(s, now)
    ensures status == "stale" <==>
      s.processingErrors <= DegradedAfterErrors && s.totalBatches > 0 && !IsReceiving(s, now)
  {
    if s.processingErrors > DegradedAfterErrors then "degraded"
    else if s.totalBatches == 0 then "waiting"
    else if IsReceiving(s, now) then "healthy"
    else "stale"
  }

  /** Right after new readings are stored the service reports healthy, unless it is degraded. */
  lemma HealthyAfterStoredBatch(s: ServiceState, payload: Json, now: int, py: PyText)
    requires IngestStep(s, Parsed(payload), now, py).1.processedCount > 0
    ensures var s' := IngestStep(s, Parsed(payload), now, py).0;
      HealthStatus(s', now) == (if s.processingErrors > DegradedAfterErrors then "degraded" else "healthy")
  {
    IngestAccounting(s, payload, now, py);
  }

  /** No request lowers the error counter, so only a reset ends the degraded status. */
  lemma DegradedUntilCleared(s: ServiceState, body: Body, now: int, later: int, py: PyText)
    requires HealthStatus(s, now) == "degraded"
    ensures HealthStatus(IngestStep(s, body, now, py).0, later) == "degraded"
  {
    if body.Parsed? {
      IngestAccounting(s, body.payload, now, py);
    }
  }

  /** The reset: an empty store, zero counters, no last batch and an empty window; the start time stays. */
  function Cleared(s: ServiceState): (s': ServiceState)
    ensures s' == Initial(s.startTime)
  {
    ServiceState([], 0, 0, 0, 0, 0, 0, 0, None, s.startTime, [])
  }

  /** After a reset the service is consistent and waits for data, whatever the clock says. */
  lemma ClearedIsWaiting(s: ServiceState, now: int, py: PyText)
    ensures Consistent(Cleared(s), py) && HealthStatus(Cleared(s), now) == "waiting"
    ensures Cleared(s).startTime == s.startTime
  {
  }

  /**
   * The module-level store and metadata record of the ingestion API, as one object whose
   * methods update them in place.
   */
  class IngestionService {
    const py: PyText
    var store: seq<Stored>
    var totalBatches: nat
    var simulationEngineBatches: nat
    var legacyBatches: nat
    var rawBatches: nat
    var totalReadings: nat
    var duplicateReadings: nat
    var processingErrors: nat
    var lastBatch: Option<int>
    var startTime: int
    var recent: seq<PayloadInfo>

    function Snapshot(): ServiceState
      reads this
    {
      ServiceState(store, totalBatches, simulationEngineBatches, legacyBatches, rawBatches,
                   totalReadings, duplicateReadings, processingErrors, lastBatch, startTime, recent)
    }

    predicate Valid()
      reads this
    {
      Consistent(Snapshot(), py)
    }

    constructor (py: PyText, startTime: int)
      ensures Valid() && this.py == py && Snapshot() == Initial(startTime)
    {
      this.py := py;
      store := [];
      totalBatches, simulationEngineBatches, legacyBatches, rawBatches := 0, 0, 0, 0;
      totalReadings, duplicateReadings, processingErrors := 0, 0, 0;
      lastBatch := None;
      this.startTime := startTime;
      recent := [];
    }

    /** Appends the payload's entry to the window and drops the oldest beyond five. */
    method RecordPayload(info: PayloadInfo)
      modifies this
      ensures Snapshot() == old(Snapshot()).(recent := Window(old(recent), info))
    {
      recent := recent + [info];
      if |recent| > RecentLimit {
        recent := recent[1..];
      }
    }

    /** `check_duplicates`: the key set starts as the store's keys and grows with each kept reading. */
    method CheckDuplicates(readings: seq<Reading>) returns (unique: seq<Reading>, duplicates: nat)
      ensures unique == Firsts(StoreKeys(store, py), readings, py)
      ensures |unique| + duplicates == |readings|
    {
      hide Firsts;
      var existing := set i | 0 <= i < |store| :: Key(store[i].reading, py);
      assert existing == StoreKeys(store, py) by {
        var rs := ReadingsOf(store);
        forall k | k in StoreKeys(store, py) ensures k in existing {
          var i :| 0 <= i < |rs| && k == Key(rs[i], py);
        }
      }
      unique, duplicates := [], 0;
      for i := 0 to |readings|
        invariant existing == StoreKeys(store, py) + Keys(readings[..i], py)
        invariant unique == Firsts(StoreKeys(store, py), readings[..i], py)
        invariant |unique| + duplicates == i
      {
        var key := Key(readings[i], py);
        assert readings[..i + 1] == readings[..i] + [readings[i]];
        KeysAppend(readings[..i], readings[i], py);
        FirstsNext(StoreKeys(store, py), readings, i, py);
        if key !in existing {
          unique := unique + [readings[i]];
          existing := existing + {key};
        } else {
          duplicates := duplicates + 1;
        }
      }
      assert readings[..|readings|] == readings;
    }

    /** `process_telemetry_async`: one stored entry per reading, in order, then the counters. */
    method ProcessTelemetry(readings: seq<Reading>, format: string, batchId: nat, ts: Option<Json>, now: int)
      modifies this
      ensures Snapshot() == Process(old(Snapshot()), readings, format, batchId, ts, now)
    {
      var processed := 0;
      for i := 0 to |readings|
        invariant processed == i
        invariant store == old(store) + Enhance(readings[..i], format, now, batchId, ts)
        invariant Snapshot() == old(Snapshot()).(store := store)
      {
        assert readings[..i + 1] == readings[..i] + [readings[i]];
        store := store + [Stored(readings[i], format, now, batchId, ts)];
        processed := processed + 1;
      }
      assert readings[..|readings|] == readings;
      totalReadings := totalReadings + processed;
      lastBatch := Some(now);
    }

    /** One request to `/ingest`, with its background processing run to completion. */
    method Ingest(body: Body, now: int) returns (response: Response)
      requires Valid()
      modifies this
      ensures Valid()
      ensures (Snapshot(), response) == IngestStep(old(Snapshot()), body, now, py)
    {
      IngestPreservesConsistent(Snapshot(), body, now, py);
      match body {
        case NotUtf8(reason) =>
          processingErrors := processingErrors + 1;
          response := Response(500, "error", reason, 0, 0, 1, None, None);
        case BadJson(reason) =>
          response := Response(400, "json_error", "Invalid JSON: " + reason, 0, 0, 1, None, None);
        case Parsed(payload) =>
          response := IngestPayload(payload, now);
      }
    }

    /** The `/ingest` endpoint from the decoded payload on. */
    method IngestPayload(payload: Json, now: int) returns (response: Response)
      modifies this
      ensures (Snapshot(), response) == IngestStep(old(Snapshot()), Parsed(payload), now, py)
    {
      RecordPayload(Info(payload, now, py));
      var readings, format := ExtractTelemetryReadings(payload, py);
      if readings == [] {
        return Response(200, "no_data", "No telemetry readings found in payload", 0, 0, 0, Some(format), None);
      }
      CountBatchOf(format);
      response := AdmitReadings(Extracted(readings, format), BatchTimestamp(payload), now);
    }

    /** The part of the endpoint after the batch is counted. */
    method AdmitReadings(e: Extracted, ts: Option<Json>, now: int) returns (response: Response)
      modifies this
      ensures (Snapshot(), response) == Admit(old(Snapshot()), e, ts, now, py)
    {
      var unique, duplicates := CheckDuplicates(e.readings);
      duplicateReadings := duplicateReadings + duplicates;
      if unique == [] {
        return Response(200, "success", "All readings were duplicates", 0, duplicates, 0, Some(e.format), None);
      }
      ProcessTelemetry(unique, e.format, totalBatches, ts, now);
      response := Response(200, "success", "", |unique|, duplicates, 0, Some(e.format), ts);
    }

    /** Counts one batch under its format. */
    method CountBatchOf(format: string)
      modifies this
      ensures Snapshot() == CountBatch(old(Snapshot()), format)
    {
      totalBatches := totalBatches + 1;
      if format == "simulation_engine" {
        simulationEngineBatches := simulationEngineBatches + 1;
      } else if format == "legacy" {
        legacyBatches := legacyBatches + 1;
      } else {
        rawBatches := rawBatches + 1;
      }
    }

    /** The health endpoint's status at clock reading `now`. */
    function Health(now: int): (status: string)
      reads this
      ensures status == HealthStatus(Snapshot(), now)
    {
      if processingErrors > DegradedAfterErrors then "degraded"
      else if totalBatches == 0 then "waiting"
      else if lastBatch.Some? && now - lastBatch.value < StaleAfterSeconds then "healthy"
      else "stale"
    }

    /** The clear endpoint: reports how many readings it removed and resets everything but the start time. */
    method Clear() returns (removed: nat)
      modifies this
      ensures removed == |old(store)|
      ensures Valid() && Snapshot() == Cleared(old(Snapshot()))
    {
      removed := |store|;
      store := [];
      totalBatches, simulationEngineBatches, legacyBatches, rawBatches := 0, 0, 0, 0;
      totalReadings, duplicateReadings, processingErrors := 0, 0, 0;
      lastBatch := None;
      recent := [];
    }
  }
}

/**
 * What travels from the simulator to the API: the SimulationEngine payload the stream handler
 * posts for a batch (data_generator/core/stream_handler.py) and what the ingestion service
 * makes of it. Timestamps are rendered by a `stamp` function from simulated seconds to the
 * ISO-8601 text; the rendering itself is not modelled.
 */
module Wire {
  import opened Wrappers
  import opened Models
  import Arith
  import Ingestion
  import FleetIds

  import Engine

  /** `asdict(reading)` as JSON. */
  function ReadingJson(r: TelemetryReading, stamp: int -> string): Ingestion.Json {
    Ingestion.JObj(map[
      "vehicle_id" := Ingestion.JStr(r.vehicleId),
      "timestamp" := Ingestion.JStr(stamp(r.timestamp)),
      "latitude" := Ingestion.JNum(r.latitude),
      "longitude" := Ingestion.JNum(r.longitude),
      "speed_kph" := Ingestion.JNum(r.speedKph),
      "fuel_percentage" := Ingestion.JNum(r.fuelPercentage)])
  }

  /** The body of the POST for a non-empty batch: send time, batch size and the readings in order. */
  function BatchPayload(batch: seq<TelemetryReading>, sentAt: string, stamp: int -> string): Ingestion.Json {
    Ingestion.JObj(map[
      "timestamp" := Ingestion.JStr(sentAt),
      "batch_size" := Ingestion.JInt(|batch|),
      "telemetry_data" := Ingestion.JArr(seq(|batch|, i requires 0 <= i < |batch| => ReadingJson(batch[i], stamp)))])
  }

  /** The reading the API keeps for a simulator reading. */
  function Received(r: TelemetryReading, stamp: int -> string): Ingestion.Reading {
    Ingestion.Reading(Ingestion.JStr(r.vehicleId), Ingestion.JStr(stamp(r.timestamp)),
                      r.latitude, r.longitude, r.speedKph, r.fuelPercentage)
  }

  function ReceivedAll(batch: seq<TelemetryReading>, stamp: int -> string): (rs: seq<Ingestion.Reading>)
    ensures |rs| == |batch| && forall i :: 0 <= i < |batch| ==> rs[i] == Received(batch[i], stamp)
  {
    seq(|batch|, i requires 0 <= i < |batch| => Received(batch[i], stamp))
  }

  /**
   * The API reads a posted batch as the SimulationEngine format and recovers every reading of
   * it, in order, with the same vehicle, time, position, speed and fuel level.
   */
  lemma BatchExtractedAsSent(batch: seq<TelemetryReading>, sentAt: string, stamp: int -> string, py: Ingestion.PyText)
    ensures Ingestion.Extract(BatchPayload(batch, sentAt, stamp), py) ==
            Ingestion.Extracted(ReceivedAll(batch, stamp), "simulation_engine")
  {
    var items := seq(|batch|, i requires 0 <= i < |batch| => ReadingJson(batch[i], stamp));
    forall i | 0 <= i < |items|
      ensures Ingestion.Normalize(items[i], py) == Some(Received(batch[i], stamp))
    {
      var m := items[i].fields;
      assert Ingestion.Field(m, "latitude", Ingestion.JNum(0.0)) == Ingestion.JNum(batch[i].latitude);
      assert Ingestion.Field(m, "longitude", Ingestion.JNum(0.0)) == Ingestion.JNum(batch[i].longitude);
      assert Ingestion.Field(m, "speed_kph", Ingestion.JNum(0.0)) == Ingestion.JNum(batch[i].speedKph);
      assert Ingestion.Field(m, "fuel_percentage", Ingestion.JNum(0.0)) == Ingestion.JNum(batch[i].fuelPercentage);
    }
    var normalized := seq(|items|, i requires 0 <= i < |items| => Ingestion.Normalize(items[i], py).value);
    assert normalized == ReceivedAll(batch, stamp);
    assert Ingestion.NormalizeAll(items, py) == Some(normalized);
  }

  /**
   * When timestamps carry no underscore, the duplicate key of a simulator reading names its
   * vehicle and its time unambiguously.
   */
  lemma KeyNamesVehicleAndTime(a: TelemetryReading, b: TelemetryReading, stamp: int -> string, py: Ingestion.PyText)
    requires Ingestion.PyTextValid(py)
    requires '_' !in stamp(a.timestamp) && '_' !in stamp(b.timestamp)
    requires Ingestion.Key(Received(a, stamp), py) == Ingestion.Key(Received(b, stamp), py)
    ensures a.vehicleId == b.vehicleId && stamp(a.timestamp) == stamp(b.timestamp)
  {
    assert py.render(Ingestion.JStr(a.vehicleId)) == a.vehicleId;
    assert py.render(Ingestion.JStr(b.vehicleId)) == b.vehicleId;
    assert py.render(Ingestion.JStr(stamp(a.timestamp))) == stamp(a.timestamp);
    assert py.render(Ingestion.JStr(stamp(b.timestamp))) == stamp(b.timestamp);
    FleetIds.SplitAtLast('_', a.vehicleId, stamp(a.timestamp), b.vehicleId, stamp(b.timestamp));
  }

  /** Reading k of a run's log is determined by its vehicle and its time. */
  lemma LogPositionsDiffer(log: seq<TelemetryReading>, ids: seq<string>, step: int, k1: int, k2: int)
    requires Engine.ReadingLog(log, ids, step) && step > 0
    requires forall i, j :: 0 <= i < j < |ids| ==> ids[i] != ids[j]
    requires 0 <= k1 < k2 < |log|
    ensures log[k1].vehicleId != log[k2].vehicleId || log[k1].timestamp != log[k2].timestamp
  {
    var n := |ids|;
    if k1 % n != k2 % n {
      if k1 % n < k2 % n {
        assert ids[k1 % n] != ids[k2 % n];
      } else {
        assert ids[k2 % n] != ids[k1 % n];
      }
    } else {
      assert k1 == (k1 / n) * n + k1 % n && k2 == (k2 / n) * n + k2 % n;
      assert k1 / n != k2 / n;
      if k1 / n < k2 / n {
        Arith.MulMono(k2 / n, k1 / n + 1, step);
        assert (k1 / n + 1) * step == (k1 / n) * step + step;
      } else {
        Arith.MulMono(k1 / n, k2 / n + 1, step);
        assert (k2 / n + 1) * step == (k2 / n) * step + step;
      }
    }
  }

  /**
   * Within one run no two readings share a duplicate key, provided the fleet's ids are distinct,
   * the step is positive and the timestamp rendering is injective and free of underscores. The
   * first delivery of a run's readings to a store that holds none of their keys therefore keeps
   * every one of them.
   */
  lemma RunLogNeverDuplicates(log: seq<TelemetryReading>, ids: seq<string>, step: int,
                              stamp: int -> string, py: Ingestion.PyText, seen: set<string>)
    requires Engine.ReadingLog(log, ids, step) && step > 0
    requires forall i, j :: 0 <= i < j < |ids| ==> ids[i] != ids[j]
    requires forall t1, t2 :: stamp(t1) == stamp(t2) ==> t1 == t2
    requires forall t :: '_' !in stamp(t)
    requires Ingestion.PyTextValid(py)
    requires Ingestion.Keys(ReceivedAll(log, stamp), py) !! seen
    ensures Ingestion.DistinctKeys(ReceivedAll(log, stamp), py)
    ensures Ingestion.Firsts(seen, ReceivedAll(log, stamp), py) == ReceivedAll(log, stamp)
  {
    var rs := ReceivedAll(log, stamp);
    forall k1, k2 | 0 <= k1 < k2 < |rs| ensures Ingestion.Key(rs[k1], py) != Ingestion.Key(rs[k2], py) {
      LogPositionsDiffer(log, ids, step, k1, k2);
      if Ingestion.Key(rs[k1], py) == Ingestion.Key(rs[k2], py) {
        KeyNamesVehicleAndTime(log[k1], log[k2], stamp, py);
      }
    }
    Ingestion.FirstsOfFresh(seen, rs, py);
  }

  /** The vehicles the engine creates for a fleet of n carry n distinct ids. */
  lemma FleetIdsDistinct(profiles: seq<(string, BehavioralProfile)>, n: nat)
    requires |profiles| > 0
    ensures var ids := seq(n, i requires 0 <= i < n => Engine.MemberConfig(profiles, i).vehicleId);
      forall i, j :: 0 <= i < j < n ==> ids[i] != ids[j]
  {
    var ids := seq(n, i requires 0 <= i < n => Engine.MemberConfig(profiles, i).vehicleId);
    forall i, j | 0 <= i < j < n ensures ids[i] != ids[j] {
      FleetIds.VehicleIdsDistinct(profiles[i % |profiles|].0, i, profiles[j % |profiles|].0, j);
    }
  }
}

/**
 * The fleet orchestrator of data_generator/core/simulation_engine.py: fleet creation, the
 * life cycle of parked vehicles (refuel trips before random work), the tick loop that logs
 * readings and streams them in batches to a sink, and the fleet status summary.
 */
module Engine {
  import opened Wrappers
  import opened Models
  import opened Randomness
  import opened Grid
  import opened Vehicle
  import opened FleetIds
  import Arith

  /** Number of routes a random-trip assignment tries before giving up. */
  const RandomTripAttempts: nat := 20
  /** Share of the fuel range a random trip may use. */
  const FuelBuffer: real := 0.9
  const MaxMinTripNodes: int := 5

  /**
   * The HTTP telemetry endpoint, seen from the simulator: a health probe, a batch post whose
   * k-th real post is accepted iff `verdict(k)`, and anomaly posts. Accepted batches and
   * streamed anomalies are recorded in order.
   */
  class StreamSink {
    const healthy: bool
    const verdict: nat -> bool
    var posts: nat
    var accepted: seq<seq<TelemetryReading>>
    var streamed: seq<AnomalyEvent>

    constructor (healthy: bool, verdict: nat -> bool)
      ensures this.healthy == healthy && this.verdict == verdict
      ensures posts == 0 && accepted == [] && streamed == []
    {
      this.healthy := healthy;
      this.verdict := verdict;
      posts := 0;
      accepted := [];
      streamed := [];
    }

    method TestConnection() returns (ok: bool)
      ensures ok == healthy
    {
      ok := healthy;
    }

    /** An empty batch succeeds without a post; otherwise the post's verdict decides. */
    method SendBatch(batch: seq<TelemetryReading>) returns (success: bool)
      modifies this
      ensures batch == [] ==> success && posts == old(posts) && accepted == old(accepted)
      ensures batch != [] ==>
        success == verdict(old(posts)) && posts == old(posts) + 1 &&
        accepted == old(accepted) + (if success then [batch] else [])
      ensures streamed == old(streamed)
    {
      if batch == [] {
        return true;
      }
      success := verdict(posts);
      posts := posts + 1;
      if success {
        accepted := accepted + [batch];
      }
    }

    method SendAnomaly(event: AnomalyEvent)
      modifies this
      ensures streamed == old(streamed) + [event]
      ensures posts == old(posts) && accepted == old(accepted)
    {
      streamed := streamed + [event];
    }
  }

  /** All readings of a sequence of batches, in order. */
  function Flatten(batches: seq<seq<TelemetryReading>>): seq<TelemetryReading> {
    if batches == [] then [] else Flatten(batches[..|batches| - 1]) + batches[|batches| - 1]
  }

  lemma FlattenAppend(batches: seq<seq<TelemetryReading>>, b: seq<TelemetryReading>)
    ensures Flatten(batches + [b]) == Flatten(batches) + b
  {
    assert (batches + [b])[..|batches|] == batches;
  }

  /** The maximum distance a random trip may cover: 90 % of what the fuel left allows. */
  function FuelRange(fuel: real, mileage: real): real {
    fuel * mileage * FuelBuffer
  }

  /** `min(5, int(range * 0.1))`: the minimum route length asked of the grid, in nodes. */
  function MinTripNodes(range: real): (m: int)
    requires range >= 0.0
    ensures 0 <= m <= MaxMinTripNodes && m as real <= range * 0.1
  {
    var tenth := (range * 0.1).Floor;
    if MaxMinTripNodes <= tenth then MaxMinTripNodes else tenth
  }

  /** A route accepted within the fuel range burns at most 90 % of the fuel on board. */
  lemma TripWithinFuel(fuel: real, mileage: real, km: real)
    requires mileage > 0.0 && km <= FuelRange(fuel, mileage)
    ensures km / mileage <= FuelBuffer * fuel
  {
    var q := km / mileage;
    assert q * mileage == km;
    if q > FuelBuffer * fuel {
      assert (q - FuelBuffer * fuel) * mileage > 0.0;
    }
  }

  /** Where a refuel trip starts: the end of the current route, or a random grid node. */
  function RefuelStart(w: GridWorld, route: seq<Models.Node>, pick: nat): Models.Node
    requires WorldValid(w)
  {
    if route != [] then route[|route| - 1]
    else
      var nodes := GridNodes(w);
      assert |nodes| > 0 by { Arith.MulMono(w.width, 1, w.height); }
      nodes[pick % |nodes|]
  }

  /** `_assign_refueling_trip`'s route: the nearest-station route when it has an edge. */
  function RefuelTrip(w: GridWorld, route: seq<Models.Node>, pick: nat): Option<seq<Models.Node>>
    requires WorldValid(w)
  {
    var found := FindNearestRefuelingStation(w, RefuelStart(w, route, pick));
    if found.Ok? && |found.value.1| >= 2 then Some(found.value.1) else None
  }

  /** The state a trip assignment at the default speed leaves behind. */
  function Driven(s: LiveState, route: seq<Models.Node>): LiveState {
    s.(state := Driving, speed := DefaultSpeedKph, timer := 0, route := route, edge := 0, progress := 0.0)
  }

  /**
   * A refuel trip, when one is assigned, runs on a shortest path from the start to the
   * nearest station; none is assigned exactly when there is no station, the start is off the
   * grid, or the start already is a station.
   */
  lemma RefuelTripGoesToNearestStation(w: GridWorld, route: seq<Models.Node>, pick: nat)
    requires WorldValid(w)
    ensures var start := RefuelStart(w, route, pick);
      RefuelTrip(w, route, pick).None? <==>
        w.stations == [] || !InGrid(w, start) || start in w.stations
    ensures var start := RefuelStart(w, route, pick);
      var trip := RefuelTrip(w, route, pick);
      trip.Some? ==>
        var r := trip.value;
        |r| >= 2 && r[|r| - 1] in w.stations && IsShortestPath(w, r, start, r[|r| - 1]) &&
        forall st :: st in w.stations ==> Distance(start, r[|r| - 1]) <= Distance(start, st)
  {
    var start := RefuelStart(w, route, pick);
    if w.stations != [] && InGrid(w, start) {
      if start in w.stations {
        StationStartGivesSingleNodeRoute(w, start);
      } else {
        var found := FindNearestRefuelingStation(w, start);
        assert found.value.0 != start;
        assert Distance(start, found.value.0) != 0;
      }
    }
  }

  /**
   * A vehicle parked at a station's node asks for a refuel trip and gets none: the station
   * route has a single node, and since `refuel` is never called, the vehicle stays as it is.
   */
  lemma StrandedAtStation(w: GridWorld, route: seq<Models.Node>, pick: nat)
    requires WorldValid(w) && route != [] && route[|route| - 1] in w.stations
    ensures RefuelTrip(w, route, pick) == None
  {
    RefuelTripGoesToNearestStation(w, route, pick);
  }

  /** What an accepted random trip looks like: a shortest path of the wanted length in range. */
  predicate RandomTripAssigned(w: GridWorld, mileage: real, before: LiveState, after: LiveState) {
    var r := after.route;
    var range := FuelRange(before.fuel, mileage);
    |r| >= 2 && after == Driven(before, r) &&
    r[0] != r[|r| - 1] && IsShortestPath(w, r, r[0], r[|r| - 1]) &&
    (|r| - 1) as real <= range &&
    (range >= 0.0 ==> |r| >= MinTripNodes(range))
  }

  /** A random-trip search's result and the index of the next unused draw. */
  datatype TripSearch = TripSearch(route: Option<seq<Models.Node>>, next: nat)

  /** The shape every route a route search finds has. */
  predicate TripShape(w: GridWorld, minDistance: int, route: seq<Models.Node>) {
    |route| >= 2 && |route| >= minDistance &&
    route[0] != route[|route| - 1] && IsShortestPath(w, route, route[0], route[|route| - 1])
  }

  /** Whether a route search's outcome is a route within `range` km. */
  predicate Fits(found: RouteOutcome, range: real) {
    found.Found? && (|found.route| - 1) as real <= range
  }

  /** The draw at which attempt t starts, given the searches before it and the first draw `at`. */
  function AttemptStart(searches: seq<(RouteOutcome, nat)>, at: nat, t: nat): nat
    requires t <= |searches|
  {
    if t == 0 then at else searches[t - 1].1
  }

  /**
   * The first n route searches of `_assign_random_trip`, as if none of them fitted: each one
   * starts at the draw where the one before it stopped.
   */
  function TripSearches(w: GridWorld, minDistance: int, oracle: nat -> nat, at: nat, n: nat): (r: seq<(RouteOutcome, nat)>)
    requires WorldValid(w)
    ensures |r| == n && forall t :: 0 <= t < n ==> at <= r[t].1
  {
    if n == 0 then []
    else
      var prev := TripSearches(w, minDistance, oracle, at, n - 1);
      prev + [RouteSearch(w, minDistance, oracle, AttemptStart(prev, at, n - 1))]
  }

  /** Attempt n is the route search that starts where the first n - 1 attempts stopped. */
  lemma TripSearchesNext(w: GridWorld, minDistance: int, oracle: nat -> nat, at: nat, n: nat)
    requires WorldValid(w) && n > 0
    ensures var prev := TripSearches(w, minDistance, oracle, at, n - 1);
      TripSearches(w, minDistance, oracle, at, n) ==
        prev + [RouteSearch(w, minDistance, oracle, AttemptStart(prev, at, n - 1))]
  {
  }

  /** Attempt t is a whole route search starting where attempt t - 1 stopped. */
  lemma {:induction false} TripSearchesAt(w: GridWorld, minDistance: int, oracle: nat -> nat, at: nat, n: nat, t: nat)
    requires WorldValid(w) && t < n
    ensures var searches := TripSearches(w, minDistance, oracle, at, n);
      var start := AttemptStart(searches, at, t);
      searches[t].0 == RouteSearch(w, minDistance, oracle, start).0 &&
      searches[t].1 == RouteSearch(w, minDistance, oracle, start).1
  {
    hide TripSearches, RouteSearch;
    var searches := TripSearches(w, minDistance, oracle, at, n);
    var prev := TripSearches(w, minDistance, oracle, at, n - 1);
    TripSearchesNext(w, minDistance, oracle, at, n);
    assert AttemptStart(searches, at, t) == AttemptStart(prev, at, t) by {
      if t > 0 {
        assert searches[t - 1] == prev[t - 1];
      }
    }
    if t < n - 1 {
      TripSearchesAt(w, minDistance, oracle, at, n - 1, t);
      assert searches[t] == prev[t];
    }
  }

  /** Every route the searches find has the shape a route search guarantees. */
  lemma TripSearchesShape(w: GridWorld, minDistance: int, oracle: nat -> nat, at: nat, n: nat, t: nat)
    requires WorldValid(w) && t < n
    ensures var found := TripSearches(w, minDistance, oracle, at, n)[t].0;
      found.Found? ==> TripShape(w, minDistance, found.route)
  {
    var searches := TripSearches(w, minDistance, oracle, at, n);
    TripSearchesAt(w, minDistance, oracle, at, n, t);
    RouteSearchRouteShape(w, minDistance, oracle, AttemptStart(searches, at, t));
  }

  /**
   * The trip search from attempt t on, `next` being the first unused draw: the first search
   * whose route fits the range wins, with the draws it used.
   */
  function FirstFit(searches: seq<(RouteOutcome, nat)>, range: real, t: nat, next: nat): (r: TripSearch)
    requires t <= |searches|
    ensures r.route.Some? ==> exists i :: t <= i < |searches| && Fits(searches[i].0, range) && r.route.value == searches[i].0.route
    decreases |searches| - t
  {
    if t == |searches| then TripSearch(None, next)
    else if Fits(searches[t].0, range) then TripSearch(Some(searches[t].0.route), searches[t].1)
    else FirstFit(searches, range, t + 1, searches[t].1)
  }

  /** From attempt t on, the search assigns nothing exactly when no remaining search fits. */
  lemma {:induction false} FirstFitNone(searches: seq<(RouteOutcome, nat)>, range: real, t: nat, next: nat)
    requires t <= |searches|
    ensures FirstFit(searches, range, t, next).route.None? <==>
            forall i :: t <= i < |searches| ==> !Fits(searches[i].0, range)
    decreases |searches| - t
  {
    if t < |searches| {
      FirstFitNone(searches, range, t + 1, searches[t].1);
    }
  }

  /** From attempt t on, the search takes the first search i that fits, with the draws it used. */
  lemma {:induction false} FirstFitTakesFirst(searches: seq<(RouteOutcome, nat)>, range: real, t: nat, next: nat, i: nat)
    requires t <= i < |searches| && Fits(searches[i].0, range)
    requires forall j :: t <= j < i ==> !Fits(searches[j].0, range)
    ensures FirstFit(searches, range, t, next).route == Some(searches[i].0.route)
    ensures FirstFit(searches, range, t, next).next == searches[i].1
    decreases i - t
  {
    if t < i {
      FirstFitTakesFirst(searches, range, t + 1, searches[t].1, i);
    }
  }

  /** The search never ends before a draw every search ends at or after. */
  lemma {:induction false} FirstFitNextAtLeast(searches: seq<(RouteOutcome, nat)>, range: real, t: nat, next: nat, lo: nat)
    requires t <= |searches| && lo <= next
    requires forall i :: t <= i < |searches| ==> lo <= searches[i].1
    ensures lo <= FirstFit(searches, range, t, next).next
    decreases |searches| - t
  {
    if t < |searches| {
      FirstFitNextAtLeast(searches, range, t + 1, searches[t].1, lo);
    }
  }

  /** A search in which nothing fits stops at the draw after the last attempt's. */
  lemma {:induction false} FirstFitNoneNext(searches: seq<(RouteOutcome, nat)>, range: real, t: nat, next: nat)
    requires t < |searches|
    requires forall i :: t <= i < |searches| ==> !Fits(searches[i].0, range)
    ensures FirstFit(searches, range, t, next).next == searches[|searches| - 1].1
    decreases |searches| - t
  {
    if t < |searches| - 1 {
      FirstFitNoneNext(searches, range, t + 1, searches[t].1);
    }
  }

  /** The range a random trip may use and the fewest nodes it must have. */
  function TripRange(c: Config, s: LiveState): (range: real)
    requires ConfigValid(c) && LiveValid(c, s)
    ensures range >= 0.0
  {
    Arith.MulMonoReal(0.0, s.fuel, c.mileage);
    FuelRange(s.fuel, c.mileage)
  }

  /** The twenty route searches of a random-trip assignment for a vehicle in state s. */
  function RandomTripSearches(w: GridWorld, c: Config, s: LiveState, oracle: nat -> nat, at: nat): (r: seq<(RouteOutcome, nat)>)
    requires WorldValid(w) && ConfigValid(c) && LiveValid(c, s)
    ensures |r| == RandomTripAttempts
  {
    TripSearches(w, MinTripNodes(TripRange(c, s)), oracle, at, RandomTripAttempts)
  }

  /** `_assign_random_trip` for a vehicle: the range is 90 % of what its fuel allows. */
  function RandomTrip(w: GridWorld, c: Config, s: LiveState, oracle: nat -> nat, at: nat): (r: TripSearch)
    requires WorldValid(w) && ConfigValid(c) && LiveValid(c, s)
    ensures r.route.Some? ==> RandomTripAssigned(w, c.mileage, s, Driven(s, r.route.value))
    ensures at <= r.next
  {
    FoundTripShape(w, c, s, oracle, at);
    FirstFitNextAtLeast(RandomTripSearches(w, c, s, oracle, at), TripRange(c, s), 0, at, at);
    FirstFit(RandomTripSearches(w, c, s, oracle, at), TripRange(c, s), 0, at)
  }

  lemma FoundTripShape(w: GridWorld, c: Config, s: LiveState, oracle: nat -> nat, at: nat)
    requires WorldValid(w) && ConfigValid(c) && LiveValid(c, s)
    ensures var r := FirstFit(RandomTripSearches(w, c, s, oracle, at), TripRange(c, s), 0, at);
      r.route.Some? ==> RandomTripAssigned(w, c.mileage, s, Driven(s, r.route.value))
  {
    hide TripSearches, RouteSearch, RandomTrip, Lifecycle, Step, RefuelTrip;
    var searches := RandomTripSearches(w, c, s, oracle, at);
    var r := FirstFit(searches, TripRange(c, s), 0, at);
    if r.route.Some? {
      var i :| 0 <= i < |searches| && Fits(searches[i].0, TripRange(c, s)) && r.route.value == searches[i].0.route;
      TripSearchesShape(w, MinTripNodes(TripRange(c, s)), oracle, at, RandomTripAttempts, i);
    }
  }

  /**
   * The twenty attempts assign nothing exactly when no attempt's route search finds a route
   * within range; the draws then run to the end of the last search.
   */
  lemma RandomTripNone(w: GridWorld, c: Config, s: LiveState, oracle: nat -> nat, at: nat)
    requires WorldValid(w) && ConfigValid(c) && LiveValid(c, s)
    ensures var searches := RandomTripSearches(w, c, s, oracle, at);
      RandomTrip(w, c, s, oracle, at).route.None? <==>
      forall t :: 0 <= t < RandomTripAttempts ==> !Fits(searches[t].0, TripRange(c, s))
    ensures var searches := RandomTripSearches(w, c, s, oracle, at);
      RandomTrip(w, c, s, oracle, at).route.None? ==>
      RandomTrip(w, c, s, oracle, at).next == searches[RandomTripAttempts - 1].1
  {
    var searches := RandomTripSearches(w, c, s, oracle, at);
    FirstFitNone(searches, TripRange(c, s), 0, at);
    if RandomTrip(w, c, s, oracle, at).route.None? {
      FirstFitNoneNext(searches, TripRange(c, s), 0, at);
    }
  }

  /** Otherwise the first attempt whose route fits is assigned, with the draws up to its own. */
  lemma RandomTripFirstFit(w: GridWorld, c: Config, s: LiveState, oracle: nat -> nat, at: nat, t: nat)
    requires WorldValid(w) && ConfigValid(c) && LiveValid(c, s) && t < RandomTripAttempts
    requires Fits(RandomTripSearches(w, c, s, oracle, at)[t].0, TripRange(c, s))
    requires forall u :: 0 <= u < t ==> !Fits(RandomTripSearches(w, c, s, oracle, at)[u].0, TripRange(c, s))
    ensures RandomTrip(w, c, s, oracle, at).route == Some(RandomTripSearches(w, c, s, oracle, at)[t].0.route)
    ensures RandomTrip(w, c, s, oracle, at).next == RandomTripSearches(w, c, s, oracle, at)[t].1
  {
    FirstFitTakesFirst(RandomTripSearches(w, c, s, oracle, at), TripRange(c, s), 0, at, t);
  }

  /**
   * On the 10 x 10 grid, a full 500 l tank at 4 km/l gives an 1800 km range and a minimum of
   * five nodes; under the model's pool sample, draws 0 and 0 then yield the corner-to-corner
   * route on the first attempt.
   */
  lemma FullTankCornerTrip(oracle: nat -> nat, at: nat)
    requires oracle(at) == 0 && oracle(at + 1) == 0
    ensures var c := Config("V", DefaultProfile, DefaultTankLiters, DefaultMileageKmpl, DefaultRefuelThresholdPct);
      var r := RandomTrip(GridWorld(10, 10, []), c, NewVehicle, oracle, at);
      r.route.Some? && |r.route.value| == 19 && r.route.value[0] == Models.Node(0, 0) &&
      r.route.value[18] == Models.Node(9, 9) && r.next == at + 2
  {
    var w := GridWorld(10, 10, []);
    var c := Config("V", DefaultProfile, DefaultTankLiters, DefaultMileageKmpl, DefaultRefuelThresholdPct);
    assert TripRange(c, NewVehicle) == 1800.0;
    assert MinTripNodes(1800.0) == 5;
    var searches := RandomTripSearches(w, c, NewVehicle, oracle, at);
    TripSearchesAt(w, 5, oracle, at, RandomTripAttempts, 0);
    CornerToCornerRoute(oracle, at);
    assert searches[0].0 == RouteSearch(w, 5, oracle, at).0;
    assert Fits(searches[0].0, 1800.0);
    RandomTripFirstFit(w, c, NewVehicle, oracle, at, 0);
  }

  /** A life-cycle step's new state and the index of the next unused draw. */
  datatype LifeStep = LifeStep(live: LiveState, next: nat)

  /**
   * `_manage_vehicle_lifecycle`: a vehicle that is not parked is left alone; a parked one low
   * on fuel gets a refuel-trip attempt (one draw when it has no route), any other a random trip.
   */
  function Lifecycle(w: GridWorld, c: Config, s: LiveState, oracle: nat -> nat, at: nat): (r: LifeStep)
    requires WorldValid(w) && ConfigValid(c) && LiveValid(c, s)
    ensures LiveValid(c, r.live) && at <= r.next
  {
    if s.state != Parked then LifeStep(s, at)
    else if LowFuel(c, s) then
      var trip := RefuelTrip(w, s.route, oracle(at));
      RefuelTripGoesToNearestStation(w, s.route, oracle(at));
      LifeStep(if trip.Some? then Driven(s, trip.value) else s, at + (if s.route == [] then 1 else 0))
    else
      var trip := RandomTrip(w, c, s, oracle, at);
      LifeStep(if trip.route.Some? then Driven(s, trip.route.value) else s, trip.next)
  }

  /**
   * What the life cycle does: nothing to a vehicle on the move; for a parked vehicle low on
   * fuel, a trip on a shortest path to the nearest station or nothing; for any other parked
   * vehicle, a random trip within its fuel range or nothing.
   */
  lemma LifecycleOutcome(w: GridWorld, c: Config, s: LiveState, oracle: nat -> nat, at: nat)
    requires WorldValid(w) && ConfigValid(c) && LiveValid(c, s)
    ensures var r := Lifecycle(w, c, s, oracle, at);
      s.state != Parked ==> r.live == s && r.next == at
    ensures var r := Lifecycle(w, c, s, oracle, at);
      s.state == Parked && LowFuel(c, s) ==>
        var start := RefuelStart(w, s.route, oracle(at));
        (r.live == s || (r.live == Driven(s, r.live.route) && |r.live.route| >= 2 &&
                         r.live.route[0] == start && r.live.route[|r.live.route| - 1] in w.stations &&
                         IsShortestPath(w, r.live.route, start, r.live.route[|r.live.route| - 1]) &&
                         forall st :: st in w.stations ==> Distance(start, r.live.route[|r.live.route| - 1]) <= Distance(start, st)))
    ensures var r := Lifecycle(w, c, s, oracle, at);
      s.state == Parked && !LowFuel(c, s) ==>
        r.live == s || RandomTripAssigned(w, c.mileage, s, r.live)
  {
    hide RandomTrip, FirstFit, TripSearches, RouteSearch, RefuelTrip;
    if s.state == Parked && LowFuel(c, s) {
      RefuelTripGoesToNearestStation(w, s.route, oracle(at));
    }
  }

  /** One vehicle's turn in a tick round: its turn's state, reading, event and next draw. */
  datatype TurnResult = TurnResult(live: LiveState, reading: TelemetryReading, anomaly: Option<AnomalyEvent>, next: nat)

  /** The event of a turn as a list of zero or one entries. */
  function Events(a: Option<AnomalyEvent>): seq<AnomalyEvent> {
    if a.Some? then [a.value] else []
  }

  /** A vehicle's turn: the life cycle, then the tick at time ts with the draws that follow. */
  function Turn(w: GridWorld, c: Config, s: LiveState, ts: int, dt: int, oracle: nat -> nat, at: nat): (t: TurnResult)
    requires WorldValid(w) && ConfigValid(c) && LiveValid(c, s) && dt > 0
    ensures LiveValid(c, t.live) && at <= t.next
    ensures t.reading.vehicleId == c.vehicleId && t.reading.timestamp == ts &&
            t.reading.speedKph >= 0.0 && 0.0 <= t.reading.fuelPercentage <= 100.0
    ensures t.anomaly.Some? ==> t.anomaly.value.eventType == FuelTheft && t.anomaly.value.vehicleId == c.vehicleId &&
                                t.anomaly.value.timestamp == ts
  {
    var life := Lifecycle(w, c, s, oracle, at);
    var d := DrawsOf(oracle, life.next);
    var step := Step(c, life.live, ts, dt, d);
    StepPreservesValid(c, life.live, ts, dt, d);
    ReadingInRange(c, life.live, ts, dt, d);
    StepAnomalyIsTheft(c, life.live, ts, dt, d);
    TurnResult(step.live, step.reading, step.anomaly, life.next + step.draws)
  }

  /** Configurations and states of a fleet, pairwise, each state valid for its configuration. */
  predicate FleetValid(cfgs: seq<Config>, states: seq<LiveState>) {
    |cfgs| == |states| &&
    forall i :: 0 <= i < |states| ==> ConfigValid(cfgs[i]) && LiveValid(cfgs[i], states[i])
  }

  /** The vehicle ids of a list of configurations, in order. */
  function CfgIds(cfgs: seq<Config>): (ids: seq<string>)
    ensures |ids| == |cfgs| && forall i :: 0 <= i < |cfgs| ==> ids[i] == cfgs[i].vehicleId
  {
    seq(|cfgs|, i requires 0 <= i < |cfgs| => cfgs[i].vehicleId)
  }

  /** The fleet after some turns: states, readings and events so far, and the next draw. */
  datatype Progress = Progress(states: seq<LiveState>, readings: seq<TelemetryReading>,
                               anomalies: seq<AnomalyEvent>, next: nat)

  /** Readings of one round at time ts: entry k is vehicle k's, in range. */
  predicate RoundReadings(readings: seq<TelemetryReading>, cfgs: seq<Config>, ts: int) {
    |readings| <= |cfgs| &&
    forall k :: 0 <= k < |readings| ==>
      readings[k].vehicleId == cfgs[k].vehicleId && readings[k].timestamp == ts &&
      readings[k].speedKph >= 0.0 && 0.0 <= readings[k].fuelPercentage <= 100.0
  }

  /**
   * The first n turns of a tick round at time ts, in fleet order; the later vehicles are
   * untouched, every state stays valid, and reading k is vehicle k's.
   */
  function RoundUpTo(w: GridWorld, cfgs: seq<Config>, states: seq<LiveState>, ts: int, dt: int,
                     oracle: nat -> nat, at: nat, n: nat): (r: Progress)
    requires WorldValid(w) && FleetValid(cfgs, states) && dt > 0 && n <= |states|
    ensures FleetValid(cfgs, r.states) && |r.readings| == n
    decreases n
  {
    hide Turn, Lifecycle, Step, RandomTrip, RefuelTrip;
    if n == 0 then Progress(states, [], [], at)
    else
      var prev := RoundUpTo(w, cfgs, states, ts, dt, oracle, at, n - 1);
      var t := Turn(w, cfgs[n - 1], prev.states[n - 1], ts, dt, oracle, prev.next);
      Progress(prev.states[n - 1 := t.live], prev.readings + [t.reading], prev.anomalies + Events(t.anomaly), t.next)
  }

  /** Before the first turn nothing has happened. */
  lemma RoundUpToNone(w: GridWorld, cfgs: seq<Config>, states: seq<LiveState>, ts: int, dt: int,
                      oracle: nat -> nat, at: nat)
    requires WorldValid(w) && FleetValid(cfgs, states) && dt > 0
    ensures var r := RoundUpTo(w, cfgs, states, ts, dt, oracle, at, 0);
      r.states == states && r.readings == [] && r.anomalies == [] && r.next == at
  {
  }

  /** Turn n + 1 of a round is vehicle n's turn from where the first n turns left off. */
  lemma RoundUpToNext(w: GridWorld, cfgs: seq<Config>, states: seq<LiveState>, ts: int, dt: int,
                      oracle: nat -> nat, at: nat, n: nat)
    requires WorldValid(w) && FleetValid(cfgs, states) && dt > 0 && n < |states|
    ensures var prev := RoundUpTo(w, cfgs, states, ts, dt, oracle, at, n);
      var t := Turn(w, cfgs[n], prev.states[n], ts, dt, oracle, prev.next);
      var r := RoundUpTo(w, cfgs, states, ts, dt, oracle, at, n + 1);
      r.states == prev.states[n := t.live] && r.readings == prev.readings + [t.reading] &&
      r.anomalies == prev.anomalies + Events(t.anomaly) && r.next == t.next
  {
    hide Turn, Lifecycle, Step, RandomTrip, RefuelTrip;
  }

  /** After n turns the later vehicles are untouched, reading k is vehicle k's and every event a theft. */
  lemma {:induction false} RoundUpToFacts(w: GridWorld, cfgs: seq<Config>, states: seq<LiveState>, ts: int, dt: int,
                                          oracle: nat -> nat, at: nat, n: nat)
    requires WorldValid(w) && FleetValid(cfgs, states) && dt > 0 && n <= |states|
    ensures var r := RoundUpTo(w, cfgs, states, ts, dt, oracle, at, n);
      forall j :: n <= j < |states| ==> r.states[j] == states[j]
    ensures RoundReadings(RoundUpTo(w, cfgs, states, ts, dt, oracle, at, n).readings, cfgs, ts)
    ensures TheftLog(RoundUpTo(w, cfgs, states, ts, dt, oracle, at, n).anomalies, CfgIds(cfgs))
    decreases n
  {
    hide RoundUpTo, Turn, Lifecycle, Step, RandomTrip, RefuelTrip;
    if n == 0 {
      RoundUpToNone(w, cfgs, states, ts, dt, oracle, at);
    } else {
      RoundUpToFacts(w, cfgs, states, ts, dt, oracle, at, n - 1);
      RoundUpToNext(w, cfgs, states, ts, dt, oracle, at, n - 1);
    }
  }

  /** A whole tick round: every vehicle of the fleet takes its turn. */
  function Round(w: GridWorld, cfgs: seq<Config>, states: seq<LiveState>, ts: int, dt: int,
                 oracle: nat -> nat, at: nat): (r: Progress)
    requires WorldValid(w) && FleetValid(cfgs, states) && dt > 0
    ensures FleetValid(cfgs, r.states) && |r.readings| == |states|
    ensures RoundReadings(r.readings, cfgs, ts) && TheftLog(r.anomalies, CfgIds(cfgs))
  {
    RoundUpToFacts(w, cfgs, states, ts, dt, oracle, at, |states|);
    RoundUpTo(w, cfgs, states, ts, dt, oracle, at, |states|)
  }

  /** `(duration_minutes * 60) // time_step_seconds`: the number of rounds of a run. */
  function TotalTicks(durationMinutes: int, timeStep: int): nat
    requires durationMinutes > 0 && timeStep > 0
  {
    (durationMinutes * 60) / timeStep
  }

  /** The first `ticks` rounds of a run; round k runs at time k * dt. */
  function RunTicks(w: GridWorld, cfgs: seq<Config>, states: seq<LiveState>, dt: int,
                    oracle: nat -> nat, at: nat, ticks: nat): (r: Progress)
    requires WorldValid(w) && FleetValid(cfgs, states) && dt > 0
    ensures FleetValid(cfgs, r.states) && |r.readings| == ticks * |states|
    decreases ticks
  {
    hide Round, RoundUpTo, Turn, Lifecycle, Step, RandomTrip, RefuelTrip;
    if ticks == 0 then Progress(states, [], [], at)
    else
      var prev := RunTicks(w, cfgs, states, dt, oracle, at, ticks - 1);
      var round := Round(w, cfgs, prev.states, (ticks - 1) * dt, dt, oracle, prev.next);
      assert ticks * |states| == (ticks - 1) * |states| + |states|;
      Progress(round.states, prev.readings + round.readings, prev.anomalies + round.anomalies, round.next)
  }

  /** A run of no rounds leaves the fleet and the draws as they were. */
  lemma RunTicksNone(w: GridWorld, cfgs: seq<Config>, states: seq<LiveState>, dt: int, oracle: nat -> nat, at: nat)
    requires WorldValid(w) && FleetValid(cfgs, states) && dt > 0
    ensures var r := RunTicks(w, cfgs, states, dt, oracle, at, 0);
      r.states == states && r.readings == [] && r.anomalies == [] && r.next == at
  {
  }

  /** Round k + 1 of a run is a whole round at time k * dt from where the first k rounds left off. */
  lemma RunTicksNext(w: GridWorld, cfgs: seq<Config>, states: seq<LiveState>, dt: int,
                     oracle: nat -> nat, at: nat, ticks: nat)
    requires WorldValid(w) && FleetValid(cfgs, states) && dt > 0
    ensures var prev := RunTicks(w, cfgs, states, dt, oracle, at, ticks);
      var round := Round(w, cfgs, prev.states, ticks * dt, dt, oracle, prev.next);
      var r := RunTicks(w, cfgs, states, dt, oracle, at, ticks + 1);
      r.states == round.states && r.readings == prev.readings + round.readings &&
      r.anomalies == prev.anomalies + round.anomalies && r.next == round.next
  {
    hide Round, RoundUpTo, Turn, Lifecycle, Step, RandomTrip, RefuelTrip;
  }

  /**
   * A run's logs: reading k is vehicle k mod n's at tick k div n, in range; every event is a
   * fuel theft of a fleet vehicle.
   */
  lemma {:induction false} RunTicksLogs(w: GridWorld, cfgs: seq<Config>, states: seq<LiveState>, dt: int,
                                        oracle: nat -> nat, at: nat, ticks: nat)
    requires WorldValid(w) && FleetValid(cfgs, states) && dt > 0 && |states| > 0
    ensures ReadingLog(RunTicks(w, cfgs, states, dt, oracle, at, ticks).readings, CfgIds(cfgs), dt)
    ensures TheftLog(RunTicks(w, cfgs, states, dt, oracle, at, ticks).anomalies, CfgIds(cfgs))
  {
    hide RunTicks, Round, RoundUpTo, Turn, Lifecycle, Step, RandomTrip, RefuelTrip;
    if ticks == 0 {
      RunTicksNone(w, cfgs, states, dt, oracle, at);
    } else {
      var prev := RunTicks(w, cfgs, states, dt, oracle, at, ticks - 1);
      var round := Round(w, cfgs, prev.states, (ticks - 1) * dt, dt, oracle, prev.next);
      RunTicksNext(w, cfgs, states, dt, oracle, at, ticks - 1);
      RunTicksLogs(w, cfgs, states, dt, oracle, at, ticks - 1);
      assert |prev.readings| == (ticks - 1) * |cfgs|;
      ReadingLogAppendRound(prev.readings, round.readings, cfgs, dt, ticks - 1);
    }
  }

  /** Appending a full round at tick `tick` to a log of `tick` rounds keeps it a reading log. */
  lemma ReadingLogAppendRound(log: seq<TelemetryReading>, round: seq<TelemetryReading>, cfgs: seq<Config>,
                              step: int, tick: nat)
    requires ReadingLog(log, CfgIds(cfgs), step) && |log| == tick * |cfgs|
    requires |round| == |cfgs| && RoundReadings(round, cfgs, tick * step)
    ensures ReadingLog(log + round, CfgIds(cfgs), step)
  {
    var ids := CfgIds(cfgs);
    var l := log + round;
    forall k | |log| <= k < |l|
      ensures l[k].vehicleId == ids[k % |ids|] && l[k].timestamp == (k / |ids|) * step &&
              l[k].speedKph >= 0.0 && 0.0 <= l[k].fuelPercentage <= 100.0
    {
      Arith.DivModOf(tick, k - |log|, |ids|);
      assert l[k] == round[k - |log|];
    }
    forall k | 0 <= k < |log|
      ensures l[k].vehicleId == ids[k % |ids|] && l[k].timestamp == (k / |ids|) * step &&
              l[k].speedKph >= 0.0 && 0.0 <= l[k].fuelPercentage <= 100.0
    {
      assert l[k] == log[k];
    }
  }

  /** The configuration of fleet member i: its profile is the one at i mod k. */
  function MemberConfig(profiles: seq<(string, BehavioralProfile)>, i: nat): Config
    requires |profiles| > 0
  {
    var (name, profile) := profiles[i % |profiles|];
    Config(VehicleId(name, i), profile, DefaultTankLiters, DefaultMileageKmpl, DefaultRefuelThresholdPct)
  }

  /** A new vehicle: parked, full tank, no route. */
  const NewVehicle := LiveState(Parked, 0.0, DefaultTankLiters, 0, [], 0, 0.0)

  method NewMember(profiles: seq<(string, BehavioralProfile)>, i: nat) returns (v: VehicleAgent)
    requires |profiles| > 0 && ProfileValid(profiles[i % |profiles|].1)
    ensures fresh(v) && v.Valid() && v.Cfg() == MemberConfig(profiles, i) && v.Snapshot() == NewVehicle
  {
    var (name, profile) := profiles[i % |profiles|];
    v := new VehicleAgent(VehicleId(name, i), profile,
                          DefaultTankLiters, DefaultMileageKmpl, DefaultRefuelThresholdPct);
  }

  /** The ids of a fleet, in fleet order. */
  function IdsOf(vs: seq<VehicleAgent>): (ids: seq<string>)
    ensures |ids| == |vs| && forall i :: 0 <= i < |vs| ==> ids[i] == vs[i].vehicleId
  {
    seq(|vs|, i requires 0 <= i < |vs| => vs[i].vehicleId)
  }

  /**
   * The telemetry log of a run: reading k comes from vehicle k mod n at tick k div n, whose
   * time is that tick times the step, with a non-negative speed and a fuel level in 0..100 %.
   */
  predicate ReadingLog(log: seq<TelemetryReading>, ids: seq<string>, step: int) {
    |ids| > 0 &&
    forall k :: 0 <= k < |log| ==>
      log[k].vehicleId == ids[k % |ids|] && log[k].timestamp == (k / |ids|) * step &&
      log[k].speedKph >= 0.0 && 0.0 <= log[k].fuelPercentage <= 100.0
  }

  /** Every logged anomaly is a fuel theft of a vehicle of the fleet. */
  predicate TheftLog(log: seq<AnomalyEvent>, ids: seq<string>) {
    forall e :: e in log ==> e.eventType == FuelTheft && e.vehicleId in ids
  }

  /**
   * What a run has handed to the sink so far: the batches the sink accepted, in order, the
   * readings still buffered, and the index of the next real post (the sink's verdict is
   * indexed by post).
   */
  datatype Delivery = Delivery(batches: seq<seq<TelemetryReading>>, buffer: seq<TelemetryReading>, posts: nat)

  /**
   * The flush rule: a buffer of at least `batchSize` readings is posted, unless it is empty
   * (an empty batch is never sent); the post is accepted iff `verdict(posts)`, and only then
   * is the buffer cleared. No reading is lost or duplicated, and every accepted batch cost a post.
   */
  function Flush(d: Delivery, batchSize: int, verdict: nat -> bool): (r: Delivery)
    ensures Flatten(r.batches) + r.buffer == Flatten(d.batches) + d.buffer
    ensures r.posts - d.posts >= |r.batches| - |d.batches| >= 0
  {
    if |d.buffer| < batchSize || d.buffer == [] then d
    else if verdict(d.posts) then
      FlattenAppend(d.batches, d.buffer);
      Delivery(d.batches + [d.buffer], [], d.posts + 1)
    else Delivery(d.batches, d.buffer, d.posts + 1)
  }

  /** Flushing does not depend on the batches already accepted. */
  lemma FlushShift(d: Delivery, batchSize: int, verdict: nat -> bool)
    ensures var r := Flush(Delivery([], d.buffer, d.posts), batchSize, verdict);
      Flush(d, batchSize, verdict) == Delivery(d.batches + r.batches, r.buffer, r.posts)
  {
    assert d.batches + [] == d.batches;
  }

  /** The number of readings in k rounds of n readings each. */
  function RoundsLength(k: nat, n: nat): nat {
    if k == 0 then 0 else RoundsLength(k - 1, n) + n
  }

  /** k rounds of n readings hold k * n readings. */
  lemma {:induction false} RoundsLengthIsProduct(k: nat, n: nat)
    ensures RoundsLength(k, n) == k * n
  {
    if k > 0 {
      RoundsLengthIsProduct(k - 1, n);
    }
  }

  /**
   * The deliveries after the first `k` rounds of a run whose log is `log` and whose rounds
   * hold `n` readings each: round i's readings log[i * n..(i + 1) * n] join the buffer, then
   * the end-of-round flush applies.
   */
  function RoundsDelivery(log: seq<TelemetryReading>, n: nat, k: nat, batchSize: int,
                          verdict: nat -> bool, posts0: nat): Delivery
    requires RoundsLength(k, n) <= |log|
    decreases k
  {
    if k == 0 then Delivery([], [], posts0)
    else
      var d := RoundsDelivery(log, n, k - 1, batchSize, verdict, posts0);
      Flush(Delivery(d.batches, d.buffer + log[RoundsLength(k - 1, n)..RoundsLength(k, n)], d.posts), batchSize, verdict)
  }

  /**
   * The deliveries of a whole run of `ticks` rounds: the rounds, then the final post of the
   * leftover buffer, which is the flush rule with no size threshold and is not retried.
   */
  function Deliver(log: seq<TelemetryReading>, n: nat, ticks: nat, batchSize: int,
                   verdict: nat -> bool, posts0: nat): Delivery
    requires RoundsLength(ticks, n) <= |log|
  {
    Flush(RoundsDelivery(log, n, ticks, batchSize, verdict, posts0), 0, verdict)
  }

  /** A whole run delivers what its rounds deliver, then what the final post of the leftover adds. */
  lemma DeliverIsFinalPost(log: seq<TelemetryReading>, n: nat, ticks: nat, batchSize: int,
                           verdict: nat -> bool, posts0: nat)
    requires RoundsLength(ticks, n) <= |log|
    ensures var d := RoundsDelivery(log, n, ticks, batchSize, verdict, posts0);
      var f := Flush(Delivery([], d.buffer, d.posts), 0, verdict);
      Deliver(log, n, ticks, batchSize, verdict, posts0) == Delivery(d.batches + f.batches, f.buffer, f.posts)
  {
    FlushShift(RoundsDelivery(log, n, ticks, batchSize, verdict, posts0), 0, verdict);
  }

  /** The rounds of a run deliver readings of the log only; no reading is lost or duplicated. */
  lemma {:induction false} RoundsDeliveryConserves(log: seq<TelemetryReading>, n: nat, k: nat, batchSize: int,
                                                   verdict: nat -> bool, posts0: nat)
    requires RoundsLength(k, n) <= |log|
    ensures var d := RoundsDelivery(log, n, k, batchSize, verdict, posts0);
      Flatten(d.batches) + d.buffer == log[..RoundsLength(k, n)] && posts0 + |d.batches| <= d.posts
  {
    hide Flush, RoundsDelivery;
    if k == 0 {
      RoundsDeliveryNone(log, n, batchSize, verdict, posts0);
    } else {
      RoundsDeliveryConserves(log, n, k - 1, batchSize, verdict, posts0);
      var d := RoundsDelivery(log, n, k - 1, batchSize, verdict, posts0);
      var chunk := log[RoundsLength(k - 1, n)..RoundsLength(k, n)];
      var pending := Delivery(d.batches, d.buffer + chunk, d.posts);
      RoundsDeliveryStep(log, n, k, batchSize, verdict, posts0);
      calc {
        Flatten(pending.batches) + pending.buffer;
        (Flatten(d.batches) + d.buffer) + chunk;
        log[..RoundsLength(k - 1, n)] + chunk;
        { assert log[..RoundsLength(k - 1, n)] + chunk == log[..RoundsLength(k, n)]; }
        log[..RoundsLength(k, n)];
      }
    }
  }

  /** The rounds delivered so far depend only on the readings of those rounds. */
  lemma {:induction false} RoundsDeliveryPrefix(log: seq<TelemetryReading>, ext: seq<TelemetryReading>, n: nat, k: nat,
                                                batchSize: int, verdict: nat -> bool, posts0: nat)
    requires RoundsLength(k, n) <= |log|
    ensures RoundsDelivery(log + ext, n, k, batchSize, verdict, posts0) == RoundsDelivery(log, n, k, batchSize, verdict, posts0)
  {
    hide Flush, RoundsDelivery;
    if k == 0 {
      RoundsDeliveryNone(log + ext, n, batchSize, verdict, posts0);
      RoundsDeliveryNone(log, n, batchSize, verdict, posts0);
    } else {
      RoundsDeliveryPrefix(log, ext, n, k - 1, batchSize, verdict, posts0);
      RoundsDeliveryStep(log + ext, n, k, batchSize, verdict, posts0);
      RoundsDeliveryStep(log, n, k, batchSize, verdict, posts0);
      assert (log + ext)[RoundsLength(k - 1, n)..RoundsLength(k, n)] == log[RoundsLength(k - 1, n)..RoundsLength(k, n)];
    }
  }

  /** A buffer below `batchSize`, or an empty one, is not posted. */
  lemma FlushKeeps(d: Delivery, batchSize: int, verdict: nat -> bool)
    requires |d.buffer| < batchSize || d.buffer == []
    ensures Flush(d, batchSize, verdict) == d
  {
  }

  /** A non-empty buffer of at least `batchSize` readings whose post is accepted becomes a batch. */
  lemma FlushAccepted(d: Delivery, batchSize: int, verdict: nat -> bool)
    requires |d.buffer| >= batchSize && d.buffer != [] && verdict(d.posts)
    ensures Flush(d, batchSize, verdict) == Delivery(d.batches + [d.buffer], [], d.posts + 1)
  {
  }

  /** Round k adds its readings to the buffer left by the first k - 1 rounds, then flushes. */
  lemma RoundsDeliveryStep(log: seq<TelemetryReading>, n: nat, k: nat, batchSize: int, verdict: nat -> bool, posts0: nat)
    requires 0 < k && RoundsLength(k, n) <= |log|
    ensures var d := RoundsDelivery(log, n, k - 1, batchSize, verdict, posts0);
      RoundsDelivery(log, n, k, batchSize, verdict, posts0) ==
      Flush(Delivery(d.batches, d.buffer + log[RoundsLength(k - 1, n)..RoundsLength(k, n)], d.posts), batchSize, verdict)
  {
  }

  /** Before the first round nothing is delivered or buffered. */
  lemma RoundsDeliveryNone(log: seq<TelemetryReading>, n: nat, batchSize: int, verdict: nat -> bool, posts0: nat)
    ensures RoundsDelivery(log, n, 0, batchSize, verdict, posts0) == Delivery([], [], posts0)
  {
  }

  /**
   * Round k + 1 adds its readings to the buffer left by the first k rounds and flushes it;
   * the batches accepted by that flush follow those of the first k rounds.
   */
  lemma RoundsDeliveryNext(log: seq<TelemetryReading>, round: seq<TelemetryReading>, n: nat, k: nat,
                           batchSize: int, verdict: nat -> bool, posts0: nat)
    requires |log| == RoundsLength(k, n) && |round| == n
    ensures |log + round| == RoundsLength(k + 1, n)
    ensures var d := RoundsDelivery(log, n, k, batchSize, verdict, posts0);
      var f := Flush(Delivery([], d.buffer + round, d.posts), batchSize, verdict);
      var d' := RoundsDelivery(log + round, n, k + 1, batchSize, verdict, posts0);
      d'.batches == d.batches + f.batches && d'.buffer == f.buffer && d'.posts == f.posts
  {
    hide Flush, RoundsDelivery;
    RoundsDeliveryPrefix(log, round, n, k, batchSize, verdict, posts0);
    RoundsDeliveryStep(log + round, n, k + 1, batchSize, verdict, posts0);
    assert (log + round)[RoundsLength(k, n)..RoundsLength(k + 1, n)] == round;
    var d := RoundsDelivery(log, n, k, batchSize, verdict, posts0);
    FlushShift(Delivery(d.batches, d.buffer + round, d.posts), batchSize, verdict);
  }

  /**
   * The sink and the buffer after the first k rounds of a run whose log is `log`: the batches
   * accepted since `base`, the post count and the buffer are those of `RoundsDelivery`.
   */
  ghost predicate DeliveredAfter(accepted: seq<seq<TelemetryReading>>, posts: nat, buffer: seq<TelemetryReading>,
                                 base: seq<seq<TelemetryReading>>, log: seq<TelemetryReading>, n: nat, k: nat,
                                 batchSize: int, verdict: nat -> bool, posts0: nat)
  {
    |log| == RoundsLength(k, n) &&
    var d := RoundsDelivery(log, n, k, batchSize, verdict, posts0);
    accepted == base + d.batches && buffer == d.buffer && posts == d.posts
  }

  /** Before the first round the sink has nothing new and the buffer is empty. */
  lemma DeliveredAfterNone(base: seq<seq<TelemetryReading>>, n: nat, batchSize: int, verdict: nat -> bool, posts0: nat)
    ensures DeliveredAfter(base, posts0, [], base, [], n, 0, batchSize, verdict, posts0)
  {
    RoundsDeliveryNone([], n, batchSize, verdict, posts0);
    assert base + [] == base;
  }

  /** One more round followed by its flush keeps the sink in step with `RoundsDelivery`. */
  lemma DeliveredAfterNext(accepted: seq<seq<TelemetryReading>>, posts: nat, buffer: seq<TelemetryReading>,
                           base: seq<seq<TelemetryReading>>, log: seq<TelemetryReading>, round: seq<TelemetryReading>,
                           n: nat, k: nat, batchSize: int, verdict: nat -> bool, posts0: nat,
                           accepted': seq<seq<TelemetryReading>>, posts': nat, buffer': seq<TelemetryReading>)
    requires DeliveredAfter(accepted, posts, buffer, base, log, n, k, batchSize, verdict, posts0) && |round| == n
    requires var f := Flush(Delivery([], buffer + round, posts), batchSize, verdict);
      accepted' == accepted + f.batches && buffer' == f.buffer && posts' == f.posts
    ensures DeliveredAfter(accepted', posts', buffer', base, log + round, n, k + 1, batchSize, verdict, posts0)
  {
    hide Flush, RoundsDelivery;
    RoundsDeliveryNext(log, round, n, k, batchSize, verdict, posts0);
  }

  /** After the last round, the final post completes the run's `Deliver`. */
  lemma DeliveredRun(accepted: seq<seq<TelemetryReading>>, posts: nat, buffer: seq<TelemetryReading>,
                     base: seq<seq<TelemetryReading>>, log: seq<TelemetryReading>, n: nat, ticks: nat,
                     batchSize: int, verdict: nat -> bool, posts0: nat,
                     accepted': seq<seq<TelemetryReading>>, posts': nat)
    requires DeliveredAfter(accepted, posts, buffer, base, log, n, ticks, batchSize, verdict, posts0)
    requires var f := Flush(Delivery([], buffer, posts), 0, verdict);
      accepted' == accepted + f.batches && posts' == f.posts
    ensures |log| == RoundsLength(ticks, n) &&
      var d := Deliver(log, n, ticks, batchSize, verdict, posts0);
      accepted' == base + d.batches && posts' == d.posts
  {
    hide Flush, RoundsDelivery;
    DeliverIsFinalPost(log, n, ticks, batchSize, verdict, posts0);
  }

  /** While fewer than `batchSize` readings have been produced, nothing is posted. */
  lemma {:induction false} NothingPostedBelowBatchSize(log: seq<TelemetryReading>, n: nat, k: nat, batchSize: int,
                                                       verdict: nat -> bool, posts0: nat)
    requires RoundsLength(k, n) <= |log| && RoundsLength(k, n) < batchSize
    ensures var d := RoundsDelivery(log, n, k, batchSize, verdict, posts0);
      d.batches == [] && d.posts == posts0 && d.buffer == log[..RoundsLength(k, n)]
  {
    hide Flush, RoundsDelivery;
    if k == 0 {
      RoundsDeliveryNone(log, n, batchSize, verdict, posts0);
    } else {
      NothingPostedBelowBatchSize(log, n, k - 1, batchSize, verdict, posts0);
      var d := RoundsDelivery(log, n, k - 1, batchSize, verdict, posts0);
      var chunk := log[RoundsLength(k - 1, n)..RoundsLength(k, n)];
      RoundsDeliveryStep(log, n, k, batchSize, verdict, posts0);
      assert d.buffer + chunk == log[..RoundsLength(k, n)];
      FlushKeeps(Delivery(d.batches, d.buffer + chunk, d.posts), batchSize, verdict);
    }
  }

  /**
   * When the sink accepts every post, each post is an accepted batch, every batch posted after
   * a round holds at least `batchSize` readings, and the buffer left is below `batchSize`.
   */
  lemma {:induction false} RoundsDeliveryAllAccepted(log: seq<TelemetryReading>, n: nat, k: nat, batchSize: int,
                                                     verdict: nat -> bool, posts0: nat)
    requires RoundsLength(k, n) <= |log| && forall j :: verdict(j)
    ensures var d := RoundsDelivery(log, n, k, batchSize, verdict, posts0);
      d.posts == posts0 + |d.batches| && (d.buffer == [] || |d.buffer| < batchSize) &&
      forall i :: 0 <= i < |d.batches| ==> d.batches[i] != [] && |d.batches[i]| >= batchSize
  {
    hide Flush, RoundsDelivery;
    if k == 0 {
      RoundsDeliveryNone(log, n, batchSize, verdict, posts0);
    } else {
      RoundsDeliveryAllAccepted(log, n, k - 1, batchSize, verdict, posts0);
      var d := RoundsDelivery(log, n, k - 1, batchSize, verdict, posts0);
      var pending := Delivery(d.batches, d.buffer + log[RoundsLength(k - 1, n)..RoundsLength(k, n)], d.posts);
      RoundsDeliveryStep(log, n, k, batchSize, verdict, posts0);
      if |pending.buffer| < batchSize || pending.buffer == [] {
        FlushKeeps(pending, batchSize, verdict);
      } else {
        FlushAccepted(pending, batchSize, verdict);
        var r := RoundsDelivery(log, n, k, batchSize, verdict, posts0);
        forall i | 0 <= i < |r.batches|
          ensures r.batches[i] != [] && |r.batches[i]| >= batchSize
        {
          if i < |d.batches| {
            assert r.batches[i] == d.batches[i];
          }
        }
      }
    }
  }

  /**
   * When the sink accepts every post, a run delivers its whole log in order, in non-empty
   * batches of which all but the last hold at least `batchSize` readings, one post per batch.
   */
  lemma DeliverAllAccepted(log: seq<TelemetryReading>, n: nat, ticks: nat, batchSize: int,
                           verdict: nat -> bool, posts0: nat)
    requires RoundsLength(ticks, n) <= |log| && forall j :: verdict(j)
    ensures var d := Deliver(log, n, ticks, batchSize, verdict, posts0);
      Flatten(d.batches) == log[..RoundsLength(ticks, n)] && d.buffer == [] && d.posts == posts0 + |d.batches| &&
      (forall i :: 0 <= i < |d.batches| ==> d.batches[i] != []) &&
      (forall i :: 0 <= i < |d.batches| - 1 ==> |d.batches[i]| >= batchSize)
  {
    RoundsDeliveryConserves(log, n, ticks, batchSize, verdict, posts0);
    RoundsDeliveryAllAccepted(log, n, ticks, batchSize, verdict, posts0);
    assert Flatten(RoundsDelivery(log, n, ticks, batchSize, verdict, posts0).batches) + [] ==
      Flatten(RoundsDelivery(log, n, ticks, batchSize, verdict, posts0).batches);
  }

  /**
   * When the sink accepts every post and `batchSize` is at most the fleet size, every round is
   * posted as a batch of its own right after it runs, and nothing stays buffered.
   */
  lemma {:induction false} EveryRoundIsABatch(log: seq<TelemetryReading>, n: nat, k: nat, batchSize: int,
                                              verdict: nat -> bool, posts0: nat)
    requires RoundsLength(k, n) <= |log| && 0 < n && batchSize <= n && forall j :: verdict(j)
    ensures var d := RoundsDelivery(log, n, k, batchSize, verdict, posts0);
      d.buffer == [] && d.posts == posts0 + k && |d.batches| == k &&
      Flatten(d.batches) == log[..RoundsLength(k, n)] && forall i :: 0 <= i < k ==> |d.batches[i]| == n
  {
    hide Flush, RoundsDelivery, Flatten;
    RoundsDeliveryConserves(log, n, k, batchSize, verdict, posts0);
    var r := RoundsDelivery(log, n, k, batchSize, verdict, posts0);
    if k == 0 {
      RoundsDeliveryNone(log, n, batchSize, verdict, posts0);
    } else {
      EveryRoundIsABatch(log, n, k - 1, batchSize, verdict, posts0);
      var d := RoundsDelivery(log, n, k - 1, batchSize, verdict, posts0);
      var chunk := log[RoundsLength(k - 1, n)..RoundsLength(k, n)];
      RoundsDeliveryStep(log, n, k, batchSize, verdict, posts0);
      assert d.buffer + chunk == chunk;
      FlushAccepted(Delivery(d.batches, chunk, d.posts), batchSize, verdict);
      assert r == Delivery(d.batches + [chunk], [], d.posts + 1);
      forall i | 0 <= i < k
        ensures |r.batches[i]| == n
      {
        if i < k - 1 {
          assert r.batches[i] == d.batches[i];
        }
      }
    }
    assert Flatten(r.batches) + [] == Flatten(r.batches);
  }

  /**
   * The end-of-round flush: a non-empty buffer holding at least `batchSize` readings is posted
   * once and emptied exactly when the sink accepts the post; a smaller buffer is not posted.
   * Either way no reading is lost or duplicated.
   */
  method FlushIfFull(buffer: seq<TelemetryReading>, batchSize: int, sink: StreamSink)
    returns (rest: seq<TelemetryReading>)
    modifies sink
    ensures var d := Flush(Delivery([], buffer, old(sink.posts)), batchSize, sink.verdict);
      sink.accepted == old(sink.accepted) + d.batches && rest == d.buffer && sink.posts == d.posts
    ensures |buffer| >= batchSize && buffer != [] ==>
      sink.posts == old(sink.posts) + 1 && (rest == [] <==> sink.verdict(old(sink.posts)))
    ensures |buffer| >= batchSize && buffer == [] ==> rest == [] && sink.posts == old(sink.posts)
    ensures |buffer| < batchSize ==> sink.posts == old(sink.posts)
    ensures Flatten(sink.accepted) + rest == Flatten(old(sink.accepted)) + buffer
    ensures rest == buffer || rest == []
    ensures |buffer| < batchSize ==> rest == buffer && sink.accepted == old(sink.accepted)
    ensures sink.streamed == old(sink.streamed)
  {
    rest := buffer;
    if |buffer| >= batchSize {
      var sent := sink.SendBatch(buffer);
      if sent {
        if buffer != [] {
          FlattenAppend(old(sink.accepted), buffer);
        } else {
          assert sink.accepted == old(sink.accepted);
        }
        rest := [];
      } else {
        assert old(sink.accepted) + [] == old(sink.accepted);
      }
    }
  }

  /** The last post of a run: a non-empty leftover buffer is posted once, whatever the verdict. */
  method PostLeftover(buffer: seq<TelemetryReading>, sink: StreamSink)
    modifies sink
    ensures var d := Flush(Delivery([], buffer, old(sink.posts)), 0, sink.verdict);
      sink.accepted == old(sink.accepted) + d.batches && sink.posts == d.posts
    ensures buffer != [] ==> sink.posts == old(sink.posts) + 1
    ensures Flatten(sink.accepted) <= Flatten(old(sink.accepted)) + buffer
    ensures sink.verdict(old(sink.posts)) ==> Flatten(sink.accepted) == Flatten(old(sink.accepted)) + buffer
    ensures sink.streamed == old(sink.streamed)
  {
    if buffer != [] {
      var sent := sink.SendBatch(buffer);
      if sent {
        FlattenAppend(old(sink.accepted), buffer);
      } else {
        assert old(sink.accepted) + [] == old(sink.accepted);
      }
    } else {
      assert old(sink.accepted) + [] == old(sink.accepted);
    }
  }

  predicate AllValid(vs: seq<VehicleAgent>)
    reads set v | v in vs
  {
    forall i :: 0 <= i < |vs| ==> vs[i].Valid()
  }

  /** How many vehicles of `vs` are in state `st`. */
  function CountState(vs: seq<VehicleAgent>, st: VehicleState): (n: nat)
    reads set v | v in vs
    ensures n <= |vs|
  {
    if vs == [] then 0
    else CountState(vs[..|vs| - 1], st) + (if vs[|vs| - 1].state == st then 1 else 0)
  }

  /** How many vehicles of `vs` need refuelling. */
  function CountLowFuel(vs: seq<VehicleAgent>): (n: nat)
    reads set v | v in vs
    requires AllValid(vs)
    ensures n <= |vs|
  {
    if vs == [] then 0
    else CountLowFuel(vs[..|vs| - 1]) + (if vs[|vs| - 1].NeedsRefueling() then 1 else 0)
  }

  /** The sum of the fuel percentages of `vs`. */
  function SumFuelPct(vs: seq<VehicleAgent>): (total: real)
    reads set v | v in vs
    requires AllValid(vs)
    ensures 0.0 <= total <= 100.0 * |vs| as real
  {
    if vs == [] then 0.0
    else SumFuelPct(vs[..|vs| - 1]) + vs[|vs| - 1].FuelPercentage()
  }

  /** Extending a prefix of the fleet by its next vehicle adds that vehicle to each tally. */
  lemma PrefixStep(vs: seq<VehicleAgent>, i: nat)
    requires AllValid(vs) && i < |vs|
    ensures AllValid(vs[..i]) && AllValid(vs[..i + 1])
    ensures forall st :: CountState(vs[..i + 1], st) == CountState(vs[..i], st) + (if vs[i].state == st then 1 else 0)
    ensures Tally(vs[..i + 1]) == Counted(Tally(vs[..i]), vs[i].state)
    ensures SumFuelPct(vs[..i + 1]) == SumFuelPct(vs[..i]) + vs[i].FuelPercentage()
    ensures CountLowFuel(vs[..i + 1]) == CountLowFuel(vs[..i]) + (if vs[i].NeedsRefueling() then 1 else 0)
  {
    assert vs[..i + 1][..i] == vs[..i];
  }

  /** `counts` holds exactly the states present in `vs`, each with its number of vehicles. */
  predicate CountsOf(counts: map<VehicleState, nat>, vs: seq<VehicleAgent>)
    reads set v | v in vs
  {
    (forall st :: st in counts <==> CountState(vs, st) > 0) &&
    (forall st :: st in counts ==> counts[st] == CountState(vs, st))
  }

  /** The state counts of `vs`, built vehicle by vehicle as the status report builds them. */
  function Tally(vs: seq<VehicleAgent>): map<VehicleState, nat>
    reads set v | v in vs
  {
    if vs == [] then map[] else Counted(Tally(vs[..|vs| - 1]), vs[|vs| - 1].state)
  }

  /** One more vehicle in state `st`. */
  function Counted(m: map<VehicleState, nat>, st: VehicleState): map<VehicleState, nat> {
    m[st := (if st in m then m[st] else 0) + 1]
  }

  /** The tally holds exactly the states present, each with its number of vehicles. */
  lemma {:induction false} TallyCounts(vs: seq<VehicleAgent>)
    ensures CountsOf(Tally(vs), vs)
  {
    if vs != [] {
      TallyCounts(vs[..|vs| - 1]);
    }
  }

  /** Every vehicle is in exactly one of the four states, so the state counts add up to the fleet. */
  lemma {:induction false} StateCountsCoverFleet(vs: seq<VehicleAgent>)
    ensures CountState(vs, Driving) + CountState(vs, Idling) + CountState(vs, Parked) +
            CountState(vs, Refueling) == |vs|
  {
    if vs != [] {
      StateCountsCoverFleet(vs[..|vs| - 1]);
    }
  }

  /** The mean of n values in [0, 100] is in [0, 100]. */
  lemma AverageInRange(total: real, n: nat)
    requires n > 0 && 0.0 <= total <= 100.0 * n as real
    ensures 0.0 <= total / n as real <= 100.0
  {
    Arith.FractionOf(total, 100.0 * n as real);
    assert total / n as real == total / (100.0 * n as real) * 100.0;
  }

  /** The live states of a fleet, in fleet order. */
  function Snapshots(vs: seq<VehicleAgent>): (ss: seq<LiveState>)
    reads set v | v in vs
    ensures |ss| == |vs| && forall i :: 0 <= i < |vs| ==> ss[i] == vs[i].Snapshot()
  {
    seq(|vs|, i reads vs requires 0 <= i < |vs| => vs[i].Snapshot())
  }

  /** The configurations of a fleet, in fleet order. */
  function CfgsOf(vs: seq<VehicleAgent>): (cs: seq<Config>)
    ensures |cs| == |vs| && forall i :: 0 <= i < |vs| ==> cs[i] == vs[i].Cfg()
  {
    seq(|vs|, i requires 0 <= i < |vs| => vs[i].Cfg())
  }

  datatype FleetStatus =
    | NoFleet(fleetSize: nat, message: string)
    | Status(fleetSize: nat, stateCounts: map<VehicleState, nat>, averageFuelPct: real,
             vehiclesNeedingRefuel: nat, telemetryRecords: nat, anomalyEvents: nat)

  class SimulationEngine {
    const world: GridWorld
    var vehicles: seq<VehicleAgent>
    var telemetryLog: seq<TelemetryReading>
    var anomalyLog: seq<AnomalyEvent>

    /** Every vehicle keeps its own invariant, and no vehicle appears twice. */
    predicate Valid()
      reads this, vehicles
    {
      WorldValid(world) &&
      (forall i :: 0 <= i < |vehicles| ==> vehicles[i].Valid()) &&
      (forall i, j :: 0 <= i < j < |vehicles| ==> vehicles[i] != vehicles[j])
    }

    constructor (world: GridWorld)
      requires WorldValid(world)
      ensures Valid() && this.world == world
      ensures vehicles == [] && telemetryLog == [] && anomalyLog == []
    {
      this.world := world;
      vehicles := [];
      telemetryLog := [];
      anomalyLog := [];
    }

    /**
     * `create_vehicle_fleet`: vehicle i gets the profile at i mod k, in the profiles' order,
     * the id `VehicleId(name, i)` and the default tank, mileage and threshold.
     */
    method CreateVehicleFleet(numVehicles: int, profiles: seq<(string, BehavioralProfile)>)
      returns (r: Result<()>)
      requires Valid()
      requires forall i :: 0 <= i < |profiles| ==> ProfileValid(profiles[i].1)
      modifies this
      ensures Valid()
      ensures numVehicles <= 0 ==> r == Err("Number of vehicles must be positive")
      ensures numVehicles > 0 && profiles == [] ==>
        r == Err("At least one behavioral profile must be provided")
      ensures r.Ok? <==> numVehicles > 0 && profiles != []
      ensures r.Err? ==> vehicles == old(vehicles)
      ensures r.Ok? ==> |vehicles| == numVehicles
      ensures r.Ok? ==> forall i :: 0 <= i < |vehicles| ==>
        fresh(vehicles[i]) &&
        vehicles[i].Cfg() == MemberConfig(profiles, i) && vehicles[i].Snapshot() == NewVehicle
      ensures telemetryLog == old(telemetryLog) && anomalyLog == old(anomalyLog)
    {
      if numVehicles <= 0 {
        return Err("Number of vehicles must be positive");
      }
      if profiles == [] {
        return Err("At least one behavioral profile must be provided");
      }
      vehicles := NewFleet(numVehicles, profiles);
      return Ok(());
    }

    /** The `numVehicles` new, distinct members of a fleet built from `profiles`. */
    static method NewFleet(numVehicles: nat, profiles: seq<(string, BehavioralProfile)>)
      returns (fleet: seq<VehicleAgent>)
      requires profiles != [] && forall i :: 0 <= i < |profiles| ==> ProfileValid(profiles[i].1)
      ensures |fleet| == numVehicles
      ensures forall j :: 0 <= j < |fleet| ==> fresh(fleet[j]) && fleet[j].Valid()
      ensures forall j, k :: 0 <= j < k < |fleet| ==> fleet[j] != fleet[k]
      ensures forall j :: 0 <= j < |fleet| ==>
        fleet[j].Cfg() == MemberConfig(profiles, j) && fleet[j].Snapshot() == NewVehicle
    {
      hide *;
      fleet := [];
      for i := 0 to numVehicles
        invariant |fleet| == i
        invariant forall j :: 0 <= j < i ==> fresh(fleet[j]) && fleet[j].Valid()
        invariant forall j, k :: 0 <= j < k < i ==> fleet[j] != fleet[k]
        invariant forall j :: 0 <= j < i ==>
          fleet[j].Cfg() == MemberConfig(profiles, j) && fleet[j].Snapshot() == NewVehicle
      {
        var v := NewMember(profiles, i);
        fleet := fleet + [v];
      }
    }

    /**
     * `_assign_refueling_trip`: from the end of the route (or a random node when there is
     * none) to the nearest station, assigned at 60 kph when that route has an edge.
     */
    method AssignRefuelingTrip(v: VehicleAgent, rng: RandomSource) returns (ok: bool)
      requires v.Valid() && WorldValid(world)
      modifies v, rng
      ensures v.Valid()
      ensures var trip := RefuelTrip(world, old(v.route), rng.oracle(old(rng.used)));
        ok == trip.Some? &&
        v.Snapshot() == (if ok then Driven(old(v.Snapshot()), trip.value) else old(v.Snapshot()))
      ensures rng.used == old(rng.used) + (if old(v.route) == [] then 1 else 0)
    {
      var start: Models.Node;
      if v.route != [] {
        start := v.route[|v.route| - 1];
      } else {
        var nodes := GridNodes(world);
        assert |nodes| > 0 by { Arith.MulMono(world.width, 1, world.height); }
        start := rng.Choice(nodes);
      }
      var found := FindNearestRefuelingStation(world, start);
      if found.Err? {
        return false;
      }
      var (_, routeToStation) := found.value;
      if |routeToStation| >= 2 {
        v.AssignNewTrip(routeToStation, DefaultSpeedKph);
        return true;
      }
      return false;
    }

    /**
     * `_assign_random_trip`: up to 20 route searches for routes of at least `MinTripNodes`
     * nodes; the first route whose length fits 90 % of the fuel range is assigned at 60 kph.
     */
    method AssignRandomTrip(v: VehicleAgent, rng: RandomSource) returns (ok: bool)
      requires v.Valid() && WorldValid(world)
      modifies v, rng
      ensures v.Valid()
      ensures var trip := RandomTrip(world, v.Cfg(), old(v.Snapshot()), rng.oracle, old(rng.used));
        ok == trip.route.Some? && rng.used == trip.next &&
        v.Snapshot() == (if ok then Driven(old(v.Snapshot()), trip.route.value) else old(v.Snapshot()))
    {
      ghost var s0, at := v.Snapshot(), rng.used;
      var range := FuelRange(v.fuel, v.mileage);
      assert range == TripRange(v.Cfg(), s0);
      var minDistance := MinTripNodes(range);
      ghost var searches := RandomTripSearches(world, v.Cfg(), s0, rng.oracle, at);
      for attempt := 0 to RandomTripAttempts
        invariant v.Snapshot() == s0 && v.Valid()
        invariant rng.used == AttemptStart(searches, at, attempt)
        invariant FirstFit(searches, range, 0, at).route == FirstFit(searches, range, attempt, rng.used).route
        invariant FirstFit(searches, range, 0, at).next == FirstFit(searches, range, attempt, rng.used).next
      {
        TripSearchesAt(world, minDistance, rng.oracle, at, RandomTripAttempts, attempt);
        var outcome := GetRandomRoute(world, minDistance, rng);
        assert outcome == searches[attempt].0 && rng.used == searches[attempt].1;
        if outcome.Found? {
          var route := outcome.route;
          if (|route| - 1) as real <= range {
            assert Fits(searches[attempt].0, range);
            v.AssignNewTrip(route, DefaultSpeedKph);
            return true;
          }
        }
      }
      return false;
    }

    /**
     * `_manage_vehicle_lifecycle`: only a parked vehicle is touched; one that needs fuel gets
     * a refuel-trip attempt and nothing else, any other gets a random-trip attempt.
     */
    method ManageLifecycle(v: VehicleAgent, rng: RandomSource)
      requires v.Valid() && WorldValid(world)
      modifies v, rng
      ensures v.Valid()
      ensures v.Snapshot() == Lifecycle(world, v.Cfg(), old(v.Snapshot()), rng.oracle, old(rng.used)).live
      ensures rng.used == Lifecycle(world, v.Cfg(), old(v.Snapshot()), rng.oracle, old(rng.used)).next
    {
      if v.state != Parked {
        return;
      }
      if v.NeedsRefueling() {
        var _ := AssignRefuelingTrip(v, rng);
        return;
      }
      var _ := AssignRandomTrip(v, rng);
    }

    /** A vehicle's turn: life-cycle management, then its tick at time ts. */
    method TakeTurn(v: VehicleAgent, ts: int, timeStep: int, rng: RandomSource)
      returns (reading: TelemetryReading, anomaly: Option<AnomalyEvent>)
      requires v.Valid() && WorldValid(world) && timeStep > 0
      modifies v, rng
      ensures v.Valid()
      ensures var t := Turn(world, v.Cfg(), old(v.Snapshot()), ts, timeStep, rng.oracle, old(rng.used));
        v.Snapshot() == t.live && reading == t.reading && anomaly == t.anomaly && rng.used == t.next
    {
      hide Lifecycle, Step, RandomTrip, RefuelTrip;
      ManageLifecycle(v, rng);
      var outcome := v.Tick(ts, timeStep, rng);
      reading, anomaly := outcome.reading, outcome.anomaly;
    }

    /**
     * One vehicle's turn within a tick round: life-cycle management, then its tick at the
     * round's time; the reading is appended to the log and any theft event to the anomaly log
     * and the sink. No other vehicle changes.
     */
    method TickVehicle(i: nat, tick: nat, timeStep: int, sink: StreamSink, rng: RandomSource)
      returns (reading: TelemetryReading)
      requires Valid() && i < |vehicles| && timeStep > 0
      modifies this, vehicles[i], sink, rng
      ensures Valid() && vehicles == old(vehicles)
      ensures var t := Turn(world, vehicles[i].Cfg(), old(vehicles[i].Snapshot()), tick * timeStep, timeStep,
                            rng.oracle, old(rng.used));
        Snapshots(vehicles) == old(Snapshots(vehicles))[i := t.live] &&
        reading == t.reading && rng.used == t.next &&
        telemetryLog == old(telemetryLog) + [t.reading] &&
        anomalyLog == old(anomalyLog) + Events(t.anomaly) &&
        sink.streamed == old(sink.streamed) + Events(t.anomaly)
      ensures sink.accepted == old(sink.accepted) && sink.posts == old(sink.posts)
    {
      hide Turn;
      var v := vehicles[i];
      var anomaly;
      reading, anomaly := TakeTurn(v, tick * timeStep, timeStep, rng);
      telemetryLog := telemetryLog + [reading];
      if anomaly.Some? {
        anomalyLog := anomalyLog + [anomaly.value];
        sink.SendAnomaly(anomaly.value);
      }
      forall j | 0 <= j < |vehicles| && j != i ensures vehicles[j].Snapshot() == old(vehicles[j].Snapshot()) {
        assert vehicles[j] != v;
      }
    }

    /** Every vehicle in fleet order takes its turn at tick `tick`; the readings are returned in that order. */
    method TickFleet(tick: nat, timeStep: int, sink: StreamSink, rng: RandomSource)
      returns (readings: seq<TelemetryReading>)
      requires Valid() && timeStep > 0
      modifies this, vehicles, sink, rng
      ensures Valid() && vehicles == old(vehicles)
      ensures var r := Round(world, CfgsOf(vehicles), old(Snapshots(vehicles)), tick * timeStep, timeStep,
                             rng.oracle, old(rng.used));
        Snapshots(vehicles) == r.states && rng.used == r.next && readings == r.readings &&
        telemetryLog == old(telemetryLog) + r.readings &&
        anomalyLog == old(anomalyLog) + r.anomalies &&
        sink.streamed == old(sink.streamed) + r.anomalies
      ensures sink.accepted == old(sink.accepted) && sink.posts == old(sink.posts)
    {
      hide Valid, Snapshots, CfgsOf, RoundUpTo, Turn, Lifecycle, Step, RandomTrip, RefuelTrip;
      FleetOfValid();
      ghost var cfgs, states := CfgsOf(vehicles), Snapshots(vehicles);
      RoundUpToNone(world, cfgs, states, tick * timeStep, timeStep, rng.oracle, rng.used);
      readings := [];
      for i := 0 to |vehicles|
        invariant Valid() && vehicles == old(vehicles) && sink.accepted == old(sink.accepted) && sink.posts == old(sink.posts)
        invariant var r := RoundUpTo(world, cfgs, states, tick * timeStep, timeStep, rng.oracle, old(rng.used), i);
          Snapshots(vehicles) == r.states && rng.used == r.next && readings == r.readings &&
          telemetryLog == old(telemetryLog) + r.readings &&
          anomalyLog == old(anomalyLog) + r.anomalies &&
          sink.streamed == old(sink.streamed) + r.anomalies
      {
        readings := TurnInRound(i, tick, timeStep, sink, rng, readings, cfgs, states, old(rng.used),
                                old(telemetryLog), old(anomalyLog), old(sink.streamed));
      }
    }

    /** Turn i of a tick round, as the step from the round's first i turns to its first i + 1. */
    method TurnInRound(i: nat, tick: nat, timeStep: int, sink: StreamSink, rng: RandomSource,
                       readings: seq<TelemetryReading>, ghost cfgs: seq<Config>, ghost states: seq<LiveState>,
                       ghost at: nat, ghost log0: seq<TelemetryReading>, ghost anomalies0: seq<AnomalyEvent>,
                       ghost streamed0: seq<AnomalyEvent>)
      returns (readings': seq<TelemetryReading>)
      requires Valid() && i < |vehicles| && timeStep > 0
      requires cfgs == CfgsOf(vehicles) && FleetValid(cfgs, states)
      requires var r := RoundUpTo(world, cfgs, states, tick * timeStep, timeStep, rng.oracle, at, i);
        Snapshots(vehicles) == r.states && rng.used == r.next && readings == r.readings &&
        telemetryLog == log0 + r.readings && anomalyLog == anomalies0 + r.anomalies &&
        sink.streamed == streamed0 + r.anomalies
      modifies this, vehicles[i], sink, rng
      ensures Valid() && vehicles == old(vehicles) && sink.accepted == old(sink.accepted) && sink.posts == old(sink.posts)
      ensures var r := RoundUpTo(world, cfgs, states, tick * timeStep, timeStep, rng.oracle, at, i + 1);
        Snapshots(vehicles) == r.states && rng.used == r.next && readings' == r.readings &&
        telemetryLog == log0 + r.readings && anomalyLog == anomalies0 + r.anomalies &&
        sink.streamed == streamed0 + r.anomalies
    {
      hide Valid, Snapshots, CfgsOf, RoundUpTo, Turn, Lifecycle, Step, RandomTrip, RefuelTrip;
      FleetOfValid();
      RoundUpToNext(world, cfgs, states, tick * timeStep, timeStep, rng.oracle, at, i);
      ghost var prev := RoundUpTo(world, cfgs, states, tick * timeStep, timeStep, rng.oracle, at, i);
      ghost var t := Turn(world, cfgs[i], prev.states[i], tick * timeStep, timeStep, rng.oracle, rng.used);
      assert cfgs[i] == vehicles[i].Cfg() && prev.states[i] == vehicles[i].Snapshot();
      var reading := TickVehicle(i, tick, timeStep, sink, rng);
      readings' := readings + [reading];
      assert telemetryLog == log0 + (prev.readings + [t.reading]) by {
        assert telemetryLog == (log0 + prev.readings) + [t.reading];
      }
      assert anomalyLog == anomalies0 + (prev.anomalies + Events(t.anomaly)) by {
        assert anomalyLog == (anomalies0 + prev.anomalies) + Events(t.anomaly);
      }
      assert sink.streamed == streamed0 + (prev.anomalies + Events(t.anomaly)) by {
        assert sink.streamed == (streamed0 + prev.anomalies) + Events(t.anomaly);
      }
    }

    /**
     * One tick round: every vehicle in fleet order takes its turn and its reading joins the
     * buffer; then a non-empty buffer of at least `batchSize` readings is posted once and
     * emptied exactly when the post succeeds.
     */
    method TickRound(tick: nat, timeStep: int, batchSize: int, buffer: seq<TelemetryReading>,
                     sink: StreamSink, rng: RandomSource, ghost acceptedBase: seq<seq<TelemetryReading>>)
      returns (buffer': seq<TelemetryReading>)
      requires Valid() && timeStep > 0
      requires Flatten(acceptedBase) + telemetryLog == Flatten(sink.accepted) + buffer
      modifies this, vehicles, sink, rng
      ensures Valid() && vehicles == old(vehicles)
      ensures var r := Round(world, CfgsOf(vehicles), old(Snapshots(vehicles)), tick * timeStep, timeStep,
                             rng.oracle, old(rng.used));
        Snapshots(vehicles) == r.states && rng.used == r.next &&
        telemetryLog == old(telemetryLog) + r.readings &&
        anomalyLog == old(anomalyLog) + r.anomalies &&
        sink.streamed == old(sink.streamed) + r.anomalies
      ensures var r := Round(world, CfgsOf(vehicles), old(Snapshots(vehicles)), tick * timeStep, timeStep,
                             rng.oracle, old(rng.used));
        var d := Flush(Delivery([], buffer + r.readings, old(sink.posts)), batchSize, sink.verdict);
        sink.accepted == old(sink.accepted) + d.batches && buffer' == d.buffer && sink.posts == d.posts
      ensures var pending := buffer + telemetryLog[|old(telemetryLog)|..];
        (|pending| >= batchSize && pending != [] ==>
          sink.posts == old(sink.posts) + 1 && (buffer' == [] <==> sink.verdict(old(sink.posts)))) &&
        (|pending| >= batchSize && pending == [] ==> buffer' == [] && sink.posts == old(sink.posts)) &&
        (|pending| < batchSize ==> buffer' == pending && sink.posts == old(sink.posts))
      ensures Flatten(acceptedBase) + telemetryLog == Flatten(sink.accepted) + buffer'
    {
      hide *;
      ghost var log0, sent0 := telemetryLog, Flatten(sink.accepted);
      var readings := TickFleet(tick, timeStep, sink, rng);
      var pending := buffer + readings;
      assert telemetryLog[|log0|..] == readings by {
        assert telemetryLog == log0 + readings;
      }
      assert Flatten(acceptedBase) + telemetryLog == sent0 + pending by {
        assert telemetryLog == log0 + readings;
        assert (sent0 + buffer) + readings == sent0 + pending;
      }
      buffer' := FlushIfFull(pending, batchSize, sink);
    }

    /** A valid engine's fleet is valid as configurations and states. */
    lemma FleetOfValid()
      requires Valid()
      ensures WorldValid(world) && FleetValid(CfgsOf(vehicles), Snapshots(vehicles))
    {
    }

    /**
     * The tick loop of `run_simulation` on cleared logs: `total` rounds, round k at time
     * k * step, each followed by the end-of-round flush; the batches the sink accepts, its
     * posts and the buffer left are those of `RoundsDelivery` over the run's log.
     */
    method RunRounds(total: nat, timeStep: int, batchSize: int, sink: StreamSink, rng: RandomSource)
      returns (buffer: seq<TelemetryReading>)
      requires Valid() && timeStep > 0 && telemetryLog == [] && anomalyLog == []
      modifies this, vehicles, sink, rng
      ensures Valid() && vehicles == old(vehicles)
      ensures var run := RunTicks(world, CfgsOf(vehicles), old(Snapshots(vehicles)), timeStep, rng.oracle, old(rng.used), total);
        telemetryLog == run.readings && anomalyLog == run.anomalies &&
        Snapshots(vehicles) == run.states && rng.used == run.next &&
        sink.streamed == old(sink.streamed) + anomalyLog
      ensures Flatten(old(sink.accepted)) + telemetryLog == Flatten(sink.accepted) + buffer
      ensures DeliveredAfter(sink.accepted, sink.posts, buffer, old(sink.accepted), telemetryLog, |vehicles|, total,
                             batchSize, sink.verdict, old(sink.posts))
    {
      hide Valid, Snapshots, CfgsOf, RunTicks, Round, RoundUpTo, Turn, Lifecycle, Step, RandomTrip, RefuelTrip,
           RoundsDelivery, Flush, Flatten, DeliveredAfter;
      FleetOfValid();
      ghost var cfgs, states := CfgsOf(vehicles), Snapshots(vehicles);
      RunTicksNone(world, cfgs, states, timeStep, rng.oracle, rng.used);
      buffer := [];
      DeliveredAfterNone(sink.accepted, |vehicles|, batchSize, sink.verdict, sink.posts);
      for tick := 0 to total
        invariant Valid() && vehicles == old(vehicles)
        invariant var run := RunTicks(world, cfgs, states, timeStep, rng.oracle, old(rng.used), tick);
          telemetryLog == run.readings && anomalyLog == run.anomalies &&
          Snapshots(vehicles) == run.states && rng.used == run.next &&
          sink.streamed == old(sink.streamed) + anomalyLog
        invariant Flatten(old(sink.accepted)) + telemetryLog == Flatten(sink.accepted) + buffer
        invariant DeliveredAfter(sink.accepted, sink.posts, buffer, old(sink.accepted), telemetryLog, |vehicles|, tick,
                                 batchSize, sink.verdict, old(sink.posts))
      {
        RunTicksNext(world, cfgs, states, timeStep, rng.oracle, old(rng.used), tick);
        FleetOfValid();
        ghost var log0, accepted0, posts0, buffer0 := telemetryLog, sink.accepted, sink.posts, buffer;
        ghost var round := Round(world, CfgsOf(vehicles), Snapshots(vehicles), tick * timeStep, timeStep,
                                 rng.oracle, rng.used);
        buffer := TickRound(tick, timeStep, batchSize, buffer, sink, rng, old(sink.accepted));
        DeliveredAfterNext(accepted0, posts0, buffer0, old(sink.accepted), log0, round.readings, |vehicles|, tick,
                           batchSize, sink.verdict, old(sink.posts), sink.accepted, sink.posts, buffer);
      }
    }

    /** The ids of a fleet are the ids of its configurations. */
    lemma IdsAreConfigIds(vs: seq<VehicleAgent>)
      ensures IdsOf(vs) == CfgIds(CfgsOf(vs))
    {
    }

    /**
     * `run_simulation`: validates its parameters and the fleet, probes the sink, clears the
     * logs and runs (duration * 60) div step ticks. In each tick every vehicle, in fleet order,
     * first has its life cycle managed and then ticks; its reading goes to the log and the
     * buffer, its theft event to the anomaly log and the sink. After each tick a buffer of at
     * least `batchSize` readings is posted and emptied only if the post succeeds; what is left
     * at the end is posted once more.
     */
    method RunSimulation(durationMinutes: int, endpoint: string, timeStep: int, timeScale: int,
                         batchSize: int, sink: StreamSink, rng: RandomSource)
      returns (r: Result<(seq<TelemetryReading>, seq<AnomalyEvent>)>)
      requires Valid()
      modifies this, vehicles, sink, rng
      ensures Valid() && vehicles == old(vehicles)
      ensures durationMinutes <= 0 ==> r == Err("Duration must be positive")
      ensures durationMinutes > 0 && timeStep <= 0 ==> r == Err("Time step must be positive")
      ensures durationMinutes > 0 && timeStep > 0 && timeScale <= 0 ==>
        r == Err("Time scale factor must be positive")
      ensures durationMinutes > 0 && timeStep > 0 && timeScale > 0 && vehicles == [] ==>
        r == Err("No vehicles in fleet - call create_vehicle_fleet() first")
      ensures durationMinutes > 0 && timeStep > 0 && timeScale > 0 && vehicles != [] && !sink.healthy ==>
        r == Err("Cannot connect to API at " + endpoint)
      ensures r.Ok? <==>
        durationMinutes > 0 && timeStep > 0 && timeScale > 0 && vehicles != [] && sink.healthy
      ensures r.Err? ==>
        telemetryLog == old(telemetryLog) && anomalyLog == old(anomalyLog) &&
        Snapshots(vehicles) == old(Snapshots(vehicles)) && rng.used == old(rng.used) &&
        sink.accepted == old(sink.accepted) && sink.posts == old(sink.posts) && sink.streamed == old(sink.streamed)
      ensures r.Ok? ==>
        var run := RunTicks(world, CfgsOf(vehicles), old(Snapshots(vehicles)), timeStep, rng.oracle, old(rng.used),
                            TotalTicks(durationMinutes, timeStep));
        r.value.0 == telemetryLog && r.value.1 == anomalyLog &&
        telemetryLog == run.readings && anomalyLog == run.anomalies &&
        Snapshots(vehicles) == run.states && rng.used == run.next &&
        sink.streamed == old(sink.streamed) + anomalyLog &&
        Flatten(sink.accepted) <= Flatten(old(sink.accepted)) + telemetryLog
      ensures r.Ok? ==>
        ReadingLog(telemetryLog, IdsOf(vehicles), timeStep) && TheftLog(anomalyLog, IdsOf(vehicles))
      ensures r.Ok? && (forall k :: sink.verdict(k)) ==>
        Flatten(sink.accepted) == Flatten(old(sink.accepted)) + telemetryLog
      ensures r.Ok? ==>
        var ticks := TotalTicks(durationMinutes, timeStep);
        |telemetryLog| == RoundsLength(ticks, |vehicles|) &&
        var d := Deliver(telemetryLog, |vehicles|, ticks, batchSize, sink.verdict, old(sink.posts));
        sink.accepted == old(sink.accepted) + d.batches && sink.posts == d.posts
    {
      hide Snapshots, CfgsOf, IdsOf, CfgIds, ReadingLog, TheftLog, RunTicks, Round, RoundUpTo, Turn,
           Lifecycle, Step, RandomTrip, RefuelTrip;
      if durationMinutes <= 0 {
        return Err("Duration must be positive");
      }
      if timeStep <= 0 {
        return Err("Time step must be positive");
      }
      if timeScale <= 0 {
        return Err("Time scale factor must be positive");
      }
      if vehicles == [] {
        return Err("No vehicles in fleet - call create_vehicle_fleet() first");
      }
      var connected := sink.TestConnection();
      if !connected {
        return Err("Cannot connect to API at " + endpoint);
      }
      var logs := RunValidated(durationMinutes, timeStep, batchSize, sink, rng);
      return Ok(logs);
    }

    /** The run itself, once every check of `run_simulation` has passed. */
    method RunValidated(durationMinutes: int, timeStep: int, batchSize: int, sink: StreamSink, rng: RandomSource)
      returns (logs: (seq<TelemetryReading>, seq<AnomalyEvent>))
      requires Valid() && durationMinutes > 0 && timeStep > 0 && vehicles != []
      modifies this, vehicles, sink, rng
      ensures Valid() && vehicles == old(vehicles)
      ensures
        var run := RunTicks(world, CfgsOf(vehicles), old(Snapshots(vehicles)), timeStep, rng.oracle, old(rng.used),
                            TotalTicks(durationMinutes, timeStep));
        logs.0 == telemetryLog && logs.1 == anomalyLog &&
        telemetryLog == run.readings && anomalyLog == run.anomalies &&
        Snapshots(vehicles) == run.states && rng.used == run.next &&
        sink.streamed == old(sink.streamed) + anomalyLog &&
        Flatten(sink.accepted) <= Flatten(old(sink.accepted)) + telemetryLog
      ensures ReadingLog(telemetryLog, IdsOf(vehicles), timeStep) && TheftLog(anomalyLog, IdsOf(vehicles))
      ensures (forall k :: sink.verdict(k)) ==> Flatten(sink.accepted) == Flatten(old(sink.accepted)) + telemetryLog
      ensures var ticks := TotalTicks(durationMinutes, timeStep);
        |telemetryLog| == RoundsLength(ticks, |vehicles|) &&
        var d := Deliver(telemetryLog, |vehicles|, ticks, batchSize, sink.verdict, old(sink.posts));
        sink.accepted == old(sink.accepted) + d.batches && sink.posts == d.posts
    {
      hide Snapshots, CfgsOf, IdsOf, CfgIds, ReadingLog, TheftLog, RunTicks, Round, RoundUpTo, Turn,
           Lifecycle, Step, RandomTrip, RefuelTrip;
      FleetOfValid();
      ghost var cfgs, states := CfgsOf(vehicles), Snapshots(vehicles);
      telemetryLog := [];
      anomalyLog := [];
      assert Valid();
      hide Valid;
      var buffer := RunRounds(TotalTicks(durationMinutes, timeStep), timeStep, batchSize, sink, rng);
      RunTicksLogs(world, cfgs, states, timeStep, rng.oracle, old(rng.used), TotalTicks(durationMinutes, timeStep));
      IdsAreConfigIds(vehicles);
      hide Deliver, Flush, RoundsDelivery, Flatten, DeliveredAfter;
      ghost var accepted0, posts0 := sink.accepted, sink.posts;
      PostLeftover(buffer, sink);
      DeliveredRun(accepted0, posts0, buffer, old(sink.accepted), telemetryLog, |vehicles|,
                   TotalTicks(durationMinutes, timeStep), batchSize, sink.verdict, old(sink.posts), sink.accepted, sink.posts);
      logs := (telemetryLog, anomalyLog);
    }

    /**
     * `get_fleet_status`: the fleet size, a count per state present, the average fuel
     * percentage, the number of vehicles needing fuel and the log sizes.
     */
    method GetFleetStatus() returns (st: FleetStatus)
      requires Valid()
      ensures vehicles == [] ==> st == NoFleet(0, "No vehicles in fleet")
      ensures vehicles != [] ==>
        AllValid(vehicles) &&
        st.Status? && st.fleetSize == |vehicles| &&
        (forall s :: s in st.stateCounts <==> CountState(vehicles, s) > 0) &&
        (forall s :: s in st.stateCounts ==> st.stateCounts[s] == CountState(vehicles, s)) &&
        st.averageFuelPct == SumFuelPct(vehicles) / |vehicles| as real &&
        0.0 <= st.averageFuelPct <= 100.0 &&
        st.vehiclesNeedingRefuel == CountLowFuel(vehicles) &&
        st.telemetryRecords == |telemetryLog| && st.anomalyEvents == |anomalyLog|
    {
      if vehicles == [] {
        return NoFleet(0, "No vehicles in fleet");
      }
      assert AllValid(vehicles);
      var counts: map<VehicleState, nat> := map[];
      var total := 0.0;
      var low := 0;
      for i := 0 to |vehicles|
        invariant counts == Tally(vehicles[..i])
        invariant total == SumFuelPct(vehicles[..i])
        invariant low == CountLowFuel(vehicles[..i])
      {
        PrefixStep(vehicles, i);
        var v := vehicles[i];
        counts := Counted(counts, v.state);
        total := total + v.FuelPercentage();
        if v.NeedsRefueling() {
          low := low + 1;
        }
      }
      assert vehicles[..|vehicles|] == vehicles;
      TallyCounts(vehicles);
      AverageInRange(total, |vehicles|);
      return Status(|vehicles|, counts, total / |vehicles| as real, low, |telemetryLog|, |anomalyLog|);
    }
  }
}

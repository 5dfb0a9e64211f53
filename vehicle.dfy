/**
 * The vehicle agent of data_generator/vehicle.py: a four-state machine (Driving, Idling,
 * Parked, Refueling) that follows a route edge by edge, burns fuel, idles at stops and
 * suffers fuel theft. `Step` is the tick as a function of the live state; the class
 * `VehicleAgent` performs it field by field and is proved to agree with it.
 */
module Vehicle {
  import opened Wrappers
  import opened Models
  import opened Randomness
  import Arith

  const EdgeLengthKm: real := 1.0
  const IdleConsumptionLph: real := 0.8
  const DefaultSpeedKph: real := 60.0
  /** Progress at or above this counts as having reached the next node. */
  const PositionTolerance: real := 0.99999
  const DefaultTankLiters: real := 500.0
  const DefaultMileageKmpl: real := 4.0
  const DefaultRefuelThresholdPct: real := 20.0
  const StopMinSeconds: int := 120
  const StopMaxSeconds: int := 600

  /** What a vehicle is configured with; none of it changes after construction. */
  datatype Config = Config(
    vehicleId: string,
    profile: BehavioralProfile,
    tankCapacity: real,
    mileage: real,
    refuelThreshold: real)

  predicate ConfigValid(c: Config) {
    c.tankCapacity > 0.0 && c.mileage > 0.0 && ProfileValid(c.profile)
  }

  /** The fields a tick changes. */
  datatype LiveState = LiveState(
    state: VehicleState,
    speed: real,
    fuel: real,
    timer: int,
    route: seq<Models.Node>,
    edge: int,
    progress: real)

  /** `_has_active_route`: a route of two or more nodes with an edge still ahead. */
  predicate HasActiveRoute(s: LiveState) {
    |s.route| >= 2 && s.edge < |s.route| - 1
  }

  /**
   * The agent's invariant: fuel within the tank, progress within the edge, the edge index at
   * most len(route) - 2, a moving or idling vehicle on an active route, an idling one with
   * time left, a stationary one at speed 0, and the reserved Refueling state never entered.
   */
  predicate LiveValid(c: Config, s: LiveState) {
    0.0 <= s.fuel <= c.tankCapacity &&
    0.0 <= s.progress <= 1.0 &&
    s.speed >= 0.0 && s.timer >= 0 && s.edge >= 0 &&
    (s.route == [] || (|s.route| >= 2 && s.edge <= |s.route| - 2)) &&
    s.state != Refueling &&
    ((s.state == Driving || s.state == Idling) ==> HasActiveRoute(s)) &&
    (s.state == Idling ==> s.timer > 0) &&
    ((s.state == Idling || s.state == Parked) ==> s.speed == 0.0)
  }

  /** `fuel_percentage` for a given amount of fuel. */
  function PercentOfTank(c: Config, liters: real): real
    requires c.tankCapacity > 0.0
  {
    liters / c.tankCapacity * 100.0
  }

  /** A fuel level within the tank is between 0 and 100 percent; a full tank is 100 percent. */
  lemma PercentInRange(c: Config, liters: real)
    requires c.tankCapacity > 0.0 && 0.0 <= liters <= c.tankCapacity
    ensures 0.0 <= PercentOfTank(c, liters) <= 100.0
    ensures liters == c.tankCapacity ==> PercentOfTank(c, liters) == 100.0
  {
    Arith.FractionOf(liters, c.tankCapacity);
    assert c.tankCapacity / c.tankCapacity == 1.0;
  }

  /** `needs_refueling` on a configuration and a state: the fuel percentage is at or below the threshold. */
  predicate LowFuel(c: Config, s: LiveState)
    requires c.tankCapacity > 0.0
  {
    PercentOfTank(c, s.fuel) <= c.refuelThreshold
  }

  /** The percentage threshold in litres: at most `threshold` percent of the tank. */
  lemma LowFuelInLiters(c: Config, liters: real)
    requires c.tankCapacity > 0.0
    ensures PercentOfTank(c, liters) <= c.refuelThreshold <==> liters * 100.0 <= c.refuelThreshold * c.tankCapacity
  {
    var q := liters / c.tankCapacity;
    assert q * c.tankCapacity == liters;
    assert PercentOfTank(c, liters) * c.tankCapacity == liters * 100.0;
    if PercentOfTank(c, liters) <= c.refuelThreshold {
      Arith.MulMonoReal(PercentOfTank(c, liters), c.refuelThreshold, c.tankCapacity);
    } else {
      assert (PercentOfTank(c, liters) - c.refuelThreshold) * c.tankCapacity > 0.0;
    }
  }

  /** The draws a tick may take, in the order it takes them. */
  datatype Draws = Draws(stopRoll: real, idlePick: nat, theftRoll: real, pctRoll: real)

  predicate DrawsValid(d: Draws) {
    0.0 <= d.stopRoll < 1.0 && 0.0 <= d.theftRoll < 1.0 && 0.0 <= d.pctRoll < 1.0
  }

  /** The draws a tick reads when the source has already taken k draws. */
  function DrawsOf(oracle: nat -> nat, k: nat): (d: Draws)
    ensures DrawsValid(d)
  {
    Draws(RealOf(oracle, k), oracle(k + 1), RealOf(oracle, k + 2), RealOf(oracle, k + 3))
  }

  /** Step 1: the idle countdown, floored at 0; at 0 the vehicle resumes at 60 kph. */
  function CountDown(s: LiveState, dt: int): LiveState {
    if s.state == Idling && s.timer > 0 then
      var t := if s.timer - dt > 0 then s.timer - dt else 0;
      if t <= 0 then s.(timer := t, state := Driving, speed := DefaultSpeedKph) else s.(timer := t)
    else s
  }

  /** `_apply_driving_physics`: the distance driven this tick and the clamped progress. */
  function DrivingPhysics(s: LiveState, dt: int): (LiveState, real) {
    if !HasActiveRoute(s) then (s.(state := Parked, speed := 0.0), 0.0)
    else
      var distance := s.speed * (dt as real / 3600.0);
      (s.(progress := Min(s.progress + distance / EdgeLengthKm, 1.0)), distance)
  }

  /** Step 2: a driving vehicle moves; an idling or parked one has its speed forced to 0. */
  function Physics(s: LiveState, dt: int): (LiveState, real) {
    if s.state == Driving then DrivingPhysics(s, dt)
    else if s.state == Idling || s.state == Parked then (s.(speed := 0.0), 0.0)
    else (s, 0.0)
  }

  /** Step 3, `_update_fuel_consumption`: distance over mileage, or idle burn, floored at 0. */
  function BurnFuel(c: Config, s: LiveState, distance: real, dt: int): LiveState
    requires c.mileage > 0.0
  {
    var used :=
      if s.state == Driving && distance > 0.0 then distance / c.mileage
      else if s.state == Idling then IdleConsumptionLph * (dt as real / 3600.0)
      else 0.0;
    s.(fuel := Max(0.0, s.fuel - used))
  }

  /** `_perform_fuel_theft`: a share of the tank drawn from the profile's range is removed. */
  function Theft(c: Config, s: LiveState, ts: int, pctRoll: real): (LiveState, AnomalyEvent)
    requires c.tankCapacity > 0.0
  {
    var pct := c.profile.theftPctMin + (c.profile.theftPctMax - c.profile.theftPctMin) * pctRoll;
    var liters := pct / 100.0 * c.tankCapacity;
    var robbed := s.(fuel := Max(0.0, s.fuel - liters));
    (robbed, AnomalyEvent(c.vehicleId, ts, FuelTheft,
      TheftDetails(liters, PercentOfTank(c, s.fuel), PercentOfTank(c, robbed.fuel), pct)))
  }

  /** A theft amount drawn from a valid profile lies in its range and removes fuel, never adds it. */
  lemma TheftTakesFuel(c: Config, roll: real)
    requires ConfigValid(c) && 0.0 <= roll <= 1.0
    ensures var pct := c.profile.theftPctMin + (c.profile.theftPctMax - c.profile.theftPctMin) * roll;
      pct >= 0.0 && pct / 100.0 * c.tankCapacity >= 0.0
  {
    Arith.LerpNonNeg(c.profile.theftPctMin, c.profile.theftPctMax, roll);
    Arith.MulMonoReal(0.0,
      (c.profile.theftPctMin + (c.profile.theftPctMax - c.profile.theftPctMin) * roll) / 100.0,
      c.tankCapacity);
  }

  datatype Arrival = Arrival(live: LiveState, anomaly: Option<AnomalyEvent>, draws: nat)

  /**
   * Step 4, `_check_and_handle_arrivals`: at the last edge the trip completes; otherwise the
   * vehicle first moves onto the next edge and then samples a stop and, after a stop, a theft.
   */
  function HandleArrivals(c: Config, s: LiveState, ts: int, d: Draws): Arrival
    requires c.tankCapacity > 0.0
  {
    if s.progress < PositionTolerance then Arrival(s, None, 0)
    else if s.edge >= |s.route| - 2 then Arrival(s.(state := Parked, speed := 0.0), None, 0)
    else
      var moved := s.(edge := s.edge + 1, progress := 0.0);
      if !(d.stopRoll < c.profile.pStopAtNode) then Arrival(moved, None, 1)
      else
        var stop := Stop(c, moved, ts, d.idlePick, d.theftRoll, d.pctRoll);
        Arrival(stop.live, stop.anomaly, stop.draws + 1)
  }

  /**
   * `_initiate_stop`: idle for 120 to 600 seconds, then a theft when the theft roll is below
   * p_theft_given_stop. Two or three draws.
   */
  function Stop(c: Config, s: LiveState, ts: int, idlePick: nat, theftRoll: real, pctRoll: real): Arrival
    requires c.tankCapacity > 0.0
  {
    var idle := s.(state := Idling, speed := 0.0,
      timer := StopMinSeconds + idlePick % (StopMaxSeconds - StopMinSeconds + 1));
    if !(theftRoll < c.profile.pTheftGivenStop) then Arrival(idle, None, 2)
    else
      var (robbed, event) := Theft(c, idle, ts, pctRoll);
      Arrival(robbed, Some(event), 3)
  }

  /**
   * `_calculate_coordinates` as (latitude, longitude): along an edge, latitude follows y and
   * longitude x; past the route's end the last node is returned as (x, y), unswapped.
   */
  function Coordinates(s: LiveState): (real, real)
    requires s.edge >= 0
  {
    if s.route == [] || s.edge >= |s.route| - 1 then
      if s.route != [] then (s.route[|s.route| - 1].x as real, s.route[|s.route| - 1].y as real)
      else (0.0, 0.0)
    else
      var a, b := s.route[s.edge], s.route[s.edge + 1];
      var p := Min(s.progress, 1.0);
      (Lerp(a.y, b.y, p), Lerp(a.x, b.x, p))
  }

  /** Linear interpolation between two grid coordinates. */
  function Lerp(from: int, to: int, p: real): (v: real)
    ensures p == 0.0 ==> v == from as real
    ensures p == 1.0 ==> v == to as real
  {
    from as real + p * (to - from) as real
  }

  /** Step 5, `_create_telemetry_reading` (without the rounding). */
  function Reading(c: Config, s: LiveState, ts: int): TelemetryReading
    requires c.tankCapacity > 0.0 && s.edge >= 0
  {
    var (lat, lon) := Coordinates(s);
    TelemetryReading(c.vehicleId, ts, lat, lon, s.speed, PercentOfTank(c, s.fuel))
  }

  datatype StepResult = StepResult(
    live: LiveState,
    reading: TelemetryReading,
    anomaly: Option<AnomalyEvent>,
    draws: nat)

  /** One tick, in the source's fixed order: countdown, physics, fuel, arrivals, reading. */
  function Step(c: Config, s: LiveState, ts: int, dt: int, d: Draws): StepResult
    requires ConfigValid(c) && s.edge >= 0
  {
    var s1 := CountDown(s, dt);
    var (s2, distance) := Physics(s1, dt);
    var s3 := BurnFuel(c, s2, distance, dt);
    var arrival := if s3.state == Driving then HandleArrivals(c, s3, ts, d) else Arrival(s3, None, 0);
    StepResult(arrival.live, Reading(c, arrival.live, ts), arrival.anomaly, arrival.draws)
  }

  datatype TickOutcome =
    | Rejected(reason: string)
    | Ticked(reading: TelemetryReading, anomaly: Option<AnomalyEvent>)

  class VehicleAgent {
    const vehicleId: string
    const profile: BehavioralProfile
    const tankCapacity: real
    const mileage: real
    const refuelThreshold: real

    var state: VehicleState
    var speed: real
    var fuel: real
    var timer: int
    var route: seq<Models.Node>
    var edge: int
    var progress: real

    function Cfg(): Config {
      Config(vehicleId, profile, tankCapacity, mileage, refuelThreshold)
    }

    function Snapshot(): LiveState
      reads this
    {
      LiveState(state, speed, fuel, timer, route, edge, progress)
    }

    predicate Valid()
      reads this
    {
      ConfigValid(Cfg()) && LiveValid(Cfg(), Snapshot())
    }

    /** A new vehicle is parked with a full tank and no route. */
    constructor (vehicleId: string, profile: BehavioralProfile, tankCapacity: real, mileage: real, refuelThreshold: real)
      requires tankCapacity > 0.0 && mileage > 0.0 && ProfileValid(profile)
      ensures Valid()
      ensures Cfg() == Config(vehicleId, profile, tankCapacity, mileage, refuelThreshold)
      ensures Snapshot() == LiveState(Parked, 0.0, tankCapacity, 0, [], 0, 0.0)
    {
      this.vehicleId := vehicleId;
      this.profile := profile;
      this.tankCapacity := tankCapacity;
      this.mileage := mileage;
      this.refuelThreshold := refuelThreshold;
      fuel := tankCapacity;
      state := Parked;
      speed := 0.0;
      timer := 0;
      route := [];
      edge := 0;
      progress := 0.0;
    }

    /** `fuel_percentage`: within [0, 100] for a valid vehicle. */
    function FuelPercentage(): (pct: real)
      reads this
      requires Valid()
      ensures 0.0 <= pct <= 100.0
    {
      PercentInRange(Cfg(), fuel);
      PercentOfTank(Cfg(), fuel)
    }

    /** `needs_refueling`; the threshold, a percentage, is met when the litres on board fall to that share of the tank. */
    predicate NeedsRefueling()
      reads this
      requires Valid()
      ensures NeedsRefueling() <==> fuel * 100.0 <= refuelThreshold * tankCapacity
    {
      LowFuelInLiters(Cfg(), fuel);
      LowFuel(Cfg(), Snapshot())
    }

    /**
     * `assign_new_trip`: a route of fewer than two nodes parks the vehicle with no route;
     * otherwise it drives the route from its first edge at the given speed.
     */
    method AssignNewTrip(newRoute: seq<Models.Node>, speedKph: real)
      requires Valid() && speedKph >= 0.0
      modifies this
      ensures Valid()
      ensures |newRoute| < 2 ==>
        Snapshot() == old(Snapshot()).(state := Parked, speed := 0.0, route := [])
      ensures |newRoute| >= 2 ==>
        Snapshot() == old(Snapshot()).(state := Driving, speed := speedKph, timer := 0,
                                       route := newRoute, edge := 0, progress := 0.0)
    {
      if |newRoute| < 2 {
        state := Parked;
        speed := 0.0;
        route := [];
        return;
      }
      route := newRoute;
      edge := 0;
      progress := 0.0;
      speed := speedKph;
      state := Driving;
      timer := 0;
    }

    /** `refuel`: a full tank, parked, speed 0. */
    method Refuel()
      requires Valid()
      modifies this
      ensures Valid() && FuelPercentage() == 100.0
      ensures Snapshot() == old(Snapshot()).(fuel := tankCapacity, state := Parked, speed := 0.0)
    {
      fuel := tankCapacity;
      state := Parked;
      speed := 0.0;
      PercentInRange(Cfg(), fuel);
    }

    /**
     * `tick`: rejects a non-positive time step; otherwise performs `Step` on the fields,
     * taking its random draws from `rng` in the source's order.
     */
    method Tick(ts: int, dt: int, rng: RandomSource) returns (outcome: TickOutcome)
      requires Valid()
      modifies this, rng
      ensures Valid()
      ensures dt <= 0 ==> outcome == Rejected("delta_time_seconds must be positive") &&
                          Snapshot() == old(Snapshot()) && rng.used == old(rng.used)
      ensures dt > 0 ==>
        var r := Step(Cfg(), old(Snapshot()), ts, dt, DrawsOf(rng.oracle, old(rng.used)));
        Snapshot() == r.live && outcome == Ticked(r.reading, r.anomaly) &&
        rng.used == old(rng.used) + r.draws
    {
      if dt <= 0 {
        return Rejected("delta_time_seconds must be positive");
      }
      ghost var s0 := Snapshot();
      ghost var d := DrawsOf(rng.oracle, rng.used);
      if state == Idling && timer > 0 {
        timer := if timer - dt > 0 then timer - dt else 0;
        if timer <= 0 {
          ResumeDriving();
        }
      }
      assert Snapshot() == CountDown(s0, dt);
      var distance := 0.0;
      if state == Driving {
        distance := ApplyDrivingPhysics(dt);
      } else if state == Idling || state == Parked {
        ApplyStationaryPhysics();
      }
      UpdateFuelConsumption(distance, dt);
      var anomaly: Option<AnomalyEvent> := None;
      if state == Driving {
        anomaly := CheckAndHandleArrivals(ts, rng);
      }
      StepPreservesValid(Cfg(), s0, ts, dt, d);
      outcome := Ticked(CreateTelemetryReading(ts), anomaly);
    }

    /** `_apply_driving_physics`; parks the vehicle when no edge is left. */
    method ApplyDrivingPhysics(dt: int) returns (distance: real)
      requires state == Driving && edge >= 0
      modifies this
      ensures Snapshot() == DrivingPhysics(old(Snapshot()), dt).0
      ensures distance == DrivingPhysics(old(Snapshot()), dt).1
    {
      if !(|route| >= 2 && edge < |route| - 1) {
        StopVehicle();
        return 0.0;
      }
      var hours := dt as real / 3600.0;
      distance := speed * hours;
      progress := progress + distance / EdgeLengthKm;
      progress := Min(progress, 1.0);
    }

    method ApplyStationaryPhysics()
      modifies this
      ensures Snapshot() == old(Snapshot()).(speed := 0.0)
    {
      speed := 0.0;
    }

    method UpdateFuelConsumption(distance: real, dt: int)
      requires mileage > 0.0
      modifies this
      ensures Snapshot() == BurnFuel(Cfg(), old(Snapshot()), distance, dt)
    {
      var used := 0.0;
      if state == Driving && distance > 0.0 {
        used := distance / mileage;
      } else if state == Idling {
        var hours := dt as real / 3600.0;
        used := IdleConsumptionLph * hours;
      }
      fuel := Max(0.0, fuel - used);
    }

    method CheckAndHandleArrivals(ts: int, rng: RandomSource) returns (anomaly: Option<AnomalyEvent>)
      requires tankCapacity > 0.0
      modifies this, rng
      ensures var a := HandleArrivals(Cfg(), old(Snapshot()), ts, DrawsOf(rng.oracle, old(rng.used)));
              Snapshot() == a.live && anomaly == a.anomaly && rng.used == old(rng.used) + a.draws
    {
      if !(progress >= PositionTolerance) {
        return None;
      }
      if edge >= |route| - 2 {
        CompleteTrip();
        return None;
      }
      anomaly := HandleIntermediateArrival(ts, rng);
    }

    method HandleIntermediateArrival(ts: int, rng: RandomSource) returns (anomaly: Option<AnomalyEvent>)
      requires tankCapacity > 0.0 && progress >= PositionTolerance && edge < |route| - 2
      modifies this, rng
      ensures var a := HandleArrivals(Cfg(), old(Snapshot()), ts, DrawsOf(rng.oracle, old(rng.used)));
              Snapshot() == a.live && anomaly == a.anomaly && rng.used == old(rng.used) + a.draws
    {
      AdvanceToNextEdge();
      var roll := rng.Random();
      if roll < profile.pStopAtNode {
        anomaly := InitiateStop(ts, rng);
        return;
      }
      return None;
    }

    method AdvanceToNextEdge()
      modifies this
      ensures Snapshot() == old(Snapshot()).(edge := old(edge) + 1, progress := 0.0)
    {
      edge := edge + 1;
      progress := 0.0;
    }

    /** `_initiate_stop`: idle for 120..600 s, then possibly suffer a theft. */
    method InitiateStop(ts: int, rng: RandomSource) returns (anomaly: Option<AnomalyEvent>)
      requires tankCapacity > 0.0
      modifies this, rng
      ensures var k := old(rng.used);
              var a := Stop(Cfg(), old(Snapshot()), ts, rng.oracle(k), rng.RealAt(k + 1), rng.RealAt(k + 2));
              Snapshot() == a.live && anomaly == a.anomaly && rng.used == k + a.draws
    {
      state := Idling;
      speed := 0.0;
      timer := rng.RandInt(StopMinSeconds, StopMaxSeconds);
      var roll := rng.Random();
      if roll < profile.pTheftGivenStop {
        var event := PerformFuelTheft(ts, rng);
        return Some(event);
      }
      return None;
    }

    method ResumeDriving()
      modifies this
      ensures Snapshot() == old(Snapshot()).(state := Driving, speed := DefaultSpeedKph)
    {
      state := Driving;
      speed := DefaultSpeedKph;
    }

    method CompleteTrip()
      modifies this
      ensures Snapshot() == old(Snapshot()).(state := Parked, speed := 0.0)
    {
      state := Parked;
      speed := 0.0;
    }

    method StopVehicle()
      modifies this
      ensures Snapshot() == old(Snapshot()).(state := Parked, speed := 0.0)
    {
      state := Parked;
      speed := 0.0;
    }

    method PerformFuelTheft(ts: int, rng: RandomSource) returns (event: AnomalyEvent)
      requires tankCapacity > 0.0
      modifies this, rng
      ensures Snapshot() == Theft(Cfg(), old(Snapshot()), ts, rng.RealAt(old(rng.used))).0
      ensures event == Theft(Cfg(), old(Snapshot()), ts, rng.RealAt(old(rng.used))).1
      ensures rng.used == old(rng.used) + 1
    {
      var pct := rng.Uniform(profile.theftPctMin, profile.theftPctMax);
      var liters := pct / 100.0 * tankCapacity;
      var before := PercentOfTank(Cfg(), fuel);
      fuel := Max(0.0, fuel - liters);
      var after := PercentOfTank(Cfg(), fuel);
      event := AnomalyEvent(vehicleId, ts, FuelTheft, TheftDetails(liters, before, after, pct));
    }

    /**
     * `_create_telemetry_reading`: this vehicle at time ts, its speed, its fuel percentage, and
     * its position interpolated along the current edge as (latitude, longitude) = (y, x).
     */
    function CreateTelemetryReading(ts: int): (r: TelemetryReading)
      reads this
      requires Valid()
      ensures r.vehicleId == vehicleId && r.timestamp == ts && r.speedKph == speed && r.speedKph >= 0.0
      ensures r.fuelPercentage == PercentOfTank(Cfg(), fuel) && 0.0 <= r.fuelPercentage <= 100.0
      ensures route == [] ==> r.latitude == 0.0 && r.longitude == 0.0
      ensures route != [] ==>
        r.latitude == Lerp(route[edge].y, route[edge + 1].y, progress) &&
        r.longitude == Lerp(route[edge].x, route[edge + 1].x, progress)
    {
      PercentInRange(Cfg(), fuel);
      CoordinatesInterpolateEdge(Cfg(), Snapshot());
      Reading(Cfg(), Snapshot(), ts)
    }
  }

  /** A tick keeps the invariant, keeps the route, and moves the edge index by at most one. */
  lemma StepPreservesValid(c: Config, s: LiveState, ts: int, dt: int, d: Draws)
    requires ConfigValid(c) && LiveValid(c, s) && dt > 0 && DrawsValid(d)
    ensures LiveValid(c, Step(c, s, ts, dt, d).live)
    ensures Step(c, s, ts, dt, d).live.route == s.route
    ensures Step(c, s, ts, dt, d).live.edge == s.edge || Step(c, s, ts, dt, d).live.edge == s.edge + 1
  {
    hide CountDown, Physics, BurnFuel, HandleArrivals;
    var s1 := CountDown(s, dt);
    var s2 := Physics(s1, dt).0;
    var s3 := BurnFuel(c, s2, Physics(s1, dt).1, dt);
    StagesPreserveValid(c, s, dt);
    if s3.state == Driving {
      ArrivalsPreserveValid(c, s3, ts, d);
    }
  }

  /** The countdown, the physics and the fuel burn keep the invariant, the route and the edge. */
  lemma StagesPreserveValid(c: Config, s: LiveState, dt: int)
    requires ConfigValid(c) && LiveValid(c, s) && dt > 0
    ensures var s1 := CountDown(s, dt);
      var s3 := BurnFuel(c, Physics(s1, dt).0, Physics(s1, dt).1, dt);
      LiveValid(c, s3) && s3.route == s.route && s3.edge == s.edge
  {
    var s1 := CountDown(s, dt);
    var s2 := Physics(s1, dt).0;
    var distance := Physics(s1, dt).1;
    if s1.state == Driving && HasActiveRoute(s1) {
      Arith.MulMonoReal(0.0, s1.speed, dt as real / 3600.0);
    }
    assert distance >= 0.0;
    assert LiveValid(c, s2);
  }

  /** Handling arrivals keeps the invariant and the route and moves at most one edge on. */
  lemma ArrivalsPreserveValid(c: Config, s: LiveState, ts: int, d: Draws)
    requires ConfigValid(c) && LiveValid(c, s) && DrawsValid(d)
    ensures var a := HandleArrivals(c, s, ts, d);
      LiveValid(c, a.live) && a.live.route == s.route && (a.live.edge == s.edge || a.live.edge == s.edge + 1)
  {
    if s.progress >= PositionTolerance && s.edge < |s.route| - 2 {
      TheftTakesFuel(c, d.pctRoll);
    }
  }

  /** The distance driven in a tick at a non-negative speed is non-negative. */
  lemma DistanceNonNeg(speed: real, dt: int)
    requires speed >= 0.0 && dt > 0
    ensures speed * (dt as real / 3600.0) >= 0.0
  {
    Arith.MulMonoReal(0.0, speed, dt as real / 3600.0);
  }

  /** Fuel is only ever consumed or stolen by a tick: the tank never gains fuel. */
  lemma StepNeverAddsFuel(c: Config, s: LiveState, ts: int, dt: int, d: Draws)
    requires ConfigValid(c) && LiveValid(c, s) && dt > 0 && DrawsValid(d)
    ensures Step(c, s, ts, dt, d).live.fuel <= s.fuel
  {
    if CountDown(s, dt).state == Driving {
      DistanceNonNeg(CountDown(s, dt).speed, dt);
    }
    TheftTakesFuel(c, d.pctRoll);
  }

  /** A parked vehicle stays exactly as it is: no movement, no fuel use, no draws, no events. */
  lemma ParkedIsFixedPoint(c: Config, s: LiveState, ts: int, dt: int, d: Draws)
    requires ConfigValid(c) && LiveValid(c, s) && s.state == Parked
    ensures var r := Step(c, s, ts, dt, d);
      r.live == s && r.anomaly == None && r.draws == 0 &&
      r.reading.fuelPercentage == PercentOfTank(c, s.fuel) && r.reading.speedKph == 0.0
  {
  }

  /** An idling vehicle with more time left than the step only counts down and burns idle fuel. */
  lemma IdleCountsDown(c: Config, s: LiveState, ts: int, dt: int, d: Draws)
    requires ConfigValid(c) && LiveValid(c, s) && s.state == Idling && 0 < dt < s.timer
    ensures var r := Step(c, s, ts, dt, d);
      r.live == s.(timer := s.timer - dt,
                   fuel := Max(0.0, s.fuel - IdleConsumptionLph * (dt as real / 3600.0))) &&
      r.anomaly == None && r.draws == 0 && r.reading.speedKph == 0.0
  {
  }

  /**
   * When the idle timer runs out within the step, the vehicle resumes at 60 kph and drives
   * for that same step: the tick equals a tick of the resumed vehicle.
   */
  lemma IdleExpiryResumesAndDrives(c: Config, s: LiveState, ts: int, dt: int, d: Draws)
    requires ConfigValid(c) && LiveValid(c, s) && s.state == Idling && s.timer <= dt
    ensures Step(c, s, ts, dt, d) ==
            Step(c, s.(state := Driving, speed := DefaultSpeedKph, timer := 0), ts, dt, d)
  {
  }

  /** Progress a driving vehicle would make in dt seconds, before clamping. */
  function Advance(s: LiveState, dt: int): real {
    s.progress + s.speed * (dt as real / 3600.0) / EdgeLengthKm
  }

  /** Short of the next node, a driving vehicle advances along its edge and burns fuel per km. */
  lemma DrivingAlongEdge(c: Config, s: LiveState, ts: int, dt: int, d: Draws)
    requires ConfigValid(c) && LiveValid(c, s) && s.state == Driving && dt > 0
    requires Advance(s, dt) < PositionTolerance
    ensures var km := s.speed * (dt as real / 3600.0);
      var r := Step(c, s, ts, dt, d);
      r.live == s.(progress := Advance(s, dt), fuel := Max(0.0, s.fuel - km / c.mileage)) &&
      r.anomaly == None && r.draws == 0
  {
  }

  /** Reaching the last node completes the trip: the vehicle parks on its last edge. */
  lemma LastNodeParks(c: Config, s: LiveState, ts: int, dt: int, d: Draws)
    requires ConfigValid(c) && LiveValid(c, s) && s.state == Driving && dt > 0
    requires Advance(s, dt) >= PositionTolerance && s.edge == |s.route| - 2
    ensures var km := s.speed * (dt as real / 3600.0);
      var r := Step(c, s, ts, dt, d);
      r.live == s.(state := Parked, speed := 0.0, progress := Min(Advance(s, dt), 1.0),
                   fuel := Max(0.0, s.fuel - km / c.mileage)) &&
      r.anomaly == None && r.draws == 0
  {
  }

  /**
   * Reaching an intermediate node moves the vehicle onto the next edge; with probability
   * p_stop_at_node it stops there for 120 to 600 seconds, and only a stopped vehicle can be
   * robbed, with probability p_theft_given_stop. The draws taken are 1, 3 or 4 accordingly.
   */
  lemma IntermediateNodeArrival(c: Config, s: LiveState, ts: int, dt: int, d: Draws)
    requires ConfigValid(c) && LiveValid(c, s) && s.state == Driving && dt > 0 && DrawsValid(d)
    requires Advance(s, dt) >= PositionTolerance && s.edge < |s.route| - 2
    ensures var r := Step(c, s, ts, dt, d);
      var stop := d.stopRoll < c.profile.pStopAtNode;
      var theft := stop && d.theftRoll < c.profile.pTheftGivenStop;
      r.live.edge == s.edge + 1 && r.live.progress == 0.0 && r.live.route == s.route &&
      (r.live.state == Idling <==> stop) &&
      (r.live.state == Driving <==> !stop) &&
      (stop ==> r.live.speed == 0.0 && StopMinSeconds <= r.live.timer <= StopMaxSeconds) &&
      (!stop ==> r.live.speed == s.speed) &&
      (r.anomaly.Some? <==> theft) &&
      r.draws == (if !stop then 1 else if theft then 4 else 3)
  {
  }

  /** The only event a tick emits is a fuel theft of this vehicle at the tick's time. */
  lemma StepAnomalyIsTheft(c: Config, s: LiveState, ts: int, dt: int, d: Draws)
    requires ConfigValid(c) && s.edge >= 0
    ensures var r := Step(c, s, ts, dt, d);
      r.anomaly.Some? ==>
        r.anomaly.value.vehicleId == c.vehicleId && r.anomaly.value.timestamp == ts &&
        r.anomaly.value.eventType == FuelTheft
  {
  }

  /** Percent of tank is monotone in the amount of fuel. */
  lemma PercentMonotone(c: Config, x: real, y: real)
    requires c.tankCapacity > 0.0 && x <= y
    ensures PercentOfTank(c, x) <= PercentOfTank(c, y)
  {
    var qx, qy := x / c.tankCapacity, y / c.tankCapacity;
    assert qx * c.tankCapacity == x && qy * c.tankCapacity == y;
    if qx > qy {
      assert (qx - qy) * c.tankCapacity > 0.0;
    }
  }

  /**
   * A theft event names the vehicle and the arrival time, takes a percentage of the tank from
   * the profile's range, and reports the fuel level before and after, the latter never higher.
   */
  lemma TheftEventReportsLoss(c: Config, s: LiveState, ts: int, d: Draws)
    requires ConfigValid(c) && 0.0 <= s.fuel <= c.tankCapacity && DrawsValid(d)
    ensures var a := HandleArrivals(c, s, ts, d);
      a.anomaly.Some? ==>
        var e := a.anomaly.value;
        var p := e.details.theftPercentage;
        e.vehicleId == c.vehicleId && e.timestamp == ts && e.eventType == FuelTheft &&
        (c.profile.theftPctMin <= c.profile.theftPctMax ==>
          c.profile.theftPctMin <= p <= c.profile.theftPctMax) &&
        e.details.litersStolen == p / 100.0 * c.tankCapacity &&
        a.live.fuel == Max(0.0, s.fuel - e.details.litersStolen) &&
        e.details.fuelPctBefore == PercentOfTank(c, s.fuel) &&
        e.details.fuelPctAfter == PercentOfTank(c, a.live.fuel) &&
        0.0 <= e.details.fuelPctAfter <= e.details.fuelPctBefore <= 100.0
  {
    var a := HandleArrivals(c, s, ts, d);
    if a.anomaly.Some? {
      var moved := s.(edge := s.edge + 1, progress := 0.0);
      var idle := moved.(state := Idling, speed := 0.0,
        timer := StopMinSeconds + d.idlePick % (StopMaxSeconds - StopMinSeconds + 1));
      assert a.live == Theft(c, idle, ts, d.pctRoll).0 && a.anomaly.value == Theft(c, idle, ts, d.pctRoll).1;
      TheftReport(c, idle, ts, d.pctRoll);
    }
  }

  /** One theft: the percentage lies in the profile's range and the reported levels only drop. */
  lemma TheftReport(c: Config, s: LiveState, ts: int, roll: real)
    requires ConfigValid(c) && 0.0 <= s.fuel <= c.tankCapacity && 0.0 <= roll <= 1.0
    ensures var (robbed, e) := Theft(c, s, ts, roll);
      var p := e.details.theftPercentage;
      (c.profile.theftPctMin <= c.profile.theftPctMax ==>
        c.profile.theftPctMin <= p <= c.profile.theftPctMax) &&
      robbed.fuel == Max(0.0, s.fuel - e.details.litersStolen) &&
      0.0 <= e.details.fuelPctAfter <= e.details.fuelPctBefore <= 100.0
  {
    var (robbed, e) := Theft(c, s, ts, roll);
    var lo, hi := c.profile.theftPctMin, c.profile.theftPctMax;
    assert e.details.theftPercentage == lo + (hi - lo) * roll;
    Arith.Between(lo, hi, roll);
    TheftTakesFuel(c, roll);
    PercentMonotone(c, robbed.fuel, s.fuel);
    PercentInRange(c, robbed.fuel);
    PercentInRange(c, s.fuel);
  }

  /**
   * On a valid state the position is always interpolated along the current edge, latitude from
   * y and longitude from x; the unswapped end-of-route branch is never taken.
   */
  lemma CoordinatesInterpolateEdge(c: Config, s: LiveState)
    requires LiveValid(c, s)
    ensures s.route == [] ==> Coordinates(s) == (0.0, 0.0)
    ensures s.route != [] ==>
      var a, b := s.route[s.edge], s.route[s.edge + 1];
      Coordinates(s) == (Lerp(a.y, b.y, s.progress), Lerp(a.x, b.x, s.progress))
  {
    if s.route != [] {
      assert Min(s.progress, 1.0) == s.progress;
    }
  }

  /** At the two ends of an edge the position is that node, as (y, x). */
  lemma CoordinatesAtNodes(c: Config, s: LiveState)
    requires LiveValid(c, s) && s.route != []
    ensures s.progress == 0.0 ==>
      Coordinates(s) == (s.route[s.edge].y as real, s.route[s.edge].x as real)
    ensures s.progress == 1.0 ==>
      Coordinates(s) == (s.route[s.edge + 1].y as real, s.route[s.edge + 1].x as real)
  {
    CoordinatesInterpolateEdge(c, s);
  }

  /** Every reading names the vehicle and the time, with a non-negative speed and 0..100 % fuel. */
  lemma ReadingInRange(c: Config, s: LiveState, ts: int, dt: int, d: Draws)
    requires ConfigValid(c) && LiveValid(c, s) && dt > 0 && DrawsValid(d)
    ensures var r := Step(c, s, ts, dt, d).reading;
      r.vehicleId == c.vehicleId && r.timestamp == ts && r.speedKph >= 0.0 &&
      0.0 <= r.fuelPercentage <= 100.0
  {
    StepPreservesValid(c, s, ts, dt, d);
    PercentInRange(c, Step(c, s, ts, dt, d).live.fuel);
  }

  /**
   * A vehicle sent down three nodes in a row at 60 kph with one-minute ticks reaches the middle
   * node on the first tick and parks at the last on the second, burning 0.25 l per km.
   */
  lemma TwoEdgeTrip(d1: Draws, d2: Draws)
    requires d1.stopRoll >= DefaultProfile.pStopAtNode
    ensures
      var c := Config("V-1", DefaultProfile, 500.0, 4.0, 20.0);
      var route := [Models.Node(0, 0), Models.Node(1, 0), Models.Node(2, 0)];
      var s0 := LiveState(Driving, 60.0, 500.0, 0, route, 0, 0.0);
      var r1 := Step(c, s0, 0, 60, d1);
      var r2 := Step(c, r1.live, 60, 60, d2);
      r1.live == LiveState(Driving, 60.0, 499.75, 0, route, 1, 0.0) && r1.anomaly == None &&
      r1.reading.latitude == 0.0 && r1.reading.longitude == 1.0 &&
      r2.live == LiveState(Parked, 0.0, 499.5, 0, route, 1, 1.0) && r2.anomaly == None &&
      r2.reading.latitude == 0.0 && r2.reading.longitude == 2.0 &&
      r2.reading.fuelPercentage == 99.9
  {
  }
}

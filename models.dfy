/**
 * The value types of the simulator (data_generator/models.py and the node alias of
 * data_generator/world.py). Readings and events are immutable snapshots.
 */
module Models {

  /** An intersection of the grid, `(x, y)`; the simulator reads x as longitude and y as latitude. */
  datatype Node = Node(x: int, y: int)

  datatype VehicleState = Driving | Idling | Parked | Refueling

  /** Per-class behaviour: stop and theft probabilities and the theft range in percent of the tank. */
  datatype BehavioralProfile = BehavioralProfile(
    pStopAtNode: real,
    pTheftGivenStop: real,
    theftPctMin: real,
    theftPctMax: real)

  /** The defaults of the dataclass: 10% stops, 5% theft per stop, 1%..15% stolen. */
  const DefaultProfile := BehavioralProfile(0.10, 0.05, 1.0, 15.0)

  /**
   * A profile whose theft range cannot add fuel. The source does not check this; the
   * vehicle invariant (fuel within the tank) needs it.
   */
  predicate ProfileValid(p: BehavioralProfile) {
    p.theftPctMin >= 0.0 && p.theftPctMax >= 0.0
  }

  /**
   * One reading per vehicle per tick. `timestamp` is the simulated time in seconds since
   * the start of the run; the ISO-8601 rendering is not modelled.
   */
  datatype TelemetryReading = TelemetryReading(
    vehicleId: string,
    timestamp: int,
    latitude: real,
    longitude: real,
    speedKph: real,
    fuelPercentage: real)

  /** The details record of a fuel theft, before rounding. */
  datatype TheftDetails = TheftDetails(
    litersStolen: real,
    fuelPctBefore: real,
    fuelPctAfter: real,
    theftPercentage: real)

  datatype AnomalyEvent = AnomalyEvent(
    vehicleId: string,
    timestamp: int,
    eventType: string,
    details: TheftDetails)

  const FuelTheft := "FUEL_THEFT"
}

# Fleet telemetry simulator and ingestion API, modelled in Dafny

The repository simulates a fleet of delivery vehicles and streams their telemetry to an HTTP API.

- **Simulator.** Vehicles drive shortest-path routes on a grid road network. They stop at intersections, burn fuel, and sometimes lose fuel to theft. Each tick, every vehicle emits a GPS/speed/fuel reading, and each theft emits an anomaly event.
- **API.** The API accepts several payload shapes and keeps the readings in memory. It drops readings whose `vehicle_id_timestamp` key it has already seen. It keeps batch counters, a window of recent payloads and a health status.

The model covers five source files:

- the grid world (`data_generator/world.py`);
- the vehicle agent (`data_generator/vehicle.py`);
- the fleet orchestrator (`data_generator/core/simulation_engine.py`);
- the in-memory ingestion service (`src/api/ingestion.py`);
- the declared payload models (`src/models/telemetry.py`).

It also models the value types of `data_generator/models.py`.

Modules, one per source file or concern:

- `Models`: the simulator's value types. `Node` is an `(x, y)` intersection. Also `VehicleState`, `BehavioralProfile`, `TelemetryReading` and `AnomalyEvent`.
- `Randomness`: the `random` module as an explicit oracle. The k-th draw reads `oracle(k)`. `random`, `randint`, `uniform`, `choice` and `sample` are methods that advance a draw counter. Every method that draws is tied to a pure function of the oracle and the counter (`SamplePicks`, `RouteSearch`, `RandomTrip`, `Lifecycle`, `Turn`, `Round`, `RunTicks`). So two runs from the same fleet with equal oracles produce equal logs, states and draw counts: that is the reproducibility a fixed seed gives.
- `Grid`: the `GridWorld`.
  - Construction and its three validation errors.
  - Station placement by sampling without replacement.
  - The bounded-retry random route.
  - The nearest-station query.

  Every road weighs 1 km. A shortest path is therefore stated as a walk along roads whose edge count equals the Manhattan distance of its ends. A lemma shows no walk is shorter.
- `Vehicle`: the vehicle agent.
  - `Step` is the tick as a pure function of the agent's live fields. It follows the source's fixed order: idle countdown, physics, fuel, arrivals, reading.
  - The class `VehicleAgent` performs the tick field by field through the same helper methods as the source. It is proved to agree with `Step` and to keep the agent's invariant.
- `FleetIds`: the vehicle id `"V-" + NAME + "-" + nnn` and the proof that different fleet positions never share an id.
- `Engine`: the `SimulationEngine`.
  - Fleet creation, the parked-vehicle life cycle and the tick loop with its batch buffer.
  - A `StreamSink` class that stands in for the HTTP stream handler. It says yes or no to each batch post.
  - `Flush`, `RoundsDelivery` and `Deliver`: the batch buffer as a pure fold over the run's rounds. After each round a non-empty buffer of at least `batch_size` readings is posted once and cleared only when the post succeeds; at the end a leftover buffer is posted once more. The run methods are proved to hand the sink exactly the batches and posts of `Deliver`.
  - The fleet status summary.
- `Ingestion`: the in-memory ingestion service.
  - JSON values (`Json`).
  - Format detection and field defaults.
  - Order-preserving duplicate filtering.
  - The counters, the 5-entry window, the health decision and the reset.

  The module-level store and metadata become the class `IngestionService`. Its `Ingest` method is proved equal to the pure `IngestStep`.
- `TelemetryModels`: the declared reading, batch, payload, anomaly and KPI models as validity predicates, plus the unified payload's precedence.
- `Wire`: what crosses from simulator to API. It shows that the API recovers a streamed batch exactly, in order. It also shows that one simulation run never produces two readings with the same duplicate key.

Python's `float()` and `str()` of JSON values are the parameters `PyText(parseFloat, render)`. Only `str()` of a string being that string is assumed of them (`PyTextValid`). Clock readings are integer seconds passed in as parameters. Simulated timestamps are seconds since the start of the run, and their ISO-8601 rendering is a parameter `stamp`.

## Model

| member | source | states |
|---|---|---|
| Randomness.RandomSource.RealAt | data_generator/vehicle.py:178 | a `random()` draw lies in [0, 1) |
| Randomness.RealOf | data_generator/vehicle.py:178 | the k-th draw read as `random()` lies in [0, 1) |
| Randomness.PickBelow | data_generator/world.py:101 | the index a draw selects from n live entries is below n |
| Randomness.RandomSource.Random | data_generator/vehicle.py:198 | returns the value of the next draw and consumes exactly one draw |
| Randomness.RandomSource.RandBelow | data_generator/vehicle.py:193 | the next draw reduced below n; one draw |
| Randomness.RandomSource.RandInt | data_generator/vehicle.py:193 | `randint(a, b)` lies in [a, b] and consumes one draw |
| Randomness.RandomSource.Uniform | data_generator/vehicle.py:236 | `uniform(a, b)` is a + (b - a) * random() for the next draw |
| Randomness.RandomSource.Choice | data_generator/core/simulation_engine.py:100-101 | picks an element of the non-empty node list with one draw |
| Randomness.RandomSource.Sample | data_generator/world.py:74-79 | fails, taking no draw, exactly when more picks than elements are asked; otherwise returns exactly `SamplePicks` for the next k draws and takes k draws |
| Randomness.SampleAfter | data_generator/world.py:101 | after i picks there are i picks and the pool keeps the population's length |
| Randomness.SampleAfterNone | data_generator/world.py:101 | before the first pick nothing is picked and the pool is the population |
| Randomness.SampleAfterNext | data_generator/world.py:101 | pick i takes the pool entry its draw selects among the live entries and moves the last live entry into its place |
| Randomness.SampleAfterKeepsPopulation | data_generator/world.py:101 | picks and live pool together are always the population as a multiset: nothing is picked twice |
| Randomness.SamplePicksFromPopulation | data_generator/world.py:101 | a sample of k has k elements and is a sub-multiset of the population |
| Grid.NewGridWorld | data_generator/world.py:24-59 | the three errors in the source's order and messages; success exactly for positive sizes and 0 <= stations <= nodes; then exactly the requested number of distinct in-grid stations |
| Grid.GridNodes | data_generator/world.py:61-72 | the graph has width * height nodes |
| Grid.Columns | data_generator/world.py:61-72 | the first n columns of height h list n * h nodes |
| Grid.ColumnsIndex | data_generator/world.py:61-72 | node (x, y) is listed at index x * h + y |
| Grid.ColumnsInRange | data_generator/world.py:61-72 | every listed node lies within the first n columns and the height |
| Grid.ColumnsDistinct | data_generator/world.py:61-72 | no node is listed twice |
| Grid.GridNodesAreTheGrid | data_generator/world.py:61-72 | the graph's nodes are exactly the (x, y) with 0 <= x < width, 0 <= y < height, each listed once |
| Grid.NeighboursAreEdges | data_generator/world.py:61-72 | roads join exactly the in-grid nodes at Manhattan distance 1; an interior node has four |
| Grid.SampleOfDistinctIsDistinct | data_generator/world.py:74-79 | a sample without replacement from distinct nodes is distinct and drawn from them |
| Grid.DistinctCountsAtMostOne | data_generator/world.py:74-79 | each node occurs at most once in a list of distinct nodes |
| Grid.WalkAtLeastDistance | data_generator/world.py:103-104 | no walk along roads is shorter than the Manhattan distance of its ends |
| Grid.ShortestPathIsMinimal | data_generator/world.py:103-104 | a shortest path is no longer than any walk between the same ends |
| Grid.StepToward | data_generator/world.py:104 | one road step that brings the walk one unit closer to the target |
| Grid.ShortestPath | data_generator/world.py:104 | a walk from a to b whose edge count is their Manhattan distance, within their bounding box |
| Grid.ShortestPathInGrid | data_generator/world.py:104 | between grid nodes that walk is a shortest path of the grid |
| Grid.AttemptPairShape | data_generator/world.py:101-104 | every attempt samples two distinct grid nodes, so its route has at least two nodes |
| Grid.FirstLongEnough | data_generator/world.py:100-107 | the first attempt from a on whose route is long enough, every earlier one too short; 10 when none is |
| Grid.RouteSearch | data_generator/world.py:81-111 | the sample error exactly on a grid under two nodes, with no draw taken; `NotFound` after all 20 draws of ten attempts; never more than 20 draws |
| Grid.RouteSearchNotFound | data_generator/world.py:100-111 | on a grid of two or more nodes nothing is found exactly when all ten sampled pairs are too close |
| Grid.RouteSearchTakesFirstLongEnough | data_generator/world.py:100-107 | the first long-enough attempt b wins: its pair's shortest path, after 2(b + 1) draws |
| Grid.RouteSearchRouteShape | data_generator/world.py:101-107 | a found route has at least `min_distance` and two nodes, distinct ends, and is a shortest path between them |
| Grid.CornerToCornerRoute | data_generator/world.py:97-107 | under the model's pool sample (not CPython's set-based sample for populations over 21), on the 10 x 10 grid draws 0, 0 sample (0, 0) then (9, 9), and the first attempt returns their 19-node route after two draws |
| Grid.GetRandomRoute | data_generator/world.py:81-111 | the outcome and the draws taken are exactly those of `RouteSearch` for the source's draws |
| Grid.FirstNearest | data_generator/world.py:132-138 | Python's `min` by distance: a station no other beats, strictly closer than every earlier one |
| Grid.FindNearestRefuelingStation | data_generator/world.py:113-143 | fails without stations (or for a start off the grid); otherwise a listed station of minimum distance, the first such in list order, and a shortest path from the start to it |
| Grid.StationStartGivesSingleNodeRoute | data_generator/world.py:132-143 | from a station the answer is that station and the one-node route |
| Vehicle.PercentInRange | data_generator/vehicle.py:46-49 | fuel within the tank is 0..100 %, a full tank 100 % |
| Vehicle.PercentMonotone | data_generator/vehicle.py:46-49 | the fuel percentage grows with the fuel |
| Vehicle.LowFuelInLiters | data_generator/vehicle.py:51-53 | the percentage is at most the threshold exactly when litres * 100 <= threshold * capacity |
| Vehicle.DrawsOf | data_generator/vehicle.py:178-198 | the draws a tick reads from the source are valid probabilities |
| Vehicle.VehicleAgent.constructor | data_generator/vehicle.py:17-44 | a new agent is parked, speed 0, full tank, no route, edge 0, progress 0 |
| Vehicle.VehicleAgent.FuelPercentage | data_generator/vehicle.py:46-49 | the percentage of a valid agent is in [0, 100] |
| Vehicle.VehicleAgent.NeedsRefueling | data_generator/vehicle.py:51-53 | true exactly when the litres on board are at most the threshold's share of the tank |
| Vehicle.VehicleAgent.AssignNewTrip | data_generator/vehicle.py:55-70 | under two nodes: parked, speed 0, empty route; otherwise driving the route from edge 0, progress 0, timer 0, at the given speed; nothing else changes |
| Vehicle.VehicleAgent.Refuel | data_generator/vehicle.py:72-77 | full tank (100 %), parked, speed 0, nothing else changes |
| Vehicle.VehicleAgent.Tick | data_generator/vehicle.py:79-120 | rejects a non-positive step and changes nothing; otherwise the new fields, reading, event and draws are those of `Step`, and the invariant holds |
| Vehicle.VehicleAgent.ApplyDrivingPhysics | data_generator/vehicle.py:122-139 | without an active route: parked, no distance; otherwise distance speed * dt / 3600 and progress clamped to 1 |
| Vehicle.VehicleAgent.ApplyStationaryPhysics | data_generator/vehicle.py:141-143 | only the speed changes, to 0 |
| Vehicle.VehicleAgent.UpdateFuelConsumption | data_generator/vehicle.py:145-158 | the fuel burn of `BurnFuel`: km / mileage when driving, 0.8 l/h idling, floored at 0 |
| Vehicle.VehicleAgent.CheckAndHandleArrivals | data_generator/vehicle.py:160-170 | the arrival outcome of `HandleArrivals` for the draws it takes |
| Vehicle.VehicleAgent.HandleIntermediateArrival | data_generator/vehicle.py:172-182 | advances an edge, then samples the stop; same outcome as `HandleArrivals` |
| Vehicle.VehicleAgent.AdvanceToNextEdge | data_generator/vehicle.py:184-187 | edge + 1, progress 0, nothing else |
| Vehicle.VehicleAgent.InitiateStop | data_generator/vehicle.py:189-201 | idling, speed 0, timer 120..600 from one draw; a theft exactly when the next draw is below p_theft_given_stop |
| Vehicle.VehicleAgent.ResumeDriving | data_generator/vehicle.py:203-207 | driving at 60 kph, nothing else |
| Vehicle.VehicleAgent.CompleteTrip | data_generator/vehicle.py:209-213 | parked with speed 0, nothing else |
| Vehicle.VehicleAgent.StopVehicle | data_generator/vehicle.py:215-219 | parked with speed 0, nothing else |
| Vehicle.VehicleAgent.PerformFuelTheft | data_generator/vehicle.py:234-255 | the fuel and the event of `Theft` for one `uniform` draw |
| Vehicle.TheftTakesFuel | data_generator/vehicle.py:236-237 | a theft percentage from a valid profile is non-negative, so theft never adds fuel |
| Vehicle.Lerp | data_generator/vehicle.py:272-275 | interpolation gives the start node at progress 0 and the end node at 1 |
| Vehicle.StepPreservesValid | data_generator/vehicle.py:79-120 | `Step`, the pure tick, keeps fuel in [0, capacity], progress in [0, 1], edge <= len(route) - 2, idling with time left, stationary at speed 0; it keeps the route and moves at most one edge |
| Vehicle.StagesPreserveValid | data_generator/vehicle.py:94-158 | the countdown, the physics and the fuel burn keep the invariant, the route and the edge |
| Vehicle.ArrivalsPreserveValid | data_generator/vehicle.py:160-201 | handling arrivals keeps the invariant and the route and moves the edge by at most one |
| Vehicle.DistanceNonNeg | data_generator/vehicle.py:129-130 | the distance of a tick is non-negative |
| Vehicle.StepNeverAddsFuel | data_generator/vehicle.py:145-158 | a tick never increases the fuel |
| Vehicle.ParkedIsFixedPoint | data_generator/vehicle.py:104-110 | a parked vehicle does not move, burn fuel, draw or emit, and reports speed 0 |
| Vehicle.IdleCountsDown | data_generator/vehicle.py:97-100 | an idling vehicle with time left only counts down and burns 0.8 l/h |
| Vehicle.IdleExpiryResumesAndDrives | data_generator/vehicle.py:97-105 | when the timer runs out the vehicle resumes at 60 kph and drives in that same tick |
| Vehicle.DrivingAlongEdge | data_generator/vehicle.py:122-158 | short of the next node a driver advances by speed * dt / 3600 and burns km / mileage, with no draw and no event |
| Vehicle.LastNodeParks | data_generator/vehicle.py:160-168 | reaching the last node parks the vehicle on its last edge |
| Vehicle.IntermediateNodeArrival | data_generator/vehicle.py:172-201 | at an intermediate node the edge advances first; stop exactly on a stop draw, with a 120..600 s timer; theft only after a stop; 1, 3 or 4 draws |
| Vehicle.StepAnomalyIsTheft | data_generator/vehicle.py:245-249 | the only event a tick emits is a fuel theft of this vehicle at this time |
| Vehicle.TheftEventReportsLoss | data_generator/vehicle.py:234-255 | a theft takes pct / 100 * capacity with pct in the profile's range; the event reports before and after percentages, after <= before |
| Vehicle.TheftReport | data_generator/vehicle.py:234-255 | the stolen percentage lies in the profile's range, the tank loses exactly the stolen litres (never below empty) and 0 <= after <= before <= 100 |
| Vehicle.CoordinatesInterpolateEdge | data_generator/vehicle.py:257-277 | on a valid agent `Coordinates` is always the (y, x) interpolation along the current edge; the end-of-route branch is never reached |
| Vehicle.CoordinatesAtNodes | data_generator/vehicle.py:266-277 | at progress 0 and 1 `Coordinates` is the edge's start and end node, as (y, x) |
| Vehicle.ReadingInRange | data_generator/vehicle.py:279-290 | every reading `Step` emits names the vehicle and time, with speed >= 0 and fuel in 0..100 % |
| Vehicle.VehicleAgent.CreateTelemetryReading | data_generator/vehicle.py:279-290 | the reading names this vehicle and time, reports its speed (>= 0) and fuel percentage (0..100), and its position interpolated along the current edge as (y, x), (0, 0) without a route |
| Vehicle.TwoEdgeTrip | data_generator/vehicle.py:79-187 | route (0,0),(1,0),(2,0) at 60 kph, 60 s ticks: tick 1 reaches node (1,0) and moves to edge 1; tick 2 parks at (2,0); 0.25 l per km |
| FleetIds.Decimal | data_generator/core/simulation_engine.py:78 | a non-empty string of digits |
| FleetIds.ZeroPad3 | data_generator/core/simulation_engine.py:78 | `:03d` gives at least three digits |
| FleetIds.DecimalRoundTrip | data_generator/core/simulation_engine.py:78 | the numeral parses back to its number |
| FleetIds.ZeroPad3RoundTrip | data_generator/core/simulation_engine.py:78 | the padded numeral parses back to its number |
| FleetIds.AsciiUpper | data_generator/core/simulation_engine.py:78 | same length, no lower-case letter left, other characters kept |
| FleetIds.VehicleIdsDistinct | data_generator/core/simulation_engine.py:73-86 | different fleet positions get different ids, whatever the profile names |
| FleetIds.VehicleIdExamples | data_generator/core/simulation_engine.py:78 | vehicle 3 of "normal" is V-NORMAL-003, vehicle 1000 is V-NORMAL-1000 |
| Engine.StreamSink.TestConnection | data_generator/core/stream_handler.py:44-71 | the probe reports whether the API is reachable |
| Engine.StreamSink.SendBatch | data_generator/core/stream_handler.py:73-149 | an empty batch succeeds without a post; otherwise one post, whose verdict decides, and an accepted batch is recorded |
| Engine.StreamSink.SendAnomaly | data_generator/core/stream_handler.py:151-180 | the event is recorded, batches untouched |
| Engine.FlattenAppend | data_generator/core/simulation_engine.py:262-266 | flattening one more batch appends its readings |
| Engine.MinTripNodes | data_generator/core/simulation_engine.py:132 | `min(5, int(0.1 R))` is between 0 and 5 and at most a tenth of the range |
| Engine.TripWithinFuel | data_generator/core/simulation_engine.py:124-141 | an accepted route burns at most 90 % of the fuel on board |
| Engine.RefuelTripGoesToNearestStation | data_generator/core/simulation_engine.py:92-119 | no refuel trip exactly when there is no station, the start is off the grid or is a station; otherwise a shortest path of two or more nodes to a nearest station |
| Engine.StrandedAtStation | data_generator/core/simulation_engine.py:96-112 | a vehicle whose route ends at a station gets no refuel trip, and since `refuel` is never called it stays low on fuel |
| Engine.TripSearches | data_generator/core/simulation_engine.py:131-159 | n route searches, each starting where the one before stopped, none before the first draw |
| Engine.TripSearchesNext | data_generator/core/simulation_engine.py:131-159 | attempt n is the route search that starts where the first n - 1 attempts stopped |
| Engine.TripSearchesAt | data_generator/core/simulation_engine.py:131-159 | attempt t is the whole `get_random_route` search that starts where attempt t - 1 stopped |
| Engine.TripSearchesShape | data_generator/core/simulation_engine.py:131-159 | every route the searches find is a long-enough shortest path between distinct grid nodes |
| Engine.FirstFit | data_generator/core/simulation_engine.py:135-157 | a trip it assigns is the route of a search that fits the range |
| Engine.FirstFitNone | data_generator/core/simulation_engine.py:135-159 | nothing is assigned exactly when no remaining search fits |
| Engine.FirstFitTakesFirst | data_generator/core/simulation_engine.py:135-157 | the first search that fits is assigned, with the draws up to its end |
| Engine.FirstFitNextAtLeast | data_generator/core/simulation_engine.py:135-159 | the search never ends before a draw that every attempt ends at or after |
| Engine.FirstFitNoneNext | data_generator/core/simulation_engine.py:135-159 | when nothing fits, the draws run to the end of the last attempt |
| Engine.TripRange | data_generator/core/simulation_engine.py:124-130 | the range of a valid vehicle is non-negative |
| Engine.RandomTripSearches | data_generator/core/simulation_engine.py:131-135 | a random-trip assignment makes 20 route searches |
| Engine.RandomTrip | data_generator/core/simulation_engine.py:121-159 | an assigned trip is a shortest path of at least `MinTripNodes` nodes within 90 % of the fuel range; draws never go back |
| Engine.FoundTripShape | data_generator/core/simulation_engine.py:121-159 | the route the first fit picks is a valid random trip for the vehicle |
| Engine.RandomTripNone | data_generator/core/simulation_engine.py:135-159 | nothing is assigned exactly when none of the 20 searches yields a route in range; the draws then run to the end of the 20th |
| Engine.RandomTripFirstFit | data_generator/core/simulation_engine.py:135-157 | the first attempt whose route fits is assigned, with the draws up to and including its own |
| Engine.FullTankCornerTrip | data_generator/core/simulation_engine.py:121-159 | under the model's pool sample, a new vehicle (500 l, 4 km/l) on the 10 x 10 grid with draws 0, 0 gets the 19-node trip (0, 0) to (9, 9) after two draws |
| Engine.Lifecycle | data_generator/core/simulation_engine.py:161-178 | the new state is valid and the draws never go back |
| Engine.LifecycleOutcome | data_generator/core/simulation_engine.py:161-178 | a vehicle on the move is untouched with no draw; a parked one low on fuel stays or drives a shortest path to a nearest station; any other parked one stays or gets a valid random trip |
| Engine.Turn | data_generator/core/simulation_engine.py:241-260 | after the life cycle and the tick the state is valid; the reading is the vehicle's at that time and in range; an event is that vehicle's fuel theft at that time |
| Engine.CfgIds | data_generator/core/simulation_engine.py:241-251 | entry i is the id of configuration i |
| Engine.RoundUpTo | data_generator/core/simulation_engine.py:240-260 | after n turns of a round the fleet is valid and there are n readings |
| Engine.RoundUpToNone | data_generator/core/simulation_engine.py:240-260 | before the first turn nothing has changed |
| Engine.RoundUpToNext | data_generator/core/simulation_engine.py:240-260 | turn n + 1 is vehicle n's `Turn` from the state the first n turns left; only its entry changes |
| Engine.RoundUpToFacts | data_generator/core/simulation_engine.py:240-260 | after n turns the later vehicles are untouched, reading k is vehicle k's at the round's time, every event a fleet theft |
| Engine.Round | data_generator/core/simulation_engine.py:240-260 | a whole round: one in-range reading per vehicle in fleet order at the round's time, every event a fleet theft, the fleet valid |
| Engine.RunTicks | data_generator/core/simulation_engine.py:237-266 | after n rounds the fleet is valid and there are n readings per vehicle |
| Engine.RunTicksNone | data_generator/core/simulation_engine.py:237-266 | a run of no rounds changes nothing |
| Engine.RunTicksNext | data_generator/core/simulation_engine.py:237-266 | round k + 1 is a whole `Round` at time k * step from where the first k left off |
| Engine.RunTicksLogs | data_generator/core/simulation_engine.py:237-266 | a run's reading k is vehicle k mod n's at tick k div n, in range; every event is a fleet theft |
| Engine.ReadingLogAppendRound | data_generator/core/simulation_engine.py:237-266 | appending a full round to a log of whole rounds keeps the tick-major order |
| Engine.NewMember | data_generator/core/simulation_engine.py:73-86 | member i: profile i mod k, id `VehicleId(name, i)`, default tank, mileage and threshold, parked with a full tank |
| Engine.IdsOf | data_generator/core/simulation_engine.py:73-86 | entry i is the id of vehicle i |
| Engine.Snapshots | data_generator/core/simulation_engine.py:237-260 | entry i is the state of vehicle i |
| Engine.CfgsOf | data_generator/core/simulation_engine.py:73-86 | entry i is the configuration of vehicle i |
| Engine.FlushIfFull | data_generator/core/simulation_engine.py:262-266 | exactly `Flush` on the buffer: a non-empty buffer of at least `batch_size` costs one post and is emptied exactly when that post's verdict is success; a smaller buffer is not posted and stays; no reading is lost or duplicated |
| Engine.PostLeftover | data_generator/core/simulation_engine.py:288-290 | a non-empty leftover costs exactly one post whatever the verdict, its readings are accepted exactly when that post succeeds, and an empty leftover is not posted |
| Engine.Flush | data_generator/core/simulation_engine.py:262-266 | the flush rule keeps every reading exactly once (accepted batches then buffer) and each accepted batch cost a post |
| Engine.FlushShift | data_generator/core/simulation_engine.py:262-266 | the flush does not depend on the batches accepted earlier |
| Engine.FlushKeeps | data_generator/core/simulation_engine.py:262 | a buffer below `batch_size`, or an empty one, is not posted and stays as it is |
| Engine.FlushAccepted | data_generator/core/simulation_engine.py:262-266 | a non-empty buffer of at least `batch_size` whose post succeeds becomes the next accepted batch, the buffer is cleared and one post is counted |
| Engine.RoundsLengthIsProduct | data_generator/core/simulation_engine.py:221 | k rounds of n readings hold k * n readings |
| Engine.RoundsDeliveryStep | data_generator/core/simulation_engine.py:248-266 | round k joins the buffer left by the first k - 1 rounds and the flush follows |
| Engine.DeliverIsFinalPost | data_generator/core/simulation_engine.py:288-290 | a run delivers what its rounds deliver, then whatever the single final post of the leftover adds |
| Engine.RoundsDeliveryConserves | data_generator/core/simulation_engine.py:248-266 | after k rounds the accepted batches followed by the buffer are exactly the first k rounds' readings, and there were at least as many posts as accepted batches |
| Engine.RoundsDeliveryPrefix | data_generator/core/simulation_engine.py:248-266 | what k rounds deliver depends only on those rounds' readings |
| Engine.RoundsDeliveryNone | data_generator/core/simulation_engine.py:233 | before the first round nothing is posted or buffered |
| Engine.RoundsDeliveryNext | data_generator/core/simulation_engine.py:248-266 | round k + 1 appends its readings to the buffer left by the first k rounds, then flushes |
| Engine.NothingPostedBelowBatchSize | data_generator/core/simulation_engine.py:262 | while fewer than `batch_size` readings have been produced nothing is posted and everything is buffered |
| Engine.RoundsDeliveryAllAccepted | data_generator/core/simulation_engine.py:262-266 | when every post succeeds: one post per accepted batch, every batch non-empty with at least `batch_size` readings, and the buffer below `batch_size` |
| Engine.DeliverAllAccepted | data_generator/core/simulation_engine.py:262-290 | when every post succeeds a run delivers its whole log in order, in non-empty batches of which all but the last hold at least `batch_size` readings, one post per batch |
| Engine.EveryRoundIsABatch | data_generator/core/simulation_engine.py:262-266 | when every post succeeds and `batch_size` is at most the fleet size, each round is posted as its own batch of n readings and nothing stays buffered |
| Engine.DeliveredAfterNone | data_generator/core/simulation_engine.py:233 | before the first round the sink has nothing new and the buffer is empty |
| Engine.DeliveredAfterNext | data_generator/core/simulation_engine.py:237-266 | one more round and its flush keep the sink's accepted batches, post count and buffer equal to `RoundsDelivery`'s |
| Engine.DeliveredRun | data_generator/core/simulation_engine.py:288-290 | after the last round, the final post makes the sink's batches and posts those of `Deliver` |
| Engine.CountState | data_generator/core/simulation_engine.py:350-355 | a state count is at most the fleet size |
| Engine.CountLowFuel | data_generator/core/simulation_engine.py:357-360 | the low-fuel count is at most the fleet size |
| Engine.SumFuelPct | data_generator/core/simulation_engine.py:358 | the fuel total is between 0 and 100 per vehicle |
| Engine.PrefixStep | data_generator/core/simulation_engine.py:350-360 | extending a fleet prefix by one vehicle adds it to each state count, the low-fuel count and the fuel total |
| Engine.StateCountsCoverFleet | data_generator/core/simulation_engine.py:350-355 | the four state counts sum to the fleet size |
| Engine.TallyCounts | data_generator/core/simulation_engine.py:350-355 | the per-state counts built vehicle by vehicle hold exactly the states present, each with its number of vehicles |
| Engine.AverageInRange | data_generator/core/simulation_engine.py:362 | the average fuel percentage is in [0, 100] |
| Engine.SimulationEngine.constructor | data_generator/core/simulation_engine.py:28-38 | an engine starts with no vehicles and empty logs |
| Engine.SimulationEngine.CreateVehicleFleet | data_generator/core/simulation_engine.py:51-90 | both errors, in order, leaving the fleet alone; otherwise a new fleet of exactly n fresh agents, member i configured by `MemberConfig` |
| Engine.SimulationEngine.NewFleet | data_generator/core/simulation_engine.py:73-86 | n fresh, pairwise distinct, valid agents; member i configured by `MemberConfig` and parked with a full tank |
| Engine.SimulationEngine.AssignRefuelingTrip | data_generator/core/simulation_engine.py:92-119 | succeeds exactly when `RefuelTrip` has a route, which is then driven at 60 kph; a random start costs one draw |
| Engine.SimulationEngine.AssignRandomTrip | data_generator/core/simulation_engine.py:121-159 | succeeds exactly when `RandomTrip` for the source's draws finds a route, which is then driven at 60 kph; otherwise the vehicle is unchanged; the draws taken are `RandomTrip`'s |
| Engine.SimulationEngine.ManageLifecycle | data_generator/core/simulation_engine.py:161-178 | the new state and the draws taken are exactly `Lifecycle`'s for the source's draws |
| Engine.SimulationEngine.TakeTurn | data_generator/core/simulation_engine.py:241-252 | the new state, reading, event and draws are exactly `Turn`'s |
| Engine.SimulationEngine.TickVehicle | data_generator/core/simulation_engine.py:241-260 | vehicle i takes its `Turn`; only its state changes; the reading is appended to the log, a theft to the anomaly log and the sink; no batch is sent |
| Engine.SimulationEngine.TickFleet | data_generator/core/simulation_engine.py:240-260 | every vehicle takes its turn in fleet order: states, readings, events and draws are those of `Round` |
| Engine.SimulationEngine.TurnInRound | data_generator/core/simulation_engine.py:240-260 | turn i moves the engine from `RoundUpTo` i to `RoundUpTo` i + 1 |
| Engine.SimulationEngine.TickRound | data_generator/core/simulation_engine.py:237-266 | a whole `Round` at the tick's time, then `Flush` on the old buffer plus the round's readings: posted once iff it holds at least `batch_size` readings (and any), cleared exactly on an accepted post; the log still equals the delivered batches plus the buffer |
| Engine.SimulationEngine.FleetOfValid | data_generator/core/simulation_engine.py:28-38 | a valid engine's world and fleet are valid |
| Engine.SimulationEngine.RunRounds | data_generator/core/simulation_engine.py:233-266 | `total` rounds on cleared logs: logs, states and draws are those of `RunTicks`, thefts streamed in order; the batches the sink accepts, its post count and the buffer left are those of `RoundsDelivery` over the log (`DeliveredAfter`) |
| Engine.SimulationEngine.IdsAreConfigIds | data_generator/core/simulation_engine.py:73-86 | a fleet's ids are its configurations' ids |
| Engine.SimulationEngine.RunSimulation | data_generator/core/simulation_engine.py:180-304 | the five errors in order with nothing logged, drawn, posted or sent; success exactly when every check passes; then logs, states and draws are `RunTicks` over (duration * 60) div step rounds, reading k is vehicle k mod n's at tick k div n, every anomaly a fleet theft streamed in order, and the sink's accepted batches and post count are those of `Deliver` over the log (the per-round flushes, then one final post of the leftover) |
| Engine.SimulationEngine.RunValidated | data_generator/core/simulation_engine.py:217-291 | once the checks have passed: clears the logs, runs `RunTicks`, flushes after each round and posts the leftover once; accepted batches and posts are those of `Deliver` |
| Engine.SimulationEngine.GetFleetStatus | data_generator/core/simulation_engine.py:342-375 | empty fleet: size 0 and the message; otherwise the size, a count for exactly the states present, the average fuel in [0, 100], the low-fuel count and the log sizes |
| Ingestion.Normalize | src/api/ingestion.py:62-69 | an element becomes a reading exactly when it is an object whose numeric fields all convert; missing fields default |
| Ingestion.NormalizeDefaults | src/api/ingestion.py:62-69 | the empty object gives ("UNKNOWN", "", 0, 0, 0, 0); present numeric fields are kept |
| Ingestion.Extract | src/api/ingestion.py:46-135 | the format precedence telemetry_data+batch_size, readings, array, vehicle_id+timestamp, else unknown; unknown and error carry no readings; a scalar or string payload fails |
| Ingestion.FromElementsFails | src/api/ingestion.py:56-110 | a list branch fails exactly when the list is missing or one element cannot be normalised |
| Ingestion.ExtractFailsExactly | src/api/ingestion.py:46-135 | per branch: a list format fails exactly when an element cannot be normalised, a bare array also when it holds a key string, a single reading exactly when the payload cannot be normalised; the single reading is the normalised payload |
| Ingestion.ExtractKeepsOrder | src/api/ingestion.py:56-110 | the list formats give one reading per element, in order, each the element normalised |
| Ingestion.NormalizeItems | src/api/ingestion.py:60-70 | the per-element loop yields every element normalised, or fails as a whole |
| Ingestion.ReadElements | src/api/ingestion.py:56-110 | a list branch's outcome: the readings under the branch's format, or the error outcome |
| Ingestion.ExtractTelemetryReadings | src/api/ingestion.py:46-135 | the extractor run step by step agrees with `Extract` |
| Ingestion.Firsts | src/api/ingestion.py:138-158 | the filter keeps at most the batch |
| Ingestion.FirstsNext | src/api/ingestion.py:145-156 | reading i is kept after the first i exactly when its key is neither stored nor the key of an earlier reading |
| Ingestion.FirstsKeys | src/api/ingestion.py:138-158 | kept readings have pairwise distinct keys, none already stored, together exactly the batch's unseen keys |
| Ingestion.FirstsOfSeen | src/api/ingestion.py:138-158 | a batch of already stored keys is all duplicates |
| Ingestion.FirstsOfFresh | src/api/ingestion.py:138-158 | a batch of distinct unseen keys is kept whole, in order |
| Ingestion.KeysAppend | src/api/ingestion.py:145-150 | the keys of a list with one more reading gain that reading's key |
| Ingestion.KeysOfConcat | src/api/ingestion.py:145-150 | the keys of two lists together are the union of their keys |
| Ingestion.DistinctAppend | src/api/ingestion.py:138-192 | appending readings with distinct, unseen keys keeps all keys distinct |
| Ingestion.KeyCollision | src/api/ingestion.py:145-150 | ("V_1", "T") and ("V", "1_T") share a key, so the second is dropped as a duplicate |
| Ingestion.Window | src/api/ingestion.py:229-236 | the window keeps at most 5 entries, ends with the new one and drops the oldest first |
| Ingestion.CountBatch | src/api/ingestion.py:267-274 | one more batch, counted under exactly one format counter, nothing else changed |
| Ingestion.Enhance | src/api/ingestion.py:169-182 | one stored entry per reading, in order, with the format, time, batch id and batch timestamp |
| Ingestion.ReadingsOf | src/api/ingestion.py:169-182 | entry i is the reading of stored entry i |
| Ingestion.ProcessKeepsKeysDistinct | src/api/ingestion.py:161-192 | `Process` storing the kept readings leaves all stored keys distinct |
| Ingestion.IngestPreservesConsistent | src/api/ingestion.py:195-337 | every request (`IngestStep`) keeps the window at 5 or fewer, batches equal to the format counters' sum, readings equal to the store size, stored keys distinct |
| Ingestion.IngestAccounting | src/api/ingestion.py:245-321 | through `IngestStep` and `Admit`: batches move exactly when readings were extracted; processed + duplicates = extracted; the store grows by exactly the kept readings, in order; errors unchanged |
| Ingestion.IngestAppendsKept | src/api/ingestion.py:276-321 | a request stores, after what was there, exactly the readings the duplicate filter keeps |
| Ingestion.RedeliveryIsAllDuplicates | src/api/ingestion.py:276-292 | re-sending a payload stores nothing and reports every reading as a duplicate |
| Ingestion.IngestStoresKeys | src/api/ingestion.py:276-292 | after a payload is ingested the store holds the key of every reading extracted from it |
| Ingestion.AllSeenAreDuplicates | src/api/ingestion.py:276-292 | a payload whose keys are all stored stores nothing and reports every reading as a duplicate |
| Ingestion.HealthStatus | src/api/ingestion.py:440-453 | degraded iff errors > 10; waiting iff not degraded and no batch; healthy iff batches and a batch under 300 s ago; stale otherwise |
| Ingestion.HealthyAfterStoredBatch | src/api/ingestion.py:440-453 | right after readings are stored the service is healthy unless degraded |
| Ingestion.DegradedUntilCleared | src/api/ingestion.py:323-337 | no request lowers the error counter, so degraded persists until a reset |
| Ingestion.Cleared | src/api/ingestion.py:483-500 | the reset state is the initial state with the old start time |
| Ingestion.ClearedIsWaiting | src/api/ingestion.py:483-500 | after a reset the service is consistent and waiting, start time kept |
| Ingestion.IngestionService.constructor | src/api/ingestion.py:21-33 | an empty store, zero counters, no last batch, an empty window |
| Ingestion.IngestionService.RecordPayload | src/api/ingestion.py:229-236 | only the window changes, as `Window` says |
| Ingestion.IngestionService.CheckDuplicates | src/api/ingestion.py:138-158 | the filter loop keeps exactly `Firsts` of the stored keys; kept + duplicates = batch size |
| Ingestion.IngestionService.ProcessTelemetry | src/api/ingestion.py:161-192 | the store grows by the enhanced readings in order, the reading counter by their number, the last-batch time is set |
| Ingestion.IngestionService.Ingest | src/api/ingestion.py:195-337 | state and response are those of `IngestStep`, and the service stays consistent |
| Ingestion.IngestionService.IngestPayload | src/api/ingestion.py:229-321 | a decoded payload is handled as `IngestStep` says |
| Ingestion.IngestionService.AdmitReadings | src/api/ingestion.py:276-321 | duplicates counted, the rest stored, response as `Admit` says |
| Ingestion.IngestionService.CountBatchOf | src/api/ingestion.py:267-274 | the counters change as `CountBatch` says |
| Ingestion.IngestionService.Health | src/api/ingestion.py:426-472 | the status is `HealthStatus` of the current state |
| Ingestion.IngestionService.Clear | src/api/ingestion.py:475-508 | reports the removed count and leaves the reset state, start time kept |
| TelemetryModels.ReplaceZ | src/models/telemetry.py:19-29 | every 'Z' is replaced; a string without one is unchanged |
| TelemetryModels.ReplaceZSuffix | src/models/telemetry.py:19-29 | a trailing 'Z' becomes "+00:00" |
| TelemetryModels.ReadingExample | src/models/telemetry.py:10-42 | `FieldsInRange` and `ReadingValid` accept the documented reading whenever its time parses; latitude 90.5, longitude -180.5, speed -1 or fuel 100.1 is out of range |
| TelemetryModels.FormatMatchesReadings | src/models/telemetry.py:130-148 | `GetFormatType` is "unknown" iff `GetTelemetryReadings` fails; "simulation_engine" iff telemetry_data is returned (even beside readings); "legacy" iff readings is |
| TelemetryModels.EnginePayloadAsUnified | src/models/telemetry.py:65-148 | a valid SimulationEngine payload read as unified is valid, of that format, with the same readings |
| TelemetryModels.LegacyWithinEngine | src/models/telemetry.py:44-83 | `LegacyBatchValid` with its length as batch size implies `EnginePayloadValid`; the converse holds up to 1000 readings; 1001 is too many for legacy |
| TelemetryModels.LegacyAsUnified | src/models/telemetry.py:112-148 | a valid legacy batch read as unified is valid, of the legacy format, with the same readings |
| TelemetryModels.UnifiedBatchSizeMustAgree | src/models/telemetry.py:112-139 | `UnifiedValid` rejects a SimulationEngine list whose batch size disagrees, and accepts the empty payload, which then has no readings to get |
| TelemetryModels.EventTypeOf | src/models/telemetry.py:175-179 | exactly the three event-type strings parse |
| TelemetryModels.SimulatorReadingAccepted | src/models/telemetry.py:10-25 | a simulator reading is accepted iff its position is within latitude and longitude bounds |
| TelemetryModels.SimulatorAnomalyAccepted | src/models/telemetry.py:175-186 | a simulator theft event is a valid FUEL_THEFT anomaly |
| TelemetryModels.AnomalyEventExample | src/models/telemetry.py:181-203 | `AnomalyEventValid` accepts the documented event and rejects it without details, with a lower-case type or with confidence 1.5 |
| TelemetryModels.HourlyKpiExample | src/models/telemetry.py:205-226 | `HourlyKpiValid` accepts the documented KPI, its hour ending in Z, whenever the datetime parser accepts that hour; utilisation 100.5 or fuel -1 is rejected |
| TelemetryModels.StreamedBatchValid | src/models/telemetry.py:65-83 | `EnginePayloadValid` holds for the posted batch iff it has 1..10000 valid readings |
| Wire.ReceivedAll | src/api/ingestion.py:55-73 | entry i is what the API receives for reading i of the batch |
| Wire.BatchExtractedAsSent | src/api/ingestion.py:55-73 | a streamed batch is detected as simulation_engine and yields every reading, in order, with the same fields |
| Wire.KeyNamesVehicleAndTime | src/api/ingestion.py:145-150 | with underscore-free timestamps, equal keys mean the same vehicle and the same time |
| Wire.LogPositionsDiffer | data_generator/core/simulation_engine.py:237-251 | two log positions differ in vehicle or time |
| Wire.RunLogNeverDuplicates | src/api/ingestion.py:138-158 | a run's readings have distinct keys, so their first delivery keeps all of them |
| Wire.FleetIdsDistinct | data_generator/core/simulation_engine.py:73-86 | a created fleet of n has n distinct ids |

## Left out

- HTTP, FastAPI and httpx: the stream handler is the abstract `StreamSink`. Its per-post verdict is an oracle. Its statistics, retries and health URLs are not modelled.
- The stats and debug endpoints, and the `success_rate` string of the health endpoint: they only format the state. The rate can go negative when errors outnumber batches.
- Processing times, uptime, `payload_debug` and the `message`/`error` text of responses beyond the status detail.
- The database layer, `src/api/database_ingestion.py` and `src/api/query.py`. `src/main.py`, the utils and the driver scripts are not part of this model.
- Rounding of readings and events to 6 or 2 decimals, and IEEE floating point: quantities are exact reals.
- ISO-8601 formatting and parsing: timestamps are integer seconds. Their text is a parameter `stamp`. `datetime.fromisoformat` (after the Z rewrite) is a parameter `parsesIso`. The KPI's `datetime` field parser, which accepts a trailing Z itself, is a separate parameter `parsesDatetime`.
- The values of an anomaly's `details` object: only its key set is kept.
- `float()` and `str()` of JSON values are the parameters of `PyText`. JSON integers (`JInt`) and floats (`JNum`) are kept apart; `float()` of an integer too large for a double (an `OverflowError`) is not modelled. The order of JSON object keys, the NaN and Infinity literals, and `str()` of an object payload that fails (a non-finite number in the response) are not modelled.
- Background tasks run to completion within the request, with one clock reading per request.
- The per-reading `try` in `process_telemetry_async` cannot fail once a reading was extracted, so its error count is not modelled.
- A body that is not UTF-8 is an input case (`NotUtf8`), not a decoder.
- networkx's choice among equal shortest paths: routes are specified as some shortest path. A failing `shortest_path` for an off-grid start is the error case of `FindNearestRefuelingStation`.
- CPython's `random`: the oracle reads one value per `randbelow`, and rejection sampling is not modelled. The set-based `sample` used for large populations is not modelled either; the pool algorithm is.
- Real-time pacing (`time.sleep`), progress logging, `print` and the DataFrame conversion of the logs.
- The `world` reference of a vehicle: it is never read by the agent, so it is not stored.
- Vehicle.VehicleAgent.AssignNewTrip: requires a non-negative speed. The source only ever passes 60 kph.
- Engine.SimulationEngine.CreateVehicleFleet: requires theft ranges of at least 0 %. The source does not check this, but a negative range would add fuel and break the vehicle invariant.
- Engine.SimulationEngine.TickVehicle: the per-vehicle `except` is not modelled. With a positive step no tick raises.
- `str.upper()` is modelled on ASCII letters only (`FleetIds.AsciiUpper`).
- Engine.SimulationEngine.RunSimulation: the timestamp of a reading is its tick times the step in seconds; the start time and `time_scale_factor` only affect wall-clock pacing.

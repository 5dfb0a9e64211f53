/**
 * The road network of data_generator/world.py: a width x height grid of intersections,
 * 4-neighbour roads of 1 km each, and a fixed list of refuelling stations chosen once.
 * Every edge weighs 1, so a shortest path is a chain of adjacent nodes whose length
 * minus one is the Manhattan distance of its ends; routes are specified that way.
 */
module Grid {
  import opened Wrappers
  import opened Models
  import opened Randomness
  import Arith

  /** Attempts `get_random_route` makes before giving up. */
  const MaxRouteAttempts: nat := 10
  /** Weight of every road, in km. */
  const EdgeWeight: int := 1

  /** The world after construction; it never changes afterwards. */
  datatype GridWorld = GridWorld(width: int, height: int, stations: seq<Node>)

  datatype RouteOutcome =
    | Found(route: seq<Node>)
    | NotFound
      /** `random.sample` raised: the grid has fewer than two nodes. */
    | SampleError

  predicate InGrid(w: GridWorld, n: Node) {
    0 <= n.x < w.width && 0 <= n.y < w.height
  }

  function Abs(a: int): nat { if a < 0 then -a else a }

  function Distance(a: Node, b: Node): nat {
    Abs(a.x - b.x) + Abs(a.y - b.y)
  }

  /** A road joins two grid nodes one unit apart. */
  predicate IsEdge(w: GridWorld, a: Node, b: Node) {
    InGrid(w, a) && InGrid(w, b) && Distance(a, b) == 1
  }

  predicate Distinct(s: seq<Node>) {
    forall i, j :: 0 <= i < j < |s| ==> s[i] != s[j]
  }

  predicate WorldValid(w: GridWorld) {
    w.width > 0 && w.height > 0 && Distinct(w.stations) &&
    forall s :: s in w.stations ==> InGrid(w, s)
  }

  /** The node list of the grid graph, in the graph's own order: x outer, y inner. */
  function GridNodes(w: GridWorld): (ns: seq<Node>)
    requires w.width > 0 && w.height > 0
    ensures |ns| == w.width * w.height
  {
    Columns(w.height, w.width)
  }

  /** The first n columns of a grid of height h, each listed from y = 0 up. */
  function Columns(h: nat, n: nat): (ns: seq<Node>)
    ensures |ns| == n * h
  {
    if n == 0 then [] else Columns(h, n - 1) + seq(h, y => Node(n - 1, y))
  }

  /** Node (x, y) sits at index x * h + y. */
  lemma {:induction false} ColumnsIndex(h: nat, n: nat, x: int, y: int)
    requires 0 <= x < n && 0 <= y < h
    ensures 0 <= x * h + y < |Columns(h, n)| && Columns(h, n)[x * h + y] == Node(x, y)
  {
    var prev := Columns(h, n - 1);
    assert Columns(h, n) == prev + seq(h, y => Node(n - 1, y));
    if x < n - 1 {
      ColumnsIndex(h, n - 1, x, y);
    } else {
      assert |prev| == x * h;
    }
  }

  /** Every listed node lies in the first n columns of height h. */
  lemma {:induction false} ColumnsInRange(h: nat, n: nat)
    ensures forall m :: m in Columns(h, n) ==> 0 <= m.x < n && 0 <= m.y < h
  {
    if n > 0 {
      ColumnsInRange(h, n - 1);
      assert Columns(h, n) == Columns(h, n - 1) + seq(h, y => Node(n - 1, y));
    }
  }

  /** No node is listed twice. */
  lemma {:induction false} ColumnsDistinct(h: nat, n: nat)
    ensures Distinct(Columns(h, n))
  {
    if n > 0 {
      var prev, col := Columns(h, n - 1), seq(h, y => Node(n - 1, y));
      ColumnsDistinct(h, n - 1);
      ColumnsInRange(h, n - 1);
      var ns := prev + col;
      assert Columns(h, n) == ns;
      forall i, j | 0 <= i < j < |ns| ensures ns[i] != ns[j] {
        if i < |prev| && j >= |prev| {
          assert prev[i] in prev;
        }
      }
    }
  }

  /** The graph's nodes are exactly the grid's coordinate pairs, each listed once. */
  lemma GridNodesAreTheGrid(w: GridWorld)
    requires w.width > 0 && w.height > 0
    ensures forall n :: n in GridNodes(w) <==> InGrid(w, n)
    ensures Distinct(GridNodes(w))
  {
    forall n | InGrid(w, n) ensures n in GridNodes(w) {
      ColumnsIndex(w.height, w.width, n.x, n.y);
    }
    ColumnsInRange(w.height, w.width);
    ColumnsDistinct(w.height, w.width);
  }

  /** The neighbours of a node: the four compass points that lie inside the grid. */
  function Neighbours(w: GridWorld, n: Node): set<Node> {
    var cands := {Node(n.x - 1, n.y), Node(n.x + 1, n.y), Node(n.x, n.y - 1), Node(n.x, n.y + 1)};
    set m | m in cands && InGrid(w, m)
  }

  /** Roads join exactly the compass neighbours, and an interior node has four of them. */
  lemma NeighboursAreEdges(w: GridWorld, n: Node)
    requires InGrid(w, n)
    ensures forall m :: m in Neighbours(w, n) <==> IsEdge(w, n, m)
    ensures 0 < n.x < w.width - 1 && 0 < n.y < w.height - 1 ==> |Neighbours(w, n)| == 4
  {
    forall m | IsEdge(w, n, m) ensures m in Neighbours(w, n) {
      if m.x == n.x {
        assert m.y == n.y - 1 || m.y == n.y + 1;
      } else {
        assert m.x == n.x - 1 || m.x == n.x + 1;
      }
    }
    if 0 < n.x < w.width - 1 && 0 < n.y < w.height - 1 {
      var a, b, c, d := Node(n.x - 1, n.y), Node(n.x + 1, n.y), Node(n.x, n.y - 1), Node(n.x, n.y + 1);
      assert Neighbours(w, n) == {a, b, c, d};
      assert |{a, b, c, d}| == 4 by {
        assert {a, b, c, d} == {a} + {b} + {c} + {d};
      }
    }
  }

  /** A walk along roads: every node in the grid, consecutive nodes adjacent. */
  predicate IsWalk(w: GridWorld, p: seq<Node>) {
    |p| >= 1 &&
    (forall i :: 0 <= i < |p| ==> InGrid(w, p[i])) &&
    (forall i :: 0 <= i < |p| - 1 ==> Distance(p[i], p[i + 1]) == 1)
  }

  /** A walk from a to b of minimal length: its edge count is the Manhattan distance. */
  predicate IsShortestPath(w: GridWorld, p: seq<Node>, a: Node, b: Node) {
    IsWalk(w, p) && p[0] == a && p[|p| - 1] == b && |p| - 1 == Distance(a, b)
  }

  /** No walk is shorter than the Manhattan distance of its ends. */
  lemma {:induction false} WalkAtLeastDistance(w: GridWorld, p: seq<Node>)
    requires IsWalk(w, p)
    ensures |p| - 1 >= Distance(p[0], p[|p| - 1])
  {
    if |p| > 1 {
      var q := p[1..];
      assert IsWalk(w, q) by {
        forall i | 0 <= i < |q| - 1 ensures Distance(q[i], q[i + 1]) == 1 {
          assert q[i] == p[i + 1] && q[i + 1] == p[i + 2];
        }
      }
      WalkAtLeastDistance(w, q);
      assert Distance(p[0], p[1]) == 1;
    }
  }

  /** Every shortest path is no longer than any other walk between the same ends. */
  lemma ShortestPathIsMinimal(w: GridWorld, p: seq<Node>, q: seq<Node>, a: Node, b: Node)
    requires IsShortestPath(w, p, a, b)
    requires IsWalk(w, q) && q[0] == a && q[|q| - 1] == b
    ensures |p| <= |q|
  {
    WalkAtLeastDistance(w, q);
  }

  /** One unit step from a toward b, along x first. */
  function StepToward(a: Node, b: Node): (n: Node)
    requires a != b
    ensures Distance(a, n) == 1 && Distance(n, b) + 1 == Distance(a, b)
  {
    if a.x < b.x then Node(a.x + 1, a.y)
    else if a.x > b.x then Node(a.x - 1, a.y)
    else if a.y < b.y then Node(a.x, a.y + 1)
    else Node(a.x, a.y - 1)
  }

  predicate InBox(a: Node, b: Node, n: Node) {
    (a.x <= n.x <= b.x || b.x <= n.x <= a.x) && (a.y <= n.y <= b.y || b.y <= n.y <= a.y)
  }

  /**
   * The path the model uses where the source asks networkx for a shortest path: an L-shaped
   * walk, x first. Only its being a shortest path is relied upon.
   */
  function ShortestPath(a: Node, b: Node): (p: seq<Node>)
    ensures |p| >= 1 && p[0] == a && p[|p| - 1] == b && |p| - 1 == Distance(a, b)
    ensures forall i :: 0 <= i < |p| - 1 ==> Distance(p[i], p[i + 1]) == 1
    ensures forall i :: 0 <= i < |p| ==> InBox(a, b, p[i])
    decreases Distance(a, b)
  {
    if a == b then [a] else [a] + ShortestPath(StepToward(a, b), b)
  }

  lemma ShortestPathInGrid(w: GridWorld, a: Node, b: Node)
    requires InGrid(w, a) && InGrid(w, b)
    ensures IsShortestPath(w, ShortestPath(a, b), a, b)
  {
    var p := ShortestPath(a, b);
    forall i | 0 <= i < |p| ensures InGrid(w, p[i]) {
      assert InBox(a, b, p[i]);
    }
  }

  /** Distinct population and a sample drawn without replacement give distinct grid picks. */
  lemma {:induction false} DistinctCountsAtMostOne(s: seq<Node>, x: Node)
    requires Distinct(s)
    ensures multiset(s)[x] <= 1
  {
    if s != [] {
      var t := s[1..];
      assert s == [s[0]] + t;
      assert Distinct(t) by {
        forall i, j | 0 <= i < j < |t| ensures t[i] != t[j] {
          assert t[i] == s[i + 1] && t[j] == s[j + 1];
        }
      }
      DistinctCountsAtMostOne(t, x);
      forall j | 0 <= j < |t| ensures t[j] != s[0] {
        assert t[j] == s[j + 1];
      }
    }
  }

  lemma SampleOfDistinctIsDistinct(pop: seq<Node>, r: seq<Node>)
    requires Distinct(pop) && multiset(r) <= multiset(pop)
    ensures Distinct(r) && forall x :: x in r ==> x in pop
  {
    forall x | x in r ensures x in pop {
      assert x in multiset(r);
    }
    forall i, j | 0 <= i < j < |r| ensures r[i] != r[j] {
      if r[i] == r[j] {
        var x := r[i];
        var rest := r[..i] + r[i + 1..];
        assert r == r[..i] + [x] + r[i + 1..];
        assert x in rest by {
          assert rest[j - 1] == r[j];
        }
        assert multiset(r) == multiset(rest) + multiset{x};
        assert multiset(r)[x] >= 2;
        DistinctCountsAtMostOne(pop, x);
        assert false;
      }
    }
  }

  /**
   * `GridWorld.__init__`: validates the size and the station count, then places the
   * stations by sampling the node list without replacement.
   */
  method NewGridWorld(width: int, height: int, numStations: int, rng: RandomSource)
    returns (r: Result<GridWorld>)
    modifies rng
    ensures width <= 0 || height <= 0 ==> r == Err("Grid width and height must be positive integers.")
    ensures width > 0 && height > 0 && numStations < 0 ==> r == Err("Number of refueling stations cannot be negative.")
    ensures width > 0 && height > 0 && numStations > width * height ==>
              r == Err("Cannot have more refueling stations than nodes in the graph.")
    ensures r.Ok? <==> width > 0 && height > 0 && 0 <= numStations <= width * height
    ensures r.Ok? ==> r.value.width == width && r.value.height == height &&
                      |r.value.stations| == numStations && WorldValid(r.value)
    ensures width > 0 && height > 0 && 0 <= numStations <= width * height ==>
              r.Ok? && r.value.stations == SamplePicks(GridNodes(r.value), numStations, rng.oracle, old(rng.used)) &&
              rng.used == old(rng.used) + numStations
    ensures r.Err? ==> rng.used == old(rng.used)
  {
    if !(width > 0 && height > 0) {
      return Err("Grid width and height must be positive integers.");
    }
    if numStations < 0 {
      return Err("Number of refueling stations cannot be negative.");
    }
    var shape := GridWorld(width, height, []);
    var nodes := GridNodes(shape);
    if numStations > |nodes| {
      return Err("Cannot have more refueling stations than nodes in the graph.");
    }
    ghost var at := rng.used;
    var picked := rng.Sample(nodes, numStations);
    GridNodesAreTheGrid(shape);
    SamplePicksFromPopulation(nodes, numStations, rng.oracle, at);
    SampleOfDistinctIsDistinct(nodes, picked.value);
    r := Ok(GridWorld(width, height, picked.value));
    assert GridNodes(r.value) == nodes;
  }

  /**
   * The two nodes attempt a of `get_random_route` samples when its first draw is the at-th:
   * they take draws at + 2a and at + 2a + 1.
   */
  function AttemptPair(w: GridWorld, oracle: nat -> nat, at: nat, a: nat): (Node, Node)
    requires w.width > 0 && w.height > 0 && w.width * w.height >= 2
  {
    var pair := SamplePicks(GridNodes(w), 2, oracle, at + 2 * a);
    (pair[0], pair[1])
  }

  /** The number of nodes on a shortest path between the two nodes of a pair. */
  function Span(pair: (Node, Node)): nat {
    Distance(pair.0, pair.1) + 1
  }

  /** Every attempt samples two distinct grid nodes, so its route is a proper shortest path. */
  lemma AttemptPairShape(w: GridWorld, oracle: nat -> nat, at: nat, a: nat)
    requires w.width > 0 && w.height > 0 && w.width * w.height >= 2
    ensures var pair := AttemptPair(w, oracle, at, a);
      pair.0 != pair.1 && InGrid(w, pair.0) && InGrid(w, pair.1) && Span(pair) >= 2
  {
    var nodes := GridNodes(w);
    var pair := SamplePicks(nodes, 2, oracle, at + 2 * a);
    GridNodesAreTheGrid(w);
    SamplePicksFromPopulation(nodes, 2, oracle, at + 2 * a);
    SampleOfDistinctIsDistinct(nodes, pair);
    assert pair[0] != pair[1] && pair[0] in nodes && pair[1] in nodes;
  }

  /**
   * The first attempt from a on whose route has at least `minDistance` nodes, or
   * `MaxRouteAttempts` when none has.
   */
  function FirstLongEnough(w: GridWorld, minDistance: int, oracle: nat -> nat, at: nat, a: nat): (b: nat)
    requires w.width > 0 && w.height > 0 && w.width * w.height >= 2 && a <= MaxRouteAttempts
    ensures a <= b <= MaxRouteAttempts
    ensures b < MaxRouteAttempts ==> Span(AttemptPair(w, oracle, at, b)) >= minDistance
    ensures forall c :: a <= c < b ==> Span(AttemptPair(w, oracle, at, c)) < minDistance
    decreases MaxRouteAttempts - a
  {
    if a == MaxRouteAttempts || Span(AttemptPair(w, oracle, at, a)) >= minDistance then a
    else FirstLongEnough(w, minDistance, oracle, at, a + 1)
  }

  /**
   * `get_random_route` whose first draw is the at-th: its outcome and the index of the next
   * unused draw. The sample fails on a grid of fewer than two nodes; otherwise the search
   * stops at the first of the ten attempts whose route is long enough.
   */
  function RouteSearch(w: GridWorld, minDistance: int, oracle: nat -> nat, at: nat): (r: (RouteOutcome, nat))
    requires w.width > 0 && w.height > 0
    ensures r.0.SampleError? <==> w.width * w.height < 2
    ensures r.0.SampleError? ==> r.1 == at
    ensures r.0.NotFound? ==> r.1 == at + 2 * MaxRouteAttempts
    ensures at <= r.1 <= at + 2 * MaxRouteAttempts
  {
    if w.width * w.height < 2 then (SampleError, at)
    else
      var b := FirstLongEnough(w, minDistance, oracle, at, 0);
      if b == MaxRouteAttempts then (NotFound, at + 2 * MaxRouteAttempts)
      else
        var pair := AttemptPair(w, oracle, at, b);
        (Found(ShortestPath(pair.0, pair.1)), at + 2 * (b + 1))
  }

  /** On a grid of two or more nodes the search finds nothing exactly when all ten sampled pairs are too close. */
  lemma RouteSearchNotFound(w: GridWorld, minDistance: int, oracle: nat -> nat, at: nat)
    requires w.width > 0 && w.height > 0 && w.width * w.height >= 2
    ensures RouteSearch(w, minDistance, oracle, at).0.NotFound? <==>
              forall b :: 0 <= b < MaxRouteAttempts ==> Span(AttemptPair(w, oracle, at, b)) < minDistance
  {
    var b := FirstLongEnough(w, minDistance, oracle, at, 0);
    assert RouteSearch(w, minDistance, oracle, at).0.NotFound? <==> b == MaxRouteAttempts;
  }

  /**
   * When attempt b is the first whose pair is far enough apart, the search returns a shortest
   * path between that pair, having used the draws up to and including attempt b's.
   */
  lemma RouteSearchTakesFirstLongEnough(w: GridWorld, minDistance: int, oracle: nat -> nat, at: nat, b: nat)
    requires w.width > 0 && w.height > 0 && w.width * w.height >= 2 && b < MaxRouteAttempts
    requires Span(AttemptPair(w, oracle, at, b)) >= minDistance
    requires forall c :: 0 <= c < b ==> Span(AttemptPair(w, oracle, at, c)) < minDistance
    ensures RouteSearch(w, minDistance, oracle, at).0 ==
              Found(ShortestPath(AttemptPair(w, oracle, at, b).0, AttemptPair(w, oracle, at, b).1))
    ensures RouteSearch(w, minDistance, oracle, at).1 == at + 2 * (b + 1)
  {
    var first := FirstLongEnough(w, minDistance, oracle, at, 0);
    assert first == b;
  }

  /** A route the search finds is long enough and a shortest path between two distinct grid nodes. */
  lemma RouteSearchRouteShape(w: GridWorld, minDistance: int, oracle: nat -> nat, at: nat)
    requires w.width > 0 && w.height > 0
    ensures var r := RouteSearch(w, minDistance, oracle, at).0;
      r.Found? ==> |r.route| >= minDistance && |r.route| >= 2 &&
                   r.route[0] != r.route[|r.route| - 1] &&
                   IsShortestPath(w, r.route, r.route[0], r.route[|r.route| - 1])
  {
    if w.width * w.height >= 2 {
      var b := FirstLongEnough(w, minDistance, oracle, at, 0);
      if b < MaxRouteAttempts {
        var pair := AttemptPair(w, oracle, at, b);
        AttemptPairShape(w, oracle, at, b);
        ShortestPathInGrid(w, pair.0, pair.1);
      }
    }
  }

  /**
   * On the 10 x 10 grid, under the model's pool sample, draws 0 and 0 pick the corner (0, 0)
   * and then, moved into the freed slot, the opposite corner (9, 9): the first attempt is a
   * 19-node route. (CPython samples from a population this large with its set-based
   * algorithm, which the model does not follow.)
   */
  lemma CornerToCornerRoute(oracle: nat -> nat, at: nat)
    requires oracle(at) == 0 && oracle(at + 1) == 0
    ensures var r := RouteSearch(GridWorld(10, 10, []), 5, oracle, at);
      r.1 == at + 2 && r.0.Found? && |r.0.route| == 19 &&
      r.0.route[0] == Node(0, 0) && r.0.route[18] == Node(9, 9)
  {
    var w := GridWorld(10, 10, []);
    var nodes := GridNodes(w);
    assert |nodes| == 100;
    ColumnsIndex(10, 10, 0, 0);
    ColumnsIndex(10, 10, 9, 9);
    assert nodes[0] == Node(0, 0) && nodes[99] == Node(9, 9);
    assert PickBelow(oracle, at, 100) == 0 && PickBelow(oracle, at + 1, 99) == 0;
    var r0 := SampleAfter(nodes, 0, oracle, at);
    assert r0 == ([], nodes);
    var r1 := SampleAfter(nodes, 1, oracle, at);
    assert r1 == (r0.0 + [r0.1[0]], r0.1[0 := r0.1[99]]);
    assert r1.0 == [Node(0, 0)] by {
      assert r0.0 + [nodes[0]] == [nodes[0]];
    }
    assert r1.1[0] == Node(9, 9);
    var r2 := SampleAfter(nodes, 2, oracle, at);
    assert r2.0 == r1.0 + [r1.1[0]];
    assert SamplePicks(nodes, 2, oracle, at) == [Node(0, 0), Node(9, 9)];
    assert AttemptPair(w, oracle, at, 0) == (Node(0, 0), Node(9, 9));
  }

  /**
   * `get_random_route`: up to ten times, sample two distinct nodes and take a shortest path
   * between them; return the first one with at least `minDistance` nodes.
   */
  method GetRandomRoute(w: GridWorld, minDistance: int, rng: RandomSource) returns (r: RouteOutcome)
    requires WorldValid(w)
    modifies rng
    ensures r == RouteSearch(w, minDistance, rng.oracle, old(rng.used)).0
    ensures rng.used == RouteSearch(w, minDistance, rng.oracle, old(rng.used)).1
  {
    var nodes := GridNodes(w);
    ghost var at := rng.used;
    var attempt := 0;
    while attempt < MaxRouteAttempts
      invariant 0 <= attempt <= MaxRouteAttempts
      invariant rng.used == at + 2 * attempt
      invariant attempt > 0 ==> |nodes| >= 2
      invariant forall c :: 0 <= c < attempt ==> Span(AttemptPair(w, rng.oracle, at, c)) < minDistance
    {
      var pair := rng.Sample(nodes, 2);
      if pair.None? {
        return SampleError;
      }
      var start, end := pair.value[0], pair.value[1];
      var route := ShortestPath(start, end);
      assert start == AttemptPair(w, rng.oracle, at, attempt).0 && end == AttemptPair(w, rng.oracle, at, attempt).1;
      if |route| >= minDistance {
        RouteSearchTakesFirstLongEnough(w, minDistance, rng.oracle, at, attempt);
        return Found(route);
      }
      attempt := attempt + 1;
    }
    RouteSearchNotFound(w, minDistance, rng.oracle, at);
    return NotFound;
  }

  /**
   * Python's `min` over the station list by distance: the first station whose distance no
   * other station beats.
   */
  function FirstNearest(stations: seq<Node>, from: Node): (k: nat)
    requires |stations| > 0
    ensures k < |stations|
    ensures forall j :: 0 <= j < |stations| ==> Distance(from, stations[k]) <= Distance(from, stations[j])
    ensures forall j :: 0 <= j < k ==> Distance(from, stations[j]) > Distance(from, stations[k])
  {
    if |stations| == 1 then 0
    else
      var k := FirstNearest(stations[..|stations| - 1], from);
      if Distance(from, stations[|stations| - 1]) < Distance(from, stations[k]) then |stations| - 1 else k
  }

  /**
   * `find_nearest_refueling_station`: fails without stations (and, as networkx does, for a
   * start that is not a node); otherwise the nearest station, earliest on ties, and a
   * shortest path to it.
   */
  function FindNearestRefuelingStation(w: GridWorld, start: Node): (r: Result<(Node, seq<Node>)>)
    requires WorldValid(w)
    ensures w.stations == [] ==> r == Err("No refueling stations exist in this world.")
    ensures r.Ok? <==> w.stations != [] && InGrid(w, start)
    ensures r.Ok? ==> r.value.0 in w.stations &&
                      IsShortestPath(w, r.value.1, start, r.value.0) &&
                      (forall s :: s in w.stations ==> Distance(start, r.value.0) <= Distance(start, s)) &&
                      exists k :: 0 <= k < |w.stations| && w.stations[k] == r.value.0 &&
                        forall j :: 0 <= j < k ==> Distance(start, w.stations[j]) > Distance(start, r.value.0)
  {
    if w.stations == [] then Err("No refueling stations exist in this world.")
    else if !InGrid(w, start) then Err("Node not in graph")
    else
      var k := FirstNearest(w.stations, start);
      var station := w.stations[k];
      ShortestPathInGrid(w, start, station);
      Ok((station, ShortestPath(start, station)))
  }

  /** From a station, the nearest station is itself and the route is the single start node. */
  lemma StationStartGivesSingleNodeRoute(w: GridWorld, start: Node)
    requires WorldValid(w) && start in w.stations
    ensures FindNearestRefuelingStation(w, start) == Ok((start, [start]))
  {
    var r := FindNearestRefuelingStation(w, start);
    assert r.Ok?;
    assert Distance(start, r.value.0) <= Distance(start, start);
    assert r.value.0 == start by {
      var n := r.value.0;
      assert Distance(start, n) == 0;
    }
  }
}

/**
 * The random draws of the simulator as an explicit oracle: the k-th call into Python's
 * `random` module reads `oracle(k)`. Equal oracles give equal runs, which is the
 * reproducibility the simulator promises for a fixed seed.
 */
module Randomness {
  import opened Wrappers
  import opened Models

  /** `random()` is built from 53 random bits. */
  const TwoPow53: nat := 9007199254740992

  /** `random()` as the k-th draw of `oracle`: 53 bits scaled into [0, 1). */
  function RealOf(oracle: nat -> nat, k: nat): (r: real)
    ensures 0.0 <= r < 1.0
  {
    (oracle(k) % TwoPow53) as real / TwoPow53 as real
  }

  /** `randbelow(n)` as the at-th draw of `oracle`. */
  function PickBelow(oracle: nat -> nat, at: nat, n: nat): (j: nat)
    requires n > 0
    ensures j < n
  {
    oracle(at) % n
  }

  /**
   * The picks and the pool after the first i picks of `sample(pop, k)` whose first draw is
   * the at-th: pick i takes pool entry `PickBelow(oracle, at + i, n - i)` and the last live
   * entry of the pool moves into its place.
   */
  function SampleAfter(pop: seq<Node>, i: nat, oracle: nat -> nat, at: nat): (r: (seq<Node>, seq<Node>))
    requires i <= |pop|
    ensures |r.0| == i && |r.1| == |pop|
  {
    if i == 0 then ([], pop)
    else
      var prev := SampleAfter(pop, i - 1, oracle, at);
      var live := |pop| - (i - 1);
      var j := PickBelow(oracle, at + i - 1, live);
      (prev.0 + [prev.1[j]], prev.1[j := prev.1[live - 1]])
  }

  /** Before the first pick the whole population is live. */
  lemma SampleAfterNone(pop: seq<Node>, oracle: nat -> nat, at: nat)
    ensures SampleAfter(pop, 0, oracle, at).0 == [] && SampleAfter(pop, 0, oracle, at).1 == pop
  {
  }

  /** Pick i takes the entry the draw selects from the live pool left by the first i - 1 picks. */
  lemma SampleAfterNext(pop: seq<Node>, i: nat, oracle: nat -> nat, at: nat)
    requires 0 < i <= |pop|
    ensures var prev := SampleAfter(pop, i - 1, oracle, at);
      var live := |pop| - (i - 1);
      var j := PickBelow(oracle, at + i - 1, live);
      SampleAfter(pop, i, oracle, at).0 == prev.0 + [prev.1[j]] &&
      SampleAfter(pop, i, oracle, at).1 == prev.1[j := prev.1[live - 1]]
  {
  }

  /** What `sample(pop, k)` returns when its first draw is the at-th. */
  function SamplePicks(pop: seq<Node>, k: nat, oracle: nat -> nat, at: nat): seq<Node>
    requires k <= |pop|
  {
    SampleAfter(pop, k, oracle, at).0
  }

  /** The picks so far and the live pool together are the population: picks are without replacement. */
  lemma {:induction false} SampleAfterKeepsPopulation(pop: seq<Node>, i: nat, oracle: nat -> nat, at: nat)
    requires i <= |pop|
    ensures multiset(SampleAfter(pop, i, oracle, at).0) + multiset(SampleAfter(pop, i, oracle, at).1[..|pop| - i]) ==
            multiset(pop)
  {
    hide SampleAfter;
    if i == 0 {
      SampleAfterNone(pop, oracle, at);
      assert pop[..|pop|] == pop;
    } else {
      var prev := SampleAfter(pop, i - 1, oracle, at);
      var picked, pool := prev.0, prev.1;
      var live := |pop| - (i - 1);
      var j := PickBelow(oracle, at + i - 1, live);
      SampleAfterNext(pop, i, oracle, at);
      SampleAfterKeepsPopulation(pop, i - 1, oracle, at);
      PoolTake(pool, live, j);
      MoveOne(picked, pool, pop, live, j);
      var cur := SampleAfter(pop, i, oracle, at);
      assert cur.0 == picked + [pool[j]];
      assert cur.1[..|pop| - i] == pool[j := pool[live - 1]][..live - 1];
    }
  }

  /** Moving the entry j of the live pool to the picks keeps picks and live pool the population. */
  lemma MoveOne(picked: seq<Node>, pool: seq<Node>, pop: seq<Node>, live: nat, j: nat)
    requires j < live <= |pool|
    requires multiset(picked) + multiset(pool[..live]) == multiset(pop)
    requires multiset(pool[j := pool[live - 1]][..live - 1]) + multiset{pool[j]} == multiset(pool[..live])
    ensures multiset(picked + [pool[j]]) + multiset(pool[j := pool[live - 1]][..live - 1]) == multiset(pop)
  {
    assert multiset(picked + [pool[j]]) == multiset(picked) + multiset{pool[j]};
  }

  /** A sample is a sub-multiset of the population. */
  lemma SamplePicksFromPopulation(pop: seq<Node>, k: nat, oracle: nat -> nat, at: nat)
    requires k <= |pop|
    ensures |SamplePicks(pop, k, oracle, at)| == k
    ensures multiset(SamplePicks(pop, k, oracle, at)) <= multiset(pop)
  {
    SampleAfterKeepsPopulation(pop, k, oracle, at);
  }

  class RandomSource {
    const oracle: nat -> nat
    /** The number of draws taken so far. */
    var used: nat

    constructor (oracle: nat -> nat)
      ensures this.oracle == oracle && used == 0
    {
      this.oracle := oracle;
      used := 0;
    }

    /** The value `random()` returns when it is the k-th draw. */
    function RealAt(k: nat): (r: real)
      ensures r == RealOf(oracle, k) && 0.0 <= r < 1.0
    {
      RealOf(oracle, k)
    }

    method Random() returns (r: real)
      modifies this
      ensures r == RealAt(old(used)) && used == old(used) + 1
    {
      r := RealAt(used);
      used := used + 1;
    }

    /** `randbelow(n)`, one draw reduced modulo n. */
    method RandBelow(n: nat) returns (k: nat)
      requires n > 0
      modifies this
      ensures k == PickBelow(oracle, old(used), n) && used == old(used) + 1
    {
      k := PickBelow(oracle, used, n);
      used := used + 1;
    }

    /** `randint(a, b)`: a value in [a, b]. */
    method RandInt(a: int, b: int) returns (k: int)
      requires a <= b
      modifies this
      ensures k == a + oracle(old(used)) % (b - a + 1) && used == old(used) + 1
      ensures a <= k <= b
    {
      var j := RandBelow(b - a + 1);
      k := a + j;
    }

    /** `uniform(a, b)` = a + (b - a) * random(). */
    method Uniform(a: real, b: real) returns (r: real)
      modifies this
      ensures r == a + (b - a) * RealAt(old(used)) && used == old(used) + 1
    {
      var u := Random();
      r := a + (b - a) * u;
    }

    /** `choice(xs)`; the source only calls it on the non-empty node list. */
    method Choice(xs: seq<Node>) returns (x: Node)
      requires |xs| > 0
      modifies this
      ensures x == xs[oracle(old(used)) % |xs|] && used == old(used) + 1
    {
      var j := RandBelow(|xs|);
      x := xs[j];
    }

    /**
     * `sample(pop, k)`: k picks without replacement, each taken from the pool of those not
     * yet picked (the last pool entry fills the hole), one draw per pick. A sample larger
     * than the population raises, here `None`.
     */
    method Sample(pop: seq<Node>, k: nat) returns (r: Option<seq<Node>>)
      modifies this
      ensures r.None? <==> k > |pop|
      ensures r.None? ==> used == old(used)
      ensures r.Some? ==> r.value == SamplePicks(pop, k, oracle, old(used)) && used == old(used) + k
    {
      var n := |pop|;
      if k > n {
        return None;
      }
      var pool := pop;
      var picked: seq<Node> := [];
      var i := 0;
      while i < k
        invariant 0 <= i <= k <= n
        invariant used == old(used) + i
        invariant (picked, pool) == SampleAfter(pop, i, oracle, old(used))
      {
        var j := RandBelow(n - i);
        picked := picked + [pool[j]];
        pool := pool[j := pool[n - i - 1]];
        i := i + 1;
      }
      r := Some(picked);
    }
  }

  /** Taking entry j of the live pool and moving the last live entry into its place. */
  lemma PoolTake(pool: seq<Node>, live: nat, j: nat)
    requires j < live <= |pool|
    ensures multiset(pool[j := pool[live - 1]][..live - 1]) + multiset{pool[j]} == multiset(pool[..live])
  {
    var l := pool[..live];
    assert l == l[..live - 1] + [pool[live - 1]];
    if j == live - 1 {
      assert pool[j := pool[live - 1]][..live - 1] == l[..live - 1];
    } else {
      assert pool[j := pool[live - 1]][..live - 1] == l[..live - 1][j := pool[live - 1]];
    }
  }
}

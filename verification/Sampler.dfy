/** The byte-budget sampler of src/memory_core.c, with doubles idealised as
    reals: intervals are geometric, and weights are inverse probabilities. */
module Sampler {
  const UINT64_MAX := 0xffff_ffff_ffff_ffff
  const UNITS := 9007199254740993

  function Pow(q: real, n: nat): (r: real)
    ensures q > 0.0 ==> r > 0.0
    ensures 0.0 < q <= 1.0 ==> r <= 1.0
  {
    if n == 0 then 1.0 else Smaller(q, Pow(q, n - 1)); q * Pow(q, n - 1)
  }

  lemma Smaller(q: real, x: real)
    ensures q > 0.0 && x > 0.0 ==> q * x > 0.0
    ensures 0.0 < q < 1.0 && x > 0.0 ==> q * x < x
    ensures q == 1.0 ==> q * x == x
  {
  }

  lemma PowStep(q: real, n: nat)
    requires 0.0 < q <= 1.0
    ensures Pow(q, n + 1) <= Pow(q, n)
    ensures q < 1.0 ==> Pow(q, n + 1) < Pow(q, n)
  {
    var x := Pow(q, n);
    assert Pow(q, n + 1) == q * x;
    Smaller(q, x);
  }

  /** Bernoulli's inequality for a chance `x` of being missed once. */
  lemma {:induction false} Bernoulli(x: real, n: nat)
    requires 0.0 <= x < 1.0
    ensures Pow(1.0 - x, n) >= 1.0 - n as real * x
  {
    if n > 0 {
      Bernoulli(x, n - 1);
      BernoulliStep(x, Pow(1.0 - x, n - 1), (n - 1) as real);
    }
  }

  lemma BernoulliStep(x: real, p: real, n: real)
    requires 0.0 <= x < 1.0 && n >= 0.0 && p >= 1.0 - n * x
    ensures (1.0 - x) * p >= 1.0 - (n + 1.0) * x
  {
    Scaled(1.0 - x, 1.0 - n * x, p);
    Expanded(x, n);
  }

  lemma Scaled(c: real, a: real, b: real)
    requires c >= 0.0 && a <= b
    ensures c * a <= c * b
  {
  }

  lemma Expanded(x: real, n: real)
    requires n >= 0.0
    ensures (1.0 - x) * (1.0 - n * x) == 1.0 - (n + 1.0) * x + n * (x * x)
    ensures n * (x * x) >= 0.0
  {
  }

  lemma {:induction false} PowAntitone(q: real, a: nat, b: nat)
    requires 0.0 < q <= 1.0 && a <= b
    ensures Pow(q, b) <= Pow(q, a)
    decreases b - a
  {
    if a < b {
      PowAntitone(q, a, b - 1);
      PowStep(q, b - 1);
    }
  }

  /** The chance that one byte is not the end of an interval. */
  function Survival(mean: nat): (q: real)
    requires mean >= 1
    ensures 0.0 <= q < 1.0 && (mean > 1 ==> q > 0.0)
  {
    1.0 - 1.0 / mean as real
  }

  /** The draw: 53 random bits made into a number between 0 and 1. */
  function Uniform(bits: nat): (u: real)
    requires bits <= UINT64_MAX
    ensures 0.0 < u < 1.0
  {
    ((bits / 2048) as real + 1.0) / UNITS as real
  }

  /** Survival decays below any draw, so the search for an interval ends. */
  lemma {:induction false} Decay(y: real, n: nat)
    requires 0.0 < y < 1.0
    ensures Pow(1.0 - y, n) * (1.0 + n as real * y) <= 1.0
  {
    if n > 0 {
      Decay(y, n - 1);
      DecayStep(y, Pow(1.0 - y, n - 1), (n - 1) as real, Pow(1.0 - y, n), n as real);
    }
  }

  lemma DecayStep(y: real, p: real, n: real, p': real, n': real)
    requires 0.0 < y < 1.0 && p > 0.0 && n >= 0.0 && p * (1.0 + n * y) <= 1.0
    requires p' == (1.0 - y) * p && n' == n + 1.0
    ensures p' * (1.0 + n' * y) <= 1.0
  {
    var e := n' * (y * y);
    assert e >= 0.0;
    assert (1.0 - y) * (1.0 + n' * y) == 1.0 + n * y - e;
    Scaled(p, 1.0 + n * y - e, 1.0 + n * y);
    Regroup(1.0 - y, p, 1.0 + n' * y);
  }

  lemma Regroup(a: real, b: real, c: real)
    ensures (a * b) * c == b * (a * c)
  {
  }

  /** 1-based position of the byte an interval ends at. */
  predicate EndsAt(q: real, u: real, k: nat) {
    k >= 1 && Pow(q, k) < u <= Pow(q, k - 1)
  }

  function FirstBelow(q: real, u: real, k: nat, bound: nat): (r: nat)
    requires 0.0 < q < 1.0 && 1 <= k <= bound && Pow(q, bound) < u && u <= Pow(q, k - 1)
    ensures EndsAt(q, u, r)
    decreases bound - k
  {
    if Pow(q, k) < u then k else FirstBelow(q, u, k + 1, bound)
  }

  /** How far a search has to go at most. */
  function Horizon(mean: nat): (n: nat)
    requires mean > 1
    ensures n >= 1
  {
    UNITS * mean
  }

  lemma HorizonSuffices(mean: nat, bits: nat)
    requires mean > 1 && bits <= UINT64_MAX
    ensures Pow(Survival(mean), Horizon(mean)) < Uniform(bits)
  {
    var y, n := 1.0 / mean as real, Horizon(mean) as real;
    Decay(y, Horizon(mean));
    Enough(n, mean as real, y);
    BelowReciprocal(Pow(1.0 - y, Horizon(mean)), n * y, UNITS as real);
    LeastDraw(bits);
  }

  lemma BelowReciprocal(p: real, z: real, n: real)
    requires p > 0.0 && n > 0.0 && z == n && p * (1.0 + z) <= 1.0
    ensures p < 1.0 / n
  {
    assert p * (1.0 + n) == p + p * n;
    Divided(1.0, n);
    if p >= 1.0 / n {
      Grows(1.0 / n, p, n);
    }
  }

  lemma Grows(a: real, b: real, n: real)
    requires a <= b && n > 0.0
    ensures a * n <= b * n
  {
  }

  lemma LeastDraw(bits: nat)
    requires bits <= UINT64_MAX
    ensures Uniform(bits) >= 1.0 / UNITS as real
  {
    var k := (bits / 2048) as real + 1.0;
    assert k >= 1.0;
    QuotientGrows(1.0, k, UNITS as real);
  }

  lemma QuotientGrows(a: real, b: real, n: real)
    requires a <= b && n > 0.0
    ensures a / n <= b / n
  {
  }

  lemma Enough(n: real, m: real, y: real)
    requires m > 0.0 && y == 1.0 / m && n == UNITS as real * m
    ensures n * y == UNITS as real
  {
    Divided(1.0, m);
  }

  lemma Divided(a: real, b: real)
    requires a > 0.0 && b > 0.0
    ensures (a / b) * b == a && a / b > 0.0
  {
  }

  lemma CutOff(q: real, k: nat)
    requires 0.0 < q <= 1.0
    ensures k >= UINT64_MAX ==> Pow(q, k - 1) <= Pow(q, UINT64_MAX - 1)
  {
    if k >= UINT64_MAX {
      PowAntitone(q, UINT64_MAX - 1, k - 1);
    }
  }

  /** lp_memory_geometric_interval: floor(log u / log q) + 1 is the `k` with
      q^k < u <= q^(k-1), cut off at the largest 64-bit number. */
  function GeometricInterval(mean: nat, bits: nat): (r: nat)
    requires bits <= UINT64_MAX
    ensures 1 <= r <= UINT64_MAX && (mean <= 1 ==> r == 1)
    ensures mean > 1 ==> Uniform(bits) <= Pow(Survival(mean), r - 1)
    ensures mean > 1 && r < UINT64_MAX ==> Pow(Survival(mean), r) < Uniform(bits)
  {
    if mean <= 1 then 1
    else
      HorizonSuffices(mean, bits);
      var k := FirstBelow(Survival(mean), Uniform(bits), 1, Horizon(mean));
      CutOff(Survival(mean), k);
      if k >= UINT64_MAX then UINT64_MAX else k
  }

  /** lp_memory_sample_probability: -expm1(size * log1p(-1/mean)). */
  function SampleProbability(mean: nat, size: nat): (p: real)
    ensures 0.0 <= p <= 1.0
  {
    if size == 0 then 0.0
    else if mean <= 1 then 1.0
    else 1.0 - Pow(Survival(mean), size)
  }

  /** A block of `n` bytes holds the end of an interval exactly for the draws above
      q^n, that is with the stated probability. */
  lemma IncludedWithProbability(mean: nat, bits: nat, n: nat)
    requires bits <= UINT64_MAX && 1 <= n < UINT64_MAX
    ensures GeometricInterval(mean, bits) <= n <==> Uniform(bits) > 1.0 - SampleProbability(mean, n)
  {
    if mean > 1 {
      var q, u := Survival(mean), Uniform(bits);
      HorizonSuffices(mean, bits);
      var k := FirstBelow(q, u, 1, Horizon(mean));
      if k <= n {
        PowAntitone(q, k, n);
      } else {
        PowAntitone(q, n, k - 1);
      }
    }
  }

  /** The chance that the interval is at most `n`: the chances of 1, 2, ..., n. */
  function GeometricSum(mean: nat, n: nat): real
    requires mean >= 1
  {
    if n == 0 then 0.0
    else GeometricSum(mean, n - 1) + Pow(Survival(mean), n - 1) * (1.0 / mean as real)
  }

  lemma {:induction false} ProbabilityIsGeometricSum(mean: nat, n: nat)
    requires mean > 1
    ensures SampleProbability(mean, n) == GeometricSum(mean, n)
  {
    if n > 0 {
      ProbabilityIsGeometricSum(mean, n - 1);
      var p, y := Pow(Survival(mean), n - 1), 1.0 / mean as real;
      assert Pow(Survival(mean), n) == (1.0 - y) * p == p - p * y;
    }
  }

  /** randomized_weight: round up with the probability of the fraction. */
  function RandomizedWeight(value: real, uniform: real): (w: nat) {
    if value >= UINT64_MAX as real then UINT64_MAX
    else if value <= 1.0 then 1
    else value.Floor + (if uniform < value - value.Floor as real then 1 else 0)
  }

  function SpaceWeight(mean: nat, size: nat, uniform: real): nat
    requires mean >= 1 && size >= 1
  {
    SomeChance(mean, size);
    RandomizedWeight(size as real / SampleProbability(mean, size), uniform)
  }

  function ObjectsWeight(mean: nat, size: nat, uniform: real): nat
    requires mean >= 1 && size >= 1
  {
    SomeChance(mean, size);
    RandomizedWeight(1.0 / SampleProbability(mean, size), uniform)
  }

  lemma SomeChance(mean: nat, size: nat)
    requires mean >= 1 && size >= 1
    ensures SampleProbability(mean, size) > 0.0
  {
    if mean > 1 {
      PowAntitone(Survival(mean), 1, size);
      assert Pow(Survival(mean), 1) == Survival(mean) * Pow(Survival(mean), 0);
    }
  }

  lemma RoundedWithinOne(value: real, uniform: real)
    requires 1.0 <= value < UINT64_MAX as real && 0.0 <= uniform
    ensures value - 1.0 < RandomizedWeight(value, uniform) as real < value + 1.0
    ensures RandomizedWeight(value, uniform) >= value.Floor
  {
  }

  /** The expected byte count: by Bernoulli's inequality never below the mean
      interval, and never below the block itself. */
  lemma ExpectedSpace(mean: nat, size: nat)
    requires mean >= 1 && size >= 1
    ensures SampleProbability(mean, size) > 0.0
    ensures size as real / SampleProbability(mean, size) >= size as real
    ensures size as real / SampleProbability(mean, size) >= mean as real
  {
    var p, n, m := SampleProbability(mean, size), size as real, mean as real;
    SomeChance(mean, size);
    QuotientAtLeast(n, p, n);
    if mean > 1 {
      Bernoulli(1.0 / m, size);
      Share(n, m, p);
      QuotientAtLeast(n, p, m);
    }
  }

  lemma QuotientAtLeast(n: real, p: real, bound: real)
    requires p > 0.0 && n >= bound * p
    ensures n / p >= bound
  {
    if n / p < bound {
      Divides(n, p);
      Scaled3(n / p, bound, p);
    }
  }

  lemma Divides(n: real, p: real)
    requires p > 0.0
    ensures (n / p) * p == n
  {
  }

  lemma Scaled3(a: real, b: real, c: real)
    requires a < b && c > 0.0
    ensures a * c < b * c
  {
  }

  lemma Share(n: real, m: real, p: real)
    requires m > 0.0 && n > 0.0 && p <= n * (1.0 / m)
    ensures m * p <= n
  {
    Scaled(m, p, n * (1.0 / m));
    var y := 1.0 / m;
    assert m * y == 1.0;
    assert m * (n * y) == n * (m * y);
  }

  /** Space weights: at least the block and at least the mean interval, and within
      one of size over probability unless the 64-bit cap is hit. */
  lemma SpaceWeightBounds(mean: nat, size: nat, uniform: real)
    requires 1 <= mean <= UINT64_MAX && 1 <= size <= UINT64_MAX && 0.0 <= uniform < 1.0
    ensures SampleProbability(mean, size) > 0.0
    ensures SpaceWeight(mean, size, uniform) >= size && SpaceWeight(mean, size, uniform) >= mean
    ensures var value := size as real / SampleProbability(mean, size);
      && (value < UINT64_MAX as real ==> value - 1.0 < SpaceWeight(mean, size, uniform) as real < value + 1.0)
      && (value >= UINT64_MAX as real ==> SpaceWeight(mean, size, uniform) == UINT64_MAX)
  {
    ExpectedSpace(mean, size);
    var value := size as real / SampleProbability(mean, size);
    if value < UINT64_MAX as real {
      RoundedWithinOne(value, uniform);
      FloorAtLeast(value, size);
      FloorAtLeast(value, mean);
    }
  }

  lemma FloorAtLeast(value: real, n: nat)
    requires value >= n as real
    ensures value.Floor >= n
  {
  }

  /** At one byte per sample nothing is estimated: weights are exact. */
  lemma ExactWeights(size: nat, uniform: real)
    requires 1 <= size < UINT64_MAX && 0.0 <= uniform
    ensures SpaceWeight(1, size, uniform) == size && ObjectsWeight(1, size, uniform) == 1
  {
    assert size as real / 1.0 == size as real;
  }

  /** lp_memory_profile_should_sample, less the weights: was the allocation
      selected, and the budget after it. `draw` is the next interval. */
  function Spend(budget: nat, size: nat, draw: nat): (r: (bool, nat))
    requires budget >= 1 && draw >= 1
    ensures r.1 >= 1
  {
    if size == 0 then (false, budget)
    else if size < budget then (false, budget - size)
    else (true, draw)
  }

  /** The budget before allocation `n`. */
  function Budget(first: nat, sizes: seq<nat>, draws: seq<nat>, n: nat): (b: nat)
    requires first >= 1 && n <= |sizes| == |draws|
    requires forall i: nat :: i < |draws| ==> draws[i] >= 1
    ensures b >= 1
  {
    if n == 0 then first else Spend(Budget(first, sizes, draws, n - 1), sizes[n - 1], draws[n - 1]).1
  }

  function Total(sizes: seq<nat>, n: nat): nat
    requires n <= |sizes|
  {
    if n == 0 then 0 else Total(sizes, n - 1) + sizes[n - 1]
  }

  /** The byte position that selects next: each interval starts at the end of the
      allocation the previous one selected. */
  function NextPoint(first: nat, sizes: seq<nat>, draws: seq<nat>, n: nat): nat
    requires n <= |sizes| == |draws|
  {
    if n == 0 then first
    else
      var point := NextPoint(first, sizes, draws, n - 1);
      if sizes[n - 1] > 0 && Total(sizes, n) >= point then Total(sizes, n) + draws[n - 1] else point
  }

  /** Exactly those allocations are selected whose bytes reach the next point. */
  lemma {:induction false} SelectionFollowsTheByteSum(first: nat, sizes: seq<nat>, draws: seq<nat>, n: nat)
    requires first >= 1 && n < |sizes| == |draws|
    requires forall i: nat :: i < |draws| ==> draws[i] >= 1
    ensures NextPoint(first, sizes, draws, n) == Total(sizes, n) + Budget(first, sizes, draws, n)
    ensures Spend(Budget(first, sizes, draws, n), sizes[n], draws[n]).0
            <==> sizes[n] > 0 && Total(sizes, n + 1) >= NextPoint(first, sizes, draws, n)
  {
    if n > 0 {
      SelectionFollowsTheByteSum(first, sizes, draws, n - 1);
    }
  }
}

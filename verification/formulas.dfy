/** The closed-form throughput formulas shared by both profilers. Quantities the
    source holds in `double` are exact reals here; counts are unbounded integers. */
module Formulas {
  import opened Parameters

  /** `std::min`: the first argument unless the second is strictly smaller. */
  function Min(a: real, b: real): (r: real)
    ensures r <= a && r <= b
    ensures r == a || r == b
  {
    if b < a then b else a
  }

  /** Operations one processing element completes per cycle: one level per cycle. */
  function ComputeRatePE(depth: int): (r: real)
    requires depth != 0
    ensures r * depth as real == 1.0
    ensures depth > 0 ==> 0.0 < r <= 1.0
  {
    1.0 / depth as real
  }

  /** Inference operations per second (in millions) of a whole engine: every processing
      element of every compute unit at the element rate, once per clock cycle. */
  function ComputeRateEngine(freq: int, nCu: int, nCuPe: int, depth: int): (r: real)
    requires depth != 0
    ensures r == (freq * nCu * nCuPe) as real * ComputeRatePE(depth)
    ensures freq > 0 && nCu > 0 && nCuPe > 0 && depth > 0 ==> r > 0.0
  {
    (freq * nCu * nCuPe) as real / depth as real
  }

  /** Tuples per second one engine classifies: each tuple visits every one of the
      `nTrees` trees, one level per cycle of a processing element. */
  function ThroughputEngine(freq: int, nCu: int, nCuPe: int, depth: int, nTrees: int): (r: real)
    requires depth != 0 && nTrees != 0
    ensures freq > 0 && nCu > 0 && nCuPe > 0 && depth > 0 && nTrees > 0 ==> r > 0.0
  {
    LevelsPerSecond(freq, nCu, nCuPe) / (depth * nTrees) as real
  }

  /** Tree levels all processing elements of an engine traverse per second. */
  function LevelsPerSecond(freq: int, nCu: int, nCuPe: int): (r: real)
  {
    freq as real * HzPerMHz * nCu as real * nCuPe as real
  }

  /** Tuples per second a memory channel of `bandwidth` bytes per second can deliver. */
  function ThroughputMemory(bandwidth: real, tupleBytes: int): (r: real)
    requires tupleBytes != 0
    ensures r * tupleBytes as real == bandwidth
    ensures bandwidth > 0.0 && tupleBytes > 0 ==> r > 0.0
  {
    bandwidth / tupleBytes as real
  }

  /** Tuples per second an inter-FPGA link of `bandwidth` bytes per second can carry. */
  function ThroughputNetwork(bandwidth: real, tupleBytes: int): (r: real)
    requires tupleBytes != 0
    ensures r * tupleBytes as real == bandwidth
    ensures bandwidth > 0.0 && tupleBytes > 0 ==> r > 0.0
  {
    bandwidth / tupleBytes as real
  }

  /** Tuples per second of `nFpgas` engines working side by side. */
  function ThroughputDistributedEngine(nFpgas: int, tEngine: real): (r: real)
    ensures nFpgas == 0 ==> r == 0.0
    ensures nFpgas == 1 ==> r == tEngine
  {
    nFpgas as real * tEngine
  }

  /** The single-FPGA bottleneck: the slower of the engine and the memory. */
  function SystemThroughput(tEngine: real, tMemory: real): (r: real)
    ensures r <= tEngine && r <= tMemory
    ensures r == tEngine || r == tMemory
  {
    Min(tEngine, tMemory)
  }

  // ---------------------------------------------------------------------------
  // Properties of the formulas

  /** Distributing scales linearly: n engines deliver n times one engine, and
      adding engines adds their throughputs. */
  lemma DistributedScalesLinearly(n: int, m: int, t: real)
    ensures ThroughputDistributedEngine(n, t) == n as real * ThroughputDistributedEngine(1, t)
    ensures ThroughputDistributedEngine(n + m, t)
         == ThroughputDistributedEngine(n, t) + ThroughputDistributedEngine(m, t)
    ensures 0 <= n <= m && t >= 0.0 ==>
              ThroughputDistributedEngine(n, t) <= ThroughputDistributedEngine(m, t)
  {
    if 0 <= n <= m && t >= 0.0 {
      DistributedMonotone(n, m, t);
    }
  }

  lemma DistributedMonotoneInEngine(n: int, t1: real, t2: real)
    requires n >= 0 && t1 <= t2
    ensures ThroughputDistributedEngine(n, t1) <= ThroughputDistributedEngine(n, t2)
  {
    var a, b := n as real * t1, n as real * t2;
    MulRightMonotone(n as real, t1, t2);
    assert a <= b;
    assert ThroughputDistributedEngine(n, t1) == a;
    assert ThroughputDistributedEngine(n, t2) == b;
  }

  lemma DistributedMonotone(n: int, m: int, t: real)
    requires 0 <= n <= m && t >= 0.0
    ensures ThroughputDistributedEngine(n, t) <= ThroughputDistributedEngine(m, t)
  {
    var a, b := n as real * t, m as real * t;
    MulLeftMonotone(n as real, m as real, t);
    assert a <= b;
    assert ThroughputDistributedEngine(n, t) == a;
    assert ThroughputDistributedEngine(m, t) == b;
  }

  /** The bottleneck of two rates is their greatest lower bound. */
  lemma SystemThroughputIsGreatestLowerBound(tEngine: real, tMemory: real, x: real)
    requires x <= tEngine && x <= tMemory
    ensures x <= SystemThroughput(tEngine, tMemory)
  {
  }

  /** A faster engine or memory never lowers the bottleneck. */
  lemma SystemThroughputMonotone(e1: real, e2: real, m1: real, m2: real)
    requires e1 <= e2 && m1 <= m2
    ensures SystemThroughput(e1, m1) <= SystemThroughput(e2, m2)
  {
  }

  /** Engine throughput grows with the clock, the compute units and the processing
      elements, and shrinks with the tree depth and the number of trees. */
  lemma ThroughputEngineMonotone(
    f1: int, f2: int, cu1: int, cu2: int, pe1: int, pe2: int,
    d1: int, d2: int, t1: int, t2: int)
    requires 0 < f1 <= f2 && 0 < cu1 <= cu2 && 0 < pe1 <= pe2
    requires 0 < d2 <= d1 && 0 < t2 <= t1
    ensures ThroughputEngine(f1, cu1, pe1, d1, t1) <= ThroughputEngine(f2, cu2, pe2, d2, t2)
  {
    var h := HzPerMHz;
    ProductMonotone(f1 as real * h, f2 as real * h, cu1 as real, cu2 as real);
    ProductMonotone(f1 as real * h * cu1 as real, f2 as real * h * cu2 as real, pe1 as real, pe2 as real);
    assert 0.0 < LevelsPerSecond(f1, cu1, pe1) <= LevelsPerSecond(f2, cu2, pe2);
    ProductMonotone(d2 as real, d1 as real, t2 as real, t1 as real);
    CastProduct(d1, t1);
    CastProduct(d2, t2);
    DivMonotone(LevelsPerSecond(f1, cu1, pe1), LevelsPerSecond(f2, cu2, pe2), (d1 * t1) as real, (d2 * t2) as real);
  }

  /** The engine serves every tuple once per tree: its tuple rate is the engine's
      operation rate, converted from MHz to Hz, shared among the trees. */
  lemma ThroughputEngineFromComputeRate(freq: int, nCu: int, nCuPe: int, depth: int, nTrees: int)
    requires depth != 0 && nTrees != 0
    ensures ThroughputEngine(freq, nCu, nCuPe, depth, nTrees)
         == ComputeRateEngine(freq, nCu, nCuPe, depth) * HzPerMHz / nTrees as real
  {
    CastProduct(freq, nCu);
    CastProduct(freq * nCu, nCuPe);
    CastProduct(depth, nTrees);
  }

  /** Doubling the depth halves the engine throughput: the cost is linear in depth. */
  lemma ThroughputEngineInverseInDepth(freq: int, nCu: int, nCuPe: int, depth: int, nTrees: int, k: int)
    requires depth != 0 && nTrees != 0 && k > 0
    ensures ThroughputEngine(freq, nCu, nCuPe, k * depth, nTrees) * k as real
         == ThroughputEngine(freq, nCu, nCuPe, depth, nTrees)
  {
    var n := freq as real * HzPerMHz * nCu as real * nCuPe as real;
    var b := (depth * nTrees) as real;
    assert (k * depth * nTrees) as real == k as real * b;
    assert ThroughputEngine(freq, nCu, nCuPe, k * depth, nTrees) == n / (k as real * b);
  }

  // ---------------------------------------------------------------------------
  // Arithmetic helpers

  lemma MulLeftMonotone(a: real, b: real, c: real)
    requires a <= b && c >= 0.0
    ensures a * c <= b * c
  {
  }

  lemma MulRightMonotone(a: real, b: real, c: real)
    requires b <= c && a >= 0.0
    ensures a * b <= a * c
  {
  }

  lemma CastProduct(a: int, b: int)
    ensures (a * b) as real == a as real * b as real
  {
  }

  lemma ProductMonotone(a1: real, a2: real, b1: real, b2: real)
    requires 0.0 < a1 <= a2 && 0.0 < b1 <= b2
    ensures 0.0 < a1 * b1 <= a2 * b2
  {
    MulLeftMonotone(a1, a2, b1);
    MulRightMonotone(a2, b1, b2);
  }

  lemma DivMonotone(n1: real, n2: real, b1: real, b2: real)
    requires 0.0 <= n1 <= n2 && 0.0 < b2 <= b1
    ensures n1 / b1 <= n2 / b2
  {
    assert n1 / b1 <= n2 / b1;
    assert n2 / b1 <= n2 / b2 by {
      var x, y := n2 / b1, n2 / b2;
      assert x * b1 == n2 == y * b2;
      MulRightMonotone(x, b2, b1);
      if y < x {
        assert false;
      }
    }
  }
}

/** The single-point estimator: does one fixed workload fit the node capacity of one
    FPGA, and if not, how many FPGAs does it need at least, and how many can the PCIe
    link feed at most? */
module SinglePoint {
  import opened Parameters
  import opened Formulas

  datatype Option<T> = None | Some(value: T)

  /** A number of FPGAs and the throughput they deliver together. */
  datatype Provision = Provision(fpgas: int, throughput: real)

  /** What the estimator reports: the two sizes, the minimum provision (only when the
      workload has to be sharded) and the maximum provision. */
  datatype Estimate = Estimate(
    capacity: int,
    desired: int,
    minimum: Option<Provision>,
    maximum: Provision
  )

  /** 2 to the power `n`. */
  function Pow2(n: nat): (r: nat)
    ensures r >= 1
  {
    if n == 0 then 1 else 2 * Pow2(n - 1)
  }

  /** Conversion of a `double` to a `long int`: the fraction is dropped, toward zero. */
  function Trunc(x: real): (r: int)
    ensures 0.0 <= x ==> 0 <= r && r as real <= x < r as real + 1.0
    ensures x < 0.0 ==> r <= 0 && x <= r as real < x + 1.0
  {
    if x >= 0.0 then x.Floor else -((-x).Floor)
  }

  /** Tree nodes one FPGA holds: every processing element of every compute unit
      holds `maxNodesPerPe` nodes. */
  function Capacity(cfg: Config): (r: int)
    ensures cfg.Valid() ==> r > 0
  {
    var elements := cfg.computeUnits * cfg.processingElements;
    assert cfg.Valid() ==> elements * cfg.maxNodesPerPe > 0 by {
      if cfg.Valid() {
        PositiveProduct(cfg.computeUnits, cfg.processingElements);
        PositiveProduct(elements, cfg.maxNodesPerPe);
      }
    }
    elements * cfg.maxNodesPerPe
  }

  /** Tree nodes the workload needs: `nTrees` full binary trees of the given depth. */
  function DesiredNodes(cfg: Config): (r: int)
    requires cfg.treeDepth >= 0
    ensures cfg.nTrees > 0 ==> r > 0
  {
    assert cfg.nTrees > 0 ==> cfg.nTrees * Pow2(cfg.treeDepth) > 0 by {
      if cfg.nTrees > 0 {
        PositiveProduct(cfg.nTrees, Pow2(cfg.treeDepth));
      }
    }
    cfg.nTrees * Pow2(cfg.treeDepth)
  }

  /** The engine throughput of the configured trees. */
  function EngineThroughput(cfg: Config): (r: real)
    requires cfg.Valid()
    ensures r > 0.0
  {
    ThroughputEngine(cfg.freqMHz, cfg.computeUnits, cfg.processingElements, cfg.treeDepth, cfg.nTrees)
  }

  /** Bytes per second one engine moves over PCIe when it runs at full rate. */
  function ConsumedBandwidth(cfg: Config): (r: real)
    requires cfg.Valid()
    ensures r > 0.0
  {
    EngineThroughput(cfg) * cfg.tupleBytes as real
  }

  /** The "minimum" FPGA count: how many whole FPGA capacities the workload fills. */
  function MinFpgas(cfg: Config): (r: int)
    requires cfg.Valid()
    ensures r >= 0
  {
    DivBounds(DesiredNodes(cfg), Capacity(cfg));
    DesiredNodes(cfg) / Capacity(cfg)
  }

  /** The "maximum" FPGA count: the most engines whose total PCIe traffic stays within
      the PCIe bandwidth. */
  function MaxFpgas(cfg: Config): (r: int)
    requires cfg.Valid()
    ensures r >= 0
  {
    var q := cfg.pcieGBps * BytesPerGB / ConsumedBandwidth(cfg);
    QuotientBounds(q, cfg.pcieGBps * BytesPerGB, ConsumedBandwidth(cfg));
    q.Floor
  }

  /** The estimator itself. The locals are assigned in the order the driver assigns
      them; the minimum is reported only when the workload is sharded. */
  method EstimateFpgas(cfg: Config) returns (e: Estimate)
    requires cfg.Valid()
    ensures e.capacity == Capacity(cfg) && e.desired == DesiredNodes(cfg)
    ensures e.minimum.None? <==> e.desired <= e.capacity
    ensures e.desired <= e.capacity ==>
              e.maximum == Provision(1, EngineThroughput(cfg))
    ensures e.desired > e.capacity ==>
              e.minimum == Some(Provision(MinFpgas(cfg),
                                          ThroughputDistributedEngine(MinFpgas(cfg), EngineThroughput(cfg))))
    ensures e.desired > e.capacity ==>
              e.maximum == Provision(MaxFpgas(cfg),
                                     ThroughputDistributedEngine(MaxFpgas(cfg), EngineThroughput(cfg)))
  {
    var maxTreesSizeInFpga := Capacity(cfg);
    var userDesiredTreeSize := DesiredNodes(cfg);
    var maxFpgasNeeded := 0;
    var throughputConsumed := 0.0;
    var distThroughput := 0.0;
    var minFpgasNeeded := 0;
    var minimum := None;
    var tEngine := ThroughputEngine(cfg.freqMHz, cfg.computeUnits, cfg.processingElements,
                                    cfg.treeDepth, cfg.nTrees);
    assert tEngine == EngineThroughput(cfg);
    if userDesiredTreeSize <= maxTreesSizeInFpga {
      maxFpgasNeeded := 1;
      distThroughput := ThroughputDistributedEngine(maxFpgasNeeded, tEngine);
    } else {
      throughputConsumed := tEngine * cfg.tupleBytes as real;
      assert throughputConsumed == ConsumedBandwidth(cfg);
      maxFpgasNeeded := Trunc(cfg.pcieGBps * BytesPerGB / throughputConsumed);
      MaxFpgasIsTruncation(cfg, throughputConsumed);
      // The numerator is a double: the division is a real one, then truncated.
      var wanted := Pow2(cfg.treeDepth) as real * cfg.nTrees as real;
      minFpgasNeeded := Trunc(wanted / maxTreesSizeInFpga as real);
      MinFpgasIsTruncation(cfg, wanted);
      distThroughput := ThroughputDistributedEngine(minFpgasNeeded, tEngine);
      minimum := Some(Provision(minFpgasNeeded, distThroughput));
    }
    distThroughput := ThroughputDistributedEngine(maxFpgasNeeded, tEngine);
    e := Estimate(maxTreesSizeInFpga, userDesiredTreeSize, minimum,
                  Provision(maxFpgasNeeded, distThroughput));
  }

  // ---------------------------------------------------------------------------
  // Properties of the estimate

  /** With the compiled-in configuration the workload does not fit one FPGA: 262144 node
      slots against 2097152 wanted; it needs 8 FPGAs at least, and the PCIe link feeds
      22 engines of 781250 tuples per second. */
  lemma DefaultScenario()
    ensures Capacity(Default) == 262144
    ensures DesiredNodes(Default) == 2097152
    ensures DesiredNodes(Default) > Capacity(Default)
    ensures EngineThroughput(Default) == 781250.0
    ensures MinFpgas(Default) == 8
    ensures MaxFpgas(Default) == 22
  {
    assert Pow2(12) == 4096 by {
      assert Pow2(4) == 16;
      assert Pow2(8) == 256;
    }
    assert (12 * 512) as real == 6144.0;
    assert LevelsPerSecond(150, 4, 8) == 4800000000.0;
    assert EngineThroughput(Default) == 781250.0;
    assert ConsumedBandwidth(Default) == 100000000.0;
    var q := Default.pcieGBps * BytesPerGB / ConsumedBandwidth(Default);
    assert q == 22.0;
  }

  /** The "minimum" count covers the workload exactly when the capacity divides it:
      the floor division undercounts by one FPGA whenever there is a remainder. */
  lemma MinFpgasCoversIffExact(cfg: Config)
    requires cfg.Valid()
    ensures MinFpgas(cfg) * Capacity(cfg) >= DesiredNodes(cfg)
        <==> DesiredNodes(cfg) % Capacity(cfg) == 0
  {
    var d, c := DesiredNodes(cfg), Capacity(cfg);
    MinFpgasBounds(cfg);
    assert d == c * (d / c) + d % c;
    assert MinFpgas(cfg) * c == c * (d / c);
  }

  /** The "minimum" count is the floor of desired over capacity: that many FPGAs hold
      no more than the workload, and one more would hold all of it. */
  lemma MinFpgasBounds(cfg: Config)
    requires cfg.Valid()
    ensures MinFpgas(cfg) * Capacity(cfg) <= DesiredNodes(cfg) < (MinFpgas(cfg) + 1) * Capacity(cfg)
  {
    DivBounds(DesiredNodes(cfg), Capacity(cfg));
  }

  /** The "maximum" count is the floor of the PCIe bandwidth over what one engine
      consumes. */
  lemma MaxFpgasBounds(cfg: Config)
    requires cfg.Valid()
    ensures MaxFpgas(cfg) as real * ConsumedBandwidth(cfg) <= cfg.pcieGBps * BytesPerGB
    ensures cfg.pcieGBps * BytesPerGB < (MaxFpgas(cfg) + 1) as real * ConsumedBandwidth(cfg)
  {
    var q := cfg.pcieGBps * BytesPerGB / ConsumedBandwidth(cfg);
    QuotientBounds(q, cfg.pcieGBps * BytesPerGB, ConsumedBandwidth(cfg));
  }

  /** At the "maximum" count the engines' combined traffic fits the PCIe bandwidth, and
      one more engine would exceed it. */
  lemma MaxFpgasSaturatesPcie(cfg: Config)
    requires cfg.Valid()
    ensures ThroughputDistributedEngine(MaxFpgas(cfg), EngineThroughput(cfg)) * cfg.tupleBytes as real
         <= cfg.pcieGBps * BytesPerGB
    ensures cfg.pcieGBps * BytesPerGB
         < ThroughputDistributedEngine(MaxFpgas(cfg) + 1, EngineThroughput(cfg)) * cfg.tupleBytes as real
  {
    MaxFpgasBounds(cfg);
    var m, t, b := MaxFpgas(cfg) as real, EngineThroughput(cfg), cfg.tupleBytes as real;
    assert m * t * b == m * (t * b);
    assert (m + 1.0) * t * b == (m + 1.0) * (t * b);
  }

  // ---------------------------------------------------------------------------
  // Arithmetic helpers

  /** The source's real division of a product followed by truncation equals integer
      floor division. */
  lemma FloorOfQuotient(x: int, y: int, b: int, w: real)
    requires x >= 0 && y >= 0 && b > 0 && w == x as real * y as real
    ensures Trunc(w / b as real) == (y * x) / b
  {
    CastProduct(y, x);
    NonNegativeProduct(y, x);
    PositiveQuotientFloor(y * x, b);
  }

  lemma PositiveQuotientFloor(a: int, b: int)
    requires a >= 0 && b > 0
    ensures Trunc(a as real / b as real) == a / b
  {
    var q := a / b;
    var v := a as real / b as real;
    DivBounds(a, b);
    QuotientAbove(a, b, q, v);
    QuotientBelow(a, b, q, v);
    FloorUnique(v, q);
  }

  lemma QuotientAbove(a: int, b: int, q: int, v: real)
    requires b > 0 && q * b <= a && v == a as real / b as real
    ensures q as real <= v
  {
    CastProduct(q, b);
    assert q as real * b as real <= a as real;
    assert v * b as real == a as real;
    DivideBounds(q as real, v, b as real);
  }

  lemma QuotientBelow(a: int, b: int, q: int, v: real)
    requires b > 0 && a < (q + 1) * b && v == a as real / b as real
    ensures v < q as real + 1.0
  {
    CastProduct(q + 1, b);
    assert a as real < (q + 1) as real * b as real;
    assert v * b as real == a as real;
    DivideBounds(v, (q + 1) as real, b as real);
  }

  lemma FloorUnique(v: real, q: int)
    requires 0 <= q && q as real <= v < q as real + 1.0
    ensures Trunc(v) == q
  {
  }

  lemma MaxFpgasIsTruncation(cfg: Config, consumed: real)
    requires cfg.Valid() && consumed == ConsumedBandwidth(cfg)
    ensures Trunc(cfg.pcieGBps * BytesPerGB / consumed) == MaxFpgas(cfg)
  {
    TruncOfPositive(cfg.pcieGBps * BytesPerGB, consumed);
  }

  lemma MinFpgasIsTruncation(cfg: Config, wanted: real)
    requires cfg.Valid() && wanted == Pow2(cfg.treeDepth) as real * cfg.nTrees as real
    ensures Trunc(wanted / Capacity(cfg) as real) == MinFpgas(cfg)
  {
    FloorOfQuotient(Pow2(cfg.treeDepth), cfg.nTrees, Capacity(cfg), wanted);
    MinFpgasUnfolded(cfg);
  }

  lemma MinFpgasUnfolded(cfg: Config)
    requires cfg.Valid()
    ensures MinFpgas(cfg) == (cfg.nTrees * Pow2(cfg.treeDepth)) / Capacity(cfg)
  {
  }

  lemma TruncOfPositive(n: real, b: real)
    requires n > 0.0 && b > 0.0
    ensures Trunc(n / b) == (n / b).Floor
  {
    DivideBounds(0.0, n / b, b);
  }

  lemma DivBounds(a: int, b: int)
    requires a >= 0 && b > 0
    ensures a / b >= 0
    ensures (a / b) * b <= a < (a / b + 1) * b
  {
    assert a == b * (a / b) + a % b;
  }

  lemma NonNegativeProduct(a: int, b: int)
    requires a >= 0 && b >= 0
    ensures a * b >= 0
  {
  }

  lemma PositiveProduct(a: int, b: int)
    requires a > 0 && b > 0
    ensures a * b > 0
  {
  }

  lemma DivideBounds(x: real, y: real, b: real)
    requires b > 0.0
    ensures x * b <= y * b <==> x <= y
    ensures x * b < y * b <==> x < y
  {
  }

  lemma QuotientBounds(q: real, n: real, b: real)
    requires n > 0.0 && b > 0.0 && q == n / b
    ensures q.Floor >= 0
    ensures q.Floor as real * b <= n < (q.Floor + 1) as real * b
  {
    var f := q.Floor as real;
    assert q * b == n;
    DivideBounds(0.0, q, b);
    assert (q.Floor + 1) as real == f + 1.0;
    assert f <= q < f + 1.0;
    MulLeftMonotone(f, q, b);
    BelowNextMultiple(q, f + 1.0, b, n);
  }

  lemma BelowNextMultiple(q: real, g: real, b: real, n: real)
    requires b > 0.0 && q < g && n == q * b
    ensures n < g * b
  {
    DivideBounds(q, g, b);
  }
}

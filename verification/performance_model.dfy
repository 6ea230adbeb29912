/** The sweep estimator: system throughput for every pair of an FPGA count and a tree
    depth, bottlenecked by the engines, the memory and, with more than one FPGA, the
    network between them. */
module PerformanceModel {
  import opened Parameters
  import opened Formulas

  /** One line of the printed table. */
  datatype Row = Row(fpgas: int, depth: int, throughput: real)

  /** The FPGA counts of the outer loop. */
  const FpgaCounts: seq<int> := [1, 2, 4, 8, 16]

  /** The tree depths of the inner loop. */
  const DepthLevels: seq<int> := [6, 7, 8, 9, 10, 11, 12, 13]

  /** The system bottleneck for `nFpgas` FPGAs: the network only matters when there is
      more than one FPGA, and a non-positive count yields no throughput at all. */
  function SystemThroughput(tEngine: real, tMemory: real, tNetwork: real, nFpgas: int): (r: real)
    ensures nFpgas > 1 ==> r <= tEngine && r <= tMemory && r <= tNetwork
    ensures nFpgas > 1 ==> r == tEngine || r == tMemory || r == tNetwork
    ensures nFpgas == 1 ==> r == Formulas.SystemThroughput(tEngine, tMemory)
    ensures nFpgas <= 0 ==> r == 0.0
  {
    if nFpgas > 1 then Min(Min(tEngine, tMemory), tNetwork)
    else if nFpgas == 1 then Min(tEngine, tMemory)
    else 0.0
  }

  /** Tuples per second the PCIe link delivers, standing in for the memory. */
  function MemoryThroughput(cfg: Config): (r: real)
    requires cfg.tupleBytes != 0
    ensures cfg.Valid() ==> r > 0.0
  {
    ThroughputMemory(cfg.pcieGBps * BytesPerGB, cfg.tupleBytes)
  }

  /** Tuples per second the inter-FPGA network carries. */
  function NetworkThroughput(cfg: Config): (r: real)
    requires cfg.tupleBytes != 0
    ensures cfg.Valid() ==> r > 0.0
  {
    ThroughputNetwork(cfg.networkGBps * BytesPerGB, cfg.tupleBytes)
  }

  /** The throughput of the row for `n` FPGAs and trees of `depth` levels: the leaves
      are not traversed, so the engine works on `depth - 1` levels. */
  function RowThroughput(cfg: Config, n: int, depth: int): (r: real)
    requires cfg.nTrees != 0 && cfg.tupleBytes != 0 && depth != 1
    ensures n <= 0 ==> r == 0.0
    ensures n >= 1 ==> r <= MemoryThroughput(cfg)
  {
    var tEngine := ThroughputEngine(cfg.freqMHz, cfg.computeUnits, cfg.processingElements,
                                    depth - 1, cfg.nTrees);
    SystemThroughput(ThroughputDistributedEngine(n, tEngine),
                     MemoryThroughput(cfg), NetworkThroughput(cfg), n)
  }

  /** The rows for FPGA count `n`, one per depth, in order. */
  function DepthRows(cfg: Config, n: int, depths: seq<int>): (rows: seq<Row>)
    requires cfg.nTrees != 0 && cfg.tupleBytes != 0
    requires forall j :: 0 <= j < |depths| ==> depths[j] != 1
    ensures |rows| == |depths|
  {
    if depths == [] then []
    else
      var last := depths[|depths| - 1];
      DepthRows(cfg, n, depths[..|depths| - 1]) + [Row(n, last, RowThroughput(cfg, n, last))]
  }

  /** The whole table: the rows of each FPGA count in turn. */
  function SweepRows(cfg: Config, counts: seq<int>, depths: seq<int>): (rows: seq<Row>)
    requires cfg.nTrees != 0 && cfg.tupleBytes != 0
    requires forall j :: 0 <= j < |depths| ==> depths[j] != 1
    ensures |rows| == |counts| * |depths|
  {
    if counts == [] then []
    else
      var init := counts[..|counts| - 1];
      assert |init| * |depths| + |depths| == |counts| * |depths|;
      SweepRows(cfg, init, depths) + DepthRows(cfg, counts[|counts| - 1], depths)
  }

  /** The sweep: the two bandwidth throughputs, then one row per pair, FPGA count in the
      outer loop and depth in the inner loop. */
  method Sweep(cfg: Config, counts: seq<int>, depths: seq<int>)
    returns (tMemory: real, tNetwork: real, rows: seq<Row>)
    requires cfg.nTrees != 0 && cfg.tupleBytes != 0
    requires forall j :: 0 <= j < |depths| ==> depths[j] != 1
    ensures tMemory == MemoryThroughput(cfg) && tNetwork == NetworkThroughput(cfg)
    ensures rows == SweepRows(cfg, counts, depths)
  {
    tNetwork := cfg.networkGBps * BytesPerGB / cfg.tupleBytes as real;
    tMemory := cfg.pcieGBps * BytesPerGB / cfg.tupleBytes as real;
    rows := [];
    for i := 0 to |counts|
      invariant rows == SweepRows(cfg, counts[..i], depths)
    {
      ghost var done := rows;
      for j := 0 to |depths|
        invariant rows == done + DepthRows(cfg, counts[i], depths[..j])
      {
        var tEngine := ThroughputEngine(cfg.freqMHz, cfg.computeUnits, cfg.processingElements,
                                        depths[j] - 1, cfg.nTrees);
        var tDistributed := ThroughputDistributedEngine(counts[i], tEngine);
        var tSystem := SystemThroughput(tDistributed, tMemory, tNetwork, counts[i]);
        assert depths[..j + 1][..j] == depths[..j];
        rows := rows + [Row(counts[i], depths[j], tSystem)];
      }
      assert depths[..|depths|] == depths;
      assert counts[..i + 1][..i] == counts[..i];
    }
    assert counts[..|counts|] == counts;
  }

  /** Row `k` of the table belongs to the FPGA count at `k / |depths|` and the depth at
      `k % |depths|`: the FPGA count is the outer loop, the depth the inner one. */
  lemma {:induction false} SweepRowsAt(cfg: Config, counts: seq<int>, depths: seq<int>, k: int)
    requires cfg.nTrees != 0 && cfg.tupleBytes != 0
    requires forall j :: 0 <= j < |depths| ==> depths[j] != 1
    requires 0 <= k < |counts| * |depths|
    ensures |SweepRows(cfg, counts, depths)| == |counts| * |depths|
    ensures 0 < |depths|
    ensures SweepRows(cfg, counts, depths)[k]
         == Row(counts[k / |depths|], depths[k % |depths|],
                RowThroughput(cfg, counts[k / |depths|], depths[k % |depths|]))
  {
    var d := |depths|;
    var i, j := k / d, k % d;
    BlockOf(k, |counts|, d);
    assert i * d + j == k;
    SweepRowsAtBlock(cfg, counts, depths, i, j);
  }

  /** The row of outer index `i` and inner index `j` sits at `i * |depths| + j`. */
  lemma {:induction false} SweepRowsAtBlock(cfg: Config, counts: seq<int>, depths: seq<int>, i: int, j: int)
    requires cfg.nTrees != 0 && cfg.tupleBytes != 0
    requires forall j :: 0 <= j < |depths| ==> depths[j] != 1
    requires 0 <= i < |counts| && 0 <= j < |depths|
    ensures i * |depths| + j < |SweepRows(cfg, counts, depths)|
    ensures SweepRows(cfg, counts, depths)[i * |depths| + j]
         == Row(counts[i], depths[j], RowThroughput(cfg, counts[i], depths[j]))
  {
    var d, c := |depths|, |counts|;
    var init := counts[..c - 1];
    var front := SweepRows(cfg, init, depths);
    var back := DepthRows(cfg, counts[c - 1], depths);
    assert SweepRows(cfg, counts, depths) == front + back;
    BlockBelow(i, j, c, d);
    if i < c - 1 {
      SweepRowsAtBlock(cfg, init, depths, i, j);
      assert init[i] == counts[i];
    } else {
      DepthRowsAt(cfg, counts[c - 1], depths, j);
    }
  }

  /** Row `j` for one FPGA count is the row of the depth at `j`. */
  lemma {:induction false} DepthRowsAt(cfg: Config, n: int, depths: seq<int>, j: int)
    requires cfg.nTrees != 0 && cfg.tupleBytes != 0
    requires forall i :: 0 <= i < |depths| ==> depths[i] != 1
    requires 0 <= j < |depths|
    ensures DepthRows(cfg, n, depths)[j] == Row(n, depths[j], RowThroughput(cfg, n, depths[j]))
  {
    if j < |depths| - 1 {
      DepthRowsAt(cfg, n, depths[..|depths| - 1], j);
    }
  }

  /** The driver as compiled: the sweep over the fixed enumerations. */
  method DefaultSweep() returns (tMemory: real, tNetwork: real, rows: seq<Row>)
    ensures tMemory == 17187500.0 && tNetwork == 23437500.0
    ensures |rows| == 40
    ensures forall k :: 0 <= k < 40 ==>
              rows[k].fpgas == FpgaCounts[k / 8] && rows[k].depth == DepthLevels[k % 8]
    ensures rows[0] == Row(1, 6, 1875000.0)
    ensures rows[32] == Row(16, 6, 17187500.0)
    ensures rows[39] == Row(16, 13, 12500000.0)
  {
    DefaultIsValid();
    tMemory, tNetwork, rows := Sweep(Default, FpgaCounts, DepthLevels);
    forall k | 0 <= k < 40
      ensures rows[k].fpgas == FpgaCounts[k / 8] && rows[k].depth == DepthLevels[k % 8]
    {
      SweepRowsAt(Default, FpgaCounts, DepthLevels, k);
    }
    SweepRowsAt(Default, FpgaCounts, DepthLevels, 0);
    SweepRowsAt(Default, FpgaCounts, DepthLevels, 32);
    SweepRowsAt(Default, FpgaCounts, DepthLevels, 39);
    DefaultBandwidths();
    DefaultFirstRow();
    DefaultSixteenFpgaRows();
  }

  // ---------------------------------------------------------------------------
  // Properties of the sweep

  /** With the compiled-in configuration the PCIe link delivers 17187500 tuples per
      second and the network 23437500. */
  lemma DefaultBandwidths()
    ensures MemoryThroughput(Default) == 17187500.0
    ensures NetworkThroughput(Default) == 23437500.0
  {
  }

  /** The first row: one FPGA, depth 6, i.e. 5 traversed levels, gives 1875000 tuples per
      second, the engine being slower than the memory. */
  lemma DefaultFirstRow()
    ensures RowThroughput(Default, 1, 6) == 1875000.0
  {
    assert LevelsPerSecond(150, 4, 8) == 4800000000.0;
    assert ThroughputEngine(150, 4, 8, 5, 512) == 1875000.0;
    DefaultBandwidths();
  }

  /** Sixteen FPGAs: at depth 6 the engines would deliver 30000000 tuples per second and
      the memory caps them at 17187500; at depth 13 the engines (12500000) are the
      bottleneck again. */
  lemma DefaultSixteenFpgaRows()
    ensures RowThroughput(Default, 16, 6) == 17187500.0
    ensures RowThroughput(Default, 16, 13) == 12500000.0
  {
    assert LevelsPerSecond(150, 4, 8) == 4800000000.0;
    assert ThroughputEngine(150, 4, 8, 5, 512) == 1875000.0;
    assert ThroughputEngine(150, 4, 8, 12, 512) == 781250.0;
    DefaultBandwidths();
  }

  /** With a single FPGA the network plays no part: the row is the slower of the engine
      and the memory, whatever the network bandwidth. */
  lemma SingleFpgaIgnoresNetwork(cfg: Config, depth: int, networkGBps: real)
    requires cfg.nTrees != 0 && cfg.tupleBytes != 0 && depth != 1
    ensures RowThroughput(cfg, 1, depth)
         == Formulas.SystemThroughput(
              ThroughputEngine(cfg.freqMHz, cfg.computeUnits, cfg.processingElements, depth - 1, cfg.nTrees),
              MemoryThroughput(cfg))
    ensures RowThroughput(cfg, 1, depth) == RowThroughput(cfg.(networkGBps := networkGBps), 1, depth)
  {
    var tEngine := ThroughputEngine(cfg.freqMHz, cfg.computeUnits, cfg.processingElements, depth - 1, cfg.nTrees);
    assert ThroughputDistributedEngine(1, tEngine) == tEngine;
  }

  /** No row exceeds what the memory delivers, nor, with several FPGAs, what the network
      carries, nor what the engines compute. */
  lemma RowBoundedByBottlenecks(cfg: Config, n: int, depth: int)
    requires cfg.nTrees != 0 && cfg.tupleBytes != 0 && depth != 1 && n >= 1
    ensures RowThroughput(cfg, n, depth) <= MemoryThroughput(cfg)
    ensures n > 1 ==> RowThroughput(cfg, n, depth) <= NetworkThroughput(cfg)
    ensures RowThroughput(cfg, n, depth)
         <= ThroughputDistributedEngine(n, ThroughputEngine(cfg.freqMHz, cfg.computeUnits,
                                                            cfg.processingElements, depth - 1, cfg.nTrees))
  {
  }

  /** A faster engine never lowers the system throughput, for any FPGA count. */
  lemma SystemThroughputMonotoneInEngine(e1: real, e2: real, tMemory: real, tNetwork: real, n: int)
    requires e1 <= e2
    ensures SystemThroughput(e1, tMemory, tNetwork, n) <= SystemThroughput(e2, tMemory, tNetwork, n)
  {
  }

  /** Deeper trees never raise a row's throughput. */
  lemma RowNonIncreasingInDepth(cfg: Config, n: int, d1: int, d2: int)
    requires cfg.Valid() && n >= 0 && 1 < d1 <= d2
    ensures RowThroughput(cfg, n, d2) <= RowThroughput(cfg, n, d1)
  {
    var f, cu, pe, t := cfg.freqMHz, cfg.computeUnits, cfg.processingElements, cfg.nTrees;
    ThroughputEngineMonotone(f, f, cu, cu, pe, pe, d2 - 1, d1 - 1, t, t);
    var e1 := ThroughputEngine(f, cu, pe, d1 - 1, t);
    var e2 := ThroughputEngine(f, cu, pe, d2 - 1, t);
    DistributedMonotoneInEngine(n, e2, e1);
    SystemThroughputMonotoneInEngine(ThroughputDistributedEngine(n, e2), ThroughputDistributedEngine(n, e1),
                                     MemoryThroughput(cfg), NetworkThroughput(cfg), n);
  }

  /** More FPGAs never lower a row's throughput once the network is in play; going from
      one FPGA to several does not lower it either as long as the network is no slower
      than the memory, as with the compiled-in bandwidths. */
  lemma RowNonDecreasingInFpgas(cfg: Config, n1: int, n2: int, depth: int)
    requires cfg.Valid() && depth > 1 && 1 <= n1 <= n2
    requires n1 == 1 < n2 ==> MemoryThroughput(cfg) <= NetworkThroughput(cfg)
    ensures RowThroughput(cfg, n1, depth) <= RowThroughput(cfg, n2, depth)
  {
    var e := ThroughputEngine(cfg.freqMHz, cfg.computeUnits, cfg.processingElements, depth - 1, cfg.nTrees);
    DistributedScalesLinearly(n1, n2, e);
    var m, w := MemoryThroughput(cfg), NetworkThroughput(cfg);
    var t1, t2 := ThroughputDistributedEngine(n1, e), ThroughputDistributedEngine(n2, e);
    assert t1 <= t2;
    if n1 == 1 && n2 > 1 {
      assert RowThroughput(cfg, n1, depth) == Min(t1, m);
      assert RowThroughput(cfg, n2, depth) == Min(Min(t2, m), w);
    }
  }

  // ---------------------------------------------------------------------------
  // Helpers

  /** An index below `c * d` is `k / d` blocks of `d` plus the offset `k % d`. */
  lemma BlockOf(k: int, c: int, d: int)
    requires 0 <= c && 0 <= d && 0 <= k < c * d
    ensures 0 < c && 0 < d
    ensures 0 <= k / d < c && 0 <= k % d < d
    ensures k == (k / d) * d + k % d
  {
    assert c != 0 && d != 0;
    RowOf(k, c, d);
  }

  /** Offset `j` of block `i` lies inside the first `c` blocks, and inside the first
      `c - 1` when `i` is not the last. */
  lemma BlockBelow(i: int, j: int, c: int, d: int)
    requires 0 <= i < c && 0 <= j < d
    ensures i * d + j < c * d
    ensures i < c - 1 ==> i * d + j < (c - 1) * d
  {
    assert i * d + d == (i + 1) * d;
    MulBelow(i + 1, c, d);
  }

  lemma MulBelow(a: int, b: int, d: int)
    requires a <= b && 0 < d
    ensures a * d <= b * d
  {
  }

  lemma RowOf(k: int, c: int, d: int)
    requires 0 <= k < c * d && 0 < d
    ensures k / d < c
  {
  }
}

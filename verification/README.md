# Decision-tree FPGA profiler, modelled in Dafny

The profiler is an analytical calculator for a decision-tree inference engine on FPGAs.
It takes the engine's parameters: clock frequency, compute units, processing elements
per unit, tree depth and tree count. It also takes the PCIe and network bandwidths. From
these it estimates tuples classified per second and how many FPGAs a workload needs.
Two drivers share the same closed-form formulas:

- the **single-point estimator** (`profiler/profiler.cpp`). It compares one FPGA's node
  capacity with the nodes the trees need. When the trees do not fit, it reports a
  "minimum" and a "maximum" number of FPGAs and the throughput of each;
- the **sweep estimator** (`profiler/profiler_performance_model.cpp`). It computes the
  system throughput for FPGA counts {1, 2, 4, 8, 16} (outer loop) and tree depths
  {6, ..., 13} (inner loop). The bottleneck is the engines, the memory and, with more
  than one FPGA, the network.

The model has four modules:

- `Parameters` (`parameters.dfy`): the block of `#define` inputs as a `Config` value,
  with the compiled-in values as `Default`.
- `Formulas` (`formulas.dfy`): the helper functions. Four of them are defined in both
  drivers with the same arithmetic: `compute_rate_PE`, `compute_rate_engine`,
  `throughput_engine` and `throughput_distributed_engine` (`profiler.cpp:89-110`,
  `profiler_performance_model.cpp:79-99`). The single-point copy of
  `throughput_engine` also prints its result (`profiler.cpp:100`). Each of the four is
  defined once here. `throughput_memory`, `throughput_network` and the two-argument
  `system_throughput` exist only in `profiler.cpp` (lines 104-118). The sweep has its
  own four-argument `system_throughput`, which is in `PerformanceModel`.
- `SinglePoint` (`single_point.dfy`): the single-point `main`, as the method
  `EstimateFpgas`. It reassigns its locals across the if/else as the source does. It is
  proved against the specification functions `Capacity`, `DesiredNodes`, `MinFpgas` and
  `MaxFpgas`, whose bounds are proved as lemmas.
- `PerformanceModel` (`performance_model.dfy`): the four-argument `SystemThroughput` and
  the sweep `main`. The sweep is the method `Sweep`, two nested `for` loops that build
  the table. It is proved equal to the recursive definition `SweepRows`; `SweepRowsAt`
  then locates every row. `DefaultSweep` runs `Sweep` over the fixed enumerations.

Quantities the source holds in `double` are exact `real`s. Counts are unbounded `int`s.
The source converts `double` to `long int` by truncation toward zero; the model writes
this out as `Trunc`. `pow(2, Depth_tree)` is `Pow2`.

## Model

| member | source | states |
|---|---|---|
| Formulas.Min | profiler/profiler.cpp:117 | `std::min`: at most both arguments and equal to one of them; the first one on a tie. |
| Formulas.ComputeRatePE | profiler/profiler.cpp:89-91 | The element rate times the depth is 1, so it is the reciprocal of the depth; it lies in (0, 1] for a positive depth. |
| Formulas.ComputeRateEngine | profiler/profiler.cpp:93-95 | The engine rate is freq·Ncu·Ncupe times the element rate; it is positive for positive inputs. |
| Formulas.ThroughputEngine | profiler/profiler.cpp:97-102 | Defined only for a non-zero depth and tree count; strictly positive when every input is positive. |
| Formulas.ThroughputEngineFromComputeRate | profiler/profiler.cpp:93-99 | Tuples per second equal the engine's operation rate, converted from MHz to Hz, divided by the number of trees. |
| Formulas.ThroughputEngineMonotone | profiler/profiler.cpp:99 | For positive inputs the throughput does not decrease with freq, Ncu and Ncupe, and does not increase with depth and tree count. |
| Formulas.ThroughputEngineInverseInDepth | profiler/profiler.cpp:99 | Multiplying the depth by k divides the throughput by k. |
| Formulas.ThroughputMemory | profiler/profiler.cpp:104-106 | Throughput times tuple size gives back the bandwidth; positive for positive inputs. |
| Formulas.ThroughputNetwork | profiler/profiler.cpp:112-114 | Throughput times tuple size gives back the bandwidth; positive for positive inputs. |
| Formulas.ThroughputDistributedEngine | profiler/profiler.cpp:108-110 | Nfpgas·T_engine: no FPGAs give nothing, one FPGA gives the engine throughput. |
| Formulas.DistributedMonotone | profiler/profiler.cpp:108-110 | For a non-negative engine throughput, more FPGAs never give less. |
| Formulas.DistributedMonotoneInEngine | profiler/profiler.cpp:108-110 | For a fixed non-negative count, a faster engine never gives less. |
| Formulas.DistributedScalesLinearly | profiler/profiler.cpp:108-110 | n FPGAs give n times one FPGA; throughputs add over FPGA counts; more FPGAs never give less. |
| Formulas.SystemThroughput | profiler/profiler.cpp:116-118 | The result is at most both inputs and equal to one of them. |
| Formulas.SystemThroughputIsGreatestLowerBound | profiler/profiler.cpp:116-118 | Any lower bound of both inputs is at most the result, so the result is the minimum. |
| Formulas.SystemThroughputMonotone | profiler/profiler.cpp:116-118 | A faster engine or memory never lowers the bottleneck. |
| SinglePoint.Trunc | profiler/profiler.cpp:72-75 | The `double` to `long int` conversion rounds toward zero: the result has the sign of the input, and lies within 1 of it on the zero side. |
| SinglePoint.Pow2 | profiler/profiler.cpp:53 | 2^n is at least 1. |
| SinglePoint.Capacity | profiler/profiler.cpp:52 | Ncu·Npe·max_nodes_in_fpga (nodes per processing element) is positive for a valid configuration. |
| SinglePoint.DesiredNodes | profiler/profiler.cpp:53 | N_trees·2^Depth is positive when there are trees. |
| SinglePoint.EngineThroughput | profiler/profiler.cpp:61 | The engine throughput of the configured trees is positive. |
| SinglePoint.ConsumedBandwidth | profiler/profiler.cpp:69 | The PCIe bytes per second one engine consumes are positive. |
| SinglePoint.MinFpgas | profiler/profiler.cpp:75 | The minimum count is non-negative. |
| SinglePoint.MinFpgasBounds | profiler/profiler.cpp:75 | min·capacity ≤ desired < (min+1)·capacity: the minimum is the floor of desired over capacity. |
| SinglePoint.MinFpgasIsTruncation | profiler/profiler.cpp:75 | Truncating the source's double quotient gives exactly the integer floor division. |
| SinglePoint.MinFpgasCoversIffExact | profiler/profiler.cpp:75 | The minimum count holds the whole workload if and only if the capacity divides the desired size. |
| SinglePoint.MaxFpgas | profiler/profiler.cpp:72 | The maximum count is non-negative. |
| SinglePoint.MaxFpgasBounds | profiler/profiler.cpp:69-72 | max·consumed ≤ PCIe_BW·1e9 < (max+1)·consumed. |
| SinglePoint.MaxFpgasIsTruncation | profiler/profiler.cpp:72 | Truncating the source's double quotient gives the floor used by the specification. |
| SinglePoint.MaxFpgasSaturatesPcie | profiler/profiler.cpp:69-72 | The distributed throughput of max FPGAs fits in the PCIe bandwidth; that of max+1 FPGAs exceeds it. |
| SinglePoint.EstimateFpgas | profiler/profiler.cpp:51-86 | Reports capacity and desired size. No minimum is reported exactly when the trees fit. If they fit, the maximum is one FPGA delivering the engine throughput. Otherwise it reports the minimum and maximum counts with their distributed throughputs. |
| SinglePoint.DefaultScenario | profiler/profiler.cpp:51-83 | With the compiled-in inputs: capacity 262144, desired 2097152 (so sharding), engine 781250 tuples/s, minimum 8, maximum 22. |
| PerformanceModel.SystemThroughput | profiler/profiler_performance_model.cpp:101-110 | More than one FPGA: at most each of the three inputs and equal to one of them. One FPGA: the two-input bottleneck of engine and memory. No FPGAs: zero. |
| PerformanceModel.SystemThroughputMonotoneInEngine | profiler/profiler_performance_model.cpp:101-110 | A faster engine never lowers the system throughput, for any FPGA count. |
| PerformanceModel.MemoryThroughput | profiler/profiler_performance_model.cpp:60 | PCIe_BW·1e9/tuple size is positive for a valid configuration. |
| PerformanceModel.NetworkThroughput | profiler/profiler_performance_model.cpp:59 | Network_BW·1e9/tuple size is positive for a valid configuration. |
| PerformanceModel.DefaultBandwidths | profiler/profiler_performance_model.cpp:59-60 | With the compiled-in inputs the memory gives 17187500 and the network 23437500 tuples/s. |
| PerformanceModel.DepthRows | profiler/profiler_performance_model.cpp:69-74 | One FPGA count gives one row per depth level. |
| PerformanceModel.DepthRowsAt | profiler/profiler_performance_model.cpp:69-74 | Row j for one count holds depth depths[j] and that depth's system throughput. |
| PerformanceModel.RowThroughput | profiler/profiler_performance_model.cpp:70-72 | One row's system throughput, using the engine on depth − 1 levels: zero for a non-positive count, and never above the memory throughput for one or more FPGAs. |
| PerformanceModel.SweepRows | profiler/profiler_performance_model.cpp:68-75 | The whole table, one count after another, with (number of counts)·(number of depths) rows. |
| PerformanceModel.SweepRowsAt | profiler/profiler_performance_model.cpp:68-75 | With D depth levels, row k holds count counts[k / D], depth depths[k % D], and system_throughput(n·engine(depth−1), T_memory, T_network, n). So the count is the outer loop and the depth the inner one. |
| PerformanceModel.Sweep | profiler/profiler_performance_model.cpp:50-76 | Returns T_memory, T_network and exactly the table SweepRows, built by the nested loops. |
| PerformanceModel.DefaultSweep | profiler/profiler_performance_model.cpp:50-76 | The compiled-in sweep: T_memory 17187500, T_network 23437500, 40 rows in (count, depth) order. It includes (1, 6) → 1875000, (16, 6) → 17187500 and (16, 13) → 12500000. |
| PerformanceModel.DefaultFirstRow | profiler/profiler_performance_model.cpp:70-72 | The row for one FPGA at depth 6 is min(1875000, 17187500) = 1875000. |
| PerformanceModel.DefaultSixteenFpgaRows | profiler/profiler_performance_model.cpp:70-72 | Sixteen FPGAs: depth 6 is memory-bound at 17187500; depth 13 is engine-bound at 12500000. |
| PerformanceModel.SingleFpgaIgnoresNetwork | profiler/profiler_performance_model.cpp:106-108 | With one FPGA the row is min(engine, memory). It does not change with the network bandwidth. |
| PerformanceModel.RowBoundedByBottlenecks | profiler/profiler_performance_model.cpp:101-110 | For n ≥ 1 a row is at most the memory throughput and the distributed engine throughput; for n > 1 also at most the network throughput. |
| PerformanceModel.RowNonIncreasingInDepth | profiler/profiler_performance_model.cpp:70-72 | Deeper trees never raise a row's throughput. |
| PerformanceModel.RowNonDecreasingInFpgas | profiler/profiler_performance_model.cpp:71-72 | More FPGAs never lower a row's throughput among counts above one. Going from one FPGA to several does not lower it either when the network is no slower than the memory. |

## Left out

- All console output and its formatting, including the diagnostic print inside
  `throughput_engine` (`profiler.cpp:100`): the model returns the printed values instead.
- `system("pause")` (`profiler.cpp:84`): an operating-system call with no effect on
  the computed values.
- IEEE-754 rounding of `double` and `pow`: every quantity is an exact real, so no
  floating-point error is modelled.
- Overflow of the `int` and `long int` products (for example `freq*Ncu*Ncupe` and
  `depth_tree * Ntrees`): counts are unbounded integers, which is exact at these sizes.
- `max_mem_throughput_measured`: the constant is never read.
- `throughput_memory` and `throughput_network` of `profiler_performance_model.cpp`: they
  are declared (lines 45 and 48) but never defined or called. That file computes
  `T_memory` and `T_network` inline, which `Sweep` does too.
- Input validation: the source checks nothing. The formulas require only non-zero
  divisors, which the C++ code would otherwise turn into infinity. The single-point
  estimator requires a configuration of positive quantities.
- The sweep's fixed arrays are immutable sequences. `Sweep` takes them as parameters and
  `DefaultSweep` supplies the compiled-in ones.

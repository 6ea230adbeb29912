/** The user inputs of both profilers: the block of compile-time constants at the
    top of each driver, gathered into one value. */
module Parameters {

  /** Hertz in one megahertz: the clock frequency is given in MHz. */
  const HzPerMHz: real := 1000000.0

  /** Bytes in one gigabyte: the bandwidths are given in GB/s. */
  const BytesPerGB: real := 1000000000.0

  datatype Config = Config(
    nTrees: int,              // number of decision trees
    treeDepth: int,           // depth of each tree, in levels
    tupleBytes: int,          // size of one input tuple, in bytes
    freqMHz: int,             // engine clock frequency, in MHz
    computeUnits: int,        // compute units per engine
    processingElements: int,  // processing elements per compute unit
    maxNodesPerPe: int,       // tree nodes one processing element holds (`max_nodes_in_fpga`)
    pcieGBps: real,           // PCIe bandwidth, in GB/s
    networkGBps: real         // inter-FPGA network bandwidth, in GB/s
  ) {
    /** Every quantity is positive, the only assumption the drivers make. */
    predicate Valid() {
      nTrees > 0 && treeDepth > 0 && tupleBytes > 0 && freqMHz > 0 &&
      computeUnits > 0 && processingElements > 0 && maxNodesPerPe > 0 &&
      pcieGBps > 0.0 && networkGBps > 0.0
    }
  }

  /** The values both drivers are compiled with. */
  const Default: Config := Config(512, 12, 128, 150, 4, 8, 8192, 2.2, 3.0)

  lemma DefaultIsValid()
    ensures Default.Valid()
  {
  }
}

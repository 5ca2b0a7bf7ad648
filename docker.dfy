/**
 * The part of the container runtime's API that the stats derivation reads:
 * one decoded stats snapshot per container, the container list and the node
 * information. The client is a value: each query either fails or answers.
 */
module Docker {
  import opened Wrappers
  import opened GoInt

  /** Cumulative CPU counters: the total and one entry per core. */
  datatype CPUUsage = CPUUsage(totalUsage: uint64, percpuUsage: seq<uint64>)

  /** CPU counters of one period, with the host's system counter. */
  datatype CPUStats = CPUStats(cpuUsage: CPUUsage, systemUsage: uint64, onlineCPUs: uint32)

  /** Memory counters; `stats` holds the cgroup's named counters such as "cache". */
  datatype MemoryStats = MemoryStats(
    usage: uint64,
    stats: map<string, uint64>,
    limit: uint64,
    privateWorkingSet: uint64)

  /**
   * One decoded snapshot. `read` and `preRead` are the instants, in
   * nanoseconds, of this reading and of the previous one; `preCPUStats`
   * holds the counters of the previous reading.
   */
  datatype StatsJSON = StatsJSON(
    name: string,
    id: string,
    read: int,
    preRead: int,
    numProcs: uint32,
    cpuStats: CPUStats,
    preCPUStats: CPUStats,
    memoryStats: MemoryStats)

  /** The answer to a stats request: the snapshot and the daemon's OS type. */
  datatype ContainerStats = ContainerStats(body: StatsJSON, osType: string)

  datatype Container = Container(id: string)

  /** Node information: the swarm node identity and the logical CPU count. */
  datatype Info = Info(nodeID: string, ncpu: int)

  /**
   * The runtime client. `containers` is the answer to the container list
   * (None when listing fails); `stats` maps each id whose stats request
   * succeeds to its answer (an id absent from it is a failed request);
   * `info` is the answer to the node-information query.
   */
  datatype Client = Client(
    containers: Option<seq<Container>>,
    stats: map<string, ContainerStats>,
    info: Option<Info>)

  /** Go's read of a missing map key gives the zero value. */
  function StatOrZero(m: map<string, uint64>, key: string): (r: uint64)
    ensures key !in m ==> r == 0
    ensures key in m ==> r == m[key]
  {
    if key in m then m[key] else 0
  }
}

/** The report the agent sends each cycle, and its parts. */
module Report {
  import opened GoInt

  datatype DiskStatus = DiskStatus(total: uint64, used: uint64, usedPercentage: real, free: uint64)

  datatype CpuStatus = CpuStatus(usedPercentage: real, cores: int)

  datatype MemoryStatus = MemoryStatus(total: uint64, used: uint64, usedPercentage: real, free: uint64)

  datatype ContainerStatus = ContainerStatus(
    name: string,
    id: string,
    cpuPercentage: real,
    memory: real,
    memoryLimit: real,
    memoryPercentage: real)

  /** One cycle's report: node id, host metrics and one record per container. */
  datatype Status = Status(
    id: string,
    disk: DiskStatus,
    cpu: CpuStatus,
    memory: MemoryStatus,
    tasks: seq<ContainerStatus>)

  /** The zero values that Go gives a named result left unassigned. */
  const ZeroDisk := DiskStatus(0, 0, 0.0, 0)
  const ZeroCpu := CpuStatus(0.0, 0)
  const ZeroMemory := MemoryStatus(0, 0, 0.0, 0)
  const ZeroContainer := ContainerStatus("", "", 0.0, 0.0, 0.0, 0.0)
}

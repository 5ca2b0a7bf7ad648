/** Answers of the host operating-system queries (disk, memory). */
module Host {
  import opened GoInt

  /** What the disk-usage query reports for one path. */
  datatype DiskUsageStat = DiskUsageStat(total: uint64, free: uint64, used: uint64, usedPercent: real)

  /** What the virtual-memory query reports. */
  datatype VirtualMemoryStat = VirtualMemoryStat(total: uint64, free: uint64, used: uint64, usedPercent: real)
}

/**
 * The container statistic parsers: CPU percentage for Unix and Windows
 * daemons and memory usage without page cache. They follow the rules of the
 * Docker command line's own stats helpers.
 */
module StatsHelpers {
  import opened GoInt
  import opened Docker

  /** `float64(cur) - float64(prev)`: a signed difference, never a wrapped one. */
  function Delta(cur: uint64, prev: uint64): (d: real)
    ensures d > 0.0 <==> cur > prev
    ensures d <= 0.0 <==> cur <= prev
  {
    cur as real - prev as real
  }

  /** The CPU count used by the Unix rule: the reported one, or the per-core array length when 0 is reported. */
  function OnlineCPUs(s: CPUStats): (n: nat)
    ensures s.onlineCPUs != 0 ==> n == s.onlineCPUs
    ensures s.onlineCPUs == 0 ==> n == |s.cpuUsage.percpuUsage|
  {
    if s.onlineCPUs == 0 then |s.cpuUsage.percpuUsage| else s.onlineCPUs
  }

  /**
   * CPU percentage on a Unix daemon, from the previous total and system
   * counters and the snapshot's current ones. It is positive exactly when
   * both counters went up and some CPU is online, and is then the container's
   * share of the system time scaled by the CPU count, in percent.
   */
  function CpuPercentUnix(previousCPU: uint64, previousSystem: uint64, v: StatsJSON): (r: real)
    ensures r >= 0.0
    ensures r > 0.0 <==>
      v.cpuStats.cpuUsage.totalUsage > previousCPU &&
      v.cpuStats.systemUsage > previousSystem &&
      OnlineCPUs(v.cpuStats) > 0
    ensures v.cpuStats.cpuUsage.totalUsage <= previousCPU ==> r == 0.0
    ensures v.cpuStats.systemUsage <= previousSystem ==> r == 0.0
    ensures v.cpuStats.systemUsage > previousSystem ==>
      r * Delta(v.cpuStats.systemUsage, previousSystem) ==
        (if v.cpuStats.cpuUsage.totalUsage > previousCPU
         then Delta(v.cpuStats.cpuUsage.totalUsage, previousCPU) * OnlineCPUs(v.cpuStats) as real * 100.0
         else 0.0)
  {
    var cpuDelta := Delta(v.cpuStats.cpuUsage.totalUsage, previousCPU);
    var systemDelta := Delta(v.cpuStats.systemUsage, previousSystem);
    var onlineCPUs := OnlineCPUs(v.cpuStats) as real;
    if systemDelta > 0.0 && cpuDelta > 0.0 then
      (cpuDelta / systemDelta) * onlineCPUs * 100.0
    else
      0.0
  }

  /** The snapshot with a different current total CPU counter. */
  function WithTotalUsage(v: StatsJSON, total: uint64): StatsJSON
  {
    v.(cpuStats := v.cpuStats.(cpuUsage := v.cpuStats.cpuUsage.(totalUsage := total)))
  }

  /**
   * With everything else fixed, the Unix CPU percentage does not decrease
   * when the current total CPU counter grows.
   */
  lemma CpuPercentUnixMonotone(previousCPU: uint64, previousSystem: uint64, v: StatsJSON, total: uint64)
    requires v.cpuStats.cpuUsage.totalUsage <= total
    ensures CpuPercentUnix(previousCPU, previousSystem, v) <=
            CpuPercentUnix(previousCPU, previousSystem, WithTotalUsage(v, total))
  {
  }

  /** Possible 100-ns intervals on a Windows daemon: elapsed time in 100 ns units times the processor count, in uint64. */
  function PossibleIntervals(v: StatsJSON): (r: uint64)
    ensures r == ((ToUint64(DurationBetween(v.read, v.preRead)) / 100) * v.numProcs) % TWO_TO_THE_64
  {
    Mul(Div(ToUint64(DurationBetween(v.read, v.preRead)), 100), v.numProcs)
  }

  /** Used 100-ns intervals: the uint64 difference of the total counters. */
  function IntervalsUsed(v: StatsJSON): uint64
  {
    Sub(v.cpuStats.cpuUsage.totalUsage, v.preCPUStats.cpuUsage.totalUsage)
  }

  /**
   * CPU percentage on a Windows daemon: the used intervals as a share of the
   * possible ones, in percent, and 0 when no interval was possible. The used
   * intervals are a uint64 difference, so a total counter that went down
   * wraps around by 2^64 (see GoInt.Sub).
   */
  function CpuPercentWindows(v: StatsJSON): (r: real)
    ensures r >= 0.0
    ensures PossibleIntervals(v) == 0 ==> r == 0.0
    ensures PossibleIntervals(v) > 0 ==> r * PossibleIntervals(v) as real == IntervalsUsed(v) as real * 100.0
  {
    var possIntervals := PossibleIntervals(v);
    var intervalsUsed := IntervalsUsed(v);
    if possIntervals > 0 then intervalsUsed as real / possIntervals as real * 100.0 else 0.0
  }

  /** No interval is possible, so the Windows percentage is 0, when less than 100 ns elapsed or no processor is counted. */
  lemma CpuPercentWindowsShortOrNoProcs(v: StatsJSON)
    requires 0 <= v.read - v.preRead < 100 || v.numProcs == 0
    ensures PossibleIntervals(v) == 0
    ensures CpuPercentWindows(v) == 0.0
  {
  }

  /**
   * When the elapsed time is non-negative and the product fits in 64 bits,
   * the possible intervals are the truncated 100-ns count times the processors.
   */
  lemma PossibleIntervalsExact(v: StatsJSON)
    requires 0 <= v.read - v.preRead <= MAX_INT64
    requires ((v.read - v.preRead) / 100) * v.numProcs < TWO_TO_THE_64
    ensures PossibleIntervals(v) == ((v.read - v.preRead) / 100) * v.numProcs
  {
  }

  /** The "cache" counter, 0 when the snapshot does not report one. */
  function Cache(mem: MemoryStats): uint64
  {
    StatOrZero(mem.stats, "cache")
  }

  /**
   * Memory used without page cache on a Unix daemon: usage minus the
   * "cache" counter in uint64, so it wraps when the cache exceeds usage;
   * an absent "cache" counter leaves usage unchanged.
   */
  function MemoryUsageUnixNoCache(mem: MemoryStats): (r: real)
    ensures 0.0 <= r < TWO_TO_THE_64 as real
    ensures "cache" !in mem.stats ==> r == mem.usage as real
    ensures Cache(mem) <= mem.usage ==> r == (mem.usage - Cache(mem)) as real
    ensures Cache(mem) > mem.usage ==> r == (mem.usage - Cache(mem) + TWO_TO_THE_64) as real
  {
    Sub(mem.usage, Cache(mem)) as real
  }

  /**
   * Memory percentage: the used memory as a share of the limit, in percent,
   * and 0 for a zero limit whatever the used value.
   */
  function MemoryPercentUnixNoCache(limit: real, usedNoCache: real): (r: real)
    ensures limit == 0.0 ==> r == 0.0
    ensures limit != 0.0 ==> r * limit == usedNoCache * 100.0
  {
    if limit != 0.0 then usedNoCache / limit * 100.0 else 0.0
  }

  /** Memory within a positive limit gives a percentage between 0 and 100. */
  lemma MemoryPercentBounds(limit: real, usedNoCache: real)
    requires limit > 0.0 && 0.0 <= usedNoCache <= limit
    ensures 0.0 <= MemoryPercentUnixNoCache(limit, usedNoCache) <= 100.0
  {
    assert usedNoCache / limit <= 1.0;
  }

  /** Usage 1000, cache 200, limit 2000: memory 800 and 40 percent. */
  lemma MemoryExample()
    ensures MemoryUsageUnixNoCache(MemoryStats(1000, map["cache" := 200], 2000, 0)) == 800.0
    ensures MemoryPercentUnixNoCache(2000.0, 800.0) == 40.0
  {
  }

  /** A snapshot with the given read instants and processor count and nothing else of interest. */
  function WindowsSnapshot(read: int, preRead: int, numProcs: uint32): StatsJSON
  {
    StatsJSON("", "", read, preRead, numProcs,
      CPUStats(CPUUsage(0, []), 0, 0),
      CPUStats(CPUUsage(0, []), 0, 0),
      MemoryStats(0, map[], 0, 0))
  }

  /**
   * Two overflowing cases of the possible intervals: a read 100 ns before the
   * previous read wraps the elapsed time to 2^64 - 100; a previous read at
   * instant 0 with a read past the int64 range saturates the elapsed time,
   * and with 256 processors the product then keeps only its low 64 bits.
   */
  lemma PossibleIntervalsOverflowExamples()
    ensures PossibleIntervals(WindowsSnapshot(0, 100, 1)) == 184467440737095515
    ensures PossibleIntervals(WindowsSnapshot(0x1_0000_0000_0000_0000, 0, 256)) == 5165088340638674432
  {
  }

  /** A snapshot with the given Unix counters and nothing else of interest. */
  function UnixSnapshot(cur: uint64, curSystem: uint64, online: uint32, percpu: seq<uint64>): StatsJSON
  {
    StatsJSON("", "", 0, 0, 0,
      CPUStats(CPUUsage(cur, percpu), curSystem, online),
      CPUStats(CPUUsage(0, []), 0, 0),
      MemoryStats(0, map[], 0, 0))
  }

  /**
   * Totals 200 after 100 and system 500 after 300: 200 percent with 4 online
   * CPUs, and 100 percent when 0 CPUs are reported and 2 per-core counters exist.
   */
  lemma CpuPercentUnixExamples()
    ensures CpuPercentUnix(100, 300, UnixSnapshot(200, 500, 4, [])) == 200.0
    ensures CpuPercentUnix(100, 300, UnixSnapshot(200, 500, 0, [7, 9])) == 100.0
  {
  }
}

/**
 * The stats collection of one cycle: host disk, CPU and memory records, one
 * record per container derived from its stats snapshot, the fan-out over all
 * listed containers, and the assembled report.
 */
module Task {
  import opened Wrappers
  import opened GoInt
  import opened Docker
  import opened Host
  import opened Report
  import opened StatsHelpers

  /** The root path whose disk usage is reported: "\" on Windows, "/" elsewhere. */
  function GetPath(goos: string): (p: string)
    ensures |p| == 1
    ensures p == "\\" <==> goos == "windows"
    ensures p == "/" <==> goos != "windows"
  {
    if goos == "windows" then "\\" else "/"
  }

  /**
   * Disk record of the root path of operating system `goos`: the figures the
   * disk query gives for that path, or the zero record when it fails.
   */
  function DiskUsage(query: string -> Option<DiskUsageStat>, goos: string): (ds: DiskStatus)
    ensures query(GetPath(goos)).None? ==> ds == ZeroDisk
    ensures query(GetPath(goos)).Some? ==>
      var d := query(GetPath(goos)).value;
      ds.total == d.total && ds.free == d.free && ds.used == d.used && ds.usedPercentage == d.usedPercent
  {
    match query(GetPath(goos))
    case None => ZeroDisk
    case Some(d) => DiskStatus(d.total, d.used, d.usedPercent, d.free)
  }

  /** Memory record: the query's figures, or the zero record when the query fails. */
  function MemoryUsage(vmStat: Option<VirtualMemoryStat>): (ms: MemoryStatus)
    ensures vmStat.None? ==> ms == ZeroMemory
    ensures vmStat.Some? ==>
      ms.total == vmStat.value.total && ms.free == vmStat.value.free &&
      ms.used == vmStat.value.used && ms.usedPercentage == vmStat.value.usedPercent
  {
    match vmStat
    case None => ZeroMemory
    case Some(m) => MemoryStatus(m.total, m.used, m.usedPercent, m.free)
  }

  /** The sum of the per-core samples, accumulated from the first. */
  function Sum(s: seq<real>): real
  {
    if s == [] then 0.0 else Sum(s[..|s| - 1]) + s[|s| - 1]
  }

  /** The arithmetic mean of the per-core samples. */
  function Mean(s: seq<real>): real
    requires |s| > 0
  {
    Sum(s) / |s| as real
  }

  /** Samples between lo and hi sum to between |s|*lo and |s|*hi. */
  lemma {:induction false} SumBounds(s: seq<real>, lo: real, hi: real)
    requires forall i :: 0 <= i < |s| ==> lo <= s[i] <= hi
    ensures |s| as real * lo <= Sum(s) <= |s| as real * hi
  {
    if s != [] {
      SumBounds(s[..|s| - 1], lo, hi);
    }
  }

  /** The mean of samples between lo and hi lies between lo and hi. */
  lemma MeanBounds(s: seq<real>, lo: real, hi: real)
    requires |s| > 0
    requires forall i :: 0 <= i < |s| ==> lo <= s[i] <= hi
    ensures lo <= Mean(s) <= hi
  {
    SumBounds(s, lo, hi);
    var n := |s| as real;
    assert lo * n / n <= Sum(s) / n <= hi * n / n;
  }

  /** Equal samples have that sample as their mean. */
  lemma MeanOfEqualSamples(s: seq<real>, x: real)
    requires |s| > 0
    requires forall i :: 0 <= i < |s| ==> s[i] == x
    ensures Mean(s) == x
  {
    MeanBounds(s, x, x);
  }

  /**
   * Host CPU record from the per-core percentages of one sampling window:
   * their mean and the given core count, or the zero record when the query
   * fails. A successful query reports at least one core.
   */
  method CpuUsage(percentage: Option<seq<real>>, cpuCores: int) returns (cs: CpuStatus)
    requires percentage.Some? ==> |percentage.value| > 0
    ensures percentage.None? ==> cs == ZeroCpu
    ensures percentage.Some? ==> cs.usedPercentage == Mean(percentage.value) && cs.cores == cpuCores
  {
    cs := ZeroCpu;
    if percentage.None? {
      return;
    }
    var samples := percentage.value;
    var cpuPercentAll := 0.0;
    var i := 0;
    while i < |samples|
      invariant 0 <= i <= |samples|
      invariant cpuPercentAll == Sum(samples[..i])
    {
      assert samples[..i + 1][..i] == samples[..i];
      cpuPercentAll := cpuPercentAll + samples[i];
      i := i + 1;
    }
    assert samples[..i] == samples;
    var cpuPercentage := cpuPercentAll / |samples| as real;
    cs := cs.(usedPercentage := cpuPercentage);
    cs := cs.(cores := cpuCores);
  }

  /**
   * The record derived for container `id`. A failed stats request gives the
   * zero record. Otherwise name and id come from the snapshot; a Unix daemon
   * gives the Unix CPU rule, memory without cache, the limit and the memory
   * percentage; a Windows daemon gives the Windows CPU rule and the private
   * working set, with limit and percentage left at 0.
   */
  function ContainerRecord(cli: Client, id: string): (r: ContainerStatus)
    ensures id !in cli.stats ==> r == ZeroContainer
    ensures id in cli.stats ==>
      var v := cli.stats[id].body;
      r.name == v.name && r.id == v.id && r.cpuPercentage >= 0.0 && r.memory >= 0.0 &&
      r.memoryLimit >= 0.0 && (r.memoryLimit == 0.0 ==> r.memoryPercentage == 0.0) &&
      (r.memoryLimit > 0.0 ==> r.memoryPercentage * r.memoryLimit == r.memory * 100.0)
    ensures id in cli.stats && cli.stats[id].osType != "windows" ==>
      var v := cli.stats[id].body;
      r.cpuPercentage == CpuPercentUnix(v.preCPUStats.cpuUsage.totalUsage, v.preCPUStats.systemUsage, v) &&
      r.memory == MemoryUsageUnixNoCache(v.memoryStats) &&
      r.memoryLimit == v.memoryStats.limit as real
    ensures id in cli.stats && cli.stats[id].osType == "windows" ==>
      var v := cli.stats[id].body;
      r.cpuPercentage == CpuPercentWindows(v) &&
      r.memory == v.memoryStats.privateWorkingSet as real &&
      r.memoryLimit == 0.0 && r.memoryPercentage == 0.0
  {
    if id !in cli.stats then ZeroContainer
    else
      var resp := cli.stats[id];
      var v := resp.body;
      if resp.osType != "windows" then
        var memory := MemoryUsageUnixNoCache(v.memoryStats);
        var memoryLimit := v.memoryStats.limit as real;
        ContainerStatus(v.name, v.id,
          CpuPercentUnix(v.preCPUStats.cpuUsage.totalUsage, v.preCPUStats.systemUsage, v),
          memory, memoryLimit, MemoryPercentUnixNoCache(memoryLimit, memory))
      else
        ContainerStatus(v.name, v.id, CpuPercentWindows(v),
          v.memoryStats.privateWorkingSet as real, 0.0, 0.0)
  }

  /** Fetches the stats of container `id` and fills its record field by field. */
  method ContainerUsage(cli: Client, id: string) returns (status: ContainerStatus)
    ensures status == ContainerRecord(cli, id)
  {
    status := ZeroContainer;
    if id !in cli.stats {
      return;
    }
    var resp := cli.stats[id];
    var v := resp.body;
    var memoryPercent, cpuPercent := 0.0, 0.0;
    var memory, memoryLimit := 0.0, 0.0;
    if resp.osType != "windows" {
      var previousCPU := v.preCPUStats.cpuUsage.totalUsage;
      var previousSystem := v.preCPUStats.systemUsage;
      cpuPercent := CpuPercentUnix(previousCPU, previousSystem, v);
      memory := MemoryUsageUnixNoCache(v.memoryStats);
      memoryLimit := v.memoryStats.limit as real;
      memoryPercent := MemoryPercentUnixNoCache(memoryLimit, memory);
    } else {
      cpuPercent := CpuPercentWindows(v);
      memory := v.memoryStats.privateWorkingSet as real;
    }
    status := status.(name := v.name);
    status := status.(id := v.id);
    status := status.(cpuPercentage := cpuPercent);
    status := status.(memory := memory);
    status := status.(memoryLimit := memoryLimit);
    status := status.(memoryPercentage := memoryPercent);
  }

  /** The records of the given containers, in list order. */
  function Records(cli: Client, cs: seq<Container>): (rs: seq<ContainerStatus>)
    ensures |rs| == |cs|
  {
    if cs == [] then [] else [ContainerRecord(cli, cs[0].id)] + Records(cli, cs[1..])
  }

  /** The record at position i is the one derived for the i-th container. */
  lemma {:induction false} RecordsAt(cli: Client, cs: seq<Container>, i: nat)
    requires i < |cs|
    ensures Records(cli, cs)[i] == ContainerRecord(cli, cs[i].id)
  {
    if i > 0 {
      RecordsAt(cli, cs[1..], i - 1);
    }
  }

  lemma {:induction false} RecordsAppend(cli: Client, a: seq<Container>, b: seq<Container>)
    ensures Records(cli, a + b) == Records(cli, a) + Records(cli, b)
  {
    if a == [] {
      assert a + b == b;
    } else {
      assert (a + b)[0] == a[0];
      assert (a + b)[1..] == a[1..] + b;
      RecordsAppend(cli, a[1..], b);
    }
  }

  /** Taking the j-th container out of a list takes its record out of the records' multiset. */
  lemma RecordsRemove(cli: Client, cs: seq<Container>, j: nat)
    requires j < |cs|
    ensures multiset(Records(cli, cs)) ==
      multiset{ContainerRecord(cli, cs[j].id)} + multiset(Records(cli, cs[..j] + cs[j + 1..]))
  {
    var before, after := cs[..j], cs[j + 1..];
    assert cs == before + [cs[j]] + after;
    RecordsAppend(cli, before + [cs[j]], after);
    RecordsAppend(cli, before, [cs[j]]);
    RecordsAppend(cli, before, after);
    assert Records(cli, [cs[j]]) == [ContainerRecord(cli, cs[j].id)];
  }

  /** The number of listed containers whose stats request fails. */
  function Failures(cli: Client, cs: seq<Container>): nat
  {
    if cs == [] then 0 else (if cs[0].id !in cli.stats then 1 else 0) + Failures(cli, cs[1..])
  }

  /** Every failed stats request contributes one zero record. */
  lemma {:induction false} FailuresGiveZeroRecords(cli: Client, cs: seq<Container>)
    ensures multiset(Records(cli, cs))[ZeroContainer] >= Failures(cli, cs)
  {
    if cs != [] {
      FailuresGiveZeroRecords(cli, cs[1..]);
      assert multiset(Records(cli, cs)) ==
        multiset{ContainerRecord(cli, cs[0].id)} + multiset(Records(cli, cs[1..]));
    }
  }

  /**
   * The fan-out over all listed containers. Each container's record is
   * appended as its fetch completes, so the appends happen in any order;
   * the result holds exactly one record per listed container, failed
   * fetches included, and is empty when listing fails.
   */
  method ContainersUsage(cli: Client) returns (stats: seq<ContainerStatus>)
    ensures cli.containers.None? ==> stats == []
    ensures cli.containers.Some? ==> |stats| == |cli.containers.value|
    ensures cli.containers.Some? ==> multiset(stats) == multiset(Records(cli, cli.containers.value))
  {
    stats := [];
    if cli.containers.None? {
      return;
    }
    var resp := cli.containers.value;
    var pending := resp;
    while pending != []
      invariant |stats| + |pending| == |resp|
      invariant multiset(stats) + multiset(Records(cli, pending)) == multiset(Records(cli, resp))
      decreases |pending|
    {
      var j :| 0 <= j < |pending|;
      var stat := ContainerUsage(cli, pending[j].id);
      RecordsRemove(cli, pending, j);
      stats := stats + [stat];
      pending := pending[..j] + pending[j + 1..];
    }
  }

  /**
   * One stats cycle: node identity, host memory, disk and CPU records, and the
   * container records. A failed node-information query leaves the identity
   * empty and the core count 0; each failed host query zeroes only its record.
   */
  method CollectStatus(
    cli: Client,
    vmStat: Option<VirtualMemoryStat>,
    diskQuery: string -> Option<DiskUsageStat>,
    goos: string,
    percentage: Option<seq<real>>)
    returns (status: Status)
    requires percentage.Some? ==> |percentage.value| > 0
    ensures status.id == (if cli.info.Some? then cli.info.value.nodeID else "")
    ensures status.memory == MemoryUsage(vmStat)
    ensures status.disk == DiskUsage(diskQuery, goos)
    ensures percentage.None? ==> status.cpu == ZeroCpu
    ensures percentage.Some? ==>
      status.cpu.usedPercentage == Mean(percentage.value) &&
      status.cpu.cores == (if cli.info.Some? then cli.info.value.ncpu else 0)
    ensures cli.containers.None? ==> status.tasks == []
    ensures cli.containers.Some? ==> multiset(status.tasks) == multiset(Records(cli, cli.containers.value))
  {
    var resp := if cli.info.Some? then cli.info.value else Info("", 0);
    var id := resp.nodeID;
    var memory := MemoryUsage(vmStat);
    var disk := DiskUsage(diskQuery, goos);
    var cpu := CpuUsage(percentage, resp.ncpu);
    var tasks := ContainersUsage(cli);
    status := Status(id, disk, cpu, memory, tasks);
  }
}

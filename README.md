# Djuno agent: container and host stats derivation

A Dafny model of the stats derivation of the Djuno monitoring agent
(`djuno/task/stats.go`). Each cycle the agent turns what the container
runtime and the host report into one usage record:

- per container, from one stats snapshot that carries both the current and
  the previous CPU counters: a CPU percentage (a Unix rule over signed
  deltas, or a Windows rule over 100-ns intervals in uint64), the memory
  used without page cache, the memory limit and a memory percentage;
- a fan-out that derives one record per listed container, appending each
  record as its fetch completes, so the result is defined up to order;
- host records: the mean of the per-core CPU samples, and the disk and
  memory figures, each zeroed when its own query fails;
- the report of one cycle that gathers all of them.

Modules: `Wrappers` (Option), `GoInt` (Go's uint64 and int64 arithmetic:
wrap-around subtraction and multiplication, truncating division, the
saturating `time.Time.Sub`, the `uint64(int64)` conversion), `Docker` (the
runtime's snapshot, list and node-information answers, as values), `Host`
(the host queries' answers), `Report` (the records sent each cycle),
`StatsHelpers` (the four `calculate*` rules) and `Task` (the per-container,
fan-out, host and cycle operations).

Go's `float64` is modelled as `real` and `uint64` as the integers below
2^64 with every wrap written out. The runtime client is a value: the
container list is `None` when listing fails, and a container id absent from
the stats map is a stats request that fails.

Behaviour of the code that the model keeps:

- `ContainerUsage` decodes the snapshot, and on a decode error builds a
  second decoder that is never used (djuno/task/stats.go:150-152), then
  reads the snapshot's fields anyway (djuno/task/stats.go:156). The model
  therefore takes a decoded snapshot; there is no zero-record fallback for
  a malformed one.
- `ContainersUsage` returns a nil slice when listing fails or no container
  runs (djuno/task/stats.go:110-114); the model has the empty sequence in
  both cases.
- The Unix CPU deltas are signed float differences
  (djuno/task/stats.go:198-199), so a counter that went backwards gives a
  percentage of 0, never a wrapped value.
- The Windows quantities are uint64: the elapsed time of a read before the
  previous read wraps, a saturated elapsed time times the processors keeps
  only its low 64 bits, and a total counter that went down wraps the used
  intervals.

## Model

| member | source | states |
|---|---|---|
| GoInt.Sub | djuno/task/stats.go:217 | uint64 subtraction is the difference when no borrow occurs and wraps by 2^64 when the subtrahend is larger |
| GoInt.Div | djuno/task/stats.go:215 | uint64 division truncates: the quotient times the divisor is within one divisor of the dividend |
| GoInt.Mul | djuno/task/stats.go:216 | uint64 multiplication keeps the product modulo 2^64: exact when it fits in 64 bits, 0 when a factor is 0 |
| GoInt.ToUint64 | djuno/task/stats.go:214 | converting an int64 Duration to uint64 keeps a non-negative value and adds 2^64 to a negative one |
| GoInt.DurationBetween | djuno/task/stats.go:214 | the elapsed time between two instants is their exact difference when it fits in int64, else the nearest int64 bound |
| Docker.StatOrZero | djuno/task/stats.go:226 | reading a missing key of the memory counters map gives 0; a present key gives its value |
| StatsHelpers.Delta | djuno/task/stats.go:198-199 | the float difference of two counters is positive exactly when the counter went up, never a wrapped value |
| StatsHelpers.OnlineCPUs | djuno/task/stats.go:200-205 | the reported online-CPU count is used when non-zero; when it is 0 the per-core array length replaces it |
| StatsHelpers.CpuPercentUnix | djuno/task/stats.go:195-211 | the Unix CPU percentage is never negative; it is 0 when the CPU or system counter did not go up, positive exactly when both went up and a CPU is online, and then times the system delta equals the CPU delta times the CPU count times 100 |
| StatsHelpers.CpuPercentUnixMonotone | djuno/task/stats.go:207-209 | with all else fixed, a larger current total CPU counter never gives a smaller Unix CPU percentage |
| StatsHelpers.CpuPercentUnixExamples | djuno/task/stats.go:195-211 | counters 200/100 and 500/300 give 200 percent with 4 CPUs, and 100 percent with 0 reported CPUs and 2 per-core counters |
| StatsHelpers.CpuPercentWindows | djuno/task/stats.go:213-223 | the Windows CPU percentage is never negative, is 0 when no interval was possible, and otherwise times the possible intervals equals the used intervals times 100 |
| StatsHelpers.CpuPercentWindowsShortOrNoProcs | djuno/task/stats.go:214-222 | less than 100 ns elapsed or no processor counted leaves no possible interval and a 0 percentage |
| StatsHelpers.PossibleIntervals | djuno/task/stats.go:214-216 | possible intervals are the saturated elapsed nanoseconds converted to uint64, divided by 100, times the processor count, modulo 2^64 |
| StatsHelpers.PossibleIntervalsOverflowExamples | djuno/task/stats.go:214-216 | a read 100 ns before the previous read gives 184467440737095515 possible intervals, not 0; a saturated elapsed time with 256 processors wraps to 5165088340638674432 |
| StatsHelpers.PossibleIntervalsExact | djuno/task/stats.go:214-216 | for a non-negative elapsed time whose product fits in 64 bits, possible intervals are the truncated 100-ns count times the processors |
| StatsHelpers.MemoryUsageUnixNoCache | djuno/task/stats.go:225-227 | memory without cache is usage minus the cache counter, usage itself when no cache counter exists, and wraps by 2^64 when cache exceeds usage; always in [0, 2^64) |
| StatsHelpers.MemoryPercentUnixNoCache | djuno/task/stats.go:229-234 | the memory percentage is 0 for a zero limit whatever the used value, and otherwise times the limit equals the used value times 100 |
| StatsHelpers.MemoryPercentBounds | djuno/task/stats.go:229-234 | used memory within a positive limit gives a percentage between 0 and 100 |
| StatsHelpers.MemoryExample | djuno/task/stats.go:225-234 | usage 1000 with cache 200 gives 800, and 800 of a 2000 limit gives 40 percent |
| Task.GetPath | djuno/task/stats.go:58-64 | the disk root is a backslash exactly on Windows and a slash everywhere else |
| Task.DiskUsage | djuno/task/stats.go:66-77 | the disk query is asked about the root path of the running operating system; its failure gives the zero record, otherwise total, free, used and percentage are the query's own |
| Task.MemoryUsage | djuno/task/stats.go:96-107 | a failed memory query gives the zero record; otherwise total, free, used and percentage are the query's own |
| Task.CpuUsage | djuno/task/stats.go:79-94 | a failed per-core query gives the zero record; otherwise the percentage is the mean of the samples, summed in the loop, and the core count is passed through |
| Task.SumBounds | djuno/task/stats.go:86-88 | samples each between lo and hi sum to between n times lo and n times hi |
| Task.MeanBounds | djuno/task/stats.go:85-91 | the host CPU percentage lies between the smallest and largest bound of the per-core samples |
| Task.MeanOfEqualSamples | djuno/task/stats.go:85-91 | equal per-core samples give that sample as the host CPU percentage |
| Task.ContainerRecord | djuno/task/stats.go:134-174 | a failed stats request gives the zero record; otherwise name and id come from the snapshot, CPU and memory are non-negative, the percentage is 0 for a zero limit and memory over limit times 100 otherwise; a Unix daemon uses the Unix CPU rule, memory without cache and the snapshot's limit; a Windows daemon uses the Windows rule and the private working set, with limit and percentage 0 |
| Task.ContainerUsage | djuno/task/stats.go:134-174 | filling the record field by field yields exactly the record that ContainerRecord specifies |
| Task.RecordsAt | djuno/task/stats.go:120-128 | the record derived for each listed container is the one ContainerRecord gives for its id |
| Task.FailuresGiveZeroRecords | djuno/task/stats.go:120-139 | each listed container whose stats request fails contributes one zero record |
| Task.ContainersUsage | djuno/task/stats.go:109-132 | a failed listing gives no record; otherwise one record per listed container, failures included, and the records are, as a multiset, the per-container records in any order |
| Task.CollectStatus | djuno/task/stats.go:179-187 | the cycle report carries the node id (empty when node information fails), the memory and disk records, the mean CPU with the node's core count (0 when node information fails), and the container records; a failed host query zeroes only its own record |

## Left out

- The timer loop of `HandleStats` and the delivery of the report to the
  collector (`djuno.SendEvent`): a sleep and an external call. One loop
  iteration's assembly is `Task.CollectStatus`.
- The event relay (`djuno/task/event.go`, `HandleEvents`): a `select` over
  two runtime channels followed by a panic; concurrency and I/O with
  nondeterministic channel choice.
- `handler.go` and `main.go`: HTTP handlers that pass log output through,
  and process wiring.
- The host and runtime queries themselves (disk usage, per-core CPU
  percentages, virtual memory, container list, container stats, node
  information) appear only as their answers, given as inputs; the disk
  query is a function of the path it is asked about.
- JSON decoding of the snapshot and its unused second decoder: the model
  takes a decoded snapshot. The code dereferences the snapshot even when
  decoding failed, so no zero-record fallback exists to model.
- Goroutines, the wait group and the mutex of `ContainersUsage`: the fan-out
  is a sequential loop that appends the pending records in an arbitrary
  order, and its result is stated as a multiset.
- Task.CpuUsage: requires at least one per-core sample when the query
  succeeds, because with none the code divides 0 by 0 and reports NaN.
- Task.CollectStatus: carries the same requirement of at least one
  per-core sample, for the same reason.
- IEEE 754 behaviour: float64 values are reals, so rounding in the
  uint64-to-float64 conversions and in the divisions, NaN and infinities
  are not modelled.
- The JSON encoding of the report (field names and the round trip) belongs
  to the delivery code, which is not part of this model.

# rmqmonitor metric assembly, modelled in Dafny

rmqmonitor polls a RabbitMQ broker's management API and reports what it finds to an
Open-Falcon monitoring backend. `falcon/metrics.go` turns the broker statistics of one collection
cycle into an ordered list of `MetaData` records. A record has an endpoint, a metric name, a value,
the counter type `GAUGE`, a tag string, a timestamp and a step. This project models that file:

- `go_strings.dfy` (module `GoStrings`): the two `strings` functions the helpers use,
  `ToLower` and `Contains`.
- `snapshots.dfy` (module `Snapshots`): the overview, node, aliveness and queue snapshots the
  fetch functions return, and the process configuration (host, interval, running indicators).
- `metrics.dfy` (module `Falcon`) covers three things:
  - the `MetaData` class, with `NewMetric` and `SetValue`;
  - the derived-code helpers `calcpct`, `qstats`, `aliveness` and `partitions`;
  - the handlers `handleOverview`, `handleQueues` and `handleSickRabbit`, and `Collector`. Each
    handler is an imperative method that appends freshly allocated records to a sequence of
    `MetaData` references. It is proved against a value-level function giving the records it
    appends, in the code's order.
- `properties.dfy` (module `MetricsProperties`): lemmas about those functions. They cover the
  fixed names and positions, the tags, the derived health codes, and the stamping every record
  shares.

The fetch results, the liveness probe, the host name, the interval, the indicator list and the
clock reading are all parameters. `Collector` returns the list it would send.

Two details of the code:

- `handleOverview` appends 25 records (`falcon/metrics.go:111-135`).
- `dpRatio` (`falcon/metrics.go:131`) reads `Deliver_Rates`, a field distinct from the
  `Deliver_get_Rates` behind `deliverRate` (`falcon/metrics.go:123`). The overview snapshot keeps
  the two apart.

Float values are symbolic. `Float` is one of:

- `Exact(x)`: a float64 taken as is;
- `RoundedPct(l, t)`: the non-zero case of `calcpct`;
- `Hundredfold(u)`: `ConsumerUtil * 100.00`.

`int64(x)` of a rate is truncation toward zero (`Trunc`).

## Model

| member | source | states |
|---|---|---|
| Falcon.MetaData.NewMetric | falcon/metrics.go:28-39 | the new record has exactly the given name, value and tags, counter type GAUGE, the host as endpoint, the clock reading as timestamp and the configured interval as step |
| Falcon.MetaData.SetValue | falcon/metrics.go:47-49 | only the value changes; every other field keeps its old content |
| Falcon.AppendMetric | falcon/metrics.go:111 | `append(data, NewMetric(...))`: the earlier records are unchanged and exactly one stamped record is added at the end |
| Falcon.CalcPct | falcon/metrics.go:51-55 | a zero total gives 0 whatever the load |
| Falcon.Trunc | falcon/metrics.go:131 | the float-to-int64 conversion is the integer part: for x >= 0 it is at most x and within 1 below it, for x < 0 at least x and within 1 above it |
| Falcon.QueueHealth | falcon/metrics.go:63-73 | the code is 0 or 1, and it is 1 exactly when some configured indicator occurs in the lower-cased status |
| Falcon.QStats | falcon/metrics.go:63-73 | the early-return search loop returns the code QueueHealth defines: 1 iff some indicator matches |
| Falcon.Aliveness | falcon/metrics.go:75-82 | 1 exactly for the status "ok", 0 for every other string |
| Falcon.Partitions | falcon/metrics.go:84-93 | 1 exactly when the partition list is empty, 0 otherwise |
| Falcon.HandleOverview | falcon/metrics.go:111-137 | the returned list is the incoming one followed by the 25 broker-wide records, group after group in code order; 25 records longer |
| Falcon.AppendQueueBlock | falcon/metrics.go:147-159 | one loop iteration: the 12 records of one queue, tagged with its name and vhost, after the incoming ones |
| Falcon.HandleQueues | falcon/metrics.go:146-162 | the incoming list followed by one 12-record block per queue, in list order; 12 * N records longer |
| Falcon.HandleSickRabbit | falcon/metrics.go:165-168 | the incoming list followed by the single record isUp = 0 |
| Falcon.Collector | falcon/metrics.go:170-179 | starting empty: one isUp = 0 record when the probe fails; otherwise the 25 broker-wide records followed by the queue blocks, 25 + 12 * N in all |
| GoStrings.ToLowerNormalises | falcon/metrics.go:66 | lower-casing keeps the length, leaves no upper-case letter and is idempotent |
| GoStrings.ContainsEmpty | falcon/metrics.go:66 | the empty indicator occurs in every status |
| GoStrings.UpperNeverInLowered | falcon/metrics.go:66 | an indicator holding an upper-case letter never occurs in a lower-cased status |
| GoStrings.ContainsSelf | falcon/metrics.go:66 | every string contains itself |
| MetricsProperties.OverviewLaidKept | falcon/metrics.go:111-135 | appending after a laid-out stretch of broker-wide records leaves it in place |
| MetricsProperties.TotalsLayout | falcon/metrics.go:111-115 | the five object totals are table records 0-4, after the prefix |
| MetricsProperties.MessagesLayout | falcon/metrics.go:116-118 | the three message totals are table records 5-7 |
| MetricsProperties.EventsLayout | falcon/metrics.go:119-122 | the four event counters are table records 8-11 |
| MetricsProperties.RatesLayout | falcon/metrics.go:123-126 | the four rates are table records 12-15 |
| MetricsProperties.PercentagesLayout | falcon/metrics.go:127-131 | the four usage percentages and dpRatio are table records 16-20 |
| MetricsProperties.HealthLayout | falcon/metrics.go:132-135 | runQueue, isAlive, isPartition and isUp are table records 21-24 |
| MetricsProperties.OverviewLayout | falcon/metrics.go:111-135 | the prefix is kept and exactly 25 untagged records follow; record k is named `rabbitmq.overview.` + OverviewSuffixes[k] and carries OverviewValues[k] |
| MetricsProperties.OverviewHealthCodes | falcon/metrics.go:133-135 | isAlive carries aliveness(status) and is 1 iff the status is "ok"; isPartition carries partitions(list) and is 1 iff no partition; the last record is isUp = 1 |
| MetricsProperties.OverviewOfZeroSnapshots | falcon/metrics.go:127-135 | with zero-valued snapshots all 25 records are still emitted: the five percentages are 0, isAlive 0, isPartition 1, isUp 1 |
| MetricsProperties.QueueBlockLayout | falcon/metrics.go:147-159 | one queue's block keeps the prefix and adds 12 records; record j is named `rabbitmq.queue.` + QueueSuffixes[j], carries QueueValues[j] and the queue's tags |
| MetricsProperties.QueuesLength | falcon/metrics.go:146-160 | N queues add exactly 12 * N records after the kept prefix |
| MetricsProperties.QueueRecordAt | falcon/metrics.go:146-160 | record j of the block of queue i sits at position 12 * i + j after the prefix |
| MetricsProperties.QueuesLayout | falcon/metrics.go:146-162 | the prefix is kept and N contiguous 12-record blocks follow in list order, block i being that of queue i |
| MetricsProperties.QueueRecordNames | falcon/metrics.go:147-159 | every queue record has a queue-prefixed name from the fixed list, the tags `name=<name>,vhost=<vhost>` of its own queue, and that queue's value |
| MetricsProperties.QueueStatusRecord | falcon/metrics.go:158 | each queue's status record is 1 iff an indicator occurs in its lower-cased status |
| MetricsProperties.HealthyCycleLayout | falcon/metrics.go:176-178 | a healthy cycle has 25 + 12 * N records: the broker-wide table first, then the queue blocks |
| MetricsProperties.LaidOutCycleUniform | falcon/metrics.go:28-39 | any list laid out as a healthy cycle is stamped uniformly: host, GAUGE, the model's one clock reading, the step |
| MetricsProperties.HealthyCycleUniform | falcon/metrics.go:28-39 | every record of a healthy cycle has the host as endpoint, GAUGE, the model's one clock reading of the cycle as timestamp, and the configured step |
| MetricsProperties.SentinelIsDownIsUp | falcon/metrics.go:166 | the sick path's record is the healthy path's isUp record with value 0 instead of 1 |
| MetricsProperties.OneRunningQueueCycle | falcon/metrics.go:170-179 | a cycle with one running queue has 37 records: isAlive 1 at 22, isUp 1 at 24, and the queue's status 1 at 35 with tags `name=q1,vhost=/` |
| MetricsProperties.QueueHealthWithoutIndicators | falcon/metrics.go:63-73 | with no configured indicator the code is 0 |
| MetricsProperties.QueueHealthEmptyIndicator | falcon/metrics.go:66 | an empty indicator makes every queue count as running |
| MetricsProperties.QueueHealthUpperIndicators | falcon/metrics.go:64-66 | when every indicator holds an upper-case letter, no queue ever counts as running |
| MetricsProperties.QueueHealthIgnoresCase | falcon/metrics.go:66 | lower-casing the status first does not change the code |
| MetricsProperties.AlivenessExamples | falcon/metrics.go:75-82 | "ok" gives 1, while "OK", "" and "ok " give 0 |
| MetricsProperties.PartitionsExamples | falcon/metrics.go:84-93 | an empty list gives 1 and a one-partition list gives 0 |

## Left out

- The fetch functions `funcs.GetOverview`, `GetNode`, `GetAlive`, `GetQueues` and `CheckAlive`
  are network I/O. Their results and the probe result are parameters. The error values they
  return are only logged, so the model takes whatever snapshot comes back.
- The nil dereference of `*qs` when `GetQueues` fails (`falcon/metrics.go:141-146`): the queue
  list is an input, and nothing is claimed about that case.
- `sendDatas`, `String()`, every `log` call and the debug loop (`falcon/metrics.go:41-45`,
  `181-189`) are output only. `sendDatas` is not part of this model.
- CalcPct: for a non-zero total the division, the `* 100.00` and the `%.3f` round trip through
  `ParseFloat` are not evaluated. The result is the symbolic `RoundedPct(l, t)`, so only the
  zero guard is proved. The symbolic floats are compared by how they were computed, not by
  value, so two of them can be unequal in the model and equal in Go: `CalcPct(0, 5)` and
  `CalcPct(0, 0)`, `CalcPct(1, 2)` and `CalcPct(2, 4)`, `Hundredfold(0.0)` and `Exact(0.0)`.
  No lemma here relies on such an inequality.
- `ConsumerUtil * 100.00` (`falcon/metrics.go:157`) is the symbolic `Hundredfold`. Float64
  arithmetic is not modelled.
- Trunc: models `int64(x)` only for finite values inside the int64 range. NaN, infinities and
  out-of-range results are not modelled.
- ToLowerNormalises: `strings.ToLower` is modelled on ASCII letters only. Unicode case mapping
  is not modelled.
- Falcon.MetaData.NewMetric: the timestamp is one clock reading per cycle (`now`). The code
  calls `time.Now()` for every record (`falcon/metrics.go:35`), so in the code the records of
  one cycle may differ in timestamp when a second boundary falls inside the cycle.
- MetricsProperties.HealthyCycleUniform, MetricsProperties.LaidOutCycleUniform: the common
  timestamp they prove is the model's single clock reading; with one `time.Now()` per record
  the code does not promise one timestamp for the whole cycle.
- `g.GetHost()` and `g.Config()` are globals. The host, the interval and the indicator list are
  a `Config` parameter. `OvPrefix` and `QuPrefix` are package variables in Go; here they are
  constants, because nothing in the file assigns them.
- Falcon.HandleOverview, Falcon.HandleQueues, Falcon.HandleSickRabbit: the contracts speak of
  the records the returned references point to. They do not state that the new records are
  distinct fresh objects, and they do not state the capacity or aliasing behaviour of Go's
  `append`.
- Falcon.AppendQueueBlock: evaluates `qstats` before the block's first append, not just
  before the eleventh. `qstats` only reads, so the records are the same.
- Integer fields are unbounded `int`. The int64 width of the snapshot fields is not modelled:
  the code only copies them, and never does arithmetic on them.

/** falcon/metrics.go: the metric record, the derived-code helpers and the assembly of the
    ordered list of records that one collection cycle hands to the monitoring backend.

    The fetch results, the liveness probe, the host name, the interval, the indicator list and
    the clock reading are parameters; the list a cycle would send is returned instead. */
module Falcon {
  import opened GoStrings
  import opened Snapshots

  const OvPrefix: string := "rabbitmq.overview."
  const QuPrefix: string := "rabbitmq.queue."
  const Gauge: string := "GAUGE"

  /** A float64 the model does not evaluate, named by how the code obtains it. */
  datatype Float =
    | Exact(x: real)                   // a float64 whose value is exactly x (a reported rate, 0.0)
    | RoundedPct(load: int, total: int) // float64(load) / float64(total) * 100.00, rounded to 3 decimals
    | Hundredfold(fraction: real)       // fraction * 100.00 in float64 arithmetic

  /** The `interface{}` value of a record: an integer or a float64, kept apart. */
  datatype Value = IntVal(n: int) | FloatVal(f: Float)

  /** The fields of one MetaData record, as a value. */
  datatype Record = Record(
    endpoint: string, metric: string, value: Value, counterType: string,
    tags: string, timestamp: int, step: int)

  /** The record NewMetric builds from its arguments in a process with configuration `cfg`
      when the clock reads `now`. */
  function Stamped(cfg: Config, now: int, name: string, v: Value, tags: string): Record
  {
    Record(cfg.endpoint, name, v, Gauge, tags, now, cfg.interval)
  }

  /** Every record of a cycle carries the process's endpoint, the GAUGE type, the cycle's
      timestamp and the configured step. */
  predicate Uniform(cfg: Config, now: int, r: Record)
  {
    r.endpoint == cfg.endpoint && r.counterType == Gauge && r.timestamp == now && r.step == cfg.interval
  }

  class MetaData {
    var endpoint: string
    var metric: string
    var value: Value
    var counterType: string
    var tags: string
    var timestamp: int
    var step: int

    function View(): Record
      reads this
    {
      Record(endpoint, metric, value, counterType, tags, timestamp, step)
    }

    /** NewMetric: name, value and tags as given, a GAUGE, stamped with the host, the clock
        and the configured interval. */
    constructor NewMetric(cfg: Config, now: int, name: string, v: Value, t: string)
      ensures metric == name && value == v && tags == t
      ensures counterType == Gauge && step == cfg.interval
      ensures endpoint == cfg.endpoint && timestamp == now
      ensures View() == Stamped(cfg, now, name, v, t)
    {
      metric := name;
      endpoint := cfg.endpoint;
      counterType := Gauge;
      tags := t;
      timestamp := now;
      step := cfg.interval;
      value := v;
    }

    /** SetValue replaces the value and nothing else. */
    method SetValue(v: Value)
      modifies this
      ensures value == v
      ensures endpoint == old(endpoint) && metric == old(metric) && counterType == old(counterType)
      ensures tags == old(tags) && timestamp == old(timestamp) && step == old(step)
      ensures View() == old(View()).(value := v)
    {
      value := v;
    }
  }

  /** The records a list of MetaData pointers currently holds, in order. */
  function Views(data: seq<MetaData>): (rs: seq<Record>)
    reads data
    ensures |rs| == |data|
  {
    if data == [] then [] else Views(data[..|data| - 1]) + [data[|data| - 1].View()]
  }

  /** `data = append(data, NewMetric(name, v, tags))`. The ghost `shown` is Views(data), and
      `shown'` is Views(out); carrying it along keeps the records of earlier appends as values. */
  method AppendMetric(data: seq<MetaData>, ghost shown: seq<Record>,
                      cfg: Config, now: int, name: string, v: Value, tags: string)
    returns (out: seq<MetaData>, ghost shown': seq<Record>)
    requires Views(data) == shown
    ensures |out| == |data| + 1
    ensures shown' == shown + [Stamped(cfg, now, name, v, tags)]
    ensures Views(out) == shown'
  {
    var m := new MetaData.NewMetric(cfg, now, name, v, tags);
    out := data + [m];
    assert out[..|data|] == data;
    shown' := shown + [m.View()];
  }

  // ----- derived-code helpers -----

  /** calcpct: the load as a percentage of the total, and 0 when the total is 0. */
  function CalcPct(l: int, t: int): (pct: Float)
    ensures t == 0 ==> pct == Exact(0.0)
  {
    if t == 0 then Exact(0.0) else RoundedPct(l, t)
  }

  /** The Go conversion int64(x) of a finite float64: truncation toward zero. */
  function Trunc(x: real): (n: int)
    ensures 0.0 <= x ==> n as real <= x < n as real + 1.0
    ensures x < 0.0 ==> n as real - 1.0 < x <= n as real
  {
    if x >= 0.0 then x.Floor else -((-x).Floor)
  }

  /** qstats as a value: 1 when some configured indicator occurs in the lower-cased status. */
  function QueueHealth(s: string, qrunning: seq<string>): (r: int)
    ensures r == 0 || r == 1
    ensures r == 1 <==> exists k :: 0 <= k < |qrunning| && Contains(ToLower(s), qrunning[k])
  {
    if qrunning == [] then 0
    else if Contains(ToLower(s), qrunning[0]) then 1
    else
      var rest := QueueHealth(s, qrunning[1..]);
      assert forall k :: 1 <= k < |qrunning| ==> qrunning[k] == qrunning[1..][k - 1];
      rest
  }

  /** qstats: the search over the configured indicators, returning at the first that matches. */
  method QStats(s: string, qrunning: seq<string>) returns (code: int)
    ensures code == QueueHealth(s, qrunning)
    ensures code == 1 <==> exists k :: 0 <= k < |qrunning| && Contains(ToLower(s), qrunning[k])
  {
    for n := 0 to |qrunning|
      invariant forall k :: 0 <= k < n ==> !Contains(ToLower(s), qrunning[k])
    {
      if Contains(ToLower(s), qrunning[n]) {
        return 1;
      }
    }
    return 0;
  }

  /** aliveness: 1 exactly for the status "ok". */
  function Aliveness(s: string): (r: int)
    ensures r == 1 <==> s == "ok"
    ensures r == 0 <==> s != "ok"
  {
    match s
    case "ok" => 1
    case _ => 0
  }

  /** partitions: 1 exactly when the partition list is empty. */
  function Partitions(ps: seq<string>): (r: int)
    ensures r == 1 <==> ps == []
    ensures r == 0 <==> ps != []
  {
    match |ps|
    case 0 => 1
    case _ => 0
  }

  // ----- the fixed metric tables -----

  /** The 25 broker-wide metric names, after the prefix, in emission order. */
  const OverviewSuffixes: seq<string> := [
    "queuesTotal", "channelsTotal", "connectionsTotal", "consumersTotal", "exchangesTotal",
    "msgsTotal", "msgsReadyTotal", "msgsUnackTotal", "deliverTotal", "publishTotal",
    "redeliverTotal", "statsDbEvent", "deliverRate", "publishRate", "redeliverRate", "ackRate",
    "fdUsedPct", "memUsedPct", "socketUsedPct", "erlProcsUsedPct", "dpRatio", "runQueue",
    "isAlive", "isPartition", "isUp"]

  /** The value of each overview metric, in the order of OverviewSuffixes. */
  function OverviewValues(ov: Overview, nd: Node, al: Alive): seq<Value>
  {
    [IntVal(ov.queues), IntVal(ov.channels), IntVal(ov.connections), IntVal(ov.consumers),
     IntVal(ov.exchanges), IntVal(ov.msgsTotal), IntVal(ov.msgsReadyTotal),
     IntVal(ov.msgsUnackedTotal), IntVal(ov.deliverGet), IntVal(ov.publish),
     IntVal(ov.redeliver), IntVal(ov.statsDbEvents), FloatVal(Exact(ov.deliverGetRate)),
     FloatVal(Exact(ov.publishRate)), FloatVal(Exact(ov.redeliverRate)),
     FloatVal(Exact(ov.ackRate)), FloatVal(CalcPct(nd.fdUsed, nd.fdTotal)),
     FloatVal(CalcPct(nd.memUsed, nd.memLimit)),
     FloatVal(CalcPct(nd.socketsUsed, nd.socketsTotal)),
     FloatVal(CalcPct(nd.erlProcUsed, nd.erlProcTotal)),
     FloatVal(CalcPct(Trunc(ov.deliverRate), Trunc(ov.publishRate))), IntVal(nd.runQueues),
     IntVal(Aliveness(al.status)), IntVal(Partitions(nd.partitions)), IntVal(1)]
  }

  /** The 12 per-queue metric names, after the prefix, in emission order. */
  const QueueSuffixes: seq<string> := [
    "messages", "messages_ready", "messages_unacked", "deliver_get", "publish", "redeliver",
    "ack", "memory", "consumers", "consumer_utilisation", "status", "dpratio"]

  /** The value of each queue metric, in the order of QueueSuffixes. */
  function QueueValues(cfg: Config, q: Queue): seq<Value>
  {
    [IntVal(q.messages), IntVal(q.messagesReady), IntVal(q.messagesUnacked),
     FloatVal(Exact(q.deliverGetRate)), FloatVal(Exact(q.publishRate)),
     FloatVal(Exact(q.redeliverRate)), FloatVal(Exact(q.ackRate)), IntVal(q.memory),
     IntVal(q.consumers), FloatVal(Hundredfold(q.consumerUtil)),
     IntVal(QueueHealth(q.status, cfg.qrunning)),
     FloatVal(CalcPct(Trunc(q.deliverGetRate), Trunc(q.publishRate)))]
  }

  /** The tag string of every record of a queue's block. */
  function QueueTags(q: Queue): string
  {
    "name=" + q.name + ",vhost=" + q.vhost
  }

  /** Broker-wide record k of a cycle, read off the tables: the prefixed name, the value, no tags. */
  function OverviewRecord(cfg: Config, now: int, ov: Overview, nd: Node, al: Alive, k: int): Record
    requires 0 <= k < 25
  {
    Stamped(cfg, now, OvPrefix + OverviewSuffixes[k], OverviewValues(ov, nd, al)[k], "")
  }

  /** Record j of the block of queue q, read off the tables, tagged with the queue's identity. */
  function QueueRecord(cfg: Config, now: int, q: Queue, j: int): Record
    requires 0 <= j < 12
  {
    Stamped(cfg, now, QuPrefix + QueueSuffixes[j], QueueValues(cfg, q)[j], QueueTags(q))
  }

  // ----- what the handlers append, as values -----

  /** `prefix` followed by the object totals: queues, channels, connections, consumers, exchanges. */
  function OverviewTotals(prefix: seq<Record>, cfg: Config, now: int, ov: Overview): seq<Record>
  {
    prefix
    + [Stamped(cfg, now, OvPrefix + "queuesTotal", IntVal(ov.queues), "")]
    + [Stamped(cfg, now, OvPrefix + "channelsTotal", IntVal(ov.channels), "")]
    + [Stamped(cfg, now, OvPrefix + "connectionsTotal", IntVal(ov.connections), "")]
    + [Stamped(cfg, now, OvPrefix + "consumersTotal", IntVal(ov.consumers), "")]
    + [Stamped(cfg, now, OvPrefix + "exchangesTotal", IntVal(ov.exchanges), "")]
  }

  /** `prefix` followed by the message totals: all, ready, unacknowledged. */
  function OverviewMessages(prefix: seq<Record>, cfg: Config, now: int, ov: Overview): seq<Record>
  {
    prefix
    + [Stamped(cfg, now, OvPrefix + "msgsTotal", IntVal(ov.msgsTotal), "")]
    + [Stamped(cfg, now, OvPrefix + "msgsReadyTotal", IntVal(ov.msgsReadyTotal), "")]
    + [Stamped(cfg, now, OvPrefix + "msgsUnackTotal", IntVal(ov.msgsUnackedTotal), "")]
  }

  /** `prefix` followed by the event counters: deliveries, publishes, redeliveries, statistics-database events. */
  function OverviewEvents(prefix: seq<Record>, cfg: Config, now: int, ov: Overview): seq<Record>
  {
    prefix
    + [Stamped(cfg, now, OvPrefix + "deliverTotal", IntVal(ov.deliverGet), "")]
    + [Stamped(cfg, now, OvPrefix + "publishTotal", IntVal(ov.publish), "")]
    + [Stamped(cfg, now, OvPrefix + "redeliverTotal", IntVal(ov.redeliver), "")]
    + [Stamped(cfg, now, OvPrefix + "statsDbEvent", IntVal(ov.statsDbEvents), "")]
  }

  /** `prefix` followed by the four message rates. */
  function OverviewRates(prefix: seq<Record>, cfg: Config, now: int, ov: Overview): seq<Record>
  {
    prefix
    + [Stamped(cfg, now, OvPrefix + "deliverRate", FloatVal(Exact(ov.deliverGetRate)), "")]
    + [Stamped(cfg, now, OvPrefix + "publishRate", FloatVal(Exact(ov.publishRate)), "")]
    + [Stamped(cfg, now, OvPrefix + "redeliverRate", FloatVal(Exact(ov.redeliverRate)), "")]
    + [Stamped(cfg, now, OvPrefix + "ackRate", FloatVal(Exact(ov.ackRate)), "")]
  }

  /** `prefix` followed by the four resource-usage percentages and the deliver/publish ratio. */
  function OverviewPercentages(prefix: seq<Record>, cfg: Config, now: int, ov: Overview, nd: Node): seq<Record>
  {
    prefix
    + [Stamped(cfg, now, OvPrefix + "fdUsedPct", FloatVal(CalcPct(nd.fdUsed, nd.fdTotal)), "")]
    + [Stamped(cfg, now, OvPrefix + "memUsedPct", FloatVal(CalcPct(nd.memUsed, nd.memLimit)), "")]
    + [Stamped(cfg, now, OvPrefix + "socketUsedPct", FloatVal(CalcPct(nd.socketsUsed, nd.socketsTotal)), "")]
    + [Stamped(cfg, now, OvPrefix + "erlProcsUsedPct", FloatVal(CalcPct(nd.erlProcUsed, nd.erlProcTotal)), "")]
    + [Stamped(cfg, now, OvPrefix + "dpRatio", FloatVal(CalcPct(Trunc(ov.deliverRate), Trunc(ov.publishRate))), "")]
  }

  /** `prefix` followed by the Erlang run queue and the three health codes. */
  function OverviewHealth(prefix: seq<Record>, cfg: Config, now: int, nd: Node, al: Alive): seq<Record>
  {
    prefix
    + [Stamped(cfg, now, OvPrefix + "runQueue", IntVal(nd.runQueues), "")]
    + [Stamped(cfg, now, OvPrefix + "isAlive", IntVal(Aliveness(al.status)), "")]
    + [Stamped(cfg, now, OvPrefix + "isPartition", IntVal(Partitions(nd.partitions)), "")]
    + [Stamped(cfg, now, OvPrefix + "isUp", IntVal(1), "")]
  }

  /** `prefix` followed by the 25 broker-wide records, appended one by one in the order of
      handleOverview, group after group. */
  function OverviewAppended(prefix: seq<Record>, cfg: Config, now: int, ov: Overview, nd: Node, al: Alive)
    : seq<Record>
  {
    var totals := OverviewTotals(prefix, cfg, now, ov);
    var messages := OverviewMessages(totals, cfg, now, ov);
    var events := OverviewEvents(messages, cfg, now, ov);
    var rates := OverviewRates(events, cfg, now, ov);
    var percentages := OverviewPercentages(rates, cfg, now, ov, nd);
    OverviewHealth(percentages, cfg, now, nd, al)
  }

  /** `prefix` followed by the block of one queue, as one iteration of handleQueues appends it. */
  function QueueAppended(prefix: seq<Record>, cfg: Config, now: int, q: Queue): seq<Record>
  {
    prefix
    + [Stamped(cfg, now, QuPrefix + "messages", IntVal(q.messages), QueueTags(q))]
    + [Stamped(cfg, now, QuPrefix + "messages_ready", IntVal(q.messagesReady), QueueTags(q))]
    + [Stamped(cfg, now, QuPrefix + "messages_unacked", IntVal(q.messagesUnacked), QueueTags(q))]
    + [Stamped(cfg, now, QuPrefix + "deliver_get", FloatVal(Exact(q.deliverGetRate)), QueueTags(q))]
    + [Stamped(cfg, now, QuPrefix + "publish", FloatVal(Exact(q.publishRate)), QueueTags(q))]
    + [Stamped(cfg, now, QuPrefix + "redeliver", FloatVal(Exact(q.redeliverRate)), QueueTags(q))]
    + [Stamped(cfg, now, QuPrefix + "ack", FloatVal(Exact(q.ackRate)), QueueTags(q))]
    + [Stamped(cfg, now, QuPrefix + "memory", IntVal(q.memory), QueueTags(q))]
    + [Stamped(cfg, now, QuPrefix + "consumers", IntVal(q.consumers), QueueTags(q))]
    + [Stamped(cfg, now, QuPrefix + "consumer_utilisation", FloatVal(Hundredfold(q.consumerUtil)), QueueTags(q))]
    + [Stamped(cfg, now, QuPrefix + "status", IntVal(QueueHealth(q.status, cfg.qrunning)), QueueTags(q))]
    + [Stamped(cfg, now, QuPrefix + "dpratio", FloatVal(CalcPct(Trunc(q.deliverGetRate), Trunc(q.publishRate))), QueueTags(q))]
  }

  /** `prefix` followed by the blocks of a queue list, in list order. */
  function QueuesAppended(prefix: seq<Record>, cfg: Config, now: int, qs: seq<Queue>): seq<Record>
  {
    if qs == [] then prefix
    else QueueAppended(QueuesAppended(prefix, cfg, now, qs[..|qs| - 1]), cfg, now, qs[|qs| - 1])
  }

  /** The sentinel the sick path emits. */
  function SickRecord(cfg: Config, now: int): Record
  {
    Stamped(cfg, now, OvPrefix + "isUp", IntVal(0), "")
  }

  // ----- list assembly -----

  /** handleOverview: the broker-wide records appended after what `data` already holds. */
  method HandleOverview(data: seq<MetaData>, cfg: Config, now: int, ov: Overview, nd: Node, al: Alive)
    returns (out: seq<MetaData>)
    ensures |out| == |data| + 25
    ensures Views(out) == OverviewAppended(old(Views(data)), cfg, now, ov, nd, al)
  {
    ghost var shown := Views(data);
    out := data;
    out, shown := AppendMetric(out, shown, cfg, now, OvPrefix + "queuesTotal", IntVal(ov.queues), "");
    out, shown := AppendMetric(out, shown, cfg, now, OvPrefix + "channelsTotal", IntVal(ov.channels), "");
    out, shown := AppendMetric(out, shown, cfg, now, OvPrefix + "connectionsTotal", IntVal(ov.connections), "");
    out, shown := AppendMetric(out, shown, cfg, now, OvPrefix + "consumersTotal", IntVal(ov.consumers), "");
    out, shown := AppendMetric(out, shown, cfg, now, OvPrefix + "exchangesTotal", IntVal(ov.exchanges), "");
    out, shown := AppendMetric(out, shown, cfg, now, OvPrefix + "msgsTotal", IntVal(ov.msgsTotal), "");
    out, shown := AppendMetric(out, shown, cfg, now, OvPrefix + "msgsReadyTotal", IntVal(ov.msgsReadyTotal), "");
    out, shown := AppendMetric(out, shown, cfg, now, OvPrefix + "msgsUnackTotal", IntVal(ov.msgsUnackedTotal), "");
    out, shown := AppendMetric(out, shown, cfg, now, OvPrefix + "deliverTotal", IntVal(ov.deliverGet), "");
    out, shown := AppendMetric(out, shown, cfg, now, OvPrefix + "publishTotal", IntVal(ov.publish), "");
    out, shown := AppendMetric(out, shown, cfg, now, OvPrefix + "redeliverTotal", IntVal(ov.redeliver), "");
    out, shown := AppendMetric(out, shown, cfg, now, OvPrefix + "statsDbEvent", IntVal(ov.statsDbEvents), "");
    out, shown := AppendMetric(out, shown, cfg, now, OvPrefix + "deliverRate", FloatVal(Exact(ov.deliverGetRate)), "");
    out, shown := AppendMetric(out, shown, cfg, now, OvPrefix + "publishRate", FloatVal(Exact(ov.publishRate)), "");
    out, shown := AppendMetric(out, shown, cfg, now, OvPrefix + "redeliverRate", FloatVal(Exact(ov.redeliverRate)), "");
    out, shown := AppendMetric(out, shown, cfg, now, OvPrefix + "ackRate", FloatVal(Exact(ov.ackRate)), "");
    out, shown := AppendMetric(out, shown, cfg, now, OvPrefix + "fdUsedPct", FloatVal(CalcPct(nd.fdUsed, nd.fdTotal)), "");
    out, shown := AppendMetric(out, shown, cfg, now, OvPrefix + "memUsedPct", FloatVal(CalcPct(nd.memUsed, nd.memLimit)), "");
    out, shown := AppendMetric(out, shown, cfg, now, OvPrefix + "socketUsedPct", FloatVal(CalcPct(nd.socketsUsed, nd.socketsTotal)), "");
    out, shown := AppendMetric(out, shown, cfg, now, OvPrefix + "erlProcsUsedPct", FloatVal(CalcPct(nd.erlProcUsed, nd.erlProcTotal)), "");
    out, shown := AppendMetric(out, shown, cfg, now, OvPrefix + "dpRatio", FloatVal(CalcPct(Trunc(ov.deliverRate), Trunc(ov.publishRate))), "");
    out, shown := AppendMetric(out, shown, cfg, now, OvPrefix + "runQueue", IntVal(nd.runQueues), "");
    out, shown := AppendMetric(out, shown, cfg, now, OvPrefix + "isAlive", IntVal(Aliveness(al.status)), "");
    out, shown := AppendMetric(out, shown, cfg, now, OvPrefix + "isPartition", IntVal(Partitions(nd.partitions)), "");
    out, shown := AppendMetric(out, shown, cfg, now, OvPrefix + "isUp", IntVal(1), "");
  }

  /** One iteration of the loop in handleQueues: the twelve records of queue `q`, all with its
      tags, appended after `data` (whose records are `shown`). */
  method AppendQueueBlock(data: seq<MetaData>, ghost shown: seq<Record>, cfg: Config, now: int, q: Queue)
    returns (out: seq<MetaData>, ghost shown': seq<Record>)
    requires Views(data) == shown
    ensures |out| == |data| + 12
    ensures shown' == QueueAppended(shown, cfg, now, q)
    ensures Views(out) == shown'
  {
    var tags := "name=" + q.name + ",vhost=" + q.vhost;
    assert tags == QueueTags(q);
    var status := QStats(q.status, cfg.qrunning);
    out, shown' := data, shown;
    out, shown' := AppendMetric(out, shown', cfg, now, QuPrefix + "messages", IntVal(q.messages), tags);
    out, shown' := AppendMetric(out, shown', cfg, now, QuPrefix + "messages_ready", IntVal(q.messagesReady), tags);
    out, shown' := AppendMetric(out, shown', cfg, now, QuPrefix + "messages_unacked", IntVal(q.messagesUnacked), tags);
    out, shown' := AppendMetric(out, shown', cfg, now, QuPrefix + "deliver_get", FloatVal(Exact(q.deliverGetRate)), tags);
    out, shown' := AppendMetric(out, shown', cfg, now, QuPrefix + "publish", FloatVal(Exact(q.publishRate)), tags);
    out, shown' := AppendMetric(out, shown', cfg, now, QuPrefix + "redeliver", FloatVal(Exact(q.redeliverRate)), tags);
    out, shown' := AppendMetric(out, shown', cfg, now, QuPrefix + "ack", FloatVal(Exact(q.ackRate)), tags);
    out, shown' := AppendMetric(out, shown', cfg, now, QuPrefix + "memory", IntVal(q.memory), tags);
    out, shown' := AppendMetric(out, shown', cfg, now, QuPrefix + "consumers", IntVal(q.consumers), tags);
    out, shown' := AppendMetric(out, shown', cfg, now, QuPrefix + "consumer_utilisation", FloatVal(Hundredfold(q.consumerUtil)), tags);
    out, shown' := AppendMetric(out, shown', cfg, now, QuPrefix + "status", IntVal(status), tags);
    out, shown' := AppendMetric(out, shown', cfg, now, QuPrefix + "dpratio", FloatVal(CalcPct(Trunc(q.deliverGetRate), Trunc(q.publishRate))), tags);
  }

  /** handleQueues: twelve records per queue, in list order, appended after `data`. */
  method HandleQueues(data: seq<MetaData>, cfg: Config, now: int, qs: seq<Queue>)
    returns (out: seq<MetaData>)
    ensures |out| == |data| + 12 * |qs|
    ensures Views(out) == QueuesAppended(old(Views(data)), cfg, now, qs)
  {
    out := data;
    for i := 0 to |qs|
      invariant |out| == |data| + 12 * i
      invariant Views(out) == QueuesAppended(old(Views(data)), cfg, now, qs[..i])
    {
      ghost var shown := Views(out);
      out, shown := AppendQueueBlock(out, shown, cfg, now, qs[i]);
      assert qs[..i + 1][..i] == qs[..i];
    }
    assert qs[..|qs|] == qs;
  }

  /** handleSickRabbit: the single isUp = 0 sentinel appended after `data`. */
  method HandleSickRabbit(data: seq<MetaData>, cfg: Config, now: int) returns (out: seq<MetaData>)
    ensures |out| == |data| + 1
    ensures Views(out) == old(Views(data)) + [SickRecord(cfg, now)]
  {
    ghost var shown := Views(data);
    out, shown := AppendMetric(data, shown, cfg, now, OvPrefix + "isUp", IntVal(0), "");
  }

  /** Collector: the list one cycle sends, given the probe's answer and the fetch results. */
  method Collector(cfg: Config, now: int, probe: bool, ov: Overview, nd: Node, al: Alive, qs: seq<Queue>)
    returns (m: seq<MetaData>)
    ensures !probe ==> Views(m) == [SickRecord(cfg, now)]
    ensures probe ==> Views(m) == QueuesAppended(OverviewAppended([], cfg, now, ov, nd, al), cfg, now, qs)
    ensures |m| == if probe then 25 + 12 * |qs| else 1
  {
    m := [];
    if !probe {
      m := HandleSickRabbit(m, cfg, now);
    } else {
      m := HandleOverview(m, cfg, now, ov, nd, al);
      m := HandleQueues(m, cfg, now, qs);
    }
  }
}

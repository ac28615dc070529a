/** What falcon/metrics.go promises about the records one collection cycle emits: the fixed
    names and order, the tags, the derived codes, and the stamping shared by every record. */
module MetricsProperties {
  import opened GoStrings
  import opened Snapshots
  import opened Falcon

  // ----- broker-wide block -----

  /** Records lo .. hi-1 of the broker-wide table sit at positions base + lo .. base + hi - 1 of r. */
  predicate OverviewLaid(r: seq<Record>, base: int, lo: int, hi: int,
                         cfg: Config, now: int, ov: Overview, nd: Node, al: Alive)
  {
    0 <= lo <= hi <= 25 && 0 <= base + lo && base + hi <= |r|
    && forall k :: lo <= k < hi ==> r[base + k] == OverviewRecord(cfg, now, ov, nd, al, k)
  }

  /** Extending a sequence keeps what was laid out in it. */
  lemma OverviewLaidKept(s: seq<Record>, t: seq<Record>, base: int, lo: int, hi: int,
                         cfg: Config, now: int, ov: Overview, nd: Node, al: Alive)
    requires OverviewLaid(s, base, lo, hi, cfg, now, ov, nd, al)
    requires |s| <= |t| && t[..|s|] == s
    ensures OverviewLaid(t, base, lo, hi, cfg, now, ov, nd, al)
  {
    forall k | lo <= k < hi
      ensures t[base + k] == OverviewRecord(cfg, now, ov, nd, al, k)
    {
      assert t[base + k] == t[..|s|][base + k];
    }
  }

  // Each group function keeps its prefix and lays its records out at their table positions.

  lemma TotalsLayout(p: seq<Record>, cfg: Config, now: int, ov: Overview, nd: Node, al: Alive)
    ensures var s := OverviewTotals(p, cfg, now, ov);
      |s| == |p| + 5 && s[..|p|] == p && OverviewLaid(s, |p|, 0, 5, cfg, now, ov, nd, al)
  {
  }

  lemma MessagesLayout(p: seq<Record>, cfg: Config, now: int, ov: Overview, nd: Node, al: Alive)
    requires |p| >= 5
    ensures var s := OverviewMessages(p, cfg, now, ov);
      |s| == |p| + 3 && s[..|p|] == p && OverviewLaid(s, |p| - 5, 5, 8, cfg, now, ov, nd, al)
  {
  }

  lemma EventsLayout(p: seq<Record>, cfg: Config, now: int, ov: Overview, nd: Node, al: Alive)
    requires |p| >= 8
    ensures var s := OverviewEvents(p, cfg, now, ov);
      |s| == |p| + 4 && s[..|p|] == p && OverviewLaid(s, |p| - 8, 8, 12, cfg, now, ov, nd, al)
  {
  }

  lemma RatesLayout(p: seq<Record>, cfg: Config, now: int, ov: Overview, nd: Node, al: Alive)
    requires |p| >= 12
    ensures var s := OverviewRates(p, cfg, now, ov);
      |s| == |p| + 4 && s[..|p|] == p && OverviewLaid(s, |p| - 12, 12, 16, cfg, now, ov, nd, al)
  {
  }

  lemma PercentagesLayout(p: seq<Record>, cfg: Config, now: int, ov: Overview, nd: Node, al: Alive)
    requires |p| >= 16
    ensures var s := OverviewPercentages(p, cfg, now, ov, nd);
      |s| == |p| + 5 && s[..|p|] == p && OverviewLaid(s, |p| - 16, 16, 21, cfg, now, ov, nd, al)
  {
  }

  lemma HealthLayout(p: seq<Record>, cfg: Config, now: int, ov: Overview, nd: Node, al: Alive)
    requires |p| >= 21
    ensures var s := OverviewHealth(p, cfg, now, nd, al);
      |s| == |p| + 4 && s[..|p|] == p && OverviewLaid(s, |p| - 21, 21, 25, cfg, now, ov, nd, al)
  {
  }

  /** handleOverview keeps the prefix and adds 25 untagged records: record k is named by
      OverviewSuffixes[k] and carries OverviewValues[k]. */
  lemma OverviewLayout(p: seq<Record>, cfg: Config, now: int, ov: Overview, nd: Node, al: Alive)
    ensures |OverviewSuffixes| == |OverviewValues(ov, nd, al)| == 25
    ensures |OverviewAppended(p, cfg, now, ov, nd, al)| == |p| + 25
    ensures OverviewAppended(p, cfg, now, ov, nd, al)[..|p|] == p
    ensures forall k :: 0 <= k < 25 ==>
      OverviewAppended(p, cfg, now, ov, nd, al)[|p| + k] == OverviewRecord(cfg, now, ov, nd, al, k)
  {
    var s1 := OverviewTotals(p, cfg, now, ov);
    TotalsLayout(p, cfg, now, ov, nd, al);
    var s2 := OverviewMessages(s1, cfg, now, ov);
    MessagesLayout(s1, cfg, now, ov, nd, al);
    var s3 := OverviewEvents(s2, cfg, now, ov);
    EventsLayout(s2, cfg, now, ov, nd, al);
    var s4 := OverviewRates(s3, cfg, now, ov);
    RatesLayout(s3, cfg, now, ov, nd, al);
    var s5 := OverviewPercentages(s4, cfg, now, ov, nd);
    PercentagesLayout(s4, cfg, now, ov, nd, al);
    var r := OverviewHealth(s5, cfg, now, nd, al);
    HealthLayout(s5, cfg, now, ov, nd, al);
    var b := |p|;
    OverviewLaidKept(s1, r, b, 0, 5, cfg, now, ov, nd, al);
    OverviewLaidKept(s2, r, b, 5, 8, cfg, now, ov, nd, al);
    OverviewLaidKept(s3, r, b, 8, 12, cfg, now, ov, nd, al);
    OverviewLaidKept(s4, r, b, 12, 16, cfg, now, ov, nd, al);
    OverviewLaidKept(s5, r, b, 16, 21, cfg, now, ov, nd, al);
    assert r[..b] == s1[..b];
  }

  /** The last three broker-wide records: isAlive codes the aliveness status, isPartition the
      partition list, and isUp is the constant 1. */
  lemma OverviewHealthCodes(p: seq<Record>, cfg: Config, now: int, ov: Overview, nd: Node, al: Alive)
    ensures var r := OverviewAppended(p, cfg, now, ov, nd, al);
      && r[|p| + 22] == Stamped(cfg, now, "rabbitmq.overview.isAlive", IntVal(Aliveness(al.status)), "")
      && r[|p| + 23] == Stamped(cfg, now, "rabbitmq.overview.isPartition", IntVal(Partitions(nd.partitions)), "")
      && r[|p| + 24] == Stamped(cfg, now, "rabbitmq.overview.isUp", IntVal(1), "")
      && (r[|p| + 22].value == IntVal(1) <==> al.status == "ok")
      && (r[|p| + 23].value == IntVal(1) <==> nd.partitions == [])
  {
    OverviewLayout(p, cfg, now, ov, nd, al);
  }

  /** With every snapshot at its zero value the 25 records are still all there; the five derived
      percentages are 0 (the zero guard of calcpct), isAlive is 0, isPartition 1 and isUp 1. */
  lemma OverviewOfZeroSnapshots(cfg: Config, now: int)
    ensures var r := OverviewAppended([], cfg, now, ZeroOverview, ZeroNode, ZeroAlive);
      && |r| == 25
      && (forall k :: 16 <= k <= 20 ==> r[k].value == FloatVal(Exact(0.0)))
      && r[22].value == IntVal(0) && r[23].value == IntVal(1) && r[24].value == IntVal(1)
  {
    OverviewLayout([], cfg, now, ZeroOverview, ZeroNode, ZeroAlive);
    assert Trunc(0.0) == 0;
  }

  // ----- per-queue blocks -----

  /** One queue's block: the prefix kept, then 12 records named by QueueSuffixes, with the
      values of QueueValues, every one tagged `name=<name>,vhost=<vhost>`. */
  lemma QueueBlockLayout(p: seq<Record>, cfg: Config, now: int, q: Queue)
    ensures |QueueSuffixes| == |QueueValues(cfg, q)| == 12
    ensures |QueueAppended(p, cfg, now, q)| == |p| + 12
    ensures QueueAppended(p, cfg, now, q)[..|p|] == p
    ensures forall j :: 0 <= j < 12 ==> QueueAppended(p, cfg, now, q)[|p| + j] == QueueRecord(cfg, now, q, j)
  {
  }

  /** The record at `pos` of QueuesAppended(p, qs), past the prefix, belongs to queue
      (pos - |p|) / 12 and is entry (pos - |p|) % 12 of that queue's block. */
  predicate InBlock(r: seq<Record>, p: seq<Record>, cfg: Config, now: int, qs: seq<Queue>, i: int, j: int)
    requires 0 <= i < |qs| && 0 <= j < 12 && |p| + 12 * i + j < |r|
  {
    r[|p| + 12 * i + j] == QueueRecord(cfg, now, qs[i], j)
  }

  /** handleQueues over N queues keeps the prefix and adds exactly 12 * N records. */
  lemma {:induction false} QueuesLength(p: seq<Record>, cfg: Config, now: int, qs: seq<Queue>)
    ensures |QueuesAppended(p, cfg, now, qs)| == |p| + 12 * |qs|
    ensures QueuesAppended(p, cfg, now, qs)[..|p|] == p
  {
    if qs != [] {
      var n := |qs| - 1;
      var front := QueuesAppended(p, cfg, now, qs[..n]);
      QueuesLength(p, cfg, now, qs[..n]);
      QueueBlockLayout(front, cfg, now, qs[n]);
      assert QueuesAppended(p, cfg, now, qs)[..|p|] == QueueAppended(front, cfg, now, qs[n])[..|front|][..|p|];
    }
  }

  /** Record j of the block of qs[i] sits at position |p| + 12 * i + j. */
  lemma {:induction false} QueueRecordAt(p: seq<Record>, cfg: Config, now: int, qs: seq<Queue>, i: int, j: int)
    requires 0 <= i < |qs| && 0 <= j < 12
    ensures |p| + 12 * i + j < |QueuesAppended(p, cfg, now, qs)|
    ensures QueuesAppended(p, cfg, now, qs)[|p| + 12 * i + j] == QueueRecord(cfg, now, qs[i], j)
  {
    var n := |qs| - 1;
    var front := QueuesAppended(p, cfg, now, qs[..n]);
    var r := QueueAppended(front, cfg, now, qs[n]);
    QueuesLength(p, cfg, now, qs[..n]);
    QueueBlockLayout(front, cfg, now, qs[n]);
    if i < n {
      QueueRecordAt(p, cfg, now, qs[..n], i, j);
      assert qs[..n][i] == qs[i];
      assert r[|p| + 12 * i + j] == r[..|front|][|p| + 12 * i + j];
    } else {
      assert |p| + 12 * i + j == |front| + j;
    }
  }

  /** handleQueues over N queues: the prefix kept, then exactly 12 * N records forming N
      contiguous blocks in list order, block i being the block of qs[i]. */
  lemma QueuesLayout(p: seq<Record>, cfg: Config, now: int, qs: seq<Queue>)
    ensures |QueuesAppended(p, cfg, now, qs)| == |p| + 12 * |qs|
    ensures QueuesAppended(p, cfg, now, qs)[..|p|] == p
    ensures forall i, j :: 0 <= i < |qs| && 0 <= j < 12 ==>
      InBlock(QueuesAppended(p, cfg, now, qs), p, cfg, now, qs, i, j)
  {
    QueuesLength(p, cfg, now, qs);
    forall i, j | 0 <= i < |qs| && 0 <= j < 12
      ensures InBlock(QueuesAppended(p, cfg, now, qs), p, cfg, now, qs, i, j)
    {
      QueueRecordAt(p, cfg, now, qs, i, j);
    }
  }

  /** Every queue record carries a metric name beginning with the queue prefix and the tags of
      exactly one queue, the one whose block it lies in. */
  lemma QueueRecordNames(p: seq<Record>, cfg: Config, now: int, qs: seq<Queue>, i: int, j: int)
    requires 0 <= i < |qs| && 0 <= j < 12
    ensures var r := QueuesAppended(p, cfg, now, qs);
      |p| + 12 * i + j < |r|
      && r[|p| + 12 * i + j].metric == QuPrefix + QueueSuffixes[j]
      && r[|p| + 12 * i + j].tags == "name=" + qs[i].name + ",vhost=" + qs[i].vhost
      && r[|p| + 12 * i + j].value == QueueValues(cfg, qs[i])[j]
  {
    QueuesLayout(p, cfg, now, qs);
    assert InBlock(QueuesAppended(p, cfg, now, qs), p, cfg, now, qs, i, j);
  }

  /** The status record of every queue is the qstats code of its status string. */
  lemma QueueStatusRecord(p: seq<Record>, cfg: Config, now: int, qs: seq<Queue>, i: int)
    requires 0 <= i < |qs|
    ensures var r := QueuesAppended(p, cfg, now, qs);
      |p| + 12 * i + 10 < |r|
      && r[|p| + 12 * i + 10].metric == "rabbitmq.queue.status"
      && (r[|p| + 12 * i + 10].value == IntVal(1) <==>
          exists k :: 0 <= k < |cfg.qrunning| && Contains(ToLower(qs[i].status), cfg.qrunning[k]))
  {
    QueueRecordNames(p, cfg, now, qs, i, 10);
  }

  // ----- the whole cycle -----

  /** A healthy cycle: the 25 broker-wide records first, then the 12 * N queue records, so
      25 + 12 * N records in all. */
  lemma HealthyCycleLayout(cfg: Config, now: int, ov: Overview, nd: Node, al: Alive, qs: seq<Queue>)
    ensures var r := QueuesAppended(OverviewAppended([], cfg, now, ov, nd, al), cfg, now, qs);
      && |r| == 25 + 12 * |qs|
      && r[..25] == OverviewAppended([], cfg, now, ov, nd, al)
      && (forall k :: 0 <= k < 25 ==> r[k] == OverviewRecord(cfg, now, ov, nd, al, k))
      && (forall i, j :: 0 <= i < |qs| && 0 <= j < 12 ==> r[25 + 12 * i + j] == QueueRecord(cfg, now, qs[i], j))
  {
    var o := OverviewAppended([], cfg, now, ov, nd, al);
    var r := QueuesAppended(o, cfg, now, qs);
    OverviewLayout([], cfg, now, ov, nd, al);
    QueuesLength(o, cfg, now, qs);
    forall k | 0 <= k < 25
      ensures r[k] == OverviewRecord(cfg, now, ov, nd, al, k)
    {
      assert r[k] == r[..25][k] == o[0 + k];
    }
    forall i, j | 0 <= i < |qs| && 0 <= j < 12
      ensures r[25 + 12 * i + j] == QueueRecord(cfg, now, qs[i], j)
    {
      QueueRecordAt(o, cfg, now, qs, i, j);
    }
  }

  /** A sequence laid out as a healthy cycle is uniformly stamped. */
  lemma LaidOutCycleUniform(r: seq<Record>, cfg: Config, now: int, ov: Overview, nd: Node, al: Alive, qs: seq<Queue>)
    requires |r| == 25 + 12 * |qs|
    requires forall k :: 0 <= k < 25 ==> r[k] == OverviewRecord(cfg, now, ov, nd, al, k)
    requires forall i, j :: 0 <= i < |qs| && 0 <= j < 12 ==> r[25 + 12 * i + j] == QueueRecord(cfg, now, qs[i], j)
    ensures forall k :: 0 <= k < |r| ==> Uniform(cfg, now, r[k])
  {
    forall k | 0 <= k < |r|
      ensures Uniform(cfg, now, r[k])
    {
      if k < 25 {
        assert r[k] == OverviewRecord(cfg, now, ov, nd, al, k);
      } else {
        var i, j := (k - 25) / 12, (k - 25) % 12;
        assert k == 25 + 12 * i + j;
        assert r[k] == QueueRecord(cfg, now, qs[i], j);
      }
    }
  }

  /** Every record of a healthy cycle carries the process's endpoint, the GAUGE type, the
      cycle's timestamp and the configured step. */
  lemma HealthyCycleUniform(cfg: Config, now: int, ov: Overview, nd: Node, al: Alive, qs: seq<Queue>)
    ensures var r := QueuesAppended(OverviewAppended([], cfg, now, ov, nd, al), cfg, now, qs);
      forall k :: 0 <= k < |r| ==> Uniform(cfg, now, r[k])
  {
    var r := QueuesAppended(OverviewAppended([], cfg, now, ov, nd, al), cfg, now, qs);
    HealthyCycleLayout(cfg, now, ov, nd, al, qs);
    LaidOutCycleUniform(r, cfg, now, ov, nd, al, qs);
  }

  /** The sick path's sentinel is the healthy cycle's isUp record with the value 0 instead of 1. */
  lemma SentinelIsDownIsUp(cfg: Config, now: int, ov: Overview, nd: Node, al: Alive)
    ensures SickRecord(cfg, now) == OverviewAppended([], cfg, now, ov, nd, al)[24].(value := IntVal(0))
    ensures Uniform(cfg, now, SickRecord(cfg, now))
  {
    OverviewHealthCodes([], cfg, now, ov, nd, al);
  }

  /** A healthy cycle with one running queue "q1" on vhost "/" and the indicator "running":
      37 records, isAlive 1 when the status is "ok", isUp 1 and the queue's status 1. */
  lemma OneRunningQueueCycle(cfg: Config, now: int, ov: Overview, nd: Node, q: Queue)
    requires cfg.qrunning == ["running"]
    requires q.name == "q1" && q.vhost == "/" && q.status == "running"
    ensures var r := QueuesAppended(OverviewAppended([], cfg, now, ov, nd, Alive("ok")), cfg, now, [q]);
      && |r| == 37
      && r[22].metric == "rabbitmq.overview.isAlive" && r[22].value == IntVal(1)
      && r[24].metric == "rabbitmq.overview.isUp" && r[24].value == IntVal(1)
      && r[35].metric == "rabbitmq.queue.status" && r[35].value == IntVal(1)
      && r[35].tags == "name=q1,vhost=/"
  {
    var al := Alive("ok");
    var o := OverviewAppended([], cfg, now, ov, nd, al);
    var r := QueuesAppended(o, cfg, now, [q]);
    HealthyCycleLayout(cfg, now, ov, nd, al, [q]);
    OverviewHealthCodes([], cfg, now, ov, nd, al);
    assert r[22] == r[..25][22] && r[24] == r[..25][24];
    QueueRecordNames(o, cfg, now, [q], 0, 10);
    ToLowerNormalises("running");
    assert ToLower("running") == "running";
    ContainsSelf("running");
  }

  // ----- the derived codes -----

  /** qstats with no configured indicator never reports a queue as running. */
  lemma QueueHealthWithoutIndicators(s: string)
    ensures QueueHealth(s, []) == 0
  {
  }

  /** An empty indicator string matches every status, as strings.Contains(x, "") holds. */
  lemma QueueHealthEmptyIndicator(s: string, qrunning: seq<string>)
    requires "" in qrunning
    ensures QueueHealth(s, qrunning) == 1
  {
    ContainsEmpty(ToLower(s));
    var k :| 0 <= k < |qrunning| && qrunning[k] == "";
    assert Contains(ToLower(s), qrunning[k]);
  }

  /** Only the status is lower-cased, not the indicators: when every configured indicator has an
      upper-case letter, no queue is ever reported as running. */
  lemma QueueHealthUpperIndicators(s: string, qrunning: seq<string>)
    requires forall k :: 0 <= k < |qrunning| ==> exists m :: 0 <= m < |qrunning[k]| && IsUpper(qrunning[k][m])
    ensures QueueHealth(s, qrunning) == 0
  {
    forall k | 0 <= k < |qrunning|
      ensures !Contains(ToLower(s), qrunning[k])
    {
      var m :| 0 <= m < |qrunning[k]| && IsUpper(qrunning[k][m]);
      UpperNeverInLowered(s, qrunning[k], m);
    }
  }

  /** The status is lower-cased before the search, so its case does not matter. */
  lemma QueueHealthIgnoresCase(s: string, qrunning: seq<string>)
    ensures QueueHealth(ToLower(s), qrunning) == QueueHealth(s, qrunning)
  {
    ToLowerNormalises(s);
  }

  /** aliveness is exact and case-sensitive. */
  lemma AlivenessExamples()
    ensures Aliveness("ok") == 1
    ensures Aliveness("OK") == 0 && Aliveness("") == 0 && Aliveness("ok ") == 0
  {
  }

  /** partitions reports 1 for the healthy, partition-free node. */
  lemma PartitionsExamples()
    ensures Partitions([]) == 1 && Partitions(["node-b"]) == 0
  {
  }
}

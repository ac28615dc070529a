/** The broker statistics that the fetch collaborators (`funcs.GetOverview`, `funcs.GetNode`,
    `funcs.GetAlive`, `funcs.GetQueues`) hand to the metric assembly, reduced to the fields
    that falcon/metrics.go reads, and the configuration it takes from `g.GetHost()` and
    `g.Config()`. A float64 field is held as the real number it denotes. */
module Snapshots {

  /** Broker-wide totals and rates (`ov` in handleOverview). `deliverRate` is the
      `Deliver_Rates` pair used by dpRatio, distinct from the `Deliver_get_Rates` pair. */
  datatype Overview = Overview(
    queues: int, channels: int, connections: int, consumers: int, exchanges: int,
    msgsTotal: int, msgsReadyTotal: int, msgsUnackedTotal: int,
    deliverGet: int, publish: int, redeliver: int, statsDbEvents: int,
    deliverGetRate: real, publishRate: real, redeliverRate: real, ackRate: real,
    deliverRate: real)

  /** Resource usage of the broker node (`nd` in handleOverview). */
  datatype Node = Node(
    fdUsed: int, fdTotal: int, memUsed: int, memLimit: int,
    socketsUsed: int, socketsTotal: int, erlProcUsed: int, erlProcTotal: int,
    runQueues: int, partitions: seq<string>)

  /** The aliveness-test answer (`al` in handleOverview). */
  datatype Alive = Alive(status: string)

  /** One entry of the queue list (`q` in handleQueues). */
  datatype Queue = Queue(
    name: string, vhost: string,
    messages: int, messagesReady: int, messagesUnacked: int,
    deliverGetRate: real, publishRate: real, redeliverRate: real, ackRate: real,
    memory: int, consumers: int, consumerUtil: real, status: string)

  /** What the metric code reads from the process: the host name, the collection
      interval in seconds and the "queue is running" indicators, taken as configured. */
  datatype Config = Config(endpoint: string, interval: int, qrunning: seq<string>)

  /** The zero values a Go struct of each kind starts with. */
  const ZeroOverview := Overview(0, 0, 0, 0, 0, 0, 0, 0, 0, 0, 0, 0, 0.0, 0.0, 0.0, 0.0, 0.0)
  const ZeroNode := Node(0, 0, 0, 0, 0, 0, 0, 0, 0, [])
  const ZeroAlive := Alive("")
}

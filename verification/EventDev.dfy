/**
 The event device as the pipeline programs see it: events carrying a packet, numbered queues, and
 scheduling types.
 */
module EventDev {

  datatype SchedType = Ordered | Atomic | Parallel

  datatype Op = New | Forward | Release

  datatype EventType = EthDev | Cpu

  /** A packet buffer: its identity and the RSS hash the NIC stored in it. */
  datatype Packet = Packet(id: nat, rss: nat)

  datatype Event = Event(
    pkt: Packet, eventType: EventType, queueId: nat, flowId: nat, subType: nat, sched: SchedType, op: Op)
}

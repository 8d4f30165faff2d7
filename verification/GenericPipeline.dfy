/**
 The generic pipeline (ebpf-debug/eventenqdeq-trace/pipeline_worker_generic.c) as a step system.

 n stage queues are chained 0, 1, ..., n-1 and followed by one single-link TX queue n. Any number of
 workers dequeue batches from the stage queues, rewrite them and enqueue them again, a prefix at a
 time. Workers, the RX adapter and the TX adapter interleave freely; one device call that accepts a
 prefix of m events is m consecutive Accept steps, and one dequeue burst is a run of Take steps.
 */
module GenericPipeline {
  import opened EventDev

  /** Width of the flow_id field of an event. */
  const FLOW_IDS: nat := 0x10_0000

  /** cdata after set-up; rxFlow is the flow id the RX adapter derives from the RSS hash. */
  datatype Config = Config(
    n: nat, numFids: nat, queueType: SchedType, rxFlow: nat -> nat, qid: seq<nat>, nextQid: seq<nat>)

  /** What the set-up code leaves behind: queue i is stage i and feeds queue i+1. */
  ghost predicate Chained(c: Config) {
    && 1 <= c.n <= |c.qid| && c.n <= |c.nextQid|
    && c.numFids > 0
    && forall i :: 0 <= i < c.n ==> c.qid[i] == i && c.nextQid[i] == i + 1
  }

  function Classify(c: Config, rss: nat): nat
    requires c.numFids > 0
  {
    (rss % c.numFids) % FLOW_IDS
  }

  /** The rewrite every worker applies to an event it dequeued. */
  function RewriteEvent(c: Config, e: Event): Event
    requires c.numFids > 0 && |c.qid| > 0 && e.queueId < |c.nextQid|
  {
    e.(flowId := if e.queueId == c.qid[0] then Classify(c, e.pkt.rss) else e.flowId,
       queueId := c.nextQid[e.queueId],
       op := Forward,
       sched := c.queueType)
  }

  /** An event inside the device or held by a worker. at and flow are the queue and flow under which
      the device scheduled it; trail is a history of the stage queues it was dequeued from. */
  datatype Cell = Cell(ev: Event, at: nat, flow: nat, trail: seq<nat>)

  /** ready is set once the worker has rewritten its batch and is enqueueing it. */
  datatype Worker = Worker(batch: seq<Cell>, ready: bool)

  datatype State = State(
    arrived: seq<Packet>, queues: seq<seq<Cell>>, workers: seq<Worker>, sent: seq<Cell>)

  datatype Step =
    | Arrive(pkt: Packet)
    | Take(w: nat, q: nat, k: nat)
    | Rewrite(w: nat)
    | Accept(w: nat)
    | Transmit

  function Init(c: Config, numWorkers: nat): State {
    State([], seq(c.n + 1, _ => []), seq(numWorkers, _ => Worker([], false)), [])
  }

  /** The atomic-scheduling rule: the event is the earliest queued one of its flow and no other
      worker still holds an event of that flow from that queue. */
  ghost predicate AtomicallySchedulable(s: State, w: nat, q: nat, k: nat)
    requires q < |s.queues| && k < |s.queues[q]|
  {
    var flow := s.queues[q][k].flow;
    && (forall j :: 0 <= j < k ==> s.queues[q][j].flow != flow)
    && (forall v, j :: 0 <= v < |s.workers| && v != w && 0 <= j < |s.workers[v].batch| ==>
          !(s.workers[v].batch[j].at == q && s.workers[v].batch[j].flow == flow))
  }

  ghost predicate Enabled(c: Config, s: State, step: Step)
    requires |s.queues| == c.n + 1
  {
    match step
    case Arrive(pkt) => forall a :: a in s.arrived ==> a.id != pkt.id
    case Take(w, q, k) =>
      && w < |s.workers| && !s.workers[w].ready
      && q < c.n && k < |s.queues[q]|
      && (c.queueType == Atomic ==> AtomicallySchedulable(s, w, q, k))
    case Rewrite(w) => w < |s.workers| && !s.workers[w].ready && s.workers[w].batch != []
    case Accept(w) => w < |s.workers| && s.workers[w].ready && s.workers[w].batch != []
    case Transmit => s.queues[c.n] != []
  }

  function RewriteAll(c: Config, batch: seq<Cell>): (r: seq<Cell>)
    requires c.numFids > 0 && |c.qid| > 0
    requires forall j :: 0 <= j < |batch| ==> batch[j].ev.queueId < |c.nextQid|
  {
    seq(|batch|, j requires 0 <= j < |batch| => batch[j].(ev := RewriteEvent(c, batch[j].ev)))
  }

  function Without<T>(xs: seq<T>, k: nat): seq<T>
    requires k < |xs|
  {
    xs[..k] + xs[k + 1..]
  }

  /** The cell the device creates for an enqueued event. */
  function Enqueued(e: Event, trail: seq<nat>): Cell {
    Cell(e, e.queueId, e.flowId, trail)
  }

  ghost function Apply(c: Config, s: State, step: Step): State
    requires WellPlaced(c, s) && Enabled(c, s, step)
  {
    match step
    case Arrive(pkt) =>
      var e := Event(pkt, EthDev, c.qid[0], c.rxFlow(pkt.rss), 0, c.queueType, New);
      s.(arrived := s.arrived + [pkt], queues := s.queues[c.qid[0] := s.queues[c.qid[0]] + [Enqueued(e, [])]])
    case Take(w, q, k) =>
      var cell := s.queues[q][k];
      s.(queues := s.queues[q := Without(s.queues[q], k)],
         workers := s.workers[w := Worker(s.workers[w].batch + [cell.(trail := cell.trail + [q])], false)])
    case Rewrite(w) =>
      assert forall j :: 0 <= j < |s.workers[w].batch| ==> HeldOk(c, s.workers[w].batch[j], false);
      s.(workers := s.workers[w := Worker(RewriteAll(c, s.workers[w].batch), true)])
    case Accept(w) =>
      var cell := s.workers[w].batch[0];
      assert HeldOk(c, cell, true);
      var q := cell.ev.queueId;
      var rest := s.workers[w].batch[1..];
      s.(queues := s.queues[q := s.queues[q] + [Enqueued(cell.ev, cell.trail)]],
         workers := s.workers[w := Worker(rest, rest != [])])
    case Transmit =>
      s.(queues := s.queues[c.n := s.queues[c.n][1..]], sent := s.sent + [s.queues[c.n][0]])
  }

  /* ---------------------------------------------------------------- placement */

  function UpTo(q: nat): seq<nat> {
    seq(q, i => i)
  }

  /** The flow of a packet at a queue: chosen by the RX adapter at stage 0, by the first stage after. */
  function FlowAt(c: Config, q: nat, rss: nat): nat
    requires c.numFids > 0
  {
    if q == 0 then c.rxFlow(rss) else Classify(c, rss)
  }

  ghost predicate QueuedOk(c: Config, cell: Cell, q: nat)
    requires c.numFids > 0
  {
    && cell.at == q == cell.ev.queueId
    && cell.flow == cell.ev.flowId == FlowAt(c, q, cell.ev.pkt.rss)
    && cell.ev.sched == c.queueType
    && cell.ev.op == (if q == 0 then New else Forward)
    && cell.trail == UpTo(q)
  }

  ghost predicate HeldOk(c: Config, cell: Cell, ready: bool)
    requires c.numFids > 0
  {
    && cell.at < c.n
    && cell.flow == FlowAt(c, cell.at, cell.ev.pkt.rss)
    && cell.ev.queueId == (if ready then cell.at + 1 else cell.at)
    && cell.ev.flowId == FlowAt(c, cell.ev.queueId, cell.ev.pkt.rss)
    && cell.ev.sched == c.queueType
    && cell.ev.op == (if ready || cell.at > 0 then Forward else New)
    && cell.trail == UpTo(cell.at + 1)
  }

  /** Every event is where its queue id says, with the flow its hash says, having passed exactly the
      stages before it, as a new event at stage 0 and as a forwarded one after; workers only ever hold
      events of stages 0..n-1. */
  ghost predicate WellPlaced(c: Config, s: State) {
    && Chained(c)
    && |s.queues| == c.n + 1
    && (forall q, k :: 0 <= q <= c.n && 0 <= k < |s.queues[q]| ==> QueuedOk(c, s.queues[q][k], q))
    && (forall w, k :: 0 <= w < |s.workers| && 0 <= k < |s.workers[w].batch| ==>
          HeldOk(c, s.workers[w].batch[k], s.workers[w].ready))
    && (forall w :: 0 <= w < |s.workers| && s.workers[w].ready ==> s.workers[w].batch != [])
    && (forall k :: 0 <= k < |s.sent| ==> QueuedOk(c, s.sent[k], c.n))
  }

  lemma {:induction false} StepKeepsPlacement(c: Config, s: State, step: Step)
    requires WellPlaced(c, s) && Enabled(c, s, step)
    ensures WellPlaced(c, Apply(c, s, step))
  {
    var t := Apply(c, s, step);
    if step.Take? {
      var cell := s.queues[step.q][step.k];
      assert QueuedOk(c, cell, step.q);
      assert cell.trail + [step.q] == UpTo(step.q + 1);
    } else if step.Accept? {
      assert HeldOk(c, s.workers[step.w].batch[0], true);
    }
  }
}

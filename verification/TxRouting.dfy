/**
 Routing of the transmit-from-worker pipeline (ebpf-debug/eventenqdeq-trace/pipeline_worker_tx.c).

 Every port owns a block of n+1 queues: n stage queues and one atomic TX queue. A worker finds the
 stage of an event from its queue id modulo m. The code takes m = n; the layout would need m = n+1.
 Both are instances of Route.
 */
module TxRouting {
  import opened Arithmetic
  import opened EventDev

  /** The set-up: modulus, stages, ports, cdata.queue_type and the next_qid table. */
  datatype Layout = Layout(m: nat, n: nat, ports: nat, atq: bool, queueType: SchedType, next: seq<nat>)

  function NumQueues(ports: nat, n: nat, atq: bool): nat {
    if atq then ports else ports * n + ports
  }

  ghost predicate LayoutOk(l: Layout) {
    && l.n > 0 && l.m > 0
    && NumQueues(l.ports, l.n, l.atq) <= |l.next|
    && forall q :: 0 <= q < NumQueues(l.ports, l.n, l.atq) ==> l.next[q] == q + 1
  }

  datatype Outcome = Transmit | Fwd(ev: Event)

  /** worker_fwd_event */
  function Forwarded(e: Event, sched: SchedType): Event {
    e.(eventType := Cpu, op := Forward, sched := sched)
  }

  /** worker_do_tx */
  function Route(l: Layout, e: Event): Outcome
    requires l.n > 0 && l.m > 0 && e.queueId < |l.next|
  {
    var cq, last := e.queueId % l.m, l.n - 1;
    if cq >= last then
      if e.sched == Atomic then Transmit
      else Fwd(Forwarded(e, Atomic).(queueId := if cq == last then l.next[e.queueId] else e.queueId))
    else Fwd(Forwarded(e, l.queueType).(queueId := l.next[e.queueId]))
  }

  /** worker_do_tx_atq; sub_event_type is 8 bits wide. */
  function RouteAtq(l: Layout, e: Event): Outcome
    requires l.n > 0
  {
    if e.subType % l.n == l.n - 1 then
      if e.sched == Atomic then Transmit else Fwd(Forwarded(e, Atomic))
    else Fwd(Forwarded(e, l.queueType).(subType := (e.subType + 1) % 256))
  }

  /** worker_do_tx_single and worker_do_tx_single_atq; queue_id is 8 bits wide. */
  function RouteSingle(l: Layout, e: Event): Outcome {
    if e.sched == Atomic then Transmit
    else Fwd(Forwarded(e, Atomic).(queueId := if l.atq then e.queueId else (e.queueId + 1) % 256))
  }

  /** The worker chosen by set_worker_tx_enq_setup_data. */
  function Decide(l: Layout, e: Event): Outcome
    requires l.n > 0 && l.m > 0 && (l.n > 1 && !l.atq ==> e.queueId < |l.next|)
  {
    if l.n == 1 then RouteSingle(l, e)
    else if l.atq then RouteAtq(l, e)
    else Route(l, e)
  }

  /** A queue the device has; an event sent anywhere else is never dequeued again. */
  predicate OnDevice(l: Layout, e: Event) {
    e.queueId < NumQueues(l.ports, l.n, l.atq)
  }

  datatype Where = Gone | At(ev: Event)

  /** Where an injected event is after k forwards, if it gets that far. */
  function After(l: Layout, e: Event, k: nat): Where
    requires LayoutOk(l)
  {
    if k == 0 then At(e)
    else
      match After(l, e, k - 1)
      case Gone => Gone
      case At(x) =>
        if !OnDevice(l, x) then Gone
        else match Decide(l, x) case Transmit => Gone case Fwd(y) => At(y)
  }

  /** The event is transmitted after exactly k forwards. */
  predicate TransmittedAfter(l: Layout, e: Event, k: nat)
    requires LayoutOk(l)
  {
    match After(l, e, k)
    case Gone => false
    case At(x) => OnDevice(l, x) && Decide(l, x) == Transmit
  }

  /** rx_stride times the port: the first queue of the port's block. */
  function Block(l: Layout, p: nat): nat {
    p * (l.n + 1)
  }

  /** What the RX adapter of port p injects. */
  predicate InjectedAt(l: Layout, e: Event, p: nat) {
    p < l.ports && e.queueId == Block(l, p) && e.sched == l.queueType
  }

  /** The schedule type the set-up gives queue q. */
  function QueueSched(n: nat, queueType: SchedType, q: nat): SchedType {
    if q % (n + 1) == n then Atomic else queueType
  }

  /* ---------------------------------------------------------------- arithmetic */

  /** Slot k of a block, seen with the modulus of the layout. */
  lemma {:induction false} SlotInLayout(l: Layout, p: nat, k: nat)
    requires k <= l.n
    ensures (Block(l, p) + k) % (l.n + 1) == k
  {
    assert Block(l, p) == (l.n + 1) * p;
    ModUnique(Block(l, p) + k, l.n + 1, p, k);
  }

  lemma {:induction false} BlockFits(l: Layout, p: nat)
    requires p < l.ports && !l.atq
    ensures Block(l, p) + l.n < NumQueues(l.ports, l.n, l.atq)
  {
    var rest := l.ports - p - 1;
    assert l.ports * l.n + l.ports == l.ports * (l.n + 1);
    assert l.ports * (l.n + 1) == p * (l.n + 1) + (l.n + 1) + rest * (l.n + 1);
    assert rest * (l.n + 1) >= 0;
  }

  /** The same slot, seen with the modulus the code takes. */
  lemma {:induction false} SlotAsCoded(l: Layout, p: nat, k: nat)
    requires l.n > 0
    ensures (Block(l, p) + k) % l.n == (p + k) % l.n
  {
    var b, r := (p + k) / l.n, (p + k) % l.n;
    assert Block(l, p) == p * l.n + p;
    assert l.n * (p + b) == l.n * p + l.n * b;
    ModUnique(Block(l, p) + k, l.n, p + b, r);
  }

  lemma {:induction false} SlotWithoutWrap(l: Layout, p: nat, k: nat)
    requires l.n > 0 && p % l.n + k < l.n
    ensures (Block(l, p) + k) % l.n == p % l.n + k
  {
    SlotAsCoded(l, p, k);
    SumWithoutWrap(p, k, l.n);
  }

  lemma {:induction false} SumWithoutWrap(p: nat, k: nat, n: nat)
    requires n > 0 && p % n + k < n
    ensures (p + k) % n == p % n + k
  {
    var b, r := p / n, p % n;
    assert p == n * b + r;
    ModUnique(p + k, n, b, r + k);
  }

  lemma {:induction false} NextMod(x: nat, n: nat)
    requires n > 0
    ensures (x + 1) % n == (if x % n == n - 1 then 0 else x % n + 1)
  {
    var b, r := x / n, x % n;
    assert x == n * b + r;
    if r == n - 1 {
      assert x + 1 == n * (b + 1) + 0;
      ModUnique(x + 1, n, b + 1, 0);
    } else {
      ModUnique(x + 1, n, b, r + 1);
    }
  }

  /* ---------------------------------------------------------------- modulus n + 1 */

  /** Forwards an event of the intended pipeline makes before it is transmitted. */
  function Hops(l: Layout): nat
    requires l.n > 0
  {
    if l.queueType == Atomic then l.n - 1 else l.n
  }

  /** With slot modulus n+1 an event walks its own block one queue at a time, always arriving with the
      schedule type of the queue it enters. */
  lemma {:induction false} IntendedWalk(l: Layout, p: nat, e: Event, k: nat)
    requires LayoutOk(l) && !l.atq && l.n >= 2 && l.m == l.n + 1
    requires InjectedAt(l, e, p) && k <= Hops(l)
    ensures After(l, e, k).At? && OnDevice(l, After(l, e, k).ev)
    ensures After(l, e, k).ev.queueId == Block(l, p) + k
    ensures After(l, e, k).ev.sched == QueueSched(l.n, l.queueType, Block(l, p) + k)
    ensures After(l, e, k).ev.pkt == e.pkt
  {
    BlockFits(l, p);
    SlotInLayout(l, p, k);
    if k > 0 {
      IntendedWalk(l, p, e, k - 1);
      SlotInLayout(l, p, k - 1);
    }
  }

  /** The whole journey: the n stage queues of the block in order, then, for ordered and parallel
      queues, its TX queue, and transmission there. */
  lemma {:induction false} IntendedJourney(l: Layout, p: nat, e: Event)
    requires LayoutOk(l) && !l.atq && l.n >= 2 && l.m == l.n + 1 && InjectedAt(l, e, p)
    ensures TransmittedAfter(l, e, Hops(l))
    ensures forall k :: 0 <= k <= Hops(l) ==>
      After(l, e, k).At? && After(l, e, k).ev.queueId == Block(l, p) + k && After(l, e, k).ev.pkt == e.pkt
  {
    forall k | 0 <= k <= Hops(l)
      ensures After(l, e, k).At? && After(l, e, k).ev.queueId == Block(l, p) + k && After(l, e, k).ev.pkt == e.pkt
    {
      IntendedWalk(l, p, e, k);
    }
    IntendedWalk(l, p, e, Hops(l));
    SlotInLayout(l, p, Hops(l));
  }

  /* ---------------------------------------------------------------- modulus n, as coded */

  /** Atomic queues: the event of port p is forwarded exactly n-1-(p mod n) times. */
  lemma {:induction false} CodedAtomicWalk(l: Layout, p: nat, e: Event, k: nat)
    requires LayoutOk(l) && !l.atq && l.n >= 2 && l.m == l.n && l.queueType == Atomic
    requires InjectedAt(l, e, p) && k <= l.n - 1 - p % l.n
    ensures After(l, e, k).At? && After(l, e, k).ev.queueId == Block(l, p) + k && After(l, e, k).ev.sched == Atomic
    ensures TransmittedAfter(l, e, k) <==> k == l.n - 1 - p % l.n
  {
    BlockFits(l, p);
    SlotWithoutWrap(l, p, k);
    if k > 0 {
      CodedAtomicWalk(l, p, e, k - 1);
      SlotWithoutWrap(l, p, k - 1);
    }
  }

  /** Ordered and parallel queues: the queue id rises at every step, through the blocks of all later
      ports, and the event is never in a state in which it would be transmitted. */
  lemma {:induction false} CodedOtherWalk(l: Layout, p: nat, e: Event, k: nat)
    requires LayoutOk(l) && !l.atq && l.n >= 2 && l.m == l.n && l.queueType != Atomic
    requires InjectedAt(l, e, p) && Block(l, p) + k <= NumQueues(l.ports, l.n, l.atq)
    ensures After(l, e, k).At? && After(l, e, k).ev.queueId == Block(l, p) + k
    ensures After(l, e, k).ev.sched == (if k > 0 && (Block(l, p) + k) % l.n == 0 then Atomic else l.queueType)
    ensures !TransmittedAfter(l, e, k)
  {
    if k > 0 {
      CodedOtherWalk(l, p, e, k - 1);
      NextMod(Block(l, p) + k - 1, l.n);
    }
  }

  lemma {:induction false} GoneStaysGone(l: Layout, e: Event, j: nat, k: nat)
    requires LayoutOk(l) && j <= k && After(l, e, j).Gone?
    ensures After(l, e, k).Gone?
  {
    if j < k {
      GoneStaysGone(l, e, j, k - 1);
    }
  }

  lemma {:induction false} CodedNeverTransmits(l: Layout, p: nat, e: Event, k: nat)
    requires LayoutOk(l) && !l.atq && l.n >= 2 && l.m == l.n && l.queueType != Atomic && InjectedAt(l, e, p)
    ensures !TransmittedAfter(l, e, k)
  {
    BlockFits(l, p);
    var past := NumQueues(l.ports, l.n, l.atq) - Block(l, p);
    if k <= past {
      CodedOtherWalk(l, p, e, k);
    } else {
      CodedOtherWalk(l, p, e, past);
      GoneStaysGone(l, e, past + 1, k);
    }
  }

  /** An event is sent at most once. */
  lemma {:induction false} TransmittedOnce(l: Layout, e: Event, j: nat, k: nat)
    requires LayoutOk(l) && TransmittedAfter(l, e, j) && TransmittedAfter(l, e, k)
    ensures j == k
  {
    if j < k {
      GoneStaysGone(l, e, j + 1, k);
    } else if k < j {
      GoneStaysGone(l, e, k + 1, j);
    }
  }

  /** The intended journey: the event is transmitted, and first visits each stage queue of its block. */
  ghost predicate VisitsOwnStages(l: Layout, p: nat, e: Event)
    requires LayoutOk(l)
  {
    && (exists k :: TransmittedAfter(l, e, k))
    && (forall k :: 0 <= k < l.n ==> After(l, e, k).At? && After(l, e, k).ev.queueId == Block(l, p) + k)
  }

  /** The modulus as coded gives the intended journey exactly to atomic pipelines of the ports whose
      number is a multiple of the number of stages. */
  lemma {:induction false} CodedMeetsIntent(l: Layout, p: nat, e: Event)
    requires LayoutOk(l) && !l.atq && l.n >= 2 && l.m == l.n && InjectedAt(l, e, p)
    ensures VisitsOwnStages(l, p, e) <==> l.queueType == Atomic && p % l.n == 0
  {
    if l.queueType != Atomic {
      if VisitsOwnStages(l, p, e) {
        var k :| TransmittedAfter(l, e, k);
        CodedNeverTransmits(l, p, e, k);
      }
    } else {
      var hops := l.n - 1 - p % l.n;
      CodedAtomicWalk(l, p, e, hops);
      if hops == l.n - 1 {
        forall k | 0 <= k < l.n ensures After(l, e, k).At? && After(l, e, k).ev.queueId == Block(l, p) + k {
          CodedAtomicWalk(l, p, e, k);
        }
      } else {
        assert After(l, e, hops + 1).Gone?;
      }
    }
  }

  /** On the modulus of the layout, a TX-queue event that is not atomic, which no walk produces, is made so and comes
      back to the same queue, to be transmitted from there. */
  lemma {:induction false} StrayOnTxQueue(l: Layout, p: nat, e: Event)
    requires LayoutOk(l) && !l.atq && l.n >= 2 && l.m == l.n + 1 && p < l.ports
    requires e.queueId == Block(l, p) + l.n && e.sched != Atomic
    ensures After(l, e, 1).At? && After(l, e, 1).ev.queueId == e.queueId && TransmittedAfter(l, e, 1)
  {
    BlockFits(l, p);
    SlotInLayout(l, p, l.n);
    assert After(l, e, 0) == At(e);
    assert After(l, e, 1) == At(Decide(l, e).ev);
  }

  /** Whatever the layout, what is forwarded is the packet as it was, of the flow it had, as a forwarded event that
      comes from a core. */
  lemma {:induction false} ForwardKeepsPacket(l: Layout, e: Event, k: nat)
    requires LayoutOk(l) && After(l, e, k).At?
    ensures After(l, e, k).ev.pkt == e.pkt && After(l, e, k).ev.flowId == e.flowId
    ensures k > 0 ==> After(l, e, k).ev.op == Forward && After(l, e, k).ev.eventType == Cpu
  {
    if k > 0 {
      ForwardKeepsPacket(l, e, k - 1);
    }
  }

  /** Queue q is slot k of the block of port p. */
  predicate InBlock(l: Layout, p: nat, k: nat, q: nat) {
    p < l.ports && k <= l.n && q == Block(l, p) + k
  }

  /** Without all-type queues the queues of the device are those of the ports' blocks, n stage queues and a TX queue
      for each; with them there is one queue for each port. */
  lemma {:induction false} BlocksAreQueues(l: Layout, q: nat)
    ensures !l.atq ==> (q < NumQueues(l.ports, l.n, l.atq) <==> exists p: nat, k: nat :: InBlock(l, p, k, q))
    ensures l.atq ==> (q < NumQueues(l.ports, l.n, l.atq) <==> q < l.ports)
  {
    if !l.atq {
      if q < NumQueues(l.ports, l.n, l.atq) {
        var p, k := q / (l.n + 1), q % (l.n + 1);
        assert q == (l.n + 1) * p + k && Block(l, p) == (l.n + 1) * p;
        PortInRange(l.ports, l.n, p, q);
        assert InBlock(l, p, k, q);
      } else {
        forall p: nat, k: nat ensures !InBlock(l, p, k, q) {
          if p < l.ports {
            BlockFits(l, p);
          }
        }
      }
    }
  }

  lemma {:induction false} PortInRange(ports: nat, n: nat, p: nat, q: nat)
    requires q < ports * n + ports && (n + 1) * p <= q
    ensures p < ports
  {
    if ports <= p {
      LaterBlock(ports, n, p);
    }
  }

  lemma {:induction false} LaterBlock(ports: nat, n: nat, p: nat)
    requires ports <= p
    ensures (n + 1) * p >= ports * n + ports
  {
    assert (n + 1) * (p - ports) >= 0;
    assert (n + 1) * p == (n + 1) * ports + (n + 1) * (p - ports);
  }

  /* ---------------------------------------------------------------- all-type queues and one stage */

  /** Forwards of an all-type-queue event that starts at sub_event_type s. */
  function AtqHops(l: Layout, s: nat): nat
    requires s < l.n
  {
    if l.queueType == Atomic then l.n - 1 - s else l.n - s
  }

  lemma {:induction false} AtqStep(l: Layout, x: Event)
    requires LayoutOk(l) && l.atq && 2 <= l.n <= 256 && x.subType < l.n
    ensures Decide(l, x) ==
            if x.subType < l.n - 1 then Fwd(Forwarded(x, l.queueType).(subType := x.subType + 1))
            else if x.sched == Atomic then Transmit
            else Fwd(Forwarded(x, Atomic))
  {
    ModUnique(x.subType, l.n, 0, x.subType);
  }

  /** The event never leaves its injection queue; its stage counts up to n-1 without wrapping. */
  lemma {:induction false} AtqWalk(l: Layout, e: Event, k: nat)
    requires LayoutOk(l) && l.atq && 2 <= l.n <= 256
    requires OnDevice(l, e) && e.sched == l.queueType && e.subType < l.n && k <= AtqHops(l, e.subType)
    ensures After(l, e, k).At? && After(l, e, k).ev.queueId == e.queueId && After(l, e, k).ev.pkt == e.pkt
    ensures After(l, e, k).ev.subType == (if e.subType + k < l.n then e.subType + k else l.n - 1)
    ensures After(l, e, k).ev.sched == (if e.subType + k < l.n then l.queueType else Atomic)
    ensures TransmittedAfter(l, e, k) <==> k == AtqHops(l, e.subType)
  {
    if k > 0 {
      AtqWalk(l, e, k - 1);
      AtqStep(l, After(l, e, k - 1).ev);
    }
    AtqStep(l, After(l, e, k).ev);
  }

  /** One stage: an atomic event is sent at once, any other after one forward; without all-type queues
      that forward goes to the TX queue of the port's block. */
  lemma {:induction false} SingleStageJourney(l: Layout, e: Event)
    requires LayoutOk(l) && l.n == 1 && OnDevice(l, e) && e.sched == l.queueType
    requires !l.atq ==> e.queueId % 2 == 0 && e.queueId < 255
    ensures TransmittedAfter(l, e, if l.queueType == Atomic then 0 else 1)
    ensures l.queueType != Atomic ==>
      After(l, e, 1).At? && After(l, e, 1).ev.queueId == (if l.atq then e.queueId else e.queueId + 1)
  {
    assert After(l, e, 0) == At(e);
    if l.queueType != Atomic {
      assert After(l, e, 1) == At(Decide(l, e).ev);
      assert !l.atq ==> NumQueues(l.ports, l.n, l.atq) % 2 == 0;
    }
  }
}

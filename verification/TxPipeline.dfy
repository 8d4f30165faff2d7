/**
 The transmit-from-worker pipeline as a step system: atomic queues, single-event workers (worker_do_tx,
 worker_do_tx_atq and their forms for one stage), any number of ports and workers. The queues of each port are
 seen to be a generic pipeline of their own, ending in the wire of the port; so the order and conservation
 theorems of the generic pipeline carry over. With all-type queues a port has one queue, which holds the events
 of all its stages; the chain sees them sorted by stage.
 */
module TxPipeline {
  import opened Arithmetic
  import opened Sequences
  import opened EventDev
  import opened TxRouting
  import G = GenericPipeline
  import O = GenericOrder
  import R = GenericRuns
  import P = GenericParallel
  import B = GenericBurst

  /** flow is what the RX adapter makes of the RSS hash; workers leave it alone. */
  datatype Setup = Setup(l: Layout, flow: nat -> nat)

  /** Atomic queues; without all-type queues, either the modulus of the layout or the one the code takes. */
  ghost predicate SetupOk(c: Setup) {
    && LayoutOk(c.l) && c.l.queueType == Atomic
    && (if c.l.atq then c.l.n <= 256 else c.l.m == c.l.n || c.l.m == c.l.n + 1)
    && forall rss: nat :: c.flow(rss) < G.FLOW_IDS
  }

  /** How many stages an event of port p visits: all n with all-type queues or the modulus of the layout, the last
      p mod n fewer with the one taken. */
  function Stages(c: Setup, p: nat): nat
    requires c.l.n > 0
  {
    if !c.l.atq && c.l.m == c.l.n then c.l.n - p % c.l.n else c.l.n
  }

  /** The queue of stage k of port p. */
  function Home(c: Setup, p: nat, k: nat): nat {
    if c.l.atq then p else Block(c.l, p) + k
  }

  /** The port whose queue an event is in, and its stage. */
  function PortOf(c: Setup, e: Event): nat {
    if c.l.atq then e.queueId else e.queueId / (c.l.n + 1)
  }

  function SlotOf(c: Setup, e: Event): nat {
    if c.l.atq then e.subType else e.queueId % (c.l.n + 1)
  }

  /** An event forwarded to the next stage. */
  function Advanced(c: Setup, e: Event): Event {
    var y := Forwarded(e, Atomic);
    if c.l.atq then y.(subType := e.subType + 1) else y.(queueId := e.queueId + 1)
  }

  lemma {:induction false} StagesFit(c: Setup, p: nat)
    requires SetupOk(c)
    ensures 1 <= Stages(c, p) <= c.l.n
  {
  }

  lemma {:induction false} DecideInBlock(c: Setup, p: nat, k: nat, e: Event)
    requires SetupOk(c) && !c.l.atq && c.l.n > 1 && p < c.l.ports && k < Stages(c, p)
    requires e.queueId == Block(c.l, p) + k && e.sched == Atomic
    ensures e.queueId + 1 < NumQueues(c.l.ports, c.l.n, c.l.atq)
    ensures Decide(c.l, e) == if k + 1 == Stages(c, p) then Transmit else Fwd(Advanced(c, e))
  {
    BlockFits(c.l, p);
    if c.l.m == c.l.n {
      SlotWithoutWrap(c.l, p, k);
    } else {
      SlotInLayout(c.l, p, k);
    }
  }

  /** What a worker does with an event of port p at stage k. */
  lemma {:induction false} DecideAt(c: Setup, p: nat, k: nat, e: Event)
    requires SetupOk(c) && p < c.l.ports && k < Stages(c, p)
    requires e.queueId == Home(c, p, k) && (c.l.atq ==> e.subType == k) && e.sched == Atomic
    ensures e.queueId < NumQueues(c.l.ports, c.l.n, c.l.atq)
    ensures k + 1 < Stages(c, p) ==> Home(c, p, k + 1) < NumQueues(c.l.ports, c.l.n, c.l.atq)
    ensures Decide(c.l, e) == if k + 1 == Stages(c, p) then Transmit else Fwd(Advanced(c, e))
  {
    StagesFit(c, p);
    if c.l.atq {
      if c.l.n > 1 {
        AtqStep(c.l, e);
      }
    } else if c.l.n > 1 {
      DecideInBlock(c, p, k, e);
    } else {
      BlockFits(c.l, p);
    }
  }

  /** hands holds the event each worker has dequeued; arrived and wire are, per port, the packets received and
      those handed to the TX adapter. */
  datatype State = State(
    arrived: seq<seq<Packet>>, queues: seq<seq<Event>>, hands: seq<Option<Event>>, wire: seq<seq<Packet>>)

  datatype Step = Arrive(p: nat, pkt: Packet) | Take(w: nat, q: nat, k: nat) | Put(w: nat)

  function Init(c: Setup, workers: nat): State {
    State(seq(c.l.ports, _ => []), seq(NumQueues(c.l.ports, c.l.n, c.l.atq), _ => []), seq(workers, _ => None),
          seq(c.l.ports, _ => []))
  }

  /** The event is the earliest of its flow in the queue, and nobody holds one of that flow from there. */
  ghost predicate Schedulable(s: State, q: nat, k: nat)
    requires q < |s.queues| && k < |s.queues[q]|
  {
    var flow := s.queues[q][k].flowId;
    && (forall j :: 0 <= j < k ==> s.queues[q][j].flowId != flow)
    && (forall v :: 0 <= v < |s.hands| && s.hands[v].Some? ==>
          !(s.hands[v].value.queueId == q && s.hands[v].value.flowId == flow))
  }

  /** The event the RX adapter of port p injects. */
  function Injected(c: Setup, p: nat, pkt: Packet): Event {
    Event(pkt, EthDev, Home(c, p, 0), c.flow(pkt.rss), 0, Atomic, New)
  }

  ghost predicate Enabled(c: Setup, s: State, step: Step) {
    match step
    case Arrive(p, pkt) =>
      && p < |s.arrived| && Home(c, p, 0) < |s.queues|
      && forall i :: 0 <= i < |s.arrived[p]| ==> s.arrived[p][i].id != pkt.id
    case Take(w, q, k) =>
      w < |s.hands| && s.hands[w].None? && q < |s.queues| && k < |s.queues[q]| && Schedulable(s, q, k)
    case Put(w) =>
      && w < |s.hands| && s.hands[w].Some? && c.l.n > 0 && c.l.m > 0
      && (c.l.n > 1 && !c.l.atq ==> s.hands[w].value.queueId < |c.l.next|)
      && PortOf(c, s.hands[w].value) < |s.wire|
      && match Decide(c.l, s.hands[w].value) case Transmit => true case Fwd(y) => y.queueId < |s.queues|
  }

  /** A worker that has dequeued an event transmits it or enqueues it again. */
  ghost function Apply(c: Setup, s: State, step: Step): State
    requires Enabled(c, s, step)
  {
    match step
    case Arrive(p, pkt) =>
      var q := Home(c, p, 0);
      s.(arrived := s.arrived[p := s.arrived[p] + [pkt]], queues := s.queues[q := s.queues[q] + [Injected(c, p, pkt)]])
    case Take(w, q, k) =>
      s.(queues := s.queues[q := G.Without(s.queues[q], k)], hands := s.hands[w := Some(s.queues[q][k])])
    case Put(w) =>
      var e := s.hands[w].value;
      var free := s.(hands := s.hands[w := None]);
      match Decide(c.l, e)
      case Transmit => free.(wire := s.wire[PortOf(c, e) := s.wire[PortOf(c, e)] + [e.pkt]])
      case Fwd(y) => free.(queues := s.queues[y.queueId := s.queues[y.queueId] + [y]])
  }

  /* ---------------------------------------------------------------- placement */

  lemma {:induction false} BlockOf(c: Setup, p: nat, k: nat)
    requires k <= c.l.n
    ensures (Block(c.l, p) + k) / (c.l.n + 1) == p && (Block(c.l, p) + k) % (c.l.n + 1) == k
  {
    var n := c.l.n + 1;
    var q := Block(c.l, p) + k;
    assert q == n * p + k;
    ModUnique(q, n, p, k);
    assert q == n * (q / n) + q % n;
    SameQuotient(n, q / n, p);
  }

  lemma {:induction false} SameQuotient(n: nat, a: nat, b: nat)
    requires n > 0 && n * a == n * b
    ensures a == b
  {
  }

  /** An event at home at stage k of port p is of that port and stage. */
  lemma {:induction false} AtHome(c: Setup, p: nat, k: nat, e: Event)
    requires k <= c.l.n && e.queueId == Home(c, p, k) && (c.l.atq ==> e.subType == k)
    ensures PortOf(c, e) == p && SlotOf(c, e) == k
  {
    BlockOf(c, p, k);
  }

  /** The event is where its queue id says, at a stage its port's events visit, with its packet's flow; it is new
      at the first stage and forwarded by a core after. */
  ghost predicate EventOk(c: Setup, e: Event)
    requires c.l.n > 0
  {
    var p, k := PortOf(c, e), SlotOf(c, e);
    && p < c.l.ports && k < Stages(c, p) && e.queueId == Home(c, p, k)
    && e.flowId == c.flow(e.pkt.rss) && e.sched == Atomic
    && e.op == (if k == 0 then New else Forward)
  }

  ghost predicate Placed(c: Setup, s: State) {
    && SetupOk(c) && |s.arrived| == |s.wire| == c.l.ports
    && |s.queues| == NumQueues(c.l.ports, c.l.n, c.l.atq)
    && (forall q, k :: 0 <= q < |s.queues| && 0 <= k < |s.queues[q]| ==>
          EventOk(c, s.queues[q][k]) && s.queues[q][k].queueId == q)
    && (forall w :: 0 <= w < |s.hands| && s.hands[w].Some? ==> EventOk(c, s.hands[w].value))
  }

  /** What a worker does with a well-placed event. */
  lemma {:induction false} PutDecides(c: Setup, e: Event)
    requires SetupOk(c) && EventOk(c, e)
    ensures var p, k := PortOf(c, e), SlotOf(c, e);
      && e.queueId < NumQueues(c.l.ports, c.l.n, c.l.atq)
      && (if k + 1 == Stages(c, p) then Decide(c.l, e) == Transmit
          else var y := Advanced(c, e);
            && Decide(c.l, e) == Fwd(y) && EventOk(c, y)
            && PortOf(c, y) == p && SlotOf(c, y) == k + 1 && y.queueId == Home(c, p, k + 1)
            && y.queueId < NumQueues(c.l.ports, c.l.n, c.l.atq))
  {
    var p, k := PortOf(c, e), SlotOf(c, e);
    StagesFit(c, p);
    DecideAt(c, p, k, e);
    if k + 1 < Stages(c, p) {
      AtHome(c, p, k + 1, Advanced(c, e));
    }
  }

  lemma {:induction false} ArriveKeepsPlaced(c: Setup, s: State, p: nat, pkt: Packet)
    requires Placed(c, s) && Enabled(c, s, Arrive(p, pkt))
    ensures Placed(c, Apply(c, s, Arrive(p, pkt)))
  {
    AtHome(c, p, 0, Injected(c, p, pkt));
    StagesFit(c, p);
    assert EventOk(c, Injected(c, p, pkt));
  }

  lemma {:induction false} PutKeepsPlaced(c: Setup, s: State, w: nat)
    requires Placed(c, s) && Enabled(c, s, Put(w))
    ensures Placed(c, Apply(c, s, Put(w)))
  {
    PutDecides(c, s.hands[w].value);
  }

  lemma {:induction false} StepKeepsPlaced(c: Setup, s: State, step: Step)
    requires Placed(c, s) && Enabled(c, s, step)
    ensures Placed(c, Apply(c, s, step)) && |Apply(c, s, step).hands| == |s.hands|
  {
    match step {
      case Arrive(p, pkt) => ArriveKeepsPlaced(c, s, p, pkt);
      case Take(w, q, k) => assert EventOk(c, s.queues[q][k]);
      case Put(w) => PutKeepsPlaced(c, s, w);
    }
  }

  /* ---------------------------------------------------------------- the events of a stage */

  function AtSlot(c: Setup, es: seq<Event>, k: nat): seq<Event> {
    if es == [] then [] else OneAtSlot(c, es[0], k) + AtSlot(c, es[1..], k)
  }

  function OneAtSlot(c: Setup, e: Event, k: nat): seq<Event> {
    if SlotOf(c, e) == k then [e] else []
  }

  lemma {:induction false} AtSlotConcat(c: Setup, a: seq<Event>, b: seq<Event>, k: nat)
    ensures AtSlot(c, a + b, k) == AtSlot(c, a, k) + AtSlot(c, b, k)
  {
    if a == [] {
      assert a + b == b;
    } else {
      AtSlotConcat(c, a[1..], b, k);
      assert (a + b)[1..] == a[1..] + b && (a + b)[0] == a[0];
      Assoc(OneAtSlot(c, a[0], k), AtSlot(c, a[1..], k), AtSlot(c, b, k));
    }
  }

  lemma {:induction false} AtSlotSnoc(c: Setup, es: seq<Event>, e: Event, k: nat)
    ensures AtSlot(c, es + [e], k) == AtSlot(c, es, k) + OneAtSlot(c, e, k)
  {
    AtSlotConcat(c, es, [e], k);
    assert [e][1..] == [] && AtSlot(c, [e], k) == OneAtSlot(c, e, k) + [];
  }

  lemma {:induction false} AtSlotAround(c: Setup, es: seq<Event>, i: nat, k: nat)
    requires i < |es|
    ensures AtSlot(c, es, k) == AtSlot(c, es[..i], k) + OneAtSlot(c, es[i], k) + AtSlot(c, es[i + 1..], k)
    ensures AtSlot(c, G.Without(es, i), k) == AtSlot(c, es[..i], k) + AtSlot(c, es[i + 1..], k)
  {
    AtSlotConcat(c, es[..i], es[i + 1..], k);
    AtSlotSnoc(c, es[..i], es[i], k);
    AtSlotConcat(c, es[..i] + [es[i]], es[i + 1..], k);
    assert es == es[..i] + [es[i]] + es[i + 1..];
  }

  /** Where the i-th event of a queue stands among those of its stage. */
  function Place(c: Setup, es: seq<Event>, i: nat): nat
    requires i < |es|
  {
    |AtSlot(c, es[..i], SlotOf(c, es[i]))|
  }

  lemma {:induction false} SlotWithout(c: Setup, es: seq<Event>, i: nat, k: nat)
    requires i < |es|
    ensures k != SlotOf(c, es[i]) ==> AtSlot(c, G.Without(es, i), k) == AtSlot(c, es, k)
    ensures k == SlotOf(c, es[i]) ==>
              var at := Place(c, es, i);
              && at < |AtSlot(c, es, k)| && AtSlot(c, es, k)[at] == es[i]
              && AtSlot(c, G.Without(es, i), k) == G.Without(AtSlot(c, es, k), at)
  {
    AtSlotAround(c, es, i, k);
  }

  lemma {:induction false} SlotMembers(c: Setup, es: seq<Event>, k: nat, j: nat) returns (i: nat)
    requires j < |AtSlot(c, es, k)|
    ensures i < |es| && es[i] == AtSlot(c, es, k)[j] && SlotOf(c, es[i]) == k
  {
    if j < |OneAtSlot(c, es[0], k)| {
      i := 0;
    } else {
      i := SlotMembers(c, es[1..], k, j - |OneAtSlot(c, es[0], k)|);
      i := i + 1;
    }
  }

  /* ---------------------------------------------------------------- one port as a generic pipeline */

  /** The stages of port p as a chain. The flow does not change at the first stage: its class is itself. */
  function ChainOf(c: Setup, p: nat): G.Config
    requires c.l.n > 0
  {
    var stages := Stages(c, p);
    G.Config(stages, G.FLOW_IDS, Atomic, x => x % G.FLOW_IDS, seq(stages, i => i), seq(stages, i => i + 1))
  }

  /** A packet as the device sees it: its identity and its flow. */
  function Seen(c: Setup, pkt: Packet): Packet {
    Packet(pkt.id, c.flow(pkt.rss))
  }

  function SeenAll(c: Setup, ps: seq<Packet>): (r: seq<Packet>)
    ensures |r| == |ps|
  {
    seq(|ps|, i requires 0 <= i < |ps| => Seen(c, ps[i]))
  }

  function CellOf(c: Setup, p: nat, pkt: Packet, k: nat): G.Cell
    requires c.l.n > 0
  {
    P.CellAt(ChainOf(c, p), Seen(c, pkt), k)
  }

  function EventCells(c: Setup, p: nat, es: seq<Event>, k: nat): (r: seq<G.Cell>)
    requires c.l.n > 0
    ensures |r| == |es|
  {
    seq(|es|, i requires 0 <= i < |es| => CellOf(c, p, es[i].pkt, k))
  }

  function PacketCells(c: Setup, p: nat, ps: seq<Packet>, k: nat): (r: seq<G.Cell>)
    requires c.l.n > 0
    ensures |r| == |ps|
  {
    seq(|ps|, i requires 0 <= i < |ps| => CellOf(c, p, ps[i], k))
  }

  function WorkerOf(c: Setup, p: nat, h: Option<Event>): G.Worker
    requires c.l.n > 0
  {
    if h.Some? && PortOf(c, h.value) == p then
      var k := SlotOf(c, h.value);
      G.Worker([B.Dequeued(CellOf(c, p, h.value.pkt, k), k)], false)
    else G.Worker([], false)
  }

  function Workers(c: Setup, p: nat, hands: seq<Option<Event>>): (r: seq<G.Worker>)
    requires c.l.n > 0
    ensures |r| == |hands|
  {
    seq(|hands|, w requires 0 <= w < |hands| => WorkerOf(c, p, hands[w]))
  }

  /** The state has the queues, the wire and the arrivals of port p. */
  predicate Fits(c: Setup, p: nat, s: State) {
    && c.l.n > 0 && p < |s.wire| && p < |s.arrived|
    && if c.l.atq then p < |s.queues| else Block(c.l, p) + Stages(c, p) <= |s.queues|
  }

  /** What waits at stage k of the port, or has left through the wire after the last. */
  function Row(c: Setup, p: nat, s: State, k: nat): seq<G.Cell>
    requires Fits(c, p, s)
  {
    if k < Stages(c, p) then EventCells(c, p, AtSlot(c, s.queues[Home(c, p, k)], k), k)
    else PacketCells(c, p, s.wire[p], Stages(c, p))
  }

  function View(c: Setup, p: nat, s: State): G.State
    requires Fits(c, p, s)
  {
    G.State(SeenAll(c, s.arrived[p]), seq(Stages(c, p) + 1, k requires k >= 0 => Row(c, p, s, k)),
            Workers(c, p, s.hands), [])
  }

  lemma {:induction false} PlacedFits(c: Setup, p: nat, s: State)
    requires Placed(c, s) && p < c.l.ports
    ensures Fits(c, p, s)
  {
    StagesFit(c, p);
    if !c.l.atq {
      BlockFits(c.l, p);
    }
  }

  /** The cell of a packet in the chain has the packet's own flow at every stage. */
  lemma {:induction false} CellFlow(c: Setup, p: nat, pkt: Packet, k: nat)
    requires SetupOk(c)
    ensures CellOf(c, p, pkt, k).flow == c.flow(pkt.rss) && CellOf(c, p, pkt, k).at == k
  {
  }

  lemma {:induction false} ChainIsChained(c: Setup, p: nat)
    requires SetupOk(c)
    ensures G.Chained(ChainOf(c, p))
  {
    StagesFit(c, p);
  }

  lemma {:induction false} RowSame(c: Setup, p: nat, s: State, t: State, k: nat)
    requires Fits(c, p, s) && Fits(c, p, t)
    requires k < Stages(c, p) ==>
               AtSlot(c, t.queues[Home(c, p, k)], k) == AtSlot(c, s.queues[Home(c, p, k)], k)
    requires k >= Stages(c, p) ==> t.wire[p] == s.wire[p]
    ensures Row(c, p, t, k) == Row(c, p, s, k)
  {
  }

  /** Two views agree if their parts do. */
  lemma {:induction false} SameView(c: Setup, p: nat, s: State, v: G.State)
    requires Fits(c, p, s)
    requires v.arrived == SeenAll(c, s.arrived[p]) && v.sent == [] && v.workers == Workers(c, p, s.hands)
    requires |v.queues| == Stages(c, p) + 1
    requires forall k :: 0 <= k <= Stages(c, p) ==> v.queues[k] == Row(c, p, s, k)
    ensures v == View(c, p, s)
  {
    assert v.queues == View(c, p, s).queues;
  }

  /** Different ports have no queue in common. */
  lemma {:induction false} OtherHome(c: Setup, p: nat, r: nat, k: nat, j: nat)
    requires p != r && k <= c.l.n && j <= c.l.n
    ensures Home(c, p, k) != Home(c, r, j)
  {
    BlockOf(c, p, k);
    BlockOf(c, r, j);
  }

  /** Nor have different stages of one port, unless its queue is of all types. */
  lemma {:induction false} OtherSlot(c: Setup, p: nat, k: nat, j: nat, e: Event)
    requires k != j && e.queueId == Home(c, p, k) && SlotOf(c, e) == k && Home(c, p, j) == Home(c, p, k)
    ensures OneAtSlot(c, e, j) == []
  {
  }

  /* ---------------------------------------------------------------- steps seen at one port */

  lemma {:induction false} EventCellsSnoc(c: Setup, p: nat, es: seq<Event>, e: Event, k: nat)
    requires c.l.n > 0
    ensures EventCells(c, p, es + [e], k) == EventCells(c, p, es, k) + [CellOf(c, p, e.pkt, k)]
  {
  }

  lemma {:induction false} PacketCellsSnoc(c: Setup, p: nat, ps: seq<Packet>, x: Packet, k: nat)
    requires c.l.n > 0
    ensures PacketCells(c, p, ps + [x], k) == PacketCells(c, p, ps, k) + [CellOf(c, p, x, k)]
  {
  }

  lemma {:induction false} EventCellsWithout(c: Setup, p: nat, es: seq<Event>, i: nat, k: nat)
    requires c.l.n > 0 && i < |es|
    ensures EventCells(c, p, G.Without(es, i), k) == G.Without(EventCells(c, p, es, k), i)
  {
  }

  /** An event enqueued at home shows in the row of its stage and in no other. */
  lemma {:induction false} RowGrows(c: Setup, p: nat, s: State, t: State, e: Event, j: nat)
    requires Fits(c, p, s) && Fits(c, p, t) && j <= Stages(c, p) && PortOf(c, e) == p && SlotOf(c, e) < Stages(c, p)
    requires e.queueId == Home(c, p, SlotOf(c, e)) && t.wire[p] == s.wire[p]
    requires e.queueId < |s.queues| && t.queues == s.queues[e.queueId := s.queues[e.queueId] + [e]]
    ensures Row(c, p, t, j) ==
            if j == SlotOf(c, e) then Row(c, p, s, j) + [CellOf(c, p, e.pkt, j)] else Row(c, p, s, j)
  {
    var k := SlotOf(c, e);
    if j < Stages(c, p) {
      AtSlotSnoc(c, s.queues[e.queueId], e, j);
      EventCellsSnoc(c, p, AtSlot(c, s.queues[e.queueId], j), e, j);
    }
    if j != k {
      if j < Stages(c, p) && Home(c, p, j) == Home(c, p, k) {
        OtherSlot(c, p, k, j, e);
      }
      RowSame(c, p, s, t, j);
    }
  }

  lemma {:induction false} ArriveSeen(c: Setup, s: State, p: nat, pkt: Packet)
    requires Placed(c, s) && Enabled(c, s, Arrive(p, pkt)) && Placed(c, Apply(c, s, Arrive(p, pkt)))
    requires Fits(c, p, s) && G.WellPlaced(ChainOf(c, p), View(c, p, s))
    ensures Fits(c, p, Apply(c, s, Arrive(p, pkt)))
    ensures G.Enabled(ChainOf(c, p), View(c, p, s), G.Arrive(Seen(c, pkt)))
    ensures G.Apply(ChainOf(c, p), View(c, p, s), G.Arrive(Seen(c, pkt))) == View(c, p, Apply(c, s, Arrive(p, pkt)))
  {
    var ch, v, t := ChainOf(c, p), View(c, p, s), Apply(c, s, Arrive(p, pkt));
    forall i | 0 <= i < |v.arrived| ensures v.arrived[i].id != pkt.id {
      assert v.arrived[i] == Seen(c, s.arrived[p][i]);
    }
    var u := G.Apply(ch, v, G.Arrive(Seen(c, pkt)));
    assert G.UpTo(0) == [];
    StagesFit(c, p);
    AtHome(c, p, 0, Injected(c, p, pkt));
    forall k | 0 <= k <= Stages(c, p) ensures u.queues[k] == Row(c, p, t, k) {
      RowGrows(c, p, s, t, Injected(c, p, pkt), k);
    }
    SameView(c, p, t, u);
  }

  lemma {:induction false} ArriveUnseen(c: Setup, s: State, p: nat, pkt: Packet, r: nat)
    requires Placed(c, s) && Enabled(c, s, Arrive(p, pkt)) && r < c.l.ports && r != p && Fits(c, r, s)
    ensures Fits(c, r, Apply(c, s, Arrive(p, pkt))) && View(c, r, Apply(c, s, Arrive(p, pkt))) == View(c, r, s)
  {
    var t := Apply(c, s, Arrive(p, pkt));
    StagesFit(c, r);
    forall k | 0 <= k <= Stages(c, r) ensures View(c, r, s).queues[k] == Row(c, r, t, k) {
      OtherHome(c, p, r, 0, k);
      RowSame(c, r, s, t, k);
    }
    SameView(c, r, t, View(c, r, s));
  }

  /** The step of the chain that a dequeue is. */
  function TakeIn(c: Setup, s: State, w: nat, q: nat, k: nat): G.Step
    requires q < |s.queues| && k < |s.queues[q]|
  {
    G.Take(w, SlotOf(c, s.queues[q][k]), Place(c, s.queues[q], k))
  }

  lemma {:induction false} TakeIsSchedulable(c: Setup, s: State, w: nat, q: nat, k: nat)
    requires Placed(c, s) && Enabled(c, s, Take(w, q, k)) && Fits(c, PortOf(c, s.queues[q][k]), s)
    ensures G.Enabled(ChainOf(c, PortOf(c, s.queues[q][k])), View(c, PortOf(c, s.queues[q][k]), s),
                      TakeIn(c, s, w, q, k))
  {
    var es := s.queues[q];
    var p, slot, at := PortOf(c, es[k]), SlotOf(c, es[k]), Place(c, es, k);
    var v := View(c, p, s);
    assert EventOk(c, es[k]) && es[k].queueId == q;
    SlotWithout(c, es, k, slot);
    AtSlotAround(c, es, k, slot);
    assert v.queues[slot] == EventCells(c, p, AtSlot(c, es, slot), slot);
    CellFlow(c, p, es[k].pkt, slot);
    forall j | 0 <= j < at ensures v.queues[slot][j].flow != v.queues[slot][at].flow {
      var i := SlotMembers(c, es[..k], slot, j);
      assert EventOk(c, es[i]) && AtSlot(c, es, slot)[j] == es[i];
      CellFlow(c, p, es[i].pkt, slot);
    }
    forall x, j | 0 <= x < |v.workers| && 0 <= j < |v.workers[x].batch|
      ensures !(v.workers[x].batch[j].at == slot && v.workers[x].batch[j].flow == v.queues[slot][at].flow)
    {
      var e := s.hands[x].value;
      assert v.workers[x] == WorkerOf(c, p, s.hands[x]) && EventOk(c, e);
      CellFlow(c, p, e.pkt, SlotOf(c, e));
    }
    assert v.workers[w] == G.Worker([], false);
  }

  lemma {:induction false} WorkersUpdate(c: Setup, p: nat, hands: seq<Option<Event>>, w: nat, h: Option<Event>)
    requires c.l.n > 0 && w < |hands|
    ensures Workers(c, p, hands[w := h]) == Workers(c, p, hands)[w := WorkerOf(c, p, h)]
  {
  }

  /** A dequeued event leaves the row of its stage. */
  lemma {:induction false} RowShrinks(c: Setup, s: State, w: nat, q: nat, k: nat, j: nat)
    requires Placed(c, s) && Enabled(c, s, Take(w, q, k)) && Fits(c, PortOf(c, s.queues[q][k]), s)
    requires j <= Stages(c, PortOf(c, s.queues[q][k]))
    ensures var e := s.queues[q][k];
      var p := PortOf(c, e);
      && Fits(c, p, Apply(c, s, Take(w, q, k)))
      && Place(c, s.queues[q], k) < |Row(c, p, s, SlotOf(c, e))|
      && Row(c, p, s, SlotOf(c, e))[Place(c, s.queues[q], k)] == CellOf(c, p, e.pkt, SlotOf(c, e))
      && Row(c, p, Apply(c, s, Take(w, q, k)), j) ==
         if j == SlotOf(c, e) then G.Without(Row(c, p, s, j), Place(c, s.queues[q], k)) else Row(c, p, s, j)
  {
    var es, t := s.queues[q], Apply(c, s, Take(w, q, k));
    var p, slot := PortOf(c, es[k]), SlotOf(c, es[k]);
    assert EventOk(c, es[k]) && es[k].queueId == q;
    SlotWithout(c, es, k, slot);
    if j == slot {
      EventCellsWithout(c, p, AtSlot(c, es, slot), Place(c, es, k), slot);
    } else {
      SlotWithout(c, es, k, j);
      RowSame(c, p, s, t, j);
    }
  }

  lemma {:induction false} TakeSeen(c: Setup, s: State, w: nat, q: nat, k: nat)
    requires Placed(c, s) && Enabled(c, s, Take(w, q, k)) && Fits(c, PortOf(c, s.queues[q][k]), s)
    requires G.WellPlaced(ChainOf(c, PortOf(c, s.queues[q][k])), View(c, PortOf(c, s.queues[q][k]), s))
    requires G.Enabled(ChainOf(c, PortOf(c, s.queues[q][k])), View(c, PortOf(c, s.queues[q][k]), s),
                       TakeIn(c, s, w, q, k))
    ensures Fits(c, PortOf(c, s.queues[q][k]), Apply(c, s, Take(w, q, k)))
    ensures G.Apply(ChainOf(c, PortOf(c, s.queues[q][k])), View(c, PortOf(c, s.queues[q][k]), s),
                    TakeIn(c, s, w, q, k))
         == View(c, PortOf(c, s.queues[q][k]), Apply(c, s, Take(w, q, k)))
  {
    var e, t := s.queues[q][k], Apply(c, s, Take(w, q, k));
    var p, slot := PortOf(c, e), SlotOf(c, e);
    var v := View(c, p, s);
    var u := G.Apply(ChainOf(c, p), v, TakeIn(c, s, w, q, k));
    assert EventOk(c, e);
    forall j | 0 <= j <= Stages(c, p) ensures u.queues[j] == Row(c, p, t, j) {
      RowShrinks(c, s, w, q, k, j);
    }
    TakenHand(c, s, w, q, k, u);
    SameView(c, p, t, u);
  }

  lemma {:induction false} TakenHand(c: Setup, s: State, w: nat, q: nat, k: nat, u: G.State)
    requires Placed(c, s) && Enabled(c, s, Take(w, q, k)) && Fits(c, PortOf(c, s.queues[q][k]), s)
    requires G.WellPlaced(ChainOf(c, PortOf(c, s.queues[q][k])), View(c, PortOf(c, s.queues[q][k]), s))
    requires G.Enabled(ChainOf(c, PortOf(c, s.queues[q][k])), View(c, PortOf(c, s.queues[q][k]), s),
                       TakeIn(c, s, w, q, k))
    requires u == G.Apply(ChainOf(c, PortOf(c, s.queues[q][k])), View(c, PortOf(c, s.queues[q][k]), s),
                          TakeIn(c, s, w, q, k))
    ensures u.workers == Workers(c, PortOf(c, s.queues[q][k]), Apply(c, s, Take(w, q, k)).hands)
  {
    var e := s.queues[q][k];
    var p, slot := PortOf(c, e), SlotOf(c, e);
    var v := View(c, p, s);
    assert EventOk(c, e);
    RowShrinks(c, s, w, q, k, slot);
    WorkersUpdate(c, p, s.hands, w, Some(e));
    assert v.workers[w] == G.Worker([], false) && v.queues[slot] == Row(c, p, s, slot);
    var cell := v.queues[slot][Place(c, s.queues[q], k)];
    assert [] + [B.Dequeued(cell, slot)] == [B.Dequeued(cell, slot)];
  }

  lemma {:induction false} TakeUnseen(c: Setup, s: State, w: nat, q: nat, k: nat, r: nat)
    requires Placed(c, s) && Enabled(c, s, Take(w, q, k)) && r < c.l.ports && r != PortOf(c, s.queues[q][k])
    requires Fits(c, r, s)
    ensures Fits(c, r, Apply(c, s, Take(w, q, k))) && View(c, r, Apply(c, s, Take(w, q, k))) == View(c, r, s)
  {
    var e, t := s.queues[q][k], Apply(c, s, Take(w, q, k));
    assert EventOk(c, e) && e.queueId == q;
    StagesFit(c, r);
    StagesFit(c, PortOf(c, e));
    forall j | 0 <= j <= Stages(c, r) ensures View(c, r, s).queues[j] == Row(c, r, t, j) {
      OtherHome(c, PortOf(c, e), r, SlotOf(c, e), j);
      RowSame(c, r, s, t, j);
    }
    WorkersUpdate(c, r, s.hands, w, Some(e));
    assert Workers(c, r, s.hands)[w] == G.Worker([], false);
    SameView(c, r, t, View(c, r, s));
  }

  /** Rewriting and enqueueing in the chain: the event in hand goes to the back of the next queue. */
  lemma {:induction false} PutInChain(ch: G.Config, v: G.State, w: nat, x: Packet, k: nat) returns (u: G.State)
    requires G.WellPlaced(ch, v) && k < ch.n && w < |v.workers|
    requires v.workers[w] == G.Worker([B.Dequeued(P.CellAt(ch, x, k), k)], false)
    ensures R.Leads(ch, v, [G.Rewrite(w), G.Accept(w)], u)
    ensures u == v.(queues := v.queues[k + 1 := v.queues[k + 1] + [P.CellAt(ch, x, k + 1)]],
                    workers := v.workers[w := G.Worker([], false)])
  {
    P.Reissue(ch, x, k);
    G.StepKeepsPlacement(ch, v, G.Rewrite(w));
    var v1 := G.Apply(ch, v, G.Rewrite(w));
    G.StepKeepsPlacement(ch, v1, G.Accept(w));
    u := G.Apply(ch, v1, G.Accept(w));
    R.LeadsCons(ch, v1, G.Accept(w), [], u);
    R.LeadsCons(ch, v, G.Rewrite(w), [G.Accept(w)], u);
    assert [G.Accept(w)] + [] == [G.Accept(w)];
    assert [G.Rewrite(w)] + [G.Accept(w)] == [G.Rewrite(w), G.Accept(w)];
    assert v1.workers[w].batch[1..] == [];
  }

  /** The event worker w is about to enqueue or transmit, seen at its port. */
  lemma {:induction false} HandSeen(c: Setup, s: State, w: nat)
    requires Placed(c, s) && w < |s.hands| && s.hands[w].Some?
    ensures var e := s.hands[w].value;
      var p, k := PortOf(c, e), SlotOf(c, e);
      && EventOk(c, e) && p < c.l.ports && k < Stages(c, p)
      && Workers(c, p, s.hands)[w] == G.Worker([B.Dequeued(CellOf(c, p, e.pkt, k), k)], false)
  {
    assert EventOk(c, s.hands[w].value);
  }

  /** What enqueueing or transmitting the event in hand does to a row of its port. */
  lemma {:induction false} PutRow(c: Setup, s: State, w: nat, j: nat)
    requires Placed(c, s) && Enabled(c, s, Put(w)) && Fits(c, PortOf(c, s.hands[w].value), s)
    requires j <= Stages(c, PortOf(c, s.hands[w].value))
    ensures var e := s.hands[w].value;
      var p, k := PortOf(c, e), SlotOf(c, e);
      && Fits(c, p, Apply(c, s, Put(w)))
      && Row(c, p, Apply(c, s, Put(w)), j) ==
         if j == k + 1 then Row(c, p, s, j) + [CellOf(c, p, e.pkt, j)] else Row(c, p, s, j)
  {
    var e, t := s.hands[w].value, Apply(c, s, Put(w));
    var p, k := PortOf(c, e), SlotOf(c, e);
    assert EventOk(c, e);
    PutDecides(c, e);
    if k + 1 < Stages(c, p) {
      RowGrows(c, p, s, t, Advanced(c, e), j);
    } else if j == k + 1 {
      PacketCellsSnoc(c, p, s.wire[p], e.pkt, j);
    } else {
      RowSame(c, p, s, t, j);
    }
  }

  lemma {:induction false} RowSeen(c: Setup, s: State, w: nat, p: nat, j: nat)
    requires Placed(c, s) && Enabled(c, s, Put(w)) && Fits(c, p, s)
    requires p == PortOf(c, s.hands[w].value) && j <= Stages(c, p)
    ensures Fits(c, p, Apply(c, s, Put(w)))
    ensures var e, was, now := s.hands[w].value, View(c, p, s).queues, View(c, p, Apply(c, s, Put(w))).queues;
      && |was| == |now| == Stages(c, p) + 1
      && now[j] == if j == SlotOf(c, e) + 1 then was[j] + [CellOf(c, p, e.pkt, j)] else was[j]
  {
    PutRow(c, s, w, j);
  }

  lemma {:induction false} OneRowGrew<T>(was: seq<seq<T>>, now: seq<seq<T>>, k: nat, x: T)
    requires k < |was| == |now|
    requires forall j :: 0 <= j < |was| ==> now[j] == if j == k then was[j] + [x] else was[j]
    ensures now == was[k := was[k] + [x]]
  {
  }

  lemma {:induction false} QueuesSeen(c: Setup, s: State, w: nat, p: nat, k: nat, cell: G.Cell)
    requires Placed(c, s) && Enabled(c, s, Put(w)) && Fits(c, p, s) && p == PortOf(c, s.hands[w].value)
    requires k == SlotOf(c, s.hands[w].value) + 1 && k <= Stages(c, p)
    requires cell == CellOf(c, p, s.hands[w].value.pkt, k)
    ensures Fits(c, p, Apply(c, s, Put(w)))
    ensures var was := View(c, p, s).queues;
      |was| == Stages(c, p) + 1 && View(c, p, Apply(c, s, Put(w))).queues == was[k := was[k] + [cell]]
  {
    RowSeen(c, s, w, p, 0);
    var was, now := View(c, p, s).queues, View(c, p, Apply(c, s, Put(w))).queues;
    forall j | 0 <= j <= Stages(c, p) ensures now[j] == if j == k then was[j] + [cell] else was[j] {
      RowSeen(c, s, w, p, j);
    }
    OneRowGrew(was, now, k, cell);
  }

  /** The state PutInChain leads to is what port p sees afterwards. */
  lemma {:induction false} PutView(c: Setup, s: State, w: nat, p: nat, k: nat, v: G.State, u: G.State)
    requires Placed(c, s) && Enabled(c, s, Put(w)) && Fits(c, p, s) && v == View(c, p, s)
    requires p == PortOf(c, s.hands[w].value) && k == SlotOf(c, s.hands[w].value) && k < Stages(c, p)
    requires |v.queues| == Stages(c, p) + 1
    requires u == v.(queues := v.queues[k + 1 := v.queues[k + 1] + [CellOf(c, p, s.hands[w].value.pkt, k + 1)]],
                     workers := v.workers[w := G.Worker([], false)])
    ensures Fits(c, p, Apply(c, s, Put(w))) && u == View(c, p, Apply(c, s, Put(w)))
  {
    QueuesSeen(c, s, w, p, k + 1, CellOf(c, p, s.hands[w].value.pkt, k + 1));
    WorkersUpdate(c, p, s.hands, w, None);
  }

  lemma {:induction false} PutSeen(c: Setup, s: State, w: nat, p: nat, v: G.State) returns (u: G.State)
    requires Placed(c, s) && Enabled(c, s, Put(w)) && p == PortOf(c, s.hands[w].value) && Fits(c, p, s)
    requires v == View(c, p, s) && G.WellPlaced(ChainOf(c, p), v)
    ensures Fits(c, p, Apply(c, s, Put(w))) && u == View(c, p, Apply(c, s, Put(w)))
    ensures R.Leads(ChainOf(c, p), v, [G.Rewrite(w), G.Accept(w)], u)
  {
    var k := SlotOf(c, s.hands[w].value);
    u := HandMoves(c, s, w, p, k, v);
    PutView(c, s, w, p, k, v, u);
  }

  lemma {:induction false} HandMoves(c: Setup, s: State, w: nat, p: nat, k: nat, v: G.State) returns (u: G.State)
    requires Placed(c, s) && w < |s.hands| && s.hands[w].Some? && Fits(c, p, s)
    requires p == PortOf(c, s.hands[w].value) && k == SlotOf(c, s.hands[w].value)
    requires v.workers == Workers(c, p, s.hands) && G.WellPlaced(ChainOf(c, p), v)
    ensures R.Leads(ChainOf(c, p), v, [G.Rewrite(w), G.Accept(w)], u)
    ensures k < Stages(c, p) && |v.queues| == Stages(c, p) + 1
    ensures u == v.(queues := v.queues[k + 1 := v.queues[k + 1] + [CellOf(c, p, s.hands[w].value.pkt, k + 1)]],
                    workers := v.workers[w := G.Worker([], false)])
  {
    HandSeen(c, s, w);
    u := PutAtPort(c, p, v, w, s.hands[w].value.pkt, k);
  }

  lemma {:induction false} PutAtPort(c: Setup, p: nat, v: G.State, w: nat, pkt: Packet, k: nat) returns (u: G.State)
    requires c.l.n > 0 && G.WellPlaced(ChainOf(c, p), v) && k < Stages(c, p) && w < |v.workers|
    requires v.workers[w] == G.Worker([B.Dequeued(CellOf(c, p, pkt, k), k)], false)
    ensures R.Leads(ChainOf(c, p), v, [G.Rewrite(w), G.Accept(w)], u)
    ensures |v.queues| == Stages(c, p) + 1
    ensures u == v.(queues := v.queues[k + 1 := v.queues[k + 1] + [CellOf(c, p, pkt, k + 1)]],
                    workers := v.workers[w := G.Worker([], false)])
  {
    u := PutInChain(ChainOf(c, p), v, w, Seen(c, pkt), k);
  }

  lemma {:induction false} PutUnseen(c: Setup, s: State, w: nat, r: nat)
    requires Placed(c, s) && Enabled(c, s, Put(w)) && r < c.l.ports && r != PortOf(c, s.hands[w].value)
    requires Fits(c, r, s)
    ensures Fits(c, r, Apply(c, s, Put(w))) && View(c, r, Apply(c, s, Put(w))) == View(c, r, s)
  {
    var e, t := s.hands[w].value, Apply(c, s, Put(w));
    assert EventOk(c, e);
    PutDecides(c, e);
    StagesFit(c, r);
    StagesFit(c, PortOf(c, e));
    forall j | 0 <= j <= Stages(c, r) ensures View(c, r, s).queues[j] == Row(c, r, t, j) {
      OtherHome(c, PortOf(c, e), r, SlotOf(c, e) + 1, j);
      RowSame(c, r, s, t, j);
    }
    WorkersUpdate(c, r, s.hands, w, None);
    assert Workers(c, r, s.hands)[w] == G.Worker([], false);
    SameView(c, r, t, View(c, r, s));
  }

  /* ---------------------------------------------------------------- runs */

  /** run leads from s to t. */
  ghost predicate Leads(c: Setup, s: State, run: seq<Step>, t: State)
    requires Placed(c, s)
    decreases |run|
  {
    if run == [] then s == t
    else Enabled(c, s, run[0]) && (StepKeepsPlaced(c, s, run[0]); Leads(c, Apply(c, s, run[0]), run[1..], t))
  }

  lemma {:induction false} InitPlaced(c: Setup, workers: nat)
    requires SetupOk(c)
    ensures Placed(c, Init(c, workers))
  {
  }

  /** s is reachable with that many workers. */
  ghost predicate Reachable(c: Setup, workers: nat, s: State) {
    SetupOk(c) && (InitPlaced(c, workers); exists run :: Leads(c, Init(c, workers), run, s))
  }

  /** What port p sees of s is reachable in its own chain. */
  ghost predicate SeenAsChain(c: Setup, workers: nat, p: nat, s: State) {
    && Placed(c, s) && p < c.l.ports && Fits(c, p, s)
    && R.Reachable(ChainOf(c, p), workers, View(c, p, s))
  }

  lemma {:induction false} ReachableLeads(ch: G.Config, workers: nat, v: G.State, run: seq<G.Step>, u: G.State)
    requires R.Reachable(ch, workers, v) && G.WellPlaced(ch, v) && R.Leads(ch, v, run, u)
    ensures R.Reachable(ch, workers, u)
    decreases |run|
  {
    if run != [] {
      G.StepKeepsPlacement(ch, v, run[0]);
      R.ReachableNext(ch, workers, v, run[0]);
      ReachableLeads(ch, workers, G.Apply(ch, v, run[0]), run[1..], u);
    }
  }

  lemma {:induction false} PutKeepsSeen(c: Setup, workers: nat, p: nat, s: State, w: nat)
    requires SeenAsChain(c, workers, p, s) && Enabled(c, s, Put(w))
    requires PortOf(c, s.hands[w].value) == p
    ensures var t := Apply(c, s, Put(w));
      Fits(c, p, t) && R.Reachable(ChainOf(c, p), workers, View(c, p, t))
  {
    var ch, v := ChainOf(c, p), View(c, p, s);
    R.ReachableInv(ch, workers, v);
    var u := PutSeen(c, s, w, p, v);
    ReachableLeads(ch, workers, v, [G.Rewrite(w), G.Accept(w)], u);
  }

  lemma {:induction false} TakeKeepsSeen(c: Setup, workers: nat, p: nat, s: State, w: nat, q: nat, k: nat)
    requires SeenAsChain(c, workers, p, s) && Enabled(c, s, Take(w, q, k)) && PortOf(c, s.queues[q][k]) == p
    ensures var t := Apply(c, s, Take(w, q, k));
      Fits(c, p, t) && R.Reachable(ChainOf(c, p), workers, View(c, p, t))
  {
    var ch, v := ChainOf(c, p), View(c, p, s);
    R.ReachableInv(ch, workers, v);
    TakeIsSchedulable(c, s, w, q, k);
    TakeSeen(c, s, w, q, k);
    R.ReachableNext(ch, workers, v, TakeIn(c, s, w, q, k));
  }

  lemma {:induction false} ArriveKeepsSeen(c: Setup, workers: nat, p: nat, s: State, pkt: Packet)
    requires SeenAsChain(c, workers, p, s) && Enabled(c, s, Arrive(p, pkt))
    ensures var t := Apply(c, s, Arrive(p, pkt));
      Fits(c, p, t) && R.Reachable(ChainOf(c, p), workers, View(c, p, t))
  {
    var ch, v := ChainOf(c, p), View(c, p, s);
    R.ReachableInv(ch, workers, v);
    StepKeepsPlaced(c, s, Arrive(p, pkt));
    ArriveSeen(c, s, p, pkt);
    R.ReachableNext(ch, workers, v, G.Arrive(Seen(c, pkt)));
  }

  /** Every step of the pipeline is a run of the chain of each port: none, one or two of its steps. */
  lemma {:induction false} StepKeepsSeen(c: Setup, workers: nat, p: nat, s: State, step: Step)
    requires SeenAsChain(c, workers, p, s) && Enabled(c, s, step)
    ensures SeenAsChain(c, workers, p, Apply(c, s, step))
  {
    StepKeepsPlaced(c, s, step);
    match step {
      case Arrive(r, pkt) =>
        if r == p {
          ArriveKeepsSeen(c, workers, p, s, pkt);
        } else {
          ArriveUnseen(c, s, r, pkt, p);
        }
      case Take(w, q, k) =>
        if PortOf(c, s.queues[q][k]) == p {
          TakeKeepsSeen(c, workers, p, s, w, q, k);
        } else {
          TakeUnseen(c, s, w, q, k, p);
        }
      case Put(w) =>
        if PortOf(c, s.hands[w].value) == p {
          PutKeepsSeen(c, workers, p, s, w);
        } else {
          PutUnseen(c, s, w, p);
        }
    }
  }

  lemma {:induction false} InitSeen(c: Setup, workers: nat, p: nat)
    requires SetupOk(c) && p < c.l.ports
    ensures SeenAsChain(c, workers, p, Init(c, workers))
  {
    var s := Init(c, workers);
    InitPlaced(c, workers);
    PlacedFits(c, p, s);
    ChainIsChained(c, p);
    var ch, v := ChainOf(c, p), G.Init(ChainOf(c, p), workers);
    forall k | 0 <= k <= Stages(c, p) ensures v.queues[k] == Row(c, p, s, k) {
    }
    assert v.workers == Workers(c, p, s.hands);
    assert v.arrived == SeenAll(c, s.arrived[p]);
    SameView(c, p, s, v);
    R.InitInv(ch, workers);
    assert R.Leads(ch, v, [], v);
  }

  lemma {:induction false} RunKeepsSeen(c: Setup, workers: nat, p: nat, s: State, run: seq<Step>, t: State)
    requires SeenAsChain(c, workers, p, s) && Leads(c, s, run, t)
    ensures SeenAsChain(c, workers, p, t)
    decreases |run|
  {
    if run != [] {
      StepKeepsPlaced(c, s, run[0]);
      StepKeepsSeen(c, workers, p, s, run[0]);
      RunKeepsSeen(c, workers, p, Apply(c, s, run[0]), run[1..], t);
    }
  }

  /** In every reachable state each port's block is a reachable state of its chain. */
  lemma {:induction false} ReachableSeen(c: Setup, workers: nat, p: nat, s: State)
    requires Reachable(c, workers, s) && p < c.l.ports
    ensures SeenAsChain(c, workers, p, s)
  {
    InitPlaced(c, workers);
    InitSeen(c, workers, p);
    var run :| Leads(c, Init(c, workers), run, s);
    RunKeepsSeen(c, workers, p, Init(c, workers), run, s);
  }

  /* ---------------------------------------------------------------- theorems */

  /** The packets of a class, each with its flow, in order. */
  function OfClass(c: Setup, ps: seq<Packet>, cl: O.Class): seq<Packet> {
    O.PickPackets(SeenAll(c, ps), cl)
  }

  function OneOfClass(c: Setup, x: Packet, cl: O.Class): seq<Packet> {
    if O.InClass(cl, Seen(c, x)) then [Seen(c, x)] else []
  }

  lemma {:induction false} OfClassSnoc(c: Setup, ps: seq<Packet>, x: Packet, cl: O.Class)
    ensures OfClass(c, ps + [x], cl) == OfClass(c, ps, cl) + OneOfClass(c, x, cl)
  {
    var all := SeenAll(c, ps + [x]);
    assert all[..|all| - 1] == SeenAll(c, ps) && all[|all| - 1] == Seen(c, x);
  }

  lemma {:induction false} CellPicked(c: Setup, p: nat, x: Packet, k: nat, cl: O.Class)
    requires c.l.n > 0
    ensures O.Pick([CellOf(c, p, x, k)], k, cl) == OneOfClass(c, x, cl)
  {
    assert [CellOf(c, p, x, k)][1..] == [];
  }

  lemma {:induction false} WireSegment(c: Setup, p: nat, ps: seq<Packet>, k: nat, cl: O.Class)
    requires c.l.n > 0
    ensures O.Pick(PacketCells(c, p, ps, k), k, cl) == OfClass(c, ps, cl)
  {
    if ps != [] {
      var front, x := ps[..|ps| - 1], ps[|ps| - 1];
      assert ps == front + [x];
      WireSegment(c, p, front, k, cl);
      PacketCellsSnoc(c, p, front, x, k);
      O.PickConcat(PacketCells(c, p, front, k), [CellOf(c, p, x, k)], k, cl);
      CellPicked(c, p, x, k, cl);
      OfClassSnoc(c, front, x, cl);
    }
  }

  /** The wire is the last queue of the chain, and nothing leaves it. */
  lemma {:induction false} WireQueue(c: Setup, p: nat, s: State, cl: O.Class)
    requires SetupOk(c) && Fits(c, p, s)
    ensures O.Out(ChainOf(c, p), View(c, p, s), Stages(c, p), cl) == []
    ensures O.In(ChainOf(c, p), View(c, p, s), Stages(c, p), cl) == OfClass(c, s.wire[p], cl)
  {
    WireSegment(c, p, s.wire[p], Stages(c, p), cl);
    assert View(c, p, s).queues[Stages(c, p)] == PacketCells(c, p, s.wire[p], Stages(c, p));
  }

  /** The conveyor of a chain from its last queue on. */
  lemma {:induction false} LineFrom(ch: G.Config, v: G.State, cl: O.Class, first: seq<Packet>)
    requires |v.queues| == ch.n + 1 && O.Out(ch, v, ch.n, cl) == [] && O.In(ch, v, ch.n, cl) == first
    ensures |O.Segments(ch, v, cl)| == 2 * ch.n + 2
    ensures O.Line(ch, v, cl) == first + Flatten(O.Segments(ch, v, cl)[2..])
  {
    var segments := O.Segments(ch, v, cl);
    O.SegmentsAt(ch, v, cl, ch.n);
    FlattenPair(segments, 0);
    assert segments[..0] == [];
  }

  /** The wire is the front of the conveyor of its port. */
  lemma {:induction false} WireFirst(c: Setup, p: nat, s: State, cl: O.Class)
    requires SetupOk(c) && Fits(c, p, s)
    ensures |O.Segments(ChainOf(c, p), View(c, p, s), cl)| >= 2
    ensures O.Line(ChainOf(c, p), View(c, p, s), cl)
         == OfClass(c, s.wire[p], cl) + Flatten(O.Segments(ChainOf(c, p), View(c, p, s), cl)[2..])
  {
    WireQueue(c, p, s, cl);
    LineFrom(ChainOf(c, p), View(c, p, s), cl, OfClass(c, s.wire[p], cl));
  }

  /** Per port and flow the packets leave on the wire in the order they came in: the conveyor of the port spells
      its arrivals, and the wire is the front of the conveyor. */
  lemma {:induction false} FlowOrder(c: Setup, workers: nat, s: State, p: nat, flow: nat)
    requires Reachable(c, workers, s) && p < c.l.ports
    ensures SeenAsChain(c, workers, p, s)
    ensures O.Line(ChainOf(c, p), View(c, p, s), O.Rss(flow)) == OfClass(c, s.arrived[p], O.Rss(flow))
    ensures OfClass(c, s.wire[p], O.Rss(flow)) <= OfClass(c, s.arrived[p], O.Rss(flow))
  {
    ReachableSeen(c, workers, p, s);
    R.FlowOrder(ChainOf(c, p), workers, View(c, p, s), flow);
    WireFirst(c, p, s, O.Rss(flow));
  }

  /** Every packet received on a port is in exactly one place of its conveyor; no other packet is on it, so a packet
      is transmitted at most once and only on the port it came in on. */
  lemma {:induction false} OnePlace(c: Setup, workers: nat, s: State, p: nat, id: nat)
    requires Reachable(c, workers, s) && p < c.l.ports
    ensures SeenAsChain(c, workers, p, s)
    ensures |O.Line(ChainOf(c, p), View(c, p, s), O.One(id))|
         == (if exists x :: x in SeenAll(c, s.arrived[p]) && x.id == id then 1 else 0)
    ensures OfClass(c, s.wire[p], O.One(id)) <= OfClass(c, s.arrived[p], O.One(id))
  {
    ReachableSeen(c, workers, p, s);
    R.EveryPacketInOnePlace(ChainOf(c, p), workers, View(c, p, s), id);
    WireFirst(c, p, s, O.One(id));
  }

  ghost predicate Drained(s: State) {
    && (forall q :: 0 <= q < |s.queues| ==> s.queues[q] == [])
    && (forall w :: 0 <= w < |s.hands| ==> s.hands[w].None?)
  }

  /** With nothing queued and nothing in hand, everything received is on the wire of its port, each flow in order. */
  lemma {:induction false} DrainedInOrder(c: Setup, workers: nat, s: State, p: nat, flow: nat)
    requires Reachable(c, workers, s) && p < c.l.ports && Drained(s)
    ensures |s.wire| == |s.arrived| == c.l.ports
    ensures OfClass(c, s.wire[p], O.Rss(flow)) == OfClass(c, s.arrived[p], O.Rss(flow))
  {
    FlowOrder(c, workers, s, p, flow);
    WireFirst(c, p, s, O.Rss(flow));
    EmptyRest(c, p, s, O.Rss(flow));
  }

  lemma {:induction false} EmptyRest(c: Setup, p: nat, s: State, cl: O.Class)
    requires Placed(c, s) && p < c.l.ports && Fits(c, p, s) && Drained(s)
    ensures |O.Segments(ChainOf(c, p), View(c, p, s), cl)| >= 2
    ensures Flatten(O.Segments(ChainOf(c, p), View(c, p, s), cl)[2..]) == []
  {
    var v := View(c, p, s);
    forall q | 0 <= q < Stages(c, p) ensures v.queues[q] == [] {
      assert v.queues[q] == Row(c, p, s, q);
    }
    EmptySegments(ChainOf(c, p), v, cl);
  }

  lemma {:induction false} EmptySegments(ch: G.Config, v: G.State, cl: O.Class)
    requires |v.queues| == ch.n + 1 && forall q :: 0 <= q < ch.n ==> v.queues[q] == []
    requires forall w :: 0 <= w < |v.workers| ==> v.workers[w].batch == []
    ensures Flatten(O.Segments(ch, v, cl)[2..]) == []
  {
    var segments := O.Segments(ch, v, cl);
    forall i | 2 <= i < |segments| ensures segments[i] == [] {
      O.SegmentIndex(ch, i);
      var q := ch.n - i / 2;
      O.SegmentsAt(ch, v, cl, q);
      if i % 2 == 0 {
        FlattenEmpty(O.Rows(v.workers, q, cl));
      }
    }
    FlattenEmpty(segments[2..]);
  }

  /** While a packet is queued or in hand a worker can act. */
  lemma {:induction false} NeverStuck(c: Setup, workers: nat, s: State) returns (step: Step)
    requires Placed(c, s) && |s.hands| == workers > 0 && !Drained(s)
    ensures !step.Arrive? && Enabled(c, s, step)
  {
    if w :| 0 <= w < |s.hands| && s.hands[w].Some? {
      step := Put(w);
      assert EventOk(c, s.hands[w].value);
      PutDecides(c, s.hands[w].value);
    } else {
      var q :| 0 <= q < |s.queues| && s.queues[q] != [];
      step := Take(0, q, 0);
    }
  }
}

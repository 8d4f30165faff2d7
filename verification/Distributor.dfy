/**
 The software distributors (workdistributor-noeventdev/main_atomic_nosqm.c and main_unordered_nosqm.c) as one
 step system for the lcores of a socket.

 Reader p takes packets off port p one by one and puts each IPv4 packet into a FIFO: the atomic program into
 the one its addresses hash to, the unordered program into the first with room, probing from the one of its
 port number on. Worker f empties FIFO f in small batches and transmits each packet on the port it came from.
 Every access to something shared, a ring or a counter of several readers, is a step of its own; readers and
 workers interleave freely between any two.
 */
module Distributor {
  import opened SharedCounter

  /** rte_ring_dequeue_burst asks for at most this many. */
  const WORKER_BATCH: nat := 8

  /** How far ahead the readers prefetch. */
  const PREFETCH_OFFSET: nat := 3

  datatype Mbuf = Mbuf(id: nat, port: nat, ipv4: bool, src: nat, dst: nat)

  /** Hashed is the atomic program with the folded jhash of the address pair, Cyclic the unordered one. */
  datatype Policy = Hashed(hash: (nat, nat) -> nat) | Cyclic

  /** cap is the usable size of a ring. */
  datatype Config = Config(fifoWrk: nat, cap: nat, policy: Policy)

  /** The FIFO of the k-th try for a packet of port p. */
  function Target(c: Config, m: Mbuf, p: nat, k: nat): (f: nat)
    requires c.fifoWrk > 0
    ensures f < c.fifoWrk
  {
    match c.policy
    case Hashed(hash) => hash(m.src, m.dst) % c.fifoWrk
    case Cyclic => (p + k) % c.fifoWrk
  }

  function Tries(c: Config): nat {
    if c.policy.Hashed? then 1 else c.fifoWrk
  }

  /** The counters that all readers of the socket share: queue_rx_add, rxPkts and queue_rx_drp of a FIFO. */
  datatype Which = Add | Pkts | Drp

  /** Where a reader stands with the first packet of its burst: not begun; about to ask whether the FIFO of
      try k is full; about to enqueue there; or, the packet being gone, about to load a counter, or to store
      the successor of what it loaded. */
  datatype Phase =
    | Idle
    | Looking(k: nat)
    | Offering(k: nat)
    | Due(which: Which, f: nat)
    | Loaded(which: Which, f: nat, reg: Register)

  /** recv is the history of what the port delivered; burst is what the reader has not handled yet. */
  datatype Reader = Reader(recv: seq<Mbuf>, burst: seq<Mbuf>, phase: Phase, rxIpv4: nat, nonIp: nat)

  /** A ring, the batch its worker holds, the shared counters and the worker's own (queue_wrk_fet,
      queue_wrk_fls, queue_wrk_drp). entered and refused are histories: how many packets were enqueued, and
      how many were freed for want of room with the drop due to this FIFO. */
  datatype Lane = Lane(ring: seq<Mbuf>, batch: seq<Mbuf>, entered: nat, refused: nat,
                       added: Counter, pkts: Counter, drops: Counter, fet: nat, fls: nat, drp: nat)

  /** A transmitted packet with the worker that sent it. */
  datatype Sent = Sent(m: Mbuf, fifo: nat)

  /** What became of a packet at its reader p: enqueued at try k, or freed if k is Tries. */
  datatype Fate = Fate(m: Mbuf, p: nat, k: nat)

  datatype State = State(readers: seq<Reader>, lanes: seq<Lane>, sent: seq<Sent>, freed: seq<Mbuf>, log: seq<Fate>)

  datatype Step =
    | Receive(m: Mbuf)
    | Begin(p: nat)
    | Look(p: nat)
    | Offer(p: nat)
    | Load(p: nat)
    | Store(p: nat)
    | Dequeue(f: nat, n: nat)
    | Send(f: nat, ok: bool)

  /** The lcores: the reader of a port, the worker of a FIFO. */
  datatype Actor = ReaderOf(p: nat) | WorkerOf(f: nat)

  function ActorOf(step: Step): Actor {
    match step
    case Receive(m) => ReaderOf(m.port)
    case Begin(p) => ReaderOf(p)
    case Look(p) => ReaderOf(p)
    case Offer(p) => ReaderOf(p)
    case Load(p) => ReaderOf(p)
    case Store(p) => ReaderOf(p)
    case Dequeue(f, _) => WorkerOf(f)
    case Send(f, _) => WorkerOf(f)
  }

  function Init(c: Config, ports: nat): State {
    State(seq(ports, _ => Reader([], [], Idle, 0, 0)),
          seq(c.fifoWrk, _ => Lane([], [], 0, 0, Zero(), Zero(), Zero(), 0, 0, 0)), [], [], [])
  }

  function CounterOf(lane: Lane, which: Which): Counter {
    match which case Add => lane.added case Pkts => lane.pkts case Drp => lane.drops
  }

  function WithCounter(lane: Lane, which: Which, x: Counter): Lane {
    match which
    case Add => lane.(added := x)
    case Pkts => lane.(pkts := x)
    case Drp => lane.(drops := x)
  }

  /* ---------------------------------------------------------------- the steps */

  predicate Enabled(c: Config, s: State, step: Step) {
    && c.fifoWrk == |s.lanes| > 0
    && match step
       case Receive(m) =>
         && m.port < |s.readers|
         && forall p, i :: 0 <= p < |s.readers| && 0 <= i < |s.readers[p].recv| ==> s.readers[p].recv[i].id != m.id
       case Begin(p) => p < |s.readers| && s.readers[p].phase.Idle? && s.readers[p].burst != []
       case Look(p) => p < |s.readers| && s.readers[p].phase.Looking? && s.readers[p].burst != []
       case Offer(p) => p < |s.readers| && s.readers[p].phase.Offering? && s.readers[p].burst != []
       case Load(p) => p < |s.readers| && s.readers[p].phase.Due? && s.readers[p].phase.f < |s.lanes|
       case Store(p) => p < |s.readers| && s.readers[p].phase.Loaded? && s.readers[p].phase.f < |s.lanes|
       case Dequeue(f, n) =>
         f < |s.lanes| && s.lanes[f].batch == [] && 0 < n <= WORKER_BATCH && n <= |s.lanes[f].ring|
       case Send(f, _) => f < |s.lanes| && s.lanes[f].batch != []
  }

  function WithPhase(s: State, p: nat, phase: Phase): State
    requires p < |s.readers|
  {
    s.(readers := s.readers[p := s.readers[p].(phase := phase)])
  }

  /** A packet that is no IPv4 packet is freed; for any other the search for a FIFO begins. */
  function Started(c: Config, s: State, p: nat): State
    requires p < |s.readers| && s.readers[p].burst != []
  {
    var r := s.readers[p];
    if r.burst[0].ipv4 then
      s.(readers := s.readers[p :=
        r.(rxIpv4 := r.rxIpv4 + 1, phase := if c.policy.Cyclic? then Looking(0) else Offering(0))])
    else
      s.(readers := s.readers[p := r.(burst := r.burst[1..], nonIp := r.nonIp + 1)], freed := s.freed + [r.burst[0]])
  }

  /** The first packet of reader p enters FIFO f at try k. */
  function Entered(s: State, p: nat, f: nat, k: nat): State
    requires p < |s.readers| && s.readers[p].burst != [] && f < |s.lanes|
  {
    var r, lane := s.readers[p], s.lanes[f];
    s.(readers := s.readers[p := r.(burst := r.burst[1..], phase := Due(Add, f))],
       lanes := s.lanes[f := lane.(ring := lane.ring + [r.burst[0]], entered := lane.entered + 1)],
       log := s.log + [Fate(r.burst[0], p, k)])
  }

  /** It is freed, and the drop is due to FIFO f. */
  function Refused(s: State, p: nat, f: nat, k: nat): State
    requires p < |s.readers| && s.readers[p].burst != [] && f < |s.lanes|
  {
    var r, lane := s.readers[p], s.lanes[f];
    s.(readers := s.readers[p := r.(burst := r.burst[1..], phase := Due(Drp, f))],
       lanes := s.lanes[f := lane.(refused := lane.refused + 1)],
       freed := s.freed + [r.burst[0]],
       log := s.log + [Fate(r.burst[0], p, k)])
  }

  /** Try k found no room: on to the next FIFO, or free the packet after the last. */
  function Missed(c: Config, s: State, p: nat, k: nat): State
    requires c.fifoWrk == |s.lanes| > 0 && p < |s.readers| && s.readers[p].burst != []
  {
    if k + 1 < Tries(c) then WithPhase(s, p, Looking(k + 1))
    else Refused(s, p, Target(c, s.readers[p].burst[0], p, Tries(c)), Tries(c))
  }

  /** There is room for the first packet of reader p at its try k. */
  predicate Room(c: Config, s: State, p: nat, k: nat)
    requires c.fifoWrk == |s.lanes| > 0 && p < |s.readers| && s.readers[p].burst != []
  {
    |s.lanes[Target(c, s.readers[p].burst[0], p, k)].ring| < c.cap
  }

  function Looked(c: Config, s: State, p: nat): State
    requires Enabled(c, s, Look(p))
  {
    var k := s.readers[p].phase.k;
    if Room(c, s, p, k) then WithPhase(s, p, Offering(k)) else Missed(c, s, p, k)
  }

  function Offered(c: Config, s: State, p: nat): State
    requires Enabled(c, s, Offer(p))
  {
    var k := s.readers[p].phase.k;
    if Room(c, s, p, k) then Entered(s, p, Target(c, s.readers[p].burst[0], p, k), k) else Missed(c, s, p, k)
  }

  function LoadedCounter(c: Config, s: State, p: nat): State
    requires Enabled(c, s, Load(p))
  {
    var which, f := s.readers[p].phase.which, s.readers[p].phase.f;
    WithPhase(s, p, Loaded(which, f, Read(CounterOf(s.lanes[f], which))))
  }

  /** After queue_rx_add comes rxPkts; otherwise the packet is done. */
  function AfterStore(which: Which, f: nat): Phase {
    if which == Add then Due(Pkts, f) else Idle
  }

  function StoredCounter(c: Config, s: State, p: nat): State
    requires Enabled(c, s, Store(p))
  {
    var which, f, reg := s.readers[p].phase.which, s.readers[p].phase.f, s.readers[p].phase.reg;
    var lane := s.lanes[f];
    WithPhase(s, p, AfterStore(which, f)).(
      lanes := s.lanes[f := WithCounter(lane, which, Write(CounterOf(lane, which), reg))])
  }

  function DequeueBurst(s: State, f: nat, n: nat): State
    requires f < |s.lanes| && n <= |s.lanes[f].ring|
  {
    var lane := s.lanes[f];
    s.(lanes := s.lanes[f := lane.(ring := lane.ring[n..], batch := lane.ring[..n], fet := lane.fet + n)])
  }

  /** lcore_fifoTransmit on the next packet of its batch. */
  function SendOne(s: State, f: nat, ok: bool): State
    requires f < |s.lanes| && s.lanes[f].batch != []
  {
    var lane := s.lanes[f];
    var m, rest := lane.batch[0], lane.batch[1..];
    if ok then
      s.(lanes := s.lanes[f := lane.(batch := rest, fls := lane.fls + 1)], sent := s.sent + [Sent(m, f)])
    else
      s.(lanes := s.lanes[f := lane.(batch := rest, drp := lane.drp + 1)], freed := s.freed + [m])
  }

  function Arrived(s: State, m: Mbuf): State
    requires m.port < |s.readers|
  {
    var r := s.readers[m.port];
    s.(readers := s.readers[m.port := r.(recv := r.recv + [m], burst := r.burst + [m])])
  }

  /** A step that is not enabled changes nothing. */
  function Apply(c: Config, s: State, step: Step): State {
    if !Enabled(c, s, step) then s
    else
      match step
      case Receive(m) => Arrived(s, m)
      case Begin(p) => Started(c, s, p)
      case Look(p) => Looked(c, s, p)
      case Offer(p) => Offered(c, s, p)
      case Load(p) => LoadedCounter(c, s, p)
      case Store(p) => StoredCounter(c, s, p)
      case Dequeue(f, n) => DequeueBurst(s, f, n)
      case Send(f, ok) => SendOne(s, f, ok)
  }

  lemma {:induction false} StepKeepsShape(c: Config, s: State, step: Step)
    ensures |Apply(c, s, step).lanes| == |s.lanes| && |Apply(c, s, step).readers| == |s.readers|
  {
  }

  /** The state a run leads to. */
  function After(c: Config, s: State, run: seq<Step>): State {
    if run == [] then s else Apply(c, After(c, s, run[..|run| - 1]), run[|run| - 1])
  }

  ghost predicate Reachable(c: Config, ports: nat, s: State) {
    c.fifoWrk > 0 && exists run :: s == After(c, Init(c, ports), run)
  }

  lemma {:induction false} AfterSnoc(c: Config, s: State, run: seq<Step>, step: Step)
    ensures After(c, s, run + [step]) == Apply(c, After(c, s, run), step)
  {
    assert (run + [step])[..|run|] == run;
  }

  /* ---------------------------------------------------------------- placement */

  predicate Probing(phase: Phase) {
    phase.Looking? || phase.Offering?
  }

  /** The packets of a ring or batch are IPv4 packets, and of the FIFO their addresses hash to if they do. */
  ghost predicate Homed(c: Config, ms: seq<Mbuf>, f: nat)
    requires c.fifoWrk > 0
  {
    forall i :: 0 <= i < |ms| ==> ms[i].ipv4 && (c.policy.Hashed? ==> Target(c, ms[i], 0, 0) == f)
  }

  ghost predicate LaneOk(c: Config, lane: Lane, f: nat)
    requires c.fifoWrk > 0
  {
    && |lane.ring| <= c.cap && Homed(c, lane.ring, f) && Homed(c, lane.batch, f)
    && lane.entered == lane.fet + |lane.ring|
    && lane.fet == lane.fls + lane.drp + |lane.batch|
    && CounterOk(lane.added) && CounterOk(lane.pkts) && CounterOk(lane.drops)
  }

  ghost predicate PhaseOk(c: Config, lanes: seq<Lane>, r: Reader) {
    match r.phase
    case Idle => true
    case Looking(k) => c.policy.Cyclic? && k < Tries(c) && r.burst != [] && r.burst[0].ipv4
    case Offering(k) => k < Tries(c) && r.burst != [] && r.burst[0].ipv4
    case Due(_, f) => f < |lanes|
    case Loaded(which, f, reg) => f < |lanes| && RegisterOk(reg, CounterOf(lanes[f], which))
  }

  ghost predicate ReaderOk(r: Reader, p: nat) {
    && (forall i :: 0 <= i < |r.recv| ==> r.recv[i].port == p)
    && (forall i :: 0 <= i < |r.burst| ==> r.burst[i].port == p)
    && |r.recv| + (if Probing(r.phase) then 1 else 0) == r.rxIpv4 + r.nonIp + |r.burst|
  }

  ghost predicate LanesOk(c: Config, lanes: seq<Lane>) {
    c.fifoWrk == |lanes| > 0 && forall f :: 0 <= f < |lanes| ==> LaneOk(c, lanes[f], f)
  }

  ghost predicate ReadersOk(c: Config, lanes: seq<Lane>, readers: seq<Reader>) {
    forall p :: 0 <= p < |readers| ==> ReaderOk(readers[p], p) && PhaseOk(c, lanes, readers[p])
  }

  ghost predicate SentOk(c: Config, sent: seq<Sent>)
    requires c.fifoWrk > 0
  {
    forall i :: 0 <= i < |sent| ==>
      sent[i].m.ipv4 && (c.policy.Hashed? ==> sent[i].fifo == Target(c, sent[i].m, 0, 0))
  }

  /** Each packet is in a FIFO it belongs to, and the counters of each lcore account for what it handled. */
  ghost predicate WellPlaced(c: Config, s: State) {
    LanesOk(c, s.lanes) && ReadersOk(c, s.lanes, s.readers) && SentOk(c, s.sent)
  }

  /** Lanes may change as long as the counters do not. */
  lemma {:induction false} PhasesKept(c: Config, lanes: seq<Lane>, after: seq<Lane>, readers: seq<Reader>)
    requires ReadersOk(c, lanes, readers) && |after| == |lanes|
    requires forall f, which :: 0 <= f < |lanes| ==> CounterOf(after[f], which) == CounterOf(lanes[f], which)
    ensures ReadersOk(c, after, readers)
  {
    forall p | 0 <= p < |readers| ensures ReaderOk(readers[p], p) && PhaseOk(c, after, readers[p]) {
      assert PhaseOk(c, lanes, readers[p]);
    }
  }

  lemma {:induction false} LaneKept(c: Config, lanes: seq<Lane>, f: nat, lane: Lane)
    requires LanesOk(c, lanes) && f < |lanes| && LaneOk(c, lane, f)
    ensures LanesOk(c, lanes[f := lane])
  {
  }

  lemma {:induction false} ReaderKept(c: Config, lanes: seq<Lane>, readers: seq<Reader>, p: nat, r: Reader)
    requires ReadersOk(c, lanes, readers) && p < |readers| && ReaderOk(r, p) && PhaseOk(c, lanes, r)
    ensures ReadersOk(c, lanes, readers[p := r])
  {
  }

  lemma {:induction false} EnteredKeepsPlacement(c: Config, s: State, p: nat, k: nat)
    requires WellPlaced(c, s) && p < |s.readers| && s.readers[p].phase == Offering(k) && s.readers[p].burst != []
    requires Room(c, s, p, k)
    ensures WellPlaced(c, Entered(s, p, Target(c, s.readers[p].burst[0], p, k), k))
  {
    var f := Target(c, s.readers[p].burst[0], p, k);
    var t := Entered(s, p, f, k);
    assert ReaderOk(s.readers[p], p) && PhaseOk(c, s.lanes, s.readers[p]) && LaneOk(c, s.lanes[f], f);
    LaneKept(c, s.lanes, f, t.lanes[f]);
    PhasesKept(c, s.lanes, t.lanes, s.readers);
    ReaderKept(c, t.lanes, s.readers, p, t.readers[p]);
  }

  lemma {:induction false} MissedKeepsPlacement(c: Config, s: State, p: nat, k: nat)
    requires WellPlaced(c, s) && p < |s.readers| && s.readers[p].burst != [] && k < Tries(c)
    requires s.readers[p].phase == Looking(k) || s.readers[p].phase == Offering(k)
    ensures WellPlaced(c, Missed(c, s, p, k))
  {
    var t := Missed(c, s, p, k);
    assert ReaderOk(s.readers[p], p) && PhaseOk(c, s.lanes, s.readers[p]);
    if k + 1 < Tries(c) {
      ReaderKept(c, s.lanes, s.readers, p, t.readers[p]);
    } else {
      var f := Target(c, s.readers[p].burst[0], p, Tries(c));
      assert LaneOk(c, s.lanes[f], f);
      LaneKept(c, s.lanes, f, t.lanes[f]);
      PhasesKept(c, s.lanes, t.lanes, s.readers);
      ReaderKept(c, t.lanes, s.readers, p, t.readers[p]);
    }
  }

  lemma {:induction false} StoreKeepsPlacement(c: Config, s: State, p: nat)
    requires WellPlaced(c, s) && Enabled(c, s, Store(p))
    ensures WellPlaced(c, StoredCounter(c, s, p))
  {
    var which, f, reg := s.readers[p].phase.which, s.readers[p].phase.f, s.readers[p].phase.reg;
    var t := StoredCounter(c, s, p);
    var was := CounterOf(s.lanes[f], which);
    assert ReaderOk(s.readers[p], p) && PhaseOk(c, s.lanes, s.readers[p]) && LaneOk(c, s.lanes[f], f);
    WriteKeepsCount(was, reg, reg);
    LaneKept(c, s.lanes, f, t.lanes[f]);
    forall q | 0 <= q < |t.readers| ensures ReaderOk(t.readers[q], q) && PhaseOk(c, t.lanes, t.readers[q]) {
      assert ReaderOk(s.readers[q], q) && PhaseOk(c, s.lanes, s.readers[q]);
      if q != p && s.readers[q].phase.Loaded? && s.readers[q].phase.f == f && s.readers[q].phase.which == which {
        WriteKeepsCount(was, reg, s.readers[q].phase.reg);
      }
    }
  }

  lemma {:induction false} WorkerKeepsPlacement(c: Config, s: State, step: Step)
    requires WellPlaced(c, s) && Enabled(c, s, step) && (step.Dequeue? || step.Send?)
    ensures WellPlaced(c, Apply(c, s, step))
  {
    var t := Apply(c, s, step);
    assert LaneOk(c, s.lanes[step.f], step.f);
    LaneKept(c, s.lanes, step.f, t.lanes[step.f]);
    PhasesKept(c, s.lanes, t.lanes, s.readers);
  }

  lemma {:induction false} PrivateKeepsPlacement(c: Config, s: State, step: Step)
    requires WellPlaced(c, s) && Enabled(c, s, step) && (step.Receive? || step.Begin? || step.Load?)
    ensures WellPlaced(c, Apply(c, s, step))
  {
    var p := ActorOf(step).p;
    var t := Apply(c, s, step);
    assert ReaderOk(s.readers[p], p) && PhaseOk(c, s.lanes, s.readers[p]);
    ReaderKept(c, s.lanes, s.readers, p, t.readers[p]);
  }

  lemma {:induction false} StepKeepsPlacement(c: Config, s: State, step: Step)
    requires WellPlaced(c, s)
    ensures WellPlaced(c, Apply(c, s, step))
  {
    if Enabled(c, s, step) {
      match step {
        case Receive(_) => PrivateKeepsPlacement(c, s, step);
        case Begin(_) => PrivateKeepsPlacement(c, s, step);
        case Load(_) => PrivateKeepsPlacement(c, s, step);
        case Look(p) => LookKeepsPlacement(c, s, p);
        case Offer(p) => OfferKeepsPlacement(c, s, p);
        case Store(p) => StoreKeepsPlacement(c, s, p);
        case Dequeue(_, _) => WorkerKeepsPlacement(c, s, step);
        case Send(_, _) => WorkerKeepsPlacement(c, s, step);
      }
    }
  }

  lemma {:induction false} LookKeepsPlacement(c: Config, s: State, p: nat)
    requires WellPlaced(c, s) && Enabled(c, s, Look(p))
    ensures WellPlaced(c, Looked(c, s, p))
  {
    var k := s.readers[p].phase.k;
    assert ReaderOk(s.readers[p], p) && PhaseOk(c, s.lanes, s.readers[p]);
    if Room(c, s, p, k) {
      ReaderKept(c, s.lanes, s.readers, p, Looked(c, s, p).readers[p]);
    } else {
      MissedKeepsPlacement(c, s, p, k);
    }
  }

  lemma {:induction false} OfferKeepsPlacement(c: Config, s: State, p: nat)
    requires WellPlaced(c, s) && Enabled(c, s, Offer(p))
    ensures WellPlaced(c, Offered(c, s, p))
  {
    var k := s.readers[p].phase.k;
    assert ReaderOk(s.readers[p], p) && PhaseOk(c, s.lanes, s.readers[p]);
    if Room(c, s, p, k) {
      EnteredKeepsPlacement(c, s, p, k);
    } else {
      MissedKeepsPlacement(c, s, p, k);
    }
  }
}

/**
 Packet ownership and flow order of the distributors over every run.
 */
module DistributorRuns {
  import opened Sequences
  import opened Distributor

  /* ---------------------------------------------------------------- ownership */

  function Recvs(rs: seq<Reader>): seq<seq<Mbuf>> {
    seq(|rs|, i requires 0 <= i < |rs| => rs[i].recv)
  }

  function Bursts(rs: seq<Reader>): seq<seq<Mbuf>> {
    seq(|rs|, i requires 0 <= i < |rs| => rs[i].burst)
  }

  function Rings(ls: seq<Lane>): seq<seq<Mbuf>> {
    seq(|ls|, i requires 0 <= i < |ls| => ls[i].ring)
  }

  function Batches(ls: seq<Lane>): seq<seq<Mbuf>> {
    seq(|ls|, i requires 0 <= i < |ls| => ls[i].batch)
  }

  function Transmitted(xs: seq<Sent>): seq<Mbuf> {
    seq(|xs|, i requires 0 <= i < |xs| => xs[i].m)
  }

  /** How often m was received. */
  function Received(rs: seq<Reader>, m: Mbuf): nat {
    CountIn(Recvs(rs), m)
  }

  /** How often m is in the readers' hands, and in the lanes. */
  function InHand(rs: seq<Reader>, m: Mbuf): nat {
    CountIn(Bursts(rs), m)
  }

  function InLanes(ls: seq<Lane>, m: Mbuf): nat {
    CountIn(Rings(ls), m) + CountIn(Batches(ls), m)
  }

  /** How many owners m has: reader bursts, rings, worker batches, transmitted, freed. */
  function Owners(s: State, m: Mbuf): nat {
    InHand(s.readers, m) + InLanes(s.lanes, m) + Count(Transmitted(s.sent), m) + Count(s.freed, m)
  }

  lemma {:induction false} ReaderCount(rs: seq<Reader>, p: nat, r: Reader, m: Mbuf)
    requires p < |rs|
    ensures Received(rs[p := r], m) == Received(rs, m) - Count(rs[p].recv, m) + Count(r.recv, m)
    ensures InHand(rs[p := r], m) == InHand(rs, m) - Count(rs[p].burst, m) + Count(r.burst, m)
  {
    CountUpdate(Recvs(rs), p, r.recv, m);
    assert Recvs(rs[p := r]) == Recvs(rs)[p := r.recv];
    CountUpdate(Bursts(rs), p, r.burst, m);
    assert Bursts(rs[p := r]) == Bursts(rs)[p := r.burst];
  }

  lemma {:induction false} LaneCount(ls: seq<Lane>, f: nat, lane: Lane, m: Mbuf)
    requires f < |ls|
    ensures InLanes(ls[f := lane], m) ==
            InLanes(ls, m) - Count(ls[f].ring, m) - Count(ls[f].batch, m) + Count(lane.ring, m) + Count(lane.batch, m)
  {
    CountUpdate(Rings(ls), f, lane.ring, m);
    assert Rings(ls[f := lane]) == Rings(ls)[f := lane.ring];
    CountUpdate(Batches(ls), f, lane.batch, m);
    assert Batches(ls[f := lane]) == Batches(ls)[f := lane.batch];
  }

  lemma {:induction false} CountSnoc(xs: seq<Mbuf>, x: Mbuf, m: Mbuf)
    ensures Count(xs + [x], m) == Count(xs, m) + (if x == m then 1 else 0)
  {
    CountConcat(xs, [x], m);
    CountOne(x, m);
  }

  /** Every packet has as many owners as it has arrivals: none or one. */
  ghost predicate Owned(s: State, m: Mbuf) {
    Owners(s, m) == Received(s.readers, m) <= 1
  }

  /** A reader whose burst and receipts stay keeps every count. */
  lemma {:induction false} PhaseKeepsCounts(rs: seq<Reader>, p: nat, r: Reader, m: Mbuf)
    requires p < |rs| && r.recv == rs[p].recv && r.burst == rs[p].burst
    ensures Received(rs[p := r], m) == Received(rs, m) && InHand(rs[p := r], m) == InHand(rs, m)
  {
    ReaderCount(rs, p, r, m);
  }

  /** A reader lets go of the first packet of its burst. */
  lemma {:induction false} HeadLeaves(rs: seq<Reader>, p: nat, r: Reader, m: Mbuf)
    requires p < |rs| && rs[p].burst != [] && r.recv == rs[p].recv && r.burst == rs[p].burst[1..]
    ensures Received(rs[p := r], m) == Received(rs, m)
    ensures InHand(rs[p := r], m) == InHand(rs, m) - (if rs[p].burst[0] == m then 1 else 0)
  {
    ReaderCount(rs, p, r, m);
  }

  lemma {:induction false} EnteredKeepsOwned(s: State, p: nat, f: nat, k: nat, m: Mbuf)
    requires p < |s.readers| && s.readers[p].burst != [] && f < |s.lanes| && Owned(s, m)
    ensures Owned(Entered(s, p, f, k), m)
  {
    var t := Entered(s, p, f, k);
    HeadLeaves(s.readers, p, t.readers[p], m);
    CountSnoc(s.lanes[f].ring, s.readers[p].burst[0], m);
    LaneCount(s.lanes, f, t.lanes[f], m);
  }

  lemma {:induction false} RefusedKeepsOwned(s: State, p: nat, f: nat, k: nat, m: Mbuf)
    requires p < |s.readers| && s.readers[p].burst != [] && f < |s.lanes| && Owned(s, m)
    ensures Owned(Refused(s, p, f, k), m)
  {
    var t := Refused(s, p, f, k);
    HeadLeaves(s.readers, p, t.readers[p], m);
    CountSnoc(s.freed, s.readers[p].burst[0], m);
    LaneCount(s.lanes, f, t.lanes[f], m);
  }

  lemma {:induction false} StartedKeepsOwned(c: Config, s: State, p: nat, m: Mbuf)
    requires Enabled(c, s, Begin(p)) && Owned(s, m)
    ensures Owned(Started(c, s, p), m)
  {
    var t := Started(c, s, p);
    if s.readers[p].burst[0].ipv4 {
      PhaseKeepsCounts(s.readers, p, t.readers[p], m);
    } else {
      HeadLeaves(s.readers, p, t.readers[p], m);
      CountSnoc(s.freed, s.readers[p].burst[0], m);
    }
  }

  lemma {:induction false} MissedKeepsOwned(c: Config, s: State, p: nat, k: nat, m: Mbuf)
    requires c.fifoWrk == |s.lanes| > 0 && p < |s.readers| && s.readers[p].burst != [] && Owned(s, m)
    ensures Owned(Missed(c, s, p, k), m)
  {
    if k + 1 < Tries(c) {
      PhaseKeepsCounts(s.readers, p, Missed(c, s, p, k).readers[p], m);
    } else {
      RefusedKeepsOwned(s, p, Target(c, s.readers[p].burst[0], p, Tries(c)), Tries(c), m);
    }
  }

  lemma {:induction false} StoreKeepsOwned(c: Config, s: State, p: nat, m: Mbuf)
    requires Enabled(c, s, Store(p)) && Owned(s, m)
    ensures Owned(StoredCounter(c, s, p), m)
  {
    var t := StoredCounter(c, s, p);
    PhaseKeepsCounts(s.readers, p, t.readers[p], m);
    LaneCount(s.lanes, s.readers[p].phase.f, t.lanes[s.readers[p].phase.f], m);
  }

  lemma {:induction false} DequeueKeepsOwned(c: Config, s: State, f: nat, n: nat, m: Mbuf)
    requires Enabled(c, s, Dequeue(f, n)) && Owned(s, m)
    ensures Owned(DequeueBurst(s, f, n), m)
  {
    var t := DequeueBurst(s, f, n);
    LaneCount(s.lanes, f, t.lanes[f], m);
    CountConcat(t.lanes[f].batch, t.lanes[f].ring, m);
    assert s.lanes[f].ring == t.lanes[f].batch + t.lanes[f].ring;
  }

  lemma {:induction false} SendKeepsOwned(c: Config, s: State, f: nat, ok: bool, m: Mbuf)
    requires Enabled(c, s, Send(f, ok)) && Owned(s, m)
    ensures Owned(SendOne(s, f, ok), m)
  {
    var t := SendOne(s, f, ok);
    var x := s.lanes[f].batch[0];
    LaneCount(s.lanes, f, t.lanes[f], m);
    if ok {
      CountSnoc(Transmitted(s.sent), x, m);
      assert Transmitted(t.sent) == Transmitted(s.sent) + [x];
    } else {
      CountSnoc(s.freed, x, m);
    }
  }

  lemma {:induction false} ReceiveKeepsOwned(c: Config, s: State, x: Mbuf, m: Mbuf)
    requires Enabled(c, s, Receive(x)) && Owned(s, m)
    ensures Owned(Arrived(s, x), m)
  {
    var t := Arrived(s, x);
    ReaderCount(s.readers, x.port, t.readers[x.port], m);
    CountSnoc(s.readers[x.port].recv, x, m);
    CountSnoc(s.readers[x.port].burst, x, m);
    if x == m {
      CountInZero(Recvs(s.readers), x);
    }
  }

  lemma {:induction false} StepKeepsOwned(c: Config, s: State, step: Step, m: Mbuf)
    requires Owned(s, m)
    ensures Owned(Apply(c, s, step), m)
  {
    if Enabled(c, s, step) {
      match step {
        case Receive(x) => ReceiveKeepsOwned(c, s, x, m);
        case Begin(p) => StartedKeepsOwned(c, s, p, m);
        case Look(p) =>
          if Room(c, s, p, s.readers[p].phase.k) {
            PhaseKeepsCounts(s.readers, p, Looked(c, s, p).readers[p], m);
          } else {
            MissedKeepsOwned(c, s, p, s.readers[p].phase.k, m);
          }
        case Offer(p) =>
          if Room(c, s, p, s.readers[p].phase.k) {
            EnteredKeepsOwned(s, p, Target(c, s.readers[p].burst[0], p, s.readers[p].phase.k), s.readers[p].phase.k, m);
          } else {
            MissedKeepsOwned(c, s, p, s.readers[p].phase.k, m);
          }
        case Load(p) => PhaseKeepsCounts(s.readers, p, LoadedCounter(c, s, p).readers[p], m);
        case Store(p) => StoreKeepsOwned(c, s, p, m);
        case Dequeue(f, n) => DequeueKeepsOwned(c, s, f, n, m);
        case Send(f, ok) => SendKeepsOwned(c, s, f, ok, m);
      }
    }
  }

  /* ---------------------------------------------------------------- flow order */

  /** The packets one port received of one (source, destination) pair. */
  datatype Flow = Flow(port: nat, src: nat, dst: nat)

  predicate InFlow(w: Flow, m: Mbuf) {
    m.ipv4 && m.port == w.port && m.src == w.src && m.dst == w.dst
  }

  function Pick(ms: seq<Mbuf>, w: Flow): seq<Mbuf> {
    if ms == [] then [] else PickOne(ms[0], w) + Pick(ms[1..], w)
  }

  function PickOne(m: Mbuf, w: Flow): seq<Mbuf> {
    if InFlow(w, m) then [m] else []
  }

  lemma {:induction false} PickConcat(a: seq<Mbuf>, b: seq<Mbuf>, w: Flow)
    ensures Pick(a + b, w) == Pick(a, w) + Pick(b, w)
  {
    if a == [] {
      assert a + b == b;
    } else {
      PickConcat(a[1..], b, w);
      assert (a + b)[1..] == a[1..] + b && (a + b)[0] == a[0];
      Assoc(PickOne(a[0], w), Pick(a[1..], w), Pick(b, w));
    }
  }

  lemma {:induction false} PickSnoc(a: seq<Mbuf>, m: Mbuf, w: Flow)
    ensures Pick(a + [m], w) == Pick(a, w) + PickOne(m, w)
  {
    PickConcat(a, [m], w);
    assert [m][1..] == [] && Pick([m], w) == PickOne(m, w);
  }

  /** The FIFO of a flow. */
  function FifoOf(c: Config, w: Flow): (f: nat)
    requires c.policy.Hashed? && c.fifoWrk > 0
    ensures f < c.fifoWrk
  {
    c.policy.hash(w.src, w.dst) % c.fifoWrk
  }

  /** Of a flow: transmitted, in the batch and in the ring of its FIFO, and in the reader's burst. */
  datatype Stations = Stations(sent: seq<Mbuf>, batch: seq<Mbuf>, ring: seq<Mbuf>, burst: seq<Mbuf>, recv: seq<Mbuf>)

  function StationsOf(c: Config, s: State, w: Flow): Stations
    requires c.policy.Hashed? && c.fifoWrk == |s.lanes| > 0 && w.port < |s.readers|
  {
    var lane, r := s.lanes[FifoOf(c, w)], s.readers[w.port];
    Stations(Pick(Transmitted(s.sent), w), Pick(lane.batch, w), Pick(lane.ring, w), Pick(r.burst, w), Pick(r.recv, w))
  }

  /** What is known of the flow, nearest the wire first, is a subsequence of what was received of it. */
  ghost predicate InOrder(x: Stations) {
    IsSubsequence(x.sent + (x.batch + (x.ring + x.burst)), x.recv)
  }

  /** The first packet of the burst goes to the back of the ring. */
  lemma {:induction false} OrderEnter(x: Stations, one: seq<Mbuf>, rest: seq<Mbuf>)
    requires InOrder(x) && x.burst == one + rest
    ensures InOrder(x.(ring := x.ring + one, burst := rest))
  {
    Assoc(x.ring, one, rest);
  }

  /** It is freed. */
  lemma {:induction false} OrderRefuse(x: Stations, one: seq<Mbuf>, rest: seq<Mbuf>)
    requires InOrder(x) && x.burst == one + rest
    ensures InOrder(x.(burst := rest))
  {
    var a := x.sent + (x.batch + x.ring);
    Assoc(x.batch, x.ring, one + rest);
    Assoc(x.sent, x.batch + x.ring, one + rest);
    SubsequenceCut(a, one, rest, x.recv);
    Assoc(x.sent, x.batch + x.ring, rest);
    Assoc(x.batch, x.ring, rest);
  }

  lemma {:induction false} OrderDequeue(x: Stations, front: seq<Mbuf>, rest: seq<Mbuf>)
    requires InOrder(x) && x.batch == [] && x.ring == front + rest
    ensures InOrder(x.(batch := front, ring := rest))
  {
    Assoc(front, rest, x.burst);
    assert [] + (x.ring + x.burst) == x.ring + x.burst;
  }

  lemma {:induction false} OrderSend(x: Stations, one: seq<Mbuf>, rest: seq<Mbuf>, ok: bool)
    requires InOrder(x) && x.batch == one + rest
    ensures InOrder(x.(batch := rest, sent := if ok then x.sent + one else x.sent))
  {
    var tail := x.ring + x.burst;
    Assoc(one, rest, tail);
    if ok {
      Assoc(x.sent, one, rest + tail);
    } else {
      SubsequenceCut(x.sent, one, rest + tail, x.recv);
    }
  }

  lemma {:induction false} OrderReceive(x: Stations, one: seq<Mbuf>)
    requires InOrder(x)
    ensures InOrder(x.(burst := x.burst + one, recv := x.recv + one))
  {
    SubsequenceExtend(x.sent + (x.batch + (x.ring + x.burst)), x.recv, one);
    Assoc(x.sent, x.batch + (x.ring + x.burst), one);
    Assoc(x.batch, x.ring + x.burst, one);
    Assoc(x.ring, x.burst, one);
  }

  lemma {:induction false} NothingAdded(a: seq<Mbuf>)
    ensures a + [] == a && [] + a == a
  {
  }

  /** What entering FIFO f does to a flow: its own packet moves on, another does not touch it. */
  lemma {:induction false} EnteredStations(c: Config, s: State, p: nat, f: nat, k: nat, w: Flow)
    requires c.policy.Hashed? && c.fifoWrk == |s.lanes| > 0 && w.port < |s.readers|
    requires p < |s.readers| && s.readers[p].burst != [] && s.readers[p].burst[0].port == p
    requires f == Target(c, s.readers[p].burst[0], p, k)
    ensures var x, m := StationsOf(c, s, w), s.readers[p].burst[0];
      StationsOf(c, Entered(s, p, f, k), w) ==
      if InFlow(w, m) then x.(ring := x.ring + [m], burst := Pick(s.readers[p].burst[1..], w)) else x
  {
    var m := s.readers[p].burst[0];
    PickSnoc(s.lanes[f].ring, m, w);
    NothingAdded(Pick(s.lanes[f].ring, w));
    NothingAdded(Pick(s.readers[p].burst[1..], w));
  }

  lemma {:induction false} EnteredKeepsOrder(c: Config, s: State, p: nat, f: nat, k: nat, w: Flow)
    requires c.policy.Hashed? && c.fifoWrk == |s.lanes| > 0 && w.port < |s.readers|
    requires p < |s.readers| && s.readers[p].burst != [] && s.readers[p].burst[0].port == p
    requires f == Target(c, s.readers[p].burst[0], p, k) && InOrder(StationsOf(c, s, w))
    ensures InOrder(StationsOf(c, Entered(s, p, f, k), w))
  {
    EnteredStations(c, s, p, f, k, w);
    var m := s.readers[p].burst[0];
    if InFlow(w, m) {
      OrderEnter(StationsOf(c, s, w), [m], Pick(s.readers[p].burst[1..], w));
    }
  }

  lemma {:induction false} RefusedStations(c: Config, s: State, p: nat, f: nat, k: nat, w: Flow)
    requires c.policy.Hashed? && c.fifoWrk == |s.lanes| > 0 && w.port < |s.readers|
    requires p < |s.readers| && s.readers[p].burst != [] && s.readers[p].burst[0].port == p && f < |s.lanes|
    ensures var x, m := StationsOf(c, s, w), s.readers[p].burst[0];
      StationsOf(c, Refused(s, p, f, k), w) ==
      if InFlow(w, m) then x.(burst := Pick(s.readers[p].burst[1..], w)) else x
  {
    NothingAdded(Pick(s.readers[p].burst[1..], w));
  }

  lemma {:induction false} MissedKeepsOrder(c: Config, s: State, p: nat, k: nat, w: Flow)
    requires c.policy.Hashed? && c.fifoWrk == |s.lanes| > 0 && w.port < |s.readers|
    requires p < |s.readers| && s.readers[p].burst != [] && s.readers[p].burst[0].port == p
    requires InOrder(StationsOf(c, s, w))
    ensures InOrder(StationsOf(c, Missed(c, s, p, k), w))
  {
    if k + 1 >= Tries(c) {
      var m := s.readers[p].burst[0];
      RefusedStations(c, s, p, Target(c, m, p, Tries(c)), Tries(c), w);
      if InFlow(w, m) {
        OrderRefuse(StationsOf(c, s, w), [m], Pick(s.readers[p].burst[1..], w));
      }
    }
  }

  /** A packet that is no IPv4 packet is of no flow. */
  lemma {:induction false} StartedKeepsOrder(c: Config, s: State, p: nat, w: Flow)
    requires c.policy.Hashed? && Enabled(c, s, Begin(p)) && w.port < |s.readers| && InOrder(StationsOf(c, s, w))
    ensures InOrder(StationsOf(c, Started(c, s, p), w))
  {
    NothingAdded(Pick(s.readers[p].burst[1..], w));
    assert StationsOf(c, Started(c, s, p), w) == StationsOf(c, s, w);
  }

  lemma {:induction false} DequeueKeepsOrder(c: Config, s: State, f: nat, n: nat, w: Flow)
    requires c.policy.Hashed? && Enabled(c, s, Dequeue(f, n)) && w.port < |s.readers| && InOrder(StationsOf(c, s, w))
    ensures InOrder(StationsOf(c, DequeueBurst(s, f, n), w))
  {
    var ring := s.lanes[f].ring;
    if f == FifoOf(c, w) {
      assert ring == ring[..n] + ring[n..];
      PickConcat(ring[..n], ring[n..], w);
      OrderDequeue(StationsOf(c, s, w), Pick(ring[..n], w), Pick(ring[n..], w));
    }
  }

  lemma {:induction false} SendKeepsOrder(c: Config, s: State, f: nat, ok: bool, w: Flow)
    requires c.policy.Hashed? && LanesOk(c, s.lanes) && Enabled(c, s, Send(f, ok)) && w.port < |s.readers|
    requires InOrder(StationsOf(c, s, w))
    ensures InOrder(StationsOf(c, SendOne(s, f, ok), w))
  {
    var m := s.lanes[f].batch[0];
    var x, t := StationsOf(c, s, w), SendOne(s, f, ok);
    if ok {
      assert Transmitted(t.sent) == Transmitted(s.sent) + [m];
      PickSnoc(Transmitted(s.sent), m, w);
    }
    if f == FifoOf(c, w) {
      OrderSend(x, PickOne(m, w), Pick(s.lanes[f].batch[1..], w), ok);
    } else {
      OtherFlow(c, s, f, w);
      NothingAdded(x.sent);
    }
  }

  lemma {:induction false} OtherFlow(c: Config, s: State, f: nat, w: Flow)
    requires c.policy.Hashed? && LanesOk(c, s.lanes) && f < |s.lanes| && s.lanes[f].batch != [] && f != FifoOf(c, w)
    ensures PickOne(s.lanes[f].batch[0], w) == []
  {
    assert LaneOk(c, s.lanes[f], f);
  }

  lemma {:induction false} ReceiveKeepsOrder(c: Config, s: State, m: Mbuf, w: Flow)
    requires c.policy.Hashed? && Enabled(c, s, Receive(m)) && w.port < |s.readers| && InOrder(StationsOf(c, s, w))
    ensures InOrder(StationsOf(c, Arrived(s, m), w))
  {
    if m.port == w.port {
      PickSnoc(s.readers[m.port].recv, m, w);
      PickSnoc(s.readers[m.port].burst, m, w);
      OrderReceive(StationsOf(c, s, w), PickOne(m, w));
    }
  }

  lemma {:induction false} StoreKeepsOrder(c: Config, s: State, p: nat, w: Flow)
    requires c.policy.Hashed? && Enabled(c, s, Store(p)) && w.port < |s.readers|
    ensures StationsOf(c, StoredCounter(c, s, p), w) == StationsOf(c, s, w)
  {
  }

  lemma {:induction false} ProbeKeepsOrder(c: Config, s: State, step: Step, w: Flow)
    requires c.policy.Hashed? && Enabled(c, s, step) && (step.Look? || step.Offer?)
    requires ReaderOk(s.readers[step.p], step.p) && w.port < |s.readers| && InOrder(StationsOf(c, s, w))
    ensures InOrder(StationsOf(c, Apply(c, s, step), w))
  {
    var p := step.p;
    var k := s.readers[p].phase.k;
    if !Room(c, s, p, k) {
      MissedKeepsOrder(c, s, p, k, w);
    } else if step.Offer? {
      EnteredKeepsOrder(c, s, p, Target(c, s.readers[p].burst[0], p, k), k, w);
    }
  }

  lemma {:induction false} CounterKeepsOrder(c: Config, s: State, step: Step, w: Flow)
    requires c.policy.Hashed? && Enabled(c, s, step) && (step.Load? || step.Store?)
    requires w.port < |s.readers| && InOrder(StationsOf(c, s, w))
    ensures InOrder(StationsOf(c, Apply(c, s, step), w))
  {
    if step.Store? {
      StoreKeepsOrder(c, s, step.p, w);
    }
  }

  lemma {:induction false} WorkerKeepsOrder(c: Config, s: State, step: Step, w: Flow)
    requires c.policy.Hashed? && LanesOk(c, s.lanes) && Enabled(c, s, step) && (step.Dequeue? || step.Send?)
    requires w.port < |s.readers| && InOrder(StationsOf(c, s, w))
    ensures InOrder(StationsOf(c, Apply(c, s, step), w))
  {
    match step {
      case Dequeue(f, n) => DequeueKeepsOrder(c, s, f, n, w);
      case Send(f, ok) => SendKeepsOrder(c, s, f, ok, w);
    }
  }

  lemma {:induction false} BurstKeepsOrder(c: Config, s: State, step: Step, w: Flow)
    requires c.policy.Hashed? && Enabled(c, s, step) && (step.Receive? || step.Begin?)
    requires w.port < |s.readers| && InOrder(StationsOf(c, s, w))
    ensures InOrder(StationsOf(c, Apply(c, s, step), w))
  {
    match step {
      case Receive(m) => ReceiveKeepsOrder(c, s, m, w);
      case Begin(p) => StartedKeepsOrder(c, s, p, w);
    }
  }

  lemma {:induction false} StepKeepsOrder(c: Config, s: State, step: Step, w: Flow)
    requires c.policy.Hashed? && LanesOk(c, s.lanes) && forall p :: 0 <= p < |s.readers| ==> ReaderOk(s.readers[p], p)
    requires w.port < |s.readers| && InOrder(StationsOf(c, s, w))
    ensures |Apply(c, s, step).lanes| == |s.lanes| && |Apply(c, s, step).readers| == |s.readers|
    ensures InOrder(StationsOf(c, Apply(c, s, step), w))
  {
    StepKeepsShape(c, s, step);
    if Enabled(c, s, step) {
      if step.Receive? || step.Begin? {
        BurstKeepsOrder(c, s, step, w);
      } else if step.Look? || step.Offer? {
        ProbeKeepsOrder(c, s, step, w);
      } else if step.Load? || step.Store? {
        CounterKeepsOrder(c, s, step, w);
      } else {
        WorkerKeepsOrder(c, s, step, w);
      }
    }
  }

  /* ---------------------------------------------------------------- runs */

  ghost predicate Inv(c: Config, s: State) {
    && WellPlaced(c, s)
    && (forall m :: Owned(s, m))
    && (c.policy.Hashed? ==> forall w: Flow :: w.port < |s.readers| ==> InOrder(StationsOf(c, s, w)))
  }

  lemma {:induction false} StepKeepsInv(c: Config, s: State, step: Step)
    requires Inv(c, s)
    ensures Inv(c, Apply(c, s, step)) && |Apply(c, s, step).readers| == |s.readers|
  {
    StepKeepsPlacement(c, s, step);
    var t := Apply(c, s, step);
    forall m ensures Owned(t, m) {
      StepKeepsOwned(c, s, step, m);
    }
    if c.policy.Hashed? {
      forall w: Flow | w.port < |t.readers| ensures InOrder(StationsOf(c, t, w)) {
        StepKeepsOrder(c, s, step, w);
      }
    }
  }

  lemma {:induction false} InitInv(c: Config, ports: nat)
    requires c.fifoWrk > 0
    ensures Inv(c, Init(c, ports))
  {
    var s := Init(c, ports);
    forall m ensures Owned(s, m) {
      CountInZero(Recvs(s.readers), m);
      CountInZero(Bursts(s.readers), m);
      CountInZero(Rings(s.lanes), m);
      CountInZero(Batches(s.lanes), m);
    }
  }

  lemma {:induction false} RunKeepsInv(c: Config, s: State, run: seq<Step>)
    requires Inv(c, s)
    ensures Inv(c, After(c, s, run)) && |After(c, s, run).readers| == |s.readers|
    decreases |run|
  {
    if run != [] {
      RunKeepsInv(c, s, run[..|run| - 1]);
      StepKeepsInv(c, After(c, s, run[..|run| - 1]), run[|run| - 1]);
    }
  }

  lemma {:induction false} ReachableInv(c: Config, ports: nat, s: State)
    requires Reachable(c, ports, s)
    ensures Inv(c, s) && |s.readers| == ports
  {
    var run :| s == After(c, Init(c, ports), run);
    InitInv(c, ports);
    RunKeepsInv(c, Init(c, ports), run);
  }

  /** Flow affinity and order, of the atomic program: a flow passes through one FIFO and one worker only, and
      what was transmitted of it is a subsequence of what its port received. */
  lemma {:induction false} FlowOrder(c: Config, ports: nat, s: State, w: Flow)
    requires Reachable(c, ports, s) && c.policy.Hashed? && w.port < ports
    ensures |s.readers| == ports && IsSubsequence(Pick(Transmitted(s.sent), w), Pick(s.readers[w.port].recv, w))
    ensures forall i :: 0 <= i < |s.sent| && InFlow(w, s.sent[i].m) ==> s.sent[i].fifo == FifoOf(c, w)
    ensures forall f, i :: 0 <= f < |s.lanes| && 0 <= i < |s.lanes[f].ring| && InFlow(w, s.lanes[f].ring[i]) ==>
              f == FifoOf(c, w)
    ensures forall f, i :: 0 <= f < |s.lanes| && 0 <= i < |s.lanes[f].batch| && InFlow(w, s.lanes[f].batch[i]) ==>
              f == FifoOf(c, w)
  {
    ReachableInv(c, ports, s);
    var x := StationsOf(c, s, w);
    var line := x.sent + (x.batch + (x.ring + x.burst));
    assert line[..|x.sent|] == x.sent;
    SubsequencePrefix(line, x.recv, |x.sent|);
    forall f | 0 <= f < |s.lanes| ensures LaneOk(c, s.lanes[f], f) {
    }
  }

  /** Each received packet has exactly one owner, and nothing else has any. */
  lemma {:induction false} OneOwner(c: Config, ports: nat, s: State, m: Mbuf)
    requires Reachable(c, ports, s)
    ensures Owners(s, m) == (if exists p :: 0 <= p < |s.readers| && m in s.readers[p].recv then 1 else 0)
  {
    ReachableInv(c, ports, s);
    assert Owned(s, m);
    if p :| 0 <= p < |s.readers| && m in s.readers[p].recv {
      CountInPositive(Recvs(s.readers), m, p);
    } else {
      CountInZero(Recvs(s.readers), m);
    }
  }
}

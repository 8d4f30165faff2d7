/**
 Forwarding in l2fwd (nogdb-threadtrace/main.c) as a step system: every lcore polls the ports of its
 list, buffers each packet for the destination port and drains the buffers from time to time. Lcores
 interleave freely.
 */
module L2fwdForward {
  import opened Arithmetic
  import opened Sequences
  import opened L2fwdSetup

  const MAX_PKT_BURST: nat := 32

  datatype Packet = Packet(id: nat, port: nat)

  /** recv and wire are histories: what came in on the port and what left through it. buf is its TX
      buffer; rx, tx and dropped are its port_statistics. */
  datatype Port = Port(recv: seq<Packet>, wire: seq<Packet>, buf: seq<Packet>, rx: nat, tx: nat, dropped: nat)

  datatype Setup = Setup(mask: nat, n: nat, dst: seq<nat>, enabled: seq<bool>, quota: nat, lists: seq<seq<nat>>)

  ghost predicate SetupOk(c: Setup) {
    Paired(c.mask, c.n, c.dst) && Assigned(c.mask, c.n, c.enabled, c.quota, c.lists)
  }

  /** bursts holds what each lcore has read and not forwarded yet; touched is the history of which
      lcore used which TX buffer. */
  datatype State = State(ports: seq<Port>, bursts: seq<seq<Packet>>, touched: seq<(nat, nat)>)

  datatype Step =
    | Rx(l: nat, j: nat, pkts: seq<Packet>)
    | Forward(l: nat, k: nat)
    | Drain(l: nat, j: nat, k: nat)

  function Init(c: Setup): State {
    State(seq(c.n, _ => Port([], [], [], 0, 0, 0)), seq(|c.lists|, _ => []), [])
  }

  /** rte_eth_tx_buffer_flush when the device takes k packets: the rest is dropped and counted. */
  function Flushed(p: Port, k: nat): Port {
    var sent := Min(k, |p.buf|);
    p.(wire := p.wire + p.buf[..sent], buf := [], tx := p.tx + sent, dropped := p.dropped + (|p.buf| - sent))
  }

  /** rte_eth_tx_buffer: a full buffer is flushed. */
  function Buffered(p: Port, m: Packet, k: nat): Port {
    var q := p.(buf := p.buf + [m]);
    if |q.buf| < MAX_PKT_BURST then q else Flushed(q, k)
  }

  ghost predicate Shaped(c: Setup, s: State) {
    && SetupOk(c) && |s.ports| == c.n && |s.bursts| == |c.lists|
    && forall l, i :: 0 <= l < |s.bursts| && 0 <= i < |s.bursts[l]| ==> s.bursts[l][i].port in c.lists[l]
  }

  ghost predicate Enabled(c: Setup, s: State, step: Step) {
    match step
    case Rx(l, j, pkts) =>
      && l < |c.lists| && j < |c.lists[l]| && l < |s.bursts| && s.bursts[l] == []
      && |pkts| <= MAX_PKT_BURST && forall i :: 0 <= i < |pkts| ==> pkts[i].port == c.lists[l][j]
    case Forward(l, _) => l < |s.bursts| && s.bursts[l] != []
    case Drain(l, j, _) => l < |c.lists| && j < |c.lists[l]|
  }

  /** A port of a list is enabled and so is its destination. */
  lemma {:induction false} ListedPort(c: Setup, l: nat, p: nat)
    requires SetupOk(c) && l < |c.lists| && p in c.lists[l]
    ensures EnabledPort(c.mask, c.n, p) && EnabledPort(c.mask, c.n, c.dst[p]) && c.dst[c.dst[p]] == p
  {
    OneLcorePerPort(c.mask, c.n, c.enabled, c.quota, c.lists, p);
    PairingIsInvolution(c.mask, c.n, c.dst, p);
  }

  ghost function Apply(c: Setup, s: State, step: Step): State
    requires Shaped(c, s) && Enabled(c, s, step)
  {
    match step
    case Rx(l, j, pkts) =>
      var p := c.lists[l][j];
      ListedPort(c, l, p);
      var port := s.ports[p];
      s.(ports := s.ports[p := port.(recv := port.recv + pkts, rx := port.rx + |pkts|)], bursts := s.bursts[l := pkts])
    case Forward(l, k) =>
      var m := s.bursts[l][0];
      ListedPort(c, l, m.port);
      var d := c.dst[m.port];
      s.(ports := s.ports[d := Buffered(s.ports[d], m, k)], bursts := s.bursts[l := s.bursts[l][1..]],
         touched := s.touched + [(l, d)])
    case Drain(l, j, k) =>
      ListedPort(c, l, c.lists[l][j]);
      var d := c.dst[c.lists[l][j]];
      s.(ports := s.ports[d := Flushed(s.ports[d], k)], touched := s.touched + [(l, d)])
  }

  lemma {:induction false} StepKeepsShape(c: Setup, s: State, step: Step)
    requires Shaped(c, s) && Enabled(c, s, step)
    ensures Shaped(c, Apply(c, s, step))
  {
    match step {
      case Rx(l, j, pkts) => ListedPort(c, l, c.lists[l][j]);
      case Forward(l, k) => ListedPort(c, l, s.bursts[l][0].port);
      case Drain(l, j, k) => ListedPort(c, l, c.lists[l][j]);
    }
  }

  /* ---------------------------------------------------------------- single writer */

  /** Buffer d is only ever used by the lcore that polls its partner. */
  ghost predicate SingleWriter(c: Setup, s: State)
    requires SetupOk(c)
  {
    forall i :: 0 <= i < |s.touched| ==>
      var (l, d) := s.touched[i];
      l < |c.lists| && EnabledPort(c.mask, c.n, d) && c.dst[d] in c.lists[l]
  }

  lemma {:induction false} StepKeepsSingleWriter(c: Setup, s: State, step: Step)
    requires Shaped(c, s) && Enabled(c, s, step) && SingleWriter(c, s)
    ensures SingleWriter(c, Apply(c, s, step))
  {
    match step {
      case Rx(l, j, pkts) =>
      case Forward(l, k) => ListedPort(c, l, s.bursts[l][0].port);
      case Drain(l, j, k) => ListedPort(c, l, c.lists[l][j]);
    }
  }

  /* ---------------------------------------------------------------- order and conservation */

  function FromPort(ms: seq<Packet>, p: nat): seq<Packet> {
    if ms == [] then [] else (if ms[0].port == p then [ms[0]] else []) + FromPort(ms[1..], p)
  }

  lemma {:induction false} FromPortAll(ms: seq<Packet>, p: nat, q: nat)
    requires forall i :: 0 <= i < |ms| ==> ms[i].port == q
    ensures FromPort(ms, p) == (if p == q then ms else [])
  {
    if ms != [] {
      FromPortAll(ms[1..], p, q);
    }
  }

  /** What port p received and is not dropped: through its partner d, in d's buffer, or in the burst b. */
  function Line(d: Port, b: seq<Packet>): seq<Packet> {
    d.wire + (d.buf + b)
  }

  /** The account of one port: packets leave its partner in the order they arrived, and every one is
      sent, dropped, buffered or still in the burst. */
  ghost predicate Account(src: Port, d: Port, b: seq<Packet>) {
    && IsSubsequence(Line(d, b), src.recv)
    && src.rx == |src.recv| && d.tx == |d.wire|
    && src.rx == d.tx + d.dropped + |d.buf| + |b|
  }

  lemma {:induction false} FlushKeepsAccount(src: Port, d: Port, b: seq<Packet>, k: nat)
    requires Account(src, d, b)
    ensures Account(src, Flushed(d, k), b)
  {
    var sent := Min(k, |d.buf|);
    var x, y := d.buf[..sent], d.buf[sent..];
    assert d.wire + (d.buf + b) == (d.wire + x) + (y + b) by {
      assert d.buf == x + y;
    }
    SubsequenceCut(d.wire + x, y, b, src.recv);
    assert [] + b == b;
  }

  lemma {:induction false} BufferKeepsAccount(src: Port, d: Port, m: Packet, b: seq<Packet>, k: nat)
    requires Account(src, d, [m] + b)
    ensures Account(src, Buffered(d, m, k), b)
  {
    var q := d.(buf := d.buf + [m]);
    Assoc(d.buf, [m], b);
    assert Account(src, q, b);
    FlushKeepsAccount(src, q, b, k);
  }

  lemma {:induction false} RxExtendsAccount(src: Port, d: Port, pkts: seq<Packet>)
    requires Account(src, d, [])
    ensures Account(src.(recv := src.recv + pkts, rx := src.rx + |pkts|), d, pkts)
  {
    SubsequenceExtend(Line(d, []), src.recv, pkts);
    assert Line(d, []) + pkts == Line(d, pkts);
  }

  /** What the sending port itself receives does not matter to the account. */
  lemma {:induction false} ReceiptIsNoAccount(src: Port, d: Port, e: Port, b: seq<Packet>)
    requires Account(src, d, b)
    requires e.wire == d.wire && e.buf == d.buf && e.tx == d.tx && e.dropped == d.dropped
    ensures Account(src, e, b)
  {
  }

  /** What lcore l still holds of port p. */
  function Holding(s: State, l: nat, p: nat): seq<Packet>
    requires l < |s.bursts|
  {
    FromPort(s.bursts[l], p)
  }

  ghost predicate AccountOf(c: Setup, s: State, l: nat, p: nat)
    requires Shaped(c, s) && l < |c.lists| && p in c.lists[l]
  {
    ListedPort(c, l, p);
    Account(s.ports[p], s.ports[c.dst[p]], Holding(s, l, p))
  }

  lemma {:induction false} DistinctPartners(c: Setup, l: nat, p: nat, k: nat, q: nat)
    requires SetupOk(c) && l < |c.lists| && k < |c.lists| && p in c.lists[l] && q in c.lists[k] && p != q
    ensures p < c.n && q < c.n && c.dst[p] < c.n && c.dst[q] < c.n && c.dst[p] != c.dst[q]
  {
    ListedPort(c, l, p);
    ListedPort(c, k, q);
  }

  /** Reading from port q itself. */
  lemma {:induction false} RxOwnAccount(c: Setup, s: State, l: nat, j: nat, pkts: seq<Packet>)
    requires Shaped(c, s) && Enabled(c, s, Rx(l, j, pkts)) && AccountOf(c, s, l, c.lists[l][j])
    ensures Shaped(c, Apply(c, s, Rx(l, j, pkts))) && AccountOf(c, Apply(c, s, Rx(l, j, pkts)), l, c.lists[l][j])
  {
    var t := Apply(c, s, Rx(l, j, pkts));
    var p := c.lists[l][j];
    ListedPort(c, l, p);
    FromPortAll(pkts, p, p);
    StepKeepsShape(c, s, Rx(l, j, pkts));
    RxExtendsAccount(s.ports[p], s.ports[c.dst[p]], pkts);
    ReceiptIsNoAccount(t.ports[p], s.ports[c.dst[p]], t.ports[c.dst[p]], pkts);
  }

  lemma {:induction false} RxKeepsAccount(c: Setup, s: State, k: nat, j: nat, pkts: seq<Packet>, l: nat, p: nat)
    requires Shaped(c, s) && Enabled(c, s, Rx(k, j, pkts)) && l < |c.lists| && p in c.lists[l]
    requires AccountOf(c, s, l, p)
    ensures Shaped(c, Apply(c, s, Rx(k, j, pkts))) && AccountOf(c, Apply(c, s, Rx(k, j, pkts)), l, p)
  {
    var t := Apply(c, s, Rx(k, j, pkts));
    var q := c.lists[k][j];
    ListedPort(c, l, p);
    StepKeepsShape(c, s, Rx(k, j, pkts));
    if p == q {
      OneLcorePerPort(c.mask, c.n, c.enabled, c.quota, c.lists, p);
      RxOwnAccount(c, s, l, j, pkts);
    } else {
      FromPortAll(pkts, p, q);
      assert Holding(t, l, p) == Holding(s, l, p);
      ReceiptIsNoAccount(s.ports[p], s.ports[c.dst[p]], t.ports[c.dst[p]], Holding(s, l, p));
    }
  }

  lemma {:induction false} ForwardKeepsAccount(c: Setup, s: State, k: nat, n: nat, l: nat, p: nat)
    requires Shaped(c, s) && Enabled(c, s, Forward(k, n)) && l < |c.lists| && p in c.lists[l]
    requires AccountOf(c, s, l, p)
    ensures Shaped(c, Apply(c, s, Forward(k, n))) && AccountOf(c, Apply(c, s, Forward(k, n)), l, p)
  {
    var m := s.bursts[k][0];
    ListedPort(c, l, p);
    ListedPort(c, k, m.port);
    StepKeepsShape(c, s, Forward(k, n));
    if p == m.port {
      OneLcorePerPort(c.mask, c.n, c.enabled, c.quota, c.lists, p);
      BufferKeepsAccount(s.ports[p], s.ports[c.dst[p]], m, FromPort(s.bursts[k][1..], p), n);
      BufferKeepsAccountSelf(s.ports[p], s.ports[c.dst[p]], m, n);
    } else {
      DistinctPartners(c, l, p, k, m.port);
      assert Holding(Apply(c, s, Forward(k, n)), l, p) == Holding(s, l, p);
      BufferKeepsAccountSelf(s.ports[p], s.ports[c.dst[m.port]], m, n);
    }
  }

  /** Buffering does not touch what a port received. */
  lemma {:induction false} BufferKeepsAccountSelf(src: Port, d: Port, m: Packet, k: nat)
    ensures Buffered(d, m, k).recv == d.recv && Buffered(d, m, k).rx == d.rx
  {
  }

  lemma {:induction false} DrainKeepsAccount(c: Setup, s: State, k: nat, j: nat, n: nat, l: nat, p: nat)
    requires Shaped(c, s) && Enabled(c, s, Drain(k, j, n)) && l < |c.lists| && p in c.lists[l]
    requires AccountOf(c, s, l, p)
    ensures Shaped(c, Apply(c, s, Drain(k, j, n))) && AccountOf(c, Apply(c, s, Drain(k, j, n)), l, p)
  {
    var q := c.lists[k][j];
    ListedPort(c, l, p);
    ListedPort(c, k, q);
    StepKeepsShape(c, s, Drain(k, j, n));
    if p == q {
      FlushKeepsAccount(s.ports[p], s.ports[c.dst[p]], Holding(s, l, p), n);
    } else {
      DistinctPartners(c, l, p, k, q);
    }
  }

  /* ---------------------------------------------------------------- runs */

  ghost predicate Inv(c: Setup, s: State) {
    && Shaped(c, s) && SingleWriter(c, s)
    && forall l, p :: 0 <= l < |c.lists| && p in c.lists[l] ==> AccountOf(c, s, l, p)
  }

  lemma {:induction false} StepKeepsInv(c: Setup, s: State, step: Step)
    requires Inv(c, s) && Enabled(c, s, step)
    ensures Inv(c, Apply(c, s, step))
  {
    StepKeepsShape(c, s, step);
    StepKeepsSingleWriter(c, s, step);
    var t := Apply(c, s, step);
    forall l, p | 0 <= l < |c.lists| && p in c.lists[l] ensures AccountOf(c, t, l, p) {
      match step {
        case Rx(k, j, pkts) => RxKeepsAccount(c, s, k, j, pkts, l, p);
        case Forward(k, n) => ForwardKeepsAccount(c, s, k, n, l, p);
        case Drain(k, j, n) => DrainKeepsAccount(c, s, k, j, n, l, p);
      }
    }
  }

  ghost predicate Leads(c: Setup, s: State, run: seq<Step>, t: State)
    requires Shaped(c, s)
    decreases |run|
  {
    if run == [] then s == t
    else Enabled(c, s, run[0]) && (StepKeepsShape(c, s, run[0]); Leads(c, Apply(c, s, run[0]), run[1..], t))
  }

  lemma {:induction false} RunKeepsInv(c: Setup, s: State, run: seq<Step>, t: State)
    requires Inv(c, s) && Leads(c, s, run, t)
    ensures Inv(c, t)
    decreases |run|
  {
    if run != [] {
      StepKeepsInv(c, s, run[0]);
      RunKeepsInv(c, Apply(c, s, run[0]), run[1..], t);
    }
  }

  ghost predicate Reachable(c: Setup, s: State) {
    SetupOk(c) && exists run :: Leads(c, Init(c), run, s)
  }

  lemma {:induction false} ReachableInv(c: Setup, s: State)
    requires Reachable(c, s)
    ensures Inv(c, s)
  {
    var s0 := Init(c);
    forall l, p | 0 <= l < |c.lists| && p in c.lists[l] ensures AccountOf(c, s0, l, p) {
      ListedPort(c, l, p);
    }
    var run :| Leads(c, s0, run, s);
    RunKeepsInv(c, s0, run, s);
  }

  /** In every run each TX buffer is appended to and flushed by one lcore only. */
  lemma {:induction false} OneWriterPerBuffer(c: Setup, s: State, i: nat, j: nat)
    requires Reachable(c, s) && i < |s.touched| && j < |s.touched| && s.touched[i].1 == s.touched[j].1
    ensures s.touched[i].0 == s.touched[j].0
    ensures EnabledPort(c.mask, c.n, s.touched[i].1)
  {
    ReachableInv(c, s);
    var (l, d) := s.touched[i];
    var (k, e) := s.touched[j];
    OneLcorePerPort(c.mask, c.n, c.enabled, c.quota, c.lists, c.dst[d]);
  }

  /** Conservation and order for every enabled port p, in every state of every run: what the one lcore l
      that polls p still has in hand of it is the only part of p's receipts not yet accounted for at the
      partner. At a loop boundary of l nothing is in hand, whatever the other lcores are doing. */
  lemma {:induction false} PortConservation(c: Setup, s: State, p: nat) returns (l: nat)
    requires Reachable(c, s) && EnabledPort(c.mask, c.n, p)
    ensures l < |c.lists| == |s.bursts| && p in c.lists[l]
    ensures |s.ports| == c.n && p < |c.dst| && c.dst[p] < c.n
    ensures var d, held := s.ports[c.dst[p]], FromPort(s.bursts[l], p);
      && s.ports[p].rx == d.tx + d.dropped + |d.buf| + |held|
      && IsSubsequence(d.wire + (d.buf + held), s.ports[p].recv)
  {
    ReachableInv(c, s);
    OneLcorePerPort(c.mask, c.n, c.enabled, c.quota, c.lists, p);
    l :| 0 <= l < |c.lists| && p in c.lists[l];
    ListedPort(c, l, p);
    assert AccountOf(c, s, l, p);
  }

  /** The equation of the statistics at a loop boundary of the lcore that polls p. */
  lemma {:induction false} ConservedAtBoundary(c: Setup, s: State, l: nat, p: nat)
    requires Reachable(c, s) && l < |c.lists| && l < |s.bursts| && p in c.lists[l] && s.bursts[l] == []
    ensures |s.ports| == c.n && p < |c.dst| && p < c.n && c.dst[p] < c.n
    ensures var d := s.ports[c.dst[p]];
      s.ports[p].rx == d.tx + d.dropped + |d.buf| && IsSubsequence(d.wire + d.buf, s.ports[p].recv)
  {
    ReachableInv(c, s);
    ListedPort(c, l, p);
    assert AccountOf(c, s, l, p);
    assert s.ports[c.dst[p]].buf + [] == s.ports[c.dst[p]].buf;
  }
}

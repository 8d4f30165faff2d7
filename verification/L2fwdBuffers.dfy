/**
 The TX buffers of l2fwd: a buffer never holds a full burst, and without the periodic drain it is emptied in full
 bursts only.
 */
module L2fwdBuffers {
  import opened L2fwdForward

  /** There is room for one more packet in every buffer. */
  ghost predicate Roomy(s: State) {
    forall d :: 0 <= d < |s.ports| ==> |s.ports[d].buf| < MAX_PKT_BURST
  }

  lemma {:induction false} StepKeepsRoom(c: Setup, s: State, step: Step)
    requires Shaped(c, s) && Enabled(c, s, step) && Roomy(s)
    ensures Roomy(Apply(c, s, step)) && |Apply(c, s, step).ports| == |s.ports|
  {
    match step {
      case Rx(l, j, _) => ListedPort(c, l, c.lists[l][j]);
      case Forward(l, _) => ListedPort(c, l, s.bursts[l][0].port);
      case Drain(l, j, _) => ListedPort(c, l, c.lists[l][j]);
    }
  }

  lemma {:induction false} RunKeepsRoom(c: Setup, s: State, run: seq<Step>, t: State)
    requires Shaped(c, s) && Roomy(s) && Leads(c, s, run, t)
    ensures Roomy(t)
    decreases |run|
  {
    if run != [] {
      StepKeepsRoom(c, s, run[0]);
      StepKeepsShape(c, s, run[0]);
      RunKeepsRoom(c, Apply(c, s, run[0]), run[1..], t);
    }
  }

  /** In every reachable state every TX buffer holds fewer packets than a burst, so that the next one fits. */
  lemma {:induction false} BuffersStayBelowBurst(c: Setup, s: State, d: nat)
    requires Reachable(c, s) && d < |s.ports|
    ensures |s.ports[d].buf| < MAX_PKT_BURST
  {
    var run :| Leads(c, Init(c), run, s);
    RunKeepsRoom(c, Init(c), run, s);
  }

  /** What has left the buffer, taken by the device or dropped, left it in full bursts. */
  ghost predicate InBursts(p: Port) {
    exists k: nat :: p.tx + p.dropped == k * MAX_PKT_BURST
  }

  lemma {:induction false} BufferedInBursts(p: Port, m: Packet, k: nat)
    requires InBursts(p) && |p.buf| < MAX_PKT_BURST
    ensures InBursts(Buffered(p, m, k))
  {
    var j: nat :| p.tx + p.dropped == j * MAX_PKT_BURST;
    assert (j + 1) * MAX_PKT_BURST == j * MAX_PKT_BURST + MAX_PKT_BURST;
    var q := Buffered(p, m, k);
    assert q.tx + q.dropped == j * MAX_PKT_BURST || q.tx + q.dropped == (j + 1) * MAX_PKT_BURST;
  }

  ghost predicate AllInBursts(s: State) {
    forall d :: 0 <= d < |s.ports| ==> InBursts(s.ports[d])
  }

  lemma {:induction false} RxInBursts(c: Setup, s: State, l: nat, j: nat, pkts: seq<Packet>)
    requires Shaped(c, s) && Enabled(c, s, Rx(l, j, pkts)) && AllInBursts(s)
    ensures AllInBursts(Apply(c, s, Rx(l, j, pkts)))
  {
    ListedPort(c, l, c.lists[l][j]);
    var t := Apply(c, s, Rx(l, j, pkts));
    forall d | 0 <= d < |t.ports| ensures InBursts(t.ports[d]) {
      assert InBursts(s.ports[d]) && t.ports[d].tx == s.ports[d].tx && t.ports[d].dropped == s.ports[d].dropped;
    }
  }

  lemma {:induction false} ForwardInBursts(c: Setup, s: State, l: nat, k: nat)
    requires Shaped(c, s) && Enabled(c, s, Forward(l, k)) && Roomy(s) && AllInBursts(s)
    ensures AllInBursts(Apply(c, s, Forward(l, k)))
  {
    var m := s.bursts[l][0];
    ListedPort(c, l, m.port);
    var t := Apply(c, s, Forward(l, k));
    forall d | 0 <= d < |t.ports| ensures InBursts(t.ports[d]) {
      assert InBursts(s.ports[d]);
      BufferedInBursts(s.ports[d], m, k);
    }
  }

  lemma {:induction false} StepInBursts(c: Setup, s: State, step: Step)
    requires Shaped(c, s) && Enabled(c, s, step) && Roomy(s) && AllInBursts(s) && !step.Drain?
    ensures AllInBursts(Apply(c, s, step))
  {
    match step {
      case Rx(l, j, pkts) => RxInBursts(c, s, l, j, pkts);
      case Forward(l, k) => ForwardInBursts(c, s, l, k);
    }
  }

  lemma {:induction false} RunInBursts(c: Setup, s: State, run: seq<Step>, t: State)
    requires Shaped(c, s) && Roomy(s) && AllInBursts(s) && Leads(c, s, run, t)
    requires forall i :: 0 <= i < |run| ==> !run[i].Drain?
    ensures AllInBursts(t)
    decreases |run|
  {
    if run != [] {
      StepKeepsRoom(c, s, run[0]);
      StepKeepsShape(c, s, run[0]);
      StepInBursts(c, s, run[0]);
      assert forall i :: 0 <= i < |run[1..]| ==> run[1..][i] == run[i + 1];
      RunInBursts(c, Apply(c, s, run[0]), run[1..], t);
    }
  }

  /** In every run without a drain each port has sent and dropped a multiple of MAX_PKT_BURST packets. */
  lemma {:induction false} FullBurstsOnly(c: Setup, run: seq<Step>, t: State, d: nat)
    requires Shaped(c, Init(c)) && Leads(c, Init(c), run, t) && d < |t.ports|
    requires forall i :: 0 <= i < |run| ==> !run[i].Drain?
    ensures exists k: nat :: t.ports[d].tx + t.ports[d].dropped == k * MAX_PKT_BURST
  {
    var s := Init(c);
    forall e | 0 <= e < |s.ports| ensures InBursts(s.ports[e]) {
      assert s.ports[e].tx + s.ports[e].dropped == 0 * MAX_PKT_BURST;
    }
    RunInBursts(c, s, run, t);
    assert InBursts(t.ports[d]);
  }
}

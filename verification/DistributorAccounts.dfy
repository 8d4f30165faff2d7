/**
 The statistics of the distributors that one lcore keeps for itself, each against what it counts: what a reader
 has classed so far among what its port delivered, what a worker has sent and what it has freed.
 */
module DistributorAccounts {
  import opened Arithmetic
  import opened Distributor
  import opened DistributorRuns

  /* ---------------------------------------------------------------- readers */

  /** How many of the first n packets are IPv4 packets, or are not. */
  function Classed(ms: seq<Mbuf>, n: nat, ipv4: bool): nat
    requires n <= |ms|
  {
    if n == 0 then 0 else Classed(ms, n - 1, ipv4) + (if ms[n - 1].ipv4 == ipv4 then 1 else 0)
  }

  lemma {:induction false} ClassedBefore(ms: seq<Mbuf>, m: Mbuf, n: nat, ipv4: bool)
    requires n <= |ms|
    ensures Classed(ms + [m], n, ipv4) == Classed(ms, n, ipv4)
  {
    if n > 0 {
      ClassedBefore(ms, m, n - 1, ipv4);
    }
  }

  /** The burst is the rest of what the port delivered; before it rx_ipv4 counts the IPv4 packets, one the reader
      is just placing included, and non_ip the others. */
  ghost predicate Handled(r: Reader) {
    && |r.burst| <= |r.recv| && (Probing(r.phase) ==> r.burst != [] && r.burst[0].ipv4)
    && r.burst == r.recv[|r.recv| - |r.burst|..]
    && r.rxIpv4 == Classed(r.recv, |r.recv| - |r.burst|, true) + (if Probing(r.phase) then 1 else 0)
    && r.nonIp == Classed(r.recv, |r.recv| - |r.burst|, false)
  }

  lemma {:induction false} ReceiveKeepsHandled(r: Reader, m: Mbuf)
    requires Handled(r)
    ensures Handled(r.(recv := r.recv + [m], burst := r.burst + [m]))
  {
    var n := |r.recv| - |r.burst|;
    ClassedBefore(r.recv, m, n, true);
    ClassedBefore(r.recv, m, n, false);
    assert (r.recv + [m])[n..] == r.recv[n..] + [m];
  }

  /** The first packet of the burst is dealt with. */
  lemma {:induction false} NextHandled(r: Reader, phase: Phase, rxIpv4: nat, nonIp: nat)
    requires Handled(r) && r.burst != [] && !Probing(phase)
    requires rxIpv4 == (if Probing(r.phase) then r.rxIpv4 else r.rxIpv4 + (if r.burst[0].ipv4 then 1 else 0))
    requires nonIp == r.nonIp + (if r.burst[0].ipv4 then 0 else 1)
    ensures Handled(Reader(r.recv, r.burst[1..], phase, rxIpv4, nonIp))
  {
    var n := |r.recv| - |r.burst|;
    assert r.recv[n] == r.burst[0] && r.recv[n + 1..] == r.burst[1..];
  }

  /** The packet a try disposes of, in whichever way. */
  lemma {:induction false} TriedHandled(r: Reader, which: Which, f: nat)
    requires Handled(r) && Probing(r.phase)
    ensures Handled(r.(burst := r.burst[1..], phase := Due(which, f)))
  {
    NextHandled(r, Due(which, f), r.rxIpv4, r.nonIp);
  }

  lemma {:induction false} LookKeepsHandled(c: Config, s: State, p: nat)
    requires Enabled(c, s, Look(p)) && Handled(s.readers[p])
    ensures p < |Apply(c, s, Look(p)).readers| && Handled(Apply(c, s, Look(p)).readers[p])
  {
    var r := s.readers[p];
    TriedHandled(r, Drp, Target(c, r.burst[0], p, Tries(c)));
  }

  lemma {:induction false} OfferKeepsHandled(c: Config, s: State, p: nat)
    requires Enabled(c, s, Offer(p)) && Handled(s.readers[p])
    ensures p < |Apply(c, s, Offer(p)).readers| && Handled(Apply(c, s, Offer(p)).readers[p])
  {
    var r := s.readers[p];
    TriedHandled(r, Add, Target(c, r.burst[0], p, r.phase.k));
    TriedHandled(r, Drp, Target(c, r.burst[0], p, Tries(c)));
  }

  lemma {:induction false} BeginKeepsHandled(c: Config, s: State, p: nat)
    requires Enabled(c, s, Begin(p)) && Handled(s.readers[p])
    ensures p < |Apply(c, s, Begin(p)).readers| && Handled(Apply(c, s, Begin(p)).readers[p])
  {
    var r := s.readers[p];
    if !r.burst[0].ipv4 {
      NextHandled(r, Idle, r.rxIpv4, r.nonIp + 1);
    }
  }

  lemma {:induction false} StepKeepsHandled(c: Config, s: State, step: Step, p: nat)
    requires p < |s.readers| && Handled(s.readers[p])
    ensures p < |Apply(c, s, step).readers| && Handled(Apply(c, s, step).readers[p])
  {
    StepKeepsShape(c, s, step);
    if Enabled(c, s, step) && ActorOf(step) == ReaderOf(p) {
      if step.Receive? {
        ReceiveKeepsHandled(s.readers[p], step.m);
      } else if step.Begin? {
        BeginKeepsHandled(c, s, p);
      } else if step.Look? {
        LookKeepsHandled(c, s, p);
      } else if step.Offer? {
        OfferKeepsHandled(c, s, p);
      }
    }
  }

  lemma {:induction false} FreshHandled()
    ensures Handled(Reader([], [], Idle, 0, 0))
  {
    var none: seq<Mbuf> := [];
    assert none[0..] == none;
    assert Classed(none, 0, true) == Classed(none, 0, false) == 0;
  }

  lemma {:induction false} InitHandled(c: Config, ports: nat, p: nat)
    requires p < ports
    ensures p < |Init(c, ports).readers| && Handled(Init(c, ports).readers[p])
  {
    FreshHandled();
    assert Init(c, ports).readers[p] == Reader([], [], Idle, 0, 0);
  }

  lemma {:induction false} RunKeepsHandled(c: Config, ports: nat, run: seq<Step>, p: nat)
    requires p < ports
    ensures p < |After(c, Init(c, ports), run).readers| && Handled(After(c, Init(c, ports), run).readers[p])
    decreases |run|
  {
    if run == [] {
      InitHandled(c, ports, p);
    } else {
      RunKeepsHandled(c, ports, run[..|run| - 1], p);
      StepKeepsHandled(c, After(c, Init(c, ports), run[..|run| - 1]), run[|run| - 1], p);
    }
  }

  /** In every reachable state rx_ipv4 and non_ip of a reader are the numbers of IPv4 and other packets among what
      it has taken up, which is what its port delivered first. */
  lemma {:induction false} ReaderCounts(c: Config, ports: nat, s: State, p: nat)
    requires Reachable(c, ports, s) && p < ports
    ensures p < |s.readers| && Handled(s.readers[p])
  {
    var run :| s == After(c, Init(c, ports), run);
    RunKeepsHandled(c, ports, run, p);
  }

  /* ---------------------------------------------------------------- workers */

  /** How many packets worker f has sent. */
  function SentBy(sent: seq<Sent>, f: nat): nat {
    if sent == [] then 0
    else SentBy(sent[..|sent| - 1], f) + (if sent[|sent| - 1].fifo == f then 1 else 0)
  }

  lemma {:induction false} SentBySnoc(sent: seq<Sent>, x: Sent, f: nat)
    ensures SentBy(sent + [x], f) == SentBy(sent, f) + (if x.fifo == f then 1 else 0)
  {
    assert (sent + [x])[..|sent|] == sent;
  }

  /** How often worker f has handed a packet to the port in a run, and it was taken, or was not. */
  function Attempts(c: Config, s: State, run: seq<Step>, f: nat, ok: bool): nat {
    if run == [] then 0
    else
      var front, step := run[..|run| - 1], run[|run| - 1];
      Attempts(c, s, front, f, ok)
      + (if step == Send(f, ok) && Enabled(c, After(c, s, front), step) then 1 else 0)
  }

  /** How many packets worker f has dequeued in a run. */
  function Fetched(c: Config, s: State, run: seq<Step>, f: nat): nat {
    if run == [] then 0
    else
      var front, step := run[..|run| - 1], run[|run| - 1];
      Fetched(c, s, front, f)
      + (if step.Dequeue? && step.f == f && Enabled(c, After(c, s, front), step) then step.n else 0)
  }

  /** What the worker's counters and the wire gain by a step. */
  lemma {:induction false} StepCounts(c: Config, s: State, step: Step, f: nat)
    requires f < |s.lanes|
    ensures var t := Apply(c, s, step);
      && |t.lanes| == |s.lanes|
      && t.lanes[f].fls == s.lanes[f].fls + (if step == Send(f, true) && Enabled(c, s, step) then 1 else 0)
      && t.lanes[f].drp == s.lanes[f].drp + (if step == Send(f, false) && Enabled(c, s, step) then 1 else 0)
      && t.lanes[f].fet == s.lanes[f].fet
                           + (if step.Dequeue? && step.f == f && Enabled(c, s, step) then step.n else 0)
      && SentBy(t.sent, f) == SentBy(s.sent, f) + (if step == Send(f, true) && Enabled(c, s, step) then 1 else 0)
  {
    StepKeepsShape(c, s, step);
    if step.Send? && Enabled(c, s, step) {
      SentBySnoc(s.sent, Sent(s.lanes[step.f].batch[0], step.f), f);
    }
  }

  /** In every run: queue_wrk_fls of worker f is the number of packets it has sent, queue_wrk_drp the number of those
      it has freed because the port did not take them, and queue_wrk_fet the number of those it has dequeued. */
  lemma {:induction false} WorkerCounts(c: Config, ports: nat, run: seq<Step>, f: nat)
    requires f < c.fifoWrk
    ensures var t := After(c, Init(c, ports), run);
      && |t.lanes| == c.fifoWrk
      && t.lanes[f].fls == SentBy(t.sent, f) == Attempts(c, Init(c, ports), run, f, true)
      && t.lanes[f].drp == Attempts(c, Init(c, ports), run, f, false)
      && t.lanes[f].fet == Fetched(c, Init(c, ports), run, f)
    decreases |run|
  {
    if run != [] {
      WorkerCounts(c, ports, run[..|run| - 1], f);
      StepCounts(c, After(c, Init(c, ports), run[..|run| - 1]), run[|run| - 1], f);
    }
  }

  /* ---------------------------------------------------------------- the hash */

  lemma {:induction false} TargetRemains(c: Config, m: Mbuf, p: nat, k: nat)
    requires c.policy.Hashed? && c.fifoWrk > 0
    ensures Remains(c.policy.hash(m.src, m.dst), c.fifoWrk, Target(c, m, p, k))
  {
    ModRemains(c.policy.hash(m.src, m.dst), c.fifoWrk);
  }

  /** Every packet an atomic distributor has sent went through the FIFO that its hash leaves over the number of
      FIFOs. */
  lemma {:induction false} SentByHash(c: Config, ports: nat, s: State, i: nat)
    requires Reachable(c, ports, s) && c.policy.Hashed? && i < |s.sent|
    ensures Remains(c.policy.hash(s.sent[i].m.src, s.sent[i].m.dst), c.fifoWrk, s.sent[i].fifo)
  {
    ReachableInv(c, ports, s);
    TargetRemains(c, s.sent[i].m, 0, 0);
  }
}

/**
 The main loop of l2fwd (nogdb-threadtrace/main.c): a pass of one lcore over its ports is a run of that
 lcore's steps, so everything proved of runs holds at its boundaries.
 */
module L2fwdLoops {
  import opened Arithmetic
  import opened L2fwdForward

  /** A run can be prolonged by an enabled step. */
  lemma {:induction false} LeadsSnoc(c: Setup, s: State, run: seq<Step>, t: State, step: Step)
    requires Shaped(c, s) && Leads(c, s, run, t) && Shaped(c, t) && Enabled(c, t, step)
    ensures Leads(c, s, run + [step], Apply(c, t, step)) && Shaped(c, Apply(c, t, step))
    decreases |run|
  {
    StepKeepsShape(c, t, step);
    if run == [] {
      assert [step][1..] == [] && run + [step] == [step];
    } else {
      StepKeepsShape(c, s, run[0]);
      LeadsSnoc(c, Apply(c, s, run[0]), run[1..], t, step);
      assert (run + [step])[1..] == run[1..] + [step] && (run + [step])[0] == run[0];
    }
  }

  /** The lcore a step belongs to. */
  function Actor(step: Step): nat {
    match step case Rx(l, _, _) => l case Forward(l, _) => l case Drain(l, _, _) => l
  }

  ghost predicate AllBy(run: seq<Step>, l: nat) {
    forall i :: 0 <= i < |run| ==> Actor(run[i]) == l
  }

  /* ---------------------------------------------------------------- the steps of a pass */

  /** One flush for each port of the list; the device takes taken[i] packets of the i-th. */
  function Drains(l: nat, taken: seq<nat>): (r: seq<Step>)
    ensures |r| == |taken|
  {
    seq(|taken|, i requires 0 <= i < |taken| => Drain(l, i, taken[i]))
  }

  /** One forward for each packet of a burst. */
  function Forwards(l: nat, taken: seq<nat>): (r: seq<Step>)
    ensures |r| == |taken|
  {
    seq(|taken|, i requires 0 <= i < |taken| => Forward(l, taken[i]))
  }

  function PollSteps(l: nat, i: nat, burst: seq<Packet>, taken: seq<nat>): seq<Step> {
    [Rx(l, i, burst)] + Forwards(l, taken)
  }

  /** The ports of the list polled in its order. */
  function Polls(l: nat, bursts: seq<seq<Packet>>, taken: seq<seq<nat>>): seq<Step>
    requires |bursts| == |taken|
  {
    if bursts == [] then []
    else
      var i := |bursts| - 1;
      Polls(l, bursts[..i], taken[..i]) + PollSteps(l, i, bursts[i], taken[i])
  }

  function PassSteps(l: nat, drain: bool, drained: seq<nat>, bursts: seq<seq<Packet>>, taken: seq<seq<nat>>): seq<Step>
    requires |bursts| == |taken|
  {
    (if drain then Drains(l, drained) else []) + Polls(l, bursts, taken)
  }

  lemma {:induction false} PollsNext(l: nat, bursts: seq<seq<Packet>>, taken: seq<seq<nat>>, i: nat)
    requires i < |bursts| == |taken|
    ensures Polls(l, bursts[..i + 1], taken[..i + 1])
         == Polls(l, bursts[..i], taken[..i]) + PollSteps(l, i, bursts[i], taken[i])
  {
    assert bursts[..i + 1][..i] == bursts[..i] && taken[..i + 1][..i] == taken[..i];
  }

  lemma {:induction false} PollsBy(l: nat, bursts: seq<seq<Packet>>, taken: seq<seq<nat>>)
    requires |bursts| == |taken|
    ensures AllBy(Polls(l, bursts, taken), l)
  {
    if bursts != [] {
      PollsBy(l, bursts[..|bursts| - 1], taken[..|bursts| - 1]);
    }
  }

  /** What the i-th port of the list may deliver at a poll, with an answer of the device for each packet. */
  ghost predicate Pollable(c: Setup, l: nat, i: nat, burst: seq<Packet>, taken: seq<nat>)
    requires l < |c.lists| && i < |c.lists[l]|
  {
    |burst| == |taken| <= MAX_PKT_BURST && forall j :: 0 <= j < |burst| ==> burst[j].port == c.lists[l][i]
  }

  /** Nothing waits in the TX buffer of the destination of port p. */
  ghost predicate Emptied(c: Setup, ports: seq<Port>, p: nat) {
    p < |c.dst| && c.dst[p] < |ports| && ports[c.dst[p]].buf == []
  }

  class Forwarder {
    var ports: seq<Port>

    constructor (c: Setup)
      ensures ports == Init(c).ports
    {
      ports := seq(c.n, _ => Port([], [], [], 0, 0, 0));
    }

    /** rte_eth_tx_buffer_flush on the buffer of port d; the device takes k packets. */
    method Flush(d: nat, k: nat)
      requires d < |ports|
      modifies this
      ensures ports == old(ports)[d := Flushed(old(ports)[d], k)]
      ensures var sent := Min(k, |old(ports)[d].buf|);
        && ports[d].wire == old(ports)[d].wire + old(ports)[d].buf[..sent] && ports[d].buf == []
        && ports[d].tx == old(ports)[d].tx + sent
        && ports[d].dropped == old(ports)[d].dropped + |old(ports)[d].buf| - sent
    {
      var buffer := ports[d].buf;
      var sent := Min(k, |buffer|);
      ports := ports[d := ports[d].(wire := ports[d].wire + buffer[..sent], buf := [],
                                    tx := ports[d].tx + sent, dropped := ports[d].dropped + (|buffer| - sent))];
    }

    /** l2fwd_simple_forward */
    method SimpleForward(dst: seq<nat>, m: Packet, k: nat)
      requires m.port < |dst| && dst[m.port] < |ports|
      modifies this
      ensures ports == old(ports)[dst[m.port] := Buffered(old(ports)[dst[m.port]], m, k)]
      ensures var p, q, full := old(ports)[dst[m.port]], ports[dst[m.port]], old(ports)[dst[m.port]].buf + [m];
        if |full| < MAX_PKT_BURST then q.buf == full && q.wire == p.wire && q.tx == p.tx && q.dropped == p.dropped
        else q.buf == [] && q.wire == p.wire + full[..Min(k, |full|)]
             && q.tx == p.tx + Min(k, |full|) && q.dropped == p.dropped + |full| - Min(k, |full|)
    {
      var d := dst[m.port];
      ports := ports[d := ports[d].(buf := ports[d].buf + [m])];
      if |ports[d].buf| >= MAX_PKT_BURST {
        Flush(d, k);
      }
    }

    /** The drain loop: flush the destination of every port of the list. */
    method DrainAll(c: Setup, l: nat, taken: seq<nat>, ghost s: State) returns (ghost run: seq<Step>, ghost t: State)
      requires Shaped(c, s) && ports == s.ports && l < |c.lists| && |taken| == |c.lists[l]|
      modifies this
      ensures run == Drains(l, taken) && Leads(c, s, run, t) && Shaped(c, t)
      ensures ports == t.ports && t.bursts == s.bursts
      ensures forall i :: 0 <= i < |c.lists[l]| ==> Emptied(c, ports, c.lists[l][i])
    {
      run, t := [], s;
      for i := 0 to |c.lists[l]|
        invariant run == Drains(l, taken)[..i] && Leads(c, s, run, t) && Shaped(c, t)
        invariant ports == t.ports && t.bursts == s.bursts
        invariant forall j :: 0 <= j < i ==> Emptied(c, ports, c.lists[l][j])
      {
        ListedPort(c, l, c.lists[l][i]);
        Flush(c.dst[c.lists[l][i]], taken[i]);
        LeadsSnoc(c, s, run, t, Drain(l, i, taken[i]));
        run, t := run + [Drain(l, i, taken[i])], Apply(c, t, Drain(l, i, taken[i]));
      }
    }

    /** Read a burst from the i-th port of the list and forward its packets; taken says how many
        packets the device takes should a buffer fill up. */
    method Poll(c: Setup, l: nat, i: nat, burst: seq<Packet>, taken: seq<nat>, ghost s: State)
      returns (ghost run: seq<Step>, ghost t: State)
      requires Shaped(c, s) && ports == s.ports && l < |c.lists| && i < |c.lists[l]| && s.bursts[l] == []
      requires Pollable(c, l, i, burst, taken)
      modifies this
      ensures run == PollSteps(l, i, burst, taken) && Leads(c, s, run, t) && Shaped(c, t)
      ensures ports == t.ports && t.bursts == s.bursts
    {
      var portid := c.lists[l][i];
      ListedPort(c, l, portid);
      var p := ports[portid];
      ports := ports[portid := p.(recv := p.recv + burst, rx := p.rx + |burst|)];
      run, t := [Rx(l, i, burst)], Apply(c, s, Rx(l, i, burst));
      assert run[1..] == [];
      StepKeepsShape(c, s, Rx(l, i, burst));
      for j := 0 to |burst|
        invariant run == [Rx(l, i, burst)] + Forwards(l, taken)[..j] && Leads(c, s, run, t) && Shaped(c, t)
        invariant ports == t.ports && t.bursts == s.bursts[l := burst[j..]]
      {
        SimpleForward(c.dst, burst[j], taken[j]);
        LeadsSnoc(c, s, run, t, Forward(l, taken[j]));
        run, t := run + [Forward(l, taken[j])], Apply(c, t, Forward(l, taken[j]));
      }
      assert burst[|burst|..] == s.bursts[l];
      assert s.bursts[l := burst[|burst|..]] == s.bursts;
    }
  }

  lemma {:induction false} LeadsTrans(c: Setup, s: State, r1: seq<Step>, t: State, r2: seq<Step>, u: State)
    requires Shaped(c, s) && Leads(c, s, r1, t) && Shaped(c, t) && Leads(c, t, r2, u)
    ensures Leads(c, s, r1 + r2, u)
    decreases |r1|
  {
    if r1 == [] {
      assert r1 + r2 == r2;
    } else {
      StepKeepsShape(c, s, r1[0]);
      LeadsTrans(c, Apply(c, s, r1[0]), r1[1..], t, r2, u);
      assert (r1 + r2)[1..] == r1[1..] + r2 && (r1 + r2)[0] == r1[0];
    }
  }

  /** The loop over the ports of the list. */
  method PollAll(f: Forwarder, c: Setup, l: nat, bursts: seq<seq<Packet>>, taken: seq<seq<nat>>, ghost s: State)
    returns (ghost run: seq<Step>, ghost t: State)
    requires Shaped(c, s) && f.ports == s.ports && l < |c.lists| && s.bursts[l] == []
    requires |bursts| == |taken| == |c.lists[l]|
    requires forall i :: 0 <= i < |bursts| ==> Pollable(c, l, i, bursts[i], taken[i])
    modifies f
    ensures run == Polls(l, bursts, taken) && Leads(c, s, run, t) && Shaped(c, t)
    ensures f.ports == t.ports && t.bursts == s.bursts
  {
    run, t := [], s;
    for i := 0 to |c.lists[l]|
      invariant run == Polls(l, bursts[..i], taken[..i]) && Leads(c, s, run, t) && Shaped(c, t)
      invariant f.ports == t.ports && t.bursts == s.bursts
    {
      assert Pollable(c, l, i, bursts[i], taken[i]);
      ghost var r, u := f.Poll(c, l, i, bursts[i], taken[i], t);
      LeadsTrans(c, s, run, t, r, u);
      PollsNext(l, bursts, taken, i);
      run, t := run + r, u;
    }
    assert bursts[..|bursts|] == bursts && taken[..|taken|] == taken;
  }

  lemma {:induction false} PassBy(l: nat, drain: bool, drained: seq<nat>, bursts: seq<seq<Packet>>,
                                  taken: seq<seq<nat>>)
    requires |bursts| == |taken|
    ensures AllBy(PassSteps(l, drain, drained, bursts, taken), l)
  {
    PollsBy(l, bursts, taken);
  }

  /** One pass of l2fwd_main_loop on lcore l: drain if it is time, then poll every port of the list. */
  method MainLoopPass(f: Forwarder, c: Setup, l: nat, drain: bool, drained: seq<nat>, bursts: seq<seq<Packet>>,
                      taken: seq<seq<nat>>, ghost s: State)
    returns (ghost run: seq<Step>, ghost t: State)
    requires Shaped(c, s) && f.ports == s.ports && l < |c.lists| && s.bursts[l] == []
    requires |drained| == |bursts| == |taken| == |c.lists[l]|
    requires forall i :: 0 <= i < |bursts| ==> Pollable(c, l, i, bursts[i], taken[i])
    modifies f
    ensures run == PassSteps(l, drain, drained, bursts, taken) && AllBy(run, l)
    ensures Leads(c, s, run, t) && Shaped(c, t)
    ensures f.ports == t.ports && t.bursts == s.bursts
  {
    ghost var r0: seq<Step>, u := [], s;
    if drain {
      r0, u := f.DrainAll(c, l, drained, s);
    }
    ghost var r1;
    r1, t := PollAll(f, c, l, bursts, taken, u);
    LeadsTrans(c, s, r0, u, r1, t);
    PassBy(l, drain, drained, bursts, taken);
    run := r0 + r1;
  }
}

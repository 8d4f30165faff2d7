/**
 The loops of lcore_pktFetch and lcore_fifoTransmit (main_atomic_nosqm.c and main_unordered_nosqm.c) as an
 lcore executes them while the others go on. Between any two accesses to something shared the others take
 arbitrarily many steps; what an iteration does, theirs included, is a run of the step system.
 */
module DistributorLoops {
  import opened Arithmetic
  import opened Sequences
  import opened SharedCounter
  import opened Distributor

  /** What the other lcores do at each moment at which they get a chance. */
  type Schedule = nat -> seq<Step>

  ghost predicate NotBy(a: Actor, steps: seq<Step>) {
    forall i :: 0 <= i < |steps| ==> ActorOf(steps[i]) != a
  }

  ghost predicate Others(a: Actor, others: Schedule) {
    forall t: nat :: NotBy(a, others(t))
  }

  lemma {:induction false} AfterConcat(c: Config, s: State, a: seq<Step>, b: seq<Step>)
    ensures After(c, s, a + b) == After(c, After(c, s, a), b)
    decreases |b|
  {
    if b == [] {
      assert a + b == a;
    } else {
      var front, last := b[..|b| - 1], b[|b| - 1];
      AfterConcat(c, s, a, front);
      AfterSnoc(c, s, a + front, last);
      assert a + b == (a + front) + [last];
    }
  }

  /** The steps of others leave a reader as it is, and the number of readers and lanes. */
  lemma {:induction false} OthersKeepReader(c: Config, s: State, p: nat, steps: seq<Step>)
    requires NotBy(ReaderOf(p), steps) && p < |s.readers|
    ensures var t := After(c, s, steps);
      |t.readers| == |s.readers| && |t.lanes| == |s.lanes| && t.readers[p] == s.readers[p]
    decreases |steps|
  {
    if steps != [] {
      var front, last := steps[..|steps| - 1], steps[|steps| - 1];
      forall i | 0 <= i < |front| ensures ActorOf(front[i]) != ReaderOf(p) {
        assert front[i] == steps[i];
      }
      OthersKeepReader(c, s, p, front);
      StepKeepsReader(c, After(c, s, front), p, last);
    }
  }

  lemma {:induction false} StepKeepsReader(c: Config, s: State, p: nat, step: Step)
    requires ActorOf(step) != ReaderOf(p) && p < |s.readers|
    ensures var t := Apply(c, s, step);
      |t.readers| == |s.readers| && |t.lanes| == |s.lanes| && t.readers[p] == s.readers[p]
  {
  }

  /** The steps of others leave the batch of a worker as it is. */
  lemma {:induction false} OthersKeepBatch(c: Config, s: State, f: nat, steps: seq<Step>)
    requires NotBy(WorkerOf(f), steps) && f < |s.lanes|
    ensures |After(c, s, steps).lanes| == |s.lanes| && After(c, s, steps).lanes[f].batch == s.lanes[f].batch
    decreases |steps|
  {
    if steps != [] {
      var front, last := steps[..|steps| - 1], steps[|steps| - 1];
      forall i | 0 <= i < |front| ensures ActorOf(front[i]) != WorkerOf(f) {
        assert front[i] == steps[i];
      }
      OthersKeepBatch(c, s, f, front);
      StepKeepsBatch(c, After(c, s, front), f, last);
    }
  }

  lemma {:induction false} StepKeepsBatch(c: Config, s: State, f: nat, step: Step)
    requires ActorOf(step) != WorkerOf(f) && f < |s.lanes|
    ensures |Apply(c, s, step).lanes| == |s.lanes| && Apply(c, s, step).lanes[f].batch == s.lanes[f].batch
  {
  }

  /** A run prolonged by what others did and a step of one's own. */
  lemma {:induction false} RunProlonged(c: Config, s: State, run: seq<Step>, more: seq<Step>, step: Step)
    ensures After(c, s, run + more + [step]) == Apply(c, After(c, After(c, s, run), more), step)
  {
    AfterConcat(c, s, run, more);
    AfterSnoc(c, s, run + more, step);
  }

  lemma {:induction false} OthersBeginNothing(p: nat, steps: seq<Step>)
    requires NotBy(ReaderOf(p), steps)
    ensures Count(steps, Begin(p)) == 0
  {
    CountIsMembership(steps, Begin(p));
  }

  /** The run so far, prolonged by what others did and a step of the reader's own. */
  lemma {:induction false} RunGrows(c: Config, s: State, run: seq<Step>, more: seq<Step>, step: Step, p: nat)
    requires NotBy(ReaderOf(p), more) && ActorOf(step) == ReaderOf(p)
    ensures After(c, s, run + more + [step]) == Apply(c, After(c, After(c, s, run), more), step)
    ensures Count(run + more + [step], Begin(p)) == Count(run, Begin(p)) + (if step == Begin(p) then 1 else 0)
  {
    RunProlonged(c, s, run, more, step);
    OthersBeginNothing(p, more);
    CountConcat(run + more, [step], Begin(p));
    CountConcat(run, more, Begin(p));
    CountOne(step, Begin(p));
  }

  /** The steps of one actor in a run. */
  function By(a: Actor, run: seq<Step>): seq<Step> {
    if run == [] then []
    else By(a, run[..|run| - 1]) + (if ActorOf(run[|run| - 1]) == a then [run[|run| - 1]] else [])
  }

  lemma {:induction false} BySnoc(a: Actor, run: seq<Step>, step: Step)
    ensures By(a, run + [step]) == By(a, run) + (if ActorOf(step) == a then [step] else [])
  {
    assert (run + [step])[..|run|] == run;
  }

  /** What others do in between does not show. */
  lemma {:induction false} ByOthers(a: Actor, run: seq<Step>, more: seq<Step>)
    requires NotBy(a, more)
    ensures By(a, run + more) == By(a, run)
    decreases |more|
  {
    if more == [] {
      assert run + more == run;
    } else {
      var front, last := more[..|more| - 1], more[|more| - 1];
      assert NotBy(a, front) by {
        assert forall i :: 0 <= i < |front| ==> front[i] == more[i];
      }
      ByOthers(a, run, front);
      BySnoc(a, run + front, last);
      assert run + more == (run + front) + [last];
    }
  }

  /** What worker f does with a batch: one send for each packet. */
  function Sends(f: nat, oks: seq<bool>): (r: seq<Step>)
    ensures |r| == |oks|
  {
    seq(|oks|, i requires 0 <= i < |oks| => Send(f, oks[i]))
  }

  lemma {:induction false} SendsNext(front: seq<Step>, f: nat, oks: seq<bool>, i: nat)
    requires i < |oks|
    ensures front + Sends(f, oks[..i]) + [Send(f, oks[i])] == front + Sends(f, oks[..i + 1])
  {
    assert Sends(f, oks[..i]) + [Send(f, oks[i])] == Sends(f, oks[..i + 1]);
  }

  class Program {
    var readers: seq<Reader>
    var lanes: seq<Lane>
    var sent: seq<Sent>
    var freed: seq<Mbuf>
    var log: seq<Fate>
    /** how often the others have had their chance */
    var clock: nat

    function View(): State
      reads this
    {
      State(readers, lanes, sent, freed, log)
    }

    constructor (c: Config, ports: nat)
      ensures View() == Init(c, ports)
    {
      readers := seq(ports, _ => Reader([], [], Idle, 0, 0));
      lanes := seq(c.fifoWrk, _ => Lane([], [], 0, 0, Zero(), Zero(), Zero(), 0, 0, 0));
      sent, freed, log, clock := [], [], [], 0;
    }

    /** The others get their chance. */
    method Yield(c: Config, p: nat, others: Schedule) returns (ghost more: seq<Step>)
      requires Others(ReaderOf(p), others) && p < |readers|
      modifies this
      ensures NotBy(ReaderOf(p), more) && View() == After(c, old(View()), more)
      ensures |readers| == |old(readers)| && |lanes| == |old(lanes)| && readers[p] == old(readers)[p]
    {
      var steps := others(clock);
      OthersKeepReader(c, View(), p, steps);
      var t := After(c, View(), steps);
      readers, lanes, sent, freed, log := t.readers, t.lanes, t.sent, t.freed, t.log;
      clock := clock + 1;
      return steps;
    }

    /** The program counter of reader p moves on. */
    method SetPhase(p: nat, phase: Phase)
      requires p < |readers|
      modifies this
      ensures View() == WithPhase(old(View()), p, phase)
    {
      readers := readers[p := readers[p].(phase := phase)];
    }

    method LoadCounter(c: Config, p: nat)
      requires p < |readers| && readers[p].phase.Due? && readers[p].phase.f < |lanes| == c.fifoWrk
      modifies this
      ensures View() == Apply(c, old(View()), Load(p)) && |readers| == |old(readers)| && lanes == old(lanes)
      ensures readers[p].phase.Loaded? && readers[p].phase.reg.value ==
              CounterOf(lanes[old(readers)[p].phase.f], old(readers)[p].phase.which).value
      ensures var r := old(readers)[p];
        readers[p] == r.(phase := Loaded(r.phase.which, r.phase.f, readers[p].phase.reg))
    {
      var which, f := readers[p].phase.which, readers[p].phase.f;
      var reg := Read(CounterOf(lanes[f], which));
      readers := readers[p := readers[p].(phase := Loaded(which, f, reg))];
    }

    method StoreCounter(c: Config, p: nat)
      requires p < |readers| && readers[p].phase.Loaded? && readers[p].phase.f < |lanes| == c.fifoWrk
      modifies this
      ensures View() == Apply(c, old(View()), Store(p)) && |readers| == |old(readers)| && |lanes| == |old(lanes)|
      ensures CounterOf(lanes[old(readers)[p].phase.f], old(readers)[p].phase.which).value ==
              old(readers)[p].phase.reg.value + 1
      ensures var r := old(readers)[p]; readers[p] == r.(phase := AfterStore(r.phase.which, r.phase.f))
    {
      var which, f, reg := readers[p].phase.which, readers[p].phase.f, readers[p].phase.reg;
      lanes := lanes[f := WithCounter(lanes[f], which, Write(CounterOf(lanes[f], which), reg))];
      readers := readers[p := readers[p].(phase := AfterStore(which, f))];
    }

    /** counter += 1 on a counter that other readers increment too: a load, and a store of the successor. */
    method Increment(c: Config, p: nat, others: Schedule, ghost s: State, ghost run: seq<Step>)
      returns (ghost longer: seq<Step>)
      requires Others(ReaderOf(p), others) && View() == After(c, s, run)
      requires p < |readers| && readers[p].phase.Due? && readers[p].phase.f < |lanes| == c.fifoWrk
      modifies this
      ensures View() == After(c, s, longer) && Count(longer, Begin(p)) == Count(run, Begin(p))
      ensures |readers| == |old(readers)| && |lanes| == |old(lanes)|
      ensures var r := old(readers)[p]; readers[p] == r.(phase := AfterStore(r.phase.which, r.phase.f))
    {
      ghost var more := Yield(c, p, others);
      RunGrows(c, s, run, more, Load(p), p);
      longer := run + more + [Load(p)];
      LoadCounter(c, p);
      more := Yield(c, p, others);
      RunGrows(c, s, longer, more, Store(p), p);
      longer := longer + more + [Store(p)];
      StoreCounter(c, p);
    }

    /** The increments that follow on what became of a packet. */
    method CountPacket(c: Config, p: nat, others: Schedule, ghost s: State, ghost run: seq<Step>)
      returns (ghost longer: seq<Step>)
      requires Others(ReaderOf(p), others)
      requires p < |readers| && readers[p].phase.Due? && readers[p].phase.f < |lanes| == c.fifoWrk
      requires readers[p].phase.which == Add || readers[p].phase.which == Drp
      requires View() == After(c, s, run)
      modifies this
      ensures View() == After(c, s, longer) && Count(longer, Begin(p)) == Count(run, Begin(p))
      ensures |readers| == |old(readers)| && |lanes| == |old(lanes)|
      ensures readers[p] == old(readers)[p].(phase := Idle)
    {
      var enqueued := readers[p].phase.which == Add;
      longer := Increment(c, p, others, s, run);
      if enqueued {
        longer := Increment(c, p, others, s, longer);
      }
    }

    /** rte_ring_mp_enqueue of the first packet of the burst, at try k. */
    method Enqueue(c: Config, p: nat, k: nat) returns (ok: bool)
      requires c.fifoWrk == |lanes| > 0 && p < |readers| && readers[p].phase == Offering(k) && readers[p].burst != []
      modifies this
      ensures ok <==> |old(lanes)[Target(c, old(readers)[p].burst[0], p, k)].ring| < c.cap
      ensures |lanes| == |old(lanes)|
      ensures ok ==> lanes[Target(c, old(readers)[p].burst[0], p, k)].ring ==
                     old(lanes)[Target(c, old(readers)[p].burst[0], p, k)].ring + [old(readers)[p].burst[0]]
      ensures ok ==> View() == Apply(c, old(View()), Offer(p))
      ensures !ok ==> View() == old(View())
    {
      var r := readers[p];
      var m := r.burst[0];
      var f := Target(c, m, p, k);
      ok := |lanes[f].ring| < c.cap;
      if ok {
        lanes := lanes[f := lanes[f].(ring := lanes[f].ring + [m], entered := lanes[f].entered + 1)];
        readers := readers[p := r.(burst := r.burst[1..], phase := Due(Add, f))];
        log := log + [Fate(m, p, k)];
      }
    }

    /** rte_pktmbuf_free after the last try, the drop being due to FIFO f. */
    method GiveUp(c: Config, p: nat, f: nat)
      requires f < |lanes| && p < |readers| && readers[p].burst != []
      modifies this
      ensures View() == Refused(old(View()), p, f, Tries(c))
      ensures freed == old(freed) + [old(readers)[p].burst[0]] && readers[p].phase == Due(Drp, f)
    {
      var r := readers[p];
      freed := freed + [r.burst[0]];
      log := log + [Fate(r.burst[0], p, Tries(c))];
      lanes := lanes[f := lanes[f].(refused := lanes[f].refused + 1)];
      readers := readers[p := r.(burst := r.burst[1..], phase := Due(Drp, f))];
    }

    /** The test of the ether type: rx_ipv4 and non_ip are the reader's own. */
    method Classify(c: Config, p: nat) returns (ipv4: bool)
      requires c.fifoWrk == |lanes| > 0 && p < |readers| && readers[p].phase == Idle && readers[p].burst != []
      modifies this
      ensures ipv4 == old(readers)[p].burst[0].ipv4 && View() == Apply(c, old(View()), Begin(p))
      ensures readers[p].rxIpv4 == old(readers)[p].rxIpv4 + (if ipv4 then 1 else 0)
      ensures readers[p].nonIp == old(readers)[p].nonIp + (if ipv4 then 0 else 1)
      ensures freed == old(freed) + (if ipv4 then [] else [old(readers)[p].burst[0]])
    {
      var r := readers[p];
      ipv4 := r.burst[0].ipv4;
      if ipv4 {
        readers := readers[p :=
          r.(rxIpv4 := r.rxIpv4 + 1, phase := if c.policy.Cyclic? then Looking(0) else Offering(0))];
      } else {
        freed := freed + [r.burst[0]];
        readers := readers[p := r.(burst := r.burst[1..], nonIp := r.nonIp + 1)];
      }
    }

    /** The body both loops of the atomic lcore_pktFetch share: hash the packet to its FIFO, enqueue or free
        it, count it. */
    method FetchPacket(c: Config, p: nat, others: Schedule) returns (ghost run: seq<Step>)
      requires c.policy.Hashed? && c.fifoWrk == |lanes| > 0 && Others(ReaderOf(p), others)
      requires p < |readers| && readers[p].phase == Idle && readers[p].burst != []
      modifies this
      ensures View() == After(c, old(View()), run) && Count(run, Begin(p)) == 1
      ensures |readers| == |old(readers)| && |lanes| == |old(lanes)|
      ensures readers[p].phase == Idle && readers[p].burst == old(readers)[p].burst[1..]
    {
      ghost var s := View();
      var m := readers[p].burst[0];
      RunGrows(c, s, [], [], Begin(p), p);
      run := [] + [] + [Begin(p)];
      var ipv4 := Classify(c, p);
      if !ipv4 {
        return;
      }
      ghost var more := Yield(c, p, others);
      RunGrows(c, s, run, more, Offer(p), p);
      run := run + more + [Offer(p)];
      var ok := Enqueue(c, p, 0);
      if !ok {
        GiveUp(c, p, Target(c, m, p, 1));
      }
      run := CountPacket(c, p, others, s, run);
    }

    /** One iteration of the atomic lcore_pktFetch: the loop that prefetches ahead and the loop over the last
        PREFETCH_OFFSET packets together begin every packet of the burst once, in order, and finish it. */
    method FetchBurst(c: Config, p: nat, others: Schedule) returns (ghost run: seq<Step>)
      requires c.policy.Hashed? && c.fifoWrk == |lanes| > 0 && Others(ReaderOf(p), others)
      requires p < |readers| && readers[p].phase == Idle
      modifies this
      ensures View() == After(c, old(View()), run) && Count(run, Begin(p)) == |old(readers)[p].burst|
      ensures |readers| == |old(readers)| && readers[p].phase == Idle && readers[p].burst == []
    {
      ghost var s, bufs := View(), readers[p].burst;
      var nbRx := |readers[p].burst|;
      var j := 0;
      run := [];
      while j < nbRx - PREFETCH_OFFSET
        invariant j <= nbRx && View() == After(c, s, run) && Count(run, Begin(p)) == j
        invariant |readers| == |s.readers| && |lanes| == |s.lanes|
        invariant readers[p].phase == Idle && readers[p].burst == bufs[j..]
      {
        ghost var more := FetchPacket(c, p, others);
        AfterConcat(c, s, run, more);
        CountConcat(run, more, Begin(p));
        run, j := run + more, j + 1;
      }
      while j < nbRx
        invariant j <= nbRx && View() == After(c, s, run) && Count(run, Begin(p)) == j
        invariant |readers| == |s.readers| && |lanes| == |s.lanes|
        invariant readers[p].phase == Idle && readers[p].burst == bufs[j..]
      {
        ghost var more := FetchPacket(c, p, others);
        AfterConcat(c, s, run, more);
        CountConcat(run, more, Begin(p));
        run, j := run + more, j + 1;
      }
    }

    /** The others get their chance, while worker f has a batch in hand. */
    method YieldWorker(c: Config, f: nat, others: Schedule) returns (ghost more: seq<Step>)
      requires Others(WorkerOf(f), others) && f < |lanes|
      modifies this
      ensures NotBy(WorkerOf(f), more) && View() == After(c, old(View()), more)
      ensures |lanes| == |old(lanes)| && lanes[f].batch == old(lanes)[f].batch
    {
      var steps := others(clock);
      OthersKeepBatch(c, View(), f, steps);
      var t := After(c, View(), steps);
      readers, lanes, sent, freed, log := t.readers, t.lanes, t.sent, t.freed, t.log;
      clock := clock + 1;
      return steps;
    }

    /** rte_eth_tx_burst of one packet: it is sent and counted, or freed and counted. */
    method SendPacket(c: Config, f: nat, ok: bool)
      requires c.fifoWrk == |lanes| && f < |lanes| && lanes[f].batch != []
      modifies this
      ensures View() == Apply(c, old(View()), Send(f, ok))
      ensures lanes[f].fls == old(lanes)[f].fls + (if ok then 1 else 0)
      ensures lanes[f].drp == old(lanes)[f].drp + (if ok then 0 else 1)
      ensures sent == old(sent) + (if ok then [Sent(old(lanes)[f].batch[0], f)] else [])
      ensures freed == old(freed) + (if ok then [] else [old(lanes)[f].batch[0]])
    {
      var m := lanes[f].batch[0];
      var lane := lanes[f].(batch := lanes[f].batch[1..]);
      if !ok {
        lanes := lanes[f := lane.(drp := lane.drp + 1)];
        freed := freed + [m];
      } else {
        lanes := lanes[f := lane.(fls := lane.fls + 1)];
        sent := sent + [Sent(m, f)];
      }
    }

    /** rte_ring_dequeue_burst into the worker's empty hands. */
    method DequeueUpTo(c: Config, f: nat) returns (ret: nat)
      requires c.fifoWrk == |lanes| && f < |lanes| && lanes[f].batch == []
      modifies this
      ensures ret == Min(WORKER_BATCH, |old(lanes)[f].ring|) && |lanes| == |old(lanes)| && |lanes[f].batch| == ret
      ensures View() == (if ret > 0 then Apply(c, old(View()), Dequeue(f, ret)) else old(View()))
      ensures lanes[f].batch == old(lanes)[f].ring[..ret] && lanes[f].ring == old(lanes)[f].ring[ret..]
      ensures lanes[f].fet == old(lanes)[f].fet + ret
    {
      var lane := lanes[f];
      ret := Min(WORKER_BATCH, |lane.ring|);
      if ret > 0 {
        lanes := lanes[f := lane.(ring := lane.ring[ret..], batch := lane.ring[..ret], fet := lane.fet + ret)];
      }
    }

    /** The next packet in hand, the others having had their chance. */
    method SendNext(c: Config, f: nat, ok: bool, others: Schedule, ghost s: State, ghost run: seq<Step>)
      returns (ghost longer: seq<Step>)
      requires c.fifoWrk == |lanes| && f < |lanes| && lanes[f].batch != []
      requires Others(WorkerOf(f), others) && View() == After(c, s, run)
      modifies this
      ensures View() == After(c, s, longer) && |lanes| == |old(lanes)|
      ensures lanes[f].batch == old(lanes)[f].batch[1..]
      ensures run <= longer && By(WorkerOf(f), longer) == By(WorkerOf(f), run) + [Send(f, ok)]
    {
      ghost var more := YieldWorker(c, f, others);
      RunProlonged(c, s, run, more, Send(f, ok));
      ByOthers(WorkerOf(f), run, more);
      BySnoc(WorkerOf(f), run + more, Send(f, ok));
      longer := run + more + [Send(f, ok)];
      SendPacket(c, f, ok);
    }

    /** The packets in hand, one by one. */
    method SendBatch(c: Config, f: nat, oks: seq<bool>, others: Schedule, ghost s: State, ghost run: seq<Step>)
      returns (ghost longer: seq<Step>)
      requires c.fifoWrk == |lanes| && f < |lanes| && |lanes[f].batch| <= |oks|
      requires Others(WorkerOf(f), others) && View() == After(c, s, run)
      modifies this
      ensures View() == After(c, s, longer) && |lanes| == |old(lanes)| && lanes[f].batch == [] && run <= longer
      ensures By(WorkerOf(f), longer) == By(WorkerOf(f), run) + Sends(f, oks[..|old(lanes)[f].batch|])
    {
      var ret := |lanes[f].batch|;
      longer := run;
      for i := 0 to ret
        invariant View() == After(c, s, longer) && |lanes| == |old(lanes)| && |lanes[f].batch| == ret - i
        invariant run <= longer && By(WorkerOf(f), longer) == By(WorkerOf(f), run) + Sends(f, oks[..i])
      {
        longer := SendNext(c, f, oks[i], others, s, longer);
        SendsNext(By(WorkerOf(f), run), f, oks, i);
      }
    }

    /** One iteration of lcore_fifoTransmit: up to WORKER_BATCH packets are dequeued at once, and each is sent or
        freed as the port decides, in order; these are the worker's only steps. */
    method TransmitBatch(c: Config, f: nat, oks: seq<bool>, others: Schedule) returns (ghost run: seq<Step>)
      requires c.fifoWrk == |lanes| && f < |lanes| && lanes[f].batch == [] && |oks| == WORKER_BATCH
      requires Others(WorkerOf(f), others)
      modifies this
      ensures View() == After(c, old(View()), run) && |lanes| == |old(lanes)| && lanes[f].batch == []
      ensures var ret := Min(WORKER_BATCH, |old(lanes)[f].ring|);
        && By(WorkerOf(f), run) == (if ret > 0 then [Dequeue(f, ret)] else []) + Sends(f, oks[..ret])
        && (ret > 0 ==> run[0] == Dequeue(f, ret))
    {
      ghost var s := View();
      run := [];
      var ret := DequeueUpTo(c, f);
      if ret > 0 {
        AfterSnoc(c, s, run, Dequeue(f, ret));
        BySnoc(WorkerOf(f), run, Dequeue(f, ret));
        run := run + [Dequeue(f, ret)];
      }
      run := SendBatch(c, f, oks, others, s, run);
    }
  }
}

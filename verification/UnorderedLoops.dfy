/**
 The reader of the unordered distributor (lcore_pktFetch, main_unordered_nosqm.c): its do-while loop over the
 FIFOs for one packet, with the other lcores going on between the test of a ring and the enqueue into it, and
 between one ring and the next.
 */
module UnorderedLoops {
  import opened Sequences
  import opened Distributor
  import opened DistributorLoops
  import U = UnorderedDistributor

  /** The step that is still to be recorded when the last try has missed: the test, or the enqueue. */
  ghost predicate LastMiss(c: Config, s: State, p: nat, miss: Step) {
    && (miss == Look(p) || miss == Offer(p)) && Enabled(c, s, miss)
    && s.readers[p].phase.k + 1 == Tries(c) && !Room(c, s, p, s.readers[p].phase.k)
  }

  /** The state of the search after some tries: the packet placed; or the next try ahead; or all tries missed,
      the last one found to do so but not yet acted on. */
  ghost predicate Searching(c: Config, s: State, p: nat, burst: seq<Mbuf>, placed: bool, k: nat, miss: Step) {
    && p < |s.readers| && c.fifoWrk == |s.lanes| > 0 && burst != []
    && (placed ==> s.readers[p].phase.Due? && s.readers[p].phase.which == Add && s.readers[p].phase.f < |s.lanes|
                   && s.readers[p].burst == burst[1..])
    && (!placed ==> s.readers[p].burst == burst)
    && (!placed && k < Tries(c) ==> s.readers[p].phase == Looking(k))
    && (!placed && k >= Tries(c) ==> LastMiss(c, s, p, miss))
  }

  lemma {:induction false} MissMoves(c: Config, s: State, p: nat, k: nat, miss: Step)
    requires (miss == Look(p) || miss == Offer(p)) && Enabled(c, s, miss) && s.readers[p].phase.k == k
    requires !Room(c, s, p, k) && k + 1 < Tries(c)
    ensures Apply(c, s, miss) == WithPhase(s, p, Looking(k + 1))
  {
  }

  lemma {:induction false} SearchMoved(c: Config, s: State, p: nat, k: nat)
    requires p < |s.readers| && c.fifoWrk == |s.lanes| > 0 && k < Tries(c) && s.readers[p].burst != []
    ensures Searching(c, WithPhase(s, p, Looking(k)), p, s.readers[p].burst, false, k, Look(p))
  {
  }

  /** Try k has missed: the search goes on at the next FIFO, unless this was the last. */
  method NextFifo(prog: Program, c: Config, p: nat, k: nat, ghost miss: Step, ghost s: State, ghost run: seq<Step>)
    returns (ghost longer: seq<Step>)
    requires c.fifoWrk == |prog.lanes| > 0 && p < |prog.readers| && k < Tries(c) && prog.View() == After(c, s, run)
    requires miss == Look(p) || miss == Offer(p)
    requires Enabled(c, prog.View(), miss) && prog.readers[p].phase.k == k && !Room(c, prog.View(), p, k)
    modifies prog
    ensures prog.View() == After(c, s, longer) && Count(longer, Begin(p)) == Count(run, Begin(p))
    ensures |prog.lanes| == |old(prog.lanes)| && |prog.readers| == |old(prog.readers)|
    ensures Searching(c, prog.View(), p, old(prog.readers)[p].burst, false, k + 1, miss)
  {
    longer := run;
    if k + 1 < Tries(c) {
      MissMoves(c, prog.View(), p, k, miss);
      SearchMoved(c, prog.View(), p, k + 1);
      RunGrows(c, s, run, [], miss, p);
      longer := run + [] + [miss];
      prog.SetPhase(p, Looking(k + 1));
    }
  }

  /** The run so far, prolonged by what others did. */
  lemma {:induction false} RunWaits(c: Config, s: State, run: seq<Step>, more: seq<Step>, p: nat)
    requires NotBy(ReaderOf(p), more)
    ensures After(c, s, run + more) == After(c, After(c, s, run), more)
    ensures Count(run + more, Begin(p)) == Count(run, Begin(p))
  {
    AfterConcat(c, s, run, more);
    OthersBeginNothing(p, more);
    CountConcat(run, more, Begin(p));
  }

  /** rte_ring_full, and in the program order what follows from it: on to the enqueue. */
  method TestRing(prog: Program, c: Config, p: nat, fifoIndex: nat) returns (full: bool)
    requires c.policy.Cyclic? && c.fifoWrk == |prog.lanes| > 0 && p < |prog.readers|
    requires prog.readers[p].phase.Looking? && prog.readers[p].burst != []
    requires fifoIndex == U.ProbeAt(c.fifoWrk, p, prog.readers[p].phase.k)
    modifies prog
    ensures full <==> |old(prog.lanes)[fifoIndex].ring| >= c.cap
    ensures full == !Room(c, old(prog.View()), p, old(prog.readers)[p].phase.k)
    ensures full ==> prog.View() == old(prog.View())
    ensures !full ==> prog.View() == Apply(c, old(prog.View()), Look(p))
    ensures !full ==> |prog.readers| == |old(prog.readers)| && prog.lanes == old(prog.lanes)
    ensures !full ==> prog.readers[p] == old(prog.readers)[p].(phase := Offering(old(prog.readers)[p].phase.k))
  {
    full := |prog.lanes[fifoIndex].ring| >= c.cap;
    if !full {
      prog.readers := prog.readers[p := prog.readers[p].(phase := Offering(prog.readers[p].phase.k))];
    }
  }

  /** One turn of the do-while loop: test the ring, enqueue if it is not full, move on otherwise. */
  method TryFifo(prog: Program, c: Config, p: nat, fifoIndex: nat, others: Schedule, ghost s: State,
                 ghost run: seq<Step>)
    returns (placed: bool, ghost longer: seq<Step>, ghost miss: Step)
    requires c.policy.Cyclic? && c.fifoWrk == |prog.lanes| > 0 && p < |prog.readers|
    requires prog.readers[p].phase.Looking? && prog.readers[p].phase.k < Tries(c) && prog.readers[p].burst != []
    requires fifoIndex == U.ProbeAt(c.fifoWrk, p, prog.readers[p].phase.k)
    requires Others(ReaderOf(p), others) && prog.View() == After(c, s, run)
    modifies prog
    ensures prog.View() == After(c, s, longer) && Count(longer, Begin(p)) == Count(run, Begin(p))
    ensures |prog.lanes| == |old(prog.lanes)| && |prog.readers| == |old(prog.readers)|
    ensures Searching(c, prog.View(), p, old(prog.readers)[p].burst, placed, old(prog.readers)[p].phase.k + 1, miss)
  {
    var k := prog.readers[p].phase.k;
    ghost var more := prog.Yield(c, p, others);
    RunWaits(c, s, run, more, p);
    longer := run + more;
    var full := TestRing(prog, c, p, fifoIndex);
    placed, miss := false, Look(p);
    if full {
      longer := NextFifo(prog, c, p, k, miss, s, longer);
      return;
    }
    RunGrows(c, s, longer, [], Look(p), p);
    longer := longer + [] + [Look(p)];
    placed, longer := OfferFifo(prog, c, p, others, s, longer);
    miss := Offer(p);
  }

  /** rte_ring_mp_enqueue into the ring that was not full a moment ago. */
  method OfferFifo(prog: Program, c: Config, p: nat, others: Schedule, ghost s: State, ghost run: seq<Step>)
    returns (placed: bool, ghost longer: seq<Step>)
    requires c.policy.Cyclic? && c.fifoWrk == |prog.lanes| > 0 && p < |prog.readers|
    requires prog.readers[p].phase.Offering? && prog.readers[p].phase.k < Tries(c) && prog.readers[p].burst != []
    requires Others(ReaderOf(p), others) && prog.View() == After(c, s, run)
    modifies prog
    ensures prog.View() == After(c, s, longer) && Count(longer, Begin(p)) == Count(run, Begin(p))
    ensures |prog.lanes| == |old(prog.lanes)| && |prog.readers| == |old(prog.readers)|
    ensures Searching(c, prog.View(), p, old(prog.readers)[p].burst, placed, old(prog.readers)[p].phase.k + 1, Offer(p))
  {
    var k := prog.readers[p].phase.k;
    ghost var more := prog.Yield(c, p, others);
    RunWaits(c, s, run, more, p);
    longer := run + more;
    placed := prog.Enqueue(c, p, k);
    if placed {
      RunGrows(c, s, longer, [], Offer(p), p);
      longer := longer + [] + [Offer(p)];
    } else {
      longer := NextFifo(prog, c, p, k, Offer(p), s, longer);
    }
  }

  /** The FIFO to try next. */
  method NextIndex(fifoWrk: nat, ghost rxport: nat, fifoIndex: nat, ghost k: nat) returns (next: nat)
    requires rxport < fifoWrk && k < fifoWrk && fifoIndex == U.ProbeAt(fifoWrk, rxport, k)
    ensures next == U.ProbeAt(fifoWrk, rxport, k + 1)
  {
    U.NextProbe(fifoWrk, rxport, k);
    next := (fifoIndex + 1) % fifoWrk;
  }

  /** The do-while loop over the FIFOs for one packet. */
  method SearchFifo(prog: Program, c: Config, rxport: nat, others: Schedule, ghost s: State, ghost run: seq<Step>)
    returns (placed: bool, fifoIndex: nat, ghost longer: seq<Step>, ghost miss: Step)
    requires c.policy.Cyclic? && c.fifoWrk == |prog.lanes| && rxport < c.fifoWrk && rxport < |prog.readers|
    requires prog.readers[rxport].phase == Looking(0) && prog.readers[rxport].burst != []
    requires Others(ReaderOf(rxport), others) && prog.View() == After(c, s, run)
    modifies prog
    ensures prog.View() == After(c, s, longer) && Count(longer, Begin(rxport)) == Count(run, Begin(rxport))
    ensures |prog.lanes| == |old(prog.lanes)| && |prog.readers| == |old(prog.readers)|
    ensures Searching(c, prog.View(), rxport, old(prog.readers)[rxport].burst, placed, Tries(c), miss)
    ensures !placed ==> fifoIndex == rxport
  {
    ghost var burst := prog.readers[rxport].burst;
    var fifoCnt := c.fifoWrk;
    ghost var k := 0;
    placed, fifoIndex, longer, miss := false, rxport, run, Look(rxport);
    U.ProbeEnds(c.fifoWrk, rxport);
    while fifoCnt > 0
      invariant !placed && fifoCnt + k == c.fifoWrk == |prog.lanes| && |prog.readers| == |old(prog.readers)|
      invariant prog.View() == After(c, s, longer) && Count(longer, Begin(rxport)) == Count(run, Begin(rxport))
      invariant Searching(c, prog.View(), rxport, burst, false, k, miss)
      invariant fifoIndex == U.ProbeAt(c.fifoWrk, rxport, k)
      decreases fifoCnt
    {
      placed, longer, miss := TryFifo(prog, c, rxport, fifoIndex, others, s, longer);
      if placed {
        break;
      }
      fifoIndex := NextIndex(c.fifoWrk, rxport, fifoIndex, k);
      fifoCnt, k := fifoCnt - 1, k + 1;
    }
  }

  /** After the last try: the packet is freed and the drop charged to the FIFO the search is back at. */
  method FreePacket(prog: Program, c: Config, rxport: nat, fifoIndex: nat, ghost miss: Step, ghost s: State,
                    ghost run: seq<Step>)
    returns (ghost longer: seq<Step>)
    requires c.policy.Cyclic? && c.fifoWrk == |prog.lanes| && rxport == fifoIndex < c.fifoWrk
    requires rxport < |prog.readers| && prog.readers[rxport].burst != []
    requires LastMiss(c, prog.View(), rxport, miss) && prog.View() == After(c, s, run)
    modifies prog
    ensures prog.View() == After(c, s, longer) && Count(longer, Begin(rxport)) == Count(run, Begin(rxport))
    ensures |prog.readers| == |old(prog.readers)| && |prog.lanes| == |old(prog.lanes)|
    ensures prog.readers[rxport].phase == Due(Drp, fifoIndex)
    ensures prog.readers[rxport].burst == old(prog.readers)[rxport].burst[1..]
  {
    U.ProbeEnds(c.fifoWrk, rxport);
    RunGrows(c, s, run, [], miss, rxport);
    longer := run + [] + [miss];
    LastMissFrees(c, prog.View(), rxport, miss);
    prog.GiveUp(c, rxport, fifoIndex);
  }

  lemma {:induction false} LastMissFrees(c: Config, s: State, p: nat, miss: Step)
    requires c.policy.Cyclic? && p < c.fifoWrk && LastMiss(c, s, p, miss)
    ensures Apply(c, s, miss) == Refused(s, p, U.ProbeAt(c.fifoWrk, p, c.fifoWrk), Tries(c))
  {
  }

  /** One packet of the burst: it ends in a FIFO, or it is freed and the drop charged to the FIFO of rxport. */
  method PlacePacket(prog: Program, c: Config, rxport: nat, others: Schedule) returns (ghost run: seq<Step>)
    requires c.policy.Cyclic? && c.fifoWrk == |prog.lanes| && rxport < c.fifoWrk && Others(ReaderOf(rxport), others)
    requires rxport < |prog.readers| && prog.readers[rxport].phase == Idle && prog.readers[rxport].burst != []
    modifies prog
    ensures prog.View() == After(c, old(prog.View()), run) && Count(run, Begin(rxport)) == 1
    ensures |prog.readers| == |old(prog.readers)| && |prog.lanes| == |old(prog.lanes)|
    ensures prog.readers[rxport].phase == Idle && prog.readers[rxport].burst == old(prog.readers)[rxport].burst[1..]
  {
    ghost var s := prog.View();
    RunGrows(c, s, [], [], Begin(rxport), rxport);
    run := [] + [] + [Begin(rxport)];
    var ipv4 := prog.Classify(c, rxport);
    if !ipv4 {
      return;
    }
    var placed, fifoIndex;
    ghost var miss;
    placed, fifoIndex, run, miss := SearchFifo(prog, c, rxport, others, s, run);
    if !placed {
      run := FreePacket(prog, c, rxport, fifoIndex, miss, s, run);
    }
    run := prog.CountPacket(c, rxport, others, s, run);
  }

  /** One iteration of the unordered lcore_pktFetch: the prefetching loop and the loop over the last packets
      begin each index of the burst once, in order, and finish it. */
  method FetchBurst(prog: Program, c: Config, rxport: nat, others: Schedule) returns (ghost run: seq<Step>)
    requires c.policy.Cyclic? && c.fifoWrk == |prog.lanes| && rxport < c.fifoWrk && Others(ReaderOf(rxport), others)
    requires rxport < |prog.readers| && prog.readers[rxport].phase == Idle
    modifies prog
    ensures prog.View() == After(c, old(prog.View()), run)
    ensures Count(run, Begin(rxport)) == |old(prog.readers)[rxport].burst|
    ensures |prog.readers| == |old(prog.readers)| && prog.readers[rxport].phase == Idle
    ensures prog.readers[rxport].burst == []
  {
    ghost var s, bufs := prog.View(), prog.readers[rxport].burst;
    var nbRx := |prog.readers[rxport].burst|;
    var j := 0;
    run := [];
    while j < nbRx - PREFETCH_OFFSET
      invariant j <= nbRx && prog.View() == After(c, s, run) && Count(run, Begin(rxport)) == j
      invariant |prog.readers| == |s.readers| && |prog.lanes| == |s.lanes|
      invariant prog.readers[rxport].phase == Idle && prog.readers[rxport].burst == bufs[j..]
    {
      ghost var more := PlacePacket(prog, c, rxport, others);
      AfterConcat(c, s, run, more);
      CountConcat(run, more, Begin(rxport));
      run, j := run + more, j + 1;
    }
    while j < nbRx
      invariant j <= nbRx && prog.View() == After(c, s, run) && Count(run, Begin(rxport)) == j
      invariant |prog.readers| == |s.readers| && |prog.lanes| == |s.lanes|
      invariant prog.readers[rxport].phase == Idle && prog.readers[rxport].burst == bufs[j..]
    {
      ghost var more := PlacePacket(prog, c, rxport, others);
      AfterConcat(c, s, run, more);
      CountConcat(run, more, Begin(rxport));
      run, j := run + more, j + 1;
    }
  }
}

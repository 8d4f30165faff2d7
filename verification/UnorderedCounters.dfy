/**
 The shared counters of the unordered distributor. A reader takes its packet to another reader's FIFO only if its
 own is full, so two readers increment one counter only if rings hold packets at all.
 */
module UnorderedCounters {
  import opened SharedCounter
  import opened Distributor
  import opened DistributorCounters
  import opened UnorderedDistributor

  /* ---------------------------------------------------------------- rings without room */

  /** Every reader only ever owes the drops of the FIFO of its own port. */
  ghost predicate OwnDropsOnly(s: State) {
    forall p :: 0 <= p < |s.readers| ==>
      var phase := s.readers[p].phase;
      !phase.Offering? && (phase.Due? || phase.Loaded? ==> phase.which == Drp && phase.f == p)
  }

  /** The drop of a packet of port p is due to FIFO p. */
  lemma {:induction false} ChargedHome(c: Config, m: Mbuf, p: nat)
    requires c.policy.Cyclic? && p < c.fifoWrk
    ensures Target(c, m, p, Tries(c)) == p
  {
    ProbesCoverAll(c.fifoWrk, p);
    assert Target(c, m, p, Tries(c)) == ProbeAt(c.fifoWrk, p, c.fifoWrk);
  }

  lemma {:induction false} StepKeepsOwnDrops(c: Config, s: State, step: Step)
    requires c.policy.Cyclic? && c.cap == 0 && |s.readers| <= c.fifoWrk && OwnDropsOnly(s)
    ensures OwnDropsOnly(Apply(c, s, step))
  {
    if Enabled(c, s, step) && step.Look? {
      ChargedHome(c, s.readers[step.p].burst[0], step.p);
    }
  }

  lemma {:induction false} RunKeepsOwnDrops(c: Config, ports: nat, run: seq<Step>)
    requires c.policy.Cyclic? && c.cap == 0 && ports <= c.fifoWrk
    ensures OwnDropsOnly(After(c, Init(c, ports), run))
    decreases |run|
  {
    if run != [] {
      RunKeepsOwnDrops(c, ports, run[..|run| - 1]);
      RunKeepsShape(c, Init(c, ports), run[..|run| - 1]);
      StepKeepsOwnDrops(c, After(c, Init(c, ports), run[..|run| - 1]), run[|run| - 1]);
    }
  }

  /** So no two readers have the same counter in hand. */
  lemma {:induction false} NoRoomIsLossless(c: Config, ports: nat, s: State)
    requires Reachable(c, ports, s) && c.policy.Cyclic? && c.cap == 0 && ports <= c.fifoWrk
    ensures Lossless(s)
  {
    var run :| s == After(c, Init(c, ports), run);
    forall i | 0 <= i < |run| ensures !Overlaps(c, After(c, Init(c, ports), run[..i]), run[i]) {
      RunKeepsOwnDrops(c, ports, run[..i]);
    }
    SeparateRunIsLossless(c, ports, run);
  }

  /* ---------------------------------------------------------------- a lost update */

  /** The k-th packet of port 0. */
  function Filler(k: nat): Mbuf {
    Mbuf(k, 0, true, 0, 0)
  }

  /** The packet of port 1 that meets one of port 0, after n packets of that port. */
  function Meeting(n: nat): Mbuf {
    Mbuf(n, 1, true, 0, 0)
  }

  ghost predicate TwoFifos(c: Config, s: State) {
    && c.policy.Cyclic? && |s.lanes| == c.fifoWrk >= 2 && |s.readers| >= 2
  }

  /** Only port 0 has delivered packets, n at most; FIFO 1 is empty and the other readers have nothing to do. */
  ghost predicate Quiet(c: Config, s: State, n: nat) {
    && TwoFifos(c, s) && s.lanes[1].ring == [] && s.lanes[1].batch == []
    && (forall i :: 0 <= i < |s.readers[0].recv| ==> s.readers[0].recv[i].id < n)
    && (forall p :: 1 <= p < |s.readers| ==>
          s.readers[p].phase == Idle && s.readers[p].burst == [] && s.readers[p].recv == [])
  }

  /** FIFO 0 holds k packets and reader 0 stands at this phase of this burst. */
  ghost predicate Filling(c: Config, s: State, n: nat, k: nat, phase: Phase, burst: seq<Mbuf>) {
    && Quiet(c, s, n) && |s.lanes[0].ring| == k && s.readers[0].phase == phase && s.readers[0].burst == burst
  }

  /** Port 0 has delivered k packets, all of which are in FIFO 0. */
  ghost predicate Filled(c: Config, s: State, k: nat) {
    Filling(c, s, k, k, Idle, [])
  }

  lemma {:induction false} FirstTargets(c: Config, m: Mbuf)
    requires c.policy.Cyclic? && c.fifoWrk >= 2
    ensures Target(c, m, 0, 0) == 0 && Target(c, m, 0, 1) == 1 == Target(c, m, 1, 0)
  {
  }

  lemma {:induction false} ReachReceived(c: Config, ports: nat, s: State, k: nat) returns (t: State)
    requires Reachable(c, ports, s) && Filled(c, s, k)
    ensures Reachable(c, ports, t) && Filling(c, t, k + 1, k, Idle, [Filler(k)])
  {
    t := ReachableNext(c, ports, s, Receive(Filler(k)));
  }

  lemma {:induction false} ReachOffered(c: Config, ports: nat, s: State, k: nat) returns (t: State)
    requires Reachable(c, ports, s) && Filling(c, s, k + 1, k, Idle, [Filler(k)]) && k < c.cap
    ensures Reachable(c, ports, t) && Filling(c, t, k + 1, k, Offering(0), [Filler(k)])
  {
    FirstTargets(c, Filler(k));
    t := ReachableNext(c, ports, s, Begin(0));
    t := ReachableNext(c, ports, t, Look(0));
  }

  lemma {:induction false} ReachEntered(c: Config, ports: nat, s: State, k: nat) returns (t: State)
    requires Reachable(c, ports, s) && Filling(c, s, k + 1, k, Offering(0), [Filler(k)]) && k < c.cap
    ensures Reachable(c, ports, t) && Filling(c, t, k + 1, k + 1, Due(Add, 0), [])
  {
    FirstTargets(c, Filler(k));
    t := ReachableNext(c, ports, s, Offer(0));
  }

  /** An increment changes a counter only. */
  lemma {:induction false} ReachCounted(c: Config, ports: nat, s: State, k: nat, which: Which) returns (t: State)
    requires Reachable(c, ports, s) && Filling(c, s, k, k, Due(which, 0), [])
    ensures Reachable(c, ports, t) && Filling(c, t, k, k, AfterStore(which, 0), [])
  {
    t := ReachableNext(c, ports, s, Load(0));
    var reg := t.readers[0].phase.reg;
    assert Filling(c, t, k, k, Loaded(which, 0, reg), []);
    t := ReachStored(c, ports, t, k, which, reg);
  }

  lemma {:induction false} ReachStored(c: Config, ports: nat, s: State, k: nat, which: Which, reg: Register)
    returns (t: State)
    requires Reachable(c, ports, s) && Filling(c, s, k, k, Loaded(which, 0, reg), [])
    ensures Reachable(c, ports, t) && Filling(c, t, k, k, AfterStore(which, 0), [])
  {
    t := ReachableNext(c, ports, s, Store(0));
  }

  /** FIFO 0 can be filled to any level. */
  lemma {:induction false} ReachFilled(c: Config, ports: nat, k: nat) returns (s: State)
    requires c.policy.Cyclic? && 2 <= ports && 2 <= c.fifoWrk && k <= c.cap
    ensures Reachable(c, ports, s) && Filled(c, s, k)
  {
    if k == 0 {
      s := Init(c, ports);
      assert s == After(c, s, []);
    } else {
      s := ReachFilled(c, ports, k - 1);
      s := ReachReceived(c, ports, s, k - 1);
      s := ReachOffered(c, ports, s, k - 1);
      s := ReachEntered(c, ports, s, k - 1);
      s := ReachCounted(c, ports, s, k, Add);
      s := ReachCounted(c, ports, s, k, Pkts);
    }
  }

  /** Readers 0 and 1 stand at these phases with a packet each; FIFO 0 is full. */
  ghost predicate Meet(c: Config, s: State, first: Phase, second: Phase) {
    && TwoFifos(c, s) && c.cap > 0 && |s.lanes[0].ring| == c.cap
    && s.lanes[1].ring == [] && s.lanes[1].batch == []
    && s.readers[0].phase == first && s.readers[0].burst == [Filler(c.cap)]
    && s.readers[1].phase == second && s.readers[1].burst == [Meeting(c.cap + 1)]
  }

  lemma {:induction false} ReachBothWait(c: Config, ports: nat, s: State) returns (t: State)
    requires Reachable(c, ports, s) && Filled(c, s, c.cap) && c.cap > 0
    ensures Reachable(c, ports, t) && Meet(c, t, Idle, Idle)
  {
    t := ReachReceived(c, ports, s, c.cap);
    t := ReachableNext(c, ports, t, Receive(Meeting(c.cap + 1)));
  }

  /** Reader 0 finds its own FIFO full and moves on. */
  lemma {:induction false} ReachSecondTry(c: Config, ports: nat, s: State) returns (t: State)
    requires Reachable(c, ports, s) && Meet(c, s, Idle, Idle)
    ensures Reachable(c, ports, t) && Meet(c, t, Offering(1), Idle)
  {
    FirstTargets(c, Filler(c.cap));
    t := ReachableNext(c, ports, s, Begin(0));
    assert Meet(c, t, Looking(0), Idle);
    t := ReachableNext(c, ports, t, Look(0));
    t := ReachableNext(c, ports, t, Look(0));
  }

  lemma {:induction false} ReachBothOfferOne(c: Config, ports: nat, s: State) returns (t: State)
    requires Reachable(c, ports, s) && Meet(c, s, Offering(1), Idle)
    ensures Reachable(c, ports, t) && Meet(c, t, Offering(1), Offering(0))
  {
    FirstTargets(c, Meeting(c.cap + 1));
    t := ReachableNext(c, ports, s, Begin(1));
    t := ReachableNext(c, ports, t, Look(1));
  }

  /** Both packets enter FIFO 1, a worker making room in between. */
  lemma {:induction false} ReachBothDueOne(c: Config, ports: nat, s: State) returns (t: State)
    requires Reachable(c, ports, s) && Meet(c, s, Offering(1), Offering(0))
    ensures Reachable(c, ports, t) && BothDue(c, t, Add, 1)
  {
    FirstTargets(c, Filler(c.cap));
    FirstTargets(c, Meeting(c.cap + 1));
    t := ReachableNext(c, ports, s, Offer(0));
    t := ReachableNext(c, ports, t, Dequeue(1, 1));
    t := ReachableNext(c, ports, t, Offer(1));
  }

  /** With two readers and rings that hold packets the unordered program, too, reaches a state in which an update
      is lost: a packet of port 0 whose own FIFO is full meets one of port 1 in FIFO 1. */
  lemma {:induction false} ProbingLoses(c: Config, ports: nat) returns (s: State)
    requires c.policy.Cyclic? && c.cap > 0 && 2 <= ports && 2 <= c.fifoWrk
    ensures Reachable(c, ports, s) && 1 < |s.lanes|
    ensures s.lanes[1].added.value + Owing(s.readers, Add, 1) < s.lanes[1].entered
  {
    s := ReachFilled(c, ports, c.cap);
    s := ReachBothWait(c, ports, s);
    s := ReachSecondTry(c, ports, s);
    s := ReachBothOfferOne(c, ports, s);
    s := ReachBothDueOne(c, ports, s);
    s := OverlapLoses(c, ports, s, Add, 1);
    CountersBalance(c, ports, s);
    assert CounterOf(s.lanes[1], Add).disturbed;
  }

  /** The shared counters of an unordered distributor are right in every state of every run exactly if the
      socket has at most one reader or its rings hold nothing. */
  lemma {:induction false} CountersRightIff(c: Config, ports: nat)
    requires c.policy.Cyclic? && 0 < c.fifoWrk && ports <= c.fifoWrk
    ensures (forall s: State :: Reachable(c, ports, s) ==> AllCounted(s)) <==> ports <= 1 || c.cap == 0
  {
    if ports <= 1 || c.cap == 0 {
      forall s: State | Reachable(c, ports, s) ensures AllCounted(s) {
        if ports <= 1 {
          OneReaderIsLossless(c, ports, s);
        } else {
          NoRoomIsLossless(c, ports, s);
        }
        LosslessIsCounted(c, ports, s);
      }
    } else {
      var s := ProbingLoses(c, ports);
    }
  }
}

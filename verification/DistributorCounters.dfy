/**
 The statistics of the distributors. The counters of a FIFO that its readers share are incremented after the
 ring has been changed, by a load and a store that other readers may come between.
 */
module DistributorCounters {
  import opened Distributor
  import opened DistributorRuns

  /** The reader still has to increment the counter for a packet it has already dealt with. */
  predicate Owes(phase: Phase, which: Which, f: nat) {
    && (phase.Due? || phase.Loaded?)
    && phase.f == f && (phase.which == which || (phase.which == Add && which == Pkts))
  }

  /** How many increments of a counter are pending. */
  function Owing(rs: seq<Reader>, which: Which, f: nat): nat {
    if rs == [] then 0 else (if Owes(rs[0].phase, which, f) then 1 else 0) + Owing(rs[1..], which, f)
  }

  lemma {:induction false} OwingUpdate(rs: seq<Reader>, p: nat, r: Reader, which: Which, f: nat)
    requires p < |rs|
    ensures Owing(rs[p := r], which, f) + (if Owes(rs[p].phase, which, f) then 1 else 0)
         == Owing(rs, which, f) + (if Owes(r.phase, which, f) then 1 else 0)
  {
    if p == 0 {
      assert rs[p := r][1..] == rs[1..];
    } else {
      OwingUpdate(rs[1..], p - 1, r, which, f);
      assert rs[p := r][1..] == rs[1..][p - 1 := r];
    }
  }

  lemma {:induction false} NobodyOwes(rs: seq<Reader>, which: Which, f: nat)
    requires forall p :: 0 <= p < |rs| ==> !Owes(rs[p].phase, which, f)
    ensures Owing(rs, which, f) == 0
  {
    if rs != [] {
      NobodyOwes(rs[1..], which, f);
    }
  }

  /** What a counter is meant to count: packets enqueued, or packets refused. */
  function Total(lane: Lane, which: Which): nat {
    if which == Drp then lane.refused else lane.entered
  }

  /** Each increment has been stored or is still owed. */
  ghost predicate Balanced(s: State, which: Which, f: nat)
    requires f < |s.lanes|
  {
    CounterOf(s.lanes[f], which).stores + Owing(s.readers, which, f) == Total(s.lanes[f], which)
  }

  lemma {:induction false} EnteredKeepsBalance(s: State, p: nat, g: nat, k: nat, which: Which, f: nat)
    requires p < |s.readers| && s.readers[p].burst != [] && g < |s.lanes| && f < |s.lanes| && Balanced(s, which, f)
    requires Probing(s.readers[p].phase)
    ensures Balanced(Entered(s, p, g, k), which, f)
  {
    OwingUpdate(s.readers, p, Entered(s, p, g, k).readers[p], which, f);
  }

  lemma {:induction false} MissedKeepsBalance(c: Config, s: State, p: nat, k: nat, which: Which, f: nat)
    requires c.fifoWrk == |s.lanes| > 0 && p < |s.readers| && s.readers[p].burst != []
    requires f < |s.lanes| && Balanced(s, which, f) && Probing(s.readers[p].phase)
    ensures Balanced(Missed(c, s, p, k), which, f)
  {
    OwingUpdate(s.readers, p, Missed(c, s, p, k).readers[p], which, f);
  }

  lemma {:induction false} StoreKeepsBalance(c: Config, s: State, p: nat, which: Which, f: nat)
    requires Enabled(c, s, Store(p)) && f < |s.lanes| && Balanced(s, which, f)
    ensures Balanced(StoredCounter(c, s, p), which, f)
  {
    OwingUpdate(s.readers, p, StoredCounter(c, s, p).readers[p], which, f);
  }

  lemma {:induction false} ReaderKeepsBalance(c: Config, s: State, step: Step, which: Which, f: nat)
    requires Enabled(c, s, step) && (step.Receive? || step.Begin? || step.Load?)
    requires f < |s.lanes| && Balanced(s, which, f)
    ensures Balanced(Apply(c, s, step), which, f)
  {
    var p := ActorOf(step).p;
    OwingUpdate(s.readers, p, Apply(c, s, step).readers[p], which, f);
  }

  lemma {:induction false} ProbeKeepsBalance(c: Config, s: State, step: Step, which: Which, f: nat)
    requires Enabled(c, s, step) && (step.Look? || step.Offer?) && f < |s.lanes| && Balanced(s, which, f)
    ensures Balanced(Apply(c, s, step), which, f)
  {
    var p := step.p;
    var k := s.readers[p].phase.k;
    if !Room(c, s, p, k) {
      MissedKeepsBalance(c, s, p, k, which, f);
    } else if step.Offer? {
      EnteredKeepsBalance(s, p, Target(c, s.readers[p].burst[0], p, k), k, which, f);
    } else {
      OwingUpdate(s.readers, p, Looked(c, s, p).readers[p], which, f);
    }
  }

  lemma {:induction false} StepKeepsBalance(c: Config, s: State, step: Step, which: Which, f: nat)
    requires f < |s.lanes| && Balanced(s, which, f)
    ensures |Apply(c, s, step).lanes| == |s.lanes| && Balanced(Apply(c, s, step), which, f)
  {
    StepKeepsShape(c, s, step);
    if Enabled(c, s, step) {
      if step.Receive? || step.Begin? || step.Load? {
        ReaderKeepsBalance(c, s, step, which, f);
      } else if step.Look? || step.Offer? {
        ProbeKeepsBalance(c, s, step, which, f);
      } else if step.Store? {
        StoreKeepsBalance(c, s, step.p, which, f);
      }
    }
  }

  lemma {:induction false} RunKeepsBalance(c: Config, s: State, run: seq<Step>, which: Which, f: nat)
    requires f < |s.lanes| && Balanced(s, which, f)
    ensures |After(c, s, run).lanes| == |s.lanes| && Balanced(After(c, s, run), which, f)
    decreases |run|
  {
    if run != [] {
      RunKeepsBalance(c, s, run[..|run| - 1], which, f);
      StepKeepsBalance(c, After(c, s, run[..|run| - 1]), run[|run| - 1], which, f);
    }
  }

  lemma {:induction false} ReachableBalance(c: Config, ports: nat, s: State, which: Which, f: nat)
    requires Reachable(c, ports, s) && f < c.fifoWrk
    ensures |s.lanes| == c.fifoWrk && Balanced(s, which, f)
  {
    var run :| s == After(c, Init(c, ports), run);
    NobodyOwes(Init(c, ports).readers, which, f);
    RunKeepsBalance(c, Init(c, ports), run, which, f);
  }

  /** The counters in every reachable state. Those of one lcore balance exactly. A shared one, with the
      increments still owed, never exceeds what it counts, and equals it exactly if no store has come after
      another since its own load; the difference is the number of updates lost. */
  lemma {:induction false} CountersBalance(c: Config, ports: nat, s: State)
    requires Reachable(c, ports, s)
    ensures |s.lanes| == c.fifoWrk
    ensures forall f, which :: 0 <= f < |s.lanes| ==>
              var x, owing, total := CounterOf(s.lanes[f], which), Owing(s.readers, which, f), Total(s.lanes[f], which);
              x.value + owing <= total && (x.value + owing == total <==> !x.disturbed)
    ensures forall f :: 0 <= f < |s.lanes| ==>
              && s.lanes[f].entered == s.lanes[f].fet + |s.lanes[f].ring|
              && s.lanes[f].fet == s.lanes[f].fls + s.lanes[f].drp + |s.lanes[f].batch|
    ensures forall p :: 0 <= p < |s.readers| ==>
              |s.readers[p].recv| + (if Probing(s.readers[p].phase) then 1 else 0)
              == s.readers[p].rxIpv4 + s.readers[p].nonIp + |s.readers[p].burst|
  {
    ReachableInv(c, ports, s);
    forall f | 0 <= f < |s.lanes| ensures LaneOk(c, s.lanes[f], f) {
    }
    forall f, which | 0 <= f < |s.lanes|
      ensures var x, owing, total := CounterOf(s.lanes[f], which), Owing(s.readers, which, f), Total(s.lanes[f], which);
        x.value + owing <= total && (x.value + owing == total <==> !x.disturbed)
    {
      assert LaneOk(c, s.lanes[f], f);
      ReachableBalance(c, ports, s, which, f);
    }
    forall p | 0 <= p < |s.readers| ensures ReaderOk(s.readers[p], p) {
    }
  }

  /* ---------------------------------------------------------------- when nothing is lost */

  ghost predicate Lossless(s: State) {
    forall f, which :: 0 <= f < |s.lanes| ==> !CounterOf(s.lanes[f], which).disturbed
  }

  predicate Holds(phase: Phase, which: Which, f: nat) {
    phase.Loaded? && phase.which == which && phase.f == f
  }

  /** A reader loads a counter that another has loaded and not yet stored. */
  ghost predicate Overlaps(c: Config, s: State, step: Step) {
    && step.Load? && Enabled(c, s, step)
    && exists q :: 0 <= q < |s.readers| && q != step.p
         && Holds(s.readers[q].phase, s.readers[step.p].phase.which, s.readers[step.p].phase.f)
  }

  /** No increment of the run begins inside another one of the same counter. */
  ghost predicate Separate(c: Config, s: State, run: seq<Step>) {
    forall i :: 0 <= i < |run| ==> !Overlaps(c, After(c, s, run[..i]), run[i])
  }

  /** Nothing is lost, what is loaded is what the memory holds, and nobody else has it loaded. */
  ghost predicate Fresh(s: State) {
    && Lossless(s)
    && (forall p :: 0 <= p < |s.readers| && s.readers[p].phase.Loaded? ==>
          && s.readers[p].phase.f < |s.lanes|
          && s.readers[p].phase.reg.stamp == CounterOf(s.lanes[s.readers[p].phase.f], s.readers[p].phase.which).stores)
    && (forall p, q :: 0 <= p < |s.readers| && 0 <= q < |s.readers| && p != q && s.readers[p].phase.Loaded? ==>
          !Holds(s.readers[q].phase, s.readers[p].phase.which, s.readers[p].phase.f))
  }

  /** Steps that leave the counters alone and load nothing. */
  lemma {:induction false} QuietKeepsFresh(c: Config, s: State, t: State)
    requires Fresh(s) && |t.lanes| == |s.lanes| && |t.readers| == |s.readers|
    requires forall f, which :: 0 <= f < |s.lanes| ==> CounterOf(t.lanes[f], which) == CounterOf(s.lanes[f], which)
    requires forall p :: 0 <= p < |s.readers| && t.readers[p].phase.Loaded? ==> t.readers[p].phase == s.readers[p].phase
    ensures Fresh(t)
  {
  }

  lemma {:induction false} LoadKeepsFresh(c: Config, s: State, p: nat)
    requires Fresh(s) && Enabled(c, s, Load(p)) && !Overlaps(c, s, Load(p))
    ensures Fresh(LoadedCounter(c, s, p))
  {
  }

  lemma {:induction false} StoreKeepsFresh(c: Config, s: State, p: nat)
    requires Fresh(s) && Enabled(c, s, Store(p))
    ensures Fresh(StoredCounter(c, s, p))
  {
    var t := StoredCounter(c, s, p);
    var which, f := s.readers[p].phase.which, s.readers[p].phase.f;
    forall g, w | 0 <= g < |t.lanes| && !(g == f && w == which)
      ensures CounterOf(t.lanes[g], w) == CounterOf(s.lanes[g], w)
    {
    }
    forall q | 0 <= q < |t.readers| && t.readers[q].phase.Loaded? ensures !Holds(t.readers[q].phase, which, f) {
    }
  }

  lemma {:induction false} StepKeepsFresh(c: Config, s: State, step: Step)
    requires Fresh(s) && !Overlaps(c, s, step)
    ensures Fresh(Apply(c, s, step))
  {
    if Enabled(c, s, step) {
      if step.Load? {
        LoadKeepsFresh(c, s, step.p);
      } else if step.Store? {
        StoreKeepsFresh(c, s, step.p);
      } else {
        StepKeepsShape(c, s, step);
        QuietKeepsFresh(c, s, Apply(c, s, step));
      }
    }
  }

  /** Increments that do not overlap lose nothing. */
  lemma {:induction false} SeparateRunIsLossless(c: Config, ports: nat, run: seq<Step>)
    requires Separate(c, Init(c, ports), run)
    ensures Fresh(After(c, Init(c, ports), run))
    decreases |run|
  {
    if run != [] {
      var front := run[..|run| - 1];
      forall i | 0 <= i < |front| ensures !Overlaps(c, After(c, Init(c, ports), front[..i]), front[i]) {
        assert front[..i] == run[..i];
      }
      SeparateRunIsLossless(c, ports, front);
      assert !Overlaps(c, After(c, Init(c, ports), run[..|run| - 1]), run[|run| - 1]);
      StepKeepsFresh(c, After(c, Init(c, ports), front), run[|run| - 1]);
    }
  }

  lemma {:induction false} RunKeepsShape(c: Config, s: State, run: seq<Step>)
    ensures |After(c, s, run).lanes| == |s.lanes| && |After(c, s, run).readers| == |s.readers|
    decreases |run|
  {
    if run != [] {
      RunKeepsShape(c, s, run[..|run| - 1]);
      StepKeepsShape(c, After(c, s, run[..|run| - 1]), run[|run| - 1]);
    }
  }

  /** A socket with one reader at most loses nothing, whatever the run. */
  lemma {:induction false} OneReaderIsLossless(c: Config, ports: nat, s: State)
    requires Reachable(c, ports, s) && ports <= 1
    ensures Lossless(s)
  {
    var run :| s == After(c, Init(c, ports), run);
    forall i | 0 <= i < |run| ensures !Overlaps(c, After(c, Init(c, ports), run[..i]), run[i]) {
      RunKeepsShape(c, Init(c, ports), run[..i]);
    }
    SeparateRunIsLossless(c, ports, run);
  }

  /* ---------------------------------------------------------------- a lost update */

  lemma {:induction false} ReachableNext(c: Config, ports: nat, s: State, step: Step) returns (t: State)
    requires Reachable(c, ports, s)
    ensures t == Apply(c, s, step) && Reachable(c, ports, t)
    ensures |t.lanes| == |s.lanes| && |t.readers| == |s.readers|
  {
    var run :| s == After(c, Init(c, ports), run);
    AfterSnoc(c, Init(c, ports), run, step);
    StepKeepsShape(c, s, step);
    t := Apply(c, s, step);
  }

  /** Two packets of one flow, for the readers of ports 0 and 1. */
  function Twin(p: nat): Mbuf {
    Mbuf(p, p, true, 0, 0)
  }

  /** Both readers are about to enqueue their packet into FIFO f, which is empty. */
  ghost predicate BothOffer(c: Config, s: State, f: nat) {
    && c.policy.Hashed? && c.fifoWrk == |s.lanes| > 0 && |s.readers| >= 2
    && f == Target(c, Twin(0), 0, 0) && s.lanes[f].ring == [] && s.lanes[f].batch == []
    && (forall p :: 0 <= p < 2 ==> s.readers[p].phase == Offering(0) && s.readers[p].burst == [Twin(p)])
  }

  /** Both readers owe the same counter an increment. */
  ghost predicate BothDue(c: Config, s: State, which: Which, f: nat) {
    && f < |s.lanes| == c.fifoWrk && |s.readers| >= 2
    && forall p :: 0 <= p < 2 ==> s.readers[p].phase == Due(which, f)
  }

  /** Both packets have been received, and nothing else has happened. */
  ghost predicate BothReceived(c: Config, s: State) {
    && c.policy.Hashed? && c.fifoWrk == |s.lanes| > 0 && |s.readers| >= 2
    && (forall f :: 0 <= f < |s.lanes| ==> s.lanes[f].ring == [] && s.lanes[f].batch == [])
    && (forall p :: 0 <= p < 2 ==> s.readers[p].phase == Idle && s.readers[p].burst == [Twin(p)])
  }

  lemma {:induction false} ReachBothReceived(c: Config, ports: nat) returns (s: State)
    requires c.policy.Hashed? && c.fifoWrk > 0 && ports >= 2
    ensures Reachable(c, ports, s) && BothReceived(c, s)
  {
    s := Init(c, ports);
    assert s == After(c, s, []);
    s := ReachableNext(c, ports, s, Receive(Twin(0)));
    assert s.readers[0].recv == [Twin(0)] && forall p :: 1 <= p < ports ==> s.readers[p].recv == [];
    s := ReachableNext(c, ports, s, Receive(Twin(1)));
  }

  lemma {:induction false} ReachBothOffer(c: Config, ports: nat, s: State) returns (t: State)
    requires Reachable(c, ports, s) && BothReceived(c, s)
    ensures Reachable(c, ports, t) && BothOffer(c, t, Target(c, Twin(0), 0, 0))
  {
    t := ReachableNext(c, ports, s, Begin(0));
    t := ReachableNext(c, ports, t, Begin(1));
  }

  /** Reader 0 has dealt with its packet, the ring is as it was, and reader 1 is next. */
  ghost predicate OneDue(c: Config, s: State, which: Which, f: nat) {
    && c.policy.Hashed? && c.fifoWrk == |s.lanes| > 0 && |s.readers| >= 2
    && f == Target(c, Twin(1), 1, 0) && s.lanes[f].ring == []
    && s.readers[0].phase == Due(which, f) && s.readers[1].phase == Offering(0) && s.readers[1].burst == [Twin(1)]
  }

  lemma {:induction false} ReachOneDue(c: Config, ports: nat, s: State) returns (t: State)
    requires Reachable(c, ports, s) && BothOffer(c, s, Target(c, Twin(0), 0, 0))
    ensures Reachable(c, ports, t)
    ensures OneDue(c, t, if c.cap > 0 then Add else Drp, Target(c, Twin(0), 0, 0))
  {
    var f := Target(c, Twin(0), 0, 0);
    t := ReachableNext(c, ports, s, Offer(0));
    if c.cap > 0 {
      t := ReachableNext(c, ports, t, Dequeue(f, 1));
    }
  }

  /** Whether the ring takes packets or not, both readers end up owing the same counter. */
  lemma {:induction false} ReachBothDue(c: Config, ports: nat, s: State) returns (t: State)
    requires Reachable(c, ports, s)
    requires OneDue(c, s, if c.cap > 0 then Add else Drp, Target(c, Twin(0), 0, 0))
    ensures Reachable(c, ports, t)
    ensures BothDue(c, t, if c.cap > 0 then Add else Drp, Target(c, Twin(0), 0, 0))
  {
    t := ReachableNext(c, ports, s, Offer(1));
  }

  /** Both load before either stores: the second store undoes the first. */
  lemma {:induction false} OverlapLoses(c: Config, ports: nat, s: State, which: Which, f: nat) returns (t: State)
    requires Reachable(c, ports, s) && BothDue(c, s, which, f)
    ensures Reachable(c, ports, t) && f < |t.lanes| && CounterOf(t.lanes[f], which).disturbed
  {
    t := ReachableNext(c, ports, s, Load(0));
    t := ReachableNext(c, ports, t, Load(1));
    t := ReachableNext(c, ports, t, Store(0));
    t := ReachableNext(c, ports, t, Store(1));
  }

  /** With two readers the atomic program reaches a state in which an update is lost: some counter has
      fallen behind what it counts although no increment is pending that could make it good. */
  lemma {:induction false} TwoReadersLose(c: Config, ports: nat) returns (s: State, which: Which, f: nat)
    requires c.policy.Hashed? && c.fifoWrk > 0 && ports >= 2
    ensures Reachable(c, ports, s) && f < |s.lanes|
    ensures CounterOf(s.lanes[f], which).value + Owing(s.readers, which, f) < Total(s.lanes[f], which)
  {
    var t := ReachBothReceived(c, ports);
    t := ReachBothOffer(c, ports, t);
    t := ReachOneDue(c, ports, t);
    t := ReachBothDue(c, ports, t);
    which, f := if c.cap > 0 then Add else Drp, Target(c, Twin(0), 0, 0);
    s := OverlapLoses(c, ports, t, which, f);
    CountersBalance(c, ports, s);
  }

  /** Every shared counter, with what is owed to it, equals what it counts. */
  ghost predicate AllCounted(s: State) {
    forall f :: 0 <= f < |s.lanes| ==>
      && s.lanes[f].added.value + Owing(s.readers, Add, f) == s.lanes[f].entered
      && s.lanes[f].pkts.value + Owing(s.readers, Pkts, f) == s.lanes[f].entered
      && s.lanes[f].drops.value + Owing(s.readers, Drp, f) == s.lanes[f].refused
  }

  lemma {:induction false} LosslessIsCounted(c: Config, ports: nat, s: State)
    requires Reachable(c, ports, s) && Lossless(s)
    ensures AllCounted(s)
  {
    CountersBalance(c, ports, s);
    forall f | 0 <= f < |s.lanes|
      ensures s.lanes[f].added.value + Owing(s.readers, Add, f) == s.lanes[f].entered
      ensures s.lanes[f].pkts.value + Owing(s.readers, Pkts, f) == s.lanes[f].entered
      ensures s.lanes[f].drops.value + Owing(s.readers, Drp, f) == s.lanes[f].refused
    {
      assert CounterOf(s.lanes[f], Add).value + Owing(s.readers, Add, f) == Total(s.lanes[f], Add);
      assert CounterOf(s.lanes[f], Pkts).value + Owing(s.readers, Pkts, f) == Total(s.lanes[f], Pkts);
      assert CounterOf(s.lanes[f], Drp).value + Owing(s.readers, Drp, f) == Total(s.lanes[f], Drp);
    }
  }

  lemma {:induction false} AllCountedMeans(s: State, which: Which, f: nat)
    requires AllCounted(s) && f < |s.lanes|
    ensures CounterOf(s.lanes[f], which).value + Owing(s.readers, which, f) == Total(s.lanes[f], which)
  {
  }

  /** The shared counters of an atomic distributor are right in every state of every run exactly if the
      socket has at most one reader. */
  lemma {:induction false} CountersRightIffOneReader(c: Config, ports: nat)
    requires c.policy.Hashed? && c.fifoWrk > 0
    ensures (forall s: State :: Reachable(c, ports, s) ==> AllCounted(s)) <==> ports <= 1
  {
    if ports <= 1 {
      forall s: State | Reachable(c, ports, s) ensures AllCounted(s) {
        OneReaderIsLossless(c, ports, s);
        LosslessIsCounted(c, ports, s);
      }
    } else {
      var s, which, f := TwoReadersLose(c, ports);
      if AllCounted(s) {
        AllCountedMeans(s, which, f);
      }
    }
  }
}

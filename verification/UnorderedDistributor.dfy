/**
 What becomes of a packet at its reader, over every run: the FIFOs it was offered to, each at a moment of its
 own while workers and other readers go on. The results are about the search for a FIFO and so about the
 unordered program in the first place; the atomic one has a single try.
 */
module UnorderedDistributor {
  import opened Arithmetic
  import opened Distributor
  import opened DistributorRuns

  /* ---------------------------------------------------------------- the probing order */

  /** The FIFO of the k-th probe. */
  function ProbeAt(n: nat, rxport: nat, k: nat): (f: nat)
    requires n > 0
    ensures f < n
  {
    (rxport + k) % n
  }

  lemma {:induction false} ProbeValue(n: nat, rxport: nat, k: nat)
    requires rxport < n && k <= n
    ensures ProbeAt(n, rxport, k) == (if rxport + k < n then rxport + k else rxport + k - n)
  {
    ModWrap(rxport + k, n);
  }

  /** The probe that reaches FIFO f. */
  function ProbeReaching(n: nat, rxport: nat, f: nat): (k: nat)
    requires rxport < n && f < n
    ensures k < n
  {
    if f >= rxport then f - rxport else f + n - rxport
  }

  /** Probes go up cyclically from the port's own FIFO and never repeat; n of them reach every FIFO, and the
      index is then back at the start, which is where the drop is charged. */
  lemma {:induction false} ProbesCoverAll(n: nat, rxport: nat)
    requires rxport < n
    ensures ProbeAt(n, rxport, 0) == rxport == ProbeAt(n, rxport, n)
    ensures forall k :: 0 <= k < n ==>
              ProbeAt(n, rxport, k + 1) == (if ProbeAt(n, rxport, k) == n - 1 then 0 else ProbeAt(n, rxport, k) + 1)
    ensures forall j, k :: 0 <= j < k < n ==> ProbeAt(n, rxport, j) != ProbeAt(n, rxport, k)
    ensures forall f :: 0 <= f < n ==> ProbeAt(n, rxport, ProbeReaching(n, rxport, f)) == f
  {
    ProbeEnds(n, rxport);
    forall k | 0 <= k < n
      ensures ProbeAt(n, rxport, k + 1) == if ProbeAt(n, rxport, k) == n - 1 then 0 else ProbeAt(n, rxport, k) + 1
    {
      ProbeValue(n, rxport, k);
      ProbeValue(n, rxport, k + 1);
    }
    forall j, k | 0 <= j < k < n ensures ProbeAt(n, rxport, j) != ProbeAt(n, rxport, k) {
      ProbeValue(n, rxport, j);
      ProbeValue(n, rxport, k);
    }
    forall f | 0 <= f < n ensures ProbeAt(n, rxport, ProbeReaching(n, rxport, f)) == f {
      ProbeValue(n, rxport, ProbeReaching(n, rxport, f));
    }
  }

  /** The first probe and the one after the last. */
  lemma {:induction false} ProbeEnds(n: nat, rxport: nat)
    requires rxport < n
    ensures ProbeAt(n, rxport, 0) == rxport == ProbeAt(n, rxport, n)
  {
    ProbeValue(n, rxport, 0);
    ProbeValue(n, rxport, n);
  }

  lemma {:induction false} NextProbe(n: nat, rxport: nat, k: nat)
    requires rxport < n && k < n
    ensures (ProbeAt(n, rxport, k) + 1) % n == ProbeAt(n, rxport, k + 1)
  {
    ProbeValue(n, rxport, k);
    ProbeValue(n, rxport, k + 1);
    ModWrap(ProbeAt(n, rxport, k) + 1, n);
  }

  /* ---------------------------------------------------------------- the probes of a run */

  /** In state s reader p is at try k for packet m, and takes the step. */
  ghost predicate AtTry(c: Config, s: State, step: Step, p: nat, m: Mbuf, k: nat) {
    && (step == Look(p) || step == Offer(p)) && Enabled(c, s, step)
    && s.readers[p].burst[0] == m && s.readers[p].phase.k == k
  }

  /** Some step of the run was p's try k for m, and found the FIFO full at that moment. */
  ghost predicate WasFull(c: Config, s: State, run: seq<Step>, p: nat, m: Mbuf, k: nat) {
    exists i :: 0 <= i < |run| && FullAt(c, After(c, s, run[..i]), run[i], p, m, k)
  }

  ghost predicate FullAt(c: Config, s: State, step: Step, p: nat, m: Mbuf, k: nat) {
    AtTry(c, s, step, p, m, k) && |s.lanes[Target(c, m, p, k)].ring| >= c.cap
  }

  /** Some step of the run was p's enqueue of m at try k, and found room. */
  ghost predicate HadRoom(c: Config, s: State, run: seq<Step>, p: nat, m: Mbuf, k: nat) {
    exists i :: 0 <= i < |run| && RoomAt(c, After(c, s, run[..i]), run[i], p, m, k)
  }

  ghost predicate RoomAt(c: Config, s: State, step: Step, p: nat, m: Mbuf, k: nat) {
    step == Offer(p) && AtTry(c, s, step, p, m, k) && |s.lanes[Target(c, m, p, k)].ring| < c.cap
  }

  lemma {:induction false} WasFullStays(c: Config, s: State, run: seq<Step>, step: Step, p: nat, m: Mbuf, k: nat)
    ensures WasFull(c, s, run, p, m, k) ==> WasFull(c, s, run + [step], p, m, k)
    ensures FullAt(c, After(c, s, run), step, p, m, k) ==> WasFull(c, s, run + [step], p, m, k)
  {
    var longer := run + [step];
    if WasFull(c, s, run, p, m, k) {
      var i :| 0 <= i < |run| && FullAt(c, After(c, s, run[..i]), run[i], p, m, k);
      assert longer[..i] == run[..i] && longer[i] == run[i];
    }
    assert longer[..|run|] == run && longer[|run|] == step;
  }

  lemma {:induction false} HadRoomStays(c: Config, s: State, run: seq<Step>, step: Step, p: nat, m: Mbuf, k: nat)
    ensures HadRoom(c, s, run, p, m, k) ==> HadRoom(c, s, run + [step], p, m, k)
    ensures RoomAt(c, After(c, s, run), step, p, m, k) ==> HadRoom(c, s, run + [step], p, m, k)
  {
    var longer := run + [step];
    if HadRoom(c, s, run, p, m, k) {
      var i :| 0 <= i < |run| && RoomAt(c, After(c, s, run[..i]), run[i], p, m, k);
      assert longer[..i] == run[..i] && longer[i] == run[i];
    }
    assert longer[..|run|] == run && longer[|run|] == step;
  }

  /** All tries below k found their FIFO full. */
  ghost predicate FullBelow(c: Config, s: State, run: seq<Step>, p: nat, m: Mbuf, k: nat) {
    forall j: nat :: j < k ==> WasFull(c, s, run, p, m, j)
  }

  lemma {:induction false} FullBelowStays(c: Config, s: State, run: seq<Step>, step: Step, p: nat, m: Mbuf, k: nat)
    requires FullBelow(c, s, run, p, m, k)
    ensures FullBelow(c, s, run + [step], p, m, k)
    ensures FullAt(c, After(c, s, run), step, p, m, k) ==> FullBelow(c, s, run + [step], p, m, k + 1)
  {
    forall j: nat | j <= k
      ensures j < k ==> WasFull(c, s, run + [step], p, m, j)
      ensures FullAt(c, After(c, s, run), step, p, m, k) ==> WasFull(c, s, run + [step], p, m, j)
    {
      WasFullStays(c, s, run, step, p, m, j);
    }
  }

  /** What a fate says of the run: every try before it found its FIFO full; and it found room itself, unless
      there are no further tries. */
  ghost predicate FateOk(c: Config, s: State, run: seq<Step>, x: Fate) {
    && x.k <= Tries(c) && FullBelow(c, s, run, x.p, x.m, x.k)
    && (x.k < Tries(c) ==> HadRoom(c, s, run, x.p, x.m, x.k))
  }

  lemma {:induction false} FateStays(c: Config, s: State, run: seq<Step>, step: Step, x: Fate)
    requires FateOk(c, s, run, x)
    ensures FateOk(c, s, run + [step], x)
  {
    FullBelowStays(c, s, run, step, x.p, x.m, x.k);
    HadRoomStays(c, s, run, step, x.p, x.m, x.k);
  }

  /** A reader in the middle of its search has found every FIFO before full. */
  ghost predicate SearchOk(c: Config, s: State, run: seq<Step>, p: nat, r: Reader) {
    Probing(r.phase) ==> r.burst != [] && FullBelow(c, s, run, p, r.burst[0], r.phase.k)
  }

  ghost predicate Traced(c: Config, s: State, run: seq<Step>) {
    var t := After(c, s, run);
    && (forall p :: 0 <= p < |t.readers| ==> SearchOk(c, s, run, p, t.readers[p]))
    && (forall i :: 0 <= i < |t.log| ==> FateOk(c, s, run, t.log[i]))
  }

  /** The search of a reader that does not take the step, or not with this packet, stands where it stood. */
  lemma {:induction false} SearchStays(c: Config, s: State, run: seq<Step>, step: Step, q: nat, before: Reader,
                                       r: Reader)
    requires SearchOk(c, s, run, q, before) && (before.phase == r.phase || !Probing(r.phase))
    requires Probing(r.phase) ==> r.burst != [] && r.burst[0] == before.burst[0]
    ensures SearchOk(c, s, run + [step], q, r)
  {
    if Probing(r.phase) {
      FullBelowStays(c, s, run, step, q, r.burst[0], r.phase.k);
    }
  }

  /** A try of reader p: either it enqueues, or the search goes on or ends one try further. */
  lemma {:induction false} TryTraced(c: Config, s: State, run: seq<Step>, step: Step)
    requires step.Look? || step.Offer?
    requires Enabled(c, After(c, s, run), step) && WellPlaced(c, After(c, s, run)) && Traced(c, s, run)
    ensures var t := After(c, s, run);
      var u, r := Apply(c, t, step), t.readers[step.p];
      && |u.readers| == |t.readers| && SearchOk(c, s, run + [step], step.p, u.readers[step.p])
      && (u.log == t.log ||
          (|u.log| == |t.log| + 1 && u.log[..|t.log|] == t.log && FateOk(c, s, run + [step], u.log[|t.log|])))
  {
    var t, p := After(c, s, run), step.p;
    var m, k := t.readers[p].burst[0], t.readers[p].phase.k;
    assert PhaseOk(c, t.lanes, t.readers[p]) && SearchOk(c, s, run, p, t.readers[p]);
    FullBelowStays(c, s, run, step, p, m, k);
    HadRoomStays(c, s, run, step, p, m, k);
    if !Room(c, t, p, k) {
      assert FullAt(c, t, step, p, m, k);
    } else if step.Offer? {
      assert RoomAt(c, t, step, p, m, k);
    }
  }

  /** What a step does to a reader that is not making a try: its search is as it was, or is just beginning,
      or it is not searching. */
  lemma {:induction false} OtherReader(c: Config, t: State, step: Step, q: nat)
    requires q < |t.readers| && ((step.Look? || step.Offer?) ==> q != step.p)
    requires Probing(t.readers[q].phase) ==> t.readers[q].burst != []
    ensures |Apply(c, t, step).readers| == |t.readers|
    ensures var x, r := t.readers[q], Apply(c, t, step).readers[q];
      Probing(r.phase) ==> r.burst != [] && (r.phase.k == 0 || (r.phase == x.phase && r.burst[0] == x.burst[0]))
  {
    StepKeepsShape(c, t, step);
  }

  lemma {:induction false} OtherTraced(c: Config, s: State, run: seq<Step>, step: Step, q: nat)
    requires Traced(c, s, run) && q < |After(c, s, run).readers|
    requires (step.Look? || step.Offer?) ==> q != step.p
    ensures var u := Apply(c, After(c, s, run), step);
      q < |u.readers| && SearchOk(c, s, run + [step], q, u.readers[q])
  {
    var t := After(c, s, run);
    assert SearchOk(c, s, run, q, t.readers[q]);
    OtherReader(c, t, step, q);
    var r := Apply(c, t, step).readers[q];
    if Probing(r.phase) && r.phase.k > 0 {
      SearchStays(c, s, run, step, q, t.readers[q], r);
    }
  }

  lemma {:induction false} LogStays(c: Config, t: State, step: Step)
    requires !step.Look? && !step.Offer?
    ensures Apply(c, t, step).log == t.log
  {
  }

  lemma {:induction false} SearchKept(c: Config, s: State, run: seq<Step>, step: Step, q: nat)
    requires WellPlaced(c, After(c, s, run)) && Traced(c, s, run) && q < |After(c, s, run).readers|
    ensures var u := Apply(c, After(c, s, run), step);
      q < |u.readers| && SearchOk(c, s, run + [step], q, u.readers[q])
  {
    var t := After(c, s, run);
    if (step.Look? || step.Offer?) && q == step.p {
      if Enabled(c, t, step) {
        TryTraced(c, s, run, step);
      } else {
        assert SearchOk(c, s, run, q, t.readers[q]);
        SearchStays(c, s, run, step, q, t.readers[q], t.readers[q]);
      }
    } else {
      OtherTraced(c, s, run, step, q);
    }
  }

  lemma {:induction false} FateKept(c: Config, s: State, run: seq<Step>, step: Step, i: nat)
    requires WellPlaced(c, After(c, s, run)) && Traced(c, s, run)
    requires i < |Apply(c, After(c, s, run), step).log|
    ensures FateOk(c, s, run + [step], Apply(c, After(c, s, run), step).log[i])
  {
    var t := After(c, s, run);
    if (step.Look? || step.Offer?) && Enabled(c, t, step) {
      TryTraced(c, s, run, step);
    } else if !step.Look? && !step.Offer? {
      LogStays(c, t, step);
    }
    if i < |t.log| {
      assert Apply(c, t, step).log[i] == t.log[i] && FateOk(c, s, run, t.log[i]);
      FateStays(c, s, run, step, t.log[i]);
    }
  }

  lemma {:induction false} StepKeepsTraced(c: Config, s: State, run: seq<Step>, step: Step)
    requires WellPlaced(c, After(c, s, run)) && Traced(c, s, run)
    ensures Traced(c, s, run + [step])
  {
    var t := After(c, s, run);
    var u := Apply(c, t, step);
    AfterSnoc(c, s, run, step);
    StepKeepsShape(c, t, step);
    forall q | 0 <= q < |u.readers| ensures SearchOk(c, s, run + [step], q, u.readers[q]) {
      SearchKept(c, s, run, step, q);
    }
    forall i | 0 <= i < |u.log| ensures FateOk(c, s, run + [step], u.log[i]) {
      FateKept(c, s, run, step, i);
    }
  }

  lemma {:induction false} RunIsPlaced(c: Config, ports: nat, run: seq<Step>)
    requires c.fifoWrk > 0
    ensures WellPlaced(c, After(c, Init(c, ports), run)) && |After(c, Init(c, ports), run).readers| == ports
  {
    InitInv(c, ports);
    RunKeepsInv(c, Init(c, ports), run);
  }

  lemma {:induction false} RunIsTraced(c: Config, ports: nat, run: seq<Step>)
    requires c.fifoWrk > 0
    ensures Traced(c, Init(c, ports), run)
    decreases |run|
  {
    if run != [] {
      var front := run[..|run| - 1];
      RunIsTraced(c, ports, front);
      RunIsPlaced(c, ports, front);
      StepKeepsTraced(c, Init(c, ports), front, run[|run| - 1]);
      assert run == front + [run[|run| - 1]];
    }
  }

  /** Over every run: a packet that was enqueued went to the first FIFO that had room at its own probe, all
      probes before having found theirs full; one that was given up found every FIFO full at its probe. */
  lemma {:induction false} FirstRoomTaken(c: Config, ports: nat, run: seq<Step>, i: nat)
    requires c.fifoWrk > 0 && i < |After(c, Init(c, ports), run).log|
    ensures var x := After(c, Init(c, ports), run).log[i];
      && x.k <= Tries(c)
      && (forall j: nat :: j < x.k ==> WasFull(c, Init(c, ports), run, x.p, x.m, j))
      && (x.k < Tries(c) ==> HadRoom(c, Init(c, ports), run, x.p, x.m, x.k))
  {
    RunIsTraced(c, ports, run);
    assert FateOk(c, Init(c, ports), run, After(c, Init(c, ports), run).log[i]);
  }

  /** Some step of the run was a probe of FIFO f by reader p for m, and found it full. */
  ghost predicate FifoWasFull(c: Config, s: State, run: seq<Step>, p: nat, m: Mbuf, f: nat) {
    exists k: nat :: c.fifoWrk > 0 && Target(c, m, p, k) == f && WasFull(c, s, run, p, m, k)
  }

  /** In the unordered program a packet is given up only after every FIFO was full, each at the packet's own
      probe of it. */
  lemma {:induction false} DroppedOnlyWhenAllFull(c: Config, ports: nat, run: seq<Step>, i: nat, f: nat)
    requires c.policy.Cyclic? && ports <= c.fifoWrk && i < |After(c, Init(c, ports), run).log| && f < c.fifoWrk
    requires After(c, Init(c, ports), run).log[i].k == Tries(c)
    requires After(c, Init(c, ports), run).log[i].p < ports
    ensures var x := After(c, Init(c, ports), run).log[i]; FifoWasFull(c, Init(c, ports), run, x.p, x.m, f)
  {
    FirstRoomTaken(c, ports, run, i);
    var x := After(c, Init(c, ports), run).log[i];
    ProbesCoverAll(c.fifoWrk, x.p);
    var k := ProbeReaching(c.fifoWrk, x.p, f);
    assert ProbeAt(c.fifoWrk, x.p, k) == f && WasFull(c, Init(c, ports), run, x.p, x.m, k);
  }

  /* ---------------------------------------------------------------- freed packets and charged drops */

  predicate Logged(log: seq<Fate>, m: Mbuf) {
    exists i :: 0 <= i < |log| && log[i].m == m
  }

  /** m was enqueued into FIFO f. */
  ghost predicate Admitted(c: Config, log: seq<Fate>, m: Mbuf, f: nat) {
    exists i :: 0 <= i < |log| && log[i].m == m && log[i].k < Tries(c) && c.fifoWrk > 0
                && Target(c, m, log[i].p, log[i].k) == f
  }

  ghost predicate AllAdmitted(c: Config, log: seq<Fate>, ms: seq<Mbuf>, f: nat) {
    forall i :: 0 <= i < |ms| ==> Admitted(c, log, ms[i], f)
  }

  /** Whatever is in a FIFO or in its worker's hands was enqueued there; whatever IPv4 packet was freed had been
      enqueued or given up before; and every fate is that of a packet of its reader's port. */
  ghost predicate Accounted(c: Config, s: State) {
    && (forall f :: 0 <= f < |s.lanes| ==>
          AllAdmitted(c, s.log, s.lanes[f].ring, f) && AllAdmitted(c, s.log, s.lanes[f].batch, f))
    && (forall i :: 0 <= i < |s.freed| && s.freed[i].ipv4 ==> Logged(s.log, s.freed[i]))
    && (forall i :: 0 <= i < |s.log| ==> s.log[i].p == s.log[i].m.port < |s.readers|)
  }

  lemma {:induction false} AdmittedStays(c: Config, log: seq<Fate>, x: Fate, ms: seq<Mbuf>, f: nat)
    requires AllAdmitted(c, log, ms, f)
    ensures AllAdmitted(c, log + [x], ms, f)
  {
    forall i | 0 <= i < |ms| ensures Admitted(c, log + [x], ms[i], f) {
      var j :| 0 <= j < |log| && log[j].m == ms[i] && log[j].k < Tries(c) && c.fifoWrk > 0
               && Target(c, ms[i], log[j].p, log[j].k) == f;
      assert (log + [x])[j] == log[j];
    }
  }

  lemma {:induction false} LoggedStays(log: seq<Fate>, x: Fate, m: Mbuf)
    ensures Logged(log, m) ==> Logged(log + [x], m)
    ensures Logged(log + [x], x.m)
  {
    assert (log + [x])[|log|] == x;
    if Logged(log, m) {
      var i :| 0 <= i < |log| && log[i].m == m;
      assert (log + [x])[i] == log[i];
    }
  }

  lemma {:induction false} EnteredAccounted(c: Config, s: State, p: nat, k: nat)
    requires Accounted(c, s) && c.fifoWrk == |s.lanes| > 0 && k < Tries(c)
    requires p < |s.readers| && s.readers[p].burst != [] && s.readers[p].burst[0].port == p
    ensures Accounted(c, Entered(s, p, Target(c, s.readers[p].burst[0], p, k), k))
  {
    var m := s.readers[p].burst[0];
    var f, x := Target(c, m, p, k), Fate(m, p, k);
    var t := Entered(s, p, f, k);
    assert t.log[|s.log|] == x;
    forall g | 0 <= g < |t.lanes|
      ensures AllAdmitted(c, t.log, t.lanes[g].ring, g) && AllAdmitted(c, t.log, t.lanes[g].batch, g)
    {
      AdmittedStays(c, s.log, x, s.lanes[g].ring, g);
      AdmittedStays(c, s.log, x, s.lanes[g].batch, g);
    }
    forall i | 0 <= i < |t.freed| && t.freed[i].ipv4 ensures Logged(t.log, t.freed[i]) {
      LoggedStays(s.log, x, s.freed[i]);
    }
  }

  lemma {:induction false} RefusedAccounted(c: Config, s: State, p: nat, f: nat, k: nat)
    requires Accounted(c, s) && f < |s.lanes|
    requires p < |s.readers| && s.readers[p].burst != [] && s.readers[p].burst[0].port == p
    ensures Accounted(c, Refused(s, p, f, k))
  {
    var m := s.readers[p].burst[0];
    var x, t := Fate(m, p, k), Refused(s, p, f, k);
    forall g | 0 <= g < |t.lanes|
      ensures AllAdmitted(c, t.log, t.lanes[g].ring, g) && AllAdmitted(c, t.log, t.lanes[g].batch, g)
    {
      AdmittedStays(c, s.log, x, s.lanes[g].ring, g);
      AdmittedStays(c, s.log, x, s.lanes[g].batch, g);
    }
    forall i | 0 <= i < |t.freed| && t.freed[i].ipv4 ensures Logged(t.log, t.freed[i]) {
      LoggedStays(s.log, x, t.freed[i]);
    }
  }

  lemma {:induction false} WorkerAccounted(c: Config, s: State, step: Step)
    requires Accounted(c, s) && Enabled(c, s, step) && (step.Dequeue? || step.Send?)
    ensures Accounted(c, Apply(c, s, step))
  {
    var f, t := step.f, Apply(c, s, step);
    assert AllAdmitted(c, s.log, s.lanes[f].ring, f) && AllAdmitted(c, s.log, s.lanes[f].batch, f);
    if step.Send? {
      assert Admitted(c, s.log, s.lanes[f].batch[0], f);
      forall i | 0 <= i < |t.freed| && t.freed[i].ipv4 ensures Logged(t.log, t.freed[i]) {
      }
    }
  }

  lemma {:induction false} TryAccounted(c: Config, s: State, step: Step)
    requires Accounted(c, s) && WellPlaced(c, s) && Enabled(c, s, step) && (step.Look? || step.Offer?)
    ensures Accounted(c, Apply(c, s, step))
  {
    var p := step.p;
    var m, k := s.readers[p].burst[0], s.readers[p].phase.k;
    assert ReaderOk(s.readers[p], p) && PhaseOk(c, s.lanes, s.readers[p]);
    if Room(c, s, p, k) {
      if step.Offer? {
        EnteredAccounted(c, s, p, k);
      }
    } else if k + 1 >= Tries(c) {
      RefusedAccounted(c, s, p, Target(c, m, p, Tries(c)), Tries(c));
    }
  }

  lemma {:induction false} QuietAccounted(c: Config, s: State, step: Step)
    requires Accounted(c, s) && Enabled(c, s, step) && (step.Receive? || step.Begin? || step.Load? || step.Store?)
    ensures Accounted(c, Apply(c, s, step))
  {
    var t := Apply(c, s, step);
    assert |t.readers| == |s.readers| && t.log == s.log;
    forall f | 0 <= f < |t.lanes|
      ensures AllAdmitted(c, t.log, t.lanes[f].ring, f) && AllAdmitted(c, t.log, t.lanes[f].batch, f)
    {
      assert t.lanes[f].ring == s.lanes[f].ring && t.lanes[f].batch == s.lanes[f].batch;
    }
  }

  /** How many packets were given up with the drop due to FIFO f. */
  function Refusals(c: Config, log: seq<Fate>, f: nat): nat {
    if log == [] then 0 else
      var x := log[|log| - 1];
      Refusals(c, log[..|log| - 1], f)
      + (if c.fifoWrk > 0 && x.k == Tries(c) && Target(c, x.m, x.p, Tries(c)) == f then 1 else 0)
  }

  ghost predicate Charged(c: Config, s: State) {
    forall f :: 0 <= f < |s.lanes| ==> s.lanes[f].refused == Refusals(c, s.log, f)
  }

  lemma {:induction false} RefusalsSnoc(c: Config, log: seq<Fate>, x: Fate, f: nat)
    requires c.fifoWrk > 0
    ensures Refusals(c, log + [x], f) ==
            Refusals(c, log, f) + (if x.k == Tries(c) && Target(c, x.m, x.p, Tries(c)) == f then 1 else 0)
  {
    assert (log + [x])[..|log|] == log;
  }

  lemma {:induction false} TryCharged(c: Config, s: State, step: Step)
    requires Charged(c, s) && WellPlaced(c, s) && Enabled(c, s, step) && (step.Look? || step.Offer?)
    ensures Charged(c, Apply(c, s, step))
  {
    var p := step.p;
    var m, k := s.readers[p].burst[0], s.readers[p].phase.k;
    assert PhaseOk(c, s.lanes, s.readers[p]);
    forall f | 0 <= f < |s.lanes|
      ensures Refusals(c, s.log + [Fate(m, p, k)], f) == Refusals(c, s.log, f)
      ensures Refusals(c, s.log + [Fate(m, p, Tries(c))], f) ==
              Refusals(c, s.log, f) + (if Target(c, m, p, Tries(c)) == f then 1 else 0)
    {
      RefusalsSnoc(c, s.log, Fate(m, p, k), f);
      RefusalsSnoc(c, s.log, Fate(m, p, Tries(c)), f);
    }
  }

  lemma {:induction false} StepKeepsAccounts(c: Config, s: State, step: Step)
    requires Accounted(c, s) && Charged(c, s) && WellPlaced(c, s)
    ensures Accounted(c, Apply(c, s, step)) && Charged(c, Apply(c, s, step))
  {
    if Enabled(c, s, step) {
      if step.Look? || step.Offer? {
        TryAccounted(c, s, step);
        TryCharged(c, s, step);
      } else if step.Dequeue? || step.Send? {
        WorkerAccounted(c, s, step);
      } else {
        QuietAccounted(c, s, step);
      }
    }
  }

  lemma {:induction false} RunKeepsAccounts(c: Config, ports: nat, run: seq<Step>)
    requires c.fifoWrk > 0
    ensures Accounted(c, After(c, Init(c, ports), run)) && Charged(c, After(c, Init(c, ports), run))
    decreases |run|
  {
    if run != [] {
      RunKeepsAccounts(c, ports, run[..|run| - 1]);
      RunIsPlaced(c, ports, run[..|run| - 1]);
      StepKeepsAccounts(c, After(c, Init(c, ports), run[..|run| - 1]), run[|run| - 1]);
    }
  }

  /** Some step of the run was the attempt of worker f to send m, the first packet of its batch, and it failed. */
  ghost predicate SentInVain(c: Config, s: State, run: seq<Step>, m: Mbuf, f: nat) {
    exists i :: 0 <= i < |run| && VainAt(c, After(c, s, run[..i]), run[i], m, f)
  }

  ghost predicate VainAt(c: Config, s: State, step: Step, m: Mbuf, f: nat) {
    step == Send(f, false) && Enabled(c, s, step) && s.lanes[f].batch[0] == m
  }

  lemma {:induction false} SentInVainStays(c: Config, s: State, run: seq<Step>, step: Step, m: Mbuf, f: nat)
    ensures SentInVain(c, s, run, m, f) ==> SentInVain(c, s, run + [step], m, f)
    ensures VainAt(c, After(c, s, run), step, m, f) ==> SentInVain(c, s, run + [step], m, f)
  {
    var longer := run + [step];
    if SentInVain(c, s, run, m, f) {
      var i :| 0 <= i < |run| && VainAt(c, After(c, s, run[..i]), run[i], m, f);
      assert longer[..i] == run[..i] && longer[i] == run[i];
    }
    assert longer[..|run|] == run && longer[|run|] == step;
  }

  /** x is the fate that explains why m was freed: it was given up, or the worker of the FIFO it was enqueued
      into failed to send it. */
  ghost predicate Explains(c: Config, s: State, run: seq<Step>, x: Fate, m: Mbuf) {
    && x.m == m && x.k <= Tries(c) && c.fifoWrk > 0
    && (x.k < Tries(c) ==> SentInVain(c, s, run, m, Target(c, m, x.p, x.k)))
  }

  ghost predicate Explained(c: Config, s: State, run: seq<Step>, log: seq<Fate>, m: Mbuf) {
    exists i :: 0 <= i < |log| && Explains(c, s, run, log[i], m)
  }

  lemma {:induction false} ExplainedStays(c: Config, s: State, run: seq<Step>, step: Step, log: seq<Fate>,
                                          after: seq<Fate>, m: Mbuf)
    requires log <= after && Explained(c, s, run, log, m)
    ensures Explained(c, s, run + [step], after, m)
  {
    var i :| 0 <= i < |log| && Explains(c, s, run, log[i], m);
    SentInVainStays(c, s, run, step, m, Target(c, m, log[i].p, log[i].k));
    assert Explains(c, s, run + [step], after[i], m);
  }

  /** A packet the step frees, if it is an IPv4 packet, is explained by the step. */
  lemma {:induction false} NewlyFreed(c: Config, s: State, run: seq<Step>, step: Step)
    requires var t := After(c, s, run); Enabled(c, t, step) && WellPlaced(c, t) && Accounted(c, t)
    ensures var t := After(c, s, run);
      var u := Apply(c, t, step);
      && t.log <= u.log
      && (u.freed == t.freed ||
          (|u.freed| == |t.freed| + 1 && u.freed[..|t.freed|] == t.freed
           && (u.freed[|t.freed|].ipv4 ==> Explained(c, s, run + [step], u.log, u.freed[|t.freed|]))))
  {
    var t := After(c, s, run);
    var u := Apply(c, t, step);
    if step.Send? {
      var m, f := t.lanes[step.f].batch[0], step.f;
      SentInVainStays(c, s, run, step, m, f);
      assert Admitted(c, t.log, m, f) by {
        assert AllAdmitted(c, t.log, t.lanes[f].batch, f);
      }
      var i :| 0 <= i < |t.log| && t.log[i].m == m && t.log[i].k < Tries(c) && c.fifoWrk > 0
               && Target(c, m, t.log[i].p, t.log[i].k) == f;
      assert !step.ok ==> Explains(c, s, run + [step], u.log[i], m);
    } else if step.Look? || step.Offer? {
      if |u.freed| > |t.freed| {
        assert Explains(c, s, run + [step], u.log[|t.log|], u.freed[|t.freed|]);
      }
    }
  }

  lemma {:induction false} FreedIsExplained(c: Config, ports: nat, run: seq<Step>, j: nat)
    requires c.fifoWrk > 0 && j < |After(c, Init(c, ports), run).freed|
    requires After(c, Init(c, ports), run).freed[j].ipv4
    ensures var t := After(c, Init(c, ports), run); Explained(c, Init(c, ports), run, t.log, t.freed[j])
    decreases |run|
  {
    var s := Init(c, ports);
    if run != [] {
      var front, step := run[..|run| - 1], run[|run| - 1];
      var t := After(c, s, front);
      assert run == front + [step];
      RunIsPlaced(c, ports, front);
      RunKeepsAccounts(c, ports, front);
      if Enabled(c, t, step) {
        NewlyFreed(c, s, front, step);
      }
      if j < |t.freed| {
        FreedIsExplained(c, ports, front, j);
        ExplainedStays(c, s, front, step, t.log, Apply(c, t, step).log, t.freed[j]);
      }
    }
  }

  /** Why an IPv4 packet was freed, in any run of the unordered program: it had been enqueued and the worker of its
      FIFO could not send it; or its reader gave it up, having found every FIFO full at its probe of it. */
  lemma {:induction false} FreedForAReason(c: Config, ports: nat, run: seq<Step>, m: Mbuf) returns (x: Fate)
    requires c.policy.Cyclic? && 0 < c.fifoWrk && ports <= c.fifoWrk
    requires m in After(c, Init(c, ports), run).freed && m.ipv4
    ensures x.m == m && x.p == m.port && x in After(c, Init(c, ports), run).log && x.k <= Tries(c)
    ensures x.k < Tries(c) ==> SentInVain(c, Init(c, ports), run, m, Target(c, m, x.p, x.k))
    ensures x.k == Tries(c) ==>
              forall f :: 0 <= f < c.fifoWrk ==> FifoWasFull(c, Init(c, ports), run, m.port, m, f)
  {
    RunKeepsAccounts(c, ports, run);
    RunIsPlaced(c, ports, run);
    var t := After(c, Init(c, ports), run);
    var j :| 0 <= j < |t.freed| && t.freed[j] == m;
    FreedIsExplained(c, ports, run, j);
    var i :| 0 <= i < |t.log| && Explains(c, Init(c, ports), run, t.log[i], m);
    x := t.log[i];
    if x.k == Tries(c) {
      forall f | 0 <= f < c.fifoWrk ensures FifoWasFull(c, Init(c, ports), run, m.port, m, f) {
        DroppedOnlyWhenAllFull(c, ports, run, i, f);
      }
    }
  }

  /** In the unordered program a drop is charged to the FIFO of the port's own number: the drops due there are
      the packets of that port that were given up. */
  lemma {:induction false} DropsChargedToPort(c: Config, ports: nat, run: seq<Step>, f: nat)
    requires c.policy.Cyclic? && 0 < c.fifoWrk && ports <= c.fifoWrk && f < c.fifoWrk
    ensures var t := After(c, Init(c, ports), run);
      |t.lanes| == c.fifoWrk && t.lanes[f].refused == GivenUp(c, t.log, f)
  {
    RunKeepsAccounts(c, ports, run);
    RunIsPlaced(c, ports, run);
    OwnRefusals(c, After(c, Init(c, ports), run).log, ports, f);
  }

  /** How many packets of port p were given up. */
  function GivenUp(c: Config, log: seq<Fate>, p: nat): nat {
    if log == [] then 0 else
      GivenUp(c, log[..|log| - 1], p)
      + (if log[|log| - 1].k == Tries(c) && log[|log| - 1].m.port == p then 1 else 0)
  }

  lemma {:induction false} OwnRefusals(c: Config, log: seq<Fate>, ports: nat, f: nat)
    requires c.policy.Cyclic? && 0 < c.fifoWrk && ports <= c.fifoWrk
    requires forall i :: 0 <= i < |log| ==> log[i].p == log[i].m.port < ports
    ensures Refusals(c, log, f) == GivenUp(c, log, f)
    decreases |log|
  {
    if log != [] {
      OwnRefusals(c, log[..|log| - 1], ports, f);
      ProbesCoverAll(c.fifoWrk, log[|log| - 1].p);
      assert Target(c, log[|log| - 1].m, log[|log| - 1].p, Tries(c)) == ProbeAt(c.fifoWrk, log[|log| - 1].p, c.fifoWrk);
    }
  }
}

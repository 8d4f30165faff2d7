/**
 The theorems about whole runs of the generic pipeline: for every interleaving of arrivals, dequeues,
 rewrites, partial enqueues and transmissions, by any number of workers.
 */
module GenericRuns {
  import opened Sequences
  import opened EventDev
  import opened GenericPipeline
  import opened GenericOrder

  /** run leads from s to t. */
  ghost predicate Leads(c: Config, s: State, run: seq<Step>, t: State)
    requires WellPlaced(c, s)
    decreases |run|
  {
    if run == [] then s == t
    else Enabled(c, s, run[0]) && (StepKeepsPlacement(c, s, run[0]); Leads(c, Apply(c, s, run[0]), run[1..], t))
  }

  /** A run starts with its first step. */
  lemma {:induction false} LeadsCons(c: Config, s: State, step: Step, run: seq<Step>, t: State)
    requires WellPlaced(c, s) && Enabled(c, s, step) && WellPlaced(c, Apply(c, s, step))
    ensures Leads(c, Apply(c, s, step), run, t) <==> Leads(c, s, [step] + run, t)
  {
    assert ([step] + run)[1..] == run;
  }

  lemma {:induction false} LeadsHead(c: Config, s: State, step: Step, run: seq<Step>, t: State)
    requires WellPlaced(c, s) && Leads(c, s, [step] + run, t)
    ensures Enabled(c, s, step)
  {
    assert ([step] + run)[0] == step;
  }

  /** s is reachable with numWorkers workers. */
  ghost predicate Reachable(c: Config, numWorkers: nat, s: State) {
    Chained(c) && exists run :: Leads(c, Init(c, numWorkers), run, s)
  }

  lemma {:induction false} InitInv(c: Config, numWorkers: nat)
    requires Chained(c)
    ensures Inv(c, Init(c, numWorkers))
  {
    var s := Init(c, numWorkers);
    forall cl ensures Line(c, s, cl) == [] {
      forall q | 0 <= q <= c.n ensures Out(c, s, q, cl) == [] {
        FlattenEmpty(Rows(s.workers, q, cl));
      }
      FlattenEmpty(Segments(c, s, cl));
    }
  }

  lemma {:induction false} RunKeepsInv(c: Config, s: State, run: seq<Step>, t: State)
    requires Inv(c, s) && Leads(c, s, run, t)
    ensures Inv(c, t) && |t.workers| == |s.workers|
    decreases |run|
  {
    if run != [] {
      StepKeepsInv(c, s, run[0]);
      RunKeepsInv(c, Apply(c, s, run[0]), run[1..], t);
    }
  }

  lemma {:induction false} ReachableInv(c: Config, numWorkers: nat, s: State)
    requires Reachable(c, numWorkers, s)
    ensures Inv(c, s) && |s.workers| == numWorkers
  {
    InitInv(c, numWorkers);
    var run :| Leads(c, Init(c, numWorkers), run, s);
    RunKeepsInv(c, Init(c, numWorkers), run, s);
  }

  /** With atomic queues the conveyor of every RSS value spells its arrivals; so what has been
      transmitted is a prefix of what arrived, in the same order. */
  lemma {:induction false} FlowOrder(c: Config, numWorkers: nat, s: State, rss: nat)
    requires Reachable(c, numWorkers, s) && c.queueType == Atomic
    ensures |s.queues| == c.n + 1 && Line(c, s, Rss(rss)) == PickPackets(s.arrived, Rss(rss))
    ensures Pick(s.sent, c.n, Rss(rss)) <= PickPackets(s.arrived, Rss(rss))
  {
    ReachableInv(c, numWorkers, s);
    assert Tracked(c, Rss(rss));
    SegmentsAt(c, s, Rss(rss), c.n);
    FlattenAround(Segments(c, s, Rss(rss)), 0);
  }

  /** Whatever the queue type, every packet that arrived is in exactly one place and no other is
      anywhere: nothing is lost, duplicated or invented. */
  lemma {:induction false} EveryPacketInOnePlace(c: Config, numWorkers: nat, s: State, id: nat)
    requires Reachable(c, numWorkers, s)
    ensures |s.queues| == c.n + 1 && Line(c, s, One(id)) == PickPackets(s.arrived, One(id))
    ensures |Line(c, s, One(id))| == (if exists p :: p in s.arrived && p.id == id then 1 else 0)
  {
    ReachableInv(c, numWorkers, s);
    assert Tracked(c, One(id));
    PickedAtMostOnce(s.arrived, id);
    if p :| p in s.arrived && p.id == id {
      PickedWhenPresent(s.arrived, p);
    }
  }

  lemma {:induction false} PickedWhenPresent(ps: seq<Packet>, p: Packet)
    requires p in ps
    ensures p in PickPackets(ps, One(p.id))
  {
    if ps[|ps| - 1] != p {
      PickedWhenPresent(ps[..|ps| - 1], p);
    }
  }

  /** Queue ids stay in 0..n, workers only see 0..n-1, and a transmitted packet was forwarded by the
      stages 0, 1, ..., n-1, each once and in this order. */
  lemma {:induction false} StageSafety(c: Config, numWorkers: nat, s: State)
    requires Reachable(c, numWorkers, s)
    ensures |s.queues| == c.n + 1
    ensures forall q, k :: 0 <= q <= c.n && 0 <= k < |s.queues[q]| ==>
      s.queues[q][k].ev.queueId == q && s.queues[q][k].trail == UpTo(q)
    ensures forall w, k :: 0 <= w < |s.workers| && 0 <= k < |s.workers[w].batch| ==>
      var cell := s.workers[w].batch[k];
      cell.at < c.n && cell.trail == UpTo(cell.at + 1)
      && cell.ev.queueId == (if s.workers[w].ready then cell.at + 1 else cell.at)
    ensures forall k :: 0 <= k < |s.sent| ==> s.sent[k].trail == UpTo(c.n)
  {
    ReachableInv(c, numWorkers, s);
    forall q, k | 0 <= q <= c.n && 0 <= k < |s.queues[q]|
      ensures s.queues[q][k].ev.queueId == q && s.queues[q][k].trail == UpTo(q)
    {
      assert QueuedOk(c, s.queues[q][k], q);
    }
    forall w, k | 0 <= w < |s.workers| && 0 <= k < |s.workers[w].batch|
      ensures HeldOk(c, s.workers[w].batch[k], s.workers[w].ready)
    {
    }
    forall k | 0 <= k < |s.sent| ensures s.sent[k].trail == UpTo(c.n) {
      assert QueuedOk(c, s.sent[k], c.n);
    }
  }

  /* ---------------------------------------------------------------- progress */

  ghost predicate Drained(s: State) {
    && (forall q :: 0 <= q < |s.queues| ==> s.queues[q] == [])
    && (forall w :: 0 <= w < |s.workers| ==> s.workers[w].batch == [])
  }

  /** While a packet is in flight some step other than an arrival can be taken. */
  lemma {:induction false} NeverStuck(c: Config, numWorkers: nat, s: State) returns (step: Step)
    requires Reachable(c, numWorkers, s) && numWorkers > 0 && !Drained(s)
    ensures |s.queues| == c.n + 1 && !step.Arrive? && Enabled(c, s, step)
  {
    ReachableInv(c, numWorkers, s);
    if w :| 0 <= w < |s.workers| && s.workers[w].batch != [] {
      step := if s.workers[w].ready then Accept(w) else Rewrite(w);
    } else {
      var q :| 0 <= q < |s.queues| && s.queues[q] != [];
      step := if q == c.n then Transmit else Take(0, q, 0);
      assert !s.workers[0].ready;
    }
  }

  /** Steps still ahead of a list of cells: three for each stage not yet left, plus a bias. */
  function Load(c: Config, cells: seq<Cell>, bias: int): int {
    if cells == [] then 0 else 3 * (c.n - cells[0].at) + bias + Load(c, cells[1..], bias)
  }

  lemma {:induction false} LoadConcat(c: Config, a: seq<Cell>, b: seq<Cell>, bias: int)
    ensures Load(c, a + b, bias) == Load(c, a, bias) + Load(c, b, bias)
  {
    if a == [] {
      assert a + b == b;
    } else {
      LoadConcat(c, a[1..], b, bias);
      assert (a + b)[1..] == a[1..] + b && (a + b)[0] == a[0];
    }
  }

  lemma {:induction false} LoadOne(c: Config, x: Cell, bias: int)
    ensures Load(c, [x], bias) == 3 * (c.n - x.at) + bias
  {
    assert [x][1..] == [];
  }

  lemma {:induction false} LoadSnoc(c: Config, a: seq<Cell>, x: Cell, bias: int)
    ensures Load(c, a + [x], bias) == Load(c, a, bias) + 3 * (c.n - x.at) + bias
  {
    LoadConcat(c, a, [x], bias);
    LoadOne(c, x, bias);
  }

  lemma {:induction false} LoadRemove(c: Config, a: seq<Cell>, k: nat, bias: int)
    requires k < |a|
    ensures Load(c, Without(a, k), bias) == Load(c, a, bias) - 3 * (c.n - a[k].at) - bias
  {
    assert a == (a[..k] + [a[k]]) + a[k + 1..];
    LoadConcat(c, a[..k] + [a[k]], a[k + 1..], bias);
    LoadConcat(c, a[..k], a[k + 1..], bias);
    LoadSnoc(c, a[..k], a[k], bias);
  }

  lemma {:induction false} LoadBias(c: Config, a: seq<Cell>, b: seq<Cell>, bias: int)
    requires |a| == |b| && forall j :: 0 <= j < |a| ==> a[j].at == b[j].at
    ensures Load(c, b, bias - 1) == Load(c, a, bias) - |a|
  {
    if a != [] {
      LoadBias(c, a[1..], b[1..], bias);
    }
  }

  lemma {:induction false} LoadNonNegative(c: Config, a: seq<Cell>, bias: int)
    requires forall j :: 0 <= j < |a| ==> 3 * (c.n - a[j].at) + bias >= 0
    ensures Load(c, a, bias) >= 0
  {
    if a != [] {
      LoadNonNegative(c, a[1..], bias);
    }
  }

  function Total(xs: seq<int>): int {
    if xs == [] then 0 else xs[0] + Total(xs[1..])
  }

  lemma {:induction false} TotalUpdate(xs: seq<int>, i: nat, x: int)
    requires i < |xs|
    ensures Total(xs[i := x]) == Total(xs) - xs[i] + x
  {
    if i > 0 {
      TotalUpdate(xs[1..], i - 1, x);
      assert xs[i := x][1..] == xs[1..][i - 1 := x];
    } else {
      assert xs[i := x][1..] == xs[1..];
    }
  }

  lemma {:induction false} TotalNonNegative(xs: seq<int>)
    requires forall i :: 0 <= i < |xs| ==> xs[i] >= 0
    ensures Total(xs) >= 0
  {
    if xs != [] {
      TotalNonNegative(xs[1..]);
    }
  }

  function QueueLoads(c: Config, qs: seq<seq<Cell>>): seq<int> {
    seq(|qs|, q requires 0 <= q < |qs| => Load(c, qs[q], 1))
  }

  function WorkerLoads(c: Config, ws: seq<Worker>): seq<int> {
    seq(|ws|, w requires 0 <= w < |ws| => Load(c, ws[w].batch, if ws[w].ready then -1 else 0))
  }

  /** How many device steps the packets in flight still have to make, rewrites counted per event. */
  function Work(c: Config, s: State): int {
    Total(QueueLoads(c, s.queues)) + Total(WorkerLoads(c, s.workers))
  }

  lemma {:induction false} WorkNonNegative(c: Config, s: State)
    requires WellPlaced(c, s)
    ensures Work(c, s) >= 0
  {
    forall q | 0 <= q < |s.queues| ensures QueueLoads(c, s.queues)[q] >= 0 {
      forall j | 0 <= j < |s.queues[q]| ensures s.queues[q][j].at <= c.n {
        assert QueuedOk(c, s.queues[q][j], q);
      }
      LoadNonNegative(c, s.queues[q], 1);
    }
    TotalNonNegative(QueueLoads(c, s.queues));
    forall w | 0 <= w < |s.workers| ensures WorkerLoads(c, s.workers)[w] >= 0 {
      forall j | 0 <= j < |s.workers[w].batch| ensures s.workers[w].batch[j].at < c.n {
        assert HeldOk(c, s.workers[w].batch[j], s.workers[w].ready);
      }
      LoadNonNegative(c, s.workers[w].batch, if s.workers[w].ready then -1 else 0);
    }
    TotalNonNegative(WorkerLoads(c, s.workers));
  }

  lemma {:induction false} QueueWork(c: Config, qs: seq<seq<Cell>>, q: nat, x: seq<Cell>)
    requires q < |qs|
    ensures Total(QueueLoads(c, qs[q := x])) == Total(QueueLoads(c, qs)) - Load(c, qs[q], 1) + Load(c, x, 1)
  {
    TotalUpdate(QueueLoads(c, qs), q, Load(c, x, 1));
    assert QueueLoads(c, qs[q := x]) == QueueLoads(c, qs)[q := Load(c, x, 1)];
  }

  lemma {:induction false} WorkerWork(c: Config, ws: seq<Worker>, w: nat, x: Worker)
    requires w < |ws|
    ensures Total(WorkerLoads(c, ws[w := x])) == Total(WorkerLoads(c, ws))
            - Load(c, ws[w].batch, if ws[w].ready then -1 else 0) + Load(c, x.batch, if x.ready then -1 else 0)
  {
    var l := Load(c, x.batch, if x.ready then -1 else 0);
    TotalUpdate(WorkerLoads(c, ws), w, l);
    assert WorkerLoads(c, ws[w := x]) == WorkerLoads(c, ws)[w := l];
  }

  lemma {:induction false} TakeDoesWork(c: Config, s: State, w: nat, q: nat, k: nat)
    requires WellPlaced(c, s) && Enabled(c, s, Take(w, q, k))
    ensures Work(c, Apply(c, s, Take(w, q, k))) < Work(c, s)
  {
    var t := Apply(c, s, Take(w, q, k));
    var cell := s.queues[q][k];
    assert QueuedOk(c, cell, q);
    QueueWork(c, s.queues, q, t.queues[q]);
    LoadRemove(c, s.queues[q], k, 1);
    WorkerWork(c, s.workers, w, t.workers[w]);
    LoadSnoc(c, s.workers[w].batch, cell.(trail := cell.trail + [q]), 0);
  }

  /** An arrival brings 3n+1 units of work; every other step does at least one. */
  lemma {:induction false} StepDoesWork(c: Config, s: State, step: Step)
    requires WellPlaced(c, s) && Enabled(c, s, step)
    ensures step.Arrive? ==> Work(c, Apply(c, s, step)) == Work(c, s) + 3 * c.n + 1
    ensures !step.Arrive? ==> Work(c, Apply(c, s, step)) < Work(c, s)
  {
    var t := Apply(c, s, step);
    match step {
      case Arrive(pkt) =>
        QueueWork(c, s.queues, 0, t.queues[0]);
        LoadSnoc(c, s.queues[0], t.queues[0][|s.queues[0]|], 1);
      case Take(w, q, k) => TakeDoesWork(c, s, w, q, k);
      case Rewrite(w) =>
        WorkerWork(c, s.workers, w, t.workers[w]);
        LoadBias(c, s.workers[w].batch, t.workers[w].batch, 0);
      case Accept(w) =>
        var cell := s.workers[w].batch[0];
        assert HeldOk(c, cell, true);
        var q := cell.ev.queueId;
        QueueWork(c, s.queues, q, t.queues[q]);
        LoadSnoc(c, s.queues[q], Enqueued(cell.ev, cell.trail), 1);
        WorkerWork(c, s.workers, w, t.workers[w]);
      case Transmit =>
        assert QueuedOk(c, s.queues[c.n][0], c.n);
        QueueWork(c, s.queues, c.n, t.queues[c.n]);
    }
  }

  function Arrivals(run: seq<Step>): nat {
    if run == [] then 0 else (if run[0].Arrive? then 1 else 0) + Arrivals(run[1..])
  }

  lemma {:induction false} RunDoesWork(c: Config, s: State, run: seq<Step>, t: State)
    requires WellPlaced(c, s) && Leads(c, s, run, t)
    ensures WellPlaced(c, t)
    ensures Work(c, t) + |run| - Arrivals(run) <= Work(c, s) + Arrivals(run) * (3 * c.n + 1)
    decreases |run|
  {
    if run != [] {
      var price, rest := 3 * c.n + 1, Arrivals(run[1..]);
      StepKeepsPlacement(c, s, run[0]);
      StepDoesWork(c, s, run[0]);
      RunDoesWork(c, Apply(c, s, run[0]), run[1..], t);
      Distribute(rest, price);
    }
  }

  lemma {:induction false} Distribute(k: nat, price: nat)
    ensures (k + 1) * price == k * price + price
  {
  }

  /** Every run is finite once arrivals stop: a packets cost at most (3n+1)a further steps. */
  lemma {:induction false} RunsAreBounded(c: Config, numWorkers: nat, run: seq<Step>, t: State)
    requires Chained(c) && Leads(c, Init(c, numWorkers), run, t)
    ensures |run| - Arrivals(run) <= Arrivals(run) * (3 * c.n + 1)
  {
    var s := Init(c, numWorkers);
    RunDoesWork(c, s, run, t);
    WorkNonNegative(c, t);
    forall q | 0 <= q < |s.queues| ensures QueueLoads(c, s.queues)[q] == 0 {
    }
    TotalZero(QueueLoads(c, s.queues));
    TotalZero(WorkerLoads(c, s.workers));
  }

  /** A run that cannot be prolonged without an arrival has drained the pipeline. */
  lemma {:induction false} MaximalRunDrains(c: Config, numWorkers: nat, run: seq<Step>, t: State)
    requires Chained(c) && numWorkers > 0 && Leads(c, Init(c, numWorkers), run, t)
    requires |t.queues| == c.n + 1 ==> forall step: Step :: !step.Arrive? ==> !Enabled(c, t, step)
    ensures Drained(t) && |run| <= Arrivals(run) * (3 * c.n + 2)
  {
    RunsAreBounded(c, numWorkers, run, t);
    OneMore(Arrivals(run), 3 * c.n + 1);
    if !Drained(t) {
      var step := NeverStuck(c, numWorkers, t);
    }
  }

  lemma {:induction false} OneMore(k: nat, price: nat)
    ensures k * (price + 1) == k * price + k
  {
  }

  /** From every reachable state the pipeline can be drained, without arrivals and within Work steps. */
  lemma {:induction false} DrainingRun(c: Config, numWorkers: nat, s: State) returns (run: seq<Step>, t: State)
    requires Reachable(c, numWorkers, s) && numWorkers > 0
    ensures WellPlaced(c, s) && Leads(c, s, run, t) && Drained(t) && Arrivals(run) == 0 && |run| <= Work(c, s)
    decreases Work(c, s)
  {
    ReachableInv(c, numWorkers, s);
    WorkNonNegative(c, s);
    if Drained(s) {
      run, t := [], s;
    } else {
      var step := NeverStuck(c, numWorkers, s);
      StepDoesWork(c, s, step);
      StepKeepsPlacement(c, s, step);
      WorkNonNegative(c, Apply(c, s, step));
      ReachableNext(c, numWorkers, s, step);
      run, t := DrainingRun(c, numWorkers, Apply(c, s, step));
      LeadsCons(c, s, step, run, t);
      assert ([step] + run)[1..] == run;
      run := [step] + run;
    }
  }

  lemma {:induction false} LeadsSnoc(c: Config, s: State, run: seq<Step>, t: State, step: Step)
    requires WellPlaced(c, s) && Leads(c, s, run, t) && WellPlaced(c, t) && Enabled(c, t, step)
    ensures Leads(c, s, run + [step], Apply(c, t, step))
    decreases |run|
  {
    if run == [] {
      StepKeepsPlacement(c, s, step);
      LeadsCons(c, s, step, [], Apply(c, t, step));
      assert [] + [step] == [step] + [];
    } else {
      StepKeepsPlacement(c, s, run[0]);
      LeadsSnoc(c, Apply(c, s, run[0]), run[1..], t, step);
      LeadsCons(c, s, run[0], run[1..] + [step], Apply(c, t, step));
      assert [run[0]] + (run[1..] + [step]) == run + [step];
    }
  }

  lemma {:induction false} ReachableNext(c: Config, numWorkers: nat, s: State, step: Step)
    requires Reachable(c, numWorkers, s) && WellPlaced(c, s) && Enabled(c, s, step)
    ensures Reachable(c, numWorkers, Apply(c, s, step))
  {
    var run :| Leads(c, Init(c, numWorkers), run, s);
    InitInv(c, numWorkers);
    LeadsSnoc(c, Init(c, numWorkers), run, s, step);
  }

  lemma {:induction false} TotalZero(xs: seq<int>)
    requires forall i :: 0 <= i < |xs| ==> xs[i] == 0
    ensures Total(xs) == 0
  {
    if xs != [] {
      TotalZero(xs[1..]);
    }
  }

  /** Once drained, each RSS value has left completely and in arrival order. */
  lemma {:induction false} DrainedInOrder(c: Config, numWorkers: nat, s: State, rss: nat)
    requires Reachable(c, numWorkers, s) && c.queueType == Atomic && Drained(s)
    ensures Pick(s.sent, c.n, Rss(rss)) == PickPackets(s.arrived, Rss(rss))
  {
    var cl := Rss(rss);
    FlowOrder(c, numWorkers, s, rss);
    forall q | 0 <= q < c.n ensures Out(c, s, q, cl) == [] {
      FlattenEmpty(Rows(s.workers, q, cl));
    }
    FlattenAround(Segments(c, s, cl), 0);
    FlattenEmpty(Segments(c, s, cl)[1..]);
    SegmentsAt(c, s, cl, c.n);
  }
}

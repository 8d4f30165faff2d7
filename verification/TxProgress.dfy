/**
 Progress of the transmit-from-worker pipeline with atomic queues: what every run costs. An event makes two steps,
 a dequeue and an enqueue or transmission, at each stage its port's events visit, and not one step more.
 */
module TxProgress {
  import opened Sequences
  import opened EventDev
  import opened TxRouting
  import opened TxPipeline
  import G = GenericPipeline
  import R = GenericRuns

  /** The steps an event in its queue has ahead of it. */
  function Price(c: Setup, e: Event): int
    requires c.l.n > 0
  {
    2 * (Stages(c, PortOf(c, e)) - SlotOf(c, e))
  }

  function Load(c: Setup, es: seq<Event>): int
    requires c.l.n > 0
  {
    if es == [] then 0 else Price(c, es[0]) + Load(c, es[1..])
  }

  lemma {:induction false} LoadConcat(c: Setup, a: seq<Event>, b: seq<Event>)
    requires c.l.n > 0
    ensures Load(c, a + b) == Load(c, a) + Load(c, b)
  {
    if a == [] {
      assert a + b == b;
    } else {
      LoadConcat(c, a[1..], b);
      assert (a + b)[1..] == a[1..] + b && (a + b)[0] == a[0];
    }
  }

  lemma {:induction false} LoadSnoc(c: Setup, es: seq<Event>, e: Event)
    requires c.l.n > 0
    ensures Load(c, es + [e]) == Load(c, es) + Price(c, e)
  {
    LoadConcat(c, es, [e]);
    assert [e][1..] == [];
  }

  lemma {:induction false} LoadWithout(c: Setup, es: seq<Event>, k: nat)
    requires c.l.n > 0 && k < |es|
    ensures Load(c, G.Without(es, k)) == Load(c, es) - Price(c, es[k])
  {
    LoadConcat(c, es[..k], es[k + 1..]);
    LoadSnoc(c, es[..k], es[k]);
    LoadConcat(c, es[..k] + [es[k]], es[k + 1..]);
    assert es == es[..k] + [es[k]] + es[k + 1..];
  }

  function QueueWorks(c: Setup, qs: seq<seq<Event>>): (r: seq<int>)
    requires c.l.n > 0
    ensures |r| == |qs|
  {
    seq(|qs|, q requires 0 <= q < |qs| => Load(c, qs[q]))
  }

  /** An event in hand has made the first of its two steps. */
  function HandWork(c: Setup, h: Option<Event>): int
    requires c.l.n > 0
  {
    if h.Some? then Price(c, h.value) - 1 else 0
  }

  function HandWorks(c: Setup, hands: seq<Option<Event>>): (r: seq<int>)
    requires c.l.n > 0
    ensures |r| == |hands|
  {
    seq(|hands|, w requires 0 <= w < |hands| => HandWork(c, hands[w]))
  }

  /** The steps the events in flight still have to make. */
  function Work(c: Setup, s: State): int
    requires c.l.n > 0
  {
    R.Total(QueueWorks(c, s.queues)) + R.Total(HandWorks(c, s.hands))
  }

  lemma {:induction false} QueueChanges(c: Setup, qs: seq<seq<Event>>, q: nat, es: seq<Event>)
    requires c.l.n > 0 && q < |qs|
    ensures R.Total(QueueWorks(c, qs[q := es])) == R.Total(QueueWorks(c, qs)) - Load(c, qs[q]) + Load(c, es)
  {
    R.TotalUpdate(QueueWorks(c, qs), q, Load(c, es));
    assert QueueWorks(c, qs[q := es]) == QueueWorks(c, qs)[q := Load(c, es)];
  }

  lemma {:induction false} HandChanges(c: Setup, hands: seq<Option<Event>>, w: nat, h: Option<Event>)
    requires c.l.n > 0 && w < |hands|
    ensures R.Total(HandWorks(c, hands[w := h]))
         == R.Total(HandWorks(c, hands)) - HandWork(c, hands[w]) + HandWork(c, h)
  {
    R.TotalUpdate(HandWorks(c, hands), w, HandWork(c, h));
    assert HandWorks(c, hands[w := h]) == HandWorks(c, hands)[w := HandWork(c, h)];
  }

  lemma {:induction false} ArriveBringsWork(c: Setup, s: State, p: nat, pkt: Packet)
    requires Placed(c, s) && Enabled(c, s, Arrive(p, pkt))
    ensures Work(c, Apply(c, s, Arrive(p, pkt))) == Work(c, s) + 2 * Stages(c, p)
  {
    var q := Home(c, p, 0);
    AtHome(c, p, 0, Injected(c, p, pkt));
    QueueChanges(c, s.queues, q, s.queues[q] + [Injected(c, p, pkt)]);
    LoadSnoc(c, s.queues[q], Injected(c, p, pkt));
  }

  lemma {:induction false} TakeDoesWork(c: Setup, s: State, w: nat, q: nat, k: nat)
    requires Placed(c, s) && Enabled(c, s, Take(w, q, k))
    ensures Work(c, Apply(c, s, Take(w, q, k))) == Work(c, s) - 1
  {
    QueueChanges(c, s.queues, q, G.Without(s.queues[q], k));
    LoadWithout(c, s.queues[q], k);
    HandChanges(c, s.hands, w, Some(s.queues[q][k]));
  }

  lemma {:induction false} PutDoesWork(c: Setup, s: State, w: nat)
    requires Placed(c, s) && Enabled(c, s, Put(w))
    ensures Work(c, Apply(c, s, Put(w))) == Work(c, s) - 1
  {
    var e := s.hands[w].value;
    assert EventOk(c, e);
    PutDecides(c, e);
    HandChanges(c, s.hands, w, None);
    match Decide(c.l, e) {
      case Transmit =>
      case Fwd(y) =>
        QueueChanges(c, s.queues, y.queueId, s.queues[y.queueId] + [y]);
        LoadSnoc(c, s.queues[y.queueId], y);
    }
  }

  /** An arrival brings two units of work for each stage ahead; every other step does exactly one. */
  lemma {:induction false} StepDoesWork(c: Setup, s: State, step: Step)
    requires Placed(c, s) && Enabled(c, s, step)
    ensures Work(c, Apply(c, s, step)) == Work(c, s) + (if step.Arrive? then 2 * Stages(c, step.p) else -1)
  {
    match step {
      case Arrive(p, pkt) => ArriveBringsWork(c, s, p, pkt);
      case Take(w, q, k) => TakeDoesWork(c, s, w, q, k);
      case Put(w) => PutDoesWork(c, s, w);
    }
  }

  /** The steps of the workers in a run. */
  function WorkerSteps(run: seq<Step>): nat {
    if run == [] then 0 else (if run[0].Arrive? then 0 else 1) + WorkerSteps(run[1..])
  }

  /** What its arrivals bring. */
  function Brought(c: Setup, run: seq<Step>): int
    requires c.l.n > 0
  {
    if run == [] then 0 else (if run[0].Arrive? then 2 * Stages(c, run[0].p) else 0) + Brought(c, run[1..])
  }

  lemma {:induction false} RunDoesWork(c: Setup, s: State, run: seq<Step>, t: State)
    requires Placed(c, s) && Leads(c, s, run, t)
    ensures Placed(c, t) && |t.hands| == |s.hands|
    ensures WorkerSteps(run) + Work(c, t) == Work(c, s) + Brought(c, run)
    decreases |run|
  {
    if run != [] {
      StepKeepsPlaced(c, s, run[0]);
      StepDoesWork(c, s, run[0]);
      RunDoesWork(c, Apply(c, s, run[0]), run[1..], t);
    }
  }

  lemma {:induction false} NoWork(c: Setup, s: State)
    requires c.l.n > 0 && Drained(s)
    ensures Work(c, s) == 0
  {
    forall q | 0 <= q < |s.queues| ensures QueueWorks(c, s.queues)[q] == 0 {
      assert s.queues[q] == [];
    }
    R.TotalZero(QueueWorks(c, s.queues));
    R.TotalZero(HandWorks(c, s.hands));
  }

  lemma {:induction false} PriceOfPlaced(c: Setup, e: Event)
    requires SetupOk(c) && EventOk(c, e)
    ensures Price(c, e) >= 2
  {
  }

  lemma {:induction false} LoadNonNegative(c: Setup, es: seq<Event>)
    requires SetupOk(c) && forall k :: 0 <= k < |es| ==> EventOk(c, es[k])
    ensures Load(c, es) >= 0
  {
    if es != [] {
      PriceOfPlaced(c, es[0]);
      LoadNonNegative(c, es[1..]);
    }
  }

  lemma {:induction false} WorkNonNegative(c: Setup, s: State)
    requires Placed(c, s)
    ensures Work(c, s) >= 0
  {
    forall q | 0 <= q < |s.queues| ensures QueueWorks(c, s.queues)[q] >= 0 {
      LoadNonNegative(c, s.queues[q]);
    }
    forall w | 0 <= w < |s.hands| ensures HandWorks(c, s.hands)[w] >= 0 {
      if s.hands[w].Some? {
        PriceOfPlaced(c, s.hands[w].value);
      }
    }
    R.TotalNonNegative(QueueWorks(c, s.queues));
    R.TotalNonNegative(HandWorks(c, s.hands));
  }

  /** The account of every run: the steps made and the steps still ahead are two for each packet and stage it
      visits; so without arrivals every run ends. */
  lemma {:induction false} RunsAreCounted(c: Setup, workers: nat, run: seq<Step>, t: State)
    requires SetupOk(c) && (InitPlaced(c, workers); Leads(c, Init(c, workers), run, t))
    ensures WorkerSteps(run) + Work(c, t) == Brought(c, run) && 0 <= Work(c, t)
  {
    InitPlaced(c, workers);
    NoWork(c, Init(c, workers));
    RunDoesWork(c, Init(c, workers), run, t);
    WorkNonNegative(c, t);
  }

  /** A run that no worker can prolong has drained the pipeline and made exactly the steps its packets asked for. */
  lemma {:induction false} MaximalRunDrains(c: Setup, workers: nat, run: seq<Step>, t: State)
    requires SetupOk(c) && workers > 0 && (InitPlaced(c, workers); Leads(c, Init(c, workers), run, t))
    requires forall step: Step :: !step.Arrive? ==> !Enabled(c, t, step)
    ensures Drained(t) && WorkerSteps(run) == Brought(c, run)
  {
    InitPlaced(c, workers);
    RunDoesWork(c, Init(c, workers), run, t);
    RunsAreCounted(c, workers, run, t);
    if !Drained(t) {
      var step := NeverStuck(c, workers, t);
    }
    NoWork(c, t);
  }
}

/**
 Why the order theorem of the generic pipeline asks for atomic queues: with parallel ones a single worker is
 enough to let a packet overtake an earlier one of the same RSS value on its way through all stages.
 */
module GenericParallel {
  import opened EventDev
  import opened GenericPipeline
  import opened GenericOrder
  import opened GenericRuns
  import opened GenericBurst

  function Early(rss: nat): Packet {
    Packet(0, rss)
  }

  function Late(rss: nat): Packet {
    Packet(1, rss)
  }

  /** The cell of a packet that has reached queue q. */
  function CellAt(c: Config, p: Packet, q: nat): Cell
    requires c.numFids > 0
  {
    var flow := FlowAt(c, q, p.rss);
    Cell(Event(p, EthDev, q, flow, 0, c.queueType, if q == 0 then New else Forward), q, flow, UpTo(q))
  }

  function Row(c: Config, rss: nat, q: nat, i: nat): seq<Cell>
    requires c.numFids > 0
  {
    (if i == 0 then [CellAt(c, Early(rss), 0)] else []) + (if i == q then [CellAt(c, Late(rss), q)] else [])
  }

  /** The earlier packet still waits at the first stage, the later one has reached queue q. */
  function Ahead(c: Config, numWorkers: nat, rss: nat, q: nat): State
    requires c.numFids > 0
  {
    Init(c, numWorkers).(arrived := [Early(rss), Late(rss)],
                         queues := seq(c.n + 1, i requires i >= 0 => Row(c, rss, q, i)))
  }

  lemma {:induction false} Reissue(c: Config, p: Packet, q: nat)
    requires Chained(c) && q < c.n
    ensures Reissued(c, Dequeued(CellAt(c, p, q), q)) == CellAt(c, p, q + 1)
  {
    assert UpTo(q) + [q] == UpTo(q + 1);
  }

  lemma {:induction false} OneStage(c: Config, numWorkers: nat, rss: nat, q: nat)
    requires Chained(c) && q < c.n
    ensures var s, pick := Ahead(c, numWorkers, rss, q), Choice(q, if q == 0 then 1 else 0);
      Within(s.queues, pick) && s.queues[q][pick.k] == CellAt(c, Late(rss), q)
      && AfterSingle(c, s, pick) == Ahead(c, numWorkers, rss, q + 1)
  {
    var s, pick := Ahead(c, numWorkers, rss, q), Choice(q, if q == 0 then 1 else 0);
    Reissue(c, Late(rss), q);
    var after, next := AfterSingle(c, s, pick).queues, Ahead(c, numWorkers, rss, q + 1).queues;
    forall i | 0 <= i <= c.n ensures after[i] == next[i] {
      assert Row(c, rss, q + 1, i) == next[i];
    }
    assert after == next;
  }

  /** The state in which the later packet has left and the earlier one has not. */
  ghost predicate Overtaken(c: Config, rss: nat, s: State) {
    s.arrived == [Early(rss), Late(rss)] && Pick(s.sent, c.n, Rss(rss)) == [Late(rss)]
  }

  lemma {:induction false} Travel(c: Config, numWorkers: nat, rss: nat, q: nat) returns (run: seq<Step>, t: State)
    requires Chained(c) && c.queueType == Parallel && numWorkers > 0 && q <= c.n
    requires WellPlaced(c, Ahead(c, numWorkers, rss, q))
    ensures Leads(c, Ahead(c, numWorkers, rss, q), run, t) && Overtaken(c, rss, t)
    decreases c.n - q
  {
    var s := Ahead(c, numWorkers, rss, q);
    if q == c.n {
      t := LastStep(c, numWorkers, rss);
      run := [Transmit];
    } else {
      var pick := Choice(q, if q == 0 then 1 else 0);
      StageCanBeLeft(c, numWorkers, rss, q);
      var rest: seq<Step>;
      rest, t := Travel(c, numWorkers, rss, q + 1);
      SingleMoves(c, s, 0, pick, rest, t);
      run := [Take(0, pick.q, pick.k), Rewrite(0), Accept(0)] + rest;
    }
  }

  lemma {:induction false} LastStep(c: Config, numWorkers: nat, rss: nat) returns (t: State)
    requires Chained(c) && WellPlaced(c, Ahead(c, numWorkers, rss, c.n))
    ensures Leads(c, Ahead(c, numWorkers, rss, c.n), [Transmit], t) && Overtaken(c, rss, t)
  {
    var s := Ahead(c, numWorkers, rss, c.n);
    t := Apply(c, s, Transmit);
    assert [Transmit][1..] == [];
    assert t.sent == [CellAt(c, Late(rss), c.n)];
    StepKeepsPlacement(c, s, Transmit);
  }

  lemma {:induction false} StageCanBeLeft(c: Config, numWorkers: nat, rss: nat, q: nat)
    requires Chained(c) && c.queueType == Parallel && numWorkers > 0 && q < c.n
    requires WellPlaced(c, Ahead(c, numWorkers, rss, q))
    ensures var s, pick := Ahead(c, numWorkers, rss, q), Choice(q, if q == 0 then 1 else 0);
      && Enabled(c, s, Take(0, pick.q, pick.k)) && s.queues[pick.q][pick.k].ev.queueId < c.n
      && AfterSingle(c, s, pick) == Ahead(c, numWorkers, rss, q + 1)
      && WellPlaced(c, Ahead(c, numWorkers, rss, q + 1))
  {
    var s, pick := Ahead(c, numWorkers, rss, q), Choice(q, if q == 0 then 1 else 0);
    OneStage(c, numWorkers, rss, q);
    SingleMoves(c, s, 0, pick, [], s);
  }

  lemma {:induction false} BothArrive(c: Config, numWorkers: nat, rss: nat)
    requires Chained(c) && c.queueType == Parallel
    ensures var s := Init(c, numWorkers);
      WellPlaced(c, s) && Enabled(c, s, Arrive(Early(rss))) &&
      (StepKeepsPlacement(c, s, Arrive(Early(rss)));
       var u := Apply(c, s, Arrive(Early(rss)));
       Enabled(c, u, Arrive(Late(rss))) && Apply(c, u, Arrive(Late(rss))) == Ahead(c, numWorkers, rss, 0))
  {
    var s := Init(c, numWorkers);
    StepKeepsPlacement(c, s, Arrive(Early(rss)));
    var u := Apply(c, s, Arrive(Early(rss)));
    assert UpTo(0) == [];
    var v, w := Apply(c, u, Arrive(Late(rss))).queues, Ahead(c, numWorkers, rss, 0).queues;
    assert u.queues[0] == [CellAt(c, Early(rss), 0)];
    assert v[0] == Row(c, rss, 0, 0);
    forall i | 0 <= i <= c.n ensures v[i] == w[i] {
      assert Row(c, rss, 0, i) == w[i];
    }
    assert v == w;
  }

  /** For every number of stages, every RSS value and any workers at all, parallel queues reach a state in
      which what was transmitted is no prefix of what arrived. */
  lemma {:induction false} ParallelReorders(c: Config, numWorkers: nat, rss: nat) returns (t: State)
    requires Chained(c) && c.queueType == Parallel && numWorkers > 0
    ensures Reachable(c, numWorkers, t)
    ensures !(Pick(t.sent, c.n, Rss(rss)) <= PickPackets(t.arrived, Rss(rss)))
  {
    var s := Init(c, numWorkers);
    BothArrive(c, numWorkers, rss);
    StepKeepsPlacement(c, s, Arrive(Early(rss)));
    var u := Apply(c, s, Arrive(Early(rss)));
    StepKeepsPlacement(c, u, Arrive(Late(rss)));
    var run: seq<Step>;
    run, t := Travel(c, numWorkers, rss, 0);
    LeadsCons(c, u, Arrive(Late(rss)), run, t);
    LeadsCons(c, s, Arrive(Early(rss)), [Arrive(Late(rss))] + run, t);
    PicksBoth(rss);
  }

  /** Unless the queues are ordered, the pipeline keeps the order of every RSS value exactly if they are atomic. */
  lemma {:induction false} OrderedIffAtomic(c: Config, numWorkers: nat)
    requires Chained(c) && numWorkers > 0 && c.queueType != Ordered
    ensures (forall s: State, rss: nat :: Reachable(c, numWorkers, s) ==> InOrder(c, s, rss)) <==> c.queueType == Atomic
  {
    if c.queueType == Atomic {
      forall s: State, rss: nat | Reachable(c, numWorkers, s) ensures InOrder(c, s, rss) {
        FlowOrder(c, numWorkers, s, rss);
      }
    } else {
      var t := ParallelReorders(c, numWorkers, 0);
      assert !InOrder(c, t, 0);
    }
  }

  /** What has been transmitted of an RSS value is a prefix of what arrived of it. */
  ghost predicate InOrder(c: Config, s: State, rss: nat) {
    Pick(s.sent, c.n, Rss(rss)) <= PickPackets(s.arrived, Rss(rss))
  }

  lemma {:induction false} PicksBoth(rss: nat)
    ensures PickPackets([Early(rss), Late(rss)], Rss(rss)) == [Early(rss), Late(rss)]
  {
    var one, two := [Early(rss)], [Early(rss), Late(rss)];
    assert one[..0] == [] && two[..1] == one;
    assert PickPackets(one, Rss(rss)) == one;
  }
}

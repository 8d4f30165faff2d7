/**
 The burst worker of the generic pipeline refines the single-event worker: a burst iteration that
 dequeues several events, rewrites them all and then enqueues them, in any split into accepted
 prefixes, reaches the state that the single-event loop reaches on the same events in turn.
 */
module GenericBurst {
  import opened EventDev
  import opened GenericPipeline
  import opened GenericRuns

  /** Which queued events a worker dequeues, in dequeue order: queue and position at that moment. */
  datatype Choice = Choice(q: nat, k: nat)

  function Takes(w: nat, picks: seq<Choice>): seq<Step> {
    if picks == [] then [] else [Take(w, picks[0].q, picks[0].k)] + Takes(w, picks[1..])
  }

  function Accepts(w: nat, m: nat): seq<Step> {
    if m == 0 then [] else [Accept(w)] + Accepts(w, m - 1)
  }

  function BurstSteps(w: nat, picks: seq<Choice>): seq<Step> {
    Takes(w, picks) + ([Rewrite(w)] + Accepts(w, |picks|))
  }

  function SingleSteps(w: nat, picks: seq<Choice>): seq<Step> {
    if picks == [] then []
    else [Take(w, picks[0].q, picks[0].k), Rewrite(w), Accept(w)] + SingleSteps(w, picks[1..])
  }

  /* ------------------------------------------------------ what the steps do to the queues */

  type Queues = seq<seq<Cell>>

  predicate Within(qs: Queues, p: Choice) {
    p.q < |qs| && p.k < |qs[p.q]|
  }

  function Removed(qs: Queues, p: Choice): Queues
    requires Within(qs, p)
  {
    qs[p.q := Without(qs[p.q], p.k)]
  }

  function Put(qs: Queues, x: Cell): Queues
    requires x.at < |qs|
  {
    qs[x.at := qs[x.at] + [x]]
  }

  function PutAll(qs: Queues, xs: seq<Cell>): Queues
    requires forall i :: 0 <= i < |xs| ==> xs[i].at < |qs|
    decreases |xs|
  {
    if xs == [] then qs else PutAll(Put(qs, xs[0]), xs[1..])
  }

  /** The events can be dequeued one after the other by worker w while it holds them all. */
  ghost predicate PicksOk(c: Config, s: State, w: nat, qs: Queues, picks: seq<Choice>)
    decreases |picks|
  {
    picks == [] ||
    (var p := picks[0];
     && Within(qs, p) && p.q < c.n && qs[p.q][p.k].ev.queueId < c.n
     && (c.queueType == Atomic ==> AtomicallySchedulable(s.(queues := qs), w, p.q, p.k))
     && PicksOk(c, s, w, Removed(qs, p), picks[1..]))
  }

  function Dequeued(cell: Cell, q: nat): Cell {
    cell.(trail := cell.trail + [q])
  }

  ghost function Taken(c: Config, s: State, w: nat, qs: Queues, picks: seq<Choice>): (r: seq<Cell>)
    requires PicksOk(c, s, w, qs, picks)
    ensures |r| == |picks| && forall i :: 0 <= i < |r| ==> r[i].ev.queueId < c.n
    decreases |picks|
  {
    if picks == [] then []
    else [Dequeued(qs[picks[0].q][picks[0].k], picks[0].q)] + Taken(c, s, w, Removed(qs, picks[0]), picks[1..])
  }

  ghost function Remaining(c: Config, s: State, w: nat, qs: Queues, picks: seq<Choice>): (r: Queues)
    requires PicksOk(c, s, w, qs, picks)
    ensures |r| == |qs|
    decreases |picks|
  {
    if picks == [] then qs else Remaining(c, s, w, Removed(qs, picks[0]), picks[1..])
  }

  /** What a worker enqueues for a cell it took. */
  function Reissued(c: Config, x: Cell): Cell
    requires Chained(c) && x.ev.queueId < c.n
  {
    Enqueued(RewriteEvent(c, x.ev), x.trail)
  }

  /** Appending to a queue and removing an event that was already there commute. */
  lemma {:induction false} PutRemoved(qs: Queues, x: Cell, p: Choice)
    requires x.at < |qs| && Within(qs, p)
    ensures Within(Put(qs, x), p) && Put(qs, x)[p.q][p.k] == qs[p.q][p.k]
    ensures Removed(Put(qs, x), p) == Put(Removed(qs, p), x)
  {
    if x.at == p.q {
      assert Without(qs[p.q] + [x], p.k) == Without(qs[p.q], p.k) + [x];
    }
  }

  lemma {:induction false} PicksAfterPut(c: Config, s: State, w: nat, qs: Queues, x: Cell, picks: seq<Choice>)
    requires PicksOk(c, s, w, qs, picks) && x.at < |qs|
    ensures PicksOk(c, s, w, Put(qs, x), picks)
    ensures Taken(c, s, w, Put(qs, x), picks) == Taken(c, s, w, qs, picks)
    ensures Remaining(c, s, w, Put(qs, x), picks) == Put(Remaining(c, s, w, qs, picks), x)
    decreases |picks|
  {
    if picks != [] {
      PutRemoved(qs, x, picks[0]);
      PicksAfterPut(c, s, w, Removed(qs, picks[0]), x, picks[1..]);
    }
  }

  function ReissuedAll(c: Config, xs: seq<Cell>): seq<Cell>
    requires Chained(c) && forall i :: 0 <= i < |xs| ==> xs[i].ev.queueId < c.n
  {
    seq(|xs|, i requires 0 <= i < |xs| => Reissued(c, xs[i]))
  }

  /** The state after worker w moved the picked events one stage on. */
  ghost function Moved(c: Config, s: State, w: nat, picks: seq<Choice>): State
    requires Chained(c) && |s.queues| == c.n + 1 && w < |s.workers| && PicksOk(c, s, w, s.queues, picks)
  {
    s.(queues := PutAll(Remaining(c, s, w, s.queues, picks), ReissuedAll(c, Taken(c, s, w, s.queues, picks))),
       workers := s.workers[w := Worker([], false)])
  }

  /** The lock rule does not look at the worker's own batch. */
  lemma {:induction false} PicksIgnoreOwnBatch(c: Config, s: State, t: State, w: nat, qs: Queues, picks: seq<Choice>)
    requires w < |s.workers| == |t.workers| && PicksOk(c, t, w, qs, picks)
    requires forall v :: 0 <= v < |s.workers| && v != w ==> s.workers[v] == t.workers[v]
    ensures PicksOk(c, s, w, qs, picks)
    ensures Taken(c, s, w, qs, picks) == Taken(c, t, w, qs, picks)
    ensures Remaining(c, s, w, qs, picks) == Remaining(c, t, w, qs, picks)
    decreases |picks|
  {
    if picks != [] {
      PicksIgnoreOwnBatch(c, s, t, w, Removed(qs, picks[0]), picks[1..]);
    }
  }

  /** The state between the dequeue burst and the rewrite. */
  ghost function InHand(c: Config, s: State, w: nat, picks: seq<Choice>): State
    requires w < |s.workers| && PicksOk(c, s, w, s.queues, picks)
  {
    s.(queues := Remaining(c, s, w, s.queues, picks),
       workers := s.workers[w := Worker(s.workers[w].batch + Taken(c, s, w, s.queues, picks), false)])
  }

  /** Taking one event and then the rest in hand is taking them all in hand. */
  lemma {:induction false} FirstTake(c: Config, s: State, u: State, w: nat, picks: seq<Choice>)
    requires w < |s.workers| && picks != [] && PicksOk(c, u, w, u.queues, picks[1..])
    requires Within(s.queues, picks[0]) && picks[0].q < c.n
    requires s.queues[picks[0].q][picks[0].k].ev.queueId < c.n
    requires c.queueType == Atomic ==> AtomicallySchedulable(s, w, picks[0].q, picks[0].k)
    requires var x := Dequeued(s.queues[picks[0].q][picks[0].k], picks[0].q);
      u == s.(queues := Removed(s.queues, picks[0]),
              workers := s.workers[w := Worker(s.workers[w].batch + [x], false)])
    ensures PicksOk(c, s, w, s.queues, picks) && InHand(c, s, w, picks) == InHand(c, u, w, picks[1..])
  {
    PicksIgnoreOwnBatch(c, s, u, w, u.queues, picks[1..]);
    assert s.(queues := s.queues) == s;
    var x := Dequeued(s.queues[picks[0].q][picks[0].k], picks[0].q);
    var rest := Taken(c, u, w, u.queues, picks[1..]);
    assert s.workers[w].batch + ([x] + rest) == s.workers[w].batch + [x] + rest;
    assert InHand(c, s, w, picks).workers == InHand(c, u, w, picks[1..]).workers;
  }

  lemma {:induction false} TakesLead(c: Config, s: State, w: nat, picks: seq<Choice>, tail: seq<Step>, t: State)
    requires WellPlaced(c, s) && w < |s.workers| && !s.workers[w].ready
    requires Leads(c, s, Takes(w, picks) + tail, t)
    ensures PicksOk(c, s, w, s.queues, picks)
    ensures WellPlaced(c, InHand(c, s, w, picks)) && Leads(c, InHand(c, s, w, picks), tail, t)
    decreases |picks|
  {
    var run := Takes(w, picks) + tail;
    if picks == [] {
      assert run == tail && s.workers[w].batch + [] == s.workers[w].batch;
      assert s.workers[w := s.workers[w]] == s.workers;
      assert InHand(c, s, w, picks) == s;
    } else {
      var step := Take(w, picks[0].q, picks[0].k);
      assert run[0] == step && run[1..] == Takes(w, picks[1..]) + tail;
      StepKeepsPlacement(c, s, step);
      var u := Apply(c, s, step);
      assert QueuedOk(c, s.queues[picks[0].q][picks[0].k], picks[0].q);
      TakesLead(c, u, w, picks[1..], tail, t);
      FirstTake(c, s, u, w, picks);
    }
  }

  lemma {:induction false} AcceptsLead(c: Config, s: State, w: nat, xs: seq<Cell>, t: State)
    requires WellPlaced(c, s) && w < |s.workers|
    requires s.workers[w].ready == (xs != []) && |s.workers[w].batch| == |xs|
    requires forall i :: 0 <= i < |xs| ==> xs[i] == Enqueued(s.workers[w].batch[i].ev, s.workers[w].batch[i].trail)
    requires forall i :: 0 <= i < |xs| ==> xs[i].at < |s.queues|
    requires Leads(c, s, Accepts(w, |xs|), t)
    ensures t == s.(queues := PutAll(s.queues, xs), workers := s.workers[w := Worker([], false)])
    decreases |xs|
  {
    if xs == [] {
      assert s.workers[w] == Worker([], false);
    } else {
      StepKeepsPlacement(c, s, Accept(w));
      AcceptsLead(c, Apply(c, s, Accept(w)), w, xs[1..], t);
    }
  }

  lemma {:induction false} RewriteThenAccepts(c: Config, u: State, w: nat, taken: seq<Cell>, t: State)
    requires WellPlaced(c, u) && w < |u.workers| && u.workers[w] == Worker(taken, false)
    requires Enabled(c, u, Rewrite(w)) && Leads(c, Apply(c, u, Rewrite(w)), Accepts(w, |taken|), t)
    requires forall i :: 0 <= i < |taken| ==> taken[i].ev.queueId < c.n
    ensures t == u.(queues := PutAll(u.queues, ReissuedAll(c, taken)), workers := u.workers[w := Worker([], false)])
  {
    StepKeepsPlacement(c, u, Rewrite(w));
    AcceptsLead(c, Apply(c, u, Rewrite(w)), w, ReissuedAll(c, taken), t);
  }

  /** Enqueueing what is in hand completes the move. */
  lemma {:induction false} InHandMoved(c: Config, s: State, w: nat, picks: seq<Choice>)
    requires Chained(c) && |s.queues| == c.n + 1 && w < |s.workers| && PicksOk(c, s, w, s.queues, picks)
    ensures var u, taken := InHand(c, s, w, picks), Taken(c, s, w, s.queues, picks);
      u.(queues := PutAll(u.queues, ReissuedAll(c, taken)), workers := u.workers[w := Worker([], false)])
      == Moved(c, s, w, picks)
  {
    var u := InHand(c, s, w, picks);
    assert u.workers[w := Worker([], false)] == s.workers[w := Worker([], false)];
  }

  lemma {:induction false} InHandLeads(c: Config, s: State, w: nat, picks: seq<Choice>, t: State)
    requires Chained(c) && |s.queues| == c.n + 1 && w < |s.workers| && s.workers[w] == Worker([], false)
    requires picks != [] && PicksOk(c, s, w, s.queues, picks) && WellPlaced(c, InHand(c, s, w, picks))
    requires Leads(c, InHand(c, s, w, picks), [Rewrite(w)] + Accepts(w, |picks|), t)
    ensures t == Moved(c, s, w, picks)
  {
    var u, taken := InHand(c, s, w, picks), Taken(c, s, w, s.queues, picks);
    LeadsHead(c, u, Rewrite(w), Accepts(w, |picks|), t);
    StepKeepsPlacement(c, u, Rewrite(w));
    LeadsCons(c, u, Rewrite(w), Accepts(w, |picks|), t);
    assert [] + taken == taken;
    RewriteThenAccepts(c, u, w, taken, t);
    InHandMoved(c, s, w, picks);
  }

  /** A burst iteration moves exactly the picked events, in order. */
  lemma {:induction false} BurstMoves(c: Config, s: State, w: nat, picks: seq<Choice>, t: State)
    requires WellPlaced(c, s) && w < |s.workers| && s.workers[w] == Worker([], false) && picks != []
    requires Leads(c, s, BurstSteps(w, picks), t)
    ensures PicksOk(c, s, w, s.queues, picks) && t == Moved(c, s, w, picks)
  {
    TakesLead(c, s, w, picks, [Rewrite(w)] + Accepts(w, |picks|), t);
    InHandLeads(c, s, w, picks, t);
  }

  ghost function AfterSingle(c: Config, s: State, p: Choice): State
    requires Chained(c) && |s.queues| == c.n + 1
    requires Within(s.queues, p) && s.queues[p.q][p.k].ev.queueId < c.n
  {
    s.(queues := Put(Removed(s.queues, p), Reissued(c, Dequeued(s.queues[p.q][p.k], p.q))))
  }

  /** One iteration of the single-event loop: dequeue, rewrite, enqueue. */
  lemma {:induction false} SingleMoves(c: Config, s: State, w: nat, p: Choice, tail: seq<Step>, t: State)
    requires WellPlaced(c, s) && w < |s.workers| && s.workers[w] == Worker([], false)
    requires Enabled(c, s, Take(w, p.q, p.k)) && s.queues[p.q][p.k].ev.queueId < c.n
    ensures WellPlaced(c, AfterSingle(c, s, p))
    ensures Leads(c, AfterSingle(c, s, p), tail, t) ==>
      Leads(c, s, [Take(w, p.q, p.k), Rewrite(w), Accept(w)] + tail, t)
  {
    var x := Dequeued(s.queues[p.q][p.k], p.q);
    StepKeepsPlacement(c, s, Take(w, p.q, p.k));
    var s1 := Apply(c, s, Take(w, p.q, p.k));
    assert s1.workers[w] == Worker([x], false);
    StepKeepsPlacement(c, s1, Rewrite(w));
    var s2 := Apply(c, s1, Rewrite(w));
    StepKeepsPlacement(c, s2, Accept(w));
    assert Apply(c, s2, Accept(w)) == AfterSingle(c, s, p) by {
      assert s.workers[w := s.workers[w]] == s.workers;
    }
    if Leads(c, AfterSingle(c, s, p), tail, t) {
      var r3 := [Accept(w)] + tail;
      var r2 := [Rewrite(w)] + r3;
      var r1 := [Take(w, p.q, p.k)] + r2;
      assert r3[1..] == tail && r2[1..] == r3 && r1[1..] == r2;
      assert Leads(c, s2, r3, t);
      assert Leads(c, s1, r2, t);
      assert r1 == [Take(w, p.q, p.k), Rewrite(w), Accept(w)] + tail;
    }
  }

  /** After the first event the remaining picks are still there and lead to the same state. */
  lemma {:induction false} FirstSingle(c: Config, s: State, w: nat, picks: seq<Choice>)
    requires Chained(c) && |s.queues| == c.n + 1 && w < |s.workers|
    requires picks != [] && PicksOk(c, s, w, s.queues, picks)
    ensures var u := AfterSingle(c, s, picks[0]);
      PicksOk(c, u, w, u.queues, picks[1..]) && Moved(c, u, w, picks[1..]) == Moved(c, s, w, picks)
  {
    var p := picks[0];
    var u := AfterSingle(c, s, p);
    var x := Reissued(c, Dequeued(s.queues[p.q][p.k], p.q));
    PicksAfterPut(c, s, w, Removed(s.queues, p), x, picks[1..]);
    PicksIgnoreOwnBatch(c, u, s, w, u.queues, picks[1..]);
    var taken := Taken(c, s, w, s.queues, picks);
    assert ReissuedAll(c, taken)[1..] == ReissuedAll(c, taken[1..]);
  }

  /** The single-event loop can make the same moves and ends in the same state. */
  lemma {:induction false} SinglesMove(c: Config, s: State, w: nat, picks: seq<Choice>)
    requires WellPlaced(c, s) && w < |s.workers| && s.workers[w] == Worker([], false)
    requires PicksOk(c, s, w, s.queues, picks)
    ensures Leads(c, s, SingleSteps(w, picks), Moved(c, s, w, picks))
    decreases |picks|
  {
    if picks == [] {
      assert Moved(c, s, w, picks) == s;
    } else {
      var p := picks[0];
      SingleMoves(c, s, w, p, SingleSteps(w, picks[1..]), Moved(c, s, w, picks));
      FirstSingle(c, s, w, picks);
      SinglesMove(c, AfterSingle(c, s, p), w, picks[1..]);
    }
  }

  /** The refinement: whatever state a burst iteration reaches, the single-event loop reaches. */
  lemma {:induction false} BurstRefinesSingles(c: Config, s: State, w: nat, picks: seq<Choice>, t: State)
    requires WellPlaced(c, s) && w < |s.workers| && s.workers[w] == Worker([], false) && picks != []
    requires Leads(c, s, BurstSteps(w, picks), t)
    ensures Leads(c, s, SingleSteps(w, picks), t)
  {
    BurstMoves(c, s, w, picks, t);
    SinglesMove(c, s, w, picks);
  }
}

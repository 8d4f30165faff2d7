/**
 The refinement of the generic pipeline's burst worker in the midst of everything else: whatever a run does in
 which worker w takes bursts, while the adapters and any other workers go on between any two of its steps, a run
 does in which w handles one event at a time. The events w has dequeued and not yet enqueued stay where they were
 in the second run; each is dequeued, rewritten and enqueued when the first run enqueues it.
 */
module GenericRefinement {
  import opened Sequences
  import opened EventDev
  import opened GenericPipeline
  import opened GenericOrder
  import opened GenericRuns
  import opened GenericBurst

  /* ---------------------------------------------------------------- queues with events taken ahead */

  /** An event in a queue of the second run; held says that w has it in the first, at which place of its batch. */
  datatype Slot = Slot(cell: Cell, held: Option<nat>)

  /** The queue of the second run, and that of the first. */
  function Cells(ms: seq<Slot>): (r: seq<Cell>)
    ensures |r| == |ms|
  {
    seq(|ms|, i requires 0 <= i < |ms| => ms[i].cell)
  }

  function Free(ms: seq<Slot>): seq<Cell> {
    if ms == [] then [] else FreeOne(ms[0]) + Free(ms[1..])
  }

  function FreeOne(m: Slot): seq<Cell> {
    if m.held.None? then [m.cell] else []
  }

  lemma {:induction false} FreeConcat(a: seq<Slot>, b: seq<Slot>)
    ensures Free(a + b) == Free(a) + Free(b)
  {
    if a == [] {
      assert a + b == b;
    } else {
      FreeConcat(a[1..], b);
      assert (a + b)[1..] == a[1..] + b && (a + b)[0] == a[0];
      Assoc(FreeOne(a[0]), Free(a[1..]), Free(b));
    }
  }

  lemma {:induction false} FreeAround(ms: seq<Slot>, k: nat, x: Slot)
    requires k < |ms|
    ensures Free(ms) == Free(ms[..k]) + (FreeOne(ms[k]) + Free(ms[k + 1..]))
    ensures Free(ms[k := x]) == Free(ms[..k]) + (FreeOne(x) + Free(ms[k + 1..]))
    ensures Free(Without(ms, k)) == Free(ms[..k]) + Free(ms[k + 1..])
  {
    FreeConcat(ms[..k], ms[k..]);
    assert ms == ms[..k] + ms[k..] && ms[k..][1..] == ms[k + 1..];
    var ns := ms[k := x];
    FreeConcat(ns[..k], ns[k..]);
    assert ns == ns[..k] + ns[k..] && ns[..k] == ms[..k] && ns[k..][1..] == ms[k + 1..];
    FreeConcat(ms[..k], ms[k + 1..]);
  }

  lemma {:induction false} FreeSnoc(ms: seq<Slot>, x: Slot)
    ensures Free(ms + [x]) == Free(ms) + FreeOne(x)
    ensures Cells(ms + [x]) == Cells(ms) + [x.cell]
  {
    FreeConcat(ms, [x]);
    assert [x][1..] == [] && Free([x]) == FreeOne(x);
  }

  /** Where the k-th free event stands. */
  lemma {:induction false} FreeIndex(ms: seq<Slot>, k: nat) returns (at: nat)
    requires k < |Free(ms)|
    ensures at < |ms| && ms[at].held.None? && |Free(ms[..at])| == k && Free(ms)[k] == ms[at].cell
    decreases |ms|
  {
    var last: nat := |ms| - 1;
    assert ms == ms[..last] + [ms[last]];
    FreeSnoc(ms[..last], ms[last]);
    if k < |Free(ms[..last])| {
      at := FreeIndex(ms[..last], k);
      assert ms[..last][..at] == ms[..at];
    } else {
      at := last;
    }
  }

  /** Taking the free event there out of the queue, or marking it, takes the k-th out of the first run's. */
  lemma {:induction false} FreeTaken(ms: seq<Slot>, k: nat, at: nat, i: nat)
    requires at < |ms| && ms[at].held.None? && |Free(ms[..at])| == k
    ensures k < |Free(ms)| && Free(Without(ms, at)) == Without(Free(ms), k)
    ensures Free(ms[at := ms[at].(held := Some(i))]) == Without(Free(ms), k)
  {
    FreeAround(ms, at, ms[at].(held := Some(i)));
    var a, b := Free(ms[..at]), Free(ms[at + 1..]);
    assert a + ([ms[at].cell] + b) == Free(ms);
    assert Without(a + ([ms[at].cell] + b), |a|) == a + b;
    assert a + ([] + b) == a + b;
  }

  lemma {:induction false} FreeUnheld(ms: seq<Slot>, at: nat)
    requires at < |ms| && ms[at].held.Some?
    ensures Free(Without(ms, at)) == Free(ms)
  {
    FreeAround(ms, at, ms[at]);
    assert [] + Free(ms[at + 1..]) == Free(ms[at + 1..]);
  }

  /** A free event before another one is among the free ones before it. */
  lemma {:induction false} FreeBefore(ms: seq<Slot>, at: nat, j: nat) returns (i: nat)
    requires j < at < |ms| && ms[j].held.None?
    ensures i < |Free(ms[..at])| <= |Free(ms)| && Free(ms)[i] == ms[j].cell
  {
    FreeAround(ms, at, ms[at]);
    FreeAround(ms[..at], j, ms[j]);
    i := |Free(ms[..at][..j])|;
    assert ms[..at][j] == ms[j];
  }

  lemma {:induction false} CellsWithout(ms: seq<Slot>, at: nat)
    requires at < |ms|
    ensures Cells(Without(ms, at)) == Without(Cells(ms), at)
  {
  }

  /** The batch has lost its first event. */
  function Shifted(ms: seq<Slot>): (r: seq<Slot>)
    ensures |r| == |ms|
  {
    seq(|ms|, i requires 0 <= i < |ms| =>
      if ms[i].held.Some? && ms[i].held.value > 0 then ms[i].(held := Some(ms[i].held.value - 1)) else ms[i])
  }

  lemma {:induction false} ShiftedSame(ms: seq<Slot>)
    ensures Cells(Shifted(ms)) == Cells(ms) && Free(Shifted(ms)) == Free(ms)
  {
    if ms != [] {
      ShiftedSame(ms[1..]);
      assert Shifted(ms)[1..] == Shifted(ms[1..]);
      assert Cells(Shifted(ms)) == Cells(ms);
    }
  }

  /* ---------------------------------------------------------------- places of the batch */

  /** How many slots are marked with place i. */
  function HeldIn(ms: seq<Slot>, i: nat): nat {
    if ms == [] then 0 else (if ms[0].held == Some(i) then 1 else 0) + HeldIn(ms[1..], i)
  }

  function HeldAll(mq: seq<seq<Slot>>, i: nat): nat {
    if mq == [] then 0 else HeldIn(mq[0], i) + HeldAll(mq[1..], i)
  }

  lemma {:induction false} HeldConcat(a: seq<Slot>, b: seq<Slot>, i: nat)
    ensures HeldIn(a + b, i) == HeldIn(a, i) + HeldIn(b, i)
  {
    if a == [] {
      assert a + b == b;
    } else {
      HeldConcat(a[1..], b, i);
      assert (a + b)[1..] == a[1..] + b && (a + b)[0] == a[0];
    }
  }

  lemma {:induction false} HeldSnoc(ms: seq<Slot>, x: Slot, i: nat)
    ensures HeldIn(ms + [x], i) == HeldIn(ms, i) + (if x.held == Some(i) then 1 else 0)
  {
    HeldConcat(ms, [x], i);
    assert [x][1..] == [];
  }

  lemma {:induction false} HeldAround(ms: seq<Slot>, k: nat, x: Slot, i: nat)
    requires k < |ms|
    ensures HeldIn(Without(ms, k), i) == HeldIn(ms, i) - (if ms[k].held == Some(i) then 1 else 0)
    ensures HeldIn(ms[k := x], i) == HeldIn(Without(ms, k), i) + (if x.held == Some(i) then 1 else 0)
  {
    var front, back := ms[..k], ms[k + 1..];
    HeldConcat(front, back, i);
    HeldSnoc(front, ms[k], i);
    HeldConcat(front + [ms[k]], back, i);
    assert ms == (front + [ms[k]]) + back;
    HeldSnoc(front, x, i);
    HeldConcat(front + [x], back, i);
    assert ms[k := x] == (front + [x]) + back;
  }

  lemma {:induction false} HeldAllUpdate(mq: seq<seq<Slot>>, q: nat, ms: seq<Slot>, i: nat)
    requires q < |mq|
    ensures HeldAll(mq[q := ms], i) == HeldAll(mq, i) - HeldIn(mq[q], i) + HeldIn(ms, i)
    ensures HeldAll(mq, i) >= HeldIn(mq[q], i)
  {
    if q == 0 {
      assert mq[q := ms][1..] == mq[1..];
    } else {
      HeldAllUpdate(mq[1..], q - 1, ms, i);
      assert mq[q := ms][1..] == mq[1..][q - 1 := ms];
    }
  }

  lemma {:induction false} HeldSomewhere(ms: seq<Slot>, i: nat) returns (k: nat)
    requires HeldIn(ms, i) > 0
    ensures k < |ms| && ms[k].held == Some(i)
  {
    if ms[0].held == Some(i) {
      k := 0;
    } else {
      k := HeldSomewhere(ms[1..], i);
      k := k + 1;
    }
  }

  lemma {:induction false} HeldAllSomewhere(mq: seq<seq<Slot>>, i: nat) returns (q: nat, k: nat)
    requires HeldAll(mq, i) > 0
    ensures q < |mq| && k < |mq[q]| && mq[q][k].held == Some(i)
  {
    if HeldIn(mq[0], i) > 0 {
      q := 0;
      k := HeldSomewhere(mq[0], i);
    } else {
      q, k := HeldAllSomewhere(mq[1..], i);
      q := q + 1;
    }
  }

  lemma {:induction false} HeldNowhere(mq: seq<seq<Slot>>, i: nat, q: nat, k: nat)
    requires HeldAll(mq, i) == 0 && q < |mq| && k < |mq[q]|
    ensures mq[q][k].held != Some(i)
  {
    HeldAllUpdate(mq, q, mq[q], i);
    HeldAround(mq[q], k, mq[q][k], i);
  }

  lemma {:induction false} ShiftedHeld(ms: seq<Slot>, i: nat)
    requires forall k :: 0 <= k < |ms| ==> ms[k].held != Some(0)
    ensures HeldIn(Shifted(ms), i) == HeldIn(ms, i + 1)
  {
    if ms != [] {
      ShiftedHeld(ms[1..], i);
      assert Shifted(ms)[1..] == Shifted(ms[1..]);
      assert ms[0].held != Some(0);
    }
  }

  function ShiftedAll(mq: seq<seq<Slot>>): (r: seq<seq<Slot>>)
    ensures |r| == |mq|
  {
    seq(|mq|, q requires 0 <= q < |mq| => Shifted(mq[q]))
  }

  lemma {:induction false} ShiftedAllHeld(mq: seq<seq<Slot>>, i: nat)
    requires forall q, k :: 0 <= q < |mq| && 0 <= k < |mq[q]| ==> mq[q][k].held != Some(0)
    ensures HeldAll(ShiftedAll(mq), i) == HeldAll(mq, i + 1)
  {
    if mq != [] {
      ShiftedHeld(mq[0], i);
      ShiftedAllHeld(mq[1..], i);
      assert ShiftedAll(mq)[1..] == ShiftedAll(mq[1..]);
    }
  }

  /* ---------------------------------------------------------------- the relation */

  /** The event of a slot as it is in the batch of the first run. */
  function Shown(c: Config, cell: Cell, q: nat, ready: bool): Cell
    requires Chained(c) && cell.ev.queueId < c.n
  {
    var d := Dequeued(cell, q);
    if ready then d.(ev := RewriteEvent(c, d.ev)) else d
  }

  ghost predicate SlotOk(c: Config, m: Slot, q: nat, wk: Worker)
    requires Chained(c)
  {
    m.held.Some? ==>
      && m.held.value < |wk.batch| && q < c.n && m.cell.ev.queueId < c.n
      && wk.batch[m.held.value] == Shown(c, m.cell, q, wk.ready)
  }

  /** Under atomic scheduling an event that w has can only have ones of its flow before it that w has, too, at
      earlier places of its batch. */
  ghost predicate InTurn(ms: seq<Slot>) {
    forall j, k :: 0 <= j < k < |ms| && ms[k].held.Some? && ms[j].cell.flow == ms[k].cell.flow ==>
      ms[j].held.Some? && ms[j].held.value < ms[k].held.value
  }

  ghost predicate Link(c: Config, ms: seq<Slot>, first: seq<Cell>, second: seq<Cell>, q: nat, wk: Worker)
    requires Chained(c)
  {
    && second == Cells(ms) && first == Free(ms)
    && (forall k :: 0 <= k < |ms| ==> SlotOk(c, ms[k], q, wk))
    && (c.queueType == Atomic ==> InTurn(ms))
  }

  ghost predicate Places(mq: seq<seq<Slot>>, n: nat) {
    forall i: nat :: HeldAll(mq, i) == (if i < n then 1 else 0)
  }

  /** s, of the first run, and u, of the second, are the same up to the events that w has taken ahead. */
  ghost predicate Rel(c: Config, s: State, u: State, w: nat, mq: seq<seq<Slot>>) {
    && Chained(c) && w < |s.workers| && |mq| == |s.queues| == |u.queues| == c.n + 1
    && u.arrived == s.arrived && u.sent == s.sent && u.workers == s.workers[w := Worker([], false)]
    && (forall q :: 0 <= q <= c.n ==> Link(c, mq[q], s.queues[q], u.queues[q], q, s.workers[w]))
    && Places(mq, |s.workers[w].batch|)
  }

  /** An event appended to a queue of both. */
  lemma {:induction false} LinkSnoc(c: Config, ms: seq<Slot>, first: seq<Cell>, second: seq<Cell>, q: nat, wk: Worker,
                                    x: Cell)
    requires Chained(c) && Link(c, ms, first, second, q, wk)
    ensures Link(c, ms + [Slot(x, None)], first + [x], second + [x], q, wk)
  {
    FreeSnoc(ms, Slot(x, None));
  }

  lemma {:induction false} PlacesSnoc(mq: seq<seq<Slot>>, n: nat, q: nat, x: Cell)
    requires Places(mq, n) && q < |mq|
    ensures Places(mq[q := mq[q] + [Slot(x, None)]], n)
  {
    var nq := mq[q := mq[q] + [Slot(x, None)]];
    forall i: nat ensures HeldAll(nq, i) == (if i < n then 1 else 0) {
      HeldSnoc(mq[q], Slot(x, None), i);
      HeldAllUpdate(mq, q, mq[q] + [Slot(x, None)], i);
    }
  }

  /** A free event removed from both. */
  lemma {:induction false} LinkWithout(c: Config, ms: seq<Slot>, first: seq<Cell>, second: seq<Cell>, q: nat,
                                       wk: Worker, k: nat, at: nat)
    requires Chained(c) && Link(c, ms, first, second, q, wk)
    requires at < |ms| && ms[at].held.None? && |Free(ms[..at])| == k
    ensures k < |first| && at < |second|
    ensures Link(c, Without(ms, at), Without(first, k), Without(second, at), q, wk)
  {
    FreeTaken(ms, k, at, 0);
    CellsWithout(ms, at);
    InTurnWithout(ms, at);
    forall j | 0 <= j < |Without(ms, at)| ensures SlotOk(c, Without(ms, at)[j], q, wk) {
      assert SlotOk(c, ms[if j < at then j else j + 1], q, wk);
    }
  }

  lemma {:induction false} InTurnWithout(ms: seq<Slot>, at: nat)
    requires at < |ms|
    ensures InTurn(ms) ==> InTurn(Without(ms, at))
  {
    if InTurn(ms) {
      var ns := Without(ms, at);
      forall j, k | 0 <= j < k < |ns| && ns[k].held.Some? && ns[j].cell.flow == ns[k].cell.flow
        ensures ns[j].held.Some? && ns[j].held.value < ns[k].held.value
      {
        assert ns[j] == ms[if j < at then j else j + 1] && ns[k] == ms[if k < at then k else k + 1];
      }
    }
  }

  lemma {:induction false} PlacesWithout(mq: seq<seq<Slot>>, n: nat, q: nat, at: nat)
    requires Places(mq, n) && q < |mq| && at < |mq[q]| && mq[q][at].held.None?
    ensures Places(mq[q := Without(mq[q], at)], n)
  {
    var nq := mq[q := Without(mq[q], at)];
    forall i: nat ensures HeldAll(nq, i) == (if i < n then 1 else 0) {
      HeldAround(mq[q], at, mq[q][at], i);
      HeldAllUpdate(mq, q, Without(mq[q], at), i);
    }
  }

  /* ---------------------------------------------------------------- steps of the others */

  /** Both runs change one queue alike, and the same other worker, if any. */
  lemma {:induction false} RelQueue(c: Config, s: State, u: State, w: nat, mq: seq<seq<Slot>>, t: State, z: State,
                                    q: nat, ms: seq<Slot>)
    requires Rel(c, s, u, w, mq) && q <= c.n
    requires |t.queues| == |z.queues| == c.n + 1 && w < |t.workers| && t.workers[w] == s.workers[w]
    requires z.arrived == t.arrived && z.sent == t.sent && z.workers == t.workers[w := Worker([], false)]
    requires forall p :: 0 <= p <= c.n && p != q ==> t.queues[p] == s.queues[p] && z.queues[p] == u.queues[p]
    requires Link(c, ms, t.queues[q], z.queues[q], q, s.workers[w]) && Places(mq[q := ms], |s.workers[w].batch|)
    ensures Rel(c, t, z, w, mq[q := ms])
  {
    forall p | 0 <= p <= c.n ensures Link(c, mq[q := ms][p], t.queues[p], z.queues[p], p, t.workers[w]) {
      assert Link(c, mq[p], s.queues[p], u.queues[p], p, s.workers[w]);
    }
  }

  lemma {:induction false} RelArrive(c: Config, s: State, u: State, w: nat, mq: seq<seq<Slot>>, pkt: Packet)
    returns (nq: seq<seq<Slot>>)
    requires Rel(c, s, u, w, mq) && WellPlaced(c, s) && WellPlaced(c, u) && Enabled(c, s, Arrive(pkt))
    ensures Enabled(c, u, Arrive(pkt)) && Rel(c, Apply(c, s, Arrive(pkt)), Apply(c, u, Arrive(pkt)), w, nq)
  {
    var t, z := Apply(c, s, Arrive(pkt)), Apply(c, u, Arrive(pkt));
    var x := t.queues[0][|s.queues[0]|];
    assert Link(c, mq[0], s.queues[0], u.queues[0], 0, s.workers[w]);
    LinkSnoc(c, mq[0], s.queues[0], u.queues[0], 0, s.workers[w], x);
    PlacesSnoc(mq, |s.workers[w].batch|, 0, x);
    nq := mq[0 := mq[0] + [Slot(x, None)]];
    RelQueue(c, s, u, w, mq, t, z, 0, mq[0] + [Slot(x, None)]);
  }

  lemma {:induction false} RelAccept(c: Config, s: State, u: State, w: nat, mq: seq<seq<Slot>>, v: nat)
    returns (nq: seq<seq<Slot>>)
    requires Rel(c, s, u, w, mq) && WellPlaced(c, s) && WellPlaced(c, u) && Enabled(c, s, Accept(v)) && v != w
    ensures Enabled(c, u, Accept(v)) && Rel(c, Apply(c, s, Accept(v)), Apply(c, u, Accept(v)), w, nq)
  {
    assert u.workers[v] == s.workers[v];
    var cell := s.workers[v].batch[0];
    assert HeldOk(c, cell, true);
    var q, x := cell.ev.queueId, Enqueued(cell.ev, cell.trail);
    assert Link(c, mq[q], s.queues[q], u.queues[q], q, s.workers[w]);
    LinkSnoc(c, mq[q], s.queues[q], u.queues[q], q, s.workers[w], x);
    PlacesSnoc(mq, |s.workers[w].batch|, q, x);
    nq := mq[q := mq[q] + [Slot(x, None)]];
    RelQueue(c, s, u, w, mq, Apply(c, s, Accept(v)), Apply(c, u, Accept(v)), q, mq[q] + [Slot(x, None)]);
  }

  lemma {:induction false} RelRewrite(c: Config, s: State, u: State, w: nat, mq: seq<seq<Slot>>, v: nat)
    requires Rel(c, s, u, w, mq) && WellPlaced(c, s) && WellPlaced(c, u) && Enabled(c, s, Rewrite(v)) && v != w
    ensures Enabled(c, u, Rewrite(v)) && Rel(c, Apply(c, s, Rewrite(v)), Apply(c, u, Rewrite(v)), w, mq)
  {
    assert u.workers[v] == s.workers[v];
    var t := Apply(c, s, Rewrite(v));
    forall p | 0 <= p <= c.n ensures Link(c, mq[p], t.queues[p], u.queues[p], p, t.workers[w]) {
      assert Link(c, mq[p], s.queues[p], u.queues[p], p, s.workers[w]);
    }
  }

  lemma {:induction false} RelTransmit(c: Config, s: State, u: State, w: nat, mq: seq<seq<Slot>>)
    returns (nq: seq<seq<Slot>>)
    requires Rel(c, s, u, w, mq) && WellPlaced(c, s) && WellPlaced(c, u) && Enabled(c, s, Transmit)
    ensures Enabled(c, u, Transmit) && Rel(c, Apply(c, s, Transmit), Apply(c, u, Transmit), w, nq)
  {
    var ms := mq[c.n];
    assert Link(c, ms, s.queues[c.n], u.queues[c.n], c.n, s.workers[w]);
    assert ms != [];
    assert SlotOk(c, ms[0], c.n, s.workers[w]);
    assert ms[..0] == [] && FreeOne(ms[0]) == [ms[0].cell];
    LinkWithout(c, ms, s.queues[c.n], u.queues[c.n], c.n, s.workers[w], 0, 0);
    PlacesWithout(mq, |s.workers[w].batch|, c.n, 0);
    assert Without(s.queues[c.n], 0) == s.queues[c.n][1..] && Without(u.queues[c.n], 0) == u.queues[c.n][1..];
    nq := mq[c.n := Without(ms, 0)];
    RelQueue(c, s, u, w, mq, Apply(c, s, Transmit), Apply(c, u, Transmit), c.n, Without(ms, 0));
  }

  /** Whoever may take a free event in the first run may take it in the second, where more are waiting. */
  lemma {:induction false} StillSchedulable(c: Config, s: State, u: State, w: nat, mq: seq<seq<Slot>>, v: nat, q: nat,
                                            k: nat, at: nat)
    requires Rel(c, s, u, w, mq) && WellPlaced(c, u) && v < |s.workers| && v != w && q < c.n && c.queueType == Atomic
    requires at < |mq[q]| && mq[q][at].held.None? && |Free(mq[q][..at])| == k < |s.queues[q]|
    requires s.queues[q][k] == mq[q][at].cell && AtomicallySchedulable(s, v, q, k)
    ensures at < |u.queues[q]| && AtomicallySchedulable(u, v, q, at)
  {
    var ms, flow := mq[q], mq[q][at].cell.flow;
    assert Link(c, ms, s.queues[q], u.queues[q], q, s.workers[w]);
    forall j | 0 <= j < at ensures u.queues[q][j].flow != flow {
      assert u.queues[q][j] == ms[j].cell && SlotOk(c, ms[j], q, s.workers[w]);
      if ms[j].held.None? {
        var i := FreeBefore(ms, at, j);
      } else {
        assert QueuedOk(c, u.queues[q][j], q);
        assert s.workers[w].batch[ms[j].held.value].flow == ms[j].cell.flow;
      }
    }
    forall x, j | 0 <= x < |u.workers| && x != v && 0 <= j < |u.workers[x].batch|
      ensures !(u.workers[x].batch[j].at == q && u.workers[x].batch[j].flow == flow)
    {
      assert x != w && u.workers[x] == s.workers[x];
    }
  }

  lemma {:induction false} RelTake(c: Config, s: State, u: State, w: nat, mq: seq<seq<Slot>>, v: nat, q: nat, k: nat)
    returns (at: nat, nq: seq<seq<Slot>>)
    requires Rel(c, s, u, w, mq) && WellPlaced(c, s) && WellPlaced(c, u) && Enabled(c, s, Take(v, q, k)) && v != w
    ensures Enabled(c, u, Take(v, q, at)) && Rel(c, Apply(c, s, Take(v, q, k)), Apply(c, u, Take(v, q, at)), w, nq)
  {
    var ms := mq[q];
    assert u.workers[v] == s.workers[v];
    assert Link(c, ms, s.queues[q], u.queues[q], q, s.workers[w]);
    at := FreeIndex(ms, k);
    if c.queueType == Atomic {
      StillSchedulable(c, s, u, w, mq, v, q, k, at);
    }
    LinkWithout(c, ms, s.queues[q], u.queues[q], q, s.workers[w], k, at);
    PlacesWithout(mq, |s.workers[w].batch|, q, at);
    nq := mq[q := Without(ms, at)];
    RelQueue(c, s, u, w, mq, Apply(c, s, Take(v, q, k)), Apply(c, u, Take(v, q, at)), q, Without(ms, at));
  }

  /* ---------------------------------------------------------------- steps of the worker itself */

  lemma {:induction false} InTurnMarked(ms: seq<Slot>, at: nat, n: nat)
    requires InTurn(ms) && at < |ms| && ms[at].held.None?
    requires forall k :: 0 <= k < |ms| && ms[k].held.Some? ==> ms[k].held.value < n
    requires forall j :: 0 <= j < at && ms[j].held.None? ==> ms[j].cell.flow != ms[at].cell.flow
    ensures InTurn(ms[at := ms[at].(held := Some(n))])
  {
  }

  /** A dequeue into the batch leaves the second run where it is. */
  lemma {:induction false} LinkMarked(c: Config, ms: seq<Slot>, first: seq<Cell>, second: seq<Cell>, q: nat, wk: Worker,
                                      k: nat, at: nat)
    requires Chained(c) && Link(c, ms, first, second, q, wk) && !wk.ready && q < c.n
    requires at < |ms| && ms[at].held.None? && |Free(ms[..at])| == k && ms[at].cell.ev.queueId < c.n
    requires c.queueType == Atomic ==>
      forall j :: 0 <= j < at && ms[j].held.None? ==> ms[j].cell.flow != ms[at].cell.flow
    ensures k < |first|
    ensures Link(c, ms[at := ms[at].(held := Some(|wk.batch|))], Without(first, k), second, q,
                 Worker(wk.batch + [Dequeued(ms[at].cell, q)], false))
  {
    FreeTaken(ms, k, at, |wk.batch|);
    var ns := ms[at := ms[at].(held := Some(|wk.batch|))];
    assert Cells(ns) == Cells(ms);
    forall j | 0 <= j < |ns| ensures SlotOk(c, ns[j], q, Worker(wk.batch + [Dequeued(ms[at].cell, q)], false)) {
      assert SlotOk(c, ms[j], q, wk);
    }
    if c.queueType == Atomic {
      forall j | 0 <= j < |ms| && ms[j].held.Some? ensures ms[j].held.value < |wk.batch| {
        assert SlotOk(c, ms[j], q, wk);
      }
      InTurnMarked(ms, at, |wk.batch|);
    }
  }

  lemma {:induction false} LinkGrown(c: Config, ms: seq<Slot>, first: seq<Cell>, second: seq<Cell>, q: nat, wk: Worker,
                                     x: Cell)
    requires Chained(c) && Link(c, ms, first, second, q, wk) && !wk.ready
    ensures Link(c, ms, first, second, q, Worker(wk.batch + [x], false))
  {
    forall j | 0 <= j < |ms| ensures SlotOk(c, ms[j], q, Worker(wk.batch + [x], false)) {
      assert SlotOk(c, ms[j], q, wk);
    }
  }

  lemma {:induction false} PlacesMarked(mq: seq<seq<Slot>>, n: nat, q: nat, at: nat)
    requires Places(mq, n) && q < |mq| && at < |mq[q]| && mq[q][at].held.None?
    ensures Places(mq[q := mq[q][at := mq[q][at].(held := Some(n))]], n + 1)
  {
    var ms := mq[q][at := mq[q][at].(held := Some(n))];
    var nq := mq[q := ms];
    forall i: nat ensures HeldAll(nq, i) == (if i < n + 1 then 1 else 0) {
      HeldAround(mq[q], at, ms[at], i);
      HeldAllUpdate(mq, q, ms, i);
    }
  }

  /** The free events before the one dequeued are of other flows. */
  lemma {:induction false} NoneBefore(s: State, w: nat, q: nat, k: nat, ms: seq<Slot>, at: nat)
    requires q < |s.queues| && s.queues[q] == Free(ms) && k < |s.queues[q]| && AtomicallySchedulable(s, w, q, k)
    requires at < |ms| && ms[at].held.None? && |Free(ms[..at])| == k && Free(ms)[k] == ms[at].cell
    ensures forall j :: 0 <= j < at && ms[j].held.None? ==> ms[j].cell.flow != ms[at].cell.flow
  {
    forall j | 0 <= j < at && ms[j].held.None? ensures ms[j].cell.flow != ms[at].cell.flow {
      var i := FreeBefore(ms, at, j);
    }
  }

  lemma {:induction false} RelTakeOwn(c: Config, s: State, u: State, w: nat, mq: seq<seq<Slot>>, q: nat, k: nat)
    returns (nq: seq<seq<Slot>>)
    requires Rel(c, s, u, w, mq) && WellPlaced(c, s) && Enabled(c, s, Take(w, q, k))
    ensures Rel(c, Apply(c, s, Take(w, q, k)), u, w, nq)
  {
    var ms, wk, t := mq[q], s.workers[w], Apply(c, s, Take(w, q, k));
    assert Link(c, ms, s.queues[q], u.queues[q], q, wk) && QueuedOk(c, s.queues[q][k], q);
    var at := FreeIndex(ms, k);
    if c.queueType == Atomic {
      NoneBefore(s, w, q, k, ms, at);
    }
    LinkMarked(c, ms, s.queues[q], u.queues[q], q, wk, k, at);
    PlacesMarked(mq, |wk.batch|, q, at);
    nq := mq[q := ms[at := ms[at].(held := Some(|wk.batch|))]];
    forall p | 0 <= p <= c.n ensures Link(c, nq[p], t.queues[p], u.queues[p], p, t.workers[w]) {
      if p != q {
        assert Link(c, mq[p], s.queues[p], u.queues[p], p, wk);
        LinkGrown(c, mq[p], s.queues[p], u.queues[p], p, wk, Dequeued(s.queues[q][k], q));
      }
    }
    assert t.workers[w := Worker([], false)] == u.workers;
  }

  lemma {:induction false} LinkRewritten(c: Config, ms: seq<Slot>, first: seq<Cell>, second: seq<Cell>, q: nat,
                                         wk: Worker, ready: Worker)
    requires Chained(c) && Link(c, ms, first, second, q, wk) && !wk.ready && ready.ready && |ready.batch| == |wk.batch|
    requires forall i :: 0 <= i < |wk.batch| ==> wk.batch[i].ev.queueId < |c.nextQid|
    requires forall i :: 0 <= i < |wk.batch| ==> ready.batch[i] == wk.batch[i].(ev := RewriteEvent(c, wk.batch[i].ev))
    ensures Link(c, ms, first, second, q, ready)
  {
    forall j | 0 <= j < |ms| ensures SlotOk(c, ms[j], q, ready) {
      assert SlotOk(c, ms[j], q, wk);
    }
  }

  lemma {:induction false} RelRewriteOwn(c: Config, s: State, u: State, w: nat, mq: seq<seq<Slot>>)
    requires Rel(c, s, u, w, mq) && WellPlaced(c, s) && Enabled(c, s, Rewrite(w))
    ensures Rel(c, Apply(c, s, Rewrite(w)), u, w, mq)
  {
    var t, wk := Apply(c, s, Rewrite(w)), s.workers[w];
    forall j | 0 <= j < |wk.batch| ensures wk.batch[j].ev.queueId < |c.nextQid| {
      assert HeldOk(c, wk.batch[j], false);
    }
    forall p | 0 <= p <= c.n ensures Link(c, mq[p], t.queues[p], u.queues[p], p, t.workers[w]) {
      LinkRewritten(c, mq[p], s.queues[p], u.queues[p], p, wk, t.workers[w]);
    }
    assert t.workers[w := Worker([], false)] == u.workers;
  }

  /** The first event of the batch may be dequeued in the second run when the first run enqueues it. */
  lemma {:induction false} FirstSchedulable(c: Config, s: State, u: State, w: nat, mq: seq<seq<Slot>>, q: nat, at: nat)
    requires Rel(c, s, u, w, mq) && WellPlaced(c, s) && WellPlaced(c, u) && Enabled(c, s, Accept(w))
    requires c.queueType == Atomic ==> Exclusive(s)
    requires q < |mq| && at < |mq[q]| && mq[q][at].held == Some(0)
    ensures q < c.n && Enabled(c, u, Take(w, q, at)) && u.queues[q][at] == mq[q][at].cell
    ensures u.queues[q][at].ev.queueId == q
    ensures s.workers[w].batch[0] == Shown(c, u.queues[q][at], q, true)
  {
    var ms, wk := mq[q], s.workers[w];
    assert Link(c, ms, s.queues[q], u.queues[q], q, wk) && SlotOk(c, ms[at], q, wk);
    assert QueuedOk(c, u.queues[q][at], q);
    if c.queueType == Atomic {
      var flow := ms[at].cell.flow;
      assert wk.batch[0].at == q && wk.batch[0].flow == flow;
      forall x, j | 0 <= x < |u.workers| && x != w && 0 <= j < |u.workers[x].batch|
        ensures !(u.workers[x].batch[j].at == q && u.workers[x].batch[j].flow == flow)
      {
        assert u.workers[x] == s.workers[x];
        assert Apart(s.workers[if x < w then x else w].batch, s.workers[if x < w then w else x].batch);
      }
    }
  }

  lemma {:induction false} InTurnShifted(ms: seq<Slot>)
    requires InTurn(ms) && forall k :: 0 <= k < |ms| ==> ms[k].held != Some(0)
    ensures InTurn(Shifted(ms))
  {
    forall j, k | 0 <= j < k < |ms| && Shifted(ms)[k].held.Some? && Shifted(ms)[j].cell.flow == Shifted(ms)[k].cell.flow
      ensures Shifted(ms)[j].held.Some? && Shifted(ms)[j].held.value < Shifted(ms)[k].held.value
    {
      assert ms[j].held != Some(0) && ms[k].held != Some(0);
      assert ms[j].cell.flow == ms[k].cell.flow;
    }
  }

  lemma {:induction false} LinkShifted(c: Config, ms: seq<Slot>, first: seq<Cell>, second: seq<Cell>, q: nat,
                                       wk: Worker)
    requires Chained(c) && Link(c, ms, first, second, q, wk) && wk.ready && wk.batch != []
    requires forall k :: 0 <= k < |ms| ==> ms[k].held != Some(0)
    ensures Link(c, Shifted(ms), first, second, q, Worker(wk.batch[1..], wk.batch[1..] != []))
  {
    ShiftedSame(ms);
    if c.queueType == Atomic {
      InTurnShifted(ms);
    }
    forall j | 0 <= j < |ms| ensures SlotOk(c, Shifted(ms)[j], q, Worker(wk.batch[1..], wk.batch[1..] != [])) {
      assert SlotOk(c, ms[j], q, wk) && ms[j].held != Some(0);
    }
  }

  /** The slot of the event that is accepted leaves the second run's queue. */
  lemma {:induction false} LinkReleased(c: Config, ms: seq<Slot>, first: seq<Cell>, second: seq<Cell>, q: nat,
                                        wk: Worker, at: nat)
    requires Chained(c) && Link(c, ms, first, second, q, wk) && at < |ms| && ms[at].held.Some?
    ensures at < |second| && Link(c, Without(ms, at), first, Without(second, at), q, wk)
  {
    FreeUnheld(ms, at);
    CellsWithout(ms, at);
    InTurnWithout(ms, at);
    forall j | 0 <= j < |Without(ms, at)| ensures SlotOk(c, Without(ms, at)[j], q, wk) {
      assert SlotOk(c, ms[if j < at then j else j + 1], q, wk);
    }
  }

  lemma {:induction false} PlacesReleased(mq: seq<seq<Slot>>, n: nat, q: nat, at: nat)
    requires Places(mq, n) && n > 0 && q < |mq| && at < |mq[q]| && mq[q][at].held == Some(0)
    ensures var rest := mq[q := Without(mq[q], at)];
      && (forall p, k :: 0 <= p < |rest| && 0 <= k < |rest[p]| ==> rest[p][k].held != Some(0))
      && Places(ShiftedAll(rest), n - 1)
  {
    var rest := mq[q := Without(mq[q], at)];
    forall i: nat ensures HeldAll(rest, i) == (if 0 < i < n then 1 else 0) {
      HeldAround(mq[q], at, mq[q][at], i);
      HeldAllUpdate(mq, q, Without(mq[q], at), i);
    }
    forall p, k | 0 <= p < |rest| && 0 <= k < |rest[p]| ensures rest[p][k].held != Some(0) {
      HeldNowhere(rest, 0, p, k);
    }
    forall i: nat ensures HeldAll(ShiftedAll(rest), i) == (if i < n - 1 then 1 else 0) {
      ShiftedAllHeld(rest, i);
    }
  }

  /** One queue after the accept: the slot gone from queue q, the reissued event at the end of queue q+1. */
  function Released(mq: seq<seq<Slot>>, q: nat, at: nat, x: Cell): seq<seq<Slot>>
    requires q + 1 < |mq| && at < |mq[q]|
  {
    var rest := ShiftedAll(mq[q := Without(mq[q], at)]);
    rest[q + 1 := rest[q + 1] + [Slot(x, None)]]
  }

  lemma {:induction false} ReleasedLinks(c: Config, s: State, u: State, w: nat, mq: seq<seq<Slot>>, q: nat, at: nat,
                                         x: Cell, p: nat)
    requires Rel(c, s, u, w, mq) && q < c.n && at < |mq[q]| && mq[q][at].held == Some(0) && p <= c.n
    requires s.workers[w].ready && s.workers[w].batch != [] && at < |u.queues[q]|
    ensures var rest := s.workers[w].batch[1..];
      Link(c, Released(mq, q, at, x)[p], if p == q + 1 then s.queues[p] + [x] else s.queues[p],
           if p == q + 1 then u.queues[p] + [x] else if p == q then Without(u.queues[q], at) else u.queues[p],
           p, Worker(rest, rest != []))
  {
    var wk := s.workers[w];
    var ms := if p == q then Without(mq[q], at) else mq[p];
    var second := if p == q then Without(u.queues[q], at) else u.queues[p];
    assert Link(c, mq[p], s.queues[p], u.queues[p], p, wk);
    if p == q {
      LinkReleased(c, mq[q], s.queues[q], u.queues[q], q, wk, at);
    }
    ReleasedAt(mq, |wk.batch|, q, at, x, p);
    LinkShifted(c, ms, s.queues[p], second, p, wk);
    if p == q + 1 {
      LinkSnoc(c, Shifted(ms), s.queues[p], second, p, Worker(wk.batch[1..], wk.batch[1..] != []), x);
    }
  }

  /** A queue of the released slots; none of them is marked as first of the batch any more. */
  lemma {:induction false} ReleasedAt(mq: seq<seq<Slot>>, n: nat, q: nat, at: nat, x: Cell, p: nat)
    requires Places(mq, n) && n > 0 && q + 1 < |mq| && at < |mq[q]| && mq[q][at].held == Some(0) && p < |mq|
    ensures var ms := if p == q then Without(mq[q], at) else mq[p];
      && Released(mq, q, at, x)[p] == (if p == q + 1 then Shifted(ms) + [Slot(x, None)] else Shifted(ms))
      && forall k :: 0 <= k < |ms| ==> ms[k].held != Some(0)
  {
    PlacesReleased(mq, n, q, at);
    assert mq[q := Without(mq[q], at)][p] == if p == q then Without(mq[q], at) else mq[p];
  }

  lemma {:induction false} ReissuedAs(c: Config, cell: Cell, q: nat)
    requires Chained(c) && q < c.n && cell.ev.queueId == q
    ensures var b, x := Shown(c, cell, q, true), Reissued(c, Dequeued(cell, q));
      b.ev.queueId == q + 1 == x.at && Enqueued(b.ev, b.trail) == x
  {
  }

  /** What the accept does to a queue of the first run, and dequeueing, rewriting and enqueueing to one of the
      second. */
  lemma {:induction false} AcceptedQueue(c: Config, s: State, u: State, w: nat, mq: seq<seq<Slot>>, q: nat, at: nat,
                                         p: nat)
    requires Rel(c, s, u, w, mq) && WellPlaced(c, s) && WellPlaced(c, u) && Enabled(c, s, Accept(w))
    requires q < c.n && at < |u.queues[q]| && u.queues[q][at].ev.queueId == q && p <= c.n
    requires s.workers[w].batch[0] == Shown(c, u.queues[q][at], q, true)
    ensures var x := Reissued(c, Dequeued(u.queues[q][at], q));
      && Apply(c, s, Accept(w)).queues[p] == (if p == q + 1 then s.queues[p] + [x] else s.queues[p])
      && AfterSingle(c, u, Choice(q, at)).queues[p]
         == (if p == q + 1 then u.queues[p] + [x] else if p == q then Without(u.queues[q], at) else u.queues[p])
  {
    ReissuedAs(c, u.queues[q][at], q);
  }

  /** The two states after that are related by the released slots. */
  lemma {:induction false} ReleasedRel(c: Config, s: State, u: State, w: nat, mq: seq<seq<Slot>>, q: nat, at: nat,
                                       x: Cell, t: State, z: State)
    requires Rel(c, s, u, w, mq) && s.workers[w].ready && s.workers[w].batch != []
    requires q < c.n && at < |mq[q]| && mq[q][at].held == Some(0) && at < |u.queues[q]|
    requires |t.queues| == |z.queues| == c.n + 1
    requires t.arrived == s.arrived && t.sent == s.sent && z.arrived == u.arrived && z.sent == u.sent
    requires var rest := s.workers[w].batch[1..]; t.workers == s.workers[w := Worker(rest, rest != [])]
    requires z.workers == u.workers
    requires forall p :: 0 <= p <= c.n ==> t.queues[p] == (if p == q + 1 then s.queues[p] + [x] else s.queues[p])
    requires forall p :: 0 <= p <= c.n ==>
               z.queues[p] == (if p == q + 1 then u.queues[p] + [x] else if p == q then Without(u.queues[q], at)
                               else u.queues[p])
    ensures Rel(c, t, z, w, Released(mq, q, at, x))
  {
    var rest := s.workers[w].batch[1..];
    ReleasedPlaces(mq, |s.workers[w].batch|, q, at, x);
    forall p | 0 <= p <= c.n
      ensures Link(c, Released(mq, q, at, x)[p], t.queues[p], z.queues[p], p, Worker(rest, rest != []))
    {
      ReleasedLink(c, s, u, w, mq, q, at, x, p, t.queues[p], z.queues[p]);
    }
    Assembled(c, t, z, w, Released(mq, q, at, x), Worker(rest, rest != []), s.workers);
  }

  lemma {:induction false} ReleasedLink(c: Config, s: State, u: State, w: nat, mq: seq<seq<Slot>>, q: nat, at: nat,
                                        x: Cell, p: nat, first: seq<Cell>, second: seq<Cell>)
    requires Rel(c, s, u, w, mq) && s.workers[w].ready && s.workers[w].batch != [] && p <= c.n
    requires q < c.n && at < |mq[q]| && mq[q][at].held == Some(0) && at < |u.queues[q]|
    requires first == (if p == q + 1 then s.queues[p] + [x] else s.queues[p])
    requires second == (if p == q + 1 then u.queues[p] + [x] else if p == q then Without(u.queues[q], at)
                        else u.queues[p])
    ensures var rest := s.workers[w].batch[1..];
      Link(c, Released(mq, q, at, x)[p], first, second, p, Worker(rest, rest != []))
  {
    ReleasedLinks(c, s, u, w, mq, q, at, x, p);
  }

  /** The parts of the relation put together, w being wk in the first run. */
  lemma {:induction false} Assembled(c: Config, t: State, z: State, w: nat, nq: seq<seq<Slot>>, wk: Worker,
                                     before: seq<Worker>)
    requires Chained(c) && w < |before| && |nq| == |t.queues| == |z.queues| == c.n + 1
    requires t.workers == before[w := wk] && z.workers == before[w := Worker([], false)]
    requires z.arrived == t.arrived && z.sent == t.sent && Places(nq, |wk.batch|)
    requires forall p :: 0 <= p <= c.n ==> Link(c, nq[p], t.queues[p], z.queues[p], p, wk)
    ensures Rel(c, t, z, w, nq)
  {
    assert t.workers[w := Worker([], false)] == z.workers;
  }

  lemma {:induction false} ReleasedPlaces(mq: seq<seq<Slot>>, n: nat, q: nat, at: nat, x: Cell)
    requires Places(mq, n) && n > 0 && q + 1 < |mq| && at < |mq[q]| && mq[q][at].held == Some(0)
    ensures Places(Released(mq, q, at, x), n - 1)
  {
    PlacesReleased(mq, n, q, at);
    PlacesSnoc(ShiftedAll(mq[q := Without(mq[q], at)]), n - 1, q + 1, x);
  }

  lemma {:induction false} RelAcceptOwn(c: Config, s: State, u: State, w: nat, mq: seq<seq<Slot>>)
    returns (q: nat, at: nat, nq: seq<seq<Slot>>)
    requires Rel(c, s, u, w, mq) && WellPlaced(c, s) && WellPlaced(c, u) && Enabled(c, s, Accept(w))
    requires c.queueType == Atomic ==> Exclusive(s)
    ensures q < c.n && Enabled(c, u, Take(w, q, at)) && u.queues[q][at].ev.queueId == q
    ensures Rel(c, Apply(c, s, Accept(w)), AfterSingle(c, u, Choice(q, at)), w, nq)
  {
    assert HeldAll(mq, 0) == 1;
    q, at := HeldAllSomewhere(mq, 0);
    FirstSchedulable(c, s, u, w, mq, q, at);
    var x := Reissued(c, Dequeued(u.queues[q][at], q));
    var t, z := Apply(c, s, Accept(w)), AfterSingle(c, u, Choice(q, at));
    forall p | 0 <= p <= c.n
      ensures t.queues[p] == (if p == q + 1 then s.queues[p] + [x] else s.queues[p])
      ensures z.queues[p] == (if p == q + 1 then u.queues[p] + [x] else if p == q then Without(u.queues[q], at)
                              else u.queues[p])
    {
      AcceptedQueue(c, s, u, w, mq, q, at, p);
    }
    ReleasedRel(c, s, u, w, mq, q, at, x, t, z);
    nq := Released(mq, q, at, x);
  }

  /* ---------------------------------------------------------------- runs */

  predicate By(step: Step, w: nat) {
    (step.Take? || step.Rewrite? || step.Accept?) && step.w == w
  }

  /** What the run goes on with: anything, or the rewrite or the enqueue of worker w. */
  datatype Due = Anything | ToRewrite | ToAccept

  /** From a moment on at which this is due, worker w handles one event at a time, undisturbed: each of its dequeues
      is followed at once by the rewrite and the enqueue. */
  predicate Singly(run: seq<Step>, w: nat, due: Due) {
    if run == [] then due.Anything?
    else
      match due
      case Anything =>
        if By(run[0], w) then run[0].Take? && Singly(run[1..], w, ToRewrite) else Singly(run[1..], w, Anything)
      case ToRewrite => run[0] == Rewrite(w) && Singly(run[1..], w, ToAccept)
      case ToAccept => run[0] == Accept(w) && Singly(run[1..], w, Anything)
  }

  predicate OneAtATime(run: seq<Step>, w: nat) {
    Singly(run, w, Anything)
  }

  lemma {:induction false} SinglyConcat(a: seq<Step>, b: seq<Step>, w: nat, due: Due)
    requires Singly(a, w, due) && OneAtATime(b, w)
    ensures Singly(a + b, w, due)
  {
    if a == [] {
      assert a + b == b;
    } else {
      assert (a + b)[0] == a[0] && (a + b)[1..] == a[1..] + b;
      var next := if due.ToRewrite? then ToAccept else if due.Anything? && By(a[0], w) then ToRewrite else Anything;
      SinglyConcat(a[1..], b, w, next);
    }
  }

  lemma {:induction false} TripleIsSingle(w: nat, q: nat, at: nat)
    ensures OneAtATime([Take(w, q, at), Rewrite(w), Accept(w)], w)
  {
    var run := [Take(w, q, at), Rewrite(w), Accept(w)];
    assert run[1..] == [Rewrite(w), Accept(w)] && run[1..][1..] == [Accept(w)] && run[1..][1..][1..] == [];
    assert Singly(run[1..][1..], w, ToAccept);
    assert Singly(run[1..], w, ToRewrite);
  }

  /** What the second run may do for a step of the first: steps of w for one of w, and otherwise the same step, but
      for the place in the queue an event is taken from. */
  predicate Matches(step: Step, more: seq<Step>, w: nat) {
    if By(step, w) then forall i :: 0 <= i < |more| ==> By(more[i], w)
    else |more| == 1 && !By(more[0], w)
         && (more[0] == step || (step.Take? && more[0].Take? && more[0].w == step.w))
  }

  /** So another worker that handles one event at a time keeps doing so. */
  lemma {:induction false} MatchIsSingle(run: seq<Step>, more: seq<Step>, rest: seq<Step>, w: nat, v: nat, due: Due)
    requires run != [] && v != w && Matches(run[0], more, w) && Singly(run, v, due)
    requires forall d :: Singly(run[1..], v, d) ==> Singly(rest, v, d)
    ensures Singly(more + rest, v, due)
  {
    if By(run[0], w) {
      OthersAreSingle(more, rest, w, v);
    } else {
      assert (more + rest)[0] == more[0] && (more + rest)[1..] == rest;
    }
  }

  lemma {:induction false} OthersAreSingle(more: seq<Step>, rest: seq<Step>, w: nat, v: nat)
    requires v != w && OneAtATime(rest, v) && forall i :: 0 <= i < |more| ==> By(more[i], w)
    ensures OneAtATime(more + rest, v)
  {
    if more == [] {
      assert more + rest == rest;
    } else {
      assert (more + rest)[0] == more[0] && (more + rest)[1..] == more[1..] + rest;
      OthersAreSingle(more[1..], rest, w, v);
    }
  }

  lemma {:induction false} LeadsConcat(c: Config, s: State, a: seq<Step>, t: State, b: seq<Step>, u: State)
    requires WellPlaced(c, s) && Leads(c, s, a, t) && WellPlaced(c, t) && Leads(c, t, b, u)
    ensures Leads(c, s, a + b, u)
    decreases |a|
  {
    if a == [] {
      assert a + b == b;
    } else {
      StepKeepsPlacement(c, s, a[0]);
      LeadsConcat(c, Apply(c, s, a[0]), a[1..], t, b, u);
      LeadsCons(c, s, a[0], a[1..] + b, u);
      assert [a[0]] + (a[1..] + b) == a + b;
    }
  }

  /** What the second run does while the first takes a step. */
  lemma {:induction false} StepSimulated(c: Config, s: State, u: State, w: nat, mq: seq<seq<Slot>>, step: Step)
    returns (more: seq<Step>, z: State, nq: seq<seq<Slot>>)
    requires Rel(c, s, u, w, mq) && Inv(c, s) && WellPlaced(c, u) && Enabled(c, s, step)
    ensures Leads(c, u, more, z) && WellPlaced(c, z) && OneAtATime(more, w) && Matches(step, more, w)
    ensures Rel(c, Apply(c, s, step), z, w, nq)
  {
    if By(step, w) {
      more, z, nq := OwnStepSimulated(c, s, u, w, mq, step);
    } else {
      var same: Step;
      same, nq := OtherStepSimulated(c, s, u, w, mq, step);
      StepKeepsPlacement(c, u, same);
      more, z := [same] + [], Apply(c, u, same);
      LeadsCons(c, u, same, [], z);
      assert [same] + [] == [same] && [same][1..] == [];
    }
  }

  lemma {:induction false} OtherStepSimulated(c: Config, s: State, u: State, w: nat, mq: seq<seq<Slot>>, step: Step)
    returns (same: Step, nq: seq<seq<Slot>>)
    requires Rel(c, s, u, w, mq) && WellPlaced(c, s) && WellPlaced(c, u) && Enabled(c, s, step) && !By(step, w)
    ensures Matches(step, [same], w) && Enabled(c, u, same) && Rel(c, Apply(c, s, step), Apply(c, u, same), w, nq)
  {
    same := step;
    match step {
      case Arrive(pkt) => nq := RelArrive(c, s, u, w, mq, pkt);
      case Take(v, q, k) =>
        var at: nat;
        at, nq := RelTake(c, s, u, w, mq, v, q, k);
        same := Take(v, q, at);
      case Rewrite(v) =>
        RelRewrite(c, s, u, w, mq, v);
        nq := mq;
      case Accept(v) => nq := RelAccept(c, s, u, w, mq, v);
      case Transmit => nq := RelTransmit(c, s, u, w, mq);
    }
  }

  lemma {:induction false} OwnStepSimulated(c: Config, s: State, u: State, w: nat, mq: seq<seq<Slot>>, step: Step)
    returns (more: seq<Step>, z: State, nq: seq<seq<Slot>>)
    requires Rel(c, s, u, w, mq) && Inv(c, s) && WellPlaced(c, u) && Enabled(c, s, step) && By(step, w)
    ensures Leads(c, u, more, z) && WellPlaced(c, z) && OneAtATime(more, w) && Matches(step, more, w)
    ensures Rel(c, Apply(c, s, step), z, w, nq)
  {
    more, z := [], u;
    match step {
      case Take(_, q, k) => nq := RelTakeOwn(c, s, u, w, mq, q, k);
      case Rewrite(_) =>
        RelRewriteOwn(c, s, u, w, mq);
        nq := mq;
      case Accept(_) =>
        var q, at: nat;
        q, at, nq := RelAcceptOwn(c, s, u, w, mq);
        z := AfterSingle(c, u, Choice(q, at));
        SingleMoves(c, u, w, Choice(q, at), [], z);
        TripleIsSingle(w, q, at);
        more := [Take(w, q, at), Rewrite(w), Accept(w)];
        assert more + [] == more;
    }
  }

  lemma {:induction false} RelInit(c: Config, numWorkers: nat, w: nat) returns (mq: seq<seq<Slot>>)
    requires Chained(c) && w < numWorkers
    ensures Rel(c, Init(c, numWorkers), Init(c, numWorkers), w, mq)
  {
    mq := seq(c.n + 1, _ => []);
    forall i: nat ensures HeldAll(mq, i) == 0 {
      NothingHeld(mq, i);
    }
  }

  lemma {:induction false} NothingHeld(mq: seq<seq<Slot>>, i: nat)
    requires forall q :: 0 <= q < |mq| ==> mq[q] == []
    ensures HeldAll(mq, i) == 0
  {
    if mq != [] {
      NothingHeld(mq[1..], i);
    }
  }

  /** Every run is matched, step by step. */
  lemma {:induction false} RunSimulated(c: Config, s: State, u: State, w: nat, mq: seq<seq<Slot>>, run: seq<Step>,
                                        t: State)
    returns (more: seq<Step>, z: State, nq: seq<seq<Slot>>)
    requires Rel(c, s, u, w, mq) && Inv(c, s) && WellPlaced(c, u) && Leads(c, s, run, t)
    ensures Leads(c, u, more, z) && OneAtATime(more, w) && Rel(c, t, z, w, nq)
    ensures forall v, due :: v != w && Singly(run, v, due) ==> Singly(more, v, due)
    decreases |run|
  {
    if run == [] {
      more, z, nq := [], u, mq;
    } else {
      var front, rest: seq<Step>;
      var y: State;
      front, y, nq := StepSimulated(c, s, u, w, mq, run[0]);
      StepKeepsInv(c, s, run[0]);
      rest, z, nq := RunSimulated(c, Apply(c, s, run[0]), y, w, nq, run[1..], t);
      LeadsConcat(c, u, front, y, rest, z);
      SinglyConcat(front, rest, w, Anything);
      more := front + rest;
      forall v, due | v != w && Singly(run, v, due) ensures Singly(more, v, due) {
        MatchIsSingle(run, front, rest, w, v, due);
      }
    }
  }

  /** With nothing in w's hands the two runs are in the same state. */
  lemma {:induction false} RelIdle(c: Config, s: State, u: State, w: nat, mq: seq<seq<Slot>>)
    requires Rel(c, s, u, w, mq) && s.workers[w] == Worker([], false)
    ensures s == u
  {
    forall q | 0 <= q <= c.n ensures s.queues[q] == u.queues[q] {
      assert Link(c, mq[q], s.queues[q], u.queues[q], q, s.workers[w]);
      forall k | 0 <= k < |mq[q]| ensures mq[q][k].held.None? {
        assert SlotOk(c, mq[q][k], q, s.workers[w]);
      }
      AllFree(mq[q]);
    }
  }

  lemma {:induction false} AllFree(ms: seq<Slot>)
    requires forall k :: 0 <= k < |ms| ==> ms[k].held.None?
    ensures Free(ms) == Cells(ms)
  {
    if ms != [] {
      AllFree(ms[1..]);
      assert Cells(ms)[1..] == Cells(ms[1..]);
    }
  }

  /** The refinement: whatever state a run reaches in which worker w takes bursts, in any interleaving with all
      other actors and with w between two bursts at its end, a run reaches in which w handles one event at a
      time. */
  lemma {:induction false} BurstsRefineSingles(c: Config, numWorkers: nat, w: nat, run: seq<Step>, t: State)
    returns (singles: seq<Step>)
    requires Chained(c) && w < numWorkers && Leads(c, Init(c, numWorkers), run, t)
    requires w < |t.workers| ==> t.workers[w] == Worker([], false)
    ensures Leads(c, Init(c, numWorkers), singles, t) && OneAtATime(singles, w)
    ensures forall v :: v != w && OneAtATime(run, v) ==> OneAtATime(singles, v)
  {
    var s := Init(c, numWorkers);
    InitInv(c, numWorkers);
    var mq := RelInit(c, numWorkers, w);
    var z: State;
    singles, z, mq := RunSimulated(c, s, s, w, mq, run, t);
    RelIdle(c, t, z, w, mq);
  }

  /** All workers at once: whatever state a run reaches in which every worker takes bursts, with all of them between
      two bursts at its end, a run reaches in which every worker handles one event at a time. */
  lemma {:induction false} AllBurstsRefineSingles(c: Config, numWorkers: nat, run: seq<Step>, t: State)
    returns (singles: seq<Step>)
    requires Chained(c) && Leads(c, Init(c, numWorkers), run, t)
    requires forall w :: 0 <= w < |t.workers| ==> t.workers[w] == Worker([], false)
    ensures Leads(c, Init(c, numWorkers), singles, t)
    ensures forall w :: 0 <= w < numWorkers ==> OneAtATime(singles, w)
  {
    singles := FirstRefined(c, numWorkers, numWorkers, run, t);
  }

  lemma {:induction false} FirstRefined(c: Config, numWorkers: nat, k: nat, run: seq<Step>, t: State)
    returns (singles: seq<Step>)
    requires Chained(c) && k <= numWorkers && Leads(c, Init(c, numWorkers), run, t)
    requires forall w :: 0 <= w < |t.workers| ==> t.workers[w] == Worker([], false)
    ensures Leads(c, Init(c, numWorkers), singles, t)
    ensures forall w :: 0 <= w < k ==> OneAtATime(singles, w)
    decreases k
  {
    if k == 0 {
      singles := run;
    } else {
      var most := FirstRefined(c, numWorkers, k - 1, run, t);
      singles := BurstsRefineSingles(c, numWorkers, k - 1, most, t);
    }
  }
}

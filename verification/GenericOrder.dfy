/**
 Flow order, conservation and progress of the generic pipeline over every run.

 For a class of packets (one RSS value, or one packet) the pipeline is read as a conveyor of 2n+2
 segments: transmitted, TX queue, then for each stage from n-1 down to 0 what the workers hold of it
 and what its queue holds. Every step leaves that line as it is, or appends an arrival to it.
 */
module GenericOrder {
  import opened Arithmetic
  import opened Sequences
  import opened EventDev
  import opened GenericPipeline

  datatype Class = Rss(rss: nat) | One(id: nat)

  predicate InClass(cl: Class, p: Packet) {
    match cl
    case Rss(r) => p.rss == r
    case One(id) => p.id == id
  }

  function PickPackets(ps: seq<Packet>, cl: Class): seq<Packet> {
    if ps == [] then []
    else PickPackets(ps[..|ps| - 1], cl) + (if InClass(cl, ps[|ps| - 1]) then [ps[|ps| - 1]] else [])
  }

  /** The packets of a class among the cells scheduled from queue q. */
  function Pick(cells: seq<Cell>, q: nat, cl: Class): seq<Packet> {
    if cells == [] then [] else PickOne(cells[0], q, cl) + Pick(cells[1..], q, cl)
  }

  function PickOne(cell: Cell, q: nat, cl: Class): seq<Packet> {
    if cell.at == q && InClass(cl, cell.ev.pkt) then [cell.ev.pkt] else []
  }

  lemma {:induction false} PickConcat(a: seq<Cell>, b: seq<Cell>, q: nat, cl: Class)
    ensures Pick(a + b, q, cl) == Pick(a, q, cl) + Pick(b, q, cl)
  {
    if a == [] {
      assert a + b == b;
    } else {
      PickConcat(a[1..], b, q, cl);
      assert (a + b)[1..] == a[1..] + b && (a + b)[0] == a[0];
      Assoc(PickOne(a[0], q, cl), Pick(a[1..], q, cl), Pick(b, q, cl));
    }
  }

  lemma {:induction false} PickAround(a: seq<Cell>, k: nat, q: nat, cl: Class)
    requires k < |a|
    ensures Pick(a, q, cl) == Pick(a[..k], q, cl) + PickOne(a[k], q, cl) + Pick(a[k + 1..], q, cl)
    ensures Pick(Without(a, k), q, cl) == Pick(a[..k], q, cl) + Pick(a[k + 1..], q, cl)
  {
    assert a == a[..k] + ([a[k]] + a[k + 1..]);
    PickConcat(a[..k], [a[k]] + a[k + 1..], q, cl);
    PickConcat([a[k]], a[k + 1..], q, cl);
    PickConcat(a[..k], a[k + 1..], q, cl);
    assert Pick([a[k]], q, cl) == PickOne(a[k], q, cl);
  }

  /** Removing element k takes it off the front of its class when nothing of the class precedes it. */
  lemma {:induction false} PickRemove(a: seq<Cell>, k: nat, q: nat, cl: Class)
    requires k < |a|
    requires Pick(a[..k], q, cl) == [] || PickOne(a[k], q, cl) == []
    ensures Pick(a, q, cl) == PickOne(a[k], q, cl) + Pick(Without(a, k), q, cl)
    ensures PickOne(a[k], q, cl) == [] ==> Pick(a, q, cl) == Pick(Without(a, k), q, cl)
  {
    PickAround(a, k, q, cl);
    DropEmpty(Pick(a[..k], q, cl), PickOne(a[k], q, cl), Pick(a[k + 1..], q, cl));
  }

  lemma {:induction false} DropEmpty<T>(a: seq<T>, x: seq<T>, b: seq<T>)
    requires a == [] || x == []
    ensures a + x + b == x + (a + b)
    ensures x == [] ==> a + x + b == a + b
  {
  }

  lemma {:induction false} PickSnoc(a: seq<Cell>, x: Cell, q: nat, cl: Class)
    ensures Pick(a + [x], q, cl) == Pick(a, q, cl) + PickOne(x, q, cl)
  {
    PickConcat(a, [x], q, cl);
    assert Pick([x], q, cl) == PickOne(x, q, cl);
  }

  lemma {:induction false} PickNone(a: seq<Cell>, q: nat, cl: Class)
    requires forall j :: 0 <= j < |a| ==> PickOne(a[j], q, cl) == []
    ensures Pick(a, q, cl) == []
  {
    if a != [] {
      PickNone(a[1..], q, cl);
    }
  }

  /** A rewrite keeps packets and scheduling context. */
  lemma {:induction false} PickSameContext(a: seq<Cell>, b: seq<Cell>, q: nat, cl: Class)
    requires |a| == |b|
    requires forall j :: 0 <= j < |a| ==> a[j].at == b[j].at && a[j].ev.pkt == b[j].ev.pkt
    ensures Pick(a, q, cl) == Pick(b, q, cl)
  {
    if a != [] {
      PickSameContext(a[1..], b[1..], q, cl);
    }
  }

  /** What each worker holds of stage q. */
  function Rows(ws: seq<Worker>, q: nat, cl: Class): seq<seq<Packet>> {
    seq(|ws|, i requires 0 <= i < |ws| => Pick(ws[i].batch, q, cl))
  }

  function HeldOf(ws: seq<Worker>, q: nat, cl: Class): seq<Packet> {
    Flatten(Rows(ws, q, cl))
  }

  lemma {:induction false} HeldUpdate(ws: seq<Worker>, w: nat, x: Worker, q: nat, cl: Class)
    requires w < |ws|
    ensures HeldOf(ws, q, cl) ==
            Flatten(Rows(ws, q, cl)[..w]) + Pick(ws[w].batch, q, cl) + Flatten(Rows(ws, q, cl)[w + 1..])
    ensures HeldOf(ws[w := x], q, cl) ==
            Flatten(Rows(ws, q, cl)[..w]) + Pick(x.batch, q, cl) + Flatten(Rows(ws, q, cl)[w + 1..])
  {
    FlattenAround(Rows(ws, q, cl), w);
    FlattenUpdate(Rows(ws, q, cl), w, Pick(x.batch, q, cl));
    assert Rows(ws[w := x], q, cl) == Rows(ws, q, cl)[w := Pick(x.batch, q, cl)];
  }

  /** A worker appends x to its batch; the class gains x at its stage when no later worker holds any. */
  lemma {:induction false} BatchPush(ws: seq<Worker>, w: nat, x: Cell, ready: bool, q: nat, cl: Class)
    requires w < |ws|
    requires PickOne(x, q, cl) == [] || Flatten(Rows(ws, q, cl)[w + 1..]) == []
    ensures HeldOf(ws[w := Worker(ws[w].batch + [x], ready)], q, cl) == HeldOf(ws, q, cl) + PickOne(x, q, cl)
    ensures PickOne(x, q, cl) == [] ==>
      HeldOf(ws[w := Worker(ws[w].batch + [x], ready)], q, cl) == HeldOf(ws, q, cl)
  {
    PickSnoc(ws[w].batch, x, q, cl);
    HeldUpdate(ws, w, Worker(ws[w].batch + [x], ready), q, cl);
  }

  /** A worker hands over the first event of its batch; dual to BatchPush. */
  lemma {:induction false} BatchPop(ws: seq<Worker>, w: nat, ready: bool, q: nat, cl: Class)
    requires w < |ws| && ws[w].batch != []
    requires PickOne(ws[w].batch[0], q, cl) == [] || Flatten(Rows(ws, q, cl)[..w]) == []
    ensures HeldOf(ws, q, cl) ==
            PickOne(ws[w].batch[0], q, cl) + HeldOf(ws[w := Worker(ws[w].batch[1..], ready)], q, cl)
    ensures PickOne(ws[w].batch[0], q, cl) == [] ==>
      HeldOf(ws, q, cl) == HeldOf(ws[w := Worker(ws[w].batch[1..], ready)], q, cl)
  {
    HeldUpdate(ws, w, Worker(ws[w].batch[1..], ready), q, cl);
    Regroup(Flatten(Rows(ws, q, cl)[..w]), PickOne(ws[w].batch[0], q, cl), Pick(ws[w].batch[1..], q, cl),
            Flatten(Rows(ws, q, cl)[w + 1..]));
  }

  /* ---------------------------------------------------------------- the conveyor */

  /** What waits in queue q. */
  function In(c: Config, s: State, q: nat, cl: Class): seq<Packet>
    requires |s.queues| == c.n + 1 && q <= c.n
  {
    Pick(s.queues[q], q, cl)
  }

  /** What has left queue q and not yet reached queue q+1. */
  function Out(c: Config, s: State, q: nat, cl: Class): seq<Packet> {
    if q == c.n then Pick(s.sent, q, cl) else HeldOf(s.workers, q, cl)
  }

  function Segment(c: Config, s: State, cl: Class, i: nat): seq<Packet>
    requires |s.queues| == c.n + 1 && i < 2 * c.n + 2
  {
    var q := c.n - i / 2;
    if i % 2 == 1 then In(c, s, q, cl) else Out(c, s, q, cl)
  }

  function Segments(c: Config, s: State, cl: Class): seq<seq<Packet>>
    requires |s.queues| == c.n + 1
  {
    seq(2 * c.n + 2, i requires 0 <= i < 2 * c.n + 2 => Segment(c, s, cl, i))
  }

  /** transmitted ++ TX queue ++ held(n-1) ++ queue(n-1) ++ ... ++ held(0) ++ queue(0). */
  function Line(c: Config, s: State, cl: Class): seq<Packet>
    requires |s.queues| == c.n + 1
  {
    Flatten(Segments(c, s, cl))
  }

  /** No two workers hold events of one flow from one queue. */
  ghost predicate Exclusive(s: State) {
    forall v, w :: 0 <= v < w < |s.workers| ==> Apart(s.workers[v].batch, s.workers[w].batch)
  }

  ghost predicate Apart(a: seq<Cell>, b: seq<Cell>) {
    forall i, j :: 0 <= i < |a| && 0 <= j < |b| ==> !(a[i].at == b[j].at && a[i].flow == b[j].flow)
  }

  /** A batch grows by an event whose flow nobody else holds. */
  lemma {:induction false} ApartSnoc(a: seq<Cell>, b: seq<Cell>, x: Cell)
    requires Apart(a, b) && forall i :: 0 <= i < |a| ==> !(a[i].at == x.at && a[i].flow == x.flow)
    ensures Apart(a, b + [x]) && Apart(b + [x], a)
  {
  }

  ghost predicate DistinctArrivals(s: State) {
    forall i, j :: 0 <= i < j < |s.arrived| ==> s.arrived[i].id != s.arrived[j].id
  }

  /** The classes whose order is kept: single packets always, RSS values under atomic scheduling. */
  predicate Tracked(c: Config, cl: Class) {
    cl.One? || c.queueType == Atomic
  }

  ghost predicate Inv(c: Config, s: State) {
    && WellPlaced(c, s)
    && DistinctArrivals(s)
    && (c.queueType == Atomic ==> Exclusive(s))
    && (forall cl :: Tracked(c, cl) ==> Line(c, s, cl) == PickPackets(s.arrived, cl))
  }

  lemma {:induction false} PickedAtMostOnce(ps: seq<Packet>, id: nat)
    requires forall i, j :: 0 <= i < j < |ps| ==> ps[i].id != ps[j].id
    ensures |PickPackets(ps, One(id))| <= 1
    ensures (forall i :: 0 <= i < |ps| ==> ps[i].id != id) ==> PickPackets(ps, One(id)) == []
  {
    if ps != [] {
      PickedAtMostOnce(ps[..|ps| - 1], id);
    }
  }

  lemma {:induction false} SegmentsAt(c: Config, s: State, cl: Class, q: nat)
    requires |s.queues| == c.n + 1 && q <= c.n
    ensures Segments(c, s, cl)[2 * (c.n - q)] == Out(c, s, q, cl)
    ensures Segments(c, s, cl)[2 * (c.n - q) + 1] == In(c, s, q, cl)
  {
    Halves(c.n - q);
  }

  lemma {:induction false} SegmentIndex(c: Config, i: nat)
    requires i < 2 * c.n + 2
    ensures var q := c.n - i / 2; 0 <= q <= c.n && i == 2 * (c.n - q) + i % 2
  {
  }

  /** Two lines agree on a segment if they agree on the queue or hand it stands for. */
  lemma {:induction false} SegmentSame(c: Config, s: State, t: State, cl: Class, i: nat, q: nat)
    requires |s.queues| == |t.queues| == c.n + 1 && i < 2 * c.n + 2 && q <= c.n && i / 2 == c.n - q
    requires i % 2 == 1 ==> In(c, s, q, cl) == In(c, t, q, cl)
    requires i % 2 == 0 ==> Out(c, s, q, cl) == Out(c, t, q, cl)
    ensures Segments(c, s, cl)[i] == Segments(c, t, cl)[i]
  {
  }

  lemma {:induction false} NothingMoved(c: Config, s: State, t: State, cl: Class)
    requires |s.queues| == |t.queues| == c.n + 1
    requires forall q :: 0 <= q <= c.n ==> In(c, s, q, cl) == In(c, t, q, cl)
    requires forall q :: 0 <= q <= c.n ==> Out(c, s, q, cl) == Out(c, t, q, cl)
    ensures Line(c, t, cl) == Line(c, s, cl)
  {
    assert Segments(c, t, cl) == Segments(c, s, cl);
  }

  /** x went from the front of queue q into hand. */
  lemma {:induction false} LeftQueue(c: Config, s: State, t: State, cl: Class, q: nat, x: Packet)
    requires |s.queues| == |t.queues| == c.n + 1 && q <= c.n
    requires forall p :: 0 <= p <= c.n && p != q ==> In(c, s, p, cl) == In(c, t, p, cl)
    requires forall p :: 0 <= p <= c.n && p != q ==> Out(c, s, p, cl) == Out(c, t, p, cl)
    requires In(c, s, q, cl) == [x] + In(c, t, q, cl)
    requires Out(c, t, q, cl) == Out(c, s, q, cl) + [x]
    ensures Line(c, t, cl) == Line(c, s, cl)
  {
    var k, before, after := 2 * (c.n - q), Segments(c, s, cl), Segments(c, t, cl);
    forall i | 0 <= i < |before| && i != k && i != k + 1 ensures before[i] == after[i] {
      SegmentBesideQueue(c, s, t, cl, q, i);
    }
    SegmentsAt(c, s, cl, q);
    SegmentsAt(c, t, cl, q);
    AdvanceKeepsLine(before, after, k, x);
  }

  lemma {:induction false} SegmentBesideQueue(c: Config, s: State, t: State, cl: Class, q: nat, i: nat)
    requires |s.queues| == |t.queues| == c.n + 1 && q <= c.n
    requires forall p :: 0 <= p <= c.n && p != q ==> In(c, s, p, cl) == In(c, t, p, cl)
    requires forall p :: 0 <= p <= c.n && p != q ==> Out(c, s, p, cl) == Out(c, t, p, cl)
    requires i < 2 * c.n + 2 && i != 2 * (c.n - q) && i != 2 * (c.n - q) + 1
    ensures Segments(c, s, cl)[i] == Segments(c, t, cl)[i]
  {
    SegmentIndex(c, i);
    SegmentSame(c, s, t, cl, i, c.n - i / 2);
  }

  /** x went from the front of hand q to the back of queue q+1. */
  lemma {:induction false} LeftHand(c: Config, s: State, t: State, cl: Class, q: nat, x: Packet)
    requires |s.queues| == |t.queues| == c.n + 1 && q < c.n
    requires forall p :: 0 <= p <= c.n && p != q + 1 ==> In(c, s, p, cl) == In(c, t, p, cl)
    requires forall p :: 0 <= p <= c.n && p != q ==> Out(c, s, p, cl) == Out(c, t, p, cl)
    requires Out(c, s, q, cl) == [x] + Out(c, t, q, cl)
    requires In(c, t, q + 1, cl) == In(c, s, q + 1, cl) + [x]
    ensures Line(c, t, cl) == Line(c, s, cl)
  {
    var k, before, after := 2 * (c.n - q) - 1, Segments(c, s, cl), Segments(c, t, cl);
    forall i | 0 <= i < |before| && i != k && i != k + 1 ensures before[i] == after[i] {
      SegmentBesideHand(c, s, t, cl, q, i);
    }
    HandAt(c, s, cl, q, k);
    HandAt(c, t, cl, q, k);
    AdvanceKeepsLine(before, after, k, x);
  }

  /** The segments x moves between: queue q+1 and hand q. */
  lemma {:induction false} HandAt(c: Config, s: State, cl: Class, q: nat, k: nat)
    requires |s.queues| == c.n + 1 && q < c.n && k == 2 * (c.n - q) - 1
    ensures Segments(c, s, cl)[k] == In(c, s, q + 1, cl) && Segments(c, s, cl)[k + 1] == Out(c, s, q, cl)
  {
    Halves(c.n - q - 1);
    Halves(c.n - q);
  }

  lemma {:induction false} SegmentBesideHand(c: Config, s: State, t: State, cl: Class, q: nat, i: nat)
    requires |s.queues| == |t.queues| == c.n + 1 && q < c.n
    requires forall p :: 0 <= p <= c.n && p != q + 1 ==> In(c, s, p, cl) == In(c, t, p, cl)
    requires forall p :: 0 <= p <= c.n && p != q ==> Out(c, s, p, cl) == Out(c, t, p, cl)
    requires i < 2 * c.n + 2 && i != 2 * (c.n - q) - 1 && i != 2 * (c.n - q)
    ensures Segments(c, s, cl)[i] == Segments(c, t, cl)[i]
  {
    SegmentIndex(c, i);
    SegmentSame(c, s, t, cl, i, c.n - i / 2);
  }

  /** A packet stands in one place only. */
  lemma {:induction false} OnePlace(c: Config, s: State, id: nat, q: nat)
    requires |s.queues| == c.n + 1 && q <= c.n
    requires DistinctArrivals(s) && Line(c, s, One(id)) == PickPackets(s.arrived, One(id))
    ensures |In(c, s, q, One(id))| <= 1 && |Out(c, s, q, One(id))| <= 1
    ensures In(c, s, q, One(id)) == [] || Out(c, s, q, One(id)) == []
  {
    PickedAtMostOnce(s.arrived, id);
    SegmentsAt(c, s, One(id), q);
    FlattenAround(Segments(c, s, One(id)), 2 * (c.n - q));
    FlattenAround(Segments(c, s, One(id)), 2 * (c.n - q) + 1);
    if In(c, s, q, One(id)) != [] {
      FlattenSingle(Segments(c, s, One(id)), 2 * (c.n - q) + 1, 2 * (c.n - q));
    }
  }

  /** Under atomic scheduling a worker that holds none of a flow holds none of its RSS values. */
  lemma {:induction false} RowEmpty(c: Config, wk: Worker, q: nat, rss: nat)
    requires c.numFids > 0
    requires forall j :: 0 <= j < |wk.batch| ==> HeldOk(c, wk.batch[j], wk.ready)
    requires forall j :: 0 <= j < |wk.batch| ==> !(wk.batch[j].at == q && wk.batch[j].flow == FlowAt(c, q, rss))
    ensures Pick(wk.batch, q, Rss(rss)) == []
  {
    forall j | 0 <= j < |wk.batch| ensures PickOne(wk.batch[j], q, Rss(rss)) == [] {
      assert HeldOk(c, wk.batch[j], wk.ready);
    }
    PickNone(wk.batch, q, Rss(rss));
  }

  /** Nothing of the class stands before the event to take, and no later worker holds any of its stage. */
  lemma {:induction false} NothingAheadInQueue(c: Config, s: State, w: nat, q: nat, k: nat, cl: Class)
    requires WellPlaced(c, s) && Enabled(c, s, Take(w, q, k)) && Tracked(c, cl)
    requires DistinctArrivals(s) && Line(c, s, cl) == PickPackets(s.arrived, cl)
    requires InClass(cl, s.queues[q][k].ev.pkt)
    ensures Pick(s.queues[q][..k], q, cl) == []
    ensures Flatten(Rows(s.workers, q, cl)[w + 1..]) == []
  {
    var cells := s.queues[q];
    assert QueuedOk(c, cells[k], q);
    if cl.One? {
      PickAround(cells, k, q, cl);
      OnePlace(c, s, cl.id, q);
      HeldUpdate(s.workers, w, s.workers[w], q, cl);
    } else {
      forall j | 0 <= j < k ensures PickOne(cells[..k][j], q, cl) == [] {
        assert QueuedOk(c, cells[j], q);
      }
      PickNone(cells[..k], q, cl);
      forall v | w < v < |s.workers| ensures Rows(s.workers, q, cl)[v] == [] {
        RowEmpty(c, s.workers[v], q, cl.rss);
      }
      FlattenEmpty(Rows(s.workers, q, cl)[w + 1..]);
    }
  }

  /** No earlier worker holds any of the class from the stage of the event to enqueue. */
  lemma {:induction false} NothingAheadInHand(c: Config, s: State, w: nat, cl: Class)
    requires WellPlaced(c, s) && Enabled(c, s, Accept(w)) && Tracked(c, cl)
    requires DistinctArrivals(s) && Line(c, s, cl) == PickPackets(s.arrived, cl)
    requires c.queueType == Atomic ==> Exclusive(s)
    requires InClass(cl, s.workers[w].batch[0].ev.pkt)
    ensures Flatten(Rows(s.workers, s.workers[w].batch[0].at, cl)[..w]) == []
  {
    var cell := s.workers[w].batch[0];
    var q := cell.at;
    assert HeldOk(c, cell, true);
    if cl.One? {
      OnePlace(c, s, cl.id, q);
      HeldUpdate(s.workers, w, s.workers[w], q, cl);
    } else {
      forall v | 0 <= v < w ensures Rows(s.workers, q, cl)[v] == [] {
        RowEmpty(c, s.workers[v], q, cl.rss);
      }
      FlattenEmpty(Rows(s.workers, q, cl)[..w]);
    }
  }

  /** Taking event k of queue q advances its class when nothing of the class is ahead of it. */
  lemma {:induction false} TakeMoves(c: Config, s: State, t: State, w: nat, q: nat, k: nat, x: Cell, cl: Class)
    requires |s.queues| == c.n + 1 && w < |s.workers| && q < c.n && k < |s.queues[q]|
    requires x.at == s.queues[q][k].at == q && x.ev == s.queues[q][k].ev
    requires t.queues == s.queues[q := Without(s.queues[q], k)] && t.sent == s.sent
    requires t.workers == s.workers[w := Worker(s.workers[w].batch + [x], false)]
    requires InClass(cl, x.ev.pkt) ==>
      Pick(s.queues[q][..k], q, cl) == [] && Flatten(Rows(s.workers, q, cl)[w + 1..]) == []
    ensures Line(c, t, cl) == Line(c, s, cl)
  {
    forall p | 0 <= p <= c.n && (p != q || !InClass(cl, x.ev.pkt)) ensures Out(c, s, p, cl) == Out(c, t, p, cl) {
      if p < c.n {
        BatchPush(s.workers, w, x, false, p, cl);
      }
    }
    PickRemove(s.queues[q], k, q, cl);
    BatchPush(s.workers, w, x, false, q, cl);
    if InClass(cl, x.ev.pkt) {
      LeftQueue(c, s, t, cl, q, x.ev.pkt);
    } else {
      NothingMoved(c, s, t, cl);
    }
  }

  lemma {:induction false} TakeKeepsLine(c: Config, s: State, w: nat, q: nat, k: nat, cl: Class)
    requires WellPlaced(c, s) && Enabled(c, s, Take(w, q, k)) && Tracked(c, cl)
    requires DistinctArrivals(s) && Line(c, s, cl) == PickPackets(s.arrived, cl)
    ensures Line(c, Apply(c, s, Take(w, q, k)), cl) == Line(c, s, cl)
  {
    var cell := s.queues[q][k];
    assert QueuedOk(c, cell, q);
    if InClass(cl, cell.ev.pkt) {
      NothingAheadInQueue(c, s, w, q, k, cl);
    }
    TakeMoves(c, s, Apply(c, s, Take(w, q, k)), w, q, k, cell.(trail := cell.trail + [q]), cl);
  }

  lemma {:induction false} RewriteKeepsLine(c: Config, s: State, w: nat, cl: Class)
    requires WellPlaced(c, s) && Enabled(c, s, Rewrite(w))
    ensures Line(c, Apply(c, s, Rewrite(w)), cl) == Line(c, s, cl)
  {
    var t := Apply(c, s, Rewrite(w));
    forall p | 0 <= p <= c.n ensures Out(c, s, p, cl) == Out(c, t, p, cl) {
      PickSameContext(s.workers[w].batch, t.workers[w].batch, p, cl);
      HeldUpdate(s.workers, w, t.workers[w], p, cl);
    }
    NothingMoved(c, s, t, cl);
  }

  /** Enqueueing the first held event x advances its class when no earlier worker holds any of it. */
  lemma {:induction false} AcceptMoves(
      c: Config, s: State, t: State, w: nat, q: nat, x: Cell, y: Cell, ready: bool, cl: Class)
    requires |s.queues| == c.n + 1 && w < |s.workers| && q < c.n
    requires s.workers[w].batch != [] && x == s.workers[w].batch[0] && x.at == q
    requires y.at == q + 1 && y.ev == x.ev
    requires t.queues == s.queues[q + 1 := s.queues[q + 1] + [y]] && t.sent == s.sent
    requires t.workers == s.workers[w := Worker(s.workers[w].batch[1..], ready)]
    requires InClass(cl, x.ev.pkt) ==> Flatten(Rows(s.workers, q, cl)[..w]) == []
    ensures Line(c, t, cl) == Line(c, s, cl)
  {
    forall p | 0 <= p <= c.n && (p != q || !InClass(cl, x.ev.pkt)) ensures Out(c, s, p, cl) == Out(c, t, p, cl) {
      if p < c.n {
        BatchPop(s.workers, w, ready, p, cl);
      }
    }
    PickSnoc(s.queues[q + 1], y, q + 1, cl);
    BatchPop(s.workers, w, ready, q, cl);
    if InClass(cl, x.ev.pkt) {
      LeftHand(c, s, t, cl, q, x.ev.pkt);
    } else {
      NothingMoved(c, s, t, cl);
    }
  }

  lemma {:induction false} AcceptKeepsLine(c: Config, s: State, w: nat, cl: Class)
    requires WellPlaced(c, s) && Enabled(c, s, Accept(w)) && Tracked(c, cl)
    requires DistinctArrivals(s) && Line(c, s, cl) == PickPackets(s.arrived, cl)
    requires c.queueType == Atomic ==> Exclusive(s)
    ensures Line(c, Apply(c, s, Accept(w)), cl) == Line(c, s, cl)
  {
    var cell := s.workers[w].batch[0];
    assert HeldOk(c, cell, true);
    if InClass(cl, cell.ev.pkt) {
      NothingAheadInHand(c, s, w, cl);
    }
    var t := Apply(c, s, Accept(w));
    AcceptMoves(c, s, t, w, cell.at, cell, Enqueued(cell.ev, cell.trail), t.workers[w].ready, cl);
  }

  lemma {:induction false} TransmitKeepsLine(c: Config, s: State, cl: Class)
    requires WellPlaced(c, s) && Enabled(c, s, Transmit)
    ensures Line(c, Apply(c, s, Transmit), cl) == Line(c, s, cl)
  {
    var t := Apply(c, s, Transmit);
    var cell := s.queues[c.n][0];
    assert QueuedOk(c, cell, c.n);
    PickSnoc(s.sent, cell, c.n, cl);
    if InClass(cl, cell.ev.pkt) {
      LeftQueue(c, s, t, cl, c.n, cell.ev.pkt);
    } else {
      NothingMoved(c, s, t, cl);
    }
  }

  lemma {:induction false} ArriveMoves(c: Config, s: State, t: State, x: Cell, cl: Class)
    requires |s.queues| == c.n + 1 && c.n > 0 && x.at == 0
    requires t.queues == s.queues[0 := s.queues[0] + [x]] && t.workers == s.workers && t.sent == s.sent
    ensures Line(c, t, cl) == Line(c, s, cl) + PickOne(x, 0, cl)
  {
    PickSnoc(s.queues[0], x, 0, cl);
    forall i | 0 <= i < 2 * c.n + 1 ensures Segment(c, s, cl, i) == Segment(c, t, cl, i) {
      assert c.n - i / 2 != 0 || i % 2 == 0;
    }
    assert Segment(c, t, cl, 2 * c.n + 1) == In(c, t, 0, cl);
    assert Segment(c, s, cl, 2 * c.n + 1) == In(c, s, 0, cl);
    FlattenLast(Segments(c, s, cl), Segments(c, t, cl), PickOne(x, 0, cl));
  }

  lemma {:induction false} ArriveExtendsLine(c: Config, s: State, pkt: Packet, cl: Class)
    requires WellPlaced(c, s) && Enabled(c, s, Arrive(pkt))
    ensures Line(c, Apply(c, s, Arrive(pkt)), cl) == Line(c, s, cl) + (if InClass(cl, pkt) then [pkt] else [])
  {
    var t := Apply(c, s, Arrive(pkt));
    ArriveMoves(c, s, t, t.queues[0][|s.queues[0]|], cl);
  }

  lemma {:induction false} TakeKeepsExclusion(c: Config, s: State, w: nat, q: nat, k: nat)
    requires WellPlaced(c, s) && Enabled(c, s, Take(w, q, k)) && c.queueType == Atomic && Exclusive(s)
    ensures Exclusive(Apply(c, s, Take(w, q, k)))
  {
    var cell := s.queues[q][k];
    var x := cell.(trail := cell.trail + [q]);
    var t := Apply(c, s, Take(w, q, k));
    assert QueuedOk(c, cell, q);
    forall u, v | 0 <= u < v < |t.workers| ensures Apart(t.workers[u].batch, t.workers[v].batch) {
      assert Apart(s.workers[u].batch, s.workers[v].batch);
      if v == w {
        ApartSnoc(s.workers[u].batch, s.workers[w].batch, x);
      } else if u == w {
        ApartSnoc(s.workers[v].batch, s.workers[w].batch, x);
      }
    }
  }

  lemma {:induction false} StepKeepsExclusion(c: Config, s: State, step: Step)
    requires WellPlaced(c, s) && Enabled(c, s, step) && c.queueType == Atomic && Exclusive(s)
    ensures Exclusive(Apply(c, s, step))
  {
    if step.Take? {
      TakeKeepsExclusion(c, s, step.w, step.q, step.k);
    } else {
      var t := Apply(c, s, step);
      forall u, v | 0 <= u < v < |t.workers| ensures Apart(t.workers[u].batch, t.workers[v].batch) {
        assert Apart(s.workers[u].batch, s.workers[v].batch);
      }
    }
  }

  lemma {:induction false} StepKeepsInv(c: Config, s: State, step: Step)
    requires Inv(c, s) && Enabled(c, s, step)
    ensures Inv(c, Apply(c, s, step))
  {
    StepKeepsPlacement(c, s, step);
    if c.queueType == Atomic {
      StepKeepsExclusion(c, s, step);
    }
    var t := Apply(c, s, step);
    forall cl | Tracked(c, cl) ensures Line(c, t, cl) == PickPackets(t.arrived, cl) {
      match step {
        case Arrive(pkt) =>
          ArriveExtendsLine(c, s, pkt, cl);
          assert t.arrived[..|t.arrived| - 1] == s.arrived;
        case Take(w, q, k) => TakeKeepsLine(c, s, w, q, k, cl);
        case Rewrite(w) => RewriteKeepsLine(c, s, w, cl);
        case Accept(w) => AcceptKeepsLine(c, s, w, cl);
        case Transmit => TransmitKeepsLine(c, s, cl);
      }
    }
  }
}

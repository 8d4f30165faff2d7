/**
 The worker loops of pipeline_worker_tx.c. The single-event loops (worker_do_tx, worker_do_tx_atq,
 worker_do_tx_single and its atq form) differ only in Decide; so do the burst loops.
 */
module TxWorkers {
  import opened Arithmetic
  import opened EventDev
  import opened EventPorts
  import opened Sequences
  import opened TxRouting

  /** Every event of the batch sits on a queue for which the routing table has an entry. */
  ghost predicate Routable(l: Layout, events: seq<Event>) {
    && l.n > 0 && l.m > 0
    && forall i :: 0 <= i < |events| ==> l.n > 1 && !l.atq ==> events[i].queueId < |l.next|
  }

  ghost predicate RoutableOne(l: Layout, e: Event) {
    l.n > 0 && l.m > 0 && (l.n > 1 && !l.atq ==> e.queueId < |l.next|)
  }

  ghost function ForwardOf(l: Layout, e: Event): seq<Event>
    requires RoutableOne(l, e)
  {
    match Decide(l, e) case Transmit => [] case Fwd(y) => [y]
  }

  ghost function TransmitOf(l: Layout, e: Event): seq<Event>
    requires RoutableOne(l, e)
  {
    if Decide(l, e).Transmit? then [e] else []
  }

  /** The events a sequence of dequeued events makes the workers forward, and those they transmit. */
  ghost function Forwards(l: Layout, events: seq<Event>): seq<Event>
    requires Routable(l, events)
  {
    if events == [] then []
    else Forwards(l, events[..|events| - 1]) + ForwardOf(l, events[|events| - 1])
  }

  ghost function Transmits(l: Layout, events: seq<Event>): seq<Event>
    requires Routable(l, events)
  {
    if events == [] then []
    else Transmits(l, events[..|events| - 1]) + TransmitOf(l, events[|events| - 1])
  }

  lemma {:induction false} NextEvent(l: Layout, events: seq<Event>, k: nat)
    requires Routable(l, events) && k < |events|
    ensures Routable(l, events[..k]) && Routable(l, events[..k + 1]) && RoutableOne(l, events[k])
    ensures Forwards(l, events[..k + 1]) == Forwards(l, events[..k]) + ForwardOf(l, events[k])
    ensures Transmits(l, events[..k + 1]) == Transmits(l, events[..k]) + TransmitOf(l, events[k])
  {
    assert events[..k + 1][..k] == events[..k];
  }

  /** What a burst loop leaves in the place of an event: transmitted ones are marked for release. */
  ghost function Marked(l: Layout, e: Event): Event
    requires RoutableOne(l, e)
  {
    match Decide(l, e) case Transmit => e.(op := Release) case Fwd(y) => y
  }

  ghost function MarkedAll(l: Layout, events: seq<Event>): seq<Event>
    requires Routable(l, events)
  {
    seq(|events|, i requires 0 <= i < |events| => Marked(l, events[i]))
  }

  /** The events the device queues: releases only give up the scheduling context. */
  ghost function Queued(events: seq<Event>): seq<Event> {
    if events == [] then [] else
      var e := events[|events| - 1];
      Queued(events[..|events| - 1]) + (if e.op == Release then [] else [e])
  }

  class TxWorker {
    const port: EventPort
    var txAdapter: seq<Event>
    var received: nat
    var fwd: nat
    var tx: nat

    constructor (port: EventPort)
      ensures this.port == port && received == fwd == tx == 0 && txAdapter == []
    {
      this.port := port;
      txAdapter := [];
      received, fwd, tx := 0, 0, 0;
    }

    /** The single-event loops on the events dequeued one after the other. The loop is left in the
        middle only when the device stops accepting, inside worker_event_enqueue. */
    method SingleLoop(l: Layout, events: seq<Event>) returns (k: nat, spinning: bool)
      requires Routable(l, events)
      modifies this, port
      ensures k <= |events| && (!spinning ==> k == |events|)
      ensures spinning ==> k < |events| && port.grants == []
      ensures port.accepted == old(port.accepted) + Forwards(l, events[..k])
      ensures txAdapter == old(txAdapter) + Transmits(l, events[..k])
      ensures received == old(received) + k + (if spinning then 1 else 0)
      ensures fwd == old(fwd) + |Forwards(l, events[..k])| && tx == old(tx) + |Transmits(l, events[..k])|
      ensures fwd + tx == old(fwd + tx) + k
    {
      k, spinning := 0, false;
      while k < |events| && !spinning
        invariant k <= |events| && (spinning ==> k < |events| && port.grants == [])
        invariant port.accepted == old(port.accepted) + Forwards(l, events[..k])
        invariant txAdapter == old(txAdapter) + Transmits(l, events[..k])
        invariant received == old(received) + k + (if spinning then 1 else 0)
        invariant fwd == old(fwd) + |Forwards(l, events[..k])|
        invariant tx == old(tx) + |Transmits(l, events[..k])|
        decreases |events| - k, !spinning
      {
        NextEvent(l, events, k);
        ghost var queued, sent := Forwards(l, events[..k]), Transmits(l, events[..k]);
        Assoc(old(port.accepted), queued, ForwardOf(l, events[k]));
        Assoc(old(txAdapter), sent, TransmitOf(l, events[k]));
        spinning := SingleIteration(l, events[k]);
        k := if spinning then k else k + 1;
      }
      ForwardedOrTransmitted(l, events[..k]);
    }

    method SingleIteration(l: Layout, e: Event) returns (spinning: bool)
      requires RoutableOne(l, e)
      modifies this, port
      ensures spinning ==> port.grants == [] && port.accepted == old(port.accepted) && txAdapter == old(txAdapter)
      ensures spinning ==> fwd == old(fwd) && tx == old(tx)
      ensures !spinning ==> port.accepted == old(port.accepted) + ForwardOf(l, e)
      ensures !spinning ==> txAdapter == old(txAdapter) + TransmitOf(l, e)
      ensures !spinning ==> fwd == old(fwd) + |ForwardOf(l, e)| && tx == old(tx) + |TransmitOf(l, e)|
      ensures received == old(received) + 1
    {
      spinning := false;
      received := received + 1;
      match Decide(l, e) {
        case Transmit =>
          txAdapter := txAdapter + [e];
          tx := tx + 1;
        case Fwd(y) =>
          var done := EnqueueOne(y);
          if done {
            fwd := fwd + 1;
          }
          spinning := !done;
      }
    }

    /** worker_event_enqueue */
    method EnqueueOne(e: Event) returns (done: bool)
      modifies port
      ensures port.accepted == old(port.accepted) + (if done then [e] else [])
      ensures !done ==> port.grants == []
    {
      var ev := new Event[] [e];
      done := false;
      while !done && port.grants != []
        invariant ev[0] == e
        invariant port.accepted == old(port.accepted) + (if done then [e] else [])
        modifies port
        decreases |port.grants|
      {
        var n := port.EnqueueBurst(ev, 0, 1);
        done := n == 1;
      }
    }

    /** The event at index i is transmitted and marked for release, or rewritten in place. */
    method RouteOne(l: Layout, ev: array<Event>, i: nat)
      requires i < ev.Length && RoutableOne(l, ev[i])
      modifies this`tx, this`txAdapter, ev
      ensures ev[i] == Marked(l, old(ev[i]))
      ensures forall j :: 0 <= j < ev.Length && j != i ==> ev[j] == old(ev[j])
      ensures txAdapter == old(txAdapter) + TransmitOf(l, old(ev[i]))
      ensures tx == old(tx) + |TransmitOf(l, old(ev[i]))|
    {
      match Decide(l, ev[i]) {
        case Transmit =>
          txAdapter := txAdapter + [ev[i]];
          ev[i] := ev[i].(op := Release);
          tx := tx + 1;
        case Fwd(y) =>
          ev[i] := y;
      }
    }

    /** The for loop of the burst workers: transmit or rewrite every event of the batch in place. */
    method RouteInPlace(l: Layout, ev: array<Event>, nbRx: nat)
      requires nbRx <= ev.Length && Routable(l, ev[..nbRx])
      modifies this`tx, this`txAdapter, ev
      ensures ev[..nbRx] == MarkedAll(l, old(ev[..nbRx]))
      ensures forall j :: nbRx <= j < ev.Length ==> ev[j] == old(ev[j])
      ensures txAdapter == old(txAdapter) + Transmits(l, old(ev[..nbRx]))
      ensures tx == old(tx) + |Transmits(l, old(ev[..nbRx]))|
    {
      ghost var before := ev[..nbRx];
      for i := 0 to nbRx
        invariant forall j :: 0 <= j < i ==> ev[j] == Marked(l, before[j])
        invariant forall j :: i <= j < nbRx ==> ev[j] == before[j]
        invariant forall j :: nbRx <= j < ev.Length ==> ev[j] == old(ev[j])
        invariant txAdapter == old(txAdapter) + Transmits(l, before[..i])
        invariant tx == old(tx) + |Transmits(l, before[..i])|
      {
        NextEvent(l, before, i);
        Assoc(old(txAdapter), Transmits(l, before[..i]), TransmitOf(l, before[i]));
        RouteOne(l, ev, i);
      }
      assert before[..nbRx] == before;
    }

    /** One iteration of the burst loops. fwd counts the whole burst, transmitted events included. */
    method BurstIteration(l: Layout, ev: array<Event>, nbRx: nat) returns (spinning: bool)
      requires nbRx <= ev.Length && Routable(l, ev[..nbRx]) && (nbRx > 0 ==> port.grants != [])
      modifies this, port, ev
      ensures spinning <==> AcceptedOf(old(port.grants), nbRx) < nbRx
      ensures port.accepted == old(port.accepted)
              + MarkedAll(l, old(ev[..nbRx]))[..AcceptedOf(old(port.grants), nbRx)]
      ensures txAdapter == old(txAdapter) + Transmits(l, old(ev[..nbRx]))
      ensures received == old(received) + nbRx
      ensures tx == old(tx) + |Transmits(l, old(ev[..nbRx]))|
      ensures fwd == old(fwd) + (if spinning then 0 else nbRx)
    {
      if nbRx == 0 {
        return false;
      }
      received := received + nbRx;
      RouteInPlace(l, ev, nbRx);
      var n := port.EnqueueAll(ev, nbRx);
      assert ev[..n] == ev[..nbRx][..n];
      spinning := n < nbRx;
      if !spinning {
        fwd := fwd + nbRx;
      }
    }
  }

  /** The burst loop against the single-event loop: the device queues the same events in the same
      order, and the same events go to the TX adapter (BurstIteration and SingleLoop both append
      Transmits). */
  lemma {:induction false} BurstQueuesTheSame(l: Layout, events: seq<Event>)
    requires Routable(l, events)
    ensures Queued(MarkedAll(l, events)) == Forwards(l, events)
  {
    if events != [] {
      var m := |events| - 1;
      BurstQueuesTheSame(l, events[..m]);
      assert MarkedAll(l, events)[..m] == MarkedAll(l, events[..m]);
    }
  }

  /** Every event is either forwarded or transmitted; so a burst worker, which adds the burst size to
      fwd, reports the transmitted events twice: fwd + tx exceeds received by tx. */
  lemma {:induction false} ForwardedOrTransmitted(l: Layout, events: seq<Event>)
    requires Routable(l, events)
    ensures |Forwards(l, events)| + |Transmits(l, events)| == |events|
  {
    if events != [] {
      ForwardedOrTransmitted(l, events[..|events| - 1]);
    }
  }

  /** sent are events of seen, in its order, each one that routing transmits. */
  ghost predicate SentInOrder(l: Layout, sent: seq<Event>, seen: seq<Event>) {
    && IsSubsequence(sent, seen)
    && forall i :: 0 <= i < |sent| ==> RoutableOne(l, sent[i]) && Decide(l, sent[i]) == Transmit
  }

  lemma {:induction false} TransmitsInOrder(l: Layout, events: seq<Event>)
    requires Routable(l, events)
    ensures SentInOrder(l, Transmits(l, events), events)
  {
    if events != [] {
      var front, last := events[..|events| - 1], events[|events| - 1];
      TransmitsInOrder(l, front);
      OneInOrder(l, Transmits(l, front), front, last);
      assert events == front + [last];
    }
  }

  lemma {:induction false} OneInOrder(l: Layout, sent: seq<Event>, seen: seq<Event>, e: Event)
    requires SentInOrder(l, sent, seen) && RoutableOne(l, e)
    ensures SentInOrder(l, sent + TransmitOf(l, e), seen + [e])
  {
    SubsequenceSnoc(sent, seen, e);
    assert sent + [] == sent;
  }

  /** cdata.qid has this many entries, cdata.next_qid two more. */
  const MAX_NUM_STAGES: nat := 8

  /** The number of queues as the code computes it, in eight bits. */
  function QueuesAsCoded(ports: nat, n: nat, atq: bool): nat {
    NumQueues(ports, n, atq) % 256
  }

  /** The queues of setup_eventdev_worker_tx_enq: tables, schedule types and the RX stride. The loop does not look
      at the size of the tables: overrun says that it writes behind the end of qid, where the model stops. */
  method SetupQueues(ports: nat, n: nat, atq: bool, queueType: SchedType, qid: array<nat>, nextQid: array<nat>)
    returns (types: seq<SchedType>, rxStride: nat, overrun: bool)
    requires qid.Length == MAX_NUM_STAGES && nextQid.Length == MAX_NUM_STAGES + 2 && qid != nextQid
    modifies qid, nextQid
    ensures overrun <==> QueuesAsCoded(ports, n, atq) > MAX_NUM_STAGES
    ensures NumQueues(ports, n, atq) <= MAX_NUM_STAGES ==>
              !overrun && forall m: nat | m > 0 && n > 0 :: LayoutOk(Layout(m, n, ports, atq, queueType, nextQid[..]))
    ensures |types| == Min(QueuesAsCoded(ports, n, atq), MAX_NUM_STAGES + 1)
    ensures forall q :: 0 <= q < |types| ==> types[q] == (if atq then queueType else QueueSched(n, queueType, q))
    ensures forall q :: 0 <= q < Min(|types|, MAX_NUM_STAGES) ==> qid[q] == q && nextQid[q] == q + 1
    ensures !overrun ==> rxStride == (if atq then 1 else if types == [] then 0 else n + 1)
  {
    var nbSlots := 0;
    types, rxStride, overrun := [], 0, false;
    var nbQueues := QueuesAsCoded(ports, n, atq);
    QueuesFit(ports, n, atq);
    for i := 0 to nbQueues
      invariant |types| == i <= MAX_NUM_STAGES && !overrun
      invariant forall q :: 0 <= q < i ==>
        types[q] == (if atq then queueType else QueueSched(n, queueType, q)) && qid[q] == q && nextQid[q] == q + 1
      invariant !atq ==> nbSlots == (if i == 0 then 0 else n + 1)
    {
      if atq {
        nbSlots := n;
        types := types + [queueType];
      } else {
        nbSlots := n + 1;
        types := types + [if i % nbSlots == n then Atomic else queueType];
      }
      if i >= qid.Length {
        overrun := true;
        return;
      }
      qid[i] := i;
      nextQid[i] := i + 1;
    }
    rxStride := if atq then 1 else nbSlots;
  }

  lemma {:induction false} QueuesFit(ports: nat, n: nat, atq: bool)
    ensures NumQueues(ports, n, atq) <= MAX_NUM_STAGES ==> QueuesAsCoded(ports, n, atq) == NumQueues(ports, n, atq)
  {
    if NumQueues(ports, n, atq) <= MAX_NUM_STAGES {
      ModUnique(NumQueues(ports, n, atq), 256, 0, NumQueues(ports, n, atq));
    }
  }

  /** With the queues the tables have room for, the code gives the intended journey to port 0 only. */
  lemma {:induction false} IntendedForPortZero(l: Layout, p: nat, e: Event)
    requires LayoutOk(l) && !l.atq && l.n >= 2 && l.m == l.n && InjectedAt(l, e, p)
    requires NumQueues(l.ports, l.n, l.atq) <= MAX_NUM_STAGES
    ensures VisitsOwnStages(l, p, e) <==> l.queueType == Atomic && p == 0
  {
    CodedMeetsIntent(l, p, e);
    FewPorts(l.ports, l.n, p);
    ModUnique(p, l.n, 0, p);
  }

  lemma {:induction false} FewPorts(ports: nat, n: nat, p: nat)
    requires NumQueues(ports, n, false) <= MAX_NUM_STAGES && n >= 2 && p < ports
    ensures p < n
  {
    Times(n + 1, 3, n);
    if n <= p {
      Times(ports, n + 1, n);
    }
  }

  lemma {:induction false} Times(a: nat, b: nat, n: nat)
    requires a >= b
    ensures a * n >= b * n
  {
  }

  /** The comment's own example with a third port does not fit: three ports of two stages make nine queues. */
  lemma {:induction false} ThreePortsOverrun()
    ensures QueuesAsCoded(3, 2, false) > MAX_NUM_STAGES
  {
  }
}

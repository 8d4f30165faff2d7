/**
 The loops of pipeline_worker_generic.c: one iteration of worker_generic and of worker_generic_burst,
 and the queue chain that setup_eventdev_generic writes.
 */
module GenericWorker {
  import opened EventDev
  import opened EventPorts
  import opened GenericPipeline
  import opened GenericBurst
  import opened GenericFlows

  ghost predicate Rewritable(c: Config, events: seq<Event>) {
    c.numFids > 0 && |c.qid| > 0 && forall i :: 0 <= i < |events| ==> events[i].queueId < |c.nextQid|
  }

  ghost function RewriteEvents(c: Config, events: seq<Event>): (r: seq<Event>)
    requires Rewritable(c, events)
    ensures |r| == |events|
  {
    seq(|events|, i requires 0 <= i < |events| => RewriteEvent(c, events[i]))
  }

  function EventsOf(xs: seq<Cell>): (r: seq<Event>)
    ensures |r| == |xs|
  {
    seq(|xs|, i requires 0 <= i < |xs| => xs[i].ev)
  }

  /** The loops and the step system agree: what a burst iteration of the step system puts back for the
      events it took is what BurstIteration offers to the device for them. */
  lemma {:induction false} LoopsMatchSteps(c: Config, taken: seq<Cell>)
    requires Chained(c) && forall i :: 0 <= i < |taken| ==> taken[i].ev.queueId < c.n
    ensures Rewritable(c, EventsOf(taken))
    ensures EventsOf(ReissuedAll(c, taken)) == RewriteEvents(c, EventsOf(taken))
  {
    forall i | 0 <= i < |taken|
      ensures EventsOf(ReissuedAll(c, taken))[i] == RewriteEvent(c, EventsOf(taken)[i])
    {
      assert ReissuedAll(c, taken)[i] == Reissued(c, taken[i]);
    }
  }

  method RewriteInPlace(c: Config, events: array<Event>, nbRx: nat)
    requires nbRx <= events.Length && Rewritable(c, events[..nbRx])
    modifies events
    ensures events[..nbRx] == RewriteEvents(c, old(events[..nbRx]))
    ensures forall j :: 0 <= j < nbRx ==> Rewritten(c, old(events[j]), events[j])
    ensures forall j :: nbRx <= j < events.Length ==> events[j] == old(events[j])
  {
    ghost var before := events[..nbRx];
    for i := 0 to nbRx
      invariant forall j :: 0 <= j < i ==> events[j] == RewriteEvent(c, before[j]) && Rewritten(c, before[j], events[j])
      invariant forall j :: i <= j < nbRx ==> events[j] == before[j]
      invariant forall j :: nbRx <= j < events.Length ==> events[j] == old(events[j])
    {
      RewriteIsRight(c, before[i]);
      events[i] := RewriteEvent(c, events[i]);
    }
  }

  class Worker {
    const port: EventPort
    var received: nat
    var sent: nat

    constructor (port: EventPort)
      ensures this.port == port && received == 0 && sent == 0
    {
      this.port := port;
      received, sent := 0, 0;
    }

    /** An iteration of worker_generic_burst that dequeued nbRx events. The device not being observed
        any further stands for the done flag stopping the inner loop. */
    method BurstIteration(c: Config, events: array<Event>, nbRx: nat)
      requires nbRx <= events.Length && Rewritable(c, events[..nbRx]) && (nbRx > 0 ==> port.grants != [])
      modifies this, port, events
      ensures events[..nbRx] == RewriteEvents(c, old(events[..nbRx]))
      ensures forall j :: 0 <= j < nbRx ==> Rewritten(c, old(events[j]), events[j])
      ensures forall j :: nbRx <= j < events.Length ==> events[j] == old(events[j])
      ensures port.accepted == old(port.accepted)
              + RewriteEvents(c, old(events[..nbRx]))[..AcceptedOf(old(port.grants), nbRx)]
      ensures received == old(received) + nbRx
      ensures sent == old(sent) + AcceptedOf(old(port.grants), nbRx)
    {
      if nbRx == 0 {
        return;
      }
      received := received + nbRx;
      RewriteInPlace(c, events, nbRx);
      var nbTx := port.EnqueueAll(events, nbRx);
      sent := sent + nbTx;
      assert events[..nbTx] == events[..nbRx][..nbTx];
    }

    /** An iteration of worker_generic that dequeued one event, kept in ev[0]: it spins until the
        device takes it. */
    method SingleIteration(c: Config, ev: array<Event>) returns (done: bool)
      requires ev.Length == 1 && Rewritable(c, ev[..])
      modifies this, port, ev
      ensures done <==> AcceptedOf(old(port.grants), 1) == 1
      ensures ev[0] == RewriteEvent(c, old(ev[0])) && Rewritten(c, old(ev[0]), ev[0])
      ensures received == old(received) + 1
      ensures done ==> port.accepted == old(port.accepted) + [ev[0]] && sent == old(sent) + 1
      ensures !done ==> port.accepted == old(port.accepted) && sent == old(sent)
    {
      received := received + 1;
      RewriteIsRight(c, ev[0]);
      ev[0] := RewriteEvent(c, ev[0]);
      done := false;
      while !done && port.grants != []
        invariant AcceptedOf(old(port.grants), 1) == (if done then 1 else AcceptedOf(port.grants, 1))
        invariant port.accepted == old(port.accepted) + (if done then [ev[0]] else [])
        modifies port
        decreases |port.grants|
      {
        var n := port.EnqueueBurst(ev, 0, 1);
        done := n == 1;
      }
      if done {
        sent := sent + 1;
      }
    }
  }

  /** The queue chain: stage i is queue i and feeds queue i+1; queue n is the TX queue. Every worker
      port is linked to the stage queues and to nothing else. */
  method SetupChain(n: nat, numWorkers: nat, qid: array<nat>, nextQid: array<nat>)
    returns (txQueueId: nat, links: seq<seq<nat>>)
    requires n <= qid.Length && n <= nextQid.Length && qid != nextQid
    modifies qid, nextQid
    ensures forall numFids: nat, queueType, rxFlow | n > 0 && numFids > 0 ::
              Chained(Config(n, numFids, queueType, rxFlow, qid[..], nextQid[..]))
    ensures txQueueId == n
    ensures |links| == numWorkers && forall w :: 0 <= w < numWorkers ==> links[w] == UpTo(n)
  {
    for i := 0 to n
      invariant forall j :: 0 <= j < i ==> qid[j] == j && nextQid[j] == j + 1
    {
      qid[i] := i;
      nextQid[i] := i + 1;
    }
    txQueueId := n;
    links := [];
    for w := 0 to numWorkers
      invariant |links| == w && forall v :: 0 <= v < w ==> links[v] == UpTo(n)
    {
      var mine: seq<nat> := [];
      for s := 0 to n
        invariant mine == UpTo(s)
      {
        mine := mine + [s];
      }
      links := links + [mine];
    }
  }
}

/**
 What the rewrite of the generic pipeline's workers makes of an event, in terms of the packet's RSS hash and the
 number of flows num_fids, and what that means for the flows in a running pipeline.
 */
module GenericFlows {
  import opened Arithmetic
  import opened EventDev
  import opened GenericPipeline
  import opened GenericOrder
  import opened GenericRuns

  /** The flow chosen for a hash: what remains of it after the flows, cut to the width of the field. */
  ghost predicate ChosenFlow(rss: nat, numFids: nat, flow: nat) {
    exists r: nat :: Remains(rss, numFids, r) && Remains(r, FLOW_IDS, flow)
  }

  /** y is what a worker is to make of e: the packet as it was, forwarded to the next queue with the queues'
      schedule type; the flow chosen from the hash on the first queue and kept after. */
  ghost predicate Rewritten(c: Config, e: Event, y: Event)
    requires |c.qid| > 0 && e.queueId < |c.nextQid|
  {
    && y.pkt == e.pkt && y.queueId == c.nextQid[e.queueId] && y.op == Forward && y.sched == c.queueType
    && y.eventType == e.eventType && y.subType == e.subType
    && (if e.queueId == c.qid[0] then ChosenFlow(e.pkt.rss, c.numFids, y.flowId) else y.flowId == e.flowId)
  }

  lemma {:induction false} ClassifyChooses(c: Config, rss: nat)
    requires c.numFids > 0
    ensures ChosenFlow(rss, c.numFids, Classify(c, rss))
  {
    ModRemains(rss, c.numFids);
    ModRemains(rss % c.numFids, FLOW_IDS);
  }

  lemma {:induction false} RewriteIsRight(c: Config, e: Event)
    requires c.numFids > 0 && |c.qid| > 0 && e.queueId < |c.nextQid|
    ensures Rewritten(c, e, RewriteEvent(c, e))
  {
    ClassifyChooses(c, e.pkt.rss);
  }

  /** With no more flows than the field can tell apart, the flow is below num_fids and differs from the hash by
      a multiple of it. */
  lemma {:induction false} FlowOfHash(c: Config, e: Event, y: Event)
    requires 0 < c.numFids <= FLOW_IDS && |c.qid| > 0 && e.queueId < |c.nextQid| && e.queueId == c.qid[0]
    requires Rewritten(c, e, y)
    ensures y.flowId < c.numFids && exists k: nat :: e.pkt.rss == k * c.numFids + y.flowId
  {
    FlowBelow(e.pkt.rss, c.numFids, y.flowId);
  }

  lemma {:induction false} FlowBelow(rss: nat, numFids: nat, flow: nat)
    requires numFids <= FLOW_IDS && ChosenFlow(rss, numFids, flow)
    ensures Remains(rss, numFids, flow)
  {
    var r: nat :| Remains(rss, numFids, r) && Remains(r, FLOW_IDS, flow);
    var k: nat :| r == k * FLOW_IDS + flow;
    if k > 0 {
      MultipleGrows(FLOW_IDS, k);
      Commute(k, FLOW_IDS);
    }
  }

  /* ---------------------------------------------------------------- in every run */

  /** The flow under which the device schedules an event past the first stage. */
  lemma {:induction false} FlowsPastFirst(c: Config, numWorkers: nat, s: State, q: nat, k: nat)
    requires Reachable(c, numWorkers, s) && c.numFids <= FLOW_IDS && 1 <= q <= c.n
    requires q < |s.queues| && k < |s.queues[q]|
    ensures s.queues[q][k].flow == s.queues[q][k].ev.flowId
    ensures Remains(s.queues[q][k].ev.pkt.rss, c.numFids, s.queues[q][k].flow)
  {
    ReachableInv(c, numWorkers, s);
    var cell := s.queues[q][k];
    assert QueuedOk(c, cell, q);
    ClassifyChooses(c, cell.ev.pkt.rss);
    FlowBelow(cell.ev.pkt.rss, c.numFids, cell.flow);
  }

  /** Two hashes differ by a multiple of m. */
  ghost predicate Congruent(x: int, y: int, m: nat) {
    exists k: int :: x - y == k * m
  }

  lemma {:induction false} SameRemainder(x: nat, y: nat, m: nat, a: nat, b: nat)
    requires Remains(x, m, a) && Remains(y, m, b)
    ensures a == b <==> Congruent(x, y, m)
  {
    var j: nat :| x == j * m + a;
    var k: nat :| y == k * m + b;
    Difference(j, k, m);
    if a == b {
      assert x - y == (j - k) * m;
    } else {
      forall i: int ensures x - y != i * m {
        Difference(i, j - k, m);
        NoMultiple(a - b, m, i - (j - k));
      }
    }
  }

  lemma {:induction false} NoMultiple(d: int, m: nat, i: int)
    requires 0 < d + m && d < m && d != 0
    ensures d != i * m
  {
    Commute(i, m);
    MultipleGrows(m, i);
  }

  lemma {:induction false} Difference(j: int, k: int, m: nat)
    ensures (j - k) * m == j * m - k * m
  {
  }

  /** Past the first stage two events share a flow exactly if their hashes are congruent modulo num_fids. */
  lemma {:induction false} SharedFlow(c: Config, numWorkers: nat, s: State, q: nat, k: nat, r: nat, j: nat)
    requires Reachable(c, numWorkers, s) && c.numFids <= FLOW_IDS && 1 <= q <= c.n && 1 <= r <= c.n
    requires q < |s.queues| && k < |s.queues[q]| && r < |s.queues| && j < |s.queues[r]|
    ensures s.queues[q][k].flow < c.numFids
    ensures s.queues[q][k].flow == s.queues[r][j].flow <==>
            Congruent(s.queues[q][k].ev.pkt.rss, s.queues[r][j].ev.pkt.rss, c.numFids)
  {
    FlowsPastFirst(c, numWorkers, s, q, k);
    FlowsPastFirst(c, numWorkers, s, r, j);
    SameRemainder(s.queues[q][k].ev.pkt.rss, s.queues[r][j].ev.pkt.rss, c.numFids,
                  s.queues[q][k].flow, s.queues[r][j].flow);
  }

  /** An event on a stage queue past the first, on the TX queue or transmitted was enqueued as a forwarded one,
      an event on the first as a new one; both with the queues' schedule type. */
  lemma {:induction false} OperationOfStage(c: Config, numWorkers: nat, s: State)
    requires Reachable(c, numWorkers, s)
    ensures forall q, k :: 0 <= q < |s.queues| && 0 <= k < |s.queues[q]| ==>
      s.queues[q][k].ev.op == (if q == 0 then New else Forward) && s.queues[q][k].ev.sched == c.queueType
    ensures forall k :: 0 <= k < |s.sent| ==> s.sent[k].ev.op == Forward && s.sent[k].ev.sched == c.queueType
  {
    ReachableInv(c, numWorkers, s);
    forall q, k | 0 <= q < |s.queues| && 0 <= k < |s.queues[q]|
      ensures s.queues[q][k].ev.op == (if q == 0 then New else Forward) && s.queues[q][k].ev.sched == c.queueType
    {
      assert QueuedOk(c, s.queues[q][k], q);
    }
    forall k | 0 <= k < |s.sent| ensures s.sent[k].ev.op == Forward && s.sent[k].ev.sched == c.queueType {
      assert QueuedOk(c, s.sent[k], c.n);
    }
  }
}

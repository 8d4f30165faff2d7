# A verified model of the DPDK samples' data plane

The repository is a collection of DPDK sample programs. This project models the parts of them that carry
real invariants and proves what those parts are for. DPDK's own objects appear as small specifications: a
ring is a bounded FIFO, a burst call accepts some prefix of what it is offered, an event device is a row of
queues with an atomic-scheduling rule, a hash is an arbitrary function.

| files | program | main results |
|---|---|---|
| EventDev, GenericPipeline, GenericOrder, GenericRuns, GenericParallel, GenericBurst, GenericRefinement, GenericFlows, EventPorts, GenericWorker | generic event pipeline | over every run of any number of workers: per-hash order, flows shared exactly by congruent hashes, one place for every packet, exactly n stages each, bounded work, and a run that cannot go on has drained; order is kept exactly with atomic queues, ordered ones aside; every run of burst workers has a run of single-event workers to the same state |
| TxRouting, TxWorkers, TxPipeline, TxProgress | transmit-from-worker pipeline | the intended journey with the layout's modulus, the exact behaviour with the modulus as coded, and when the two agree; all-type queues; the burst loops queue what the single loops queue; over every run with atomic queues, all-type or not: order per flow on the wire, one place for every packet, and an exact account of the steps |
| SharedCounter, Distributor, DistributorRuns, DistributorAccounts, DistributorCounters, DistributorLoops | both software distributors, the atomic one in particular | over every interleaving: one owner per packet, flow affinity and order, every counter against what it counts, and that the shared counters are right exactly with one reader |
| UnorderedDistributor, UnorderedCounters, UnorderedLoops | unordered software distributor | over every interleaving: the first FIFO with room at its own probe gets the packet, drops only after every FIFO was full, why a packet was freed, which FIFO is charged, and when the shared counters are right |
| L2fwdSetup, L2fwdForward, L2fwdBuffers, L2fwdLoops | l2fwd | pairing is an involution of neighbours, the assignment is sound, complete and greedy, one writer per TX buffer, conservation, buffers emptied in full bursts or by the drain |
| CoreMask | core-mask arguments | the parser returns the denoted number; round trip in either case; core counts are popcounts |
| Launches, NumaLaunch, WorkshareWorker | primary/secondary workshare | when masks and counters agree, each fast port launched once on its own core, worker counters |
| PktGen | packet generator | pairing by rank, when the master gets a generator, buffer accounting of the send loop |
| MemzoneMonitor | memory-zone monitor | table size, exact reports |
| TxFilter | i40e VF transmit filter | in-place stable filter |
| Sequences, Bits, Arithmetic | | sequences, bit masks with rank and population count, remainders |

Every step system is one datatype of steps with `Enabled` and `Apply`, so a theorem about `Reachable` states
holds for every interleaving of the actors and every choice the device makes. The loops of the programs are
methods over classes and arrays. Each is tied to the step system (an iteration is a run of steps, or leaves
the view a specification function gives) or to a function about which the properties are proved.

## Where the code and its comments disagree

The transmit-from-worker pipeline lays out `num_stages + 1` queues per port (pipeline_worker_tx.c:498-501,
559-574) but its workers find the stage of an event with modulus `num_stages` (line 232). The modulus is the
field `m` of `Layout`: `IntendedJourney` is the comment's promise, for `m = n + 1`; `CodedAtomicWalk`,
`CodedNeverTransmits` and `CodedMeetsIntent` say what the code does, for `m = n`.

The queues it may have are bounded by the fixed tables `qid[8]` and `next_qid[10]` (pipeline_common.h:68-69), at
whose size the set-up loop does not look: with more than eight queues it writes behind them
(`TxWorkers.SetupQueues`, `TxWorkers.ThreePortsOverrun`). Within the tables the intended journey is what port 0
gets and no other port (`TxWorkers.IntendedForPortZero`).

Other exact conditions under which the code does what its surroundings expect: ordered queues aside, the generic
pipeline keeps the order of every RSS value exactly if its queues are atomic
(`GenericParallel.OrderedIffAtomic`); a NUMA port map counts its ports only up to index 7
(`NumaLaunch.PortPopulation`) and a core map counts its lcores only without lcore 31 on the node
(`NumaLaunch.CorePopulation`), though the core-count guard keeps the launch right even then
(`NumaLaunch.EveryPortOnItsOwnCore`); with a fast port beyond index 7 the launch loop shifts by the width of an
int, which is undefined (`NumaLaunch.NumaInfo.StartNode`, `NumaLaunch.NinthPortIsLost`); the generator's core
mask loses the master only on the master's own socket (`PktGen.MasterLeaves`), and on another one the master
gets a generator exactly if its rank is below the number of pairs (`PktGen.MasterServed`); the statistics of the
distributors that several readers increment without a lock equal what they count exactly while no increment has
come between the load and the store of another one (`DistributorCounters.CountersBalance`), which is so in every
run of the atomic distributor exactly if a socket has one reader at most
(`DistributorCounters.CountersRightIffOneReader`, with the losing run in `TwoReadersLose`), and in every run of
the unordered one exactly if there is one reader at most or the rings hold nothing
(`UnorderedCounters.CountersRightIff`, with the losing run in `ProbingLoses`); the workshare worker sends a
batch through the port of its first packet (`WorkshareWorker.OwnPortIffUniform`); a burst worker of the transmit
pipeline counts transmitted events as forwarded too (`TxWorkers.TxWorker.BurstIteration`).

## Model

| member | source | states |
|---|---|---|
| GenericPipeline.StepKeepsPlacement | ebpf-debug/eventenqdeq-trace/pipeline_worker_generic.c:101-111 | every step keeps each event on the queue its id names, under the flow its hash gives, new at stage 0 and forwarded after, with exactly the stages before it in its history |
| GenericOrder.TakeKeepsLine | ebpf-debug/eventenqdeq-trace/pipeline_worker_generic.c:90-91 | a dequeue by any worker, at any position the scheduler allows, leaves the conveyor of every tracked class unchanged |
| GenericOrder.RewriteKeepsLine | ebpf-debug/eventenqdeq-trace/pipeline_worker_generic.c:101-113 | rewriting a batch does not move anything on the conveyor |
| GenericOrder.AcceptKeepsLine | ebpf-debug/eventenqdeq-trace/pipeline_worker_generic.c:114-119 | each event the device accepts moves one stage on without overtaking |
| GenericOrder.StepKeepsExclusion | ebpf-debug/eventenqdeq-trace/pipeline_worker_generic.c:90-120 | with atomic queues no two workers hold events of one flow from one queue |
| GenericOrder.StepKeepsInv | ebpf-debug/eventenqdeq-trace/pipeline_worker_generic.c:79-121 | placement, exclusion, distinct arrivals and the conveyor equation are kept by every step |
| GenericRuns.FlowOrder | ebpf-debug/eventenqdeq-trace/pipeline_worker_generic.c:79-121 | atomic queues: in every reachable state transmitted, TX queue, held and queued events from the last stage back to stage 0 spell the arrivals of each RSS value, so what was sent of it is a prefix of its arrivals |
| GenericRuns.EveryPacketInOnePlace | ebpf-debug/eventenqdeq-trace/pipeline_worker_generic.c:79-121 | any queue type: each packet that arrived is in exactly one place, no other packet is anywhere |
| GenericRuns.StageSafety | ebpf-debug/eventenqdeq-trace/pipeline_worker_generic.c:199-266 | queue ids stay in 0..n, workers see 0..n-1 only, and a transmitted event passed stages 0..n-1 once each and in order |
| GenericRuns.NeverStuck | ebpf-debug/eventenqdeq-trace/pipeline_worker_generic.c:79-121 | while a packet is in flight and there is a worker, some step other than an arrival can be taken |
| GenericRuns.StepDoesWork | ebpf-debug/eventenqdeq-trace/pipeline_worker_generic.c:90-120 | an arrival adds 3n+1 units of work and every other step removes at least one |
| GenericRuns.RunsAreBounded | ebpf-debug/eventenqdeq-trace/pipeline_worker_generic.c:79-121 | a arrivals allow at most (3n+1)a other steps in any run |
| GenericRuns.MaximalRunDrains | ebpf-debug/eventenqdeq-trace/pipeline_worker_generic.c:79-121 | a run that no step but an arrival can prolong has drained the pipeline, after at most (3n+2)a steps for a arrivals |
| GenericRuns.DrainingRun | ebpf-debug/eventenqdeq-trace/pipeline_worker_generic.c:79-121 | from every reachable state the pipeline can be drained without arrivals, within the work left |
| GenericRuns.DrainedInOrder | ebpf-debug/eventenqdeq-trace/pipeline_worker_generic.c:79-121 | once drained, each RSS value has left completely and in arrival order |
| GenericParallel.ParallelReorders | ebpf-debug/eventenqdeq-trace/pipeline_worker_generic.c:44-50 | with parallel queues, for every number of stages, RSS value and positive number of workers a reachable state has sent packets out of order |
| GenericParallel.OrderedIffAtomic | ebpf-debug/eventenqdeq-trace/pipeline_worker_generic.c:44-50 | unless the queues are ordered, every reachable state has sent a prefix of the arrivals of every RSS value exactly if the queues are atomic |
| GenericFlows.RewriteIsRight | ebpf-debug/eventenqdeq-trace/pipeline_worker_generic.c:42-50 | the rewrite forwards the packet to the next queue with the queues' schedule type; on the first queue its flow is what remains of the hash after num_fids, cut to 20 bits, on the others it stays |
| GenericFlows.FlowOfHash | ebpf-debug/eventenqdeq-trace/pipeline_worker_generic.c:45-46 | with at most 2^20 flows the flow is below num_fids and the hash exceeds it by a multiple of num_fids |
| GenericFlows.SharedFlow | ebpf-debug/eventenqdeq-trace/pipeline_worker_generic.c:105-106 | in every reachable state two events past the first stage share a flow exactly if their hashes are congruent modulo num_fids |
| GenericFlows.OperationOfStage | ebpf-debug/eventenqdeq-trace/pipeline_worker_generic.c:108-111 | in every reachable state events are new on the first queue and forwarded on all others, with the queues' schedule type |
| GenericBurst.BurstMoves | ebpf-debug/eventenqdeq-trace/pipeline_worker_generic.c:90-120 | a burst iteration's only outcome: its picks leave their queues and each rewritten event is appended once, in dequeue order |
| GenericBurst.SinglesMove | ebpf-debug/eventenqdeq-trace/pipeline_worker_generic.c:34-56 | the single-event loop on the same events in turn is a run to that state |
| GenericBurst.BurstRefinesSingles | ebpf-debug/eventenqdeq-trace/pipeline_worker_generic.c:90-120 | whatever state an undisturbed burst iteration reaches, the single-event loop reaches on the same events |
| GenericRefinement.StepSimulated | ebpf-debug/eventenqdeq-trace/pipeline_worker_generic.c:79-121 | each step of a run in which w takes bursts is matched by steps of one in which w handles one event at a time; the two states differ only in the events w has taken ahead |
| GenericRefinement.BurstsRefineSingles | ebpf-debug/eventenqdeq-trace/pipeline_worker_generic.c:34-120 | every run, whatever interleaves with the bursts of w, that leaves w with nothing in hand has a run to the same state in which w handles one event at a time; so does any other worker that did before |
| GenericRefinement.AllBurstsRefineSingles | ebpf-debug/eventenqdeq-trace/pipeline_worker_generic.c:34-120 | every run that leaves all workers with nothing in hand has a run to the same state in which every worker handles one event at a time |
| EventPorts.AcceptedIsOffered | ebpf-debug/eventenqdeq-trace/pipeline_worker_tx.c:25-36 | offering the rest again gets through exactly the sum of the prefixes the device is willing to take, up to the whole burst |
| EventPorts.EventPort.EnqueueBurst | ebpf-debug/eventenqdeq-trace/pipeline_worker_generic.c:114-119 | one device call accepts a prefix, in order |
| EventPorts.EventPort.EnqueueAll | ebpf-debug/eventenqdeq-trace/pipeline_worker_tx.c:25-36 | the retry loop enqueues every event once and in order and stops short only when the device is not observed any further |
| GenericWorker.RewriteInPlace | ebpf-debug/eventenqdeq-trace/pipeline_worker_generic.c:101-113 | each of the nb_rx entries is rewritten once, packet, queue, operation, schedule type and flow as stated independently of the rewrite, the others are untouched |
| GenericWorker.Worker.BurstIteration | ebpf-debug/eventenqdeq-trace/pipeline_worker_generic.c:90-120 | one iteration of the burst worker: array, device queue and both counters after it |
| GenericWorker.Worker.SingleIteration | ebpf-debug/eventenqdeq-trace/pipeline_worker_generic.c:34-56 | one iteration of the single worker: it ends exactly if the device takes the event |
| GenericWorker.LoopsMatchSteps | ebpf-debug/eventenqdeq-trace/pipeline_worker_generic.c:101-119 | what the step system's burst puts back is what the burst loop offers to the device |
| GenericWorker.SetupChain | ebpf-debug/eventenqdeq-trace/pipeline_worker_generic.c:199-266 | the tables chain the stages, the TX queue is queue n, every port links the stage queues only |
| TxRouting.SlotInLayout | ebpf-debug/eventenqdeq-trace/pipeline_worker_tx.c:498-501 | slot k of a port's block has remainder k modulo n+1 |
| TxRouting.SlotAsCoded | ebpf-debug/eventenqdeq-trace/pipeline_worker_tx.c:232 | the same queue id has remainder (p+k) mod n with the modulus the workers take |
| TxRouting.IntendedWalk | ebpf-debug/eventenqdeq-trace/pipeline_worker_tx.c:559-574 | modulus n+1: after k forwards an event is in slot k of its own block, with the schedule type of that queue |
| TxRouting.IntendedJourney | ebpf-debug/eventenqdeq-trace/pipeline_worker_tx.c:559-574 | modulus n+1: every event visits its n stage queues in order, then, unless atomic, its TX queue, and is transmitted there |
| TxRouting.CodedAtomicWalk | ebpf-debug/eventenqdeq-trace/pipeline_worker_tx.c:220-251 | as coded, atomic: an event of port p is transmitted after exactly n-1-(p mod n) forwards |
| TxRouting.CodedOtherWalk | ebpf-debug/eventenqdeq-trace/pipeline_worker_tx.c:220-251 | as coded, ordered or parallel: the queue id rises by one at every step, through the later ports' blocks |
| TxRouting.CodedNeverTransmits | ebpf-debug/eventenqdeq-trace/pipeline_worker_tx.c:220-251 | as coded, ordered or parallel: no number of forwards brings an event to transmission |
| TxRouting.TransmittedOnce | ebpf-debug/eventenqdeq-trace/pipeline_worker_tx.c:234-239 | an event is transmitted after one number of forwards at most |
| TxRouting.CodedMeetsIntent | ebpf-debug/eventenqdeq-trace/pipeline_worker_tx.c:220-251 | the code gives the intended journey exactly to atomic pipelines of ports divisible by the number of stages |
| TxRouting.StrayOnTxQueue | ebpf-debug/eventenqdeq-trace/pipeline_worker_tx.c:240-243 | modulus n+1: an event on its TX queue that is not atomic is made so, comes back to that queue and is transmitted from there |
| TxRouting.ForwardKeepsPacket | ebpf-debug/eventenqdeq-trace/pipeline_worker_tx.c:8-14 | forwarding changes neither packet nor flow and makes a forwarded event that comes from a core |
| TxRouting.BlocksAreQueues | ebpf-debug/eventenqdeq-trace/pipeline_worker_tx.c:432-436 | the queues of the device are exactly those of the ports' blocks, or one for each port with all-type queues |
| TxRouting.AtqStep | ebpf-debug/eventenqdeq-trace/pipeline_worker_tx.c:280-297 | all-type queues: stage s < n-1 goes to s+1, the last stage transmits atomic events and makes others atomic |
| TxRouting.AtqWalk | ebpf-debug/eventenqdeq-trace/pipeline_worker_tx.c:262-305 | all-type queues: the event stays on its queue and is transmitted after exactly n-1-s forwards if atomic and n-s otherwise; the 8-bit stage does not wrap |
| TxRouting.SingleStageJourney | ebpf-debug/eventenqdeq-trace/pipeline_worker_tx.c:58-77 | one stage: atomic events leave at once, others after one forward, to the TX queue unless all-type |
| TxWorkers.TxWorker.SingleLoop | ebpf-debug/eventenqdeq-trace/pipeline_worker_tx.c:224-252 | the single-event loops forward and transmit exactly what routing says, in order; received = fwd + tx at iteration boundaries |
| TxWorkers.TxWorker.SingleIteration | ebpf-debug/eventenqdeq-trace/pipeline_worker_tx.c:226-251 | one iteration, and that it can only hang inside the enqueue |
| TxWorkers.TxWorker.EnqueueOne | ebpf-debug/eventenqdeq-trace/pipeline_worker_tx.c:17-23 | the spinning enqueue puts the event on the device once |
| TxWorkers.TxWorker.RouteInPlace | ebpf-debug/eventenqdeq-trace/pipeline_worker_tx.c:331-351 | the loop over a burst rewrites forwards, marks transmitted events for release and touches nothing else |
| TxWorkers.TxWorker.BurstIteration | ebpf-debug/eventenqdeq-trace/pipeline_worker_tx.c:320-355 | one iteration of the burst loops with its counters; fwd counts the whole burst |
| TxWorkers.BurstQueuesTheSame | ebpf-debug/eventenqdeq-trace/pipeline_worker_tx.c:307-362 | the device queues the same events in the same order after a burst as after the single loop |
| TxWorkers.ForwardedOrTransmitted | ebpf-debug/eventenqdeq-trace/pipeline_worker_tx.c:234-251 | every event is forwarded or transmitted, never both |
| TxWorkers.TransmitsInOrder | ebpf-debug/eventenqdeq-trace/pipeline_worker_tx.c:234-239 | the events transmitted are those routing transmits, in their order |
| TxPipeline.StepKeepsPlaced | ebpf-debug/eventenqdeq-trace/pipeline_worker_tx.c:220-305 | every event stays in a queue and at a stage of its own port that the port's events visit, under the flow of its hash |
| TxPipeline.PutDecides | ebpf-debug/eventenqdeq-trace/pipeline_worker_tx.c:232-305 | with all-type queues or without, and then with either modulus, a worker transmits an event at the last stage the events of its port visit and forwards it to the next one before that |
| TxPipeline.StepKeepsSeen | ebpf-debug/eventenqdeq-trace/pipeline_worker_tx.c:220-305 | every step of any worker on any port is none, one or two steps of each port's chain, seen as a generic pipeline |
| TxPipeline.FlowOrder | ebpf-debug/eventenqdeq-trace/pipeline_worker_tx.c:220-305 | atomic queues: in every reachable state what a port's wire has of a flow is a prefix of what the port received of it |
| TxPipeline.OnePlace | ebpf-debug/eventenqdeq-trace/pipeline_worker_tx.c:220-305 | each packet received on a port is in exactly one of wire, hands and queues of the port; no other packet is there |
| TxPipeline.DrainedInOrder | ebpf-debug/eventenqdeq-trace/pipeline_worker_tx.c:220-305 | with nothing queued or in hand, everything received is on the wire of its port, each flow in order |
| TxPipeline.NeverStuck | ebpf-debug/eventenqdeq-trace/pipeline_worker_tx.c:220-305 | while an event is queued or in hand a worker can act |
| TxProgress.StepDoesWork | ebpf-debug/eventenqdeq-trace/pipeline_worker_tx.c:220-305 | an arrival brings two units of work for each stage its port's events visit, every other step does exactly one |
| TxProgress.RunsAreCounted | ebpf-debug/eventenqdeq-trace/pipeline_worker_tx.c:220-305 | in every run the workers' steps and the steps still ahead are exactly two for each packet and stage it visits |
| TxProgress.MaximalRunDrains | ebpf-debug/eventenqdeq-trace/pipeline_worker_tx.c:220-305 | a run that no worker can prolong has drained the pipeline and made exactly those steps |
| TxWorkers.SetupQueues | ebpf-debug/eventenqdeq-trace/pipeline_worker_tx.c:418-574 | queue tables, schedule types and RX stride are those the routing theorems assume if the tables have room; the loop writes behind qid exactly if the eight-bit number of queues exceeds eight |
| TxWorkers.ThreePortsOverrun | ebpf-debug/eventenqdeq-trace/pipeline_common.h:68-69 | three ports of two stages already do |
| TxWorkers.IntendedForPortZero | ebpf-debug/eventenqdeq-trace/pipeline_worker_tx.c:220-251 | with the queues the tables have room for, the code gives the intended journey exactly to port 0 of an atomic pipeline |
| SharedCounter.WriteKeepsCount | workdistributor-noeventdev/main_atomic_nosqm.c:438 | an increment without a lock keeps the value at most the number of increments, and equal exactly if none was disturbed |
| SharedCounter.LossIsFinal | workdistributor-noeventdev/main_atomic_nosqm.c:438 | an update that was lost is never made good by later increments |
| Distributor.StepKeepsPlacement | workdistributor-noeventdev/main_atomic_nosqm.c:374-530 | every ring and batch holds packets of its own flows only, each reader is at a place of its loop its packet can be at, and the counters of one lcore balance |
| DistributorRuns.StepKeepsOwned | workdistributor-noeventdev/main_atomic_nosqm.c:374-530 | no step of a reader or worker loses, doubles or invents a packet |
| DistributorRuns.StepKeepsOrder | workdistributor-noeventdev/main_atomic_nosqm.c:422-445 | no step lets a packet of a flow overtake another one on the way through its FIFO and worker |
| DistributorRuns.StepKeepsInv | workdistributor-noeventdev/main_atomic_nosqm.c:374-530 | placement, ownership and flow order are kept by every step of readers and workers |
| DistributorRuns.FlowOrder | workdistributor-noeventdev/main_atomic_nosqm.c:422-445 | a flow goes through one FIFO and one worker, and what was sent of it is a subsequence of what its port received |
| DistributorRuns.OneOwner | workdistributor-noeventdev/main_atomic_nosqm.c:374-530 | each received packet is in exactly one of reader burst, ring, worker batch, transmitted, freed |
| DistributorAccounts.ReaderCounts | workdistributor-noeventdev/main_atomic_nosqm.c:390-452 | in every reachable state rx_ipv4 and non_ip are the numbers of IPv4 and other packets among what the reader has taken up, which is what its port delivered first |
| DistributorAccounts.WorkerCounts | workdistributor-noeventdev/main_atomic_nosqm.c:281-297 | in every run queue_wrk_fls is the number of packets the worker has sent, queue_wrk_drp of those it has freed because the port did not take them, queue_wrk_fet of those it has dequeued |
| DistributorAccounts.SentByHash | workdistributor-noeventdev/main_atomic_nosqm.c:424-425 | every packet sent went through the FIFO that its hash leaves over the number of FIFOs |
| DistributorCounters.StepKeepsBalance | workdistributor-noeventdev/main_atomic_nosqm.c:434-444 | increments stored plus increments pending are the packets enqueued, or refused, at every step |
| DistributorCounters.CountersBalance | workdistributor-noeventdev/main_atomic_nosqm.c:434-444 | a shared counter plus the increments pending never exceeds what it counts and equals it exactly if no increment was disturbed; fetched, flushed, dropped, received, IPv4 and other counts balance exactly |
| DistributorCounters.SeparateRunIsLossless | workdistributor-noeventdev/main_atomic_nosqm.c:434-444 | a run in which no increment of a counter begins inside another one loses no update |
| DistributorCounters.OneReaderIsLossless | workdistributor-noeventdev/main_atomic_nosqm.c:722-735 | with one reader at most no run loses an update |
| DistributorCounters.TwoReadersLose | workdistributor-noeventdev/main_atomic_nosqm.c:722-735 | with two readers a reachable state has lost an update that no pending increment makes good |
| DistributorCounters.CountersRightIffOneReader | workdistributor-noeventdev/main_atomic_nosqm.c:722-735 | the shared counters are right in every reachable state exactly if there is one reader at most |
| DistributorLoops.Program.Increment | workdistributor-noeventdev/main_atomic_nosqm.c:437-438 | counter += 1 is a load and a store, between which others act |
| DistributorLoops.Program.Enqueue | workdistributor-noeventdev/main_atomic_nosqm.c:434 | the enqueue takes the packet exactly if the ring has room at that moment |
| DistributorLoops.Program.FetchPacket | workdistributor-noeventdev/main_atomic_nosqm.c:390-450 | the body of the fetch loops, whatever others do between its accesses to rings and counters, is a run that begins one packet and finishes it |
| DistributorLoops.Program.FetchBurst | workdistributor-noeventdev/main_atomic_nosqm.c:374-530 | the prefetching loop and the loop over the rest together begin every packet of the burst once, in order, and finish it |
| DistributorLoops.Program.SendPacket | workdistributor-noeventdev/main_atomic_nosqm.c:287-296 | one packet is sent and counted in queue_wrk_fls, or freed and counted in queue_wrk_drp |
| DistributorLoops.Program.TransmitBatch | workdistributor-noeventdev/main_atomic_nosqm.c:282-297 | one iteration of the worker: whatever others do in between, its own steps are one dequeue of up to eight packets, if there are any, and one send for each, in order |
| UnorderedDistributor.ProbesCoverAll | workdistributor-noeventdev/main_unordered_nosqm.c:417-419 | probes start at rxport, go up one FIFO at a time around the end, never repeat, reach every FIFO, and end where they began |
| UnorderedDistributor.FirstRoomTaken | workdistributor-noeventdev/main_unordered_nosqm.c:400-419 | in every run an enqueued packet went to the first FIFO with room at the packet's own probe; all earlier probes found theirs full |
| UnorderedDistributor.DroppedOnlyWhenAllFull | workdistributor-noeventdev/main_unordered_nosqm.c:400-424 | in every run a packet is given up only after each FIFO was full at the packet's own probe of it |
| UnorderedDistributor.StepKeepsAccounts | workdistributor-noeventdev/main_unordered_nosqm.c:393-431 | every packet in a ring, batch or on the wire was enqueued there, and every freed one has its reason, at every step |
| UnorderedDistributor.FreedForAReason | workdistributor-noeventdev/main_unordered_nosqm.c:421-424 | an IPv4 packet was freed after it was enqueued, in a step of the worker of its FIFO that failed to send it, or by its reader after finding every FIFO full |
| UnorderedDistributor.DropsChargedToPort | workdistributor-noeventdev/main_unordered_nosqm.c:421-424 | the drops due to a FIFO's counter are the packets given up of the port of that number |
| UnorderedCounters.NoRoomIsLossless | workdistributor-noeventdev/main_unordered_nosqm.c:421-424 | if the rings hold nothing every reader counts drops of its own FIFO only, and no update is lost |
| UnorderedCounters.ProbingLoses | workdistributor-noeventdev/main_unordered_nosqm.c:408-413 | with two readers and rings that hold packets a reachable state has lost an update: a packet whose own FIFO is full meets another port's |
| UnorderedCounters.CountersRightIff | workdistributor-noeventdev/main_unordered_nosqm.c:400-424 | the shared counters are right in every reachable state exactly if there is one reader at most or the rings hold nothing |
| UnorderedLoops.TryFifo | workdistributor-noeventdev/main_unordered_nosqm.c:406-416 | one turn of the loop: the packet is in the ring, or the test or the enqueue found it full |
| UnorderedLoops.SearchFifo | workdistributor-noeventdev/main_unordered_nosqm.c:400-419 | the do-while loop, with others acting between its probes, is a run that enqueues the packet or ends at rxport after a probe of each FIFO |
| UnorderedLoops.FreePacket | workdistributor-noeventdev/main_unordered_nosqm.c:421-424 | after the last try the packet is freed and the drop due to the FIFO of rxport |
| UnorderedLoops.PlacePacket | workdistributor-noeventdev/main_unordered_nosqm.c:393-431 | one packet ends in a FIFO, or is freed and the drop charged to rxport |
| UnorderedLoops.FetchBurst | workdistributor-noeventdev/main_unordered_nosqm.c:377-489 | the two loops begin each index of the burst once, in order, and finish it |
| L2fwdSetup.PairPorts | nogdb-threadtrace/main.c:980-1007 | the one-pass loop pairs enabled ports of rank 2k and 2k+1 and leaves an odd last one to itself; other entries stay 0 |
| L2fwdSetup.PairingIsInvolution | nogdb-threadtrace/main.c:988-1007 | the destination of the destination is the port itself; only an odd last port is fixed |
| L2fwdSetup.PartnersAreNeighbours | nogdb-threadtrace/main.c:988-1007 | no enabled port lies between a port and its destination |
| L2fwdSetup.PairsStartEven | nogdb-threadtrace/main.c:988-1007 | below the lower port of a pair lies an even number of enabled ports |
| L2fwdSetup.AssignPorts | nogdb-threadtrace/main.c:1009-1034 | all enabled ports are listed in order within the quota on enabled lcores, each filled before the next; failure exactly if enabled ports exceed quota times enabled lcores |
| L2fwdSetup.OneLcorePerPort | nogdb-threadtrace/main.c:1013-1034 | every enabled port is in exactly one list, once, of an enabled lcore; no other port is in any |
| L2fwdForward.StepKeepsInv | nogdb-threadtrace/main.c:604-662 | the single-writer property and each port's account are kept by every step of every lcore |
| L2fwdForward.OneWriterPerBuffer | nogdb-threadtrace/main.c:614-661 | in every run each TX buffer is appended to and flushed by one lcore only |
| L2fwdForward.PortConservation | nogdb-threadtrace/main.c:604-662 | in every reachable state rx[p] = tx[dst p] + dropped[dst p] + buffered at dst p + still in the hands of the one lcore that polls p, and packets leave in arrival order |
| L2fwdForward.ConservedAtBoundary | nogdb-threadtrace/main.c:604-662 | whenever that lcore has finished its burst, rx[p] = tx[dst p] + dropped[dst p] + buffered at dst p |
| L2fwdBuffers.BuffersStayBelowBurst | nogdb-threadtrace/main.c:549-552 | in every reachable state every TX buffer holds fewer than MAX_PKT_BURST packets |
| L2fwdBuffers.FullBurstsOnly | nogdb-threadtrace/main.c:549-552 | in every run without a drain each port has sent and dropped a multiple of MAX_PKT_BURST packets |
| L2fwdLoops.Forwarder.SimpleForward | nogdb-threadtrace/main.c:537-552 | a packet is buffered for the destination of its port; with the MAX_PKT_BURST-th the buffer is emptied, the prefix taken sent and counted, the rest dropped and counted |
| L2fwdLoops.Forwarder.Flush | nogdb-threadtrace/main.c:619-621 | the prefix taken is sent and counted, the rest dropped and counted |
| L2fwdLoops.Forwarder.DrainAll | nogdb-threadtrace/main.c:614-623 | the drain loop is the run of one flush for each port of the list, in its order, and leaves their buffers empty |
| L2fwdLoops.Forwarder.Poll | nogdb-threadtrace/main.c:651-661 | a poll is the run that receives the burst and forwards each of its packets, in order |
| L2fwdLoops.MainLoopPass | nogdb-threadtrace/main.c:604-662 | a pass of the main loop is the run of the drains, if it is time, and of one poll for each port of the list, so the run theorems hold at its boundaries |
| CoreMask.OrNibble | ebpf-debug/eventenqdeq-trace/main.c:86-91 | the inner loop adds the digit at its place and keeps the count equal to the popcount |
| CoreMask.LowDigits | ebpf-debug/eventenqdeq-trace/main.c:79-92 | the digit loop computes the number of up to sixteen digits, or stops at a character that is no digit |
| CoreMask.OrDigit | ebpf-debug/eventenqdeq-trace/main.c:80-91 | one digit on top of the digits after it keeps the mask equal to the number read so far |
| CoreMask.HighZeros | ebpf-debug/eventenqdeq-trace/main.c:93-95 | digits above the sixteenth must be zeros |
| CoreMask.ParseDigits | ebpf-debug/eventenqdeq-trace/main.c:79-98 | the digit loops accept exactly the nonzero hexadecimal numbers that fit, and return the number |
| CoreMask.ParseCoremask | ebpf-debug/eventenqdeq-trace/main.c:53-99 | every argument gives the number its trimmed text denotes, or the failure value |
| CoreMask.ParsedFits | ebpf-debug/eventenqdeq-trace/main.c:79-98 | the result fits 64 bits, and only acceptable text gives anything but the failure value |
| CoreMask.PrintDenotes | ebpf-debug/eventenqdeq-trace/main.c:35-51 | the hexadecimal print of a number denotes it |
| CoreMask.DigitOf | ebpf-debug/eventenqdeq-trace/main.c:35-51 | the k-th hexadecimal digit, in either case, has the value k |
| CoreMask.OnlyDigits | ebpf-debug/eventenqdeq-trace/main.c:35-51 | no other character is a digit |
| CoreMask.RoundTrip | ebpf-debug/eventenqdeq-trace/main.c:53-99 | parsing the print of a nonzero 64-bit mask returns it, each letter in either case, with or without 0x, with any leading zeros, spaces and tabs |
| CoreMask.ForeignFails | ebpf-debug/eventenqdeq-trace/main.c:53-99 | an argument with a character that is no digit, blank or x fails |
| CoreMask.UnionBit | ebpf-debug/eventenqdeq-trace/main.c:238-248 | a core is in use exactly if its bit is in the union of the four masks |
| CoreMask.CountCores | ebpf-debug/eventenqdeq-trace/main.c:238-248 | roles per core, num_workers = popcount of the worker mask, active_cores = popcount of the union |
| NumaLaunch.PortBits | primary-secondary/primarysecondary-workshare/node.c:142-161 | a port map holds exactly the ports of its speed and node among the first eight |
| NumaLaunch.CountsPorts | primary-secondary/primarysecondary-workshare/node.c:142-161 | a port counter is the number of ports of its speed whose PCI device is on the node, or, for node 0, on none |
| NumaLaunch.PortPopulation | primary-secondary/primarysecondary-workshare/node.c:142-161 | popcount equals counter exactly if no port of the class has index 8 or more; otherwise it is smaller |
| NumaLaunch.MapsDisjoint | primary-secondary/primarysecondary-workshare/node.c:148-161 | maps of different speeds or nodes share no port |
| NumaLaunch.NodesCoverPorts | primary-secondary/primarysecondary-workshare/node.c:22-44 | the sum over the four nodes counts every port of the speed once |
| NumaLaunch.CoreBits | primary-secondary/primarysecondary-workshare/node.c:120-138 | a core map holds the lcores of its node, lcore 31 spreading to bits 31..63 |
| NumaLaunch.CorePopulation | primary-secondary/primarysecondary-workshare/node.c:120-138 | popcount equals counter, plus 32 if lcore 31 is on the node |
| NumaLaunch.FastPopulation | primary-secondary/primarysecondary-workshare/main.c:563 | the 10G/40G mask holds as many ports as the launch loop asks for exactly if all of them fit the maps |
| NumaLaunch.NumaInfo.AddCores | primary-secondary/primarysecondary-workshare/node.c:120-138 | the lcore loop leaves map and counter of every node as specified |
| NumaLaunch.NumaInfo.AddPort | primary-secondary/primarysecondary-workshare/node.c:148-161 | one port is classed by its speed and the node of its PCI device, node 0 if that is unknown, and in no other map or counter |
| NumaLaunch.NumaInfo.Populate | primary-secondary/primarysecondary-workshare/node.c:109-161 | populateNodeInfo leaves every map with exactly the ports among the first eight, and every counter with the number of all ports, of its speed and node |
| NumaLaunch.Scan | primary-secondary/primarysecondary-workshare/main.c:612-618 | a scan stops at the next set bit, having skipped clear ones only, or runs into the undefined shift |
| NumaLaunch.ScanFinds | primary-secondary/primarysecondary-workshare/main.c:612-618 | with a set bit ahead below bit 31 the scan finds the one of the next rank |
| NumaLaunch.ScanRunsAway | primary-secondary/primarysecondary-workshare/main.c:612-614 | without one it runs into the undefined shift by 32 |
| NumaLaunch.LaunchAll | primary-secondary/primarysecondary-workshare/main.c:609-627 | the j-th launch pairs port and core of rank j; the loop ends well exactly if it asks for no more ports than the mask holds |
| NumaLaunch.NinthPortIsLost | primary-secondary/primarysecondary-workshare/main.c:610-614 | nine 10G ports on one node: the counter asks for nine, the mask holds fewer |
| NumaLaunch.GuardedCores | primary-secondary/primarysecondary-workshare/node.c:120-138 | below bit 31 the core map holds every lcore of the node but one at most, so more lcores than fast ports suffice |
| NumaLaunch.NumaInfo.StartNode | primary-secondary/primarysecondary-workshare/main.c:557-634 | when a node has no fast ports, has too few lcores, runs into the undefined shift after launching the ports its mask holds, or launches every fast port by rank |
| NumaLaunch.CoreIsReal | primary-secondary/primarysecondary-workshare/main.c:605-618 | a core within the guard is an enabled lcore of the node, whatever the sign extension added |
| NumaLaunch.EveryPortOnItsOwnCore | primary-secondary/primarysecondary-workshare/main.c:605-629 | every 10G/40G port of the node is launched exactly once, on a distinct enabled lcore of the node |
| WorkshareWorker.Worker.Turn | primary-secondary/primarysecondary-workshare/main.c:274-292 | one turn of the worker: ring, wire, freed packets, and rx = tx + drop |
| WorkshareWorker.OwnPortIffUniform | primary-secondary/primarysecondary-workshare/main.c:282 | a batch leaves by its packets' own ports exactly if they all name the port of the first |
| Launches.ByRankIncreases | primary-secondary/primarysecondary-workshare/main.c:609-627 | launches paired by rank ascend in ports and cores, so no port or core is used twice |
| PktGen.Lowest | custom-pktgen/pktgen-generic/main.c:455-456 | find-first-set yields the lowest set bit |
| PktGen.LowestHasRank | custom-pktgen/pktgen-generic/main.c:455-464 | after j bits are cleared the lowest one left has rank j in the original mask |
| PktGen.MasterLeaves | custom-pktgen/pktgen-generic/main.c:434-435 | the exclusive or removes the master exactly if it was in the mask, and changes no other core |
| PktGen.NumaNode.LaunchPairs | custom-pktgen/pktgen-generic/main.c:453-482 | the loop makes min(popcounts) pairs, k-th lowest core with k-th lowest port, and the used masks and counters are exactly these |
| PktGen.NumaNode.LaunchSocket | custom-pktgen/pktgen-generic/main.c:432-491 | when a socket is idle, has no lcore, runs into an undefined shift, or launches |
| PktGen.PairsAreDistinct | custom-pktgen/pktgen-generic/main.c:453-482 | on the master's socket the pairs use distinct ports and distinct available cores, never the master |
| PktGen.MasterServed | custom-pktgen/pktgen-generic/main.c:434-464 | the master gets a generator exactly if the exclusive or put it into the mask and its rank there is below the number of pairs |
| PktGen.AllServedIfEnoughCores | custom-pktgen/pktgen-generic/main.c:453-482 | every interface gets a generator exactly if there is a core for each |
| PktGen.Generator.Allocate | custom-pktgen/pktgen-generic/main.c:325-340 | a full burst is held in ptr, or everything allocated is freed |
| PktGen.Generator.FreeBack | custom-pktgen/pktgen-generic/main.c:330-334 | the loop after a failed allocation frees each buffer once, last first |
| PktGen.Generator.Transmit | custom-pktgen/pktgen-generic/main.c:382-419 | the prefix taken is sent and counted, the rest freed |
| PktGen.Generator.Pass | custom-pktgen/pktgen-generic/main.c:311-420 | at each loop head every buffer drawn was sent or freed, exactly as often as drawn |
| PktGen.Generator.Run | custom-pktgen/pktgen-generic/main.c:311-420 | so over any number of turns; what was sent are the taken prefixes of the full bursts |
| MemzoneMonitor.SizeIsLeastPower | memzone-monitor/main.c:202-209 | the smearing gives the least power of two above the number of lines, within 32 bits |
| MemzoneMonitor.TableSize | memzone-monitor/main.c:202-209 | so does the sequence of assignments |
| MemzoneMonitor.ZoneIsItsLines | memzone-monitor/main.c:200-225 | whole lines and spill partition the zone: zones are equal exactly if all lines are |
| MemzoneMonitor.Timer.Record | memzone-monitor/main.c:199-228 | the first call sizes a table that holds a hash for every line and fills it |
| MemzoneMonitor.Timer.FillTable | memzone-monitor/main.c:214-226 | each entry is the hash of its line, the spill included |
| MemzoneMonitor.Timer.Compare | memzone-monitor/main.c:231-276 | a later call reports exactly the lines whose hash differs, ascending, unless the console is on without its menu |
| MemzoneMonitor.Print | memzone-monitor/main.c:235-250 | a difference is reported to the file, or to the console if its menu is displayed |
| MemzoneMonitor.Timer.Callback | memzone-monitor/main.c:186-279 | the first call records, every later one compares with the zone of the first and reports unless the console is on without its menu |
| MemzoneMonitor.ReportsAreExact | memzone-monitor/main.c:231-276 | a reported line has changed; every changed line is reported exactly if none collides with its baseline |
| MemzoneMonitor.ReportAscends | memzone-monitor/main.c:231-276 | lines are reported in their order in the zone, each once |
| MemzoneMonitor.SilentIffUnchanged | memzone-monitor/main.c:231-276 | short of collisions nothing is reported exactly if the zone is the baseline |
| TxFilter.PrecheckPkts | DPDK-i40eVF-TX-FIX.c:1-39 | safe packets move to the front in order, the others are freed in order, no entry beyond the result is written |
| TxFilter.SelectedInOrder | DPDK-i40eVF-TX-FIX.c:12-33 | kept and freed packets are subsequences of the burst, all safe and all unsafe respectively |
| TxFilter.KeptOrFreed | DPDK-i40eVF-TX-FIX.c:12-36 | each packet is kept or freed, as often as it was there, by its safety alone |
| TxFilter.UntouchedIffAllSafe | DPDK-i40eVF-TX-FIX.c:12-38 | a burst passes whole exactly if all its packets are safe |

## Left out

- The insides of the event device, rings, TX buffers, memory pools and hash functions: specifications only. Ordered queues are scheduled like parallel ones; the device's restoring of their order is not modelled, and order is claimed for atomic queues only.
- EAL and device set-up, mempools, adapters' service cores, timers, signals, TAP ports, queue priorities, statistics and menus, eBPF and uprobe tracing: input/output and foreign libraries.
- The `done` flag of the pipelines: a loop that is stopped in the middle appears as a device that is not observed any further (`EventPorts`).
- MAC rewriting (`exchange_mac`, `l2fwd_mac_updating`), packet templates of the generator, and byte counters.
- GenericBurst.BurstRefinesSingles: an iteration during which nobody else acts; `GenericRefinement.BurstsRefineSingles` is the statement for every run.
- GenericPipeline.StepKeepsPlacement: packets of the RX adapter carry distinct identities and their flow is a function of the RSS hash.
- TxRouting.IntendedJourney: queue ids are unbounded numbers and tables as large as needed here, as the layout's comment has it; what the fixed tables allow is in `TxWorkers.SetupQueues`, which stops where the code would write behind them.
- TxRouting.SingleStageJourney: the 8-bit increment of the queue id is modelled, the truncation of the injection queue `i * rx_stride` is not.
- TxPipeline.FlowOrder: atomic queues and single-event workers; ordered and parallel queues and the burst workers have their routing and loop contracts only. A packet is handed to the TX adapter and its flow released in one step; the code releases it later.
- TxWorkers.TxWorker.SingleLoop: `rte_event_eth_tx_adapter_enqueue` is taken to succeed in the end.
- DistributorRuns.FlowOrder: the port's socket is the core's socket, where the code only prints a warning; the address key is an arbitrary function of the pair.
- DistributorCounters.CountersBalance: `fet`, `fls`, `drp`, `rx_ipv4` and `non_ip` have one writer, so their updates are part of the step they count; the byte counter `rxBytes` is left out.
- UnorderedLoops.PlacePacket: asks for rxport < fifoWrk; otherwise the code panics on a missing ring.
- DistributorLoops.Program.FetchBurst: the others act between the accesses to rings and shared counters, as a schedule that is a parameter.
- L2fwdForward.PortConservation: what the device does with a packet after accepting it; `dropped` is counted by the buffer's error callback (nogdb-threadtrace/main.c:1101-1103).
- NumaLaunch.NumaInfo.Populate: lcore ids below 32 and at most 32 ports, since wider shifts of an int are undefined; the shift by 31 is taken to give the sign bit. The race on the launch argument is not modelled.
- WorkshareWorker.Worker.Turn: the counters are those of one worker. The code indexes them by fifoIndex only and starts worker j on every node with fast ports (primary-secondary/primarysecondary-workshare/main.c:570-595), so workers of two sockets share a counter, and updates can be lost as `DistributorCounters.TwoReadersLose` shows for the distributors.
- PktGen.NumaNode.LaunchSocket: called once for each socket, as in the program, so the used masks start empty; the node tables themselves are inputs, and masks are unbounded numbers where the code has 32 bits.
- MemzoneMonitor.Timer.Callback: zones of at least 2^31 lines, whose count does not fit avgLen, the switched-off monitor, and the text printed for a report (which reads a whole line even for a spill). From 2 GiB on the product of 64 and avgLen (memzone-monitor/main.c:202) overflows a signed int, which is undefined; the model takes the product as it is, of which the 32-bit spillLen would keep the right part if the overflow wrapped.
- `lcore_pktFetch` of the primary process frees a packet after enqueueing it (primary-secondary/primarysecondary-workshare/main.c:400-406): conservation does not hold there.
- The secondary's launch loop over running lcores, and the launch loops of the distributors: lcore states and launch arguments are outside the model.
- The directed distributor (two formulas for one flow's FIFO), the gtpparser loops, the control-plane headers and the Hyperscan code.

# Verified model of StreamEP: barrier-free serving, placement, scheduling, KV hand-off and pacing

Dafny 4.11 models of the algorithms at the centre of the StreamEP repository, with proofs of
what they are for. `dafny verify dfyconfig.toml` checks everything.

## What is modelled

- **The barrier-free MoE simulator** (`AsyncCore`, `AsyncProtocol`, `AsyncWorker`, `AsyncSystem`,
  `AsyncDelivery`, `AsyncTheorems`, `AsyncObjects`). Requests arrive, tokens go through attention and fan out to
  experts layer by layer, replicas join again, completed tokens lead to the next ones. The
  protocol sees the GPUs as a multiset of token copies; the system is a state machine whose
  events are at least as fine as what a simulator process does between two yields, so its runs
  include every interleaving of the event queue. Proved over all runs: no copy is lost or
  doubled, no error is ever raised, every run ends, and a run that cannot go on has completed
  every token exactly once, if and only if the admission cap lets a request in; every expert the
  router names gets its replica, and attention stays on its token's home. The simulator's
  classes are written as classes and tied method by method to the protocol's steps.
- **The Helix placement program** (`HelixEncoding`, `HelixMeaning`, `HelixTheorems`, `HelixSwitch`,
  `HelixFlow`, `HelixPipeline`, `HelixObjects`, `HelixCompiler`). The integer program is the rows and bounds the code builds,
  in all four modes; its meaning is a placement of layer ranges with a flow. Proved: soundness
  and completeness with their exact condition, harmless removal of the rows marked redundant,
  acyclic flow whose every edge lies on a path that runs each layer exactly once, and the
  embedding of the single-pipeline program. The loops that register variables, emit rows and
  read the solution are methods proved against these definitions, and the arrays they hand to
  the solver are proved to mean the named system.
- **Scheduling and balancing** (`Balance`, `Tbo`, `SyncSim`). Expert balancing on a heap with
  per-GPU capacity; the two-microbatch overlap scheduler, which follows the layer times, is valid
  and within a factor of two of any valid schedule; the barrier simulator's drain, port and routing shortcuts.
- **The KV hand-off** (`KvPages`, `KvHandoff`, `KvOutcomes`, `KvLiveness`, `Sampler`). Page addresses as a hash chain, the
  staging-buffer protocol between fetch workers and the engine, what its records and counters
  tell about the reads, and teacher-forced replay.
- **The interference sender** (`TokenBucket`, `PacedSender`). The paced send loop, tied to the
  replay of its visits to the windows, and the client from trace to streams.

`Counting` and `Wrappers` hold what several models share. Lemmas switch automatic induction off
and say where they induct.

## Facts about the code that the proofs bring out

- A concurrency cap of zero is accepted and starves every request (`AsyncTheorems.StuckMeansDone`).
- The Helix program with all rows kept is infeasible for a one-layer model, while the docstring
  presents the flag as only skipping implied rows (`HelixTheorems.CompleteExactly`).
- Without partial inference the full system lets the switch of an open edge between GPUs stay
  off; a switch is exact only for the edges `HelixSwitch.SwitchExactly` names.
- The single-pipeline program admits a minimum of zero layers per GPU, and its own extraction
  then rejects a vector that leaves a GPU out (`HelixPipeline.RejectedExactly`). Such an input
  reaches the program only through a direct call of the solver function or a profile with an
  entry for zero layers: the default table divides by the layer count.
- The overlap scheduler's finish times leave out each microbatch's last transfer, as its lower
  bound does here (`Tbo.ScheduleResources`).
- A prompt that is larger than the staging buffer, or has a token id beyond 32 bits in a full
  page, ends its worker thread. Once as many such prompts as workers have been taken, every
  later prompt waits for ever, also one that fits (`KvLiveness.ServedExactly`,
  `KvLiveness.OversizeStarves`); nothing in front of the loader checks the size.
- Each window keeps to one burst plus its own rate (`TokenBucket.WindowBound`), but the bytes of a
  run are not bounded by one burst plus the schedule's rate over the run: a refill charges all
  the time since the last one at the current rate, also time in slower windows
  (`TokenBucket.ScheduleBoundsExactly`, `TokenBucket.LateRefillOutrunsSchedule`).

## Model

| member | source | states |
|---|---|---|
| `AsyncProtocol.InitialInv` | StreamInfer/simulation/sim_async.py:173-206 | the empty simulator, with no token anywhere, satisfies the conservation invariant |
| `AsyncProtocol.IssueToken` | StreamInfer/simulation/sim_async.py:255-280 | issuing a request's next token never raises, hands over exactly that token for layer 0, and gives the request its one live token |
| `AsyncProtocol.StartRequest` | StreamInfer/simulation/sim_async.py:214-236 | starting a request that the cap admits never raises; it gets the next home GPU in turn and its first token |
| `AsyncProtocol.AdmitQueuedKeeps` | StreamInfer/simulation/sim_async.py:282-291 | admitting waiting requests never raises, starts them in arrival order, and stops only when the cap is reached or nobody waits |
| `AsyncProtocol.ArriveKeeps` | StreamInfer/simulation/sim_async.py:208-212 | an arriving request is started or queued without an error, and the invariant holds with the work handed over |
| `AsyncProtocol.RouteKeeps` | StreamInfer/simulation/sim_async.py:1010-1023 | routing a token turns its single copy into as many replicas as experts were chosen; its fanout for that layer had not been recorded before |
| `AsyncProtocol.ReplicaAtHome` | StreamInfer/simulation/sim_async.py:977-992 | a returning replica finds its token live with the fanout of that very layer recorded; outstanding plus joined replicas equal the fanout |
| `AsyncProtocol.JoinKeeps` | StreamInfer/simulation/sim_async.py:977-1008 | the return of an outstanding replica never raises: it is counted, or, if it is the last, releases the token to the next layer or completes it |
| `AsyncProtocol.CompletedToken` | StreamInfer/simulation/sim_async.py:305-323 | the last replica of the last layer completes a live token, exactly the newest token of its request |
| `AsyncProtocol.RetireRequest` | StreamInfer/simulation/sim_async.py:238-253 | dropping a request whose tokens are all issued and completed keeps the books consistent |
| `AsyncProtocol.FinalJoinKeeps` | StreamInfer/simulation/sim_async.py:238-253 | handling a completion never raises and ends with the next token issued, or the request retired and waiting ones admitted |
| `AsyncWorker.EnqueueExpertKeeps` | StreamInfer/simulation/sim_async.py:503-510 | enqueueing a replica adds one copy, keeps the cached length equal to the queued replicas, and never leaves a worker asleep with work |
| `AsyncWorker.EnqueueAttentionKeeps` | StreamInfer/simulation/sim_async.py:512-516 | enqueueing attention work adds one copy and never leaves a worker asleep with work |
| `AsyncWorker.FormBatchSplits` | StreamInfer/simulation/sim_async.py:553-558 | a batch is the front of the layer's queues read in order, cut at the batch limit; batch followed by what is left is what was queued |
| `AsyncWorker.BestIsFirstMaximum` | StreamInfer/simulation/sim_async.py:657-672 | selection yields the first of the greatest positive scores, or nothing when no score is positive |
| `AsyncWorker.SelectedTaskHasWork` | StreamInfer/simulation/sim_async.py:613-637 | with work around, the scheduler picks attention exactly when there is some and its size times top-k exceeds the score of every layer that has tokens, and else the first layer of greatest score, under both policies |
| `AsyncWorker.ScoreWeighs` | StreamInfer/simulation/sim_async.py:674-732 | the defragging score of a layer with tokens adds the tokens of the next three layers, cyclically, at 80, 64 and 51.2 percent; a layer without tokens scores zero |
| `AsyncWorker.TurnKeeps` | StreamInfer/simulation/sim_async.py:532-560 | one turn of a worker loses no copy, sleeps exactly when there is no work and otherwise begins the selected task with the oldest attention work or the front of the layer's queues: the branches that spin on an empty selection or batch are unreachable |
| `AsyncSystem.InitialSystem` | StreamInfer/simulation/sim_async.py:1109-1200 | the initial system, with all GPU workers ready and empty, satisfies the system invariant |
| `AsyncTheorems.WorksHaveHomes` | StreamInfer/simulation/sim_async.py:964-975 | every token handed to attention has a home GPU that exists, so the range check never fires |
| `AsyncTheorems.ArrivalKeeps` | StreamInfer/simulation/sim_async.py:1087-1102 | an arrival event succeeds, keeps the system invariant and lowers the rank |
| `AsyncTheorems.TakeTurnKeeps` | StreamInfer/simulation/sim_async.py:532-570 | a worker turn succeeds, keeps the system invariant and lowers the rank |
| `AsyncTheorems.ComputeDoneKeeps` | StreamInfer/simulation/sim_async.py:568-602 | the end of an expert batch turns it into returning replicas, keeps the invariant and lowers the rank |
| `AsyncTheorems.AttentionDoneKeeps` | StreamInfer/simulation/sim_async.py:539-547 | the end of attention spawns one routing process, keeps the invariant and lowers the rank |
| `AsyncTheorems.RouteEventKeeps` | StreamInfer/simulation/sim_async.py:1010-1031 | a routing event with any router answer that names an existing expert succeeds, keeps the invariant and lowers the rank |
| `AsyncTheorems.DeliverKeeps` | StreamInfer/simulation/sim_async.py:1054-1057 | delivering one replica reaches an existing worker and queue (AsyncDelivery.DeliverPlaces says which), keeps the invariant and lowers the rank |
| `AsyncDelivery.DeliverPlaces` | StreamInfer/simulation/sim_async.py:1025-1057 | with the workers owning consecutive blocks of experts, the delivery changes only the worker whose block holds the expert, and in it only the queue at the expert's place in the block, which gets the token at its end |
| `AsyncDelivery.SelectedInOrder` | StreamInfer/simulation/sim_async.py:1059-1079 | the router's answer without its negative placeholders keeps its order |
| `AsyncDelivery.SelectedCounts` | StreamInfer/simulation/sim_async.py:1059-1079 | and keeps every expert as often as it was named |
| `AsyncDelivery.EventBalances` | StreamInfer/simulation/sim_async.py:1010-1057 | every event of the system: arrivals at an expert's queue and replicas still to be sent there change together by what the router names for that expert |
| `AsyncDelivery.ReplicasReachTheirExperts` | StreamInfer/simulation/sim_async.py:1010-1057 | over every run, each expert's queue has received one replica of a token in a layer for every time the router named it, less those still to be sent |
| `AsyncDelivery.RoutedOnce` | StreamInfer/simulation/sim_async.py:1010-1023 | no run routes a token twice in one layer |
| `AsyncDelivery.EachNamedExpertServed` | StreamInfer/simulation/sim_async.py:1010-1057 | when a run cannot go on, each expert's queue has received exactly as many replicas of a token in a layer as the one answer of the router names it |
| `AsyncDelivery.EnqueueAllSorts` | StreamInfer/simulation/sim_async.py:963-975 | work handed over goes, in order, to the end of the attention queue of the GPU that is its token's home, and nowhere else |
| `AsyncDelivery.AttentionStaysHome` | StreamInfer/simulation/sim_async.py:963-975 | over every run attention work is only ever queued and computed on its token's home GPU |
| `AsyncTheorems.ReplicaBackKeeps` | StreamInfer/simulation/sim_async.py:603-611 | returning one replica of a batch succeeds, keeps the invariant and lowers the rank |
| `AsyncTheorems.StepKeeps` | StreamInfer/simulation/sim_async.py:518-611 | every enabled event of the system succeeds, keeps the system invariant and lowers the rank |
| `AsyncTheorems.RunsAreSafe` | StreamInfer/simulation/sim_async.py:1332-1372 | over every run and interleaving: every reached state is consistent, so no copy is lost or doubled and none of the RuntimeErrors is raised |
| `AsyncTheorems.RankBounded` | StreamInfer/simulation/sim_async.py:255-280 | in every consistent state no more tokens have been issued than there are to serve |
| `AsyncTheorems.EveryRunEnds` | StreamInfer/simulation/sim_async.py:1332-1372 | no infinite run exists, whatever the scheduler of events does |
| `AsyncTheorems.ItemsMove` | StreamInfer/simulation/sim_async.py:518-611 | wherever a copy is, its holder has an enabled event |
| `AsyncTheorems.StuckIsIdle` | StreamInfer/simulation/sim_async.py:1332-1372 | a state without enabled events has no live token and no active request, and every request has arrived |
| `AsyncTheorems.NothingAdmitted` | StreamInfer/simulation/sim_async.py:208-212 | a cap of zero admits nothing, so with requests to serve the run is never done |
| `AsyncTheorems.StuckMeansDone` | StreamInfer/simulation/sim_async.py:1332-1372 | a state without enabled events has completed every token exactly once if and only if the cap admits a request or there is none to serve |
| `AsyncTheorems.MaximalRunsComplete` | StreamInfer/simulation/sim_async.py:1332-1372 | every run that cannot go on has completed every token of every request exactly once, given a cap that admits one |
| `AsyncTheorems.RunsCanFinish` | StreamInfer/simulation/sim_async.py:1332-1372 | every run, however it began, has a continuation that completes every token exactly once |
| `AsyncTheorems.RequestDiscipline` | StreamInfer/simulation/sim_async.py:208-291 | over every run: the cap holds, waiting requests mean the cap is used up, first tokens are in arrival order, token ids are issue positions, and each active request has exactly one live token, its newest |
| `AsyncObjects.RequestManager.constructor` | StreamInfer/simulation/sim_async.py:173-206 | a new manager has no requests, no tokens and nothing waiting |
| `AsyncObjects.RequestManager.AdmitRequest` | StreamInfer/simulation/sim_async.py:208-212 | updates the manager in place exactly as the admission step of the protocol, handing over the same work or raising the same error |
| `AsyncObjects.RequestManager.StartRequestNow` | StreamInfer/simulation/sim_async.py:214-236 | in-place start of a request agrees with the protocol's start step |
| `AsyncObjects.RequestManager.HandleTokenCompletion` | StreamInfer/simulation/sim_async.py:238-253 | in-place completion handling agrees with the protocol's completion step |
| `AsyncObjects.RequestManager.DispatchNextToken` | StreamInfer/simulation/sim_async.py:255-280 | in-place issue of the next token agrees with the protocol's issue step, errors included |
| `AsyncObjects.RequestManager.MaybeAdmitQueuedRequests` | StreamInfer/simulation/sim_async.py:282-291 | the loop over waiting requests agrees with the protocol's admission of queued requests |
| `AsyncObjects.ReplicaCounts.RecordCompletion` | StreamInfer/simulation/sim_async.py:305-323 | a replica count goes up, or releases the token with its entry removed at the expected number, or raises on a missing fanout or one completion too many |
| `AsyncObjects.ExpertWorker.Enqueue` | StreamInfer/simulation/sim_async.py:503-510 | in-place enqueue of a replica, with its wakeup, agrees with the worker model |
| `AsyncObjects.ExpertWorker.EnqueueAttention` | StreamInfer/simulation/sim_async.py:512-516 | in-place enqueue of attention work, with its wakeup, agrees with the worker model |
| `AsyncObjects.ExpertWorker.TakeTurn` | StreamInfer/simulation/sim_async.py:532-572 | one pass of the process loop up to its next yield agrees with the worker model |
| `AsyncObjects.ExpertWorker.SelectNextTask` | StreamInfer/simulation/sim_async.py:613-637 | selects what the worker model selects and pops the attention queue only when attention wins |
| `AsyncObjects.ExpertWorker.TakeBatch` | StreamInfer/simulation/sim_async.py:553-558 | the nested popping loops take exactly the batch of the model and lower the cached length by its size |
| `AsyncObjects.ArgMax` | StreamInfer/simulation/sim_async.py:657-672 | the scan for the best score finds the first greatest positive one |
| `AsyncObjects.SelectNextLayerLongestFirst` | StreamInfer/simulation/sim_async.py:657-672 | the longest-queue-first loop selects the layer the model selects |
| `AsyncObjects.DefraggingScore` | StreamInfer/simulation/sim_async.py:674-732 | the decayed cyclic lookahead loop computes the model's score of a layer |
| `AsyncObjects.SelectNextLayerDefragging` | StreamInfer/simulation/sim_async.py:674-732 | the defragmenting loop selects the layer the model selects |
| `HelixEncoding.EdgesAreProper` | sglang_dummy_prefill/helix_pp/full_placement.py:214-220 | the directed edges built from the links never leave the sink nor enter the source |
| `HelixEncoding.EdgesFollowLinks` | sglang_dummy_prefill/helix_pp/full_placement.py:213-221 | there is an edge between two nodes exactly if a link joins them in either direction, it does not leave the sink and does not enter the source; so the throughput lookup never fails on an edge |
| `HelixEncoding.ThroughputByIndex` | sglang_dummy_prefill/helix_pp/full_placement.py:461-468 | an edge has the throughput of the last link along it, and without one that of the last link against it |
| `HelixObjects.BuildDirectedEdges` | sglang_dummy_prefill/helix_pp/full_placement.py:213-221 | the loop over the links yields every directed edge once |
| `HelixObjects.BuildLinkMap` | sglang_dummy_prefill/helix_pp/full_placement.py:186-188 | the link map records for each pair of nodes the last link that joins exactly that pair |
| `HelixObjects.LookUpThroughput` | sglang_dummy_prefill/helix_pp/full_placement.py:461-468 | the lookup tries the edge's own direction, then the other, and fails exactly when no link joins the two nodes |
| `HelixEncoding.RowByRow` | sglang_dummy_prefill/helix_pp/full_placement.py:248-392 | the row system holds exactly when the rows of each GPU and of each edge hold |
| `HelixMeaning.InTermsAreInflow` | sglang_dummy_prefill/helix_pp/full_placement.py:259-266 | the terms collected from a GPU's neighbours evaluate to all flow into that GPU, each edge once |
| `HelixMeaning.OutTermsAreOutflow` | sglang_dummy_prefill/helix_pp/full_placement.py:259-266 | the terms collected from a GPU's neighbours evaluate to all flow out of that GPU, each edge once |
| `HelixMeaning.ObjectiveIsSourceFlow` | sglang_dummy_prefill/helix_pp/full_placement.py:394-399 | the objective is the total flow that leaves the source |
| `HelixTheorems.ExactlyOne` | sglang_dummy_prefill/helix_pp/full_placement.py:249-254 | binary variables that sum to one have exactly one that is one |
| `HelixTheorems.DecodedRange` | sglang_dummy_prefill/helix_pp/full_placement.py:248-257 | a feasible vector decodes, GPU by GPU, to a non-empty layer range inside the model |
| `HelixTheorems.PlacementRowsMean` | sglang_dummy_prefill/helix_pp/full_placement.py:248-257 | the placement rows hold exactly when the layer counts sum to one choice and the end stays within the model |
| `HelixTheorems.SourceRowsMean` | sglang_dummy_prefill/helix_pp/full_placement.py:293-302 | the source rows mean, in both modes, their linear conditions on switch and start |
| `HelixTheorems.SinkRowsMean` | sglang_dummy_prefill/helix_pp/full_placement.py:303-318 | the sink rows mean, in both modes, their linear conditions on switch and end |
| `HelixTheorems.StrictRowsMean` | sglang_dummy_prefill/helix_pp/full_placement.py:370-386 | without partial inference the rows mean the two-sided condition on end and start |
| `HelixTheorems.PartialRowsMean` | sglang_dummy_prefill/helix_pp/full_placement.py:321-368 | with partial inference the six rows mean the big-M system on switch and conditions |
| `HelixTheorems.SwitchedOnIsOpen` | sglang_dummy_prefill/helix_pp/full_placement.py:289-386 | an edge that is switched on is open: its start, end or overlap condition holds for the decoded placement |
| `HelixTheorems.Sound` | sglang_dummy_prefill/helix_pp/full_placement.py:248-399 | every feasible vector decodes to a valid placement and flow whose source flow is the objective |
| `HelixTheorems.Complete` | sglang_dummy_prefill/helix_pp/full_placement.py:248-399 | every valid placement and flow encodes to a feasible vector with the same flow that decodes back to the same placement, outside the one-layer full system |
| `HelixTheorems.OneLayerInfeasible` | sglang_dummy_prefill/helix_pp/full_placement.py:306-312 | for a one-layer model the full system's sink row asks zero to reach the end: no vector is feasible |
| `HelixTheorems.CompleteExactly` | sglang_dummy_prefill/helix_pp/full_placement.py:248-399 | a valid placement and flow has a feasible vector if and only if the model has two layers, or redundant rows are removed, or no edge reaches the sink |
| `HelixTheorems.FullSwitchIsExact` | sglang_dummy_prefill/helix_pp/full_placement.py:289-368 | in the full system the switch of a terminal edge, and with partial inference of any edge, is on exactly when the edge is open |
| `HelixTheorems.RedundantRowsDoNotMatter` | sglang_dummy_prefill/helix_pp/full_placement.py:172-174 | a vector feasible for either system is repaired to one feasible for the other with the same flow on every edge and the same objective |
| `HelixSwitch.SwitchedOffIsFeasible` | sglang_dummy_prefill/helix_pp/full_placement.py:370-386 | without partial inference the switch of any edge between GPUs that carries no flow can be turned off in every feasible vector, with the same placement and flow |
| `HelixSwitch.OpenYetOff` | sglang_dummy_prefill/helix_pp/full_placement.py:370-386 | an edge between GPUs that can be placed end to end has a feasible vector in which it is open and switched off |
| `HelixSwitch.SwitchExactly` | sglang_dummy_prefill/helix_pp/full_placement.py:289-386 | a switch of the full system is exact in every feasible vector if and only if partial inference is allowed, or the edge is terminal, or its two GPUs cannot be placed end to end |
| `HelixSwitch.TwoGpusSwitchOff` | sglang_dummy_prefill/helix_pp/full_placement.py:370-386 | the concrete case of two GPUs and two layers: a feasible vector with the edge between them open and switched off |
| `HelixFlow.CarriedEdge` | sglang_dummy_prefill/helix_pp/full_placement.py:388-392 | an edge with flow is open and goes from a lower to a higher layer rank |
| `HelixFlow.NoCycles` | sglang_dummy_prefill/helix_pp/full_placement.py:259-392 | the positive flow of a solution never comes back to a node |
| `HelixFlow.SourceFlowIsSinkFlow` | sglang_dummy_prefill/helix_pp/full_placement.py:259-274 | what leaves the source equals what reaches the sink |
| `HelixFlow.FlowGoesOn` | sglang_dummy_prefill/helix_pp/full_placement.py:259-274 | a GPU receives flow exactly when it passes some on |
| `HelixFlow.EveryEdgeOnPipeline` | sglang_dummy_prefill/helix_pp/full_placement.py:259-392 | every edge with flow lies on a path of flow from source to sink |
| `HelixFlow.PipelineStage` | sglang_dummy_prefill/helix_pp/full_placement.py:289-386 | on such a path each GPU starts no later than its predecessor ends, and exactly there without partial inference |
| `HelixFlow.PipelineTilesModel` | sglang_dummy_prefill/helix_pp/full_placement.py:289-386 | on such a path every layer of the model runs on exactly one GPU, which holds it |
| `HelixPipeline.BuildPipelineRows` | sglang_dummy_prefill/helix_pp/placement.py:233-262 | the loops emit one configuration row per GPU, the row of all layers, and one bottleneck row per GPU with the table's throughputs |
| `HelixPipeline.Extract` | sglang_dummy_prefill/helix_pp/placement.py:295-310 | extraction returns the chosen layer counts, or fails exactly on a GPU without layers or on a wrong total |
| `HelixPipeline.PartitionSound` | sglang_dummy_prefill/helix_pp/placement.py:233-260 | a feasible single-pipeline vector gives layer counts within bounds that add up to the model, and no stage is slower than the bottleneck variable |
| `HelixPipeline.PipelineComplete` | sglang_dummy_prefill/helix_pp/placement.py:233-260 | layer counts within bounds that add up to the model have a feasible vector with any bottleneck that no stage is slower than, and it reads back as those counts |
| `HelixPipeline.RejectedCounts` | sglang_dummy_prefill/helix_pp/placement.py:295-304 | for any tables, some feasible vector is rejected by extraction exactly when admissible layer counts leave a GPU without layers |
| `HelixPipeline.RejectedExactly` | sglang_dummy_prefill/helix_pp/placement.py:295-304 | for non-negative tables, some feasible vector is rejected if and only if the minimum is zero and the other GPUs of some GPU can hold the model |
| `HelixPipeline.ZeroMinimumRejected` | sglang_dummy_prefill/helix_pp/placement.py:295-304 | the concrete case of one layer on two GPUs with a minimum of zero: a feasible vector that extraction rejects |
| `HelixPipeline.BuildFullyConnectedEdges` | sglang_dummy_prefill/helix_pp/full_placement.py:471-491 | the nested loops emit the source and sink links of every GPU and the links of all ordered pairs |
| `HelixPipeline.PipelineIsSolution` | sglang_dummy_prefill/helix_pp/full_placement.py:248-399 | a single pipeline whose GPUs all got layers, laid end to end with its bottleneck as flow, is a solution of the full problem on a fully connected network that runs those counts as fast |
| `HelixPipeline.FullOptimumAtLeastPipeline` | sglang_dummy_prefill/helix_pp/full_placement.py:394-399 | the full system attains the bottleneck throughput of every such pipeline |
| `HelixObjects.VarRegistry.Alloc` | sglang_dummy_prefill/helix_pp/full_placement.py:62-104 | a new name gets the next index and a used name is refused |
| `HelixObjects.DeclareVariables` | sglang_dummy_prefill/helix_pp/full_placement.py:200-235 | the declaration loops register every variable once, in order; the duplicate check never fires |
| `HelixObjects.DeclarationsMeanBounds` | sglang_dummy_prefill/helix_pp/full_placement.py:200-235 | the declared bounds and integrality marks are exactly the bounds of the system |
| `HelixObjects.BuildRows` | sglang_dummy_prefill/helix_pp/full_placement.py:248-392 | the constraint loops emit exactly the rows of the system, in both modes |
| `HelixObjects.BuildFlowRows` | sglang_dummy_prefill/helix_pp/full_placement.py:259-287 | the neighbour loops emit exactly the conservation and capacity rows, with the table's throughput for each layer count and zero for a count without entry |
| `HelixObjects.CollectNeighbours` | sglang_dummy_prefill/helix_pp/full_placement.py:182-196 | the adjacency loop lists the neighbours in the order the links mention them |
| `HelixObjects.EmitSwitchRows` | sglang_dummy_prefill/helix_pp/full_placement.py:289-386 | the branches for source, sink, partial and strict edges emit exactly their rows, coefficient by coefficient |
| `HelixObjects.BuildThroughputRows` | sglang_dummy_prefill/helix_pp/full_placement.py:388-392 | edge by edge a row that bounds the flow by the throughput times the switch, where the throughput is that of the last link along the edge, else of the last link against it |
| `HelixObjects.ConstraintBuilder.Add` | sglang_dummy_prefill/helix_pp/full_placement.py:107-143 | adding a row appends its dense form and its two bounds |
| `HelixObjects.DenseRowValue` | sglang_dummy_prefill/helix_pp/full_placement.py:107-143 | a dense row evaluates, on every vector, to the sum of its sparse coefficients times their variables |
| `HelixCompiler.DeclaredMentioned` | sglang_dummy_prefill/helix_pp/full_placement.py:200-235 | every variable the rows speak of has been declared |
| `HelixCompiler.IndexedValue` | sglang_dummy_prefill/helix_pp/full_placement.py:62-104 | a row looked up by index has, on a flat vector, the value of the named row |
| `HelixCompiler.CompiledMeansFeasible` | sglang_dummy_prefill/helix_pp/full_placement.py:401-418 | the arrays accept a flat vector exactly when the assignment it stands for is feasible |
| `HelixCompiler.BuildObjective` | sglang_dummy_prefill/helix_pp/full_placement.py:394-399 | the objective array has minus one at the index of every flow out of the source and zero elsewhere |
| `HelixCompiler.Compile` | sglang_dummy_prefill/helix_pp/full_placement.py:200-418 | bounds, integrality, matrix, limits and objective handed to the solver mean the named system: a flat vector is accepted if and only if it is feasible, and scored with minus the source flow |
| `HelixTheorems.RoundIsNearest` | sglang_dummy_prefill/helix_pp/full_placement.py:420-425 | rounding yields a nearest integer, the even one of two |
| `HelixObjects.ExtractLayers` | sglang_dummy_prefill/helix_pp/full_placement.py:420-430 | the extraction loop reads the decoded start and layer count of every GPU |
| `Balance.LeastLoadedIsLeast` | sglang_dummy_prefill/gating_profiles/balance_experts.py:72-79 | the chosen GPU has room, is least loaded among those with room, and is the first of them |
| `Balance.PlacedIsGood` | sglang_dummy_prefill/gating_profiles/balance_experts.py:70-85 | after every placement: experts placed once, no GPU over capacity, loads of GPUs with room within the last count placed, and a GPU with room while experts remain |
| `Balance.FinishedPlan` | sglang_dummy_prefill/gating_profiles/balance_experts.py:54-97 | the finished plan fills every GPU, places every expert once, and any two loads differ by at most the largest count |
| `Balance.PopWithRoom` | sglang_dummy_prefill/gating_profiles/balance_experts.py:73-82 | popping until a GPU has room, with full ones pushed back, yields the least loaded GPU with room and the heap without it |
| `Balance.AssignExperts` | sglang_dummy_prefill/gating_profiles/balance_experts.py:66-85 | the heap loop computes the longest-processing-time-first placement |
| `Balance.BuildMapping` | sglang_dummy_prefill/gating_profiles/balance_experts.py:87-97 | the mapping loop numbers the slots of every GPU |
| `Balance.EveryExpertPlaced` | sglang_dummy_prefill/gating_profiles/balance_experts.py:87-97 | every expert has a slot |
| `Balance.MappingIsBijection` | sglang_dummy_prefill/gating_profiles/balance_experts.py:87-97 | the mapping is a permutation of the expert ids |
| `Balance.RemapCounts` | sglang_dummy_prefill/gating_profiles/balance_experts.py:211-214 | counts move to the new ids of their experts |
| `Balance.RemappedLoad` | sglang_dummy_prefill/gating_profiles/balance_experts.py:100-102 | a GPU's load after renaming is the sum of the counts of the experts given to it |
| `Balance.BalanceLayer` | sglang_dummy_prefill/gating_profiles/balance_experts.py:201-215 | balancing a layer yields a permutation after which any two GPUs differ by at most the largest expert count |
| `Tbo.LaunchKeeps` | StreamInfer/simulation/sim_tbo.py:901-1000 | launching the chosen microbatch's next step keeps the schedule valid and the finish-time bounds |
| `Tbo.ChosenIsEarliest` | StreamInfer/simulation/sim_tbo.py:920-950 | the microbatch launched starts no later than the other one could; at the same time a transfer goes before a compute, and of two alike microbatch 0 goes first |
| `Tbo.NextLaunch` | StreamInfer/simulation/sim_tbo.py:926-949 | the least candidate by start, kind and microbatch is the launch the schedule is built on |
| `Tbo.ScheduleResources` | StreamInfer/simulation/sim_tbo.py:901-1000 | every step is placed; computes never overlap, each step follows its predecessor, and finish times are at most all computes plus the microbatch's own transfers before its last compute |
| `Tbo.ComputesTakeTime` | StreamInfer/simulation/sim_tbo.py:901-1000 | in any valid schedule non-overlapping computes take at least their total |
| `Tbo.ChainTakesTime` | StreamInfer/simulation/sim_tbo.py:674-698 | in any valid schedule a microbatch's chain takes at least its total |
| `Tbo.TransfersFit` | StreamInfer/simulation/sim_tbo.py:674-698 | a microbatch's transfers before its last compute fit into any valid schedule |
| `Tbo.TwiceTheBest` | StreamInfer/simulation/sim_tbo.py:901-1000 | greedy finish times are at most twice the makespan of any valid schedule |
| `Tbo.TasksAlternate` | StreamInfer/simulation/sim_tbo.py:681-689 | layer by layer the four steps are attention, dispatch, experts and combine with that layer's times, so computes and transfers alternate |
| `Tbo.LayersAddUp` | StreamInfer/simulation/sim_tbo.py:681-689 | the computes add up to the attention and experts times of all layers, the transfers before the last compute to all dispatch times and all combine times but the last |
| `Tbo.ScheduleFollowsLayers` | StreamInfer/simulation/sim_tbo.py:681-689 | in any valid schedule a layer's experts start only after its attention and dispatch times, the next layer only after its experts and combine times, and the microbatch finishes with the last layer's experts |
| `Tbo.RunIteration` | StreamInfer/simulation/sim_tbo.py:664-705 | one iteration follows both microbatches' layer times; each finishes within all attention and experts times plus its own dispatch times and its own combine times but the last; the makespan is the later finish, at least all compute, and at most twice as long as any valid schedule |
| `KvPages.PageChainHashes` | StreamInfer/disagmoe/kv_loader.py:44-55 | the loop yields one digest per full page, each the hash of the previous digest and the packed page |
| `KvPages.PackedAt` | StreamInfer/disagmoe/kv_loader.py:52-52 | token i of a page is the little-endian value of bytes 4 i to 4 i + 3 |
| `KvPages.MessageLayout` | StreamInfer/disagmoe/kv_loader.py:50-53 | what is hashed for a page is the previous page's digest followed by the page's 16 tokens in order, four bytes each |
| `KvPages.PackInjective` | StreamInfer/disagmoe/kv_loader.py:50-52 | packing token ids into bytes loses nothing |
| `KvPages.SamePrefixSameDigest` | StreamInfer/disagmoe/kv_loader.py:44-55 | prompts that agree up to the end of a page have the same address for it |
| `KvPages.DigestFixesPrefix` | StreamInfer/disagmoe/kv_loader.py:44-55 | equal page addresses mean equal page index and equal prefix, or exhibit two different messages with the same hash |
| `KvPages.AddressesArePrefixes` | StreamInfer/disagmoe/kv_loader.py:44-55 | without a hash collision between two prompts, page addresses are equal exactly when index and whole prefix are |
| `KvHandoff.StepKeeps` | StreamInfer/disagmoe/kv_loader.py:144-234 | every event of engine and workers keeps the hand-off, phase and job-accounting invariant (KvOutcomes says what the records and counters tell) |
| `KvHandoff.RunsKeepInv` | StreamInfer/disagmoe/kv_loader.py:144-234 | the invariant holds in every state of every interleaving |
| `KvHandoff.InstallReadsItsOwnPages` | StreamInfer/disagmoe/kv_loader.py:194-234 | when the engine is about to install a record its worker waits and the staging buffer holds the pages of that very job |
| `KvHandoff.ReportedAtMostOnce` | StreamInfer/disagmoe/kv_loader.py:188-192 | no job is ever reported by two records |
| `KvHandoff.OnePlace` | StreamInfer/disagmoe/kv_loader.py:144-234 | in every reachable state a submitted job is queued, in a worker's hand or in one record, and only an unservable one is with a dead worker |
| `KvLiveness.RunsInOrder` | StreamInfer/disagmoe/kv_loader.py:157-165 | over every run the taken jobs are a prefix of the submitted ones, the dead workers are its unservable jobs, and none was taken after the last worker died |
| `KvLiveness.QuietMeans` | StreamInfer/disagmoe/kv_loader.py:157-192 | where nothing can happen without a submission, every worker is idle with an empty queue or dead, and all records are installed |
| `KvLiveness.ServedExactly` | StreamInfer/disagmoe/kv_loader.py:157-192 | where a run cannot go on without a submission, a prompt has been installed once if it is servable and fewer unservable prompts than workers were submitted before it, and never otherwise |
| `KvLiveness.OversizeStarves` | StreamInfer/disagmoe/kv_loader.py:164-166 | the concrete case of one worker and a one-page buffer: an oversize prompt leaves a fitting one queued for ever |
| `KvLiveness.RunsEnd` | StreamInfer/disagmoe/kv_loader.py:157-234 | without submissions a run takes at most as many steps as queued jobs, attempts, records and releases are left |
| `KvOutcomes.RunsAgree` | StreamInfer/disagmoe/kv_loader.py:162-189 | over every run the reads made for a job agree with where it is: none while it is queued, only incomplete ones, as many as counted, while it is fetched |
| `KvOutcomes.RecordsTellTheReads` | StreamInfer/disagmoe/kv_loader.py:172-190 | over every run a record of a job with pages is a success exactly if one of the job's reads was complete, and a failure exactly if three were incomplete; a job without pages succeeds without a read |
| `KvOutcomes.ServableMeans` | StreamInfer/disagmoe/kv_loader.py:162-170 | a prompt is served exactly if it has no full page, or its full pages fit the buffer and four bytes hold each of their token ids |
| `KvOutcomes.InstallReleases` | StreamInfer/disagmoe/kv_loader.py:194-234 | an installation, raised or not, releases the record's own waiting worker and no other, and touches no buffer |
| `KvOutcomes.PolledInOrder` | StreamInfer/disagmoe/kv_loader.py:147-155 | the engine gets the records in the order they were reported, and none is lost |
| `KvOutcomes.CountersTellTheInstalls` | StreamInfer/disagmoe/kv_loader.py:194-234 | loaded is the number of installations of successful records that did not raise, rejected the number of all others |
| `Sampler.RealSampler.CreateRequest` | StreamInfer/disagmoe/sampler.py:50-55 | an empty prompt is refused; otherwise the request starts with an empty count, its budget and all tokens but the first forced; other requests keep their books |
| `Sampler.RealSampler.AdmitData` | StreamInfer/disagmoe/sampler.py:57-88 | admission feeds the token after the loaded positions and forces the rest at the cost of the budget; it raises on tokens that do not reach past the load, and on forced tokens of a request never created; other requests keep their books |
| `Sampler.RealSampler.CleanRequest` | StreamInfer/disagmoe/sampler.py:90-92 | removes the request from all four tables and nothing else |
| `Sampler.RealSampler.StepRow` | StreamInfer/disagmoe/sampler.py:103-120 | one row emits the forced or sampled token, finishes exactly on an end token or a used-up budget, and an unknown request is an error |
| `Sampler.RealSampler.Step` | StreamInfer/disagmoe/sampler.py:94-127 | the batch loop does the rows in order: tokens per row, rows that go on, requests that finish, and the books afterwards; at a row of an unknown request it stops with the rows before it done |
| `Sampler.OthersUntouched` | StreamInfer/disagmoe/sampler.py:102-120 | a batch of distinct live requests succeeds and leaves requests outside it alone |
| `Sampler.RowsAreIndependent` | StreamInfer/disagmoe/sampler.py:102-120 | in a batch of distinct requests each row emits and leaves exactly what its own step on the earlier books gives |
| `Sampler.BatchesRunRequest` | StreamInfer/disagmoe/sampler.py:94-127 | over any sequence of batches, with other requests coming and going, a request emits exactly what it would emit alone on the tokens sampled at its own rows, and is gone exactly when it has finished |
| `Sampler.ForcedInOrder` | StreamInfer/disagmoe/sampler.py:104-107 | while forced tokens last they come out in order and never finish the request |
| `Sampler.ForcedThenSampled` | StreamInfer/disagmoe/sampler.py:103-112 | a longer run is the forced tokens followed by a run without any |
| `Sampler.SampledWithinBudget` | StreamInfer/disagmoe/sampler.py:108-112 | without forced tokens a run emits the samples, stops exactly at an end token or the budget, and has stopped after the budget, at least one |
| `Sampler.ReplayIsExact` | StreamInfer/disagmoe/sampler.py:61-79 | with the page-aligned prefix loaded, loaded tokens, fed token and forced tokens are the prompt and its first token, once and in order |
| `Sampler.WarmStartIsExact` | StreamInfer/disagmoe/sampler.py:80-88 | without loaded KV the fed token and the forced tokens are the prompt, once and in order |
| `Sampler.StepsWithinBudget` | StreamInfer/disagmoe/sampler.py:94-127 | any request takes its forced tokens plus its remaining budget, at least one, and fewer steps only when an end token is sampled |
| `Sampler.StepsAreBounded` | StreamInfer/disagmoe/sampler.py:70-76 | after a page-aligned load the request takes the larger of its budget and its forced tokens plus one, and fewer steps only when an end token is sampled |
| `SyncSim.ServeOne` | StreamInfer/simulation/sim_sync.py:656-663 | serving one batch of a queue pays exactly that batch of the queue's closed-form cost |
| `SyncSim.LongestQueue` | StreamInfer/simulation/sim_sync.py:654-654 | the longest queue, first on ties |
| `SyncSim.SumLoads` | StreamInfer/simulation/sim_sync.py:647-647 | the token total is the sum of the queues |
| `SyncSim.SimulateWorkerCompute` | StreamInfer/simulation/sim_sync.py:646-665 | the longest-queue-first drain serves every token; its time and batch count are the order-free sums of full batches and one remainder batch per queue |
| `SyncSim.RunPort` | StreamInfer/simulation/sim_async.py:44-68 | on the event-driven two-channel port, idle or busy, the last of a group of transfers completes when the later channel has worked off its backlog and total; on an idle port that is the larger of the two totals |
| `SyncSim.FirstComeFirstServed` | StreamInfer/simulation/sim_async.py:60-68 | a channel is first come, first served: a transfer completes its own delay after the backlog it found, whatever is requested later |
| `SyncSim.TotalIsOrderFree` | StreamInfer/simulation/sim_sync.py:504-521 | the closed form does not depend on the order in which transfers are queued |
| `SyncSim.RouteLayer` | StreamInfer/simulation/sim_sync.py:594-644 | routing fails exactly on a token without experts or with an expert id out of range; otherwise queue counts and per-source counts are those of the replicas |
| `SyncSim.QueueOfExpert` | StreamInfer/simulation/sim_sync.py:594-644 | what queue q of worker w counts are the replicas for expert w times the queues per worker plus q |
| `SyncSim.LoadsAreTransfers` | StreamInfer/simulation/sim_sync.py:546-570 | the tokens a worker serves are the tokens its port receives, summed over the sending GPUs |
| `TokenBucket.RefillCovers` | interference_gen/ucx_sender.c:159-166 | a refill under any rate up to the fastest keeps every past interval covered |
| `TokenBucket.GrantCovers` | interference_gen/ucx_sender.c:177-180 | a grant is paid by tokens: every interval of grants stays within a burst plus the fastest rate times its length |
| `TokenBucket.RunsAreSane` | interference_gen/ucx_sender.c:378-434 | over every run of a schedule tokens stay within the burst, and every interval of grants, and the whole run, fits into one burst plus the fastest rate times its length |
| `TokenBucket.TakeBalances` | interference_gen/ucx_sender.c:159-181 | one turn: tokens before plus tokens earned are the tokens left, one message if granted, and what a full bucket cannot take; a refusal leaves less than a message |
| `TokenBucket.RunsBalance` | interference_gen/ucx_sender.c:152-210 | over every run the first burst plus all that is earned, each stretch at the rate of the window of its refill, equals tokens left plus bytes granted plus tokens spilled |
| `TokenBucket.WindowBound` | interference_gen/ucx_sender.c:397-434 | the grants of each window fit into one burst plus that window's own rate times the time between them |
| `TokenBucket.ScheduleBoundsExactly` | interference_gen/ucx_sender.c:397-434 | the schedule's own rate over the run bounds the bytes, for every message size, burst and environment, if and only if all windows have the same rate or all are idle |
| `TokenBucket.LateRefillOutrunsSchedule` | interference_gen/ucx_sender.c:159-166 | the concrete case of one-second windows at one byte per second and idle: four bytes in two seconds where burst and schedule allow three |
| `PacedSender.Sender.constructor` | interference_gen/ucx_sender.c:152-157 | the bucket starts full |
| `PacedSender.Sender.Refill` | interference_gen/ucx_sender.c:159-166 | tokens grow by the current rate times all time since the last refill, capped at the burst |
| `PacedSender.Sender.TryTake` | interference_gen/ucx_sender.c:174-181 | one turn refills and grants exactly when a message's tokens are there, as the replay of the run does |
| `PacedSender.Sender.Consume` | interference_gen/ucx_sender.c:172-210 | success is one grant; refusal means interrupted or past the deadline, and grants nothing |
| `PacedSender.DeficitEarns` | interference_gen/ucx_sender.c:187-192 | the wait is the whole nanoseconds in which the current rate earns the missing tokens, cut off at the deadline |
| `PacedSender.Sender.Progress` | interference_gen/ucx_sender.c:215-219 | completion callbacks only lower the number of sends in flight, never below zero |
| `PacedSender.Sender.PostSend` | interference_gen/ucx_sender.c:353-373 | a posted message is counted once and raises the sends in flight by at most one; a failed one counts nothing |
| `PacedSender.Sender.SendOne` | interference_gen/ucx_sender.c:416-433 | one message of an open window is granted before it is posted, with fewer sends in flight than the limit |
| `PacedSender.Sender.SendWindow` | interference_gen/ucx_sender.c:415-434 | the sends of a window end past its end or interrupted, and follow the replay of the run |
| `PacedSender.Sender.OpenWindow` | interference_gen/ucx_sender.c:405-406 | a window sets its rate and leaves the tokens as they are |
| `PacedSender.Sender.RunWindow` | interference_gen/ucx_sender.c:397-434 | a window runs at its own rate, leaves the tokens alone when idle, and its grants fit into one burst plus that rate times the time between them |
| `PacedSender.Sender.RunRateLoop` | interference_gen/ucx_sender.c:378-434 | over any schedule and environment the bytes sent are at most one burst plus the fastest rate times the elapsed time, for the whole run and every interval, and each window keeps its own bound |
| `PacedSender.RateWithinCapacity` | interference_gen/interfere.py:143-153 | a window's rate and its bandwidth, scaled by capacity over maximum, make up the capacity; the rate lies between zero and the capacity and is zero for a window at the maximum throughout |
| `PacedSender.ScaleTrace` | interference_gen/interfere.py:136-153 | as many rates as windows of the given size are needed to cover the samples; rate k complements the mean of the samples from k times the size on, scaled so that the trace's maximum is the capacity, and is zero for a window at the maximum; all within the capacity |
| `PacedSender.SplitRates` | interference_gen/interfere.py:392-393 | each stream's rates are within an equal share of the capacity and add up again |
| `PacedSender.StreamsWithinCapacity` | interference_gen/interfere.py:392-413 | N senders on rates within an N-th of the capacity send together at most N bursts plus the capacity times the time from the first start to the last end |
| `PacedSender.RunClient` | interference_gen/interfere.py:370-413 | from trace to bytes: scaled, split and replayed by N senders under any clocks and network, all streams together stay within N bursts plus the capacity times the elapsed time |

## Left out

- Simulated time: service times, network delays, arrival gaps and the port's effect on the barrier-free simulator; its events may happen in any order, which includes the timed ones.
- The simulator's saturation stop, warm-up counters, metrics, plots and debug output.
- The per-queue scheduling policies of the simulator, which its worker loop never calls.
- The router itself: it may answer anything with at least one expert and only existing ones; the errors of the code for other answers are not events of the system.
- The MILP solver, its time limit and tolerances; variables range over the reals and integers exactly, so rounding in extraction is exact too.
- Variable names as strings: variables are named by structured values.
- The filter that drops flows below 1e-6 and the flag that reports partial inference.
- The tables from which stage throughputs are computed.
- Argsort and heapq: any descending order of experts, and a heap with its minimum on top.
- Splitting requests into microbatches and the communication model of the overlap scheduler: its step durations are inputs.
- Request admission and iteration of the barrier simulator, and its statistics.
- SHA-256: any hash into 32 bytes; addresses are compared up to an explicit collision. Hex encoding of digests.
- The GPU side of a KV install: block allocation, copies and scatters; an install either raises or not. The hand-off is a state machine over queues, not threads in place.
- The norm, projection and argmax of the sampler, and the embedding rows it returns: the sampled token is an input.
- PacedSender.Sender.Refill: real arithmetic instead of doubles, and a clock that never goes back.
- PacedSender.ScaleTrace: takes the positive bandwidths of the cleaned trace and the samples per window; parsing, warm-up removal, the congestion multiplier and calibration are left out.
- SyncSim.RunPort: a group of transfers requested at one time; transfers that arrive while the group is served are not described.
- HelixPipeline.BuildPipelineRows: a layer count that the table lacks has throughput zero, where the code raises a KeyError.
- HelixObjects.BuildThroughputRows: for an edge between nodes that no link joins it emits a zero bound, where the code raises; no edge of the links is like that (HelixEncoding.EdgesFollowLinks).
- HelixPipeline.RejectedExactly: is stated for throughput tables without negative entries; HelixPipeline.RejectedCounts has no such condition.
- Progress of the sender, which depends on the network and on a burst of at least one message.
- The ring node, the receiver, the schedule file format, profile generation, plotting and the serving engine around these parts, which are input, output and wiring.

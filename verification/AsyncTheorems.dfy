/**
 Theorems about every run of the barrier-free simulator: no error is ever raised and no
 copy of a token is lost (safety), some event is enabled until everything is finished
 (no deadlock), and every run ends (a rank drops at each event).
 */
module AsyncTheorems {
  import opened Wrappers
  import opened Counting
  import opened AsyncCore
  import opened AsyncProtocol
  import opened AsyncWorker
  import opened AsyncSystem

  // ---------- the rank ----------

  function BatchSize(phase: Phase): nat {
    match phase
    case Computing(_, batch) => |batch|
    case Returning(_, batch) => |batch|
    case _ => 0
  }

  function Queued(w: Worker): nat {
    if w.total < 0 then 0 else w.total
  }

  /** Replicas held by a worker. */
  function WorkerReplicas(w: Worker): nat {
    Queued(w) + BatchSize(w.phase)
  }

  function ProcReplicas(p: Proc): nat {
    match p
    case Routing(_) => 0
    case Sending(_, experts) => |experts|
  }

  /** How far a worker's items still have to move before they leave it. */
  function WorkerMotion(w: Worker): nat {
    6 * |w.attention| + 6 * Queued(w) +
    match w.phase
    case Ready => 1
    case Asleep => 0
    case Attending(_) => 4
    case Computing(_, batch) => 4 * |batch|
    case Returning(_, batch) => 2 * |batch|
  }

  function ProcMotion(p: Proc): nat {
    match p
    case Routing(_) => 2
    case Sending(_, experts) => 8 * |experts|
  }

  function UnroutedLayers(numLayers: nat): Token -> nat {
    (token: Token) => if |token.fanout| <= numLayers then numLayers - |token.fanout| else 0
  }

  function TotalTokens(c: Config): nat {
    c.totalRequests * c.tokensPerRequest
  }

  function Unissued(c: Config, s: State): int {
    TotalTokens(c) - |s.core.mgr.tokens|
  }

  ghost function Unrouted(c: Config, s: State): nat {
    Sum(UnroutedLayers(c.numLayers), s.core.mgr.tokens)
  }

  ghost function Replicating(s: State): nat {
    Sum(WorkerReplicas, s.workers) + Sum(ProcReplicas, s.procs)
  }

  ghost function Outstanding(c: Config, s: State): int {
    Replicating(s) + c.totalRequests - s.core.arrived
  }

  ghost function Motion(s: State): nat {
    Sum(WorkerMotion, s.workers) + Sum(ProcMotion, s.procs)
  }

  /** Lexicographic descent in: tokens to issue, layers to route, replicas and requests to come, distance to move. */
  ghost predicate RankDrops(c: Config, s: State, s': State) {
    || Unissued(c, s') < Unissued(c, s)
    || (&& Unissued(c, s') == Unissued(c, s)
        && (|| Unrouted(c, s') < Unrouted(c, s)
            || (&& Unrouted(c, s') == Unrouted(c, s)
                && (|| Outstanding(c, s') < Outstanding(c, s)
                    || (Outstanding(c, s') == Outstanding(c, s) && Motion(s') < Motion(s))))))
  }

  // ---------- handing work to attention queues ----------

  lemma {:induction false} EnqueueAllKeeps(c: Config, tokens: seq<Token>, workers: seq<Worker>, works: seq<Work>)
    requires |workers| == c.numWorkers
    requires forall w :: 0 <= w < |workers| ==> WorkerOk(c, workers[w])
    requires forall i :: 0 <= i < |works| ==> works[i].ref < |tokens| && tokens[works[i].ref].home < c.numWorkers
    ensures var r := EnqueueAll(tokens, workers, works);
            && r.Success?
            && |r.value| == |workers|
            && (forall w :: 0 <= w < |workers| ==> WorkerOk(c, r.value[w]))
            && Bag(WorkerItems, r.value) == Bag(WorkerItems, workers) + AttentionItems(works)
            && Sum(WorkerReplicas, r.value) == Sum(WorkerReplicas, workers)
    decreases |works|
  {
    hide WorkerOk, WorkerItems, Bag, Sum;
    if works != [] {
      var home := tokens[works[0].ref].home;
      var worker := EnqueueAttention(workers[home], works[0]);
      var workers' := workers[home := worker];
      EnqueueAttentionKeeps(c, workers[home], works[0]);
      EnqueueAllKeeps(c, tokens, workers', works[1..]);
      BagGain(WorkerItems, workers, home, worker, multiset{Item(works[0].ref, works[0].layer, Attention)});
      SumUpdate(WorkerReplicas, workers, home, worker);
    }
  }

  lemma {:induction false} AttentionItemsContain(works: seq<Work>, i: nat)
    requires i < |works|
    ensures Item(works[i].ref, works[i].layer, Attention) in AttentionItems(works)
  {
    if i > 0 {
      AttentionItemsContain(works[1..], i - 1);
    }
  }

  /** Every handed-over work names a live token whose home GPU exists. */
  lemma {:induction false} WorksHaveHomes(c: Config, s: Core, items: multiset<Item>, works: seq<Work>)
    requires c.WellFormed() && Inv(c, s, items + AttentionItems(works))
    ensures forall i :: 0 <= i < |works| ==> works[i].ref < |s.mgr.tokens| && s.mgr.tokens[works[i].ref].home < c.numWorkers
  {
    forall i | 0 <= i < |works|
      ensures works[i].ref < |s.mgr.tokens| && s.mgr.tokens[works[i].ref].home < c.numWorkers
    {
      AttentionItemsContain(works, i);
      assert Item(works[i].ref, works[i].layer, Attention) in items + AttentionItems(works);
      assert Live(s.mgr, works[i].ref) && TokenOk(c, s.mgr, works[i].ref);
    }
  }

  // ---------- each event ----------

  /** Handing over the works of a core step completes the step. */
  lemma {:induction false} HandOver(c: Config, s: State, core: Core, works: seq<Work>)
    requires c.WellFormed() && Inv(c, core, Items(s) + AttentionItems(works))
    requires |s.workers| == c.numWorkers
    requires forall w :: 0 <= w < |s.workers| ==> WorkerOk(c, s.workers[w])
    requires forall p :: 0 <= p < |s.procs| ==> ProcOk(c, s.procs[p])
    ensures var r := EnqueueAll(core.mgr.tokens, s.workers, works);
            && r.Success?
            && SystemInv(c, State(core, r.value, s.procs))
            && Replicating(State(core, r.value, s.procs)) == Replicating(s)
  {
    hide Inv, WorkerOk, ProcOk, Bag, Sum, WorkerItems, ProcItems, AttentionItems;
    WorksHaveHomes(c, core, Items(s), works);
    EnqueueAllKeeps(c, core.mgr.tokens, s.workers, works);
    var s' := State(core, EnqueueAll(core.mgr.tokens, s.workers, works).value, s.procs);
    assert Items(s') == Items(s) + AttentionItems(works);
  }

  lemma {:induction false} ArrivalKeeps(c: Config, s: State)
    requires c.WellFormed() && SystemInv(c, s) && Enabled(c, s, Arrival)
    ensures var r := Step(c, s, Arrival); r.Success? && SystemInv(c, r.value) && RankDrops(c, s, r.value)
  {
    hide Inv, WorkerOk, ProcOk, Bag, Sum, WorkerItems, ProcItems, AttentionItems, Arrive;
    ArriveKeeps(c, s.core, Items(s));
    var (core, works) := Arrive(c, s.core).value;
    HandOver(c, s, core, works);
  }

  lemma {:induction false} ReplicaBackKeeps(c: Config, s: State, w: nat)
    requires c.WellFormed() && SystemInv(c, s) && Enabled(c, s, ReplicaBack(w))
    ensures var r := Step(c, s, ReplicaBack(w)); r.Success? && SystemInv(c, r.value) && RankDrops(c, s, r.value)
  {
    hide Inv, ProcOk, Bag, Sum, WorkerItems, ProcItems, AttentionItems, WorkerReplicas, Join;
    var layer, batch := s.workers[w].phase.layer, s.workers[w].phase.batch;
    var item := Item(batch[0], layer, Expert);
    assert WorkerOk(c, s.workers[w]);
    hide WorkerOk;
    var s1 := WithPhase(s, w, if |batch| == 1 then Ready else Returning(layer, batch[1..]));
    ReturnOne(c, s, w, s1);
    assert item in Items(s) && Items(s1) == Items(s) - multiset{item};
    JoinKeeps(c, s.core, Items(s), batch[0], layer);
    var (core, works) := Join(c, s.core, batch[0], layer).value;
    HandOver(c, s1, core, works);
  }

  lemma {:induction false} ReturnOne(c: Config, s: State, w: nat, s1: State)
    requires w < |s.workers| && WorkerOk(c, s.workers[w]) && s.workers[w].phase.Returning?
    requires var layer, batch := s.workers[w].phase.layer, s.workers[w].phase.batch;
             s1 == WithPhase(s, w, if |batch| == 1 then Ready else Returning(layer, batch[1..]))
    ensures WorkerOk(c, s1.workers[w])
    ensures Items(s) == Items(s1) + multiset{Item(s.workers[w].phase.batch[0], s.workers[w].phase.layer, Expert)}
    ensures Sum(WorkerReplicas, s1.workers) + 1 == Sum(WorkerReplicas, s.workers)
  {
    hide Bag, Sum, QueueItems, AttentionItems, QueueTotal;
    var layer, batch := s.workers[w].phase.layer, s.workers[w].phase.batch;
    var item := Item(batch[0], layer, Expert);
    assert |batch| == 1 ==> batch[1..] == [];
    assert Replicas(layer, batch) == multiset{item} + Replicas(layer, batch[1..]);
    assert PhaseItems(s.workers[w].phase) == PhaseItems(s1.workers[w].phase) + multiset{item};
    assert WorkerItems(s.workers[w]) == WorkerItems(s1.workers[w]) + multiset{item};
    SumUpdate(WorkerReplicas, s.workers, w, s1.workers[w]);
    hide WorkerItems;
    BagLoss(WorkerItems, s.workers, w, s1.workers[w], multiset{item});
  }

  /** A worker changes by itself: same items, same replicas, less motion. */
  lemma {:induction false} WorkerMoves(c: Config, s: State, w: nat, worker: Worker)
    requires c.WellFormed() && SystemInv(c, s) && w < |s.workers| && WorkerOk(c, worker)
    requires WorkerItems(worker) == WorkerItems(s.workers[w])
    requires WorkerReplicas(worker) == WorkerReplicas(s.workers[w])
    requires WorkerMotion(worker) < WorkerMotion(s.workers[w])
    ensures var s' := s.(workers := s.workers[w := worker]); SystemInv(c, s') && RankDrops(c, s, s')
  {
    hide Inv, WorkerOk, ProcOk, WorkerItems, WorkerReplicas, WorkerMotion;
    var s' := s.(workers := s.workers[w := worker]);
    BagUpdate(WorkerItems, s.workers, w, worker);
    SumUpdate(WorkerReplicas, s.workers, w, worker);
    SumUpdate(WorkerMotion, s.workers, w, worker);
    Cancel(Bag(WorkerItems, s'.workers), WorkerItems(worker), Bag(WorkerItems, s.workers));
    assert Items(s') == Items(s);
  }

  lemma {:induction false} TakeTurnKeeps(c: Config, s: State, w: nat)
    requires c.WellFormed() && SystemInv(c, s) && Enabled(c, s, TakeTurn(w))
    ensures var r := Step(c, s, TakeTurn(w)); r.Success? && SystemInv(c, r.value) && RankDrops(c, s, r.value)
  {
    hide Inv, Turn, WorkerItems;
    var worker := s.workers[w];
    TurnKeeps(c, worker);
    assert WorkerOk(c, worker) && WorkerOk(c, Turn(c, worker));
    WorkerMoves(c, s, w, Turn(c, worker));
  }

  lemma {:induction false} ComputeDoneKeeps(c: Config, s: State, w: nat)
    requires c.WellFormed() && SystemInv(c, s) && Enabled(c, s, ComputeDone(w))
    ensures var r := Step(c, s, ComputeDone(w)); r.Success? && SystemInv(c, r.value) && RankDrops(c, s, r.value)
  {
    hide Inv;
    var worker := s.workers[w];
    assert WorkerOk(c, worker);
    WorkerMoves(c, s, w, worker.(phase := Returning(worker.phase.layer, worker.phase.batch)));
  }

  lemma {:induction false} AttentionDoneKeeps(c: Config, s: State, w: nat)
    requires c.WellFormed() && SystemInv(c, s) && Enabled(c, s, AttentionDone(w))
    ensures var r := Step(c, s, AttentionDone(w)); r.Success? && SystemInv(c, r.value) && RankDrops(c, s, r.value)
  {
    hide Inv, Bag, Sum, QueueItems, AttentionItems, QueueTotal;
    var s' := Step(c, s, AttentionDone(w)).value;
    var proc := Routing(s.workers[w].phase.work);
    assert WorkerOk(c, s.workers[w]) && WorkerOk(c, s'.workers[w]);
    assert WorkerItems(s.workers[w]) == WorkerItems(s'.workers[w]) + ProcItems(proc);
    hide WorkerItems, ProcItems, WorkerOk;
    BagLoss(WorkerItems, s.workers, w, s'.workers[w], ProcItems(proc));
    BagConcat(ProcItems, s.procs, [proc]);
    OneInBag(ProcItems, proc);
    assert Items(s') == Items(s);
    SpawnRank(c, s, w, s', [proc]);
  }

  lemma {:induction false} OneInBag<A>(f: A -> multiset<Item>, a: A)
    ensures Bag(f, [a]) == f(a)
  {
    var one := [a];
    assert one[1..] == [];
  }

  lemma {:induction false} SpawnRank(c: Config, s: State, w: nat, s': State, proc: seq<Proc>)
    requires w < |s.workers| && s.workers[w].phase.Attending?
    requires s' == WithPhase(s, w, Ready).(procs := s.procs + proc) && proc == [Routing(s.workers[w].phase.work)]
    ensures RankDrops(c, s, s')
  {
    SumUpdate(WorkerReplicas, s.workers, w, s'.workers[w]);
    SumUpdate(WorkerMotion, s.workers, w, s'.workers[w]);
    SumConcat(ProcReplicas, s.procs, proc);
    SumConcat(ProcMotion, s.procs, proc);
    assert proc[1..] == [];
  }

  lemma {:induction false} SelectedExperts(c: Config, ids: seq<int>)
    requires forall i :: 0 <= i < |ids| ==> ids[i] < c.numWorkers * c.queuesPerWorker
    ensures forall i :: 0 <= i < |Selected(ids)| ==> Selected(ids)[i] < c.numWorkers * c.queuesPerWorker
  {
    if ids != [] {
      SelectedExperts(c, ids[1..]);
    }
  }

  lemma {:induction false} RouteEventKeeps(c: Config, s: State, p: nat, ids: seq<int>)
    requires c.WellFormed() && SystemInv(c, s) && Enabled(c, s, Route(p, ids))
    ensures var r := Step(c, s, Route(p, ids)); r.Success? && SystemInv(c, r.value) && RankDrops(c, s, r.value)
  {
    hide Inv, WorkerOk, Bag, Sum;
    var work, experts := s.procs[p].work, Selected(ids);
    var before, after := multiset{Item(work.ref, work.layer, Attention)}, multiset{}[Item(work.ref, work.layer, Expert) := |experts|];
    BagContains(ProcItems, s.procs, p);
    assert before <= Items(s);
    RouteKeeps(c, s.core, Items(s), work.ref, work.layer, |experts|);
    SelectedExperts(c, ids);
    var s' := Step(c, s, Route(p, ids)).value;
    BagUpdate(ProcItems, s.procs, p, Sending(work, experts));
    assert ProcItems(s.procs[p]) == before && ProcItems(Sending(work, experts)) == after;
    hide ProcItems;
    assert Items(s') == Items(s) - before + after by {
      assert Items(s') + before == Bag(WorkerItems, s.workers) + (Bag(ProcItems, s'.procs) + before);
      assert Items(s) - before + after + before == Items(s) + after;
      Cancel(Items(s'), before, Items(s) - before + after);
    }
    RouteRank(c, s, s', work.ref, work.layer, |experts|);
  }

  lemma {:induction false} RouteRank(c: Config, s: State, s': State, ref: nat, layer: nat, fanout: nat)
    requires ref < |s.core.mgr.tokens| && layer < c.numLayers && |s.core.mgr.tokens[ref].fanout| == layer
    requires layer !in s.core.mgr.tokens[ref].fanout
    requires s'.core == RecordFanout(s.core, ref, layer, fanout)
    ensures RankDrops(c, s, s')
  {
    SumUpdate(UnroutedLayers(c.numLayers), s.core.mgr.tokens, ref, s'.core.mgr.tokens[ref]);
  }

  lemma {:induction false} ExpertPlace(c: Config, e: nat)
    requires c.WellFormed() && e < c.numWorkers * c.queuesPerWorker
    ensures e / c.queuesPerWorker < c.numWorkers && e % c.queuesPerWorker < c.queuesPerWorker
  {
    QuotientBound(c.numWorkers, c.queuesPerWorker, e);
  }

  lemma {:induction false} DeliverKeeps(c: Config, s: State, p: nat)
    requires c.WellFormed() && SystemInv(c, s) && Enabled(c, s, Deliver(p))
    ensures var r := Step(c, s, Deliver(p)); r.Success? && SystemInv(c, r.value) && RankDrops(c, s, r.value)
  {
    hide Inv, Bag, Sum, WorkerItems;
    var work, experts := s.procs[p].work, s.procs[p].experts;
    var item := Item(work.ref, work.layer, Expert);
    BagContains(ProcItems, s.procs, p);
    assert item in ProcItems(s.procs[p]) && item in Items(s);
    ReplicaAtHome(c, s.core, Items(s), work.ref, work.layer);
    assert ProcOk(c, s.procs[p]);
    ExpertPlace(c, experts[0]);
    var w, local := experts[0] / c.queuesPerWorker, experts[0] % c.queuesPerWorker;
    var worker := s.workers[w];
    assert WorkerOk(c, worker);
    EnqueueExpertKeeps(c, worker, work.layer, local, work.ref);
    var procs := if |experts| == 1 then WithoutProc(s.procs, p) else s.procs[p := Sending(work, experts[1..])];
    SendOne(c, s.procs, p, procs);
    Delivered(c, s, w, EnqueueExpert(worker, work.layer, local, work.ref), procs, item);
  }

  lemma {:induction false} Delivered(c: Config, s: State, w: nat, worker: Worker, procs: seq<Proc>, item: Item)
    requires c.WellFormed() && SystemInv(c, s) && w < |s.workers| && WorkerOk(c, worker)
    requires WorkerItems(worker) == WorkerItems(s.workers[w]) + multiset{item}
    requires WorkerReplicas(worker) == WorkerReplicas(s.workers[w]) + 1
    requires WorkerMotion(worker) == WorkerMotion(s.workers[w]) + 6
    requires forall i :: 0 <= i < |procs| ==> ProcOk(c, procs[i])
    requires Bag(ProcItems, s.procs) == Bag(ProcItems, procs) + multiset{item}
    requires Sum(ProcReplicas, s.procs) == Sum(ProcReplicas, procs) + 1
    requires Sum(ProcMotion, s.procs) == Sum(ProcMotion, procs) + 8
    ensures var s' := s.(workers := s.workers[w := worker], procs := procs); SystemInv(c, s') && RankDrops(c, s, s')
  {
    hide Inv, WorkerOk, ProcOk, Bag, Sum, WorkerItems, ProcItems, WorkerReplicas, WorkerMotion, ProcReplicas, ProcMotion;
    var s' := s.(workers := s.workers[w := worker], procs := procs);
    BagGain(WorkerItems, s.workers, w, worker, multiset{item});
    SumUpdate(WorkerReplicas, s.workers, w, worker);
    SumUpdate(WorkerMotion, s.workers, w, worker);
    assert Items(s') == Items(s);
  }

  lemma {:induction false} SendOne(c: Config, procs: seq<Proc>, p: nat, procs': seq<Proc>)
    requires p < |procs| && procs[p].Sending? && procs[p].experts != []
    requires forall i :: 0 <= i < |procs| ==> ProcOk(c, procs[i])
    requires var work, experts := procs[p].work, procs[p].experts;
             procs' == if |experts| == 1 then WithoutProc(procs, p) else procs[p := Sending(work, experts[1..])]
    ensures forall i :: 0 <= i < |procs'| ==> ProcOk(c, procs'[i])
    ensures Bag(ProcItems, procs) == Bag(ProcItems, procs') + multiset{Item(procs[p].work.ref, procs[p].work.layer, Expert)}
    ensures Sum(ProcReplicas, procs) == Sum(ProcReplicas, procs') + 1
    ensures Sum(ProcMotion, procs) == Sum(ProcMotion, procs') + 8
  {
    hide Bag, Sum;
    var work, experts := procs[p].work, procs[p].experts;
    var item := Item(work.ref, work.layer, Expert);
    if |experts| == 1 {
      assert procs == procs[..p] + ([procs[p]] + procs[p + 1..]);
      BagSplit(procs, p);
      SumSplit(ProcReplicas, procs, p);
      SumSplit(ProcMotion, procs, p);
      assert ProcItems(procs[p]) == multiset{item};
    } else {
      var proc := Sending(work, experts[1..]);
      assert ProcOk(c, procs[p]);
      assert ProcItems(procs[p]) == ProcItems(proc) + multiset{item};
      BagLoss(ProcItems, procs, p, proc, multiset{item});
      SumUpdate(ProcReplicas, procs, p, proc);
      SumUpdate(ProcMotion, procs, p, proc);
    }
  }

  lemma {:induction false} BagSplit(procs: seq<Proc>, p: nat)
    requires p < |procs|
    ensures Bag(ProcItems, procs) == Bag(ProcItems, WithoutProc(procs, p)) + ProcItems(procs[p])
  {
    assert procs == procs[..p] + procs[p..];
    BagConcat(ProcItems, procs[..p], procs[p..]);
    BagConcat(ProcItems, procs[..p], procs[p + 1..]);
    assert procs[p..][1..] == procs[p + 1..];
  }

  lemma {:induction false} SumSplit<A>(f: A -> nat, s: seq<A>, p: nat)
    requires p < |s|
    ensures Sum(f, s) == Sum(f, s[..p] + s[p + 1..]) + f(s[p])
  {
    assert s == s[..p] + s[p..];
    SumConcat(f, s[..p], s[p..]);
    SumConcat(f, s[..p], s[p + 1..]);
    assert s[p..][1..] == s[p + 1..];
  }

  // ---------- the theorems ----------

  /** In a consistent state every enabled event succeeds, keeps the state consistent and drops the rank. */
  lemma {:induction false} StepKeeps(c: Config, s: State, e: Event)
    requires c.WellFormed() && SystemInv(c, s) && Enabled(c, s, e)
    ensures var r := Step(c, s, e); r.Success? && SystemInv(c, r.value) && RankDrops(c, s, r.value)
  {
    hide SystemInv, RankDrops, Step;
    match e
    case Arrival => ArrivalKeeps(c, s);
    case TakeTurn(w) => TakeTurnKeeps(c, s, w);
    case AttentionDone(w) => AttentionDoneKeeps(c, s, w);
    case ComputeDone(w) => ComputeDoneKeeps(c, s, w);
    case ReplicaBack(w) => ReplicaBackKeeps(c, s, w);
    case Route(p, ids) => RouteEventKeeps(c, s, p, ids);
    case Deliver(p) => DeliverKeeps(c, s, p);
  }

  /** A run: states and the events between them, from the initial state. */
  ghost predicate IsRun(c: Config, states: seq<State>, events: seq<Event>)
    requires c.WellFormed()
  {
    && |states| == |events| + 1
    && states[0] == Initial(c)
    && (forall i :: 0 <= i < |events| ==> Takes(c, states[i], events[i], states[i + 1]))
  }

  ghost predicate Takes(c: Config, s: State, e: Event, s': State)
    requires c.WellFormed()
  {
    Enabled(c, s, e) && Step(c, s, e) == Success(s')
  }

  /** Safety over whole runs: every state reached is consistent, and whatever happens next raises no error. */
  lemma {:induction false} RunsAreSafe(c: Config, states: seq<State>, events: seq<Event>, next: Event)
    requires c.WellFormed() && IsRun(c, states, events)
    ensures SystemInv(c, states[|events|])
    ensures Enabled(c, states[|events|], next) ==> Step(c, states[|events|], next).Success?
    decreases |events|
  {
    hide SystemInv, Step, Enabled, RankDrops;
    if events == [] {
      InitialSystem(c);
    } else {
      var n := |events| - 1;
      assert Takes(c, states[n], events[n], states[n + 1]);
      RunsAreSafe(c, states[..n + 1], events[..n], events[n]);
      StepKeeps(c, states[n], events[n]);
    }
    if Enabled(c, states[|events|], next) {
      StepKeeps(c, states[|events|], next);
    }
  }

  // Counting tokens by the code rid * tokensPerRequest + index.

  function Code(c: Config, token: Token): nat {
    token.rid * c.tokensPerRequest + token.index
  }

  function Codes(c: Config, tokens: seq<Token>): (codes: seq<nat>)
    ensures |codes| == |tokens|
    ensures forall i :: 0 <= i < |tokens| ==> codes[i] == Code(c, tokens[i])
  {
    seq(|tokens|, i requires 0 <= i < |tokens| => Code(c, tokens[i]))
  }

  lemma {:induction false} CodesDistinct(c: Config, s: State)
    requires c.WellFormed() && SystemInv(c, s)
    ensures Distinct(Codes(c, s.core.mgr.tokens))
    ensures forall i :: 0 <= i < |s.core.mgr.tokens| ==> Code(c, s.core.mgr.tokens[i]) < TotalTokens(c)
  {
    hide AllLocated, WorkerOk, ProcOk, OneLiveToken;
    var m := s.core.mgr;
    forall i | 0 <= i < |m.tokens|
      ensures m.tokens[i].index < c.tokensPerRequest && Code(c, m.tokens[i]) < TotalTokens(c)
    {
      assert TokenOk(c, m, i);
      CodeBound(c.totalRequests, c.tokensPerRequest, m.tokens[i].rid, m.tokens[i].index);
    }
    forall i, j | 0 <= i < j < |m.tokens| ensures Code(c, m.tokens[i]) != Code(c, m.tokens[j]) {
      if Code(c, m.tokens[i]) == Code(c, m.tokens[j]) {
        CodeInjective(c.tokensPerRequest, m.tokens[i].rid, m.tokens[i].index, m.tokens[j].rid, m.tokens[j].index);
      }
    }
  }

  /** No more tokens are ever issued than there are to serve, so the rank is bounded below. */
  lemma {:induction false} RankBounded(c: Config, s: State)
    requires c.WellFormed() && SystemInv(c, s)
    ensures Unissued(c, s) >= 0 && Outstanding(c, s) >= 0
  {
    CodesDistinct(c, s);
    Pigeonhole(Codes(c, s.core.mgr.tokens), TotalTokens(c));
  }

  /** No run goes on for ever. */
  lemma {:induction false} EveryRunEnds(c: Config, run: nat -> State, choice: nat -> Event)
    requires c.WellFormed() && run(0) == Initial(c)
    ensures exists n: nat :: !Takes(c, run(n), choice(n), run(n + 1))
  {
    hide SystemInv;
    InitialSystem(c);
    RunEndsFrom(c, run, choice, 0);
  }

  lemma {:induction false} RunEndsFrom(c: Config, run: nat -> State, choice: nat -> Event, k: nat)
    requires c.WellFormed() && SystemInv(c, run(k))
    ensures exists n: nat :: !Takes(c, run(n), choice(n), run(n + 1))
    decreases Unissued(c, run(k)), Unrouted(c, run(k)), Outstanding(c, run(k)), Motion(run(k))
  {
    hide SystemInv, Step, Enabled, Unissued, Unrouted, Outstanding, Motion;
    if Takes(c, run(k), choice(k), run(k + 1)) {
      StepKeeps(c, run(k), choice(k));
      RankBounded(c, run(k));
      RankBounded(c, run(k + 1));
      RunEndsFrom(c, run, choice, k + 1);
    }
  }

  // ---------- nothing gets stuck ----------

  ghost predicate FinishedToken(m: Manager, rid: nat, index: nat) {
    exists i :: 0 <= i < |m.completed| && m.completed[i] < |m.tokens|
             && m.tokens[m.completed[i]].rid == rid && m.tokens[m.completed[i]].index == index
  }

  /** Every token of every request completed exactly once, and no other did. */
  ghost predicate Done(c: Config, s: State) {
    && Distinct(s.core.mgr.completed)
    && |s.core.mgr.completed| == TotalTokens(c)
    && (forall rid, index :: 0 <= rid < c.totalRequests && 0 <= index < c.tokensPerRequest ==>
          FinishedToken(s.core.mgr, rid, index))
  }

  ghost predicate Stuck(c: Config, s: State) {
    forall e :: !Enabled(c, s, e)
  }

  lemma {:induction false} WorkerCanMove(c: Config, s: State, w: nat)
    requires w < |s.workers| && WorkerOk(c, s.workers[w]) && WorkerItems(s.workers[w]) != multiset{}
    ensures !Stuck(c, s)
  {
    var worker := s.workers[w];
    if worker.phase.Asleep? && !worker.triggered {
      NoWorkNoItems(c, worker);
    }
    hide WorkerItems, QueueTotal;
    assert Enabled(c, s, TakeTurn(w)) || Enabled(c, s, AttentionDone(w)) || Enabled(c, s, ComputeDone(w)) || Enabled(c, s, ReplicaBack(w));
  }

  lemma {:induction false} ProcCanMove(c: Config, s: State, p: nat)
    requires c.WellFormed() && p < |s.procs| && ProcOk(c, s.procs[p])
    ensures !Stuck(c, s)
  {
    var ids := [0];
    assert Selected(ids) == [0] by { assert ids[1..] == []; }
    assert c.numWorkers * c.queuesPerWorker > 0;
    assert Enabled(c, s, Route(p, ids)) || Enabled(c, s, Deliver(p));
  }

  /** Wherever an item is, its holder can take an event. */
  lemma {:induction false} ItemsMove(c: Config, s: State, x: Item)
    requires c.WellFormed() && SystemInv(c, s) && x in Items(s)
    ensures !Stuck(c, s)
  {
    hide Inv, WorkerOk, ProcOk, Bag, WorkerItems, ProcItems, Stuck;
    if x in Bag(WorkerItems, s.workers) {
      var w := BagSource(WorkerItems, s.workers, x);
      WorkerCanMove(c, s, w);
    } else {
      var p := BagSource(ProcItems, s.procs, x);
      ProcCanMove(c, s, p);
    }
  }

  lemma {:induction false} NoWorkNoItems(c: Config, w: Worker)
    requires WorkerOk(c, w) && w.phase.Asleep? && !w.triggered
    ensures WorkerItems(w) == multiset{}
  {
    EmptyTotals(w.queues, 0);
  }

  lemma {:induction false} EmptyTotals(queues: seq<seq<seq<nat>>>, from: nat)
    requires QueueTotal(queues) == 0
    ensures QueueItems(queues, from) == multiset{}
  {
    if queues != [] {
      EmptyFlat(queues[0]);
      EmptyTotals(queues[1..], from + 1);
    }
  }

  lemma {:induction false} EmptyFlat(queues: seq<seq<nat>>)
    requires LayerTotal(queues) == 0
    ensures Flatten(queues) == []
  {
    if queues != [] {
      EmptyFlat(queues[1..]);
    }
  }

  /** In a stuck state nothing is live, nothing is active, and every request has arrived. */
  lemma {:induction false} StuckIsIdle(c: Config, s: State)
    requires c.WellFormed() && SystemInv(c, s) && Stuck(c, s)
    ensures s.core.arrived == c.totalRequests && s.core.mgr.active == map[]
    ensures forall t: nat :: !Live(s.core.mgr, t)
  {
    var m := s.core.mgr;
    hide Stuck;
    forall t: nat ensures !Live(m, t) {
      if Live(m, t) {
        assert Located(c, s.core, Items(s), t);
        var x :| x in Items(s);
        ItemsMove(c, s, x);
      }
    }
    hide AllLocated, WorkerOk, ProcOk, Located;
    forall rid: nat ensures rid !in m.active {
      ActiveHasLive(c, m, s.core.arrived, rid);
    }
    assert s.core.arrived == c.totalRequests by {
      assert !Enabled(c, s, Arrival) by { StuckMeans(c, s, Arrival); }
    }
  }

  lemma {:induction false} ActiveHasLive(c: Config, m: Manager, arrived: nat, rid: nat)
    requires c.WellFormed() && Requests(c, m, arrived, {}, 0) && TokenLog(c, m) && OneLiveToken(m, {})
    ensures rid in m.active ==> exists t: nat :: Live(m, t)
  {
    if rid in m.active {
      assert HasToken(m.tokens, rid, m.active[rid] - 1);
      var t :| 0 <= t < |m.tokens| && m.tokens[t].rid == rid && m.tokens[t].index == m.active[rid] - 1;
      assert Live(m, t);
    }
  }

  lemma {:induction false} CompletedAreTokens(m: Manager)
    requires OneLiveToken(m, {})
    ensures m.tokens == [] ==> m.completed == []
  {
    assert m.completed != [] ==> m.completed[0] < |m.tokens|;
  }

  lemma {:induction false} StuckMeans(c: Config, s: State, e: Event)
    requires Stuck(c, s)
    ensures !Enabled(c, s, e)
  {
  }

  /** A cap of zero admits nothing. */
  lemma {:induction false} NothingAdmitted(c: Config, s: State)
    requires c.WellFormed() && SystemInv(c, s) && !c.CanAdmit() && c.totalRequests > 0
    ensures s.core.mgr.completed == [] && !Done(c, s)
  {
    hide AllLocated, WorkerOk, ProcOk, Items, Saturated;
    var m := s.core.mgr;
    assert m.tokens == [] by {
      assert m.tokens != [] ==> TokenOk(c, m, 0);
    }
    CompletedAreTokens(m);
    assert TotalTokens(c) > 0;
  }

  /**
   Deadlock freedom, exactly: a reachable state with no enabled event has completed every
   token exactly once, if and only if the cap admits a request or there is none to serve.
   */
  lemma {:induction false} StuckMeansDone(c: Config, s: State)
    requires c.WellFormed() && SystemInv(c, s) && Stuck(c, s)
    ensures Done(c, s) <==> (c.CanAdmit() || c.totalRequests == 0)
  {
    StuckIsIdle(c, s);
    hide Stuck, Items, AllLocated, WorkerOk, ProcOk, Done, TokenLog, OneLiveToken;
    if c.CanAdmit() || c.totalRequests == 0 {
      assert s.core.mgr.nextHome == c.totalRequests;
      AllCompleted(c, s);
    } else {
      NothingAdmitted(c, s);
    }
  }

  lemma {:induction false} AllCompleted(c: Config, s: State)
    requires c.WellFormed() && SystemInv(c, s)
    requires s.core.mgr.nextHome == c.totalRequests && s.core.mgr.active == map[]
    requires forall t: nat :: !Live(s.core.mgr, t)
    ensures Done(c, s)
  {
    hide AllLocated, WorkerOk, ProcOk;
    var m := s.core.mgr;
    forall rid, index | 0 <= rid < c.totalRequests && 0 <= index < c.tokensPerRequest
      ensures FinishedToken(m, rid, index) && HasToken(m.tokens, rid, index)
    {
      assert HasToken(m.tokens, rid, index);
      var t :| 0 <= t < |m.tokens| && m.tokens[t].rid == rid && m.tokens[t].index == index;
      assert !Live(m, t);
      var i :| 0 <= i < |m.completed| && m.completed[i] == t;
    }
    assert |m.tokens| == TotalTokens(c) by { AllTokensIssued(c, s); }
    assert forall t: nat :: t < |m.tokens| ==> t in m.completed by {
      assert forall t: nat :: t < |m.tokens| ==> !Live(m, t);
    }
    Pigeonhole(m.completed, |m.tokens|);
  }

  lemma {:induction false} AllTokensIssued(c: Config, s: State)
    requires c.WellFormed() && SystemInv(c, s)
    requires forall rid, index :: 0 <= rid < c.totalRequests && 0 <= index < c.tokensPerRequest ==> HasToken(s.core.mgr.tokens, rid, index)
    ensures |s.core.mgr.tokens| == TotalTokens(c)
  {
    hide SystemInv;
    var tokens := s.core.mgr.tokens;
    var codes := Codes(c, tokens);
    CodesDistinct(c, s);
    forall x: nat | x < TotalTokens(c) ensures x in codes {
      var rid, index := x / c.tokensPerRequest, x % c.tokensPerRequest;
      QuotientBound(c.totalRequests, c.tokensPerRequest, x);
      assert HasToken(tokens, rid, index);
      var t :| 0 <= t < |tokens| && tokens[t].rid == rid && tokens[t].index == index;
      assert codes[t] == x;
    }
    Pigeonhole(codes, TotalTokens(c));
  }

  /** A run that cannot go on has served everything, provided the cap admits a request. */
  lemma {:induction false} MaximalRunsComplete(c: Config, states: seq<State>, events: seq<Event>)
    requires c.WellFormed() && c.CanAdmit() && IsRun(c, states, events) && Stuck(c, states[|events|])
    ensures Done(c, states[|events|])
  {
    hide SystemInv, Stuck, Done, Step, Enabled;
    RunsAreSafe(c, states, events, Arrival);
    StuckMeansDone(c, states[|events|]);
  }

  lemma {:induction false} ExtendRun(c: Config, states: seq<State>, events: seq<Event>, e: Event, s': State)
    requires c.WellFormed() && IsRun(c, states, events) && Takes(c, states[|events|], e, s')
    ensures IsRun(c, states + [s'], events + [e])
  {
    hide Takes;
    var more, all := states + [s'], events + [e];
    forall i | 0 <= i < |all| ensures Takes(c, more[i], all[i], more[i + 1]) {
      if i < |events| {
        assert Takes(c, states[i], events[i], states[i + 1]);
      }
    }
  }

  /** Every run, however it began, can be continued to one that has served everything. */
  lemma {:induction false} RunsCanFinish(c: Config, states: seq<State>, events: seq<Event>)
    returns (states': seq<State>, events': seq<Event>)
    requires c.WellFormed() && c.CanAdmit() && IsRun(c, states, events)
    ensures IsRun(c, states', events') && Done(c, states'[|events'|])
    ensures states <= states' && events <= events'
    decreases Unissued(c, states[|events|]), Unrouted(c, states[|events|]), Outstanding(c, states[|events|]), Motion(states[|events|])
  {
    hide SystemInv, Step, Enabled, Done, Unissued, Unrouted, Outstanding, Motion;
    var s := states[|events|];
    RunsAreSafe(c, states, events, Arrival);
    if Stuck(c, s) {
      MaximalRunsComplete(c, states, events);
      return states, events;
    }
    var e :| Enabled(c, s, e);
    StepKeeps(c, s, e);
    var s' := Step(c, s, e).value;
    RankBounded(c, s);
    RankBounded(c, s');
    ExtendRun(c, states, events, e, s');
    states', events' := RunsCanFinish(c, states + [s'], events + [e]);
  }

  /**
   Admission and issue over whole runs: the cap holds and is used, requests start in arrival
   order, token ids are positions, and each active request has exactly one live token, its newest.
   */
  lemma {:induction false} RequestDiscipline(c: Config, states: seq<State>, events: seq<Event>)
    requires c.WellFormed() && IsRun(c, states, events)
    ensures var m := states[|events|].core.mgr;
            && (c.maxActive.Some? ==> |m.active| <= c.maxActive.value)
            && (m.pending != [] ==> c.maxActive.Some? && |m.active| == c.maxActive.value)
            && (forall i :: 0 <= i < |m.tokens| ==> m.tokens[i].tid == i && m.tokens[i].index < c.tokensPerRequest)
            && InIssueOrder(m.tokens)
            && (forall t: nat :: Live(m, t) ==> m.tokens[t].rid in m.active && m.active[m.tokens[t].rid] == m.tokens[t].index + 1)
            && (forall rid <- m.active :: HasLiveToken(m, rid))
            && (forall t: nat, u: nat :: Live(m, t) && Live(m, u) && m.tokens[t].rid == m.tokens[u].rid ==> t == u)
  {
    RunsAreSafe(c, states, events, Arrival);
    var s := states[|events|];
    var m := s.core.mgr;
    assert Requests(c, m, s.core.arrived, {}, 0) && TokenLog(c, m) && OneLiveToken(m, {}) && Saturated(c, m);
    hide AllLocated, WorkerOk, ProcOk, IsRun, SystemInv;
    forall i | 0 <= i < |m.tokens| ensures m.tokens[i].tid == i && m.tokens[i].index < c.tokensPerRequest {
      assert TokenOk(c, m, i);
    }
    forall rid | rid in m.active ensures HasLiveToken(m, rid) {
      assert HasToken(m.tokens, rid, m.active[rid] - 1);
      var t :| 0 <= t < |m.tokens| && m.tokens[t].rid == rid && m.tokens[t].index == m.active[rid] - 1;
      assert Live(m, t);
    }
    forall t: nat, u: nat | Live(m, t) && Live(m, u) && m.tokens[t].rid == m.tokens[u].rid ensures t == u {
      assert m.tokens[t].index == m.tokens[u].index;
    }
  }

  ghost predicate HasLiveToken(m: Manager, rid: nat) {
    exists t: nat :: Live(m, t) && m.tokens[t].rid == rid
  }
}

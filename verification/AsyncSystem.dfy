/**
 The whole simulator as a step machine: the request source, the GPU processes, and the
 routing processes they spawn, interleaved in every possible order. Times are not modelled:
 any timer or transfer that is pending may finish next. Each event is at most the code
 between two yields, so every simulated run is a run of this machine.
 */
module AsyncSystem {
  import opened Wrappers
  import opened Counting
  import opened AsyncCore
  import opened AsyncProtocol
  import opened AsyncWorker

  /** A routing process: about to route, or with replicas still to be put into expert queues. */
  datatype Proc = Routing(work: Work) | Sending(work: Work, experts: seq<nat>)

  datatype State = State(core: Core, workers: seq<Worker>, procs: seq<Proc>)

  datatype Event =
    | Arrival
    | TakeTurn(w: nat)
    | AttentionDone(w: nat)
    | ComputeDone(w: nat)
    | ReplicaBack(w: nat)
    | Route(p: nat, ids: seq<int>)
    | Deliver(p: nat)

  function Initial(c: Config): State {
    State(InitialCore(c), seq(c.numWorkers, _ => InitialWorker(c)), [])
  }

  /** The router's answer without its negative placeholders. */
  function Selected(ids: seq<int>): seq<nat> {
    if ids == [] then []
    else if ids[0] >= 0 then [ids[0]] + Selected(ids[1..])
    else Selected(ids[1..])
  }

  /** What the router promises: some expert, and only experts that exist. */
  predicate RouterOk(c: Config, ids: seq<int>) {
    Selected(ids) != [] && forall i :: 0 <= i < |ids| ==> ids[i] < c.numWorkers * c.queuesPerWorker
  }

  predicate Enabled(c: Config, s: State, e: Event) {
    match e
    case Arrival => s.core.arrived < c.totalRequests
    case TakeTurn(w) =>
      w < |s.workers| && (s.workers[w].phase.Ready? || (s.workers[w].phase.Asleep? && s.workers[w].triggered))
    case AttentionDone(w) => w < |s.workers| && s.workers[w].phase.Attending?
    case ComputeDone(w) => w < |s.workers| && s.workers[w].phase.Computing?
    case ReplicaBack(w) => w < |s.workers| && s.workers[w].phase.Returning? && s.workers[w].phase.batch != []
    case Route(p, ids) => p < |s.procs| && s.procs[p].Routing? && RouterOk(c, ids)
    case Deliver(p) => p < |s.procs| && s.procs[p].Sending? && s.procs[p].experts != []
  }

  /** Each work goes to the attention queue of its token's home GPU. */
  function EnqueueAll(tokens: seq<Token>, workers: seq<Worker>, works: seq<Work>): Result<seq<Worker>, Error>
    decreases |works|
  {
    if works == [] then Success(workers)
    else if works[0].ref >= |tokens| then Failure(BadReference)
    else
      var home := tokens[works[0].ref].home;
      if home >= |workers| then Failure(HomeOutOfRange)
      else EnqueueAll(tokens, workers[home := EnqueueAttention(workers[home], works[0])], works[1..])
  }

  function WithPhase(s: State, w: nat, phase: Phase): State
    requires w < |s.workers|
  {
    s.(workers := s.workers[w := s.workers[w].(phase := phase)])
  }

  function WithoutProc(procs: seq<Proc>, p: nat): seq<Proc>
    requires p < |procs|
  {
    procs[..p] + procs[p + 1..]
  }

  /** The state after one event, or the error the simulator raises. */
  function Step(c: Config, s: State, e: Event): Result<State, Error>
    requires c.WellFormed() && Enabled(c, s, e)
  {
    match e
    case Arrival =>
      var (core, works) :- Arrive(c, s.core);
      var workers :- EnqueueAll(core.mgr.tokens, s.workers, works);
      Success(State(core, workers, s.procs))
    case TakeTurn(w) =>
      Success(s.(workers := s.workers[w := Turn(c, s.workers[w])]))
    case AttentionDone(w) =>
      Success(WithPhase(s, w, Ready).(procs := s.procs + [Routing(s.workers[w].phase.work)]))
    case ComputeDone(w) =>
      Success(WithPhase(s, w, Returning(s.workers[w].phase.layer, s.workers[w].phase.batch)))
    case ReplicaBack(w) => ReplicaBackStep(c, s, w)
    case Route(p, ids) =>
      var work := s.procs[p].work;
      var experts := Selected(ids);
      if experts == [] then Failure(NoExperts)
      else if work.ref >= |s.core.mgr.tokens| then Failure(BadReference)
      else Success(s.(core := RecordFanout(s.core, work.ref, work.layer, |experts|),
                      procs := s.procs[p := Sending(work, experts)]))
    case Deliver(p) => DeliverStep(c, s, p)
  }

  function ReplicaBackStep(c: Config, s: State, w: nat): Result<State, Error>
    requires c.WellFormed() && Enabled(c, s, ReplicaBack(w))
  {
    var layer, batch := s.workers[w].phase.layer, s.workers[w].phase.batch;
    if batch[0] >= |s.core.mgr.tokens| || layer >= c.numLayers || c.numLayers >= |s.core.joins| then Failure(BadReference)
    else
      var (core, works) :- Join(c, s.core, batch[0], layer);
      var resumed := WithPhase(s, w, if |batch| == 1 then Ready else Returning(layer, batch[1..]));
      var workers :- EnqueueAll(core.mgr.tokens, resumed.workers, works);
      Success(State(core, workers, s.procs))
  }

  function DeliverStep(c: Config, s: State, p: nat): Result<State, Error>
    requires c.WellFormed() && Enabled(c, s, Deliver(p))
  {
    var work, experts := s.procs[p].work, s.procs[p].experts;
    var w, local := experts[0] / c.queuesPerWorker, experts[0] % c.queuesPerWorker;
    if w >= |s.workers| then Failure(ExpertOutOfRange)
    else if work.layer >= |s.workers[w].queues| || local >= |s.workers[w].queues[work.layer]| then Failure(BadReference)
    else
      Success(s.(workers := s.workers[w := EnqueueExpert(s.workers[w], work.layer, local, work.ref)],
                 procs := if |experts| == 1 then WithoutProc(s.procs, p) else s.procs[p := Sending(work, experts[1..])]))
  }

  // ---------- sums over workers and processes ----------

  ghost function Bag<A>(f: A -> multiset<Item>, s: seq<A>): multiset<Item> {
    if s == [] then multiset{} else f(s[0]) + Bag(f, s[1..])
  }

  lemma {:induction false} BagUpdate<A>(f: A -> multiset<Item>, s: seq<A>, i: nat, a: A)
    requires i < |s|
    ensures Bag(f, s[i := a]) + f(s[i]) == Bag(f, s) + f(a)
  {
    var s' := s[i := a];
    if i == 0 {
      assert s'[1..] == s[1..];
    } else {
      assert s'[1..] == s[1..][i - 1 := a];
      BagUpdate(f, s[1..], i - 1, a);
      AddLeft(f(s[0]), Bag(f, s'[1..]), f(s[i]), Bag(f, s[1..]), f(a));
    }
  }

  /** One element gains the items `e`. */
  lemma {:induction false} BagGain<A>(f: A -> multiset<Item>, s: seq<A>, i: nat, a: A, e: multiset<Item>)
    requires i < |s| && f(a) == f(s[i]) + e
    ensures Bag(f, s[i := a]) == Bag(f, s) + e
  {
    BagUpdate(f, s, i, a);
    assert Bag(f, s) + f(a) == Bag(f, s) + e + f(s[i]);
    Cancel(Bag(f, s[i := a]), f(s[i]), Bag(f, s) + e);
  }

  /** One element loses the items `e`. */
  lemma {:induction false} BagLoss<A>(f: A -> multiset<Item>, s: seq<A>, i: nat, a: A, e: multiset<Item>)
    requires i < |s| && f(s[i]) == f(a) + e
    ensures Bag(f, s) == Bag(f, s[i := a]) + e
  {
    BagUpdate(f, s, i, a);
    assert Bag(f, s[i := a]) + f(s[i]) == Bag(f, s[i := a]) + e + f(a);
    Cancel(Bag(f, s[i := a]) + e, f(a), Bag(f, s));
  }

  lemma {:induction false} BagConcat<A>(f: A -> multiset<Item>, a: seq<A>, b: seq<A>)
    ensures Bag(f, a + b) == Bag(f, a) + Bag(f, b)
  {
    if a == [] {
      assert a + b == b;
    } else {
      assert (a + b)[1..] == a[1..] + b;
      BagConcat(f, a[1..], b);
    }
  }

  lemma {:induction false} BagContains<A>(f: A -> multiset<Item>, s: seq<A>, i: nat)
    requires i < |s|
    ensures f(s[i]) <= Bag(f, s)
  {
    if i > 0 {
      BagContains(f, s[1..], i - 1);
    }
  }

  lemma {:induction false} BagSource<A>(f: A -> multiset<Item>, s: seq<A>, x: Item) returns (i: nat)
    requires x in Bag(f, s)
    ensures i < |s| && x in f(s[i])
  {
    if x in f(s[0]) {
      i := 0;
    } else {
      i := BagSource(f, s[1..], x);
      i := i + 1;
    }
  }

  ghost function Sum<A>(f: A -> nat, s: seq<A>): nat {
    if s == [] then 0 else f(s[0]) + Sum(f, s[1..])
  }

  lemma {:induction false} SumUpdate<A>(f: A -> nat, s: seq<A>, i: nat, a: A)
    requires i < |s|
    ensures Sum(f, s[i := a]) + f(s[i]) == Sum(f, s) + f(a)
  {
    var s' := s[i := a];
    if i == 0 {
      assert s'[1..] == s[1..];
    } else {
      assert s'[1..] == s[1..][i - 1 := a];
      SumUpdate(f, s[1..], i - 1, a);
    }
  }

  lemma {:induction false} SumConcat<A>(f: A -> nat, a: seq<A>, b: seq<A>)
    ensures Sum(f, a + b) == Sum(f, a) + Sum(f, b)
  {
    if a == [] {
      assert a + b == b;
    } else {
      assert (a + b)[1..] == a[1..] + b;
      SumConcat(f, a[1..], b);
    }
  }

  // ---------- the invariant of the whole system ----------

  function ProcItems(p: Proc): multiset<Item> {
    match p
    case Routing(work) => multiset{Item(work.ref, work.layer, Attention)}
    case Sending(work, experts) => multiset{}[Item(work.ref, work.layer, Expert) := |experts|]
  }

  ghost function Items(s: State): multiset<Item> {
    Bag(WorkerItems, s.workers) + Bag(ProcItems, s.procs)
  }

  ghost predicate ProcOk(c: Config, p: Proc) {
    p.Sending? ==> p.experts != [] && forall i :: 0 <= i < |p.experts| ==> p.experts[i] < c.numWorkers * c.queuesPerWorker
  }

  ghost predicate SystemInv(c: Config, s: State)
    requires c.WellFormed()
  {
    && Inv(c, s.core, Items(s))
    && |s.workers| == c.numWorkers
    && (forall w :: 0 <= w < |s.workers| ==> WorkerOk(c, s.workers[w]))
    && (forall p :: 0 <= p < |s.procs| ==> ProcOk(c, s.procs[p]))
  }

  lemma {:induction false} InitialSystem(c: Config)
    requires c.WellFormed()
    ensures SystemInv(c, Initial(c))
  {
    InitialInv(c);
    InitialWorkerOk(c);
    EmptyBag(WorkerItems, Initial(c).workers);
  }

  lemma {:induction false} EmptyBag<A>(f: A -> multiset<Item>, s: seq<A>)
    requires forall i :: 0 <= i < |s| ==> f(s[i]) == multiset{}
    ensures Bag(f, s) == multiset{}
  {
    if s != [] {
      EmptyBag(f, s[1..]);
    }
  }
}

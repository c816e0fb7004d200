/**
 Where replicas and attention work end up. Over every run, a replica reaches the queue of the
 expert the router named, each named expert's queue gets one replica for each time it was
 named, a token is routed once per layer, and attention work is only ever on its token's home.
 */
module AsyncDelivery {
  import opened Wrappers
  import opened Counting
  import opened AsyncCore
  import opened AsyncProtocol
  import opened AsyncWorker
  import opened AsyncSystem
  import opened AsyncTheorems

  // ---------- one delivery ----------

  /** Queue `local` of `layer` gets `ref` at its end; every other queue, and the rest of the worker, stays. */
  ghost predicate GainsReplica(w: Worker, w': Worker, layer: nat, local: nat, ref: nat) {
    && |w'.queues| == |w.queues| && layer < |w.queues|
    && (forall l :: 0 <= l < |w.queues| ==> |w'.queues[l]| == |w.queues[l]|)
    && local < |w.queues[layer]| && w'.queues[layer][local] == w.queues[layer][local] + [ref]
    && (forall l, q :: 0 <= l < |w.queues| && 0 <= q < |w.queues[l]| && (l != layer || q != local) ==>
          w'.queues[l][q] == w.queues[l][q])
    && w'.attention == w.attention && w'.phase == w.phase && w'.total == w.total + 1
  }

  /**
   Of the consecutive blocks of queues that the workers have, the one that holds the expert
   names the worker, and the place in the block names the queue.
   */
  lemma {:induction false} DeliverPlaces(c: Config, s: State, p: nat, s': State, w: nat)
    requires c.WellFormed() && Enabled(c, s, Deliver(p)) && Step(c, s, Deliver(p)) == Success(s')
    requires var e := s.procs[p].experts[0]; w * c.queuesPerWorker <= e < w * c.queuesPerWorker + c.queuesPerWorker
    ensures var work, e := s.procs[p].work, s.procs[p].experts[0];
            && |s'.workers| == |s.workers| && w < |s.workers|
            && GainsReplica(s.workers[w], s'.workers[w], work.layer, e - w * c.queuesPerWorker, work.ref)
            && (forall v :: 0 <= v < |s.workers| && v != w ==> s'.workers[v] == s.workers[v])
            && s'.core == s.core
  {
    var e := s.procs[p].experts[0];
    QuotientOf(c.queuesPerWorker, w, e - w * c.queuesPerWorker);
  }

  // ---------- the router's answer ----------

  /** The ids that are not negative, in the order given. */
  lemma {:induction false} SelectedInOrder(before: seq<int>, id: int, after: seq<int>)
    ensures Selected(before + [id] + after) == Selected(before) + (if id >= 0 then [id as nat] else []) + Selected(after)
  {
    if before == [] {
      assert before + [id] + after == [id] + after && ([id] + after)[1..] == after;
    } else {
      SelectedInOrder(before[1..], id, after);
      assert (before + [id] + after)[1..] == before[1..] + [id] + after;
    }
  }

  /** Exactly the ids that are not negative, each as often as it was given. */
  lemma {:induction false} SelectedCounts(ids: seq<int>, e: nat)
    ensures multiset(Selected(ids))[e] == multiset(ids)[e]
  {
    if ids != [] {
      SelectedCounts(ids[1..], e);
      assert ids == [ids[0]] + ids[1..];
    }
  }

  // ---------- replicas still to be sent ----------

  /** How many replicas for expert `e` a process still has to send for `work`. */
  function ToSend(work: Work, e: nat): Proc -> nat {
    (proc: Proc) => if proc.Sending? && proc.work == work then multiset(proc.experts)[e] else 0
  }

  ghost function Unsent(procs: seq<Proc>, work: Work, e: nat): nat {
    Sum(ToSend(work, e), procs)
  }

  // ---------- what one event does to one queue ----------

  /** The expert's queue in its worker, if there is one. */
  function QueueAt(s: State, w: nat, layer: nat, local: nat): seq<nat> {
    if w < |s.workers| && layer < |s.workers[w].queues| && local < |s.workers[w].queues[layer]|
    then s.workers[w].queues[layer][local] else []
  }

  predicate Arrives(s: State, s': State, w: nat, layer: nat, local: nat, ref: nat) {
    QueueAt(s', w, layer, local) == QueueAt(s, w, layer, local) + [ref]
  }

  /** The event is the router's answer for `work`. */
  predicate Routes(s: State, event: Event, work: Work) {
    event.Route? && event.p < |s.procs| && s.procs[event.p].Routing? && s.procs[event.p].work == work
  }

  /** How often the event names expert `e` for `work`. */
  function Named(s: State, event: Event, work: Work, e: nat): nat {
    if Routes(s, event, work) then multiset(event.ids)[e] else 0
  }

  /** A batch takes a front part of every queue of its layer. */
  lemma {:induction false} FormBatchFronts(queues: seq<seq<nat>>, room: nat, q: nat)
    requires q < |queues|
    ensures exists n :: 0 <= n <= |queues[q]| && FormBatch(queues, room).0[q] == queues[q][n..]
  {
    var n := if |queues[0]| < room then |queues[0]| else room;
    if q == 0 {
      assert FormBatch(queues, room).0[q] == queues[q][n..];
    } else {
      FormBatchFronts(queues[1..], room - n, q - 1);
    }
  }

  lemma {:induction false} TurnShrinks(c: Config, s: State, v: nat, w: nat, layer: nat, local: nat)
    requires c.WellFormed() && Enabled(c, s, TakeTurn(v))
    ensures |QueueAt(Step(c, s, TakeTurn(v)).value, w, layer, local)| <= |QueueAt(s, w, layer, local)|
  {
    hide SelectTask, FormBatch;
    var before, after := s.workers[v], Turn(c, s.workers[v]);
    if w == v && after.queues != before.queues {
      var l := after.phase.layer;
      if l == layer && local < |before.queues[layer]| {
        FormBatchFronts(before.queues[layer], c.maxBatch, local);
      }
    }
  }

  predicate AtHome(tokens: seq<Token>, work: Work, v: nat) {
    work.ref < |tokens| && tokens[work.ref].home == v
  }

  /** The works whose tokens live on GPU `v`, in order. */
  function WorksFor(tokens: seq<Token>, works: seq<Work>, v: nat): seq<Work> {
    if works == [] then []
    else (if AtHome(tokens, works[0], v) then [works[0]] else []) + WorksFor(tokens, works[1..], v)
  }

  /** The worker has got `works` at the end of its attention queue; only its alarm may differ besides. */
  predicate GainsWork(w: Worker, w': Worker, works: seq<Work>) {
    w' == w.(attention := w.attention + works, triggered := w'.triggered)
  }

  /** Each GPU's attention queue gets, in order, the works whose tokens live there. */
  lemma {:induction false} EnqueueAllSorts(tokens: seq<Token>, workers: seq<Worker>, works: seq<Work>)
    ensures var r := EnqueueAll(tokens, workers, works);
            r.Success? ==> |r.value| == |workers| && forall v :: 0 <= v < |workers| ==>
                             GainsWork(workers[v], r.value[v], WorksFor(tokens, works, v))
    decreases |works|
  {
    hide AtHome, GainsWork, WorksFor;
    var r := EnqueueAll(tokens, workers, works);
    if r.Success? {
      if works == [] {
        forall v | 0 <= v < |workers| ensures GainsWork(workers[v], r.value[v], WorksFor(tokens, works, v)) {
          GainsNothing(tokens, workers[v], v);
        }
      } else {
        var home := tokens[works[0].ref].home;
        var workers' := workers[home := EnqueueAttention(workers[home], works[0])];
        EnqueueAllSorts(tokens, workers', works[1..]);
        forall v | 0 <= v < |workers| ensures GainsWork(workers[v], r.value[v], WorksFor(tokens, works, v)) {
          GainsFirst(tokens, workers[v], r.value[v], works, v);
        }
      }
    }
  }

  lemma {:induction false} GainsNothing(tokens: seq<Token>, w: Worker, v: nat)
    ensures GainsWork(w, w, WorksFor(tokens, [], v))
  {
    assert w.attention + [] == w.attention;
  }

  lemma {:induction false} GainsFirst(tokens: seq<Token>, w: Worker, w': Worker, works: seq<Work>, v: nat)
    requires works != [] && works[0].ref < |tokens|
    requires var w1 := if tokens[works[0].ref].home == v then EnqueueAttention(w, works[0]) else w;
             GainsWork(w1, w', WorksFor(tokens, works[1..], v))
    ensures GainsWork(w, w', WorksFor(tokens, works, v))
  {
    var rest := WorksFor(tokens, works[1..], v);
    assert w.attention + [works[0]] + rest == w.attention + ([works[0]] + rest);
    assert [] + rest == rest;
  }

  /** Only deliveries and worker turns touch expert queues. */
  lemma {:induction false} OthersLeaveQueues(c: Config, s: State, event: Event, s': State, w: nat, layer: nat, local: nat)
    requires c.WellFormed() && Takes(c, s, event, s') && !event.Deliver? && !event.TakeTurn?
    ensures QueueAt(s', w, layer, local) == QueueAt(s, w, layer, local)
  {
    hide Join, Arrive, EnqueueAll;
    match event
    case Arrival =>
      var (core, works) := Arrive(c, s.core).value;
      EnqueueAllSorts(core.mgr.tokens, s.workers, works);
    case ReplicaBack(v) =>
      var l, batch := s.workers[v].phase.layer, s.workers[v].phase.batch;
      var (core, works) := Join(c, s.core, batch[0], l).value;
      var resumed := WithPhase(s, v, if |batch| == 1 then Ready else Returning(l, batch[1..]));
      EnqueueAllSorts(core.mgr.tokens, resumed.workers, works);
    case AttentionDone(v) =>
    case ComputeDone(v) =>
    case Route(p, ids) =>
  }

  /** Only routing and deliveries touch what is still to be sent. */
  lemma {:induction false} OthersLeaveUnsent(c: Config, s: State, event: Event, s': State, work: Work, e: nat)
    requires c.WellFormed() && Takes(c, s, event, s') && !event.Deliver? && !event.Route?
    ensures Unsent(s'.procs, work, e) == Unsent(s.procs, work, e)
  {
    hide Join, Arrive, EnqueueAll, Turn;
    if event.AttentionDone? {
      SumConcat(ToSend(work, e), s.procs, [Routing(s.workers[event.w].phase.work)]);
    }
  }

  /** After a delivery a queue has got `ref` at its end exactly if it is the one the replica went to. */
  lemma {:induction false} ArrivesWhereSent(s: State, s': State, sent: Work, v: nat, queue: nat, work: Work, w: nat, local: nat)
    requires v < |s.workers| == |s'.workers| && GainsReplica(s.workers[v], s'.workers[v], sent.layer, queue, sent.ref)
    requires forall u :: 0 <= u < |s.workers| && u != v ==> s'.workers[u] == s.workers[u]
    ensures Arrives(s, s', w, work.layer, local, work.ref) <==> sent == work && v == w && queue == local
  {
    var before, after := QueueAt(s, w, work.layer, local), QueueAt(s', w, work.layer, local);
    if v == w && queue == local && sent.layer == work.layer {
      assert after == before + [sent.ref];
      assert after[|before|] == sent.ref;
    } else {
      assert |after| == |before|;
    }
  }

  /** Sending the first expert's replica leaves one fewer to send to that expert. */
  lemma {:induction false} SendsFirst(s: State, p: nat, s': State, work: Work, e: nat)
    requires p < |s.procs| && s.procs[p].Sending? && s.procs[p].experts != []
    requires var proc := s.procs[p];
             s'.procs == if |proc.experts| == 1 then WithoutProc(s.procs, p)
                         else s.procs[p := Sending(proc.work, proc.experts[1..])]
    ensures Unsent(s.procs, work, e)
         == Unsent(s'.procs, work, e) + if s.procs[p].work == work && s.procs[p].experts[0] == e then 1 else 0
  {
    hide Sum;
    var proc := s.procs[p];
    assert proc.experts == [proc.experts[0]] + proc.experts[1..];
    if |proc.experts| == 1 {
      SumSplit(ToSend(work, e), s.procs, p);
    } else {
      SumUpdate(ToSend(work, e), s.procs, p, Sending(proc.work, proc.experts[1..]));
    }
  }

  /** One delivery: the expert's queue gets the replica, or another queue does, and one fewer is to be sent. */
  lemma {:induction false} DeliverBalances(c: Config, s: State, p: nat, s': State, work: Work, w: nat, local: nat)
    requires c.WellFormed() && Takes(c, s, Deliver(p), s') && local < c.queuesPerWorker
    ensures var e := w * c.queuesPerWorker + local;
            (if Arrives(s, s', w, work.layer, local, work.ref) then 1 else 0) + Unsent(s'.procs, work, e) == Unsent(s.procs, work, e)
  {
    hide Unsent, EnqueueExpert, Arrives, GainsReplica;
    var sent, first, Q := s.procs[p].work, s.procs[p].experts[0], c.queuesPerWorker;
    DivMod(first, Q);
    DeliverPlaces(c, s, p, s', first / Q);
    ArrivesWhereSent(s, s', sent, first / Q, first - first / Q * Q, work, w, local);
    SendsFirst(s, p, s', work, w * Q + local);
    SameCode(Q, w, local, first);
  }

  lemma {:induction false} SameCode(q: nat, w: nat, local: nat, e: nat)
    requires local < q
    ensures w * q + local == e <==> e / q == w && e - e / q * q == local
  {
    DivMod(e, q);
    if w * q + local == e {
      QuotientOf(q, w, local);
    }
  }

  /** Routing leaves as many replicas to send to an expert as the router named it. */
  lemma {:induction false} RouteNames(s: State, event: Event, s': State, work: Work, e: nat)
    requires event.Route? && event.p < |s.procs| && s.procs[event.p].Routing?
    requires s'.procs == s.procs[event.p := Sending(s.procs[event.p].work, Selected(event.ids))]
    ensures Unsent(s'.procs, work, e) == Unsent(s.procs, work, e) + Named(s, event, work, e)
  {
    hide Sum, Selected;
    SumUpdate(ToSend(work, e), s.procs, event.p, Sending(s.procs[event.p].work, Selected(event.ids)));
    SelectedCounts(event.ids, e);
  }

  /** Every event: arrivals at a queue and replicas still to be sent to it go up by what is named for its expert. */
  lemma {:induction false} EventBalances(c: Config, s: State, event: Event, s': State, work: Work, w: nat, local: nat)
    requires c.WellFormed() && Takes(c, s, event, s') && local < c.queuesPerWorker
    ensures var e := w * c.queuesPerWorker + local;
            (if Arrives(s, s', w, work.layer, local, work.ref) then 1 else 0) + Unsent(s'.procs, work, e)
            == Unsent(s.procs, work, e) + Named(s, event, work, e)
  {
    hide Unsent, Join, Arrive, EnqueueAll, DeliverStep, Turn, ReplicaBackStep;
    var e := w * c.queuesPerWorker + local;
    if event.Deliver? {
      DeliverBalances(c, s, event.p, s', work, w, local);
    } else {
      if event.TakeTurn? {
        TurnShrinks(c, s, event.w, w, work.layer, local);
      } else {
        OthersLeaveQueues(c, s, event, s', w, work.layer, local);
      }
      if event.Route? {
        RouteNames(s, event, s', work, e);
      } else {
        OthersLeaveUnsent(c, s, event, s', work, e);
      }
    }
  }

  // ---------- over whole runs ----------

  /** How often, in the first n steps, a replica of the work's token arrived at the queue. */
  function Arrived(states: seq<State>, n: nat, work: Work, w: nat, local: nat): nat
    requires n < |states|
  {
    if n == 0 then 0
    else Arrived(states, n - 1, work, w, local) + if Arrives(states[n - 1], states[n], w, work.layer, local, work.ref) then 1 else 0
  }

  /** How often, in the first n steps, the router named the expert for the work. */
  function TimesNamed(states: seq<State>, events: seq<Event>, n: nat, work: Work, e: nat): nat
    requires n <= |events| && n < |states|
  {
    if n == 0 then 0
    else TimesNamed(states, events, n - 1, work, e) + Named(states[n - 1], events[n - 1], work, e)
  }

  /**
   Over every run: for each token and layer, the queue of each expert has received one replica
   for every time the router named the expert, except for those still to be sent.
   */
  lemma {:induction false} ReplicasReachTheirExperts(c: Config, states: seq<State>, events: seq<Event>, n: nat, work: Work, w: nat, local: nat)
    requires c.WellFormed() && IsRun(c, states, events) && n <= |events| && local < c.queuesPerWorker
    ensures var e := w * c.queuesPerWorker + local;
            Arrived(states, n, work, w, local) + Unsent(states[n].procs, work, e) == TimesNamed(states, events, n, work, e)
  {
    hide Takes, Arrives, Named, Unsent, Initial;
    if n > 0 {
      ReplicasReachTheirExperts(c, states, events, n - 1, work, w, local);
      assert Takes(c, states[n - 1], events[n - 1], states[n]);
      EventBalances(c, states[n - 1], events[n - 1], states[n], work, w, local);
    } else {
      NothingUnsent(c, work, w * c.queuesPerWorker + local);
    }
  }

  lemma {:induction false} NothingUnsent(c: Config, work: Work, e: nat)
    ensures Unsent(Initial(c).procs, work, e) == 0
  {
  }

  /** In a state that cannot go on nothing is left to be sent. */
  lemma {:induction false} NothingLeftToSend(c: Config, s: State, work: Work, e: nat)
    requires c.WellFormed() && SystemInv(c, s) && Stuck(c, s)
    ensures Unsent(s.procs, work, e) == 0
  {
    hide Stuck, Inv, Items, WorkerOk, Sum;
    forall p | 0 <= p < |s.procs| ensures ToSend(work, e)(s.procs[p]) == 0 {
      StuckMeans(c, s, Deliver(p));
      assert ProcOk(c, s.procs[p]);
    }
    SumZero(ToSend(work, e), s.procs);
  }

  lemma {:induction false} SumZero<A>(f: A -> nat, s: seq<A>)
    requires forall i :: 0 <= i < |s| ==> f(s[i]) == 0
    ensures Sum(f, s) == 0
  {
    if s != [] {
      SumZero(f, s[1..]);
    }
  }

  // ---------- the token log only grows ----------

  /** Tokens stay, with their homes and with the layers they have been routed in. */
  ghost predicate Extends(tokens: seq<Token>, tokens': seq<Token>) {
    |tokens| <= |tokens'| && forall t :: 0 <= t < |tokens| ==> Continues(tokens[t], tokens'[t])
  }

  predicate Continues(token: Token, token': Token) {
    token'.home == token.home && token.fanout.Keys <= token'.fanout.Keys
  }

  lemma {:induction false} AdmitQueuedGrows(c: Config, m: Manager)
    requires c.WellFormed()
    ensures var r := AdmitQueued(c, m); r.Success? ==> m.tokens <= r.value.0.tokens
    decreases |m.pending|
  {
    if m.pending != [] && m.HasRoom(c) {
      var started := StartNow(c, m.(pending := m.pending[1..]), m.pending[0]);
      if started.Success? {
        AdmitQueuedGrows(c, started.value.0);
      }
    }
  }

  lemma {:induction false} JoinGrows(c: Config, s: Core, ref: nat, layer: nat)
    requires c.WellFormed() && ref < |s.mgr.tokens| && layer < c.numLayers < |s.joins|
    ensures var r := Join(c, s, ref, layer); r.Success? ==> s.mgr.tokens <= r.value.0.mgr.tokens
  {
    hide AdmitQueued;
    var rid := s.mgr.tokens[ref].rid;
    var m := s.mgr.(completed := s.mgr.completed + [ref]);
    AdmitQueuedGrows(c, m.(active := m.active - {rid}, home := m.home - {rid}));
  }

  lemma {:induction false} StepExtends(c: Config, s: State, event: Event, s': State)
    requires c.WellFormed() && Takes(c, s, event, s')
    ensures Extends(s.core.mgr.tokens, s'.core.mgr.tokens)
  {
    hide Join, EnqueueAll, Turn;
    if event.ReplicaBack? {
      JoinGrows(c, s.core, s.workers[event.w].phase.batch[0], s.workers[event.w].phase.layer);
    }
  }

  lemma {:induction false} ExtendsTrans(a: seq<Token>, b: seq<Token>, d: seq<Token>)
    requires Extends(a, b) && Extends(b, d)
    ensures Extends(a, d)
  {
    forall t | 0 <= t < |a| ensures Continues(a[t], d[t]) {
      assert Continues(a[t], b[t]) && Continues(b[t], d[t]);
    }
  }

  lemma {:induction false} RunExtends(c: Config, states: seq<State>, events: seq<Event>, i: nat, j: nat)
    requires c.WellFormed() && IsRun(c, states, events) && i <= j <= |events|
    ensures Extends(states[i].core.mgr.tokens, states[j].core.mgr.tokens)
    decreases j - i
  {
    hide Takes, Extends, Initial;
    if i == j {
      SameExtends(states[i].core.mgr.tokens);
    } else {
      RunExtends(c, states, events, i, j - 1);
      assert Takes(c, states[j - 1], events[j - 1], states[j]);
      StepExtends(c, states[j - 1], events[j - 1], states[j]);
      ExtendsTrans(states[i].core.mgr.tokens, states[j - 1].core.mgr.tokens, states[j].core.mgr.tokens);
    }
  }

  lemma {:induction false} SameExtends(tokens: seq<Token>)
    ensures Extends(tokens, tokens)
  {
  }

  // ---------- a token is routed once per layer ----------

  ghost predicate RoutedIn(tokens: seq<Token>, work: Work) {
    work.ref < |tokens| && work.layer in tokens[work.ref].fanout
  }

  /** Routing marks the token as routed in the layer, which it was not before. */
  lemma {:induction false} RouteMarks(c: Config, s: State, event: Event, s': State, work: Work)
    requires c.WellFormed() && SystemInv(c, s) && Takes(c, s, event, s') && Routes(s, event, work)
    ensures !RoutedIn(s.core.mgr.tokens, work) && RoutedIn(s'.core.mgr.tokens, work)
  {
    hide Inv, Bag, WorkerOk, ProcOk, Selected;
    BagContains(ProcItems, s.procs, event.p);
    assert Item(work.ref, work.layer, Attention) in ProcItems(s.procs[event.p]);
    RouteKeeps(c, s.core, Items(s), work.ref, work.layer, 1);
  }

  lemma {:induction false} SafeAt(c: Config, states: seq<State>, events: seq<Event>, i: nat)
    requires c.WellFormed() && IsRun(c, states, events) && i <= |events|
    ensures SystemInv(c, states[i])
  {
    hide Takes, Initial, SystemInv;
    RunsAreSafe(c, states[..i + 1], events[..i], Arrival);
  }

  /** No two routings in a run are of the same token in the same layer. */
  lemma {:induction false} RoutedOnce(c: Config, states: seq<State>, events: seq<Event>, i: nat, j: nat, work: Work)
    requires c.WellFormed() && IsRun(c, states, events) && i < |events| && j < |events|
    requires Routes(states[i], events[i], work) && Routes(states[j], events[j], work)
    ensures i == j
  {
    hide Takes, Initial, SystemInv, Routes, RoutedIn;
    if i < j {
      RoutedBefore(c, states, events, i, j, work);
    } else if j < i {
      RoutedBefore(c, states, events, j, i, work);
    }
  }

  lemma {:induction false} RoutedBefore(c: Config, states: seq<State>, events: seq<Event>, i: nat, j: nat, work: Work)
    requires c.WellFormed() && IsRun(c, states, events) && i < j < |events| && Routes(states[i], events[i], work)
    ensures !Routes(states[j], events[j], work)
  {
    hide Takes, Initial, SystemInv, Routes;
    SafeAt(c, states, events, i);
    SafeAt(c, states, events, j);
    assert Takes(c, states[i], events[i], states[i + 1]) && Takes(c, states[j], events[j], states[j + 1]);
    RouteMarks(c, states[i], events[i], states[i + 1], work);
    RunExtends(c, states, events, i + 1, j);
    assert Continues(states[i + 1].core.mgr.tokens[work.ref], states[j].core.mgr.tokens[work.ref]);
    if Routes(states[j], events[j], work) {
      RouteMarks(c, states[j], events[j], states[j + 1], work);
    }
  }

  lemma {:induction false} NamedInOneAnswer(c: Config, states: seq<State>, events: seq<Event>, i: nat, n: nat, work: Work, e: nat)
    requires c.WellFormed() && IsRun(c, states, events) && i < |events| && n <= |events| && Routes(states[i], events[i], work)
    ensures TimesNamed(states, events, n, work, e) == if i < n then multiset(events[i].ids)[e] else 0
  {
    hide Takes, Initial;
    if n > 0 {
      NamedInOneAnswer(c, states, events, i, n - 1, work, e);
      if Routes(states[n - 1], events[n - 1], work) {
        RoutedOnce(c, states, events, i, n - 1, work);
      }
    }
  }

  /**
   A run that cannot go on: of the one answer the router gave for a token in a layer, each
   expert's queue has received one replica for each time the answer names the expert.
   */
  lemma {:induction false} EachNamedExpertServed(c: Config, states: seq<State>, events: seq<Event>, i: nat, work: Work, w: nat, local: nat)
    requires c.WellFormed() && IsRun(c, states, events) && Stuck(c, states[|events|])
    requires i < |events| && Routes(states[i], events[i], work) && local < c.queuesPerWorker
    ensures Arrived(states, |events|, work, w, local) == multiset(events[i].ids)[w * c.queuesPerWorker + local]
  {
    hide Arrived, TimesNamed, Unsent, Stuck, Takes, SystemInv, Initial, Routes;
    var e := w * c.queuesPerWorker + local;
    ReplicasReachTheirExperts(c, states, events, |events|, work, w, local);
    SafeAt(c, states, events, |events|);
    NothingLeftToSend(c, states[|events|], work, e);
    NamedInOneAnswer(c, states, events, i, |events|, work, e);
  }

  // ---------- attention work is on its token's home ----------

  /** Queued and running attention work is on its token's home GPU. */
  ghost predicate HomeWork(tokens: seq<Token>, w: Worker, v: nat) {
    && (forall k :: 0 <= k < |w.attention| ==> AtHome(tokens, w.attention[k], v))
    && (w.phase.Attending? ==> AtHome(tokens, w.phase.work, v))
  }

  ghost predicate AllHome(s: State) {
    forall v :: 0 <= v < |s.workers| ==> HomeWork(s.core.mgr.tokens, s.workers[v], v)
  }

  lemma {:induction false} WorksForHome(tokens: seq<Token>, works: seq<Work>, v: nat)
    ensures forall k :: 0 <= k < |WorksFor(tokens, works, v)| ==> AtHome(tokens, WorksFor(tokens, works, v)[k], v)
  {
    if works != [] {
      WorksForHome(tokens, works[1..], v);
    }
  }

  lemma {:induction false} HomeExtends(tokens: seq<Token>, tokens': seq<Token>, w: Worker, v: nat)
    requires Extends(tokens, tokens') && HomeWork(tokens, w, v)
    ensures HomeWork(tokens', w, v)
  {
    forall k | 0 <= k < |w.attention| ensures AtHome(tokens', w.attention[k], v) {
      assert AtHome(tokens, w.attention[k], v) && Continues(tokens[w.attention[k].ref], tokens'[w.attention[k].ref]);
    }
    if w.phase.Attending? {
      assert Continues(tokens[w.phase.work.ref], tokens'[w.phase.work.ref]);
    }
  }

  lemma {:induction false} HandOverHome(tokens: seq<Token>, workers: seq<Worker>, works: seq<Work>, workers': seq<Worker>)
    requires forall v :: 0 <= v < |workers| ==> HomeWork(tokens, workers[v], v)
    requires EnqueueAll(tokens, workers, works) == Success(workers')
    ensures forall v :: 0 <= v < |workers'| ==> HomeWork(tokens, workers'[v], v)
  {
    hide EnqueueAll, AtHome, WorksFor;
    EnqueueAllSorts(tokens, workers, works);
    forall v | 0 <= v < |workers'| ensures HomeWork(tokens, workers'[v], v) {
      WorksForHome(tokens, works, v);
      assert HomeWork(tokens, workers[v], v) && GainsWork(workers[v], workers'[v], WorksFor(tokens, works, v));
    }
  }

  lemma {:induction false} TurnHome(c: Config, tokens: seq<Token>, w: Worker, v: nat)
    requires c.WellFormed() && HomeWork(tokens, w, v)
    ensures HomeWork(tokens, Turn(c, w), v)
  {
    hide SelectTask, FormBatch, AtHome;
  }

  lemma {:induction false} ReplicaBackHome(c: Config, s: State, w: nat, s': State)
    requires c.WellFormed() && Enabled(c, s, ReplicaBack(w)) && ReplicaBackStep(c, s, w) == Success(s')
    requires forall v :: 0 <= v < |s.workers| ==> HomeWork(s'.core.mgr.tokens, s.workers[v], v)
    ensures AllHome(s')
  {
    hide Join, EnqueueAll, HomeWork;
    var tokens, l, batch := s'.core.mgr.tokens, s.workers[w].phase.layer, s.workers[w].phase.batch;
    var phase := if |batch| == 1 then Ready else Returning(l, batch[1..]);
    PhaseHome(tokens, s.workers[w], w, phase);
    var workers := WithPhase(s, w, phase).workers;
    assert forall v :: 0 <= v < |workers| ==> HomeWork(tokens, workers[v], v);
    var works := Join(c, s.core, batch[0], l).value.1;
    HandOverHome(tokens, workers, works, s'.workers);
  }

  lemma {:induction false} StepHome(c: Config, s: State, event: Event, s': State)
    requires c.WellFormed() && Takes(c, s, event, s') && AllHome(s)
    ensures AllHome(s')
  {
    hide Join, Arrive, EnqueueAll, Turn, HomeWork, Extends, ReplicaBackStep;
    StepExtends(c, s, event, s');
    var tokens := s'.core.mgr.tokens;
    forall v | 0 <= v < |s.workers| ensures HomeWork(tokens, s.workers[v], v) {
      HomeExtends(s.core.mgr.tokens, tokens, s.workers[v], v);
    }
    match event
    case Arrival =>
      var works := Arrive(c, s.core).value.1;
      HandOverHome(tokens, s.workers, works, s'.workers);
    case ReplicaBack(w) =>
      ReplicaBackHome(c, s, w, s');
    case TakeTurn(w) =>
      TurnHome(c, tokens, s.workers[w], w);
    case AttentionDone(w) =>
      PhaseHome(tokens, s.workers[w], w, Ready);
    case ComputeDone(w) =>
      PhaseHome(tokens, s.workers[w], w, Returning(s.workers[w].phase.layer, s.workers[w].phase.batch));
    case Route(p, ids) =>
    case Deliver(p) =>
      var e := s.procs[p].experts[0] / c.queuesPerWorker;
      QueueHome(tokens, s.workers[e], e, s'.workers[e]);
  }

  lemma {:induction false} PhaseHome(tokens: seq<Token>, w: Worker, v: nat, phase: Phase)
    requires HomeWork(tokens, w, v) && !phase.Attending?
    ensures HomeWork(tokens, w.(phase := phase), v)
  {
  }

  lemma {:induction false} QueueHome(tokens: seq<Token>, w: Worker, v: nat, w': Worker)
    requires HomeWork(tokens, w, v)
    ensures w'.attention == w.attention && w'.phase == w.phase ==> HomeWork(tokens, w', v)
  {
  }

  /** Over every run: attention is only ever computed on the GPU that is its token's home. */
  lemma {:induction false} AttentionStaysHome(c: Config, states: seq<State>, events: seq<Event>, n: nat)
    requires c.WellFormed() && IsRun(c, states, events) && n <= |events|
    ensures AllHome(states[n])
  {
    hide Takes, HomeWork;
    if n == 0 {
      forall v | 0 <= v < |states[0].workers| ensures HomeWork(states[0].core.mgr.tokens, states[0].workers[v], v) {
        NoWorkHome(states[0].core.mgr.tokens, states[0].workers[v], v);
      }
    } else {
      AttentionStaysHome(c, states, events, n - 1);
      assert Takes(c, states[n - 1], events[n - 1], states[n]);
      StepHome(c, states[n - 1], events[n - 1], states[n]);
    }
  }

  lemma {:induction false} NoWorkHome(tokens: seq<Token>, w: Worker, v: nat)
    ensures w.attention == [] && !w.phase.Attending? ==> HomeWork(tokens, w, v)
  {
  }
}

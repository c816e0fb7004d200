/**
 One GPU of the barrier-free simulator: its expert queues, its attention queue, the cached
 queue counter, the wakeup event, and the scheduler that picks the next task.
 */
module AsyncWorker {
  import opened Wrappers
  import opened Counting
  import opened AsyncCore
  import opened AsyncProtocol

  /** What the GPU's process is doing. `Ready` is the top of its loop. */
  datatype Phase =
    | Ready
    | Asleep
    | Attending(work: Work)
    | Computing(layer: nat, batch: seq<nat>)
    | Returning(layer: nat, batch: seq<nat>)

  datatype Worker = Worker(
    queues: seq<seq<seq<nat>>>,   // [layer][local expert] -> token references
    total: int,                   // cached number of queued replicas
    attention: seq<Work>,
    triggered: bool,              // whether the current wakeup event has fired
    phase: Phase)
  {
    predicate NoWork() {
      total == 0 && attention == []
    }
  }

  function InitialWorker(c: Config): Worker {
    Worker(seq(c.numLayers, _ => seq(c.queuesPerWorker, _ => [])), 0, [], false, Ready)
  }

  // ---------- queues ----------

  function LayerTotal(queues: seq<seq<nat>>): nat {
    if queues == [] then 0 else |queues[0]| + LayerTotal(queues[1..])
  }

  function QueueTotal(queues: seq<seq<seq<nat>>>): nat {
    if queues == [] then 0 else LayerTotal(queues[0]) + QueueTotal(queues[1..])
  }

  function EnqueueExpert(w: Worker, layer: nat, local: nat, ref: nat): Worker
    requires layer < |w.queues| && local < |w.queues[layer]|
  {
    w.(queues := w.queues[layer := w.queues[layer][local := w.queues[layer][local] + [ref]]],
       total := w.total + 1,
       triggered := w.triggered || w.NoWork())
  }

  function EnqueueAttention(w: Worker, work: Work): Worker {
    w.(attention := w.attention + [work], triggered := w.triggered || w.NoWork())
  }

  /** Take replicas queue by queue until `room` are taken: what is left, and the batch. */
  function FormBatch(queues: seq<seq<nat>>, room: nat): (r: (seq<seq<nat>>, seq<nat>))
    ensures |r.0| == |queues|
  {
    if queues == [] then ([], [])
    else
      var n := if |queues[0]| < room then |queues[0]| else room;
      var (rest, batch) := FormBatch(queues[1..], room - n);
      ([queues[0][n..]] + rest, queues[0][..n] + batch)
  }

  // ---------- scheduling ----------

  function LayerTotals(queues: seq<seq<seq<nat>>>): (r: seq<nat>)
    ensures |r| == |queues|
    ensures forall i :: 0 <= i < |r| ==> r[i] == LayerTotal(queues[i])
  {
    seq(|queues|, i requires 0 <= i < |queues| => LayerTotal(queues[i]))
  }

  const WEIGHT_DECAY := 0.8
  const LOOKAHEAD_STEPS: nat := 4

  function Decay(k: nat): real {
    if k == 0 then 1.0 else Decay(k - 1) * WEIGHT_DECAY
  }

  /** Decayed number of tokens in the `steps` layers that follow `layer`, cyclically. */
  function Lookahead(totals: seq<nat>, layer: nat, steps: nat): real
    requires totals != []
  {
    if steps == 0 then 0.0
    else Lookahead(totals, layer, steps - 1) + totals[(layer + steps) % |totals|] as real * Decay(steps)
  }

  function Score(policy: Policy, totals: seq<nat>, layer: nat): real
    requires layer < |totals|
  {
    match policy
    case LongestQueueFirst => totals[layer] as real
    case DefraggingV0 =>
      if totals[layer] == 0 then 0.0
      else totals[layer] as real + Lookahead(totals, layer, LOOKAHEAD_STEPS - 1)
  }

  function Scores(policy: Policy, totals: seq<nat>): (r: seq<real>)
    ensures |r| == |totals|
    ensures forall i :: 0 <= i < |r| ==> r[i] == Score(policy, totals, i)
  {
    seq(|totals|, i requires 0 <= i < |totals| => Score(policy, totals, i))
  }

  /** The first of the greatest positive scores, and that score. */
  function Best(scores: seq<real>): (Option<nat>, real) {
    if scores == [] then (None, 0.0)
    else
      var last := |scores| - 1;
      var (layer, score) := Best(scores[..last]);
      if scores[last] > score then (Some(last), scores[last]) else (layer, score)
  }

  datatype Task = AttentionTask | ExpertTask(layer: Option<nat>)

  function SelectTask(c: Config, w: Worker): Task {
    var (layer, score) := Best(Scores(c.policy, LayerTotals(w.queues)));
    if w.attention != [] && (layer.None? || (|w.attention| * c.topK) as real > score) then AttentionTask
    else ExpertTask(layer)
  }

  /** One turn of the process at the top of its loop (or after a wakeup): sleep, or begin the selected task. */
  function Turn(c: Config, w: Worker): Worker {
    if w.phase.Ready? && w.NoWork() then w.(phase := Asleep, triggered := false)
    else Begin(c, w, SelectTask(c, w))
  }

  function Begin(c: Config, w: Worker, task: Task): Worker {
    match task
    case AttentionTask =>
      if w.attention == [] then w.(phase := Ready)
      else w.(attention := w.attention[1..], phase := Attending(w.attention[0]))
    case ExpertTask(None) => w.(phase := Ready)
    case ExpertTask(Some(layer)) =>
      if layer >= |w.queues| then w.(phase := Ready)
      else
        var (rest, batch) := FormBatch(w.queues[layer], c.maxBatch);
        if batch == [] then w.(phase := Ready)
        else w.(queues := w.queues[layer := rest], total := w.total - |batch|, phase := Computing(layer, batch))
  }

  // ---------- the worker's items ----------

  function Replicas(layer: nat, refs: seq<nat>): multiset<Item> {
    if refs == [] then multiset{}
    else multiset{Item(refs[0], layer, Expert)} + Replicas(layer, refs[1..])
  }

  function Flatten(queues: seq<seq<nat>>): seq<nat> {
    if queues == [] then [] else queues[0] + Flatten(queues[1..])
  }

  /** Items of the queues of layers `from`, `from + 1`, ... */
  function QueueItems(queues: seq<seq<seq<nat>>>, from: nat): multiset<Item> {
    if queues == [] then multiset{}
    else Replicas(from, Flatten(queues[0])) + QueueItems(queues[1..], from + 1)
  }

  function PhaseItems(phase: Phase): multiset<Item> {
    match phase
    case Attending(work) => multiset{Item(work.ref, work.layer, Attention)}
    case Computing(layer, batch) => Replicas(layer, batch)
    case Returning(layer, batch) => Replicas(layer, batch)
    case _ => multiset{}
  }

  function WorkerItems(w: Worker): multiset<Item> {
    AttentionItems(w.attention) + QueueItems(w.queues, 0) + PhaseItems(w.phase)
  }

  /**
   The cached counter is the number of queued replicas; a worker asleep on an untriggered
   event has no work, and one whose event has fired has some; batches are not empty.
   */
  ghost predicate WorkerOk(c: Config, w: Worker) {
    && |w.queues| == c.numLayers
    && (forall l :: 0 <= l < |w.queues| ==> |w.queues[l]| == c.queuesPerWorker)
    && w.total == QueueTotal(w.queues)
    && (w.phase.Asleep? ==> (w.NoWork() <==> !w.triggered))
    && (w.phase.Computing? ==> w.phase.batch != [] && w.phase.layer < c.numLayers)
    && (w.phase.Returning? ==> w.phase.batch != [] && w.phase.layer < c.numLayers)
  }

  lemma {:induction false} InitialWorkerOk(c: Config)
    ensures WorkerOk(c, InitialWorker(c)) && WorkerItems(InitialWorker(c)) == multiset{}
  {
    EmptyQueues(InitialWorker(c).queues, 0);
  }

  lemma {:induction false} EmptyQueues(queues: seq<seq<seq<nat>>>, from: nat)
    requires forall l, q :: 0 <= l < |queues| && 0 <= q < |queues[l]| ==> queues[l][q] == []
    ensures QueueTotal(queues) == 0 && QueueItems(queues, from) == multiset{}
  {
    if queues != [] {
      assert forall q :: 0 <= q < |queues[0]| ==> queues[0][q] == [];
      EmptyLayer(queues[0]);
      EmptyQueues(queues[1..], from + 1);
    }
  }

  lemma {:induction false} EmptyLayer(queues: seq<seq<nat>>)
    requires forall q :: 0 <= q < |queues| ==> queues[q] == []
    ensures LayerTotal(queues) == 0 && Flatten(queues) == []
  {
    if queues != [] {
      assert forall q :: 0 <= q < |queues[1..]| ==> queues[1..][q] == [];
      EmptyLayer(queues[1..]);
    }
  }

  // ---------- enqueueing ----------

  lemma {:induction false} ReplicasConcat(layer: nat, a: seq<nat>, b: seq<nat>)
    ensures Replicas(layer, a + b) == Replicas(layer, a) + Replicas(layer, b)
  {
    if a == [] {
      assert a + b == b;
    } else {
      assert (a + b)[1..] == a[1..] + b;
      ReplicasConcat(layer, a[1..], b);
    }
  }

  lemma {:induction false} FlattenAppend(layer: nat, queues: seq<seq<nat>>, local: nat, ref: nat)
    requires local < |queues|
    ensures var queues' := queues[local := queues[local] + [ref]];
            && Replicas(layer, Flatten(queues')) == Replicas(layer, Flatten(queues)) + Replicas(layer, [ref])
            && LayerTotal(queues') == LayerTotal(queues) + 1
  {
    hide Replicas;
    var queues' := queues[local := queues[local] + [ref]];
    if local == 0 {
      assert queues'[1..] == queues[1..];
      ReplicasConcat(layer, queues[0] + [ref], Flatten(queues[1..]));
      ReplicasConcat(layer, queues[0], [ref]);
      ReplicasConcat(layer, queues[0], Flatten(queues[1..]));
    } else {
      assert queues'[1..] == queues[1..][local - 1 := queues[1..][local - 1] + [ref]];
      FlattenAppend(layer, queues[1..], local - 1, ref);
      ReplicasConcat(layer, queues[0], Flatten(queues[1..]));
      ReplicasConcat(layer, queues[0], Flatten(queues'[1..]));
    }
  }

  lemma {:induction false} OneReplica(layer: nat, ref: nat)
    ensures Replicas(layer, [ref]) == multiset{Item(ref, layer, Expert)}
  {
    var one := [ref];
    assert one[1..] == [];
  }

  /** Replacing the queues of one layer changes the items by that layer alone. */
  lemma {:induction false} QueuesUpdate(queues: seq<seq<seq<nat>>>, from: nat, layer: nat, new_: seq<seq<nat>>)
    requires layer < |queues|
    ensures QueueItems(queues[layer := new_], from) + Replicas(from + layer, Flatten(queues[layer]))
         == QueueItems(queues, from) + Replicas(from + layer, Flatten(new_))
  {
    hide Replicas, Flatten;
    var queues' := queues[layer := new_];
    if layer == 0 {
      assert queues'[1..] == queues[1..];
    } else {
      assert queues'[1..] == queues[1..][layer - 1 := new_];
      QueuesUpdate(queues[1..], from + 1, layer - 1, new_);
      AddLeft(Replicas(from, Flatten(queues[0])),
              QueueItems(queues'[1..], from + 1), Replicas(from + layer, Flatten(queues[layer])),
              QueueItems(queues[1..], from + 1), Replicas(from + layer, Flatten(new_)));
    }
  }

  lemma {:induction false} TotalUpdate(queues: seq<seq<seq<nat>>>, layer: nat, new_: seq<seq<nat>>)
    requires layer < |queues|
    ensures QueueTotal(queues[layer := new_]) + LayerTotal(queues[layer]) == QueueTotal(queues) + LayerTotal(new_)
  {
    hide LayerTotal;
    var queues' := queues[layer := new_];
    if layer == 0 {
      assert queues'[1..] == queues[1..];
    } else {
      assert queues'[1..] == queues[1..][layer - 1 := new_];
      TotalUpdate(queues[1..], layer - 1, new_);
    }
  }

  /** Enqueueing a replica adds one item and never loses a wakeup. */
  lemma {:induction false} EnqueueExpertKeeps(c: Config, w: Worker, layer: nat, local: nat, ref: nat)
    requires WorkerOk(c, w) && layer < c.numLayers && local < c.queuesPerWorker
    ensures WorkerOk(c, EnqueueExpert(w, layer, local, ref))
    ensures WorkerItems(EnqueueExpert(w, layer, local, ref)) == WorkerItems(w) + multiset{Item(ref, layer, Expert)}
  {
    hide QueueItems, QueueTotal, LayerTotal, Replicas, Flatten, PhaseItems, AttentionItems;
    var layerQueues := w.queues[layer][local := w.queues[layer][local] + [ref]];
    FlattenAppend(layer, w.queues[layer], local, ref);
    QueuesUpdate(w.queues, 0, layer, layerQueues);
    TotalUpdate(w.queues, layer, layerQueues);
    OneReplica(layer, ref);
    Cancel(QueueItems(w.queues[layer := layerQueues], 0), Replicas(layer, Flatten(w.queues[layer])),
           QueueItems(w.queues, 0) + multiset{Item(ref, layer, Expert)});
  }

  /** Enqueueing attention work adds one item and never loses a wakeup. */
  lemma {:induction false} EnqueueAttentionKeeps(c: Config, w: Worker, work: Work)
    requires WorkerOk(c, w)
    ensures WorkerOk(c, EnqueueAttention(w, work))
    ensures WorkerItems(EnqueueAttention(w, work)) == WorkerItems(w) + multiset{Item(work.ref, work.layer, Attention)}
  {
    var one := [work];
    AttentionItemsConcat(w.attention, one);
    assert one[1..] == [];
  }

  // ---------- taking a turn ----------

  /** A batch is the front of the layer's queues read in order, cut at `room`. */
  lemma {:induction false} FormBatchSplits(queues: seq<seq<nat>>, room: nat)
    ensures var (rest, batch) := FormBatch(queues, room);
            && batch + Flatten(rest) == Flatten(queues)
            && LayerTotal(rest) + |batch| == LayerTotal(queues)
            && |batch| == (if LayerTotal(queues) < room then LayerTotal(queues) else room)
  {
    if queues != [] {
      var q := queues[0];
      var n := if |q| < room then |q| else room;
      var (rest, batch) := FormBatch(queues[1..], room - n);
      FormBatchSplits(queues[1..], room - n);
      assert ([q[n..]] + rest)[1..] == rest;
      Interleave(q, n, batch, Flatten(rest));
    }
  }

  lemma {:induction false} Interleave(q: seq<nat>, n: nat, batch: seq<nat>, rest: seq<nat>)
    requires n <= |q| && (n == |q| || batch == [])
    ensures (q[..n] + batch) + (q[n..] + rest) == q + (batch + rest)
  {
  }

  lemma {:induction false} BestIsFirstMaximum(scores: seq<real>)
    ensures var (layer, score) := Best(scores);
            && (layer.Some? ==>
                  && layer.value < |scores| && scores[layer.value] == score > 0.0
                  && (forall i :: 0 <= i < layer.value ==> scores[i] < score))
            && (layer.None? ==> score == 0.0)
            && (forall i :: 0 <= i < |scores| ==> scores[i] <= score)
  {
    if scores != [] {
      BestIsFirstMaximum(scores[..|scores| - 1]);
    }
  }

  lemma {:induction false} LookaheadNonNegative(totals: seq<nat>, layer: nat, steps: nat)
    requires totals != []
    ensures Lookahead(totals, layer, steps) >= 0.0 && Decay(steps) >= 0.0
  {
    if steps > 0 {
      LookaheadNonNegative(totals, layer, steps - 1);
    }
  }

  lemma {:induction false} TotalOfLayers(queues: seq<seq<seq<nat>>>)
    ensures QueueTotal(queues) > 0 <==> exists l :: 0 <= l < |queues| && LayerTotal(queues[l]) > 0
  {
    if queues != [] {
      TotalOfLayers(queues[1..]);
      if LayerTotal(queues[0]) == 0 && QueueTotal(queues) > 0 {
        var l :| 0 <= l < |queues[1..]| && LayerTotal(queues[1..][l]) > 0;
        assert queues[1..][l] == queues[l + 1];
      }
      if l :| 0 < l < |queues| && LayerTotal(queues[l]) > 0 {
        assert queues[1..][l - 1] == queues[l];
      }
    }
  }

  /**
   The scheduler works: with work around it selects attention work that exists, or a
   non-empty layer whose score is the greatest (the first such layer), under both policies.
   */
  lemma {:induction false} SelectedTaskHasWork(c: Config, w: Worker)
    requires WorkerOk(c, w) && !w.NoWork()
    ensures match SelectTask(c, w)
            case AttentionTask =>
              && w.attention != []
              && (forall l :: 0 <= l < |w.queues| && LayerTotal(w.queues[l]) > 0 ==>
                    Score(c.policy, LayerTotals(w.queues), l) < (|w.attention| * c.topK) as real)
            case ExpertTask(layer) =>
              && layer.Some? && layer.value < |w.queues| && LayerTotal(w.queues[layer.value]) > 0
              && (forall l :: 0 <= l < |w.queues| ==>
                    Score(c.policy, LayerTotals(w.queues), l) <= Score(c.policy, LayerTotals(w.queues), layer.value))
              && (forall l :: 0 <= l < layer.value ==>
                    Score(c.policy, LayerTotals(w.queues), l) < Score(c.policy, LayerTotals(w.queues), layer.value))
              && (|w.attention| * c.topK) as real <= Score(c.policy, LayerTotals(w.queues), layer.value)
  {
    hide QueueTotal, LayerTotal, Score, Best;
    var totals := LayerTotals(w.queues);
    var scores := Scores(c.policy, totals);
    BestIsFirstMaximum(scores);
    TotalOfLayers(w.queues);
    forall l | 0 <= l < |totals| ensures scores[l] > 0.0 <==> totals[l] > 0 {
      PositiveScore(c.policy, totals, l);
    }
    if w.total > 0 {
      var l :| 0 <= l < |w.queues| && LayerTotal(w.queues[l]) > 0;
      assert totals[l] > 0;
    }
  }

  lemma {:induction false} PositiveScore(policy: Policy, totals: seq<nat>, layer: nat)
    requires layer < |totals|
    ensures Score(policy, totals, layer) > 0.0 <==> totals[layer] > 0
  {
    LookaheadNonNegative(totals, layer, LOOKAHEAD_STEPS - 1);
  }

  /** The score of a layer that has tokens: its tokens, and those of the next three layers at 80%, 64% and 51.2%. */
  lemma {:induction false} ScoreWeighs(totals: seq<nat>, layer: nat)
    requires layer < |totals|
    ensures Score(LongestQueueFirst, totals, layer) == totals[layer] as real
    ensures var at := (k: nat) => totals[(layer + k) % |totals|] as real;
            Score(DefraggingV0, totals, layer)
            == if totals[layer] == 0 then 0.0 else totals[layer] as real + 0.8 * at(1) + 0.64 * at(2) + 0.512 * at(3)
  {
    assert Decay(1) == 0.8 && Decay(2) == 0.64 && Decay(3) == 0.512;
    assert Lookahead(totals, layer, 1) == totals[(layer + 1) % |totals|] as real * Decay(1);
    assert Lookahead(totals, layer, 2) == Lookahead(totals, layer, 1) + totals[(layer + 2) % |totals|] as real * Decay(2);
  }

  /** The batch is the front of the layer's queues read in order; the other layers keep theirs. */
  ghost predicate TakesFront(queues: seq<seq<seq<nat>>>, queues': seq<seq<seq<nat>>>, layer: nat, batch: seq<nat>) {
    && |queues'| == |queues| && layer < |queues|
    && batch + Flatten(queues'[layer]) == Flatten(queues[layer])
    && (forall l :: 0 <= l < |queues| && l != layer ==> queues'[l] == queues[l])
  }

  /** The oldest attention work, or a batch of one layer. */
  ghost predicate BeginsTask(w: Worker, w': Worker) {
    || (w'.phase.Attending? && w.attention == [w'.phase.work] + w'.attention && w.queues == w'.queues && w.total == w'.total)
    || (w'.phase.Computing? && w.attention == w'.attention && w.total == w'.total + |w'.phase.batch|
        && TakesFront(w.queues, w'.queues, w'.phase.layer, w'.phase.batch))
  }

  lemma {:induction false} BatchItems(c: Config, w: Worker, layer: nat)
    requires layer < |w.queues|
    ensures var (rest, batch) := FormBatch(w.queues[layer], c.maxBatch);
            && QueueItems(w.queues[layer := rest], 0) + Replicas(layer, batch) == QueueItems(w.queues, 0)
            && QueueTotal(w.queues[layer := rest]) + |batch| == QueueTotal(w.queues)
            && |batch| == (if LayerTotal(w.queues[layer]) < c.maxBatch then LayerTotal(w.queues[layer]) else c.maxBatch)
            && batch + Flatten(rest) == Flatten(w.queues[layer])
  {
    hide QueueItems, QueueTotal, LayerTotal, Replicas, Flatten, FormBatch;
    FormBatchSplits(w.queues[layer], c.maxBatch);
    var (rest, batch) := FormBatch(w.queues[layer], c.maxBatch);
    QueuesUpdate(w.queues, 0, layer, rest);
    TotalUpdate(w.queues, layer, rest);
    ReplicasConcat(layer, batch, Flatten(rest));
    Cancel(QueueItems(w.queues[layer := rest], 0) + Replicas(layer, batch),
           Replicas(layer, Flatten(rest)), QueueItems(w.queues, 0));
  }

  lemma {:induction false} BeginExpertKeeps(c: Config, w: Worker, layer: nat)
    requires c.WellFormed() && WorkerOk(c, w) && (w.phase.Ready? || w.phase.Asleep?)
    requires layer < |w.queues| && LayerTotal(w.queues[layer]) > 0
    ensures var w' := Begin(c, w, ExpertTask(Some(layer)));
            WorkerOk(c, w') && WorkerItems(w') == WorkerItems(w) && BeginsTask(w, w') && w'.phase.Computing? && w'.phase.layer == layer
  {
    hide QueueItems, QueueTotal, LayerTotal, Replicas, FormBatch, AttentionItems, Flatten;
    BatchItems(c, w, layer);
  }

  lemma {:induction false} BeginAttentionKeeps(c: Config, w: Worker)
    requires WorkerOk(c, w) && (w.phase.Ready? || w.phase.Asleep?) && w.attention != []
    ensures var w' := Begin(c, w, AttentionTask);
            WorkerOk(c, w') && WorkerItems(w') == WorkerItems(w) && BeginsTask(w, w') && w'.phase.Attending?
  {
    hide QueueItems, QueueTotal;
  }

  /**
   A turn keeps the worker consistent and moves items without losing one. It begins a task
   whenever there is work: the branches that spin on an empty selection are unreachable.
   */
  lemma {:induction false} TurnKeeps(c: Config, w: Worker)
    requires c.WellFormed() && WorkerOk(c, w)
    requires w.phase.Ready? || (w.phase.Asleep? && w.triggered)
    ensures WorkerOk(c, Turn(c, w)) && WorkerItems(Turn(c, w)) == WorkerItems(w)
    ensures w.NoWork() ==> Turn(c, w) == w.(phase := Asleep, triggered := false)
    ensures !w.NoWork() ==>
              && BeginsTask(w, Turn(c, w))
              && SelectTask(c, w) == match Turn(c, w).phase { case Computing(layer, _) => ExpertTask(Some(layer)) case _ => AttentionTask }
  {
    hide QueueItems, QueueTotal, LayerTotal, SelectTask, Begin, AttentionItems, Replicas, TakesFront;
    if !w.NoWork() {
      SelectedTaskHasWork(c, w);
      match SelectTask(c, w)
      case AttentionTask =>
        BeginAttentionKeeps(c, w);
      case ExpertTask(layer) =>
        BeginExpertKeeps(c, w, layer.value);
    }
  }
}

/**
 The simulator's mutable objects, statement by statement, each proved against the functions
 the step machine is built from. Fields named as in the simulator; `handed` is the sequence
 of calls an object has made to attention queues.
 */
module AsyncObjects {
  import opened Wrappers
  import opened AsyncCore
  import opened AsyncWorker

  class RequestManager {
    const c: Config
    var nextTid: nat
    var requestState: map<nat, nat>
    var requestHomeGpu: map<nat, nat>
    var nextHomeGpu: nat
    var pendingQueue: seq<nat>
    var tokens: seq<Token>
    var completed: seq<nat>
    var handed: seq<Work>

    function View(): Manager
      reads this
    {
      Manager(nextTid, requestState, requestHomeGpu, nextHomeGpu, pendingQueue, tokens, completed)
    }

    /** What a call that should behave like `outcome` does to the state. */
    ghost predicate Follows(outcome: Outcome, before: seq<Work>, r: Option<Error>)
      reads this
    {
      match outcome
      case Success((m, works)) => r.None? && View() == m && handed == before + works
      case Failure(error) => r == Some(error)
    }

    constructor (c: Config)
      requires c.WellFormed()
      ensures this.c == c && View() == InitialCore(c).mgr && handed == []
    {
      this.c := c;
      nextTid, requestState, requestHomeGpu, nextHomeGpu := 0, map[], map[], 0;
      pendingQueue, tokens, completed, handed := [], [], [], [];
    }

    method AdmitRequest(rid: nat) returns (r: Option<Error>)
      requires c.WellFormed()
      modifies this
      ensures Follows(Admit(c, old(View()), rid), old(handed), r)
    {
      if c.maxActive.None? || |requestState| < c.maxActive.value {
        r := StartRequestNow(rid);
      } else {
        pendingQueue := pendingQueue + [rid];
        r := None;
      }
    }

    method StartRequestNow(rid: nat) returns (r: Option<Error>)
      requires c.WellFormed()
      modifies this
      ensures Follows(StartNow(c, old(View()), rid), old(handed), r)
    {
      if rid in requestState {
        return Some(AlreadyStarted);
      }
      requestState := requestState[rid := 0];
      requestHomeGpu := requestHomeGpu[rid := nextHomeGpu % c.numWorkers];
      nextHomeGpu := nextHomeGpu + 1;
      r := DispatchNextToken(rid);
    }

    method HandleTokenCompletion(ref: nat) returns (r: Option<Error>)
      requires c.WellFormed() && ref < |tokens|
      modifies this
      ensures Follows(HandleCompletion(c, old(View()), ref), old(handed), r)
    {
      completed := completed + [ref];
      var rid := tokens[ref].rid;
      if rid !in requestState {
        return Some(UnknownRequest);
      }
      if tokens[ref].index + 1 < c.tokensPerRequest {
        r := DispatchNextToken(rid);
      } else {
        requestState := requestState - {rid};
        requestHomeGpu := requestHomeGpu - {rid};
        r := MaybeAdmitQueuedRequests();
      }
    }

    method DispatchNextToken(rid: nat) returns (r: Option<Error>)
      requires c.WellFormed()
      modifies this
      ensures Follows(DispatchNext(c, old(View()), rid), old(handed), r)
    {
      if rid !in requestState {
        return Some(NotTracked);
      }
      var nextIdx := requestState[rid];
      if nextIdx >= c.tokensPerRequest {
        return None;
      }
      if rid !in requestHomeGpu {
        return Some(MissingHome);
      }
      var token := Token(nextTid, rid, nextIdx, requestHomeGpu[rid], map[]);
      tokens := tokens + [token];
      nextTid := nextTid + 1;
      requestState := requestState[rid := nextIdx + 1];
      handed := handed + [Work(0, |tokens| - 1)];
      r := None;
    }

    method MaybeAdmitQueuedRequests() returns (r: Option<Error>)
      requires c.WellFormed()
      modifies this
      ensures Follows(AdmitQueued(c, old(View())), old(handed), r)
    {
      ghost var start := View();
      ghost var done: seq<Work> := [];
      NoMore(AdmitQueued(c, start));
      while pendingQueue != [] && (c.maxActive.None? || |requestState| < c.maxActive.value)
        invariant handed == old(handed) + done
        invariant AdmitQueued(c, start) == After(done, AdmitQueued(c, View()))
        decreases |pendingQueue|
      {
        var rid := pendingQueue[0];
        pendingQueue := pendingQueue[1..];
        ghost var outcome := StartNow(c, View(), rid);
        r := StartRequestNow(rid);
        if r.Some? {
          return;
        }
        AfterAfter(done, outcome.value.1, AdmitQueued(c, View()));
        done := done + outcome.value.1;
      }
      assert done + [] == done;
      r := None;
    }
  }

  /** An outcome preceded by works already handed over. */
  ghost function After(done: seq<Work>, outcome: Outcome): Outcome {
    match outcome
    case Success((m, works)) => Success((m, done + works))
    case Failure(error) => Failure(error)
  }

  lemma {:induction false} NoMore(outcome: Outcome)
    ensures After([], outcome) == outcome
  {
    assert outcome.Success? ==> [] + outcome.value.1 == outcome.value.1;
  }

  lemma {:induction false} AfterAfter(first: seq<Work>, second: seq<Work>, outcome: Outcome)
    ensures After(first, After(second, outcome)) == After(first + second, outcome)
  {
    assert outcome.Success? ==> first + (second + outcome.value.1) == first + second + outcome.value.1;
  }

  datatype Arrival = Waiting | Released | Refused(error: Error)

  /** The replica counts of one attention layer, or of the final completion tracker. */
  class ReplicaCounts {
    var pendingCounts: map<nat, nat>

    constructor ()
      ensures pendingCounts == map[]
    {
      pendingCounts := map[];
    }

    /** One replica of `token` came back from `layer`. */
    method RecordCompletion(token: Token, layer: nat) returns (r: Arrival)
      modifies this
      ensures (layer !in token.fanout || token.fanout[layer] == 0) <==> r == Refused(MissingFanout)
      ensures layer in token.fanout && token.fanout[layer] > 0 ==>
                match CountReplica(old(pendingCounts), token.tid, token.fanout[layer])
                case Success(Some(counts)) => r == Waiting && pendingCounts == counts
                case Success(None) => r == Released && pendingCounts == old(pendingCounts) - {token.tid}
                case Failure(error) => r == Refused(error)
    {
      if layer !in token.fanout || token.fanout[layer] == 0 {
        return Refused(MissingFanout);
      }
      var expected := token.fanout[layer];
      if token.tid !in pendingCounts {
        pendingCounts := pendingCounts[token.tid := 0];   // reading a missing key of a defaultdict creates it
      }
      var newCount := pendingCounts[token.tid] + 1;
      if newCount < expected {
        pendingCounts := pendingCounts[token.tid := newCount];
        return Waiting;
      }
      if newCount == expected {
        pendingCounts := pendingCounts - {token.tid};
        return Released;
      }
      r := Refused(TooManyCompletions);
    }
  }

  class ExpertWorker {
    const c: Config
    var queues: seq<seq<seq<nat>>>
    var totalQueueLength: int
    var attentionQueue: seq<Work>
    var hasWorkTriggered: bool
    var phase: Phase

    function View(): Worker
      reads this
    {
      Worker(queues, totalQueueLength, attentionQueue, hasWorkTriggered, phase)
    }

    constructor (c: Config)
      ensures this.c == c && View() == InitialWorker(c)
    {
      this.c := c;
      queues := seq(c.numLayers, _ => seq(c.queuesPerWorker, _ => []));
      totalQueueLength, attentionQueue, hasWorkTriggered, phase := 0, [], false, Ready;
    }

    method Enqueue(layer: nat, local: nat, ref: nat)
      requires layer < |queues| && local < |queues[layer]|
      modifies this
      ensures View() == AsyncWorker.EnqueueExpert(old(View()), layer, local, ref)
    {
      var wasEmpty := totalQueueLength == 0 && attentionQueue == [];
      queues := queues[layer := queues[layer][local := queues[layer][local] + [ref]]];
      totalQueueLength := totalQueueLength + 1;
      if wasEmpty && !hasWorkTriggered {
        hasWorkTriggered := true;
      }
    }

    method EnqueueAttention(work: Work)
      modifies this
      ensures View() == AsyncWorker.EnqueueAttention(old(View()), work)
    {
      var wasEmpty := totalQueueLength == 0 && attentionQueue == [];
      attentionQueue := attentionQueue + [work];
      if wasEmpty && !hasWorkTriggered {
        hasWorkTriggered := true;
      }
    }

    /** One pass of the process from the top of its loop, or from its wakeup, to its next yield. */
    method TakeTurn()
      requires c.WellFormed()
      modifies this
      ensures View() == Turn(c, old(View()))
    {
      if phase.Ready? && totalQueueLength == 0 && attentionQueue == [] {
        hasWorkTriggered := false;
        phase := Asleep;
        return;
      }
      var task, work := SelectNextTask();
      if task.AttentionTask? {
        phase := Attending(work);
        return;
      }
      if task.layer.None? {
        phase := Ready;
        return;
      }
      var batch := TakeBatch(task.layer.value);
      phase := if batch == [] then Ready else Computing(task.layer.value, batch);
    }

    method SelectNextTask() returns (task: Task, work: Work)
      requires c.WellFormed()
      modifies this
      ensures task == SelectTask(c, old(View()))
      ensures task.AttentionTask? ==> old(attentionQueue) != [] && work == old(attentionQueue)[0]
                                      && View() == old(View()).(attention := old(attentionQueue)[1..])
      ensures task.ExpertTask? ==> View() == old(View()) && (task.layer.Some? ==> task.layer.value < |queues|)
    {
      var layer, score;
      if c.policy == DefraggingV0 {
        layer, score := SelectNextLayerDefragging(queues);
      } else {
        layer, score := SelectNextLayerLongestFirst(queues);
      }
      work := Work(0, 0);
      if attentionQueue != [] && (layer.None? || (|attentionQueue| * c.topK) as real > score) {
        task, work := AttentionTask, attentionQueue[0];
        attentionQueue := attentionQueue[1..];
      } else {
        BestIsFirstMaximum(Scores(c.policy, LayerTotals(queues)));
        task := ExpertTask(layer);
      }
    }

    /** Merge the queues of a layer into one batch of at most `maxBatch` replicas. */
    method TakeBatch(layer: nat) returns (batch: seq<nat>)
      requires layer < |queues|
      modifies this`queues, this`totalQueueLength
      ensures var (rest, taken) := FormBatch(old(queues[layer]), c.maxBatch);
              && batch == taken
              && queues == (if taken == [] then old(queues) else old(queues)[layer := rest])
              && totalQueueLength == old(totalQueueLength) - |taken|
    {
      batch := [];
      ghost var start := queues[layer];
      var i := 0;
      assert Extend(start[..0], [], FormBatch(start[0..], c.maxBatch)) == FormBatch(start, c.maxBatch) by {
        assert start[..0] == [] && start[0..] == start;
        ExtendNothing(FormBatch(start, c.maxBatch));
      }
      while i < |queues[layer]|
        invariant |queues| == |old(queues)| && queues == old(queues)[layer := queues[layer]]
        invariant 0 <= i <= |queues[layer]| == |start| && |batch| <= c.maxBatch
        invariant queues[layer][i..] == start[i..]
        invariant totalQueueLength == old(totalQueueLength) - |batch|
        invariant FormBatch(start, c.maxBatch) == Extend(queues[layer][..i], batch, FormBatch(start[i..], c.maxBatch - |batch|))
      {
        ghost var before, row := batch, queues[layer];
        batch := PopUpTo(layer, i, batch);
        assert row[i] == start[i] && start[i..][1..] == start[i + 1..];
        assert queues[layer][i + 1..] == row[i + 1..] == row[i..][1..];
        ghost var n := |batch| - |before|;
        assert queues[layer][..i + 1] == row[..i] + [start[i][n..]];
        ExtendTwice(row[..i], before, start[i][n..], start[i][..n], FormBatch(start[i + 1..], c.maxBatch - |batch|));
        i := i + 1;
      }
      assert start[|start|..] == [];
      assert queues[layer][..|start|] + [] == queues[layer] && batch + [] == batch;
      assert FormBatch(start, c.maxBatch) == (queues[layer], batch);
      if batch == [] {
        NothingTaken(start, c.maxBatch);
        assert old(queues)[layer := start] == old(queues);
      }
    }

    /** Pop replicas of one queue onto the batch while there are any and there is room. */
    method PopUpTo(layer: nat, local: nat, batch: seq<nat>) returns (r: seq<nat>)
      requires layer < |queues| && local < |queues[layer]| && |batch| <= c.maxBatch
      modifies this`queues, this`totalQueueLength
      ensures var q := old(queues[layer][local]);
              var n := if |q| < c.maxBatch - |batch| then |q| else c.maxBatch - |batch|;
              && r == batch + q[..n]
              && queues == old(queues)[layer := old(queues[layer])[local := q[n..]]]
              && totalQueueLength == old(totalQueueLength) - n
    {
      r := batch;
      ghost var row, q, n := queues[layer], queues[layer][local], 0;
      assert q[0..] == q && row[local := q] == row;
      while queues[layer][local] != [] && |r| < c.maxBatch
        invariant 0 <= n <= |q| && r == batch + q[..n] && |r| <= c.maxBatch
        invariant |queues| == |old(queues)| && |queues[layer]| == |old(queues[layer])|
        invariant queues == old(queues)[layer := old(queues[layer])[local := q[n..]]]
        invariant totalQueueLength == old(totalQueueLength) - n
        decreases |q| - n
      {
        r := r + [queues[layer][local][0]];
        assert q[n..][1..] == q[n + 1..] && row[local := q[n..]][local := q[n + 1..]] == row[local := q[n + 1..]];
        queues := queues[layer := queues[layer][local := queues[layer][local][1..]]];
        totalQueueLength := totalQueueLength - 1;
        n := n + 1;
      }
    }
  }

  /** A batch in progress, continued. */
  ghost function Extend(rest: seq<seq<nat>>, batch: seq<nat>, more: (seq<seq<nat>>, seq<nat>)): (seq<seq<nat>>, seq<nat>) {
    (rest + more.0, batch + more.1)
  }

  lemma {:induction false} ExtendNothing(more: (seq<seq<nat>>, seq<nat>))
    ensures Extend([], [], more) == more
  {
    assert [] + more.0 == more.0 && [] + more.1 == more.1;
  }

  lemma {:induction false} ExtendTwice(rest: seq<seq<nat>>, batch: seq<nat>, left: seq<nat>, taken: seq<nat>, more: (seq<seq<nat>>, seq<nat>))
    ensures Extend(rest, batch, ([left] + more.0, taken + more.1)) == Extend(rest + [left], batch + taken, more)
  {
    assert rest + ([left] + more.0) == rest + [left] + more.0;
    assert batch + (taken + more.1) == batch + taken + more.1;
  }

  /** Taking an empty batch leaves the queues as they were. */
  lemma {:induction false} NothingTaken(queues: seq<seq<nat>>, room: nat)
    requires FormBatch(queues, room).1 == []
    ensures FormBatch(queues, room).0 == queues
  {
    if queues != [] {
      NothingTaken(queues[1..], room - if |queues[0]| < room then |queues[0]| else room);
    }
  }

  method LayerLength(layerQueues: seq<seq<nat>>) returns (total: nat)
    ensures total == LayerTotal(layerQueues)
  {
    total := 0;
    var i := 0;
    while i < |layerQueues|
      invariant 0 <= i <= |layerQueues| && total + LayerTotal(layerQueues[i..]) == LayerTotal(layerQueues)
    {
      assert layerQueues[i..][1..] == layerQueues[i + 1..];
      total := total + |layerQueues[i]|;
      i := i + 1;
    }
  }

  method AllLayerLengths(queues: seq<seq<seq<nat>>>) returns (totals: seq<nat>)
    ensures totals == LayerTotals(queues)
  {
    totals := [];
    while |totals| < |queues|
      invariant |totals| <= |queues| && totals == LayerTotals(queues)[..|totals|]
    {
      var total := LayerLength(queues[|totals|]);
      totals := totals + [total];
    }
  }

  /** The first greatest positive score. */
  method ArgMax(scores: seq<real>) returns (layer: Option<nat>, score: real)
    ensures (layer, score) == Best(scores)
  {
    layer, score := None, 0.0;
    var i := 0;
    while i < |scores|
      invariant 0 <= i <= |scores| && (layer, score) == Best(scores[..i])
    {
      assert scores[..i + 1][..i] == scores[..i];
      if scores[i] > score {
        layer, score := Some(i), scores[i];
      }
      i := i + 1;
    }
    assert scores[..|scores|] == scores;
  }

  /** The longest-queue-first selector: the layer with the most queued replicas, first on ties. */
  method SelectNextLayerLongestFirst(queues: seq<seq<seq<nat>>>) returns (layer: Option<nat>, score: real)
    ensures (layer, score) == Best(Scores(LongestQueueFirst, LayerTotals(queues)))
  {
    ghost var scores := Scores(LongestQueueFirst, LayerTotals(queues));
    layer, score := None, 0.0;
    var i := 0;
    while i < |queues|
      invariant 0 <= i <= |queues| && (layer, score) == Best(scores[..i])
    {
      var total := LayerLength(queues[i]);
      assert scores[..i + 1][..i] == scores[..i];
      if total as real > score {
        layer, score := Some(i), total as real;
      }
      i := i + 1;
    }
    assert scores[..|queues|] == scores;
  }

  method DefraggingScore(totals: seq<nat>, layer: nat) returns (score: real)
    requires layer < |totals|
    ensures score == Score(DefraggingV0, totals, layer)
  {
    if totals[layer] == 0 {
      return 0.0;
    }
    var lookahead, decay, k := 0.0, WEIGHT_DECAY, 1;
    while k < LOOKAHEAD_STEPS
      invariant 1 <= k <= LOOKAHEAD_STEPS && lookahead == Lookahead(totals, layer, k - 1) && decay == Decay(k)
    {
      var ahead := totals[(layer + k) % |totals|];
      if ahead > 0 {
        lookahead := lookahead + ahead as real * decay;
      }
      decay := decay * WEIGHT_DECAY;
      k := k + 1;
    }
    score := totals[layer] as real + lookahead;
  }

  /** The defragmenting selector: queued replicas plus a decayed lookahead over the next layers. */
  method SelectNextLayerDefragging(queues: seq<seq<seq<nat>>>) returns (layer: Option<nat>, score: real)
    ensures (layer, score) == Best(Scores(DefraggingV0, LayerTotals(queues)))
  {
    var totals := AllLayerLengths(queues);
    var scores: seq<real> := [];
    while |scores| < |queues|
      invariant |scores| <= |queues| && scores == Scores(DefraggingV0, totals)[..|scores|]
    {
      var next := DefraggingScore(totals, |scores|);
      scores := scores + [next];
    }
    assert scores == Scores(DefraggingV0, totals);
    layer, score := ArgMax(scores);
  }
}

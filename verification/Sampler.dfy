/**
 Teacher-forced replay with an output budget. A request enters with its prompt's KV loaded up
 to a page boundary (or with none); the rest of the prompt is forced through the decode loop
 one token a step, and only then does sampling begin. The object is proved against a step
 function, and the step function against what serving needs: the model is fed the prompt
 exactly once and in order, forced tokens never finish a request, and a request takes at
 most the larger of its output budget and the forced tokens plus one.
 */
module Sampler {
  import opened Wrappers
  import opened Counting

  /** The sampler's books for one live request. */
  datatype Request = Request(forced: seq<nat>, outLen: nat, maxOut: int, last: Option<nat>)

  datatype StepResult = StepResult(token: nat, finished: bool, next: Request)

  /** One decode step of a request, given the token the model would sample. */
  function StepRequest(eos: set<nat>, r: Request, sampled: nat): StepResult {
    if r.forced != [] then
      StepResult(r.forced[0], false, r.(forced := r.forced[1..], last := Some(r.forced[0])))
    else
      StepResult(sampled, sampled in eos || r.outLen + 1 >= r.maxOut, r.(outLen := r.outLen + 1, last := Some(sampled)))
  }

  function Created(tokenIds: seq<nat>, maxOut: int): Request
    requires tokenIds != []
  {
    Request(tokenIds[1..], 0, maxOut, None)
  }

  function MaxInt(a: int, b: int): int { if a >= b then a else b }

  /** Admission with `loaded` prompt positions already in the KV cache. */
  function AdmitLoaded(r: Request, loaded: nat, tokenIds: seq<nat>): Request
    requires loaded < |tokenIds|
  {
    var forced := tokenIds[loaded + 1..];
    r.(forced := forced,
       maxOut := if forced == [] then r.maxOut else MaxInt(1, r.maxOut - |forced|),
       last := Some(tokenIds[loaded]))
  }

  // ---------- the object ----------

  class RealSampler {
    const eosTokenIds: set<nat>
    const mooncake: bool
    var forced: map<nat, seq<nat>>
    var outLen: map<nat, nat>
    var reqMaxOutputLen: map<nat, int>
    var lastToken: map<nat, nat>

    /** Only live requests have entries, and every live request has its queue, length and budget. */
    ghost predicate Valid()
      reads this
    {
      forced.Keys == outLen.Keys == reqMaxOutputLen.Keys && lastToken.Keys <= forced.Keys
    }

    /** The books of the live requests. */
    ghost function Live(): map<nat, Request>
      reads this
      requires Valid()
    {
      map rid | rid in forced ::
        Request(forced[rid], outLen[rid], reqMaxOutputLen[rid], if rid in lastToken then Some(lastToken[rid]) else None)
    }

    constructor (eosTokenIds: set<nat>, mooncake: bool)
      ensures Valid() && Live() == map[] && this.eosTokenIds == eosTokenIds && this.mooncake == mooncake
    {
      this.eosTokenIds, this.mooncake := eosTokenIds, mooncake;
      forced, outLen, reqMaxOutputLen, lastToken := map[], map[], map[], map[];
    }

    /** An empty prompt is refused. */
    method CreateRequest(rid: nat, maxOutputLen: int, tokenIds: seq<nat>) returns (ok: bool)
      requires Valid()
      modifies this
      ensures Valid() && (ok <==> tokenIds != [])
      ensures tokenIds == [] ==> Live() == old(Live())
      ensures tokenIds != [] ==>
                var last := if rid in old(Live()) then old(Live())[rid].last else None;
                Live() == old(Live())[rid := Created(tokenIds, maxOutputLen).(last := last)]
    {
      if tokenIds == [] {
        return false;
      }
      reqMaxOutputLen := reqMaxOutputLen[rid := maxOutputLen];
      outLen := outLen[rid := 0];
      forced := forced[rid := tokenIds[1..]];
      ok := true;
    }

    /**
     The token to feed first and the number of valid KV positions before it; None when the
     tokens do not reach past the loaded positions, or when tokens are forced on a request
     that was never created. Without forced tokens such a request is admitted all the same.
     */
    method AdmitData(rid: nat, initPrefillLen: nat, tokenIds: seq<nat>) returns (r: Option<(nat, nat)>)
      requires Valid()
      modifies this
      ensures var loaded := if mooncake then initPrefillLen else 0;
              var raises := |tokenIds| <= loaded || (mooncake && rid !in old(Live()) && |tokenIds| > loaded + 1);
              r == if raises then None else Some((tokenIds[loaded], loaded))
      ensures rid in old(Live()) ==>
                && Valid()
                && Live() == if r.None? then old(Live()) else old(Live())[rid :=
                     if mooncake then AdmitLoaded(old(Live())[rid], initPrefillLen, tokenIds)
                     else old(Live())[rid].(last := Some(tokenIds[0]))]
      ensures rid !in old(Live()) ==>
                && outLen == old(outLen) && reqMaxOutputLen == old(reqMaxOutputLen)
                && forced == (if mooncake && |tokenIds| > initPrefillLen then old(forced)[rid := tokenIds[initPrefillLen + 1..]] else old(forced))
                && lastToken == (if r.Some? then old(lastToken)[rid := r.value.0] else old(lastToken))
    {
      if mooncake {
        if |tokenIds| < initPrefillLen + 1 {
          return None;
        }
        forced := forced[rid := tokenIds[initPrefillLen + 1..]];
        if forced[rid] != [] {
          if rid !in reqMaxOutputLen {
            return None;
          }
          reqMaxOutputLen := reqMaxOutputLen[rid := MaxInt(1, reqMaxOutputLen[rid] - |forced[rid]|)];
        }
        lastToken := lastToken[rid := tokenIds[initPrefillLen]];
        return Some((tokenIds[initPrefillLen], initPrefillLen));
      }
      if tokenIds == [] {
        return None;
      }
      lastToken := lastToken[rid := tokenIds[0]];
      r := Some((tokenIds[0], 0));
    }

    method CleanRequest(rid: nat)
      requires Valid()
      modifies this
      ensures Valid() && Live() == old(Live()) - {rid}
    {
      forced, outLen, reqMaxOutputLen, lastToken := forced - {rid}, outLen - {rid}, reqMaxOutputLen - {rid}, lastToken - {rid};
    }

    /** One row of a decode step; a request the sampler does not know is an error. */
    method StepRow(rid: nat, sampled: nat) returns (r: Option<(nat, bool)>)
      requires Valid()
      modifies this
      ensures Valid()
      ensures rid !in old(Live()) ==> r.None? && Live() == old(Live())
      ensures rid in old(Live()) ==>
                var step := StepRequest(eosTokenIds, old(Live())[rid], sampled);
                && r == Some((step.token, step.finished))
                && Live() == if step.finished then old(Live()) - {rid} else old(Live())[rid := step.next]
    {
      if rid !in outLen {
        return None;
      }
      var token, finished;
      if forced[rid] != [] {
        token, finished := forced[rid][0], false;
        forced := forced[rid := forced[rid][1..]];
      } else {
        token := sampled;
        outLen := outLen[rid := outLen[rid] + 1];
        finished := token in eosTokenIds || outLen[rid] >= reqMaxOutputLen[rid];
      }
      lastToken := lastToken[rid := token];
      if finished {
        CleanRequest(rid);
      }
      r := Some((token, finished));
    }

    /** A decode step over a batch: rows that go on, requests that finish, one token per row. */
    method Step(sampled: seq<nat>, reqIds: seq<nat>)
      returns (continueIds: seq<nat>, finishReqIds: seq<nat>, outTokens: seq<nat>, ok: bool)
      requires Valid() && |sampled| == |reqIds|
      modifies this
      ensures Valid()
      ensures var all := StepAll(eosTokenIds, old(Live()), sampled, reqIds, |reqIds|);
              && ok == all.Some?
              && (ok ==> Live() == all.value.live && continueIds == all.value.continued && finishReqIds == all.value.finished
                         && outTokens == all.value.tokens)
      ensures !ok ==> exists i :: 0 <= i < |reqIds| && StopsAt(eosTokenIds, old(Live()), sampled, reqIds, i, Live())
    {
      continueIds, finishReqIds, outTokens := [], [], [];
      var i := 0;
      while i < |reqIds|
        invariant 0 <= i <= |reqIds| && Valid()
        invariant StepAll(eosTokenIds, old(Live()), sampled, reqIds, i) == Some(Batch(Live(), continueIds, finishReqIds, outTokens))
      {
        var row := StepRow(reqIds[i], sampled[i]);
        if row.None? {
          assert StopsAt(eosTokenIds, old(Live()), sampled, reqIds, i, Live());
          UnknownStaysUnknown(eosTokenIds, old(Live()), sampled, reqIds, i + 1, |reqIds|);
          return continueIds, finishReqIds, outTokens, false;
        }
        outTokens := outTokens + [row.value.0];
        if row.value.1 {
          finishReqIds := finishReqIds + [reqIds[i]];
        } else {
          continueIds := continueIds + [i];
        }
        i := i + 1;
      }
      ok := true;
    }
  }

  datatype Batch = Batch(live: map<nat, Request>, continued: seq<nat>, finished: seq<nat>, tokens: seq<nat>)

  /** The first n rows of a batch; None as soon as a row's request is not live. */
  function StepAll(eos: set<nat>, live: map<nat, Request>, sampled: seq<nat>, ids: seq<nat>, n: nat): Option<Batch>
    requires n <= |ids| == |sampled|
  {
    if n == 0 then Some(Batch(live, [], [], []))
    else
      match StepAll(eos, live, sampled, ids, n - 1)
      case None => None
      case Some(b) =>
        if ids[n - 1] !in b.live then None
        else Some(AddRow(b, ids[n - 1], n - 1, StepRequest(eos, b.live[ids[n - 1]], sampled[n - 1])))
  }

  function AddRow(b: Batch, rid: nat, k: nat, step: StepResult): Batch {
    if step.finished then Batch(b.live - {rid}, b.continued, b.finished + [rid], b.tokens + [step.token])
    else Batch(b.live[rid := step.next], b.continued + [k], b.finished, b.tokens + [step.token])
  }

  /** Row i is the first of an unknown request, and the rows before it have been done. */
  ghost predicate StopsAt(eos: set<nat>, live: map<nat, Request>, sampled: seq<nat>, ids: seq<nat>, i: nat, after: map<nat, Request>)
    requires i < |ids| == |sampled|
  {
    var before := StepAll(eos, live, sampled, ids, i);
    before.Some? && ids[i] !in before.value.live && after == before.value.live
  }

  lemma {:induction false} UnknownStaysUnknown(eos: set<nat>, live: map<nat, Request>, sampled: seq<nat>, ids: seq<nat>, i: nat, n: nat)
    requires i <= n <= |ids| == |sampled| && StepAll(eos, live, sampled, ids, i).None?
    ensures StepAll(eos, live, sampled, ids, n).None?
    decreases n
  {
    if i < n {
      UnknownStaysUnknown(eos, live, sampled, ids, i, n - 1);
    }
  }

  /** What row k of a batch has done for its request. */
  predicate RowDone(step: StepResult, rid: nat, b: Batch, k: nat)
    requires k < |b.tokens|
  {
    && b.tokens[k] == step.token
    && (step.finished ==> rid in b.finished && k !in b.continued && rid !in b.live)
    && (!step.finished ==> rid !in b.finished && k in b.continued && rid in b.live && b.live[rid] == step.next)
  }

  /** Row k's step on the books as they were before the whole batch. */
  function OwnStep(eos: set<nat>, live: map<nat, Request>, sampled: seq<nat>, ids: seq<nat>, k: nat): StepResult
    requires k < |ids| == |sampled| && ids[k] in live
  {
    StepRequest(eos, live[ids[k]], sampled[k])
  }

  /** Only the first n rows have left a trace. */
  ghost predicate Untouched(live: map<nat, Request>, ids: seq<nat>, n: nat, b: Batch)
    requires n <= |ids|
  {
    && |b.tokens| == n && (forall k :: k in b.continued ==> k < n)
    && forall rid :: rid !in ids[..n] ==> rid !in b.finished && (rid in live <==> rid in b.live)
                                          && (rid in live ==> b.live[rid] == live[rid])
  }

  lemma {:induction false} AddRowUntouched(live: map<nat, Request>, ids: seq<nat>, n: nat, b: Batch, step: StepResult)
    requires n < |ids| && Untouched(live, ids, n, b)
    ensures Untouched(live, ids, n + 1, AddRow(b, ids[n], n, step))
  {
    assert ids[..n + 1] == ids[..n] + [ids[n]];
  }

  lemma {:induction false} NextIsUntouched(live: map<nat, Request>, ids: seq<nat>, n: nat, b: Batch)
    requires n < |ids| && Distinct(ids) && Untouched(live, ids, n, b) && ids[n] in live
    ensures ids[n] in b.live && b.live[ids[n]] == live[ids[n]]
    ensures |b.tokens| == n && n !in b.continued && ids[n] !in b.finished
  {
    assert ids[n] !in ids[..n];
  }

  lemma {:induction false} OthersUntouched(eos: set<nat>, live: map<nat, Request>, sampled: seq<nat>, ids: seq<nat>, n: nat)
    requires n <= |ids| == |sampled| && Distinct(ids)
    requires forall k :: 0 <= k < n ==> ids[k] in live
    ensures var all := StepAll(eos, live, sampled, ids, n); all.Some? && Untouched(live, ids, n, all.value)
  {
    if n > 0 {
      hide StepRequest, AddRow, Untouched;
      OthersUntouched(eos, live, sampled, ids, n - 1);
      var b := StepAll(eos, live, sampled, ids, n - 1).value;
      NextIsUntouched(live, ids, n - 1, b);
      AddRowUntouched(live, ids, n - 1, b, OwnStep(eos, live, sampled, ids, n - 1));
    }
  }

  lemma {:induction false} NewRow(step: StepResult, rid: nat, b: Batch)
    requires |b.tokens| !in b.continued && rid !in b.finished
    ensures var after := AddRow(b, rid, |b.tokens|, step);
            |after.tokens| == |b.tokens| + 1 && RowDone(step, rid, after, |b.tokens|)
  {
  }

  lemma {:induction false} OldRow(own: StepResult, rid: nat, k: nat, b: Batch, other: nat, step: StepResult)
    requires k < |b.tokens| && rid != other && RowDone(own, rid, b, k)
    ensures RowDone(own, rid, AddRow(b, other, |b.tokens|, step), k)
  {
  }

  /**
   Requests in a batch do not disturb each other: after any later rows, row k has emitted and
   left behind exactly what its own step on the books before the batch says.
   */
  lemma {:induction false} RowsAreIndependent(eos: set<nat>, live: map<nat, Request>, sampled: seq<nat>, ids: seq<nat>, n: nat, k: nat)
    requires k < n <= |ids| == |sampled| && Distinct(ids)
    requires forall i :: 0 <= i < n ==> ids[i] in live
    ensures var all := StepAll(eos, live, sampled, ids, n);
            all.Some? && |all.value.tokens| == n && RowDone(OwnStep(eos, live, sampled, ids, k), ids[k], all.value, k)
    decreases n
  {
    hide StepRequest, AddRow, Untouched, RowDone;
    OthersUntouched(eos, live, sampled, ids, n - 1);
    var b := StepAll(eos, live, sampled, ids, n - 1).value;
    NextIsUntouched(live, ids, n - 1, b);
    var step := OwnStep(eos, live, sampled, ids, n - 1);
    NewRow(step, ids[n - 1], b);
    if k < n - 1 {
      RowsAreIndependent(eos, live, sampled, ids, n - 1, k);
      OldRow(OwnStep(eos, live, sampled, ids, k), ids[k], k, b, ids[n - 1], step);
    }
  }

  // ---------- one request from admission to its end ----------

  /** What a request emits while the model samples `samples`, one a step, stopping when it finishes. */
  datatype Trace = Trace(tokens: seq<nat>, finished: bool, last: Request)

  function RunRequest(eos: set<nat>, r: Request, samples: seq<nat>): Trace
    decreases |samples|
  {
    if samples == [] then Trace([], false, r)
    else
      var step := StepRequest(eos, r, samples[0]);
      if step.finished then Trace([step.token], true, step.next)
      else
        var rest := RunRequest(eos, step.next, samples[1..]);
        rest.(tokens := [step.token] + rest.tokens)
  }

  /** A run on no samples, and a run on one sample and more. */
  lemma {:induction false} RunFirst(eos: set<nat>, r: Request, first: nat, rest: seq<nat>)
    ensures RunRequest(eos, r, []) == Trace([], false, r)
    ensures var step := StepRequest(eos, r, first); var later := RunRequest(eos, step.next, rest);
            && RunRequest(eos, r, [first] + rest)
               == (if step.finished then Trace([step.token], true, step.next) else later.(tokens := [step.token] + later.tokens))
            && RunRequest(eos, step.next, []) == Trace([], false, step.next)
  {
    assert ([first] + rest)[1..] == rest;
  }

  /** While forced tokens last they come out in order and nothing finishes. */
  lemma {:induction false} ForcedInOrder(eos: set<nat>, r: Request, samples: seq<nat>)
    requires |samples| <= |r.forced|
    ensures RunRequest(eos, r, samples).tokens == r.forced[..|samples|] && !RunRequest(eos, r, samples).finished
    decreases |samples|
  {
    if samples != [] {
      ForcedInOrder(eos, StepRequest(eos, r, samples[0]).next, samples[1..]);
    }
  }

  /** With more steps than forced tokens, a run is the forced tokens and then a run without any. */
  lemma {:induction false} ForcedThenSampled(eos: set<nat>, r: Request, samples: seq<nat>)
    requires |r.forced| < |samples|
    ensures RunRequest(eos, r, samples) == Prepend(r.forced, RunRequest(eos, Drained(r), samples[|r.forced|..]))
    decreases |samples|
  {
    var n := |r.forced|;
    if n == 0 {
      assert samples[0..] == samples && Drained(r) == r;
      assert r.forced + RunRequest(eos, r, samples).tokens == RunRequest(eos, r, samples).tokens;
    } else {
      var next := StepRequest(eos, r, samples[0]).next;
      ForcedThenSampled(eos, next, samples[1..]);
      assert Drained(next) == Drained(r);
      assert samples[1..][n - 1..] == samples[n..];
      var rest := RunRequest(eos, Drained(r), samples[n..]).tokens;
      assert [r.forced[0]] + (r.forced[1..] + rest) == r.forced + rest;
    }
  }

  /** The request once its forced tokens are out. */
  function Drained(r: Request): Request {
    r.(forced := [], last := if r.forced == [] then r.last else Some(r.forced[|r.forced| - 1]))
  }

  function Prepend(tokens: seq<nat>, t: Trace): Trace {
    t.(tokens := tokens + t.tokens)
  }

  /** Without forced tokens: every step is a sample, and the budget is met with a finish. */
  lemma {:induction false} SampledWithinBudget(eos: set<nat>, r: Request, samples: seq<nat>)
    requires r.forced == []
    ensures var t := RunRequest(eos, r, samples);
            && |t.tokens| <= |samples| && t.tokens == samples[..|t.tokens|]
            && (!t.finished ==> |t.tokens| == |samples|)
            && |t.tokens| <= MaxInt(1, r.maxOut - r.outLen)
            && (|samples| >= MaxInt(1, r.maxOut - r.outLen) ==> t.finished)
            && (t.finished <==> t.tokens != [] && (t.tokens[|t.tokens| - 1] in eos || r.outLen + |t.tokens| >= r.maxOut))
    decreases |samples|
  {
    if samples != [] {
      var step := StepRequest(eos, r, samples[0]);
      if !step.finished {
        SampledWithinBudget(eos, step.next, samples[1..]);
        var rest := RunRequest(eos, step.next, samples[1..]);
        assert [samples[0]] + samples[1..][..|rest.tokens|] == samples[..|rest.tokens| + 1];
      } else {
        assert [samples[0]] == samples[..1];
      }
    }
  }

  // ---------- one request over many batches ----------

  /** The books before a batch, and the batch. Between batches requests come and go. */
  datatype Turn = Turn(live: map<nat, Request>, sampled: seq<nat>, ids: seq<nat>)

  ghost predicate TurnOk(t: Turn) {
    |t.sampled| == |t.ids| && Distinct(t.ids) && forall k :: 0 <= k < |t.ids| ==> t.ids[k] in t.live
  }

  ghost function After(eos: set<nat>, t: Turn): (b: Batch)
    requires TurnOk(t)
    ensures |b.tokens| == |t.ids|
  {
    OthersUntouched(eos, t.live, t.sampled, t.ids, |t.ids|);
    StepAll(eos, t.live, t.sampled, t.ids, |t.ids|).value
  }

  /** Every batch is of distinct live requests, and request `rid` keeps its books from one batch to the next. */
  ghost predicate Continues(eos: set<nat>, turns: seq<Turn>, rid: nat) {
    && (forall i :: 0 <= i < |turns| ==> TurnOk(turns[i]))
    && (forall i :: 0 <= i < |turns| - 1 ==> SameBooks(After(eos, turns[i]).live, turns[i + 1].live, rid))
  }

  ghost predicate SameBooks(a: map<nat, Request>, b: map<nat, Request>, rid: nat) {
    (rid in a <==> rid in b) && (rid in a ==> a[rid] == b[rid])
  }

  /** The row of a request in a batch. */
  function RowOf(ids: seq<nat>, rid: nat): (k: Option<nat>)
    ensures k.Some? ==> k.value < |ids| && ids[k.value] == rid
    ensures k.None? ==> rid !in ids
  {
    if ids == [] then None
    else if ids[|ids| - 1] == rid then Some(|ids| - 1)
    else RowOf(ids[..|ids| - 1], rid)
  }

  /** The tokens sampled at the request's rows. */
  function Seen(turns: seq<Turn>, rid: nat): seq<nat>
    requires forall i :: 0 <= i < |turns| ==> |turns[i].sampled| == |turns[i].ids|
  {
    if turns == [] then []
    else
      var k := RowOf(turns[0].ids, rid);
      (if k.Some? then [turns[0].sampled[k.value]] else []) + Seen(turns[1..], rid)
  }

  /** The tokens emitted at the request's rows. */
  ghost function Emitted(eos: set<nat>, turns: seq<Turn>, rid: nat): seq<nat>
    requires forall i :: 0 <= i < |turns| ==> TurnOk(turns[i])
  {
    if turns == [] then []
    else
      var k := RowOf(turns[0].ids, rid);
      (if k.Some? then [After(eos, turns[0]).tokens[k.value]] else []) + Emitted(eos, turns[1..], rid)
  }

  /** A request that has finished is in no later batch. */
  lemma {:induction false} GoneStaysGone(eos: set<nat>, turns: seq<Turn>, rid: nat)
    requires Continues(eos, turns, rid) && (turns != [] ==> rid !in turns[0].live)
    ensures Seen(turns, rid) == [] && Emitted(eos, turns, rid) == []
    ensures turns != [] ==> rid !in After(eos, turns[|turns| - 1]).live
    decreases |turns|
  {
    if turns != [] {
      TurnFor(eos, turns[0], rid);
      if |turns| > 1 {
        assert SameBooks(After(eos, turns[0]).live, turns[1].live, rid);
      }
      LaterTurns(eos, turns, rid);
      GoneStaysGone(eos, turns[1..], rid);
    }
  }

  lemma {:induction false} LaterTurns(eos: set<nat>, turns: seq<Turn>, rid: nat)
    requires Continues(eos, turns, rid) && turns != []
    ensures Continues(eos, turns[1..], rid)
  {
    forall i | 0 <= i < |turns[1..]| - 1 ensures SameBooks(After(eos, turns[1..][i]).live, turns[1..][i + 1].live, rid) {
      assert SameBooks(After(eos, turns[i + 1]).live, turns[i + 2].live, rid);
    }
  }

  /** What one batch does for a request: its own step if it has a row, and nothing otherwise. */
  lemma {:induction false} TurnFor(eos: set<nat>, t: Turn, rid: nat)
    requires TurnOk(t)
    ensures var k, b := RowOf(t.ids, rid), After(eos, t);
            && (k.None? ==> SameBooks(t.live, b.live, rid))
            && (k.Some? ==> rid in t.live && RowDone(StepRequest(eos, t.live[rid], t.sampled[k.value]), rid, b, k.value))
  {
    hide StepRequest, RowDone;
    var k, n := RowOf(t.ids, rid), |t.ids|;
    OthersUntouched(eos, t.live, t.sampled, t.ids, n);
    assert t.ids[..n] == t.ids;
    if k.Some? {
      RowsAreIndependent(eos, t.live, t.sampled, t.ids, n, k.value);
    }
  }

  /**
   Over any sequence of batches, whatever else they contain and whatever happens to other
   requests in between, a request emits exactly what it would emit alone on the tokens sampled
   at its own rows, and is gone exactly when it has finished.
   */
  lemma {:induction false} BatchesRunRequest(eos: set<nat>, turns: seq<Turn>, rid: nat)
    requires turns != [] && Continues(eos, turns, rid) && rid in turns[0].live
    ensures var t := RunRequest(eos, turns[0].live[rid], Seen(turns, rid));
            var books := After(eos, turns[|turns| - 1]).live;
            && Emitted(eos, turns, rid) == t.tokens
            && (rid in books <==> !t.finished)
            && (!t.finished ==> books[rid] == t.last)
    decreases |turns|
  {
    hide StepRequest, StepAll, After, Distinct, RunRequest, RowOf;
    var first, rest := turns[0], turns[1..];
    TurnFor(eos, first, rid);
    LaterTurns(eos, turns, rid);
    var k, b := RowOf(first.ids, rid), After(eos, first);
    if rest != [] {
      assert SameBooks(b.live, turns[1].live, rid);
      if rid in b.live {
        BatchesRunRequest(eos, rest, rid);
      } else {
        GoneStaysGone(eos, rest, rid);
      }
    }
    if k.Some? {
      RunFirst(eos, first.live[rid], first.sampled[k.value], Seen(rest, rid));
    } else {
      RunFirst(eos, first.live[rid], 0, []);
      assert Seen(turns, rid) == Seen(rest, rid) && Emitted(eos, turns, rid) == Emitted(eos, rest, rid);
    }
  }

  function PageAligned(n: nat): nat { n / 16 * 16 }

  /** The request right after admission with the page-aligned prefix of its prompt loaded. */
  function Admitted(prompt: seq<nat>, first: nat, maxOut: int): Request {
    AdmitLoaded(Created(prompt + [first], maxOut), PageAligned(|prompt|), prompt + [first])
  }

  /**
   Replay is exact: the loaded prefix, the token fed at admission and the forced tokens are,
   in this order, the prompt followed by its first generated token.
   */
  lemma {:induction false} ReplayIsExact(prompt: seq<nat>, first: nat, maxOut: int)
    ensures var loaded := PageAligned(|prompt|); var r := Admitted(prompt, first, maxOut);
            && loaded <= |prompt| && loaded % 16 == 0 && |prompt| - loaded < 16
            && r.last.Some?
            && prompt[..loaded] + [r.last.value] + r.forced == prompt + [first]
            && |r.forced| == |prompt| - loaded
  {
    var loaded, ids := PageAligned(|prompt|), prompt + [first];
    assert ids == ids[..loaded] + [ids[loaded]] + ids[loaded + 1..];
    assert ids[..loaded] == prompt[..loaded];
  }

  /** The teacher-forced start without any loaded KV: the first prompt token is fed, the others are forced. */
  lemma {:induction false} WarmStartIsExact(prompt: seq<nat>, maxOut: int)
    requires prompt != []
    ensures [prompt[0]] + Created(prompt, maxOut).forced == prompt
  {
    assert prompt == [prompt[0]] + prompt[1..];
  }

  /**
   Whatever the model samples, a request emits its forced tokens and then at most its remaining
   budget of samples, at least one, and is finished once that many steps have run, or earlier
   on an end token only.
   */
  lemma {:induction false} StepsWithinBudget(eos: set<nat>, r: Request, samples: seq<nat>)
    ensures var t := RunRequest(eos, r, samples);
            var n := |r.forced|; var limit := n + MaxInt(1, r.maxOut - r.outLen);
            && |t.tokens| <= limit
            && (|samples| >= limit ==> t.finished)
            && (t.finished ==> |t.tokens| > n && t.tokens[..n] == r.forced)
            && (!t.finished ==> |t.tokens| == |samples|)
            && (t.finished ==> t.tokens[|t.tokens| - 1] in eos || |t.tokens| == limit)
  {
    var n := |r.forced|;
    if |samples| <= n {
      ForcedInOrder(eos, r, samples);
    } else {
      ForcedThenSampled(eos, r, samples);
      SampledWithinBudget(eos, Drained(r), samples[n..]);
    }
  }

  /** After a page-aligned load the whole request takes max(budget, forced + 1) steps, fewer only when an end token is sampled. */
  lemma {:induction false} StepsAreBounded(eos: set<nat>, prompt: seq<nat>, first: nat, maxOut: int, samples: seq<nat>)
    ensures var r := Admitted(prompt, first, maxOut); var t := RunRequest(eos, r, samples);
            var limit := MaxInt(maxOut, |r.forced| + 1);
            && |t.tokens| <= limit && (|samples| >= limit ==> t.finished)
            && (t.finished ==> t.tokens != [] && (t.tokens[|t.tokens| - 1] in eos || |t.tokens| == limit))
  {
    StepsWithinBudget(eos, Admitted(prompt, first, maxOut), samples);
  }
}

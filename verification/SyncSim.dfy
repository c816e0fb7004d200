/**
 The barrier simulator's shortcuts. A worker's longest-queue-first drain takes a time that
 does not depend on the order of service; the time of a burst of transfers into a port is the
 larger of two totals, which is when the last of them completes on the event-driven port; and
 the loads that experts see are the same tokens that the network carries.
 */
module SyncSim {
  import opened Wrappers
  import opened Counting

  // ---------- draining a worker's queues ----------

  /** What serving some tokens costs. */
  datatype Cost = Cost(tokens: nat, batches: nat, time: real)

  function Plus(a: Cost, b: Cost): Cost {
    Cost(a.tokens + b.tokens, a.batches + b.batches, a.time + b.time)
  }

  /** The closed form for one queue: full batches, and one smaller batch if tokens are left over. */
  function QueueCost(q: nat, batch: nat, time: nat -> real): Cost
    requires batch > 0
  {
    if q % batch == 0 then Cost(q, q / batch, Times(q / batch, time(batch)))
    else Cost(q, q / batch + 1, Times(q / batch, time(batch)) + time(q % batch))
  }

  function Times(n: nat, t: real): real { n as real * t }

  function TotalCost(queues: seq<nat>, batch: nat, time: nat -> real): Cost
    requires batch > 0
  {
    if queues == [] then Cost(0, 0, 0.0)
    else Plus(TotalCost(queues[..|queues| - 1], batch, time), QueueCost(queues[|queues| - 1], batch, time))
  }

  lemma {:induction false} OneTimeMore(d: nat, t: real)
    ensures Times(d + 1, t) == Times(d, t) + t && Times(0, t) == 0.0
  {
    assert (d + 1) as real == d as real + 1.0;
  }

  lemma {:induction false} OneBatchLess(q: nat, batch: nat)
    requires 0 < batch <= q
    ensures q / batch == (q - batch) / batch + 1 && q % batch == (q - batch) % batch
  {
    var d, r := (q - batch) / batch, (q - batch) % batch;
    assert d * batch + r == q - batch && (d + 1) * batch == d * batch + batch;
    CodeInjective(batch, q / batch, q % batch, d + 1, r);
  }

  lemma {:induction false} SmallQueue(q: nat, batch: nat)
    requires q < batch
    ensures q / batch == 0 && q % batch == q
  {
  }

  /** Serving one batch of a queue pays for exactly that batch. */
  lemma {:induction false} ServeOne(q: nat, batch: nat, time: nat -> real)
    requires batch > 0 && q > 0
    ensures var b := if q <= batch then q else batch;
            QueueCost(q, batch, time) == Plus(Cost(b, 1, time(b)), QueueCost(q - b, batch, time))
  {
    hide Times;
    if q < batch {
      SmallQueue(q, batch);
      SmallQueue(0, batch);
      OneTimeMore(0, time(batch));
    } else {
      OneBatchLess(q, batch);
      OneTimeMore((q - batch) / batch, time(batch));
    }
  }

  /** Changing one queue changes the total by that queue's cost. */
  lemma {:induction false} ServeInTotal(queues: seq<nat>, i: nat, rest: nat, paid: Cost, batch: nat, time: nat -> real)
    requires batch > 0 && i < |queues|
    requires QueueCost(queues[i], batch, time) == Plus(paid, QueueCost(rest, batch, time))
    ensures TotalCost(queues, batch, time) == Plus(paid, TotalCost(queues[i := rest], batch, time))
  {
    hide QueueCost;
    var n := |queues| - 1;
    if i < n {
      ServeInTotal(queues[..n], i, rest, paid, batch, time);
      assert queues[i := rest][..n] == queues[..n][i := rest];
    } else {
      assert queues[i := rest][..n] == queues[..n];
    }
  }

  lemma {:induction false} EmptyCostsNothing(queues: seq<nat>, batch: nat, time: nat -> real)
    requires batch > 0 && forall i :: 0 <= i < |queues| ==> queues[i] == 0
    ensures TotalCost(queues, batch, time) == Cost(0, 0, 0.0)
  {
    if queues != [] {
      EmptyCostsNothing(queues[..|queues| - 1], batch, time);
      SmallQueue(0, batch);
    }
  }

  lemma {:induction false} QueueTokens(q: nat, batch: nat, time: nat -> real)
    requires batch > 0
    ensures QueueCost(q, batch, time).tokens == q
  {
    hide Times;
  }

  /** With tokens left, some queue has tokens. */
  lemma {:induction false} TokensSomewhere(queues: seq<nat>, batch: nat, time: nat -> real)
    requires batch > 0
    ensures TotalCost(queues, batch, time).tokens == 0 <==> forall i :: 0 <= i < |queues| ==> queues[i] == 0
  {
    hide QueueCost;
    if queues != [] {
      var n := |queues| - 1;
      QueueTokens(queues[n], batch, time);
      TokensSomewhere(queues[..n], batch, time);
      assert forall i :: 0 <= i < n ==> queues[..n][i] == queues[i];
    }
  }

  method LongestQueue(queues: seq<nat>) returns (k: nat)
    requires queues != []
    ensures k < |queues|
    ensures forall i :: 0 <= i < |queues| ==> queues[i] <= queues[k]
    ensures forall i :: 0 <= i < k ==> queues[i] < queues[k]
  {
    k := 0;
    for i := 1 to |queues|
      invariant k < i
      invariant forall j :: 0 <= j < i ==> queues[j] <= queues[k]
      invariant forall j :: 0 <= j < k ==> queues[j] < queues[k]
    {
      if queues[i] > queues[k] {
        k := i;
      }
    }
  }

  /** Longest queue first, one batch at a time, until every queue is empty. */
  method SimulateWorkerCompute(loads: seq<nat>, maxBatch: nat, time: nat -> real)
    returns (elapsed: real, batches: nat, served: nat)
    requires maxBatch > 0
    ensures Cost(served, batches, elapsed) == TotalCost(loads, maxBatch, time)
  {
    hide QueueCost, TotalCost;
    var queues: seq<nat> := loads;
    var total := SumLoads(loads, maxBatch, time);
    elapsed, batches, served := 0.0, 0, 0;
    while total > 0
      invariant |queues| == |loads|
      invariant total == TotalCost(queues, maxBatch, time).tokens
      invariant TotalCost(loads, maxBatch, time) == Plus(Cost(served, batches, elapsed), TotalCost(queues, maxBatch, time))
      decreases total
    {
      TokensSomewhere(queues, maxBatch, time);
      var k := LongestQueue(queues);
      var available := queues[k];
      var batch := if available <= maxBatch then available else maxBatch;
      ServeOne(available, maxBatch, time);
      ServeInTotal(queues, k, available - batch, Cost(batch, 1, time(batch)), maxBatch, time);
      queues := queues[k := available - batch];
      total := total - batch;
      elapsed, batches, served := elapsed + time(batch), batches + 1, served + batch;
    }
    TokensSomewhere(queues, maxBatch, time);
    EmptyCostsNothing(queues, maxBatch, time);
  }

  /** The token total, added up queue by queue. */
  method SumLoads(loads: seq<nat>, ghost batch: nat, ghost time: nat -> real) returns (total: nat)
    requires batch > 0
    ensures total == TotalCost(loads, batch, time).tokens
  {
    hide QueueCost;
    total := 0;
    for i := 0 to |loads|
      invariant total == TotalCost(loads[..i], batch, time).tokens
    {
      assert loads[..i + 1][..i] == loads[..i];
      QueueTokens(loads[i], batch, time);
      total := total + loads[i];
    }
    assert loads[..|loads|] == loads;
  }

  // ---------- the two-channel receive port ----------

  datatype Transfer = Transfer(sameHost: bool, delay: real)

  /** The total time of the transfers on one channel. */
  function ChannelTotal(ts: seq<Transfer>, sameHost: bool): real {
    if ts == [] then 0.0
    else ChannelTotal(ts[..|ts| - 1], sameHost) + if ts[|ts| - 1].sameHost == sameHost then ts[|ts| - 1].delay else 0.0
  }

  /** A channel carries one transfer at a time, first come first served. */
  datatype Channel = Idle | Busy(ends: real, waiting: seq<real>)

  function Total(delays: seq<real>): real {
    if delays == [] then 0.0 else delays[0] + Total(delays[1..])
  }

  function Request(c: Channel, now: real, delay: real): Channel {
    match c
    case Idle => Busy(now + delay, [])
    case Busy(ends, waiting) => Busy(ends, waiting + [delay])
  }

  function Release(c: Channel): Channel
    requires c.Busy?
  {
    if c.waiting == [] then Idle else Busy(c.ends + c.waiting[0], c.waiting[1..])
  }

  /** The channel's work completes at `at`, none of it before `now`. */
  ghost predicate CompletesAt(c: Channel, now: real, at: real) {
    match c
    case Idle => at <= now
    case Busy(ends, waiting) =>
      now <= ends && ends + Total(waiting) == at && forall i :: 0 <= i < |waiting| ==> waiting[i] > 0.0
  }

  lemma {:induction false} TotalAppend(delays: seq<real>, d: real)
    ensures Total(delays + [d]) == Total(delays) + d
  {
    if delays != [] {
      TotalAppend(delays[1..], d);
      assert (delays + [d])[1..] == delays[1..] + [d];
    } else {
      assert [d][1..] == [];
    }
  }

  lemma {:induction false} TotalNonNegative(delays: seq<real>)
    requires forall i :: 0 <= i < |delays| ==> delays[i] > 0.0
    ensures Total(delays) >= 0.0
  {
    if delays != [] {
      TotalNonNegative(delays[1..]);
    }
  }

  lemma {:induction false} ReleaseKeeps(c: Channel, now: real, at: real)
    requires c.Busy? && CompletesAt(c, now, at)
    ensures now <= c.ends <= at && CompletesAt(Release(c), c.ends, at)
  {
    TotalNonNegative(c.waiting);
  }

  function MaxReal(a: real, b: real): real { if a >= b then a else b }

  /** When the work a channel already has is done; an idle one is done now. */
  function Backlog(c: Channel, now: real): real {
    match c
    case Idle => now
    case Busy(ends, waiting) => ends + Total(waiting)
  }

  /** A channel as it can be found: what it carries ends later, and everything waiting takes time. */
  ghost predicate Running(c: Channel, now: real) {
    c.Busy? ==> now <= c.ends && forall i :: 0 <= i < |c.waiting| ==> c.waiting[i] > 0.0
  }

  /**
   All transfers are requested at `now`, in the given order, on a port that may still be busy;
   then completions happen one by one in time order. The last of them comes when the larger of
   the two channels has worked off its backlog and its total. On an idle port that is the
   closed form of the barrier model.
   */
  method RunPort(transfers: seq<Transfer>, now: real, nvlink0: Channel, rdma0: Channel) returns (last: real)
    requires forall i :: 0 <= i < |transfers| ==> transfers[i].delay >= 0.0
    requires Running(nvlink0, now) && Running(rdma0, now)
    ensures last == MaxReal(Backlog(nvlink0, now) + ChannelTotal(transfers, true), Backlog(rdma0, now) + ChannelTotal(transfers, false))
    ensures nvlink0.Idle? && rdma0.Idle? ==>
              last == now + MaxReal(ChannelTotal(transfers, true), ChannelTotal(transfers, false))
  {
    hide CompletesAt, Release, Backlog, Running;
    BacklogLater(nvlink0, now);
    BacklogLater(rdma0, now);
    var nvlink, rdma := RequestAll(transfers, now, nvlink0, rdma0);
    ghost var a, b := Backlog(nvlink0, now) + ChannelTotal(transfers, true), Backlog(rdma0, now) + ChannelTotal(transfers, false);
    last := now;
    while nvlink.Busy? || rdma.Busy?
      invariant CompletesAt(nvlink, last, a) && CompletesAt(rdma, last, b)
      invariant last <= MaxReal(a, b)
      decreases Pending(nvlink) + Pending(rdma)
    {
      PendingDrops(nvlink);
      PendingDrops(rdma);
      if nvlink.Busy? && (rdma.Idle? || nvlink.ends <= rdma.ends) {
        ReleaseKeeps(nvlink, last, a);
        Later(rdma, last, b, nvlink.ends);
        last, nvlink := nvlink.ends, Release(nvlink);
      } else {
        ReleaseKeeps(rdma, last, b);
        Later(nvlink, last, a, rdma.ends);
        last, rdma := rdma.ends, Release(rdma);
      }
    }
    Later(nvlink, last, a, last);
    Later(rdma, last, b, last);
  }

  lemma {:induction false} BacklogLater(c: Channel, now: real)
    requires Running(c, now)
    ensures Backlog(c, now) >= now && CompletesAt(c, now, Backlog(c, now)) && (c.Idle? ==> Backlog(c, now) == now)
  {
    if c.Busy? {
      TotalNonNegative(c.waiting);
    }
  }

  function Pending(c: Channel): nat {
    match c
    case Idle => 0
    case Busy(_, waiting) => 1 + |waiting|
  }

  lemma {:induction false} PendingDrops(c: Channel)
    ensures c.Busy? ==> Pending(Release(c)) < Pending(c)
  {
  }

  /** Further requests, one after the other. */
  function Requests(c: Channel, now: real, delays: seq<real>): Channel
    decreases |delays|
  {
    if delays == [] then c else Requests(Request(c, now, delays[0]), now, delays[1..])
  }

  /** The channel after its next k completions. */
  function Releases(c: Channel, k: nat): Channel
    decreases k
  {
    if k == 0 || c.Idle? then c else Releases(Release(c), k - 1)
  }

  lemma {:induction false} RequestsQueue(ends: real, waiting: seq<real>, now: real, delays: seq<real>)
    ensures Requests(Busy(ends, waiting), now, delays) == Busy(ends, waiting + delays)
    decreases |delays|
  {
    if delays == [] {
      assert waiting + delays == waiting;
    } else {
      RequestsQueue(ends, waiting + [delays[0]], now, delays[1..]);
      assert waiting + [delays[0]] + delays[1..] == waiting + delays;
    }
  }

  lemma {:induction false} ReleasesServe(ends: real, waiting: seq<real>, delay: real, later: seq<real>)
    ensures Releases(Busy(ends, waiting + [delay] + later), |waiting| + 1) == Busy(ends + Total(waiting) + delay, later)
    decreases |waiting|
  {
    var queue := waiting + [delay] + later;
    if waiting == [] {
      assert queue[0] == delay && queue[1..] == later;
    } else {
      assert queue[1..] == waiting[1..] + [delay] + later;
      ReleasesServe(ends + waiting[0], waiting[1..], delay, later);
    }
  }

  /**
   First come, first served: whatever is requested after it, a transfer has the channel once
   those before it are done, and completes its own delay after their backlog.
   */
  lemma {:induction false} FirstComeFirstServed(c: Channel, now: real, delay: real, later: seq<real>)
    ensures Releases(Requests(Request(c, now, delay), now, later), Pending(c)) == Busy(Backlog(c, now) + delay, later)
  {
    match c
    case Idle =>
      RequestsQueue(now + delay, [], now, later);
      assert [] + later == later;
    case Busy(ends, waiting) =>
      RequestsQueue(ends, waiting + [delay], now, later);
      ReleasesServe(ends, waiting, delay, later);
  }

  /** Time may pass up to the channel's next completion. */
  lemma {:induction false} Later(c: Channel, now: real, at: real, t: real)
    requires CompletesAt(c, now, at) && now <= t && (c.Busy? ==> t <= c.ends)
    ensures CompletesAt(c, t, at) && (c.Idle? ==> at <= t)
  {
  }

  /** The request phase; a transfer without delay never takes a channel. */
  method RequestAll(transfers: seq<Transfer>, now: real, nvlink0: Channel, rdma0: Channel) returns (nvlink: Channel, rdma: Channel)
    requires forall i :: 0 <= i < |transfers| ==> transfers[i].delay >= 0.0
    requires Running(nvlink0, now) && Running(rdma0, now)
    ensures CompletesAt(nvlink, now, Backlog(nvlink0, now) + ChannelTotal(transfers, true))
    ensures CompletesAt(rdma, now, Backlog(rdma0, now) + ChannelTotal(transfers, false))
    ensures ChannelTotal(transfers, true) >= 0.0 && ChannelTotal(transfers, false) >= 0.0
  {
    hide CompletesAt, Backlog, Running;
    nvlink, rdma := nvlink0, rdma0;
    BacklogLater(nvlink0, now);
    BacklogLater(rdma0, now);
    ghost var a, b := Backlog(nvlink0, now), Backlog(rdma0, now);
    assert a + 0.0 == a && b + 0.0 == b;
    for i := 0 to |transfers|
      invariant CompletesAt(nvlink, now, a + ChannelTotal(transfers[..i], true))
      invariant CompletesAt(rdma, now, b + ChannelTotal(transfers[..i], false))
      invariant ChannelTotal(transfers[..i], true) >= 0.0 && ChannelTotal(transfers[..i], false) >= 0.0
      invariant nvlink.Idle? ==> a + ChannelTotal(transfers[..i], true) == now
      invariant rdma.Idle? ==> b + ChannelTotal(transfers[..i], false) == now
    {
      var t := transfers[i];
      assert transfers[..i + 1][..i] == transfers[..i];
      if t.delay > 0.0 {
        if t.sameHost {
          RequestKeeps(nvlink, now, a + ChannelTotal(transfers[..i], true), t.delay);
          nvlink := Request(nvlink, now, t.delay);
        } else {
          RequestKeeps(rdma, now, b + ChannelTotal(transfers[..i], false), t.delay);
          rdma := Request(rdma, now, t.delay);
        }
      }
    }
    assert transfers[..|transfers|] == transfers;
  }

  lemma {:induction false} RequestKeeps(c: Channel, now: real, at: real, delay: real)
    requires CompletesAt(c, now, at) && delay > 0.0 && (c.Idle? ==> at == now)
    ensures CompletesAt(Request(c, now, delay), now, at + delay)
  {
    if c.Busy? {
      TotalAppend(c.waiting, delay);
    }
  }

  /** The closed form does not depend on the order of the transfers. */
  lemma {:induction false} TotalIsOrderFree(xs: seq<Transfer>, ys: seq<Transfer>, sameHost: bool)
    requires multiset(xs) == multiset(ys)
    ensures ChannelTotal(xs, sameHost) == ChannelTotal(ys, sameHost)
    decreases |xs|
  {
    if xs == [] {
      assert |multiset(ys)| == 0;
    } else {
      var n := |xs| - 1;
      assert xs[n] in multiset(ys);
      var k :| 0 <= k < |ys| && ys[k] == xs[n];
      TakeOut(ys, k, sameHost);
      assert xs == xs[..n] + [xs[n]];
      assert ys == ys[..k] + [ys[k]] + ys[k + 1..];
      assert multiset(ys) == multiset(ys[..k] + ys[k + 1..]) + multiset{xs[n]};
      Cancel(multiset(xs[..n]), multiset{xs[n]}, multiset(ys[..k] + ys[k + 1..]));
      TotalIsOrderFree(xs[..n], ys[..k] + ys[k + 1..], sameHost);
    }
  }

  lemma {:induction false} ChannelTotalAdds(xs: seq<Transfer>, ys: seq<Transfer>, sameHost: bool)
    ensures ChannelTotal(xs + ys, sameHost) == ChannelTotal(xs, sameHost) + ChannelTotal(ys, sameHost)
  {
    if ys == [] {
      assert xs + ys == xs;
    } else {
      var n := |ys| - 1;
      ChannelTotalAdds(xs, ys[..n], sameHost);
      assert (xs + ys)[..|xs| + n] == xs + ys[..n];
    }
  }

  lemma {:induction false} TakeOut(ys: seq<Transfer>, k: nat, sameHost: bool)
    requires k < |ys|
    ensures ChannelTotal(ys, sameHost)
         == ChannelTotal(ys[..k] + ys[k + 1..], sameHost) + if ys[k].sameHost == sameHost then ys[k].delay else 0.0
  {
    assert ys == ys[..k + 1] + ys[k + 1..] && ys[..k + 1][..k] == ys[..k];
    ChannelTotalAdds(ys[..k + 1], ys[k + 1..], sameHost);
    ChannelTotalAdds(ys[..k], ys[k + 1..], sameHost);
  }

  // ---------- routing a layer ----------

  datatype RoutedToken = RoutedToken(home: nat, experts: seq<int>)

  datatype RouteError = NoExperts | ExpertOutOfRange

  /** One replica on its way: the GPU it comes from and the expert it goes to. */
  datatype Replica = Replica(home: nat, expert: nat)

  /** The experts a token goes to; negative ids are padding. */
  function Selected(home: nat, experts: seq<int>): seq<Replica> {
    if experts == [] then []
    else
      var n := |experts| - 1;
      Selected(home, experts[..n]) + if experts[n] >= 0 then [Replica(home, experts[n])] else []
  }

  /** All replicas of the first n tokens, in the order they are routed. */
  function Replicas(tokens: seq<RoutedToken>, n: nat): seq<Replica>
    requires n <= |tokens|
  {
    if n == 0 then [] else Replicas(tokens, n - 1) + Selected(tokens[n - 1].home, tokens[n - 1].experts)
  }

  /** The homes, and the local queues, of the replicas that one worker receives. */
  function Homes(rs: seq<Replica>, w: nat, perWorker: nat): multiset<nat>
    requires perWorker > 0
  {
    if rs == [] then multiset{}
    else
      var n := |rs| - 1;
      Homes(rs[..n], w, perWorker) + if rs[n].expert / perWorker == w then multiset{rs[n].home} else multiset{}
  }

  function Locals(rs: seq<Replica>, w: nat, perWorker: nat): multiset<nat>
    requires perWorker > 0
  {
    if rs == [] then multiset{}
    else
      var n := |rs| - 1;
      Locals(rs[..n], w, perWorker) + if rs[n].expert / perWorker == w then multiset{rs[n].expert % perWorker} else multiset{}
  }

  lemma {:induction false} SameReplicas(rs: seq<Replica>, w: nat, perWorker: nat)
    requires perWorker > 0
    ensures |Homes(rs, w, perWorker)| == |Locals(rs, w, perWorker)|
    ensures forall q :: q in Locals(rs, w, perWorker) ==> q < perWorker
  {
    if rs != [] {
      SameReplicas(rs[..|rs| - 1], w, perWorker);
    }
  }

  function Experts(rs: seq<Replica>): seq<nat> {
    if rs == [] then [] else Experts(rs[..|rs| - 1]) + [rs[|rs| - 1].expert]
  }

  /** Queue q of worker w is that of expert w * perWorker + q. */
  lemma {:induction false} QueueOfExpert(rs: seq<Replica>, w: nat, q: nat, perWorker: nat)
    requires q < perWorker
    ensures Locals(rs, w, perWorker)[q] == multiset(Experts(rs))[w * perWorker + q]
  {
    if rs != [] {
      var n := |rs| - 1;
      QueueOfExpert(rs[..n], w, q, perWorker);
      DivMod(rs[n].expert, perWorker);
      if rs[n].expert == w * perWorker + q {
        QuotientOf(perWorker, w, q);
      }
    }
  }

  function SumSeq(xs: seq<nat>): nat {
    if xs == [] then 0 else SumSeq(xs[..|xs| - 1]) + xs[|xs| - 1]
  }

  /** Counting a bag key by key, over distinct keys that cover it, counts all of it. */
  lemma {:induction false} CountByKey(bag: multiset<nat>, keys: seq<nat>, counts: seq<nat>)
    requires Distinct(keys) && |counts| == |keys| && (forall k :: k in bag ==> k in keys)
    requires forall i :: 0 <= i < |keys| ==> counts[i] == bag[keys[i]]
    ensures SumSeq(counts) == |bag|
    decreases |keys|
  {
    if keys == [] {
      assert bag == multiset{};
    } else {
      var n := |keys| - 1;
      var key := keys[n];
      var rest := bag[key := 0];
      assert keys == keys[..n] + [key];
      forall i | 0 <= i < n ensures counts[..n][i] == rest[keys[..n][i]] {
        assert keys[i] != key;
      }
      CountByKey(rest, keys[..n], counts[..n]);
      assert bag == rest[key := bag[key]];
    }
  }

  datatype Routing = Routing(queues: seq<seq<nat>>, sources: map<nat, map<nat, nat>>)

  /** What one worker receives from each sending GPU. */
  function Row(sources: map<nat, map<nat, nat>>, w: nat): map<nat, nat> {
    if w in sources then sources[w] else map[]
  }

  function SourceCount(sources: map<nat, map<nat, nat>>, w: nat, home: nat): nat {
    if home in Row(sources, w) then Row(sources, w)[home] else 0
  }

  ghost predicate QueuesTally(rs: seq<Replica>, workers: nat, perWorker: nat, queues: seq<seq<nat>>)
    requires perWorker > 0
  {
    && |queues| == workers
    && forall w :: 0 <= w < workers ==> |queues[w]| == perWorker && QueueTally(Locals(rs, w, perWorker), queues[w])
  }

  ghost predicate QueueTally(bag: multiset<nat>, queue: seq<nat>) {
    forall q: nat :: q < |queue| ==> queue[q] == bag[q]
  }

  ghost predicate SourcesTally(rs: seq<Replica>, perWorker: nat, sources: map<nat, map<nat, nat>>)
    requires perWorker > 0
  {
    && (forall w: nat, home: nat :: SourceCount(sources, w, home) == Homes(rs, w, perWorker)[home])
    && (forall w: nat, home :: home in Row(sources, w) ==> Row(sources, w)[home] > 0)
  }

  function CountQueue(queues: seq<seq<nat>>, w: nat, q: nat): seq<seq<nat>>
    requires w < |queues| && q < |queues[w]|
  {
    queues[w := queues[w][q := queues[w][q] + 1]]
  }

  function CountSource(sources: map<nat, map<nat, nat>>, w: nat, home: nat): map<nat, map<nat, nat>> {
    sources[w := Row(sources, w)[home := SourceCount(sources, w, home) + 1]]
  }

  lemma {:induction false} CountQueueKeeps(rs: seq<Replica>, r: Replica, workers: nat, perWorker: nat, queues: seq<seq<nat>>)
    requires perWorker > 0 && r.expert / perWorker < workers && QueuesTally(rs, workers, perWorker, queues)
    ensures QueuesTally(rs + [r], workers, perWorker, CountQueue(queues, r.expert / perWorker, r.expert % perWorker))
  {
    assert (rs + [r])[..|rs|] == rs;
  }

  lemma {:induction false} CountSourceKeeps(rs: seq<Replica>, r: Replica, perWorker: nat, sources: map<nat, map<nat, nat>>)
    requires perWorker > 0 && SourcesTally(rs, perWorker, sources)
    ensures SourcesTally(rs + [r], perWorker, CountSource(sources, r.expert / perWorker, r.home))
  {
    assert (rs + [r])[..|rs|] == rs;
    var at := r.expert / perWorker;
    var more := CountSource(sources, at, r.home);
    forall w: nat, home: nat
      ensures SourceCount(more, w, home) == Homes(rs + [r], w, perWorker)[home]
      ensures home in Row(more, w) ==> Row(more, w)[home] > 0
    {
      assert SourceCount(sources, w, home) == Homes(rs, w, perWorker)[home];
      assert w != at ==> Row(more, w) == Row(sources, w);
    }
  }

  /** Counts one replica in both tallies. */
  method RouteReplica(ghost rs: seq<Replica>, r: Replica, workers: nat, perWorker: nat, before: Routing)
    returns (routing: Routing)
    requires perWorker > 0 && r.expert < workers * perWorker
    requires QueuesTally(rs, workers, perWorker, before.queues) && SourcesTally(rs, perWorker, before.sources)
    ensures QueuesTally(rs + [r], workers, perWorker, routing.queues) && SourcesTally(rs + [r], perWorker, routing.sources)
  {
    hide SourcesTally, Locals;
    QuotientBound(workers, perWorker, r.expert);
    var w, q := r.expert / perWorker, r.expert % perWorker;
    CountQueueKeeps(rs, r, workers, perWorker, before.queues);
    CountSourceKeeps(rs, r, perWorker, before.sources);
    routing := Routing(CountQueue(before.queues, w, q), CountSource(before.sources, w, r.home));
  }

  /** `counts` lists what a worker receives, one entry for each of its senders, in any order. */
  ghost predicate Lists(row: map<nat, nat>, senders: seq<nat>, counts: seq<nat>) {
    && Distinct(senders) && |counts| == |senders|
    && (forall home :: home in row ==> home in senders)
    && (forall i :: 0 <= i < |senders| ==> senders[i] in row && counts[i] == row[senders[i]])
  }

  lemma {:induction false} ReceivedIsHomes(rs: seq<Replica>, perWorker: nat, sources: map<nat, map<nat, nat>>, w: nat,
                        senders: seq<nat>, counts: seq<nat>)
    requires perWorker > 0 && SourcesTally(rs, perWorker, sources) && Lists(Row(sources, w), senders, counts)
    ensures SumSeq(counts) == |Homes(rs, w, perWorker)|
  {
    hide Homes, Row;
    var homes := Homes(rs, w, perWorker);
    forall i | 0 <= i < |senders| ensures counts[i] == homes[senders[i]] {
      assert SourceCount(sources, w, senders[i]) == homes[senders[i]];
    }
    forall home | home in homes ensures home in senders {
      assert SourceCount(sources, w, home) == homes[home];
    }
    CountByKey(homes, senders, counts);
  }

  lemma {:induction false} LoadIsLocals(rs: seq<Replica>, workers: nat, perWorker: nat, queues: seq<seq<nat>>, w: nat)
    requires perWorker > 0 && w < workers && QueuesTally(rs, workers, perWorker, queues)
    ensures SumSeq(queues[w]) == |Locals(rs, w, perWorker)|
  {
    hide Locals;
    SameReplicas(rs, w, perWorker);
    var keys := seq(perWorker, i requires 0 <= i => i);
    forall q | q in Locals(rs, w, perWorker) ensures q in keys {
      assert keys[q] == q;
    }
    CountByKey(Locals(rs, w, perWorker), keys, queues[w]);
  }

  /** The replicas a worker serves are the replicas its port receives, summed over the sending GPUs. */
  lemma {:induction false} LoadsAreTransfers(rs: seq<Replica>, workers: nat, perWorker: nat, routing: Routing, w: nat,
                          senders: seq<nat>, counts: seq<nat>)
    requires perWorker > 0 && w < workers
    requires QueuesTally(rs, workers, perWorker, routing.queues) && SourcesTally(rs, perWorker, routing.sources)
    requires Lists(Row(routing.sources, w), senders, counts)
    ensures SumSeq(counts) == SumSeq(routing.queues[w])
  {
    ReceivedIsHomes(rs, perWorker, routing.sources, w, senders, counts);
    LoadIsLocals(rs, workers, perWorker, routing.queues, w);
    SameReplicas(rs, w, perWorker);
  }

  /** A token can be routed when some expert is selected and every selected one exists. */
  predicate Routable(t: RoutedToken, experts: nat) {
    Selected(t.home, t.experts) != [] && forall i :: 0 <= i < |t.experts| ==> t.experts[i] < experts
  }

  /** Tallies every replica by its worker's queue and by the GPU it comes from. */
  method RouteLayer(tokens: seq<RoutedToken>, workers: nat, perWorker: nat) returns (r: Result<Routing, RouteError>)
    requires perWorker > 0
    ensures r.Success? <==> forall i :: 0 <= i < |tokens| ==> Routable(tokens[i], workers * perWorker)
    ensures r.Success? ==> QueuesTally(Replicas(tokens, |tokens|), workers, perWorker, r.value.queues)
    ensures r.Success? ==> SourcesTally(Replicas(tokens, |tokens|), perWorker, r.value.sources)
  {
    hide QueuesTally, SourcesTally;
    var routing := Empty(workers, perWorker);
    EmptyTally(workers, perWorker);
    for i := 0 to |tokens|
      invariant forall k :: 0 <= k < i ==> Routable(tokens[k], workers * perWorker)
      invariant QueuesTally(Replicas(tokens, i), workers, perWorker, routing.queues)
      invariant SourcesTally(Replicas(tokens, i), perWorker, routing.sources)
    {
      if Selected(tokens[i].home, tokens[i].experts) == [] {
        return Failure(NoExperts);
      }
      var next := RouteToken(Replicas(tokens, i), tokens[i], workers, perWorker, routing);
      if next.Failure? {
        return next;
      }
      routing := next.value;
    }
    r := Success(routing);
  }

  function Empty(workers: nat, perWorker: nat): Routing {
    Routing(seq(workers, _ => seq(perWorker, _ => 0)), map[])
  }

  lemma {:induction false} EmptyTally(workers: nat, perWorker: nat)
    requires perWorker > 0
    ensures QueuesTally([], workers, perWorker, Empty(workers, perWorker).queues)
    ensures SourcesTally([], perWorker, Empty(workers, perWorker).sources)
  {
  }

  method RouteToken(ghost rs: seq<Replica>, t: RoutedToken, workers: nat, perWorker: nat, before: Routing)
    returns (r: Result<Routing, RouteError>)
    requires perWorker > 0
    requires QueuesTally(rs, workers, perWorker, before.queues) && SourcesTally(rs, perWorker, before.sources)
    ensures r.Success? <==> forall i :: 0 <= i < |t.experts| ==> t.experts[i] < workers * perWorker
    ensures r.Success? ==> QueuesTally(rs + Selected(t.home, t.experts), workers, perWorker, r.value.queues)
    ensures r.Success? ==> SourcesTally(rs + Selected(t.home, t.experts), perWorker, r.value.sources)
  {
    hide QueuesTally, SourcesTally;
    var routing := before;
    assert rs + [] == rs;
    for j := 0 to |t.experts|
      invariant forall i :: 0 <= i < j ==> t.experts[i] < workers * perWorker
      invariant QueuesTally(rs + Selected(t.home, t.experts[..j]), workers, perWorker, routing.queues)
      invariant SourcesTally(rs + Selected(t.home, t.experts[..j]), perWorker, routing.sources)
    {
      var expert := t.experts[j];
      ghost var done := rs + Selected(t.home, t.experts[..j]);
      assert t.experts[..j + 1][..j] == t.experts[..j];
      if expert >= 0 {
        if expert >= workers * perWorker {
          return Failure(ExpertOutOfRange);
        }
        routing := RouteReplica(done, Replica(t.home, expert), workers, perWorker, routing);
        assert done + [Replica(t.home, expert)] == rs + Selected(t.home, t.experts[..j + 1]);
      } else {
        assert done == rs + Selected(t.home, t.experts[..j + 1]);
      }
    }
    assert t.experts[..|t.experts|] == t.experts;
    r := Success(routing);
  }
}
